/** The state one peer keeps, as a value, and the two effects the server and the
    client share word for word: check_winner's announcement and the end of
    start_turn_timer's loop. */
module SessionState {
  import opened GameBoard
  import opened Frames

  /** Seconds a player has for one turn. */
  const TurnSeconds: nat := 60

  /** The status label: the only presentation state the model keeps, because it
      carries the winner each peer declares. */
  datatype Status =
    | YourTurn                                     // "Your turn"
    | Waiting                                      // "Waiting for opponent move"
    | Wins(winner: string)                         // "<winner> wins!"
    | DrawShown                                    // "Draw!"
    | TimeUp                                       // "Time up! You lose."
    | WinsOnTimeout(winner: string, loser: string) // "<winner> wins! (<loser> timed out)"

  /** A snapshot of one peer's fields. `peerName` is the server's client_name or the
      client's server_name; `timerThread` says a turn-timer thread is alive;
      `saved` holds the chat lines each save_chat wrote out; `outbox` the frames sent;
      `receiving` is false once the receive loop has ended. */
  datatype Session = Session(
    board: seq<Cell>,
    turn: bool,
    timeLeft: nat,
    stopTimers: bool,
    timerRunning: bool,
    timerThread: bool,
    playerName: string,
    peerName: string,
    chat: seq<string>,
    saved: seq<seq<string>>,
    outbox: seq<string>,
    status: Status,
    receiving: bool)

  /** check_winner(symbol), naming `winner` if `symbol` has a line: a win is announced
      before the board is tested for a draw; either ends the game (stop_timers and
      a save of the chat); otherwise nothing changes. */
  function Conclude(st: Session, symbol: Cell, winner: string): (r: Session)
    requires |st.board| == 9
  {
    match Evaluate(st.board, symbol)
    case Won =>
      st.(status := Wins(winner), outbox := st.outbox + [WinnerFrame(winner)],
          stopTimers := true, saved := st.saved + [st.chat])
    case Drawn =>
      st.(status := DrawShown, outbox := st.outbox + [DrawFrame],
          stopTimers := true, saved := st.saved + [st.chat])
    case Open => st
  }

  /** check_winner sends at most one frame: WINNER exactly when `symbol` completes a
      line, DRAW exactly when it does not and no cell is empty; only those two end the game. */
  lemma ConcludeAnnouncesOnce(st: Session, symbol: Cell, winner: string)
    requires |st.board| == 9
    ensures var r := Conclude(st, symbol, winner);
      && (r.outbox == st.outbox + [WinnerFrame(winner)] <==> HasLine(st.board, symbol))
      && (r.outbox == st.outbox + [DrawFrame] <==> !HasLine(st.board, symbol) && IsFull(st.board))
      && (r.outbox == st.outbox <==> Evaluate(st.board, symbol) == Open)
      && (r.stopTimers <==> st.stopTimers || Evaluate(st.board, symbol) != Open)
      && r.board == st.board && r.turn == st.turn && r.timeLeft == st.timeLeft
  {
    assert WinnerFrame(winner)[0] == 'W' && DrawFrame[0] == 'D';
    assert WinnerFrame(winner) != DrawFrame;
    var r := Conclude(st, symbol, winner);
    if r.outbox == st.outbox + [WinnerFrame(winner)] {
      assert r.outbox[|st.outbox|] == WinnerFrame(winner);
    }
    if r.outbox == st.outbox + [DrawFrame] {
      assert r.outbox[|st.outbox|] == DrawFrame;
    }
    if r.outbox == st.outbox {
      assert |r.outbox| == |st.outbox|;
    }
  }

  /** The loop condition of start_turn_timer. */
  predicate Counting(st: Session)
  {
    st.timeLeft > 0 && !st.stopTimers && st.timerRunning
  }

  /** The rest of start_turn_timer once its loop has ended: with no time left and
      the game still on, declare this peer the loser, send TIMEOUT with its own name,
      stop the timers and save the chat. The thread then ends. */
  function TimerExit(st: Session): (r: Session)
  {
    var fired := st.timeLeft == 0 && !st.stopTimers;
    (if fired then
       st.(status := TimeUp, outbox := st.outbox + [TimeoutFrame(st.playerName)],
           stopTimers := true, saved := st.saved + [st.chat])
     else st).(timerThread := false)
  }

  /** A timeout fires at most once: the first sets stop_timers, and with stop_timers
      set a timer's exit sends nothing. */
  lemma TimeoutFiresOnce(st: Session)
    ensures TimerExit(st).stopTimers <==> st.stopTimers || st.timeLeft == 0
    ensures TimerExit(st).outbox == st.outbox || TimerExit(st).outbox == st.outbox + [TimeoutFrame(st.playerName)]
    ensures TimerExit(TimerExit(st)).outbox == TimerExit(st).outbox
    ensures st.timeLeft > 0 || st.stopTimers ==> TimerExit(st).outbox == st.outbox
  {
  }
}
