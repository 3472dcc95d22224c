/** The server peer (symbol X, moves first): TicTacToeServer without its widgets and
    socket. Frames it sends are appended to `outbox`; frames it reads are handed to
    Receive one at a time; the turn-timer thread advances through Tick. */
module Server {
  import opened GameBoard
  import opened Frames
  import opened SessionState

  /** reset_game on the server: a new empty board, the server's turn, a full turn of
      time, timers allowed again, an empty chat, and the turn timer armed and started. */
  function Reinitialised(st: Session): (r: Session)
  {
    st.(board := EmptyBoard(), turn := true, timeLeft := TurnSeconds, stopTimers := false,
        status := YourTurn, chat := [], timerRunning := true, timerThread := true)
  }

  class ServerSession {
    var board: array<Cell>
    var turn: bool
    var timeLeft: nat
    var stopTimers: bool
    var timerRunning: bool
    var timerThread: bool
    const playerName: string
    var clientName: string
    var chat: seq<string>
    var saved: seq<seq<string>>
    var outbox: seq<string>
    var status: Status
    var receiving: bool

    ghost predicate Valid()
      reads this
    {
      board.Length == 9
    }

    ghost function View(): Session
      reads this, board
    {
      Session(board[..], turn, timeLeft, stopTimers, timerRunning, timerThread,
              playerName, clientName, chat, saved, outbox, status, receiving)
    }

    /** __init__ after the name exchange: the server has sent its NAME frame and learnt
        `clientName`; the game is reset and the receive loop runs. */
    constructor (playerName: string, clientName: string)
      ensures Valid() && fresh(board)
      ensures View() == Session(EmptyBoard(), true, TurnSeconds, false, true, true,
                                playerName, clientName, [], [], [NameFrame(playerName)], YourTurn, true)
    {
      this.playerName := playerName;
      this.clientName := clientName;
      board := new Cell[9](_ => Empty);
      turn, timeLeft, stopTimers := true, TurnSeconds, false;
      timerRunning, timerThread := false, false;
      chat, saved := [], [];
      outbox := [NameFrame(playerName)];
      status := YourTurn;
      receiving := false;
      new;
      ResetGame();
      receiving := true;
    }

    method ResetGame()
      modifies this
      ensures Valid() && fresh(board)
      ensures View() == Reinitialised(old(View()))
    {
      board := new Cell[9](_ => Empty);
      turn := true;
      timeLeft := TurnSeconds;
      stopTimers := false;
      status := YourTurn;
      chat := [];
      if turn {
        timerRunning := true;
        timerThread := true;
      }
      assert board[..] == EmptyBoard();
    }

    /** A click on cell i: accepted only on the server's turn and on an empty cell. */
    method MakeMove(i: Index)
      requires Valid()
      modifies this, board
      ensures Valid() && board == old(board)
      ensures !old(turn && board[i] == Empty) ==> View() == old(View())
      ensures old(turn && board[i] == Empty) ==>
        View() == Conclude(old(View()).(board := old(board[..])[i := X],
                                        outbox := old(outbox) + [MoveFrame(i)],
                                        turn := false, timerRunning := false, status := Waiting),
                           X, playerName)
    {
      if turn && board[i] == Empty {
        board[i] := X;
        outbox := outbox + [MoveFrame(i)];
        turn := false;
        timerRunning := false;
        status := Waiting;
        CheckWinner(X);
      }
    }

    /** One pass of the receive loop. Once a frame has failed to parse the loop is over
        and later frames change nothing. */
    method Receive(data: string)
      requires Valid()
      modifies this, board
      ensures Valid() && (board == old(board) || fresh(board))
      ensures !old(receiving) ==> View() == old(View())
      ensures old(receiving) ==> match Decode(Server, data)
        case Move(i) =>
          View() == Conclude(old(View()).(board := old(board[..])[i := O], turn := true,
                                          timerRunning := true, timerThread := true, status := YourTurn),
                             O, old(clientName)).(timeLeft := TurnSeconds)
        case Chat(msg) => View() == old(View()).(chat := old(chat) + [old(clientName) + ": " + msg])
        case Reset => View() == Reinitialised(old(View()))
        case Name(name) => View() == old(View()).(peerName := name)
        case Malformed => View() == old(View()).(receiving := false)
        case _ => View() == old(View())
    {
      if !receiving {
        return;
      }
      match Decode(Server, data)
      case Move(i) =>
        OpponentMoved(i);
      case Chat(msg) =>
        AppendChat(clientName + ": " + msg);
      case Reset =>
        ResetGame();
      case Name(name) =>
        clientName := name;
      case Malformed =>
        receiving := false;
      case Unrecognized =>
      case Winner(_) | Draw | Timeout(_) =>
        assert false;  // the server's dispatch has no such branch
    }

    /** The MOVE branch: the client's O goes into cell i whatever the cell held, the
        turn passes to the server with a started timer, the board is checked for an
        O win, and only then is the turn's time reset. */
    method OpponentMoved(i: Index)
      requires Valid()
      modifies this, board
      ensures Valid() && board == old(board)
      ensures View() == Conclude(old(View()).(board := old(board[..])[i := O], turn := true,
                                              timerRunning := true, timerThread := true, status := YourTurn),
                                 O, clientName).(timeLeft := TurnSeconds)
    {
      board[i] := O;
      turn := true;
      timerRunning := true;
      timerThread := true;
      status := YourTurn;
      CheckWinner(O);
      timeLeft := TurnSeconds;
    }

    /** check_winner: the winner is the server's player for X and the client for O. */
    method CheckWinner(symbol: Cell)
      requires Valid()
      modifies this`status, this`outbox, this`stopTimers, this`saved
      ensures View() == Conclude(old(View()), symbol, if symbol == X then playerName else clientName)
    {
      var won := ScanWinLines(board, symbol);
      if won {
        var winner := if symbol == X then playerName else clientName;
        status := Wins(winner);
        outbox := outbox + [WinnerFrame(winner)];
        stopTimers := true;
        SaveChat();
        return;
      }
      if Empty !in board[..] {
        status := DrawShown;
        outbox := outbox + [DrawFrame];
        stopTimers := true;
        SaveChat();
      }
    }

    /** An empty message sends nothing and adds nothing to the chat. */
    method SendChat(msg: string)
      modifies this`outbox, this`chat
      ensures msg == "" ==> outbox == old(outbox) && chat == old(chat)
      ensures msg != "" ==> outbox == old(outbox) + [ChatFrame(msg)] && chat == old(chat) + ["You: " + msg]
    {
      if msg != "" {
        outbox := outbox + [ChatFrame(msg)];
        AppendChat("You: " + msg);
      }
    }

    method AppendChat(line: string)
      modifies this`chat
      ensures chat == old(chat) + [line]
    {
      chat := chat + [line];
    }

    /** The reset button: tell the client, save the chat, then reset. */
    method SendReset()
      modifies this
      ensures Valid() && fresh(board)
      ensures View() == Reinitialised(old(View()).(outbox := old(outbox) + [ResetFrame],
                                                   saved := old(saved) + [old(chat)]))
    {
      outbox := outbox + [ResetFrame];
      SaveChat();
      ResetGame();
    }

    /** save_chat: the chat lines are written out (the file itself is not modelled). */
    method SaveChat()
      modifies this`saved
      ensures saved == old(saved) + [chat]
    {
      saved := saved + [chat];
    }

    /** One step of a running turn-timer thread: while the loop condition holds, one
        second passes; otherwise the loop ends, a timeout fires if no time is left and
        the game is on, and the thread ends. Without a live thread nothing happens. */
    method Tick()
      requires Valid()
      modifies this`timeLeft, this`timerThread, this`status, this`outbox, this`stopTimers, this`saved
      ensures !old(timerThread) ==> View() == old(View())
      ensures old(timerThread) && old(Counting(View())) ==> View() == old(View()).(timeLeft := old(timeLeft) - 1)
      ensures old(timerThread) && !old(Counting(View())) ==> View() == TimerExit(old(View()))
    {
      if !timerThread {
        return;
      }
      if timeLeft > 0 && !stopTimers && timerRunning {
        timeLeft := timeLeft - 1;
      } else {
        if timeLeft == 0 && !stopTimers {
          status := TimeUp;
          outbox := outbox + [TimeoutFrame(playerName)];
          stopTimers := true;
          SaveChat();
        }
        timerThread := false;
      }
    }

    /** start_turn_timer run in a new thread with nothing else happening meanwhile: if
        the timer is armed and the game is on, the whole turn runs out and exactly one
        TIMEOUT naming the server's player is sent; otherwise the time left stays as it
        is and TIMEOUT is sent only if it was already zero with the game on. */
    method StartTurnTimer()
      requires Valid()
      modifies this`timeLeft, this`timerThread, this`status, this`outbox, this`stopTimers, this`saved
      ensures Counting(old(View())) ==> View() == TimerExit(old(View()).(timeLeft := 0))
      ensures !Counting(old(View())) ==> View() == TimerExit(old(View()))
    {
      timerThread := true;
      ghost var start := View();
      while timerThread
        invariant Valid()
        invariant timerThread ==> View() == start.(timeLeft := timeLeft)
        invariant timerThread && !Counting(start) ==> timeLeft == start.timeLeft
        invariant !timerThread ==>
          View() == TimerExit(start.(timeLeft := if Counting(start) then 0 else start.timeLeft))
        decreases timerThread, timeLeft
      {
        Tick();
      }
    }
  }
}
