/** The client peer (symbol O, moves second): TicTacToeClient without its widgets and
    socket. Unlike the server it also reads the WINNER, DRAW and TIMEOUT frames, saves
    the chat before an inbound reset, and its reset arms no turn timer. */
module Client {
  import opened GameBoard
  import opened Frames
  import opened SessionState

  /** reset_game on the client: a new empty board, the server's turn, a full turn of
      time, timers allowed again and an empty chat; timer_running and any timer
      thread are left as they were. */
  function Reinitialised(st: Session): (r: Session)
  {
    st.(board := EmptyBoard(), turn := false, timeLeft := TurnSeconds, stopTimers := false,
        status := Waiting, chat := [])
  }

  /** Who the client declares the winner of a TIMEOUT, given `loser`, the loser's name
      as read from the frame (the first word of what was sent): always one of the two
      names, never that read name (as long as the two names differ), and the client's
      own player whenever the read name is not the client's player name. */
  function TimeoutWinner(playerName: string, serverName: string, loser: string): (w: string)
    ensures w == playerName || w == serverName
    ensures playerName != serverName ==> w != loser
    ensures loser != playerName ==> w == playerName
  {
    if loser != playerName then playerName else serverName
  }

  /** The server's turn timer runs out: its TIMEOUT frame carries the server's whole
      player name P, the client reads back only P's first word, and when it knows the
      server as P it declares its own player the winner exactly when that first word
      is not its own player's name. */
  lemma ServerTimeoutVerdict(server: Session, clientPlayer: string)
    requires server.timeLeft == 0 && !server.stopTimers
    requires Tokens(server.playerName) != []
    ensures var sent := TimerExit(server).outbox;
      var first := Tokens(server.playerName)[0];
      && sent == server.outbox + [TimeoutFrame(server.playerName)]
      && Decode(Client, sent[|sent| - 1]) == Timeout(first)
      && (server.playerName != clientPlayer ==>
            (TimeoutWinner(clientPlayer, server.playerName, first) == clientPlayer
             <==> first != clientPlayer))
  {
    DecodeTimeoutFrame(server.playerName);
  }

  /** A one-word server name other than the client's always credits the client. */
  lemma ServerTimeoutCreditsClient(server: Session, clientPlayer: string, serverName: string)
    requires server.timeLeft == 0 && !server.stopTimers
    requires IsWord(server.playerName) && server.playerName != clientPlayer
    ensures var sent := TimerExit(server).outbox;
      && sent == server.outbox + [TimeoutFrame(server.playerName)]
      && Decode(Client, sent[|sent| - 1]) == Timeout(server.playerName)
      && TimeoutWinner(clientPlayer, serverName, server.playerName) == clientPlayer
  {
    TimeoutRoundTrip(server.playerName);
  }

  /** As written, a server player "Bob Smith" who times out against a client player
      "Bob" is declared the winner: the client reads the loser as "Bob", its own name. */
  lemma TimedOutServerCredited()
    ensures Decode(Client, TimeoutFrame("Bob Smith")) == Timeout("Bob")
    ensures TimeoutWinner("Bob", "Bob Smith", "Bob") == "Bob Smith"
  {
    assert IsWord("Bob") && IsWord("Smith");
    TokensOfSpaced("Bob", "Smith");
    TokensOfWord("Smith", []);
    assert "Bob" + " " + "Smith" == "Bob Smith";
    assert "Smith" + [] == "Smith";
    DecodeTimeoutFrame("Bob Smith");
  }

  class ClientSession {
    var board: array<Cell>
    var turn: bool
    var timeLeft: nat
    var stopTimers: bool
    var timerRunning: bool
    var timerThread: bool
    const playerName: string
    var serverName: string
    var chat: seq<string>
    var saved: seq<seq<string>>
    var outbox: seq<string>
    var status: Status
    var receiving: bool

    ghost predicate Valid()
      reads this
    {
      board.Length == 9
    }

    ghost function View(): Session
      reads this, board
    {
      Session(board[..], turn, timeLeft, stopTimers, timerRunning, timerThread,
              playerName, serverName, chat, saved, outbox, status, receiving)
    }

    /** __init__ after connecting: the server is called "Server" until its NAME frame
        arrives; send_name has sent the client's NAME frame and cleared the timer flags;
        the game is reset and the receive loop runs. */
    constructor (playerName: string)
      ensures Valid() && fresh(board)
      ensures View() == Session(EmptyBoard(), false, TurnSeconds, false, false, false,
                                playerName, "Server", [], [], [NameFrame(playerName)], Waiting, true)
    {
      this.playerName := playerName;
      serverName := "Server";
      board := new Cell[9](_ => Empty);
      turn, timeLeft, stopTimers := false, TurnSeconds, false;
      chat, saved := [], [];
      status := Waiting;
      receiving := false;
      outbox := [NameFrame(playerName)];
      timerThread, timerRunning := false, false;
      new;
      ResetGame();
      receiving := true;
    }

    method ResetGame()
      modifies this
      ensures Valid() && fresh(board)
      ensures View() == Reinitialised(old(View()))
    {
      board := new Cell[9](_ => Empty);
      turn := false;
      timeLeft := TurnSeconds;
      stopTimers := false;
      status := Waiting;
      chat := [];
      assert board[..] == EmptyBoard();
    }

    /** A click on cell i: accepted only on the client's turn and on an empty cell. */
    method MakeMove(i: Index)
      requires Valid()
      modifies this, board
      ensures Valid() && board == old(board)
      ensures !old(turn && board[i] == Empty) ==> View() == old(View())
      ensures old(turn && board[i] == Empty) ==>
        View() == Conclude(old(View()).(board := old(board[..])[i := O],
                                        outbox := old(outbox) + [MoveFrame(i)],
                                        turn := false, timerRunning := false, status := Waiting),
                           O, playerName)
    {
      if turn && board[i] == Empty {
        board[i] := O;
        outbox := outbox + [MoveFrame(i)];
        turn := false;
        timerRunning := false;
        status := Waiting;
        CheckWinner(O);
      }
    }

    /** One pass of the receive loop. Once a frame has failed to parse the loop is over
        and later frames change nothing. */
    method Receive(data: string)
      requires Valid()
      modifies this, board
      ensures Valid() && (board == old(board) || fresh(board))
      ensures !old(receiving) ==> View() == old(View())
      ensures old(receiving) ==> match Decode(Client, data)
        case Move(i) =>
          View() == Conclude(old(View()).(board := old(board[..])[i := X], turn := true,
                                          timerRunning := true, timerThread := true,
                                          timeLeft := TurnSeconds, status := YourTurn),
                             X, old(serverName))
        case Chat(msg) => View() == old(View()).(chat := old(chat) + [old(serverName) + ": " + msg])
        case Reset => View() == Reinitialised(old(View()).(saved := old(saved) + [old(chat)]))
        case Name(name) => View() == old(View()).(peerName := name)
        case Winner(winner) =>
          View() == old(View()).(status := Wins(winner), stopTimers := true, saved := old(saved) + [old(chat)])
        case Draw =>
          View() == old(View()).(status := DrawShown, stopTimers := true, saved := old(saved) + [old(chat)])
        case Timeout(loser) =>
          View() == old(View()).(status := WinsOnTimeout(TimeoutWinner(playerName, old(serverName), loser), loser),
                                 stopTimers := true, saved := old(saved) + [old(chat)])
        case Malformed => View() == old(View()).(receiving := false)
        case Unrecognized => View() == old(View())
    {
      if !receiving {
        return;
      }
      match Decode(Client, data)
      case Move(i) =>
        OpponentMoved(i);
      case Chat(msg) =>
        AppendChat(serverName + ": " + msg);
      case Reset =>
        SaveChat();
        ResetGame();
      case Name(name) =>
        serverName := name;
      case Winner(winner) =>
        GameOver(Wins(winner));
      case Draw =>
        GameOver(DrawShown);
      case Timeout(loser) =>
        GameOver(WinsOnTimeout(TimeoutWinner(playerName, serverName, loser), loser));
      case Malformed =>
        receiving := false;
      case Unrecognized =>
        assert View() == old(View());
    }

    /** The MOVE branch: the server's X goes into cell i whatever the cell held, the
        turn passes to the client with a full turn of time and a started timer, and
        the board is checked for an X win. */
    method OpponentMoved(i: Index)
      requires Valid()
      modifies this, board
      ensures Valid() && board == old(board)
      ensures View() == Conclude(old(View()).(board := old(board[..])[i := X], turn := true,
                                              timerRunning := true, timerThread := true,
                                              timeLeft := TurnSeconds, status := YourTurn),
                                 X, serverName)
    {
      board[i] := X;
      turn := true;
      timerRunning := true;
      timerThread := true;
      timeLeft := TurnSeconds;
      status := YourTurn;
      CheckWinner(X);
      timerThread := true;  // the second timer thread started here merges with the first
    }

    /** The WINNER, DRAW and TIMEOUT branches: show the result, stop the timers, save the chat. */
    method GameOver(shown: Status)
      requires Valid()
      modifies this`status, this`stopTimers, this`saved
      ensures View() == old(View()).(status := shown, stopTimers := true, saved := old(saved) + [old(chat)])
    {
      status := shown;
      stopTimers := true;
      SaveChat();
    }

    /** check_winner: the winner is the client's player for O and the server for X. */
    method CheckWinner(symbol: Cell)
      requires Valid()
      modifies this`status, this`outbox, this`stopTimers, this`saved
      ensures View() == Conclude(old(View()), symbol, if symbol == O then playerName else serverName)
    {
      var won := ScanWinLines(board, symbol);
      if won {
        var winner := if symbol == O then playerName else serverName;
        status := Wins(winner);
        outbox := outbox + [WinnerFrame(winner)];
        stopTimers := true;
        SaveChat();
        return;
      }
      if Empty !in board[..] {
        status := DrawShown;
        outbox := outbox + [DrawFrame];
        stopTimers := true;
        SaveChat();
      }
    }

    /** An empty message sends nothing and adds nothing to the chat. */
    method SendChat(msg: string)
      modifies this`outbox, this`chat
      ensures msg == "" ==> outbox == old(outbox) && chat == old(chat)
      ensures msg != "" ==> outbox == old(outbox) + [ChatFrame(msg)] && chat == old(chat) + ["You: " + msg]
    {
      if msg != "" {
        outbox := outbox + [ChatFrame(msg)];
        AppendChat("You: " + msg);
      }
    }

    method AppendChat(line: string)
      modifies this`chat
      ensures chat == old(chat) + [line]
    {
      chat := chat + [line];
    }

    /** The reset button: tell the server, save the chat, then reset. */
    method SendReset()
      modifies this
      ensures Valid() && fresh(board)
      ensures View() == Reinitialised(old(View()).(outbox := old(outbox) + [ResetFrame],
                                                   saved := old(saved) + [old(chat)]))
    {
      outbox := outbox + [ResetFrame];
      SaveChat();
      ResetGame();
    }

    /** save_chat: the chat lines are written out (the file itself is not modelled). */
    method SaveChat()
      modifies this`saved
      ensures saved == old(saved) + [chat]
    {
      saved := saved + [chat];
    }

    /** One step of a running turn-timer thread: while the loop condition holds, one
        second passes; otherwise the loop ends, a timeout fires if no time is left and
        the game is on, and the thread ends. Without a live thread nothing happens. */
    method Tick()
      requires Valid()
      modifies this`timeLeft, this`timerThread, this`status, this`outbox, this`stopTimers, this`saved
      ensures !old(timerThread) ==> View() == old(View())
      ensures old(timerThread) && old(Counting(View())) ==> View() == old(View()).(timeLeft := old(timeLeft) - 1)
      ensures old(timerThread) && !old(Counting(View())) ==> View() == TimerExit(old(View()))
    {
      if !timerThread {
        return;
      }
      if timeLeft > 0 && !stopTimers && timerRunning {
        timeLeft := timeLeft - 1;
      } else {
        if timeLeft == 0 && !stopTimers {
          status := TimeUp;
          outbox := outbox + [TimeoutFrame(playerName)];
          stopTimers := true;
          SaveChat();
        }
        timerThread := false;
      }
    }

    /** start_turn_timer run in a new thread with nothing else happening meanwhile: if
        the timer is armed and the game is on, the whole turn runs out and exactly one
        TIMEOUT naming the client's player is sent; otherwise the time left stays as it
        is and TIMEOUT is sent only if it was already zero with the game on. */
    method StartTurnTimer()
      requires Valid()
      modifies this`timeLeft, this`timerThread, this`status, this`outbox, this`stopTimers, this`saved
      ensures Counting(old(View())) ==> View() == TimerExit(old(View()).(timeLeft := 0))
      ensures !Counting(old(View())) ==> View() == TimerExit(old(View()))
    {
      timerThread := true;
      ghost var start := View();
      while timerThread
        invariant Valid()
        invariant timerThread ==> View() == start.(timeLeft := timeLeft)
        invariant timerThread && !Counting(start) ==> timeLeft == start.timeLeft
        invariant !timerThread ==>
          View() == TimerExit(start.(timeLeft := if Counting(start) then 0 else start.timeLeft))
        decreases timerThread, timeLeft
      {
        Tick();
      }
    }
  }
}
