# Tic-tac-toe session engine, modelled in Dafny

Two peers play tic-tac-toe over one TCP connection. The server plays X and moves
first. The client plays O and moves second. Each peer keeps its own copy of the
9-cell board, a `turn` flag, a 60-second turn timer (`time_left`, `timer_running`,
`stop_timers`), the opponent's display name and a chat log. The peers exchange
short text frames: `MOVE i`, `CHAT msg`, `NAME n`, `RESET`, `WINNER name`, `DRAW`
and `TIMEOUT name`.

This project models the session engine inside the two classes `TicTacToeServer`
and `TicTacToeClient`:

- `game_board.dfy` (`GameBoard`): the board, the win list, the scan loop of
  `check_winner`, and a geometric reference definition of "three in a row".
  It also states what alternating legal play leads to.
- `frames.dfy` (`Frames`): how each peer writes frames and how `receive_data`
  reads them back. Reading uses a prefix test, then `data[5:]` (CHAT, NAME),
  or the second token of `data.split()`: passed through `int()` for MOVE, taken as it
  is for WINNER and TIMEOUT. The round trips are proved.
- `session_state.dfy` (`SessionState`): a snapshot of one peer's fields as a
  value. It also holds the two effects both peers share: what `check_winner`
  announces, and the end of `start_turn_timer`.
- `server.dfy` (`Server.ServerSession`) and `client.dfy`
  (`Client.ClientSession`): the two peers as classes. Each has the source's
  fields. The board is an `array<Cell>` updated in place. Every method states the
  peer's new state in terms of the old one. Most do it through `View()`, a
  snapshot of all fields. `SendChat`, `AppendChat` and `SaveChat` state the fields
  they change directly, and their field-level `modifies` clauses keep the rest.

Frames a peer sends are appended to its `outbox`. Each inbound frame is one call
of `Receive`: one pass of the `while True` loop. A frame whose parsing raises
inside the loop (a `MOVE` whose index is missing, not a number or 9 or more, or a
`WINNER`/`TIMEOUT` without a name) is `Malformed`. The bare `except: break` then
ends the loop: `receiving` becomes false and later frames change nothing. Each
`save_chat` appends the current chat lines to `saved`. The status label is kept
as a `Status` value, because it carries the winner each peer declares. A running
turn-timer thread is the flag `timerThread`. `Tick` is one evaluation of that
thread's loop condition. `StartTurnTimer` starts the thread and runs it to its
end with nothing else happening in between.

Behaviours of the code that the model keeps:

- The server has no `WINNER`, `DRAW` or `TIMEOUT` branch and ignores those frames.
- The server does not save the chat on an inbound `RESET`; the client does.
- The client's `reset_game` arms no turn timer and leaves `timer_running` as it was.
- Nothing freezes the board after a game ends except disabled buttons (see Left out).
- A TIMEOUT frame's loser is only the first word of the name sent. A server player whose
  name's first whitespace-separated word is the client's whole player name is credited
  with the win when it times out: the client shows its `server_name` as the winner.
- Terminal frames are not made idempotent: a second `WINNER`/`DRAW` saves the chat again.

## Model

| member | source | states |
|---|---|---|
| GameBoard.EmptyBoard | server.py:86 | a new board is nine empty cells |
| GameBoard.HasLineIffThreeInARow | server.py:145 | the win list holds exactly the three rows, the three columns and the two diagonals: a board has a completed line from the list iff it has three in a row by (row, column) geometry |
| GameBoard.ScanWinLines | server.py:145-147 | the loop over the win list returns true iff some line has all three cells equal to the symbol |
| GameBoard.EmptyCountZero | server.py:156 | the number of empty cells is zero iff `"" not in board` |
| GameBoard.FillEmptyCell | server.py:109-110 | putting a symbol into an empty cell leaves one empty cell fewer |
| GameBoard.Replay | server.py:110 | replaying alternating moves (X written as at server.py:110, O as at client.py:98; legality is checked separately by `LegalGame`) always yields a 9-cell board |
| GameBoard.LegalGameEmptyCount | server.py:109-110 | after k legal alternating moves (each into an empty cell), 9 - k cells are empty, so no legal game has more than nine moves |
| GameBoard.NinthMoveConcludes | server.py:144-160 | after nine legal moves the board is full and the check after the ninth move finds a win or a draw, never an open game |
| GameBoard.TopRowGame | server.py:145-155 | in the game X 0, O 4, X 1, O 5, X 2 every check before the fifth move finds the game open, and the fifth move's check finds X's top row |
| Frames.ParseIndex | server.py:124 | a token the model's `int()` accepts (an optional '+' then ASCII digits) is non-empty and starts with a digit or '+' |
| Frames.NatToStringRoundTrip | server.py:112 | the decimal text of a number is a non-empty digit string whose value is that number |
| Frames.ParseIndexOfNat | server.py:124 | `int()` of the text `MOVE {i}` carries gives back i |
| Frames.WordLength | server.py:124 | the leading word length stops at the first whitespace character, or at the end of the string |
| Frames.Tokens | server.py:124 | every token `split()` returns is non-empty and free of whitespace |
| Frames.TokensOfWord | client.py:144 | a word followed by whitespace or by nothing is the first token |
| Frames.TokensOfSpaced | client.py:159 | the tokens of `keyword + " " + rest` are the keyword followed by the tokens of rest |
| Frames.SecondTokenAfterKeyword | client.py:144 | `split()[1]` of `keyword + " " + rest` is the first token of rest, and raises when rest has none |
| Frames.SecondToken | client.py:159 | `split()[1]`, when present, is a single whitespace-free word |
| Frames.Decode | client.py:115-165 | the dispatch of one frame, following the client's chain and, for the server role, the server's chain at server.py:123-140: the server never yields WINNER/DRAW/TIMEOUT, a WINNER or TIMEOUT name is one word, and only MOVE, WINNER and TIMEOUT frames can fail to parse |
| Frames.MoveRoundTrip | server.py:123-125 | the frame `MOVE {i}` one peer sends reads back on the other as a move to cell i, for every cell |
| Frames.ChatRoundTrip | client.py:129-130 | `CHAT msg` reads back as exactly msg, embedded spaces included |
| Frames.NameRoundTrip | server.py:139-140 | `NAME n` reads back as exactly n |
| Frames.ResetAndDrawDecode | client.py:152 | `RESET` reads as a reset on both peers; `DRAW` is a draw on the client and ignored by the server |
| Frames.ServerIgnoresVerdicts | server.py:123-140 | `WINNER name` and `TIMEOUT name` match no branch of the server's dispatch |
| Frames.DecodeWinnerFrame | client.py:143-144 | the client takes the first word of a WINNER frame's name as the winner; a name with no word (an empty name) makes parsing raise |
| Frames.WinnerRoundTrip | client.py:143-144 | the client reads a WINNER name back unchanged iff the name is one whitespace-free word |
| Frames.DecodeTimeoutFrame | client.py:158-159 | the client takes the first word of a TIMEOUT frame's name as the loser; a name with no word makes parsing raise |
| Frames.TimeoutRoundTrip | client.py:158-159 | the client reads a TIMEOUT name back unchanged iff the name is one whitespace-free word |
| Frames.FirstTokenIsWhole | client.py:144 | a string is its own first token iff it is a single word |
| Frames.UnknownFramesIgnored | client.py:115-158 | a frame starting with none of the seven keywords matches no branch |
| SessionState.ConcludeAnnouncesOnce | server.py:144-160 | check_winner sends WINNER iff the symbol completes a line, and sends DRAW iff it completes none and no cell is empty; it sends nothing otherwise, ends the game exactly when it sends a frame, and never touches board, turn or time |
| SessionState.TimeoutFiresOnce | server.py:190-196 | the timeout sends at most one `TIMEOUT` frame with the peer's own name, and only when no time is left and the game is on; it sets stop_timers, so a second expiry sends nothing |
| Server.ServerSession.constructor | server.py:15-37 | after start-up the server has sent `NAME player`, knows the client's name, and holds a reset game with its own turn timer started |
| Server.ServerSession.ResetGame | server.py:85-103 | a new board of nine empty cells, turn = true, time_left = 60, stop_timers = false, status "Your turn", empty chat, timer_running = true with a started timer thread; nothing else changes |
| Server.ServerSession.MakeMove | server.py:108-116 | not the server's turn, or an occupied cell: nothing changes and no frame is sent. Otherwise only cell i becomes X, `MOVE i` is sent, turn and timer_running become false, and then the X win check runs |
| Server.ServerSession.Receive | server.py:119-142 | one inbound frame. MOVE i: cell i becomes O, the turn and the timer are the server's, the O check runs, then time_left = 60. CHAT appends `client_name: msg`. RESET resets. NAME replaces client_name. A malformed frame ends the loop. Anything else (WINNER, DRAW, TIMEOUT included) changes nothing, and so does every frame after the loop has ended |
| Server.ServerSession.OpponentMoved | server.py:124-133 | the MOVE branch: O overwrites cell i whatever it held, turn = true, timer_running = true, the O check, then time_left = 60 |
| Server.ServerSession.CheckWinner | server.py:144-160 | win before draw; WINNER names player_name for X and client_name otherwise; a win or draw sets stop_timers and saves the chat |
| Server.ServerSession.SendChat | server.py:162-167 | an empty message sends and appends nothing; otherwise `CHAT msg` is sent and `You: msg` appended |
| Server.ServerSession.AppendChat | server.py:169-172 | the line is appended to the chat |
| Server.ServerSession.SendReset | server.py:174-177 | `RESET` is sent, the chat saved, then the game reset |
| Server.ServerSession.SaveChat | server.py:179-183 | the current chat lines are written out |
| Server.ServerSession.Tick | server.py:186-196 | while time is left, the game is on and the timer runs, one second passes; otherwise the loop ends, TIMEOUT with the server's name fires only at zero with the game on, and the thread ends |
| Server.ServerSession.StartTurnTimer | server.py:185-196 | run alone, an armed timer of an ongoing game counts down to 0 and sends exactly one TIMEOUT with the server's name; a disarmed or stopped timer keeps its time and sends TIMEOUT only if time was already 0 with the game on |
| Client.TimeoutWinner | client.py:160 | given the loser's name as read from the frame (only the first word of what was sent), the declared winner is one of the two names; when the two names differ it is never that read name; and the client's own player wins whenever the read name is not the client's player name |
| Client.ServerTimeoutVerdict | server.py:190-192 | when the server's timer expires with the game on, it sends exactly `TIMEOUT P` for its whole player name P; the client reads only P's first word as the loser and, knowing the server as P (P not the client's name), declares its own player the winner iff that first word is not the client's player name |
| Client.TimedOutServerCredited | client.py:159-160 | as written, a server player "Bob Smith" who times out is read as loser "Bob"; against a client player "Bob" the client declares "Bob Smith", the player who timed out, the winner |
| Client.ServerTimeoutCreditsClient | client.py:158-161 | when the server's timer expires with the game on, it sends exactly `TIMEOUT P` for its player P; the client reads P back as the loser and declares its own player the winner, for every one-word P other than the client's name |
| Client.ClientSession.constructor | client.py:15-27 | after start-up the client has sent `NAME player`, calls the server "Server", timer flags are cleared and a reset game is waiting for the server's move |
| Client.ClientSession.ResetGame | client.py:79-91 | a new board of nine empty cells, turn = false, time_left = 60, stop_timers = false, status "Waiting for opponent move", empty chat; timer_running and the timer thread unchanged (no timer armed); nothing else changes |
| Client.ClientSession.MakeMove | client.py:94-106 | the same guard as the server's; a successful move sets only cell i to O, sends `MOVE i`, clears turn and timer_running, then runs the O win check |
| Client.ClientSession.Receive | client.py:109-167 | one inbound frame. MOVE i: X in cell i, then turn, timer and time_left = 60, then the X check. CHAT appends `server_name: msg`. RESET saves the chat, then resets. NAME replaces server_name. WINNER shows the first word as winner. WINNER, DRAW and TIMEOUT all set stop_timers and save the chat. TIMEOUT shows TimeoutWinner. A malformed frame ends the loop |
| Client.ClientSession.OpponentMoved | client.py:116-126 | the MOVE branch: X overwrites cell i, turn = true, timer running, time_left = 60, then the X check |
| Client.ClientSession.GameOver | client.py:143-165 | the WINNER/DRAW/TIMEOUT effect: the result is shown, stop_timers set and the chat saved, nothing else |
| Client.ClientSession.CheckWinner | client.py:170-191 | win before draw; WINNER names player_name for O and server_name otherwise; a win or draw sets stop_timers and saves the chat |
| Client.ClientSession.SendChat | client.py:194-199 | an empty message sends and appends nothing; otherwise `CHAT msg` is sent and `You: msg` appended |
| Client.ClientSession.AppendChat | client.py:202-205 | the line is appended to the chat |
| Client.ClientSession.SendReset | client.py:208-211 | `RESET` is sent, the chat saved, then the game reset |
| Client.ClientSession.SaveChat | client.py:214-218 | the current chat lines are written out |
| Client.ClientSession.Tick | client.py:222-233 | one step of the timer thread, as on the server, with TIMEOUT naming the client's player |
| Client.ClientSession.StartTurnTimer | client.py:221-233 | run alone, an armed timer of an ongoing game counts down to 0 and sends exactly one TIMEOUT with the client's name; otherwise time is kept and TIMEOUT fires only at 0 with the game on |

## Left out

- Widgets: the tkinter buttons, labels, colours, the chat widget and `mainloop`
  are not modelled. The status label is kept as an abstract `Status`.
- Disabled buttons are not modelled. In the source they are what stops clicks once
  a game has ended. So in the model, `MakeMove` still accepts a move after a game
  ends whenever the turn flag and an empty cell allow it.
- Sockets: `socket`, `bind`, `accept`, `connect`, `recv(1024)`, `sendall` and
  UTF-8 decoding are not modelled. Each inbound frame is an already-delimited
  string. The coalescing or splitting of frames by the byte stream is not modelled.
  Send failures are not modelled. An empty read after the peer closes the
  connection is an `Unrecognized` frame, as in the source, where it matches no
  branch.
- The initial handshake is not modelled. This covers the name prompt
  (`simpledialog`) and the server's parse of the client's first frame with
  `split("NAME ")[-1]`. The constructors take the names as parameters.
- Negative MOVE indices: Python's `int()` accepts `-k` and the list index then
  wraps around. The model treats such a frame as malformed. `int()` forms with
  underscores or non-ASCII digits are also treated as malformed.
- Threads: the model keeps at most one turn-timer thread per peer, the
  `timerThread` flag. A thread started while another is alive is merged with it.
  This covers the client's two threads per inbound MOVE and a server thread
  started before the previous one noticed `timer_running = False`. The races
  between the receive thread and the timer threads are not modelled; every step is
  sequential. Merging loses what a second live thread does in the source: no earlier
  thread is cancelled, so the client's two countdown threads per inbound MOVE
  (client.py:121-126) each decrement `time_left` and end its turn in about 30
  seconds, and both can reach the expiry test (client.py:227). The model counts
  one second per `Tick` and reaches that test once.
- Timing: `time.sleep` is not modelled; one `Tick` is one second. The whole-game
  timer `start_game_timer` and `game_start_time` are display only and not modelled.
- File I/O: `save_chat` appends a timestamped, whitespace-stripped copy of the chat
  widget to chatlog.txt. The model records only the list of chat lines saved at
  each call.
- The receive loop as a whole is not a method. The environment calls `Receive`
  once per frame, and the `break` is the `receiving` flag.
