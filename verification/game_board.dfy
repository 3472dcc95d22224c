/** The 3x3 board both peers hold: nine cells numbered 0..8 row by row,
    the eight winning lines, and the win/draw evaluation of check_winner. */
module GameBoard {

  /** A cell is empty or holds one of the two symbols ("", "X" and "O"). */
  datatype Cell = Empty | X | O

  /** A valid cell index. */
  type Index = i: int | 0 <= i < 9

  /** The nine-cell board of a new game. */
  function EmptyBoard(): (b: seq<Cell>)
    ensures |b| == 9 && forall i :: 0 <= i < 9 ==> b[i] == Empty
  {
    seq(9, _ => Empty)
  }

  /** The winning lines, in the order check_winner scans them:
      three rows, three columns, two diagonals. */
  const WinLines: seq<(Index, Index, Index)> :=
    [(0, 1, 2), (3, 4, 5), (6, 7, 8), (0, 3, 6), (1, 4, 7), (2, 5, 8), (0, 4, 8), (2, 4, 6)]

  /** All three cells of `line` hold `s`. */
  predicate Completes(b: seq<Cell>, line: (Index, Index, Index), s: Cell)
    requires |b| == 9
  {
    b[line.0] == s && b[line.1] == s && b[line.2] == s
  }

  /** Some winning line is completed by `s`. */
  predicate HasLine(b: seq<Cell>, s: Cell)
    requires |b| == 9
  {
    exists k :: 0 <= k < |WinLines| && Completes(b, WinLines[k], s)
  }

  /** No cell is empty (the source's `"" not in board`). */
  predicate IsFull(b: seq<Cell>)
  {
    Empty !in b
  }

  // An independent geometric reading of "three in a row", on (row, column) coordinates.

  function At(b: seq<Cell>, r: nat, c: nat): (x: Cell)
    requires |b| == 9 && r < 3 && c < 3
  {
    b[3 * r + c]
  }

  predicate RowOf(b: seq<Cell>, r: nat, s: Cell)
    requires |b| == 9 && r < 3
  {
    forall c :: 0 <= c < 3 ==> At(b, r, c) == s
  }

  predicate ColumnOf(b: seq<Cell>, c: nat, s: Cell)
    requires |b| == 9 && c < 3
  {
    forall r :: 0 <= r < 3 ==> At(b, r, c) == s
  }

  predicate DiagonalOf(b: seq<Cell>, s: Cell)
    requires |b| == 9
  {
    forall k :: 0 <= k < 3 ==> At(b, k, k) == s
  }

  predicate AntiDiagonalOf(b: seq<Cell>, s: Cell)
    requires |b| == 9
  {
    forall r, c :: 0 <= r < 3 && 0 <= c < 3 && r + c == 2 ==> At(b, r, c) == s
  }

  predicate ThreeInARow(b: seq<Cell>, s: Cell)
    requires |b| == 9
  {
    || (exists r: nat :: r < 3 && RowOf(b, r, s))
    || (exists c: nat :: c < 3 && ColumnOf(b, c, s))
    || DiagonalOf(b, s)
    || AntiDiagonalOf(b, s)
  }

  /** The win list holds exactly the three rows, the three columns and the two diagonals. */
  lemma HasLineIffThreeInARow(b: seq<Cell>, s: Cell)
    requires |b| == 9
    ensures HasLine(b, s) <==> ThreeInARow(b, s)
  {
    if HasLine(b, s) {
      var k :| 0 <= k < |WinLines| && Completes(b, WinLines[k], s);
      if k == 0 { assert RowOf(b, 0, s); }
      else if k == 1 { assert RowOf(b, 1, s); }
      else if k == 2 { assert RowOf(b, 2, s); }
      else if k == 3 { assert ColumnOf(b, 0, s); }
      else if k == 4 { assert ColumnOf(b, 1, s); }
      else if k == 5 { assert ColumnOf(b, 2, s); }
      else if k == 6 { assert DiagonalOf(b, s); }
      else { assert AntiDiagonalOf(b, s); }
    }
    if ThreeInARow(b, s) {
      if r: nat :| r < 3 && RowOf(b, r, s) {
        assert At(b, r, 0) == s && At(b, r, 1) == s && At(b, r, 2) == s;
        assert Completes(b, WinLines[r], s);
      } else if c: nat :| c < 3 && ColumnOf(b, c, s) {
        assert At(b, 0, c) == s && At(b, 1, c) == s && At(b, 2, c) == s;
        assert Completes(b, WinLines[3 + c], s);
      } else if DiagonalOf(b, s) {
        assert At(b, 0, 0) == s && At(b, 1, 1) == s && At(b, 2, 2) == s;
        assert Completes(b, WinLines[6], s);
      } else {
        assert At(b, 0, 2) == s && At(b, 1, 1) == s && At(b, 2, 0) == s;
        assert Completes(b, WinLines[7], s);
      }
    }
  }

  /** The loop of check_winner: scan the win list in order for a line completed by `symbol`. */
  method ScanWinLines(board: array<Cell>, symbol: Cell) returns (won: bool)
    requires board.Length == 9
    ensures won <==> HasLine(board[..], symbol)
  {
    var k := 0;
    while k < |WinLines|
      invariant 0 <= k <= |WinLines|
      invariant forall j :: 0 <= j < k ==> !Completes(board[..], WinLines[j], symbol)
    {
      var (a, b, c) := WinLines[k];
      if board[a] == board[b] == board[c] == symbol {
        assert Completes(board[..], WinLines[k], symbol);
        return true;
      }
      k := k + 1;
    }
    return false;
  }

  /** What check_winner concludes for the symbol just played. */
  datatype Verdict = Won | Drawn | Open

  /** The win test comes first, so a full board with a completed line is Won, never Drawn. */
  function Evaluate(b: seq<Cell>, s: Cell): (v: Verdict)
    requires |b| == 9
  {
    if HasLine(b, s) then Won else if IsFull(b) then Drawn else Open
  }

  // Alternating play, X first, each move into an empty cell.

  /** The symbol of the move numbered k (from 0). */
  function MoverOf(k: nat): (s: Cell)
  {
    if k % 2 == 0 then X else O
  }

  /** The board after the given moves. */
  function Replay(moves: seq<Index>): (b: seq<Cell>)
    ensures |b| == 9
  {
    if moves == [] then EmptyBoard()
    else Replay(moves[..|moves| - 1])[moves[|moves| - 1] := MoverOf(|moves| - 1)]
  }

  /** Every move lands on a cell that was empty when it was made. */
  predicate LegalGame(moves: seq<Index>)
  {
    moves == [] ||
    (LegalGame(moves[..|moves| - 1]) && Replay(moves[..|moves| - 1])[moves[|moves| - 1]] == Empty)
  }

  /** Number of empty cells. */
  function EmptyCount(b: seq<Cell>): (n: nat)
  {
    if b == [] then 0 else (if b[0] == Empty then 1 else 0) + EmptyCount(b[1..])
  }

  lemma {:induction false} EmptyCountZero(b: seq<Cell>)
    ensures EmptyCount(b) == 0 <==> IsFull(b)
  {
    if b != [] {
      EmptyCountZero(b[1..]);
      assert b == [b[0]] + b[1..];
    }
  }

  lemma {:induction false} FillEmptyCell(b: seq<Cell>, i: nat, s: Cell)
    requires i < |b| && b[i] == Empty && s != Empty
    ensures EmptyCount(b[i := s]) == EmptyCount(b) - 1
  {
    if i > 0 {
      FillEmptyCell(b[1..], i - 1, s);
      assert b[i := s][1..] == b[1..][i - 1 := s];
    } else {
      assert b[i := s][1..] == b[1..];
    }
  }

  /** Each legal move fills exactly one empty cell, so a legal game has at most nine moves. */
  lemma {:induction false} LegalGameEmptyCount(moves: seq<Index>)
    requires LegalGame(moves)
    ensures EmptyCount(Replay(moves)) == 9 - |moves|
  {
    if moves == [] {
      var b := EmptyBoard();
      assert b == [Empty] + b[1..];
      assert b[1..] == [Empty] + b[2..];
      assert b[2..] == [Empty] + b[3..];
      assert b[3..] == [Empty] + b[4..];
      assert b[4..] == [Empty] + b[5..];
      assert b[5..] == [Empty] + b[6..];
      assert b[6..] == [Empty] + b[7..];
      assert b[7..] == [Empty] + b[8..];
      assert b[8..] == [Empty] + b[9..];
    } else {
      var prev := moves[..|moves| - 1];
      LegalGameEmptyCount(prev);
      FillEmptyCell(Replay(prev), moves[|moves| - 1], MoverOf(|moves| - 1));
    }
  }

  /** The ninth legal move always ends the game: its check finds a win or a draw. */
  lemma NinthMoveConcludes(moves: seq<Index>)
    requires LegalGame(moves) && |moves| == 9
    ensures IsFull(Replay(moves))
    ensures Evaluate(Replay(moves), MoverOf(8)) != Open
  {
    LegalGameEmptyCount(moves);
    EmptyCountZero(Replay(moves));
  }

  /** The game X 0, O 4, X 1, O 5, X 2: every check before the fifth move finds
      the game open, and the fifth move's check finds X's top row. */
  lemma TopRowGame()
    ensures LegalGame([0, 4, 1, 5, 2])
    ensures forall k :: 1 <= k < 5 ==> Evaluate(Replay([0, 4, 1, 5, 2][..k]), MoverOf(k - 1)) == Open
    ensures Evaluate(Replay([0, 4, 1, 5, 2]), X) == Won
  {
    var moves: seq<Index> := [0, 4, 1, 5, 2];
    var b1 := [X, Empty, Empty, Empty, Empty, Empty, Empty, Empty, Empty];
    var b2 := [X, Empty, Empty, Empty, O, Empty, Empty, Empty, Empty];
    var b3 := [X, X, Empty, Empty, O, Empty, Empty, Empty, Empty];
    var b4 := [X, X, Empty, Empty, O, O, Empty, Empty, Empty];
    assert moves[..1] == [0] && moves[..2] == [0, 4] && moves[..3] == [0, 4, 1] && moves[..4] == [0, 4, 1, 5];
    assert Replay(moves[..1]) == b1 by { assert moves[..1][..0] == []; }
    assert Replay(moves[..2]) == b2 by { assert moves[..2][..1] == moves[..1]; }
    assert Replay(moves[..3]) == b3 by { assert moves[..3][..2] == moves[..2]; }
    assert Replay(moves[..4]) == b4 by { assert moves[..4][..3] == moves[..3]; }
    assert moves[..5] == moves;
    assert LegalGame(moves[..1]) by { assert moves[..1][..0] == []; }
    assert LegalGame(moves[..2]) by { assert moves[..2][..1] == moves[..1]; }
    assert LegalGame(moves[..3]) by { assert moves[..3][..2] == moves[..2]; }
    assert LegalGame(moves[..4]) by { assert moves[..4][..3] == moves[..3]; }
    assert LegalGame(moves) by { assert moves[..4] == moves[..|moves| - 1]; }
    forall k | 1 <= k < 5
      ensures Evaluate(Replay(moves[..k]), MoverOf(k - 1)) == Open
    {
      var b := Replay(moves[..k]);
      var s := MoverOf(k - 1);
      forall j | 0 <= j < |WinLines| ensures !Completes(b, WinLines[j], s) {
        assert j in {0, 1, 2, 3, 4, 5, 6, 7};
      }
      assert b[8] == Empty;
    }
    assert Completes(Replay(moves), WinLines[0], X);
  }
}
