/** The text frames the two peers exchange: how each side writes them
    (f-strings such as "MOVE {i}") and how receive_data reads them back
    (a prefix test, then `data[5:]` or the second token of `data.split()`). */
module Frames {
  import opened GameBoard

  datatype Option<T> = None | Some(value: T)

  /** Which peer reads a frame: the server (X) or the client (O). */
  datatype Role = Server | Client

  /** What receive_data makes of one frame. Malformed is a frame whose parsing
      raises inside the receive loop, which the bare `except: break` turns into
      the end of the loop; Unrecognized is a frame no branch matches. */
  datatype Inbound =
    | Move(cell: Index)
    | Chat(text: string)
    | Reset
    | Name(name: string)
    | Winner(winner: string)
    | Draw
    | Timeout(loser: string)
    | Unrecognized
    | Malformed

  // Outbound frames, as the sending peer formats them.

  function MoveFrame(i: Index): (s: string) { "MOVE " + NatToString(i) }
  function ChatFrame(msg: string): (s: string) { "CHAT " + msg }
  function NameFrame(name: string): (s: string) { "NAME " + name }
  function WinnerFrame(winner: string): (s: string) { "WINNER " + winner }
  function TimeoutFrame(name: string): (s: string) { "TIMEOUT " + name }
  const ResetFrame: string := "RESET"
  const DrawFrame: string := "DRAW"

  // Decimal text of a non-negative integer, as Python's str(int) writes it.

  function DigitChar(d: nat): (c: char)
    requires d < 10
  {
    ('0' as int + d) as char
  }

  predicate IsDigit(c: char) { '0' <= c <= '9' }

  function DigitValue(c: char): (v: nat)
    requires IsDigit(c)
  {
    (c as int - '0' as int) as nat
  }

  function NatToString(n: nat): (s: string)
    decreases n
  {
    if n < 10 then [DigitChar(n)] else NatToString(n / 10) + [DigitChar(n % 10)]
  }

  predicate AllDigits(s: string)
  {
    forall k :: 0 <= k < |s| ==> IsDigit(s[k])
  }

  /** The value of a string of decimal digits, most significant first. */
  function DigitsValue(s: string): (v: nat)
    requires AllDigits(s)
  {
    if s == [] then 0 else DigitsValue(s[..|s| - 1]) * 10 + DigitValue(s[|s| - 1])
  }

  /** Python's int() on one token: an optional '+' and at least one ASCII digit.
      Every other token (a sign '-', underscores, non-ASCII digits) is refused. */
  function ParseIndex(tok: string): (r: Option<nat>)
    ensures r.Some? ==> tok != [] && (IsDigit(tok[0]) || tok[0] == '+')
  {
    var digits := if tok != [] && tok[0] == '+' then tok[1..] else tok;
    if digits != [] && AllDigits(digits) then Some(DigitsValue(digits)) else None
  }

  /** Parsing reads back what formatting writes. */
  lemma {:induction false} NatToStringRoundTrip(n: nat)
    ensures NatToString(n) != [] && AllDigits(NatToString(n))
    ensures DigitsValue(NatToString(n)) == n
    decreases n
  {
    if n >= 10 {
      NatToStringRoundTrip(n / 10);
      var s := NatToString(n);
      assert s[..|s| - 1] == NatToString(n / 10);
      assert DigitValue(s[|s| - 1]) == n % 10;
      assert n == (n / 10) * 10 + n % 10;
    }
  }

  lemma ParseIndexOfNat(n: nat)
    ensures ParseIndex(NatToString(n)) == Some(n)
  {
    NatToStringRoundTrip(n);
  }

  // Python's str.split() with no argument: maximal runs of non-whitespace.

  predicate IsSpace(c: char)
  {
    || c == ' ' || '\t' <= c <= '\r' || '\U{1C}' <= c <= '\U{1F}'
    || c == '\U{85}' || c == '\U{A0}' || c == '\U{1680}' || '\U{2000}' <= c <= '\U{200A}'
    || c == '\U{2028}' || c == '\U{2029}' || c == '\U{202F}' || c == '\U{205F}' || c == '\U{3000}'
  }

  /** A non-empty string without whitespace: what split() can return as one token. */
  predicate IsWord(t: string)
  {
    t != [] && forall k :: 0 <= k < |t| ==> !IsSpace(t[k])
  }

  /** Length of the leading run of non-whitespace characters. */
  function WordLength(s: string): (n: nat)
    ensures n <= |s|
    ensures forall k :: 0 <= k < n ==> !IsSpace(s[k])
    ensures n < |s| ==> IsSpace(s[n])
  {
    if s == [] || IsSpace(s[0]) then 0 else 1 + WordLength(s[1..])
  }

  function Tokens(s: string): (ts: seq<string>)
    ensures forall k :: 0 <= k < |ts| ==> IsWord(ts[k])
    decreases |s|
  {
    if s == [] then []
    else if IsSpace(s[0]) then Tokens(s[1..])
    else
      var n := WordLength(s);
      [s[..n]] + Tokens(s[n..])
  }

  lemma TokensOfWord(w: string, rest: string)
    requires IsWord(w) && (rest == [] || IsSpace(rest[0]))
    ensures Tokens(w + rest) == [w] + Tokens(rest)
  {
    var s := w + rest;
    assert s[..|w|] == w && s[|w|..] == rest;
    assert WordLength(s) == |w|;
  }

  lemma TokensOfSpaced(w: string, rest: string)
    requires IsWord(w)
    ensures Tokens(w + " " + rest) == [w] + Tokens(rest)
  {
    TokensOfWord(w, " " + rest);
    assert w + " " + rest == w + (" " + rest);
    assert (" " + rest)[1..] == rest;
  }

  /** `data.split()[1]`, or None where Python raises IndexError. */
  function SecondToken(data: string): (r: Option<string>)
    ensures r.Some? ==> IsWord(r.value)
  {
    var ts := Tokens(data);
    if |ts| < 2 then None else Some(ts[1])
  }

  /** `data[5:]`. */
  function Payload(data: string): (p: string)
  {
    if |data| <= 5 then "" else data[5..]
  }

  predicate StartsWith(data: string, keyword: string)
  {
    keyword <= data
  }

  /** receive_data's dispatch, in the order of its if/elif chain. The server has
      no WINNER, DRAW or TIMEOUT branch. */
  function Decode(role: Role, data: string): (m: Inbound)
    ensures role == Server ==> !(m.Winner? || m.Draw? || m.Timeout?)
    ensures m.Winner? ==> IsWord(m.winner)
    ensures m.Timeout? ==> IsWord(m.loser)
    ensures m == Malformed ==>
      (StartsWith(data, "MOVE") || StartsWith(data, "WINNER") || StartsWith(data, "TIMEOUT"))
  {
    if StartsWith(data, "MOVE") then
      match SecondToken(data)
      case None => Malformed
      case Some(tok) =>
        match ParseIndex(tok)
        case None => Malformed
        case Some(i) => if i < 9 then Move(i) else Malformed
    else if StartsWith(data, "CHAT") then Chat(Payload(data))
    else if StartsWith(data, "RESET") then Reset
    else if StartsWith(data, "NAME") then Name(Payload(data))
    else if role == Server then Unrecognized
    else if StartsWith(data, "WINNER") then
      match SecondToken(data)
      case None => Malformed
      case Some(w) => Winner(w)
    else if StartsWith(data, "DRAW") then Draw
    else if StartsWith(data, "TIMEOUT") then
      match SecondToken(data)
      case None => Malformed
      case Some(loser) => Timeout(loser)
    else Unrecognized
  }

  // What the receiving peer makes of the frames the other peer writes.

  /** The second token of `keyword + " " + rest` is the first token of rest. */
  lemma SecondTokenAfterKeyword(keyword: string, rest: string)
    requires IsWord(keyword)
    ensures SecondToken(keyword + " " + rest) == if Tokens(rest) == [] then None else Some(Tokens(rest)[0])
  {
    TokensOfSpaced(keyword, rest);
  }

  lemma MoveRoundTrip(role: Role, i: Index)
    ensures Decode(role, MoveFrame(i)) == Move(i)
  {
    var digits := NatToString(i);
    NatToStringRoundTrip(i);
    assert IsWord(digits);
    TokensOfWord(digits, []);
    assert digits + [] == digits;
    SecondTokenAfterKeyword("MOVE", digits);
    assert MoveFrame(i) == "MOVE" + " " + digits;
    assert SecondToken(MoveFrame(i)) == Some(digits);
    assert MoveFrame(i)[..4] == "MOVE";
    ParseIndexOfNat(i);
  }

  /** Chat text comes through whole, spaces included. */
  lemma ChatRoundTrip(role: Role, msg: string)
    ensures Decode(role, ChatFrame(msg)) == Chat(msg)
  {
    assert ChatFrame(msg)[..4] == "CHAT";
    assert ChatFrame(msg)[5..] == msg;
  }

  lemma NameRoundTrip(role: Role, name: string)
    ensures Decode(role, NameFrame(name)) == Name(name)
  {
    assert NameFrame(name)[..4] == "NAME";
    assert NameFrame(name)[5..] == name;
  }

  lemma ResetAndDrawDecode(role: Role)
    ensures Decode(role, ResetFrame) == Reset
    ensures Decode(role, DrawFrame) == (if role == Client then Draw else Unrecognized)
  {
  }

  /** The server drops the end-of-game frames the client sends it. */
  lemma ServerIgnoresVerdicts(winner: string, loser: string)
    ensures Decode(Server, WinnerFrame(winner)) == Unrecognized
    ensures Decode(Server, TimeoutFrame(loser)) == Unrecognized
  {
    assert WinnerFrame(winner)[..6] == "WINNER";
    assert TimeoutFrame(loser)[..7] == "TIMEOUT";
  }

  /** The client keeps the first word of a WINNER frame's name; when the name has no
      word at all (an empty name), parsing raises and the receive loop ends. */
  lemma DecodeWinnerFrame(winner: string)
    ensures Decode(Client, WinnerFrame(winner)) ==
      if Tokens(winner) == [] then Malformed else Winner(Tokens(winner)[0])
  {
    var f := WinnerFrame(winner);
    assert f == "WINNER" + " " + winner;
    SecondTokenAfterKeyword("WINNER", winner);
    assert f[0] == 'W' && f[..6] == "WINNER";
  }

  /** So it reads the name back exactly when the name is one whitespace-free word. */
  lemma WinnerRoundTrip(winner: string)
    ensures Decode(Client, WinnerFrame(winner)) == Winner(winner) <==> IsWord(winner)
  {
    DecodeWinnerFrame(winner);
    FirstTokenIsWhole(winner);
  }

  /** The same reading applies to the loser's name in a TIMEOUT frame. */
  lemma DecodeTimeoutFrame(loser: string)
    ensures Decode(Client, TimeoutFrame(loser)) ==
      if Tokens(loser) == [] then Malformed else Timeout(Tokens(loser)[0])
  {
    var f := TimeoutFrame(loser);
    assert f == "TIMEOUT" + " " + loser;
    SecondTokenAfterKeyword("TIMEOUT", loser);
    assert f[0] == 'T' && f[..7] == "TIMEOUT";
    assert !StartsWith(f, "MOVE") && !StartsWith(f, "CHAT") && !StartsWith(f, "RESET");
    assert !StartsWith(f, "NAME") && !StartsWith(f, "WINNER") && !StartsWith(f, "DRAW");
  }

  lemma TimeoutRoundTrip(loser: string)
    ensures Decode(Client, TimeoutFrame(loser)) == Timeout(loser) <==> IsWord(loser)
  {
    DecodeTimeoutFrame(loser);
    FirstTokenIsWhole(loser);
  }

  /** A string is its own first token exactly when it is a single word. */
  lemma FirstTokenIsWhole(s: string)
    ensures (Tokens(s) != [] && Tokens(s)[0] == s) <==> IsWord(s)
  {
    if IsWord(s) {
      TokensOfWord(s, []);
      assert s + [] == s;
    }
  }

  /** A frame that starts with none of the keywords changes nothing. */
  lemma UnknownFramesIgnored(role: Role, data: string)
    requires !StartsWith(data, "MOVE") && !StartsWith(data, "CHAT")
    requires !StartsWith(data, "RESET") && !StartsWith(data, "NAME")
    requires !StartsWith(data, "WINNER") && !StartsWith(data, "DRAW") && !StartsWith(data, "TIMEOUT")
    ensures Decode(role, data) == Unrecognized
  {
  }
}
