/**
 * Turn order and player names: `endRound`'s rotation (NumberGame.tsx:349-352)
 * and `getPlayerName` (NumberGame.tsx:393-398).
 */
module Players {

  /** `(currentPlayer + 1) % playerCount` */
  function NextPlayer(current: nat, count: nat): (next: nat)
    requires current < count
    ensures next < count
    ensures next == if current + 1 == count then 0 else current + 1
  {
    (current + 1) % count
  }

  /** The player whose turn comes `k` rounds after `current`'s. */
  function Rotate(current: nat, count: nat, k: nat): (p: nat)
    requires current < count
    ensures p < count
  {
    if k == 0 then current else NextPlayer(Rotate(current, count, k - 1), count)
  }

  /** Within one lap of the table, the turn moves on `k` seats and wraps past the last seat once. */
  lemma {:induction false} RotateSeat(current: nat, count: nat, k: nat)
    requires current < count && k <= count
    ensures Rotate(current, count, k) == if current + k < count then current + k else current + k - count
  {
    if k > 0 {
      RotateSeat(current, count, k - 1);
    }
  }

  /** After `count` rounds the first player is up again. */
  lemma FullCircle(current: nat, count: nat)
    requires current < count
    ensures Rotate(current, count, count) == current
  {
    RotateSeat(current, count, count);
  }

  /** Within one lap of the table, no player gets two turns: every player plays once per lap. */
  lemma TurnsDistinct(current: nat, count: nat, i: nat, j: nat)
    requires current < count && i < j < count
    ensures Rotate(current, count, i) != Rotate(current, count, j)
  {
    RotateSeat(current, count, i);
    RotateSeat(current, count, j);
  }

  /** The characters `String.prototype.trim` strips: white space and line terminators. */
  predicate IsTrimSpace(c: char)
  {
    c == ' ' || c == '\t' || c == '\n' || c == '\r' || c == '\U{B}' || c == '\U{C}'
    || c == '\U{A0}' || c == '\U{1680}' || ('\U{2000}' <= c <= '\U{200A}')
    || c == '\U{2028}' || c == '\U{2029}' || c == '\U{202F}' || c == '\U{205F}'
    || c == '\U{3000}' || c == '\U{FEFF}'
  }

  predicate AllTrimSpace(s: string)
  {
    forall i :: 0 <= i < |s| ==> IsTrimSpace(s[i])
  }

  /** How many white-space characters `s` starts with. */
  function LeadingSpace(s: string): (k: nat)
    ensures k <= |s| && (k == |s| || !IsTrimSpace(s[k]))
    ensures forall i :: 0 <= i < k ==> IsTrimSpace(s[i])
    decreases |s|
  {
    if s != [] && IsTrimSpace(s[0]) then
      var k := LeadingSpace(s[1..]);
      assert forall i :: 1 <= i < k + 1 ==> s[i] == s[1..][i - 1];
      k + 1
    else 0
  }

  /** Where the white space that `s` ends with begins. */
  function TrailingSpace(s: string): (k: nat)
    ensures k <= |s| && (k == 0 || !IsTrimSpace(s[k - 1]))
    ensures forall i :: k <= i < |s| ==> IsTrimSpace(s[i])
    decreases |s|
  {
    if s != [] && IsTrimSpace(s[|s| - 1]) then
      var init := s[..|s| - 1];
      var k := TrailingSpace(init);
      assert forall i :: k <= i < |init| ==> s[i] == init[i];
      k
    else |s|
  }

  /** `s.trim()`: the stretch between the leading and the trailing white space. */
  function Trim(s: string): (r: string)
    ensures r == [] || (!IsTrimSpace(r[0]) && !IsTrimSpace(r[|r| - 1]))
  {
    var t := s[LeadingSpace(s)..];
    t[..TrailingSpace(t)]
  }

  /**
   * What `Trim` cuts off is white space and only that: the result is a stretch
   * of `s` with only white space on either side of it.
   */
  lemma TrimSlice(s: string)
    ensures exists i, j :: 0 <= i <= j <= |s| && Trim(s) == s[i..j] && AllTrimSpace(s[..i]) && AllTrimSpace(s[j..])
  {
    var i := LeadingSpace(s);
    var t := s[i..];
    var k := TrailingSpace(t);
    assert Trim(s) == s[i..i + k];
    assert AllTrimSpace(s[..i]);
    assert forall m :: i + k <= m < |s| ==> s[m] == t[m - i];
    assert AllTrimSpace(s[i + k..]);
  }

  /** Trimming twice is trimming once. */
  lemma TrimIdempotent(s: string)
    ensures Trim(Trim(s)) == Trim(s)
  {
    var r := Trim(s);
    if r != [] {
      assert LeadingSpace(r) == 0;
      assert r[0..] == r;
      assert TrailingSpace(r) == |r|;
    }
  }

  /** The decimal digits of `n`, as a template literal prints it. */
  function NatToString(n: nat): (s: string)
    ensures s != [] && forall i :: 0 <= i < |s| ==> '0' <= s[i] <= '9'
    decreases n
  {
    var last := [('0' as int + n % 10) as char];
    if n < 10 then last
    else
      var init := NatToString(n / 10);
      assert forall i :: 0 <= i < |init| ==> (init + last)[i] == init[i];
      init + last
  }

  /** The number a string of decimal digits spells. */
  function DecimalValue(s: string): nat
    requires forall i :: 0 <= i < |s| ==> '0' <= s[i] <= '9'
    decreases |s|
  {
    if s == [] then 0
    else
      var init := s[..|s| - 1];
      assert forall i :: 0 <= i < |init| ==> init[i] == s[i];
      10 * DecimalValue(init) + (s[|s| - 1] as int - '0' as int)
  }

  /** Reading back the digits `NatToString` prints gives the number: the printing loses nothing. */
  lemma {:induction false} NatToStringValue(n: nat)
    ensures DecimalValue(NatToString(n)) == n
    decreases n
  {
    var s := NatToString(n);
    if n >= 10 {
      NatToStringValue(n / 10);
      assert s[..|s| - 1] == NatToString(n / 10);
    }
  }

  /**
   * `getPlayerName`: in solo play the first name, trimmed, or "You"; otherwise
   * the player's own name, trimmed, or "Player n" with `n` counted from 1. A
   * name slot past the end reads as `undefined`, which also falls back.
   */
  function PlayerName(names: seq<string>, count: nat, index: nat): (r: string)
    ensures r != []
    ensures count == 1 ==> r == if |names| > 0 && Trim(names[0]) != "" then Trim(names[0]) else "You"
    ensures count != 1 && index < |names| && Trim(names[index]) != "" ==> r == Trim(names[index])
    ensures count != 1 && (index >= |names| || Trim(names[index]) == "") ==> r == "Player " + NatToString(index + 1)
  {
    if count == 1 then
      var own := if |names| > 0 then Trim(names[0]) else "";
      if own != "" then own else "You"
    else
      var own := if index < |names| then Trim(names[index]) else "";
      if own != "" then own else "Player " + NatToString(index + 1)
  }

  /** With blank names, different seats get different default names. */
  lemma DefaultNamesDistinct(names: seq<string>, count: nat, i: nat, j: nat)
    requires count != 1 && i != j
    requires i >= |names| || Trim(names[i]) == ""
    requires j >= |names| || Trim(names[j]) == ""
    ensures PlayerName(names, count, i) != PlayerName(names, count, j)
  {
    var a, b := NatToString(i + 1), NatToString(j + 1);
    NatToStringValue(i + 1);
    NatToStringValue(j + 1);
    PrefixCancels("Player ", a, b);
  }

  lemma PrefixCancels(p: string, a: string, b: string)
    requires a != b
    ensures p + a != p + b
  {
    assert (p + a)[|p|..] == a && (p + b)[|p|..] == b;
  }
}
