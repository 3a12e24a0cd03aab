/**
 * The guess evaluator: reading the three input cells, validating a secret or a
 * guess, counting matches and the wildcard hint (NumberGame.tsx:144-155,
 * 186-236, 286-292, 362-378).
 */
module Evaluate {
  import opened Common
  import opened Secret

  /** What `parseInt` gives for one input cell: a number, or NaN. */
  datatype Parsed = NaN | Num(n: int)

  /** An input cell holds at most one character (`maxLength={1}` on every digit input). */
  predicate CellShaped(cell: string)
  {
    |cell| <= 1
  }

  /** Three input cells, as `manualNumber` and `currentGuess` hold them. */
  predicate CellsShaped(cells: seq<string>)
  {
    |cells| == 3 && forall i :: 0 <= i < 3 ==> CellShaped(cells[i])
  }

  /** `parseInt` of a cell of at most one character. */
  function ParseCell(cell: string): (p: Parsed)
    requires CellShaped(cell)
    ensures p.Num? <==> cell != "" && '0' <= cell[0] <= '9'
    ensures p.Num? ==> 0 <= p.n <= 9 && cell == [('0' as int + p.n) as char]
  {
    if cell != "" && '0' <= cell[0] <= '9' then Num(cell[0] as int - '0' as int) else NaN
  }

  /**
   * The filter of `handleInputChange`: a new cell value is taken only when it is
   * empty or lies between "1" and "9".
   */
  predicate AcceptsInput(value: string)
    requires CellShaped(value)
    ensures AcceptsInput(value) <==> value == "" || IsDigit(ParseCell(value))
  {
    value == "" || '1' <= value[0] <= '9'
  }

  /** Cells that only ever received values the input filter accepted. */
  predicate FilteredCells(cells: seq<string>)
  {
    CellsShaped(cells) && forall i :: 0 <= i < 3 ==> AcceptsInput(cells[i])
  }

  /** `['', '', '']`: the cells after a submission. */
  const EmptyCells: seq<string> := ["", "", ""]

  /** The cleared cells pass the filter. */
  lemma EmptyCellsFiltered()
    ensures FilteredCells(EmptyCells)
  {
  }

  /** Storing a value the filter accepts keeps the cells filtered. */
  lemma FilteredUpdate(cells: seq<string>, index: nat, value: string)
    requires FilteredCells(cells) && index < 3 && CellShaped(value) && AcceptsInput(value)
    ensures FilteredCells(cells[index := value])
  {
    var r := cells[index := value];
    forall i | 0 <= i < 3 ensures CellShaped(r[i]) && AcceptsInput(r[i]) {
      if i != index {
        assert r[i] == cells[i];
      }
    }
  }

  /** A filtered cell is either empty (NaN) or parses to a digit in 1..9. */
  lemma FilteredCellParses(cell: string)
    requires CellShaped(cell) && AcceptsInput(cell)
    ensures cell == "" <==> ParseCell(cell) == NaN
    ensures cell != "" ==> 1 <= ParseCell(cell).n <= 9
  {
  }

  /** The check `isNaN(d) || d < 1 || d > 9` fails: the cell holds a digit 1..9. */
  predicate IsDigit(p: Parsed)
  {
    p.Num? && 1 <= p.n <= 9
  }

  datatype Rejection = NotDigits | NotUnique

  /** The outcome of validating three cells as a secret or a guess. */
  datatype Checked = Accepted(digits: seq<int>) | Rejected(reason: Rejection)

  /**
   * The validation shared by `submitManualNumber` and `checkGuess`: every cell
   * must parse to a digit 1..9 ("Please enter digits 1-9"), then the three
   * digits must be distinct ("All three digits must be unique!").
   */
  function Validate(cells: seq<string>): (c: Checked)
    requires CellsShaped(cells)
    ensures c.Accepted? ==> IsSecret(c.digits)
    ensures c.Accepted? ==> forall i :: 0 <= i < 3 ==> ParseCell(cells[i]) == Num(c.digits[i])
    ensures c == Rejected(NotDigits) <==> exists i :: 0 <= i < 3 && !IsDigit(ParseCell(cells[i]))
  {
    var p0, p1, p2 := ParseCell(cells[0]), ParseCell(cells[1]), ParseCell(cells[2]);
    if !IsDigit(p0) || !IsDigit(p1) || !IsDigit(p2) then
      Rejected(NotDigits)
    else
      var digits := [p0.n, p1.n, p2.n];
      SecretShape(digits);
      if !Distinct(digits) then Rejected(NotUnique) else Accepted(digits)
  }

  /** The character a digit is typed as. */
  function DigitChar(d: int): char
    requires 0 <= d <= 9
  {
    ('0' as int + d) as char
  }

  /** The cells a player fills in to enter the digits `s`. */
  function Render(s: seq<int>): (cells: seq<string>)
    requires IsSecret(s)
    ensures FilteredCells(cells)
  {
    [[DigitChar(s[0])], [DigitChar(s[1])], [DigitChar(s[2])]]
  }

  /** Typing a valid secret into the cells and validating it gives the same digits back. */
  lemma ValidateRender(s: seq<int>)
    requires IsSecret(s)
    ensures Validate(Render(s)) == Accepted(s)
  {
    var cells := Render(s);
    assert ParseCell(cells[0]) == Num(s[0]);
    assert ParseCell(cells[1]) == Num(s[1]);
    assert ParseCell(cells[2]) == Num(s[2]);
    assert [s[0], s[1], s[2]] == s;
  }

  /** Validation accepts only cells that spell out the accepted digits. */
  lemma AcceptedCellsAreRendered(cells: seq<string>)
    requires CellsShaped(cells) && Validate(cells).Accepted?
    ensures cells == Render(Validate(cells).digits)
  {
    var d := Validate(cells).digits;
    forall i | 0 <= i < 3 ensures cells[i] == [DigitChar(d[i])] {
      assert ParseCell(cells[i]) == Num(d[i]);
    }
  }

  /** With the input filter in place, the digit check can only fail on an empty cell. */
  lemma FilteredRejection(cells: seq<string>)
    requires FilteredCells(cells)
    ensures Validate(cells) == Rejected(NotDigits) <==> exists i :: 0 <= i < 3 && cells[i] == ""
  {
    forall i | 0 <= i < 3 ensures cells[i] == "" <==> !IsDigit(ParseCell(cells[i])) {
      FilteredCellParses(cells[i]);
    }
  }

  /**
   * `checkArrangement`'s reading of the cells: it rejects a cell that is not a
   * number and nothing else (no range or uniqueness check).
   */
  function ParseArrangement(cells: seq<string>): (r: Option<seq<int>>)
    requires CellsShaped(cells)
    ensures r.Some? <==> forall i :: 0 <= i < 3 ==> ParseCell(cells[i]).Num?
    ensures r.Some? ==> |r.value| == 3 && forall i :: 0 <= i < 3 ==> ParseCell(cells[i]) == Num(r.value[i])
  {
    var p0, p1, p2 := ParseCell(cells[0]), ParseCell(cells[1]), ParseCell(cells[2]);
    if p0.NaN? || p1.NaN? || p2.NaN? then None else Some([p0.n, p1.n, p2.n])
  }

  /** An arrangement may repeat a digit, where a guess may not. */
  lemma ArrangementAllowsRepeats()
    ensures ParseArrangement(["4", "4", "4"]) == Some([4, 4, 4])
    ensures Validate(["4", "4", "4"]) == Rejected(NotUnique)
  {
    assert !Distinct([4, 4, 4]) by {
      assert [4, 4, 4][0] == [4, 4, 4][1];
    }
  }

  /** The positional comparison `g[0] === s[0] && g[1] === s[1] && g[2] === s[2]`: equality of the two. */
  predicate SamePositions(g: seq<int>, s: seq<int>)
    requires |g| == 3 && |s| == 3
    ensures SamePositions(g, s) <==> g == s
  {
    if g[0] == s[0] && g[1] == s[1] && g[2] == s[2] then
      assert forall i :: 0 <= i < 3 ==> g[i] == s[i];
      true
    else false
  }

  function Hit(x: int, secret: seq<int>): nat
  {
    if x in secret then 1 else 0
  }

  /** How many digits of `guess` occur anywhere in `secret`, position ignored. */
  function Matches(guess: seq<int>, secret: seq<int>): (m: nat)
    ensures m <= |guess|
    decreases |guess|
  {
    if guess == [] then 0
    else Matches(guess[..|guess| - 1], secret) + Hit(guess[|guess| - 1], secret)
  }

  /** The counting loop of `checkGuess`: `if (secretNumber.includes(digit)) matches++` per guess digit. */
  method CountMatches(guess: seq<int>, secret: seq<int>) returns (matches: nat)
    ensures matches == Matches(guess, secret)
  {
    matches := 0;
    for i := 0 to |guess|
      invariant matches == Matches(guess[..i], secret)
    {
      assert guess[..i + 1][..i] == guess[..i];
      if guess[i] in secret {
        matches := matches + 1;
      }
    }
    assert guess[..|guess|] == guess;
  }

  lemma {:induction false} MatchesAppend(a: seq<int>, b: seq<int>, secret: seq<int>)
    ensures Matches(a + b, secret) == Matches(a, secret) + Matches(b, secret)
    decreases |b|
  {
    if b == [] {
      assert a + b == a;
    } else {
      var b' := b[..|b| - 1];
      var ab := a + b;
      assert ab != [] && ab[..|ab| - 1] == a + b' && ab[|ab| - 1] == b[|b| - 1];
      assert Matches(ab, secret) == Matches(a + b', secret) + Hit(b[|b| - 1], secret);
      assert Matches(b, secret) == Matches(b', secret) + Hit(b[|b| - 1], secret);
      MatchesAppend(a, b', secret);
    }
  }

  /** All digits count exactly when every digit of the guess occurs in the secret. */
  lemma {:induction false} MatchesAll(guess: seq<int>, secret: seq<int>)
    ensures Matches(guess, secret) == |guess| <==> forall i :: 0 <= i < |guess| ==> guess[i] in secret
    decreases |guess|
  {
    if guess != [] {
      var init := guess[..|guess| - 1];
      MatchesAll(init, secret);
      assert forall i :: 0 <= i < |init| ==> init[i] == guess[i];
    }
  }

  /** No digit counts exactly when no digit of the guess occurs in the secret. */
  lemma {:induction false} MatchesNone(guess: seq<int>, secret: seq<int>)
    ensures Matches(guess, secret) == 0 <==> forall i :: 0 <= i < |guess| ==> guess[i] !in secret
    decreases |guess|
  {
    if guess != [] {
      var init := guess[..|guess| - 1];
      MatchesNone(init, secret);
      assert forall i :: 0 <= i < |init| ==> init[i] == guess[i];
    }
  }

  /** The count ignores the order of the guess: any rearrangement of it scores the same. */
  lemma {:induction false} MatchesIgnoresGuessOrder(g1: seq<int>, g2: seq<int>, secret: seq<int>)
    requires multiset(g1) == multiset(g2)
    ensures Matches(g1, secret) == Matches(g2, secret)
    decreases |g1|
  {
    if g1 != [] {
      var n := |g1|;
      var x := g1[n - 1];
      assert g1 == g1[..n - 1] + [x];
      assert x in multiset(g2);
      var k := IndexOf(g2, x);
      var rest := g2[..k] + g2[k + 1..];
      assert g2 == g2[..k] + [x] + g2[k + 1..];
      assert multiset(rest) == multiset(g2) - multiset{x};
      assert multiset(g1[..n - 1]) == multiset(g1) - multiset{x};
      MatchesIgnoresGuessOrder(g1[..n - 1], rest, secret);
      MatchesWithout(g2, k, secret);
    }
  }

  /** Taking the digit at `k` out of the guess takes its hit out of the count. */
  lemma MatchesWithout(g: seq<int>, k: nat, secret: seq<int>)
    requires k < |g|
    ensures Matches(g, secret) == Matches(g[..k] + g[k + 1..], secret) + Hit(g[k], secret)
  {
    var x := g[k];
    assert g == g[..k] + [x] + g[k + 1..];
    MatchesAppend(g[..k] + [x], g[k + 1..], secret);
    MatchesAppend(g[..k], [x], secret);
    MatchesAppend(g[..k], g[k + 1..], secret);
    assert Matches([x], secret) == Hit(x, secret) by {
      assert [x][..0] == [];
    }
  }

  /** The count ignores the order of the secret: only which digits it holds matters. */
  lemma {:induction false} MatchesIgnoresSecretOrder(guess: seq<int>, s1: seq<int>, s2: seq<int>)
    requires forall x :: x in s1 <==> x in s2
    ensures Matches(guess, s1) == Matches(guess, s2)
    decreases |guess|
  {
    if guess != [] {
      MatchesIgnoresSecretOrder(guess[..|guess| - 1], s1, s2);
    }
  }

  /** Between two secrets, three matches means the guess holds exactly the secret's digits. */
  lemma AllFoundMeansSameDigits(guess: seq<int>, secret: seq<int>)
    requires IsSecret(guess) && IsSecret(secret)
    ensures Matches(guess, secret) == 3 <==> multiset(guess) == multiset(secret)
  {
    MatchesAll(guess, secret);
    if Matches(guess, secret) == 3 {
      assert guess[0] in secret && guess[1] in secret && guess[2] in secret;
      Rearranged(guess, secret);
    } else {
      if multiset(guess) == multiset(secret) {
        forall i | 0 <= i < 3 ensures guess[i] in secret {
          assert guess[i] in multiset(guess);
        }
      }
    }
  }

  /** Three distinct digits, each found among three distinct digits, are those digits rearranged. */
  lemma Rearranged(guess: seq<int>, secret: seq<int>)
    requires IsSecret(guess) && IsSecret(secret)
    requires guess[0] in secret && guess[1] in secret && guess[2] in secret
    ensures multiset(guess) == multiset(secret)
  {
    var a, b, c := guess[0], guess[1], guess[2];
    var x, y, z := secret[0], secret[1], secret[2];
    assert guess == [a, b, c] && secret == [x, y, z];
    assert a != b && b != c && a != c && x != y && y != z && x != z;
    ThreeRearranged(a, b, c, x, y, z);
    assert multiset(guess) == multiset{a, b, c};
    assert multiset(secret) == multiset{x, y, z};
  }

  lemma ThreeRearranged(a: int, b: int, c: int, x: int, y: int, z: int)
    requires a != b && b != c && a != c && x != y && y != z && x != z
    requires (a == x || a == y || a == z) && (b == x || b == y || b == z) && (c == x || c == y || c == z)
    ensures multiset{a, b, c} == multiset{x, y, z}
  {
    if a == x {
      if b == y { assert c == z; } else { assert b == z && c == y; }
    } else if a == y {
      if b == x { assert c == z; } else { assert b == z && c == x; }
    } else {
      if b == x { assert c == y; } else { assert b == y && c == x; }
    }
  }

  /** A guess equal to the secret would count three matches: the lottery check has to come first. */
  lemma ExactGuessMatchesAll(secret: seq<int>)
    ensures Matches(secret, secret) == |secret|
  {
    MatchesAll(secret, secret);
  }

  /** `guess.filter(d => secretNumber.includes(d))`: the guess digits that occur in the secret, in guess order. */
  function Present(guess: seq<int>, secret: seq<int>): (r: seq<int>)
    ensures |r| == Matches(guess, secret)
    ensures forall x :: x in r <==> x in guess && x in secret
    decreases |guess|
  {
    if guess == [] then []
    else
      var init := guess[..|guess| - 1];
      var x := guess[|guess| - 1];
      assert guess == init + [x];
      if x in secret then Present(init, secret) + [x] else Present(init, secret)
  }

  /** The hint a first guess earns under the wildcard power-up. */
  datatype Hint =
    | NoHint
    | OneOfTheNumbers(digit: int)   // " (d is one of the numbers)"
    | Matched(digit: int)           // " (d)"

  /**
   * The wildcard hint (NumberGame.tsx:218-236): with no match, a random digit of
   * the secret; with one match, the matching digit (`guess.find`, the first
   * element of `Present`); with two, one of the two matching digits at random;
   * with three, none.
   */
  function WildcardHint(guess: seq<int>, secret: seq<int>, roll: real): (h: Hint)
    requires |guess| == 3 && |secret| == 3 && IsRoll(roll)
    ensures h.NoHint? <==> Matches(guess, secret) == 3
    ensures h.OneOfTheNumbers? ==> Matches(guess, secret) == 0 && h.digit in secret && h.digit !in guess
    ensures h.Matched? ==> 1 <= Matches(guess, secret) <= 2 && h.digit in secret && h.digit in guess
  {
    var m := Matches(guess, secret);
    if m == 0 then
      var d := secret[RandomIndex(roll, 3)];
      MatchesNone(guess, secret);
      OneOfTheNumbers(d)
    else if m == 1 then
      Matched(Present(guess, secret)[0])
    else if m == 2 then
      var present := Present(guess, secret);
      Matched(present[RandomIndex(roll, |present|)])
    else
      NoHint
  }
}
