/**
 * The secret generator: three digits drawn without replacement from 1..9
 * (`generateSecretNumber`, NumberGame.tsx:78-87).
 */
module Secret {
  import opened Common

  /** The pool the generator starts from, [1, 2, ..., 9], in the order the source lists it. */
  const Pool: seq<int> := [1, 2, 3, 4, 5, 6, 7, 8, 9]

  predicate Distinct(s: seq<int>)
  {
    forall i, j :: 0 <= i < j < |s| ==> s[i] != s[j]
  }

  predicate AllDigits(s: seq<int>)
  {
    forall i :: 0 <= i < |s| ==> 1 <= s[i] <= 9
  }

  /** A secret (and an accepted guess): exactly 3 mutually distinct digits in 1..9. */
  predicate IsSecret(s: seq<int>)
  {
    |s| == 3 && 1 <= s[0] <= 9 && 1 <= s[1] <= 9 && 1 <= s[2] <= 9
    && s[0] != s[1] && s[0] != s[2] && s[1] != s[2]
  }

  /** A secret is a sequence of three distinct digits. */
  lemma SecretShape(s: seq<int>)
    ensures IsSecret(s) <==> |s| == 3 && AllDigits(s) && Distinct(s)
  {
    if |s| == 3 && 1 <= s[0] <= 9 && 1 <= s[1] <= 9 && 1 <= s[2] <= 9 {
      assert forall i :: 0 <= i < 3 ==> 1 <= s[i] <= 9;
    }
  }

  lemma PoolIsDigits()
    ensures |Pool| == 9 && Distinct(Pool) && AllDigits(Pool)
    ensures forall x :: x in Pool <==> 1 <= x <= 9
  {
    forall i | 0 <= i < 9
      ensures Pool[i] == i + 1
    {
    }
    forall x ensures x in Pool <==> 1 <= x <= 9 {
      if 1 <= x <= 9 {
        assert Pool[x - 1] == x;
      }
    }
  }

  /** `digits.splice(k, 1)`: the pool with its `k`-th element taken out. */
  function RemoveAt(s: seq<int>, k: nat): (r: seq<int>)
    requires k < |s|
    ensures |r| == |s| - 1
    ensures forall i :: 0 <= i < |r| ==> r[i] == if i < k then s[i] else s[i + 1]
  {
    s[..k] + s[k+1..]
  }

  /** Splicing a value out of a pool of distinct values leaves exactly the other values, still distinct. */
  lemma RemoveAtDistinct(s: seq<int>, k: nat)
    requires k < |s| && Distinct(s)
    ensures Distinct(RemoveAt(s, k))
    ensures forall x :: x in RemoveAt(s, k) <==> x in s && x != s[k]
  {
  }

  /** `n` picks for a pool of `n0` elements: the `i`-th pick indexes a pool that has lost `i` elements. */
  predicate ValidPicks(n0: nat, picks: seq<nat>)
  {
    |picks| <= n0 && forall i :: 0 <= i < |picks| ==> picks[i] < n0 - i
  }

  /** After the first pick, the remaining picks index the pool that has lost one element. */
  lemma TailPicks(n: nat, picks: seq<nat>)
    requires ValidPicks(n, picks) && picks != []
    ensures ValidPicks(n - 1, picks[1..])
  {
    forall i | 0 <= i < |picks[1..]| ensures picks[1..][i] < n - 1 - i {
      assert picks[1..][i] == picks[i + 1];
    }
  }

  /** A first pick below `n` followed by valid picks from the smaller pool. */
  lemma ConsPicks(n: nat, k: nat, tail: seq<nat>)
    requires k < n && ValidPicks(n - 1, tail)
    ensures ValidPicks(n, [k] + tail) && ([k] + tail)[0] == k && ([k] + tail)[1..] == tail
  {
    var picks := [k] + tail;
    forall i | 1 <= i < |picks| ensures picks[i] < n - i {
      assert picks[i] == tail[i - 1];
    }
  }

  /** What drawing `picks` from `pool` without replacement yields, pick by pick. */
  function Drawn(pool: seq<int>, picks: seq<nat>): (d: seq<int>)
    requires ValidPicks(|pool|, picks)
    ensures |d| == |picks|
    decreases picks
  {
    if picks == [] then []
    else
      TailPicks(|pool|, picks);
      [pool[picks[0]]] + Drawn(RemoveAt(pool, picks[0]), picks[1..])
  }

  /** All of `rolls` are draws of `Math.random()`. */
  predicate AllRolls(rolls: seq<real>)
  {
    forall i :: 0 <= i < |rolls| ==> IsRoll(rolls[i])
  }

  /** The pool indices that `rolls` produce when each scales to the pool's current length. */
  function PicksOf(rolls: seq<real>, n: nat): (picks: seq<nat>)
    requires |rolls| <= n && AllRolls(rolls)
    ensures |picks| == |rolls| && ValidPicks(n, picks)
    decreases rolls
  {
    if rolls == [] then []
    else
      var rest := PicksOf(rolls[1..], n - 1);
      var picks := [RandomIndex(rolls[0], n)] + rest;
      assert forall i :: 1 <= i < |picks| ==> picks[i] == rest[i - 1];
      picks
  }

  predicate ValidRolls(rolls: seq<real>)
  {
    |rolls| == 3 && AllRolls(rolls)
  }

  /** The secret that three rolls of `Math.random()` select. */
  function SecretOf(rolls: seq<real>): (s: seq<int>)
    requires ValidRolls(rolls)
    ensures IsSecret(s)
  {
    PoolIsDigits();
    DrawnDigits(Pool, PicksOf(rolls, 9));
    Drawn(Pool, PicksOf(rolls, 9))
  }

  /** Drawing from a pool of distinct values yields distinct values of the pool, one per pick. */
  lemma {:induction false} DrawnFromPool(pool: seq<int>, picks: seq<nat>)
    requires Distinct(pool) && ValidPicks(|pool|, picks)
    ensures var d := Drawn(pool, picks);
      |d| == |picks| && Distinct(d) && forall x :: x in d ==> x in pool
    decreases picks
  {
    if picks != [] {
      var rest := RemoveAt(pool, picks[0]);
      RemoveAtDistinct(pool, picks[0]);
      TailPicks(|pool|, picks);
      DrawnFromPool(rest, picks[1..]);
      var d := Drawn(pool, picks);
      var tail := Drawn(rest, picks[1..]);
      assert d == [pool[picks[0]]] + tail;
      forall i, j | 0 <= i < j < |d| ensures d[i] != d[j] {
        if i == 0 {
          assert d[j] == tail[j - 1];
          assert tail[j - 1] in tail;
        } else {
          assert d[i] == tail[i - 1] && d[j] == tail[j - 1];
        }
      }
    }
  }

  /** A non-empty list of picks: the first draw, then the rest from the smaller pool. */
  lemma DrawnUnfold(pool: seq<int>, picks: seq<nat>)
    requires ValidPicks(|pool|, picks) && picks != []
    ensures ValidPicks(|pool| - 1, picks[1..])
    ensures Drawn(pool, picks) == [pool[picks[0]]] + Drawn(RemoveAt(pool, picks[0]), picks[1..])
  {
    TailPicks(|pool|, picks);
  }

  /** The first roll scales to the whole pool, the later ones to the pool less one. */
  lemma PicksOfUnfold(rolls: seq<real>, n: nat)
    requires 0 < |rolls| <= n && AllRolls(rolls)
    ensures AllRolls(rolls[1..])
    ensures PicksOf(rolls, n) == [RandomIndex(rolls[0], n)] + PicksOf(rolls[1..], n - 1)
  {
  }

  /** Positions of equal values in a pool of distinct values coincide. */
  lemma DistinctIndex(s: seq<int>, i: nat, j: nat)
    requires Distinct(s) && i < |s| && j < |s| && s[i] == s[j]
    ensures i == j
  {
  }

  /** One draw: roll `i` picks from the current pool, the later rolls from what remains. */
  lemma DrawStep(pool: seq<int>, rolls: seq<real>, i: nat)
    requires i < |rolls| && |rolls| - i <= |pool| && AllRolls(rolls)
    ensures var k := RandomIndex(rolls[i], |pool|);
      Drawn(pool, PicksOf(rolls[i..], |pool|))
        == [pool[k]] + Drawn(RemoveAt(pool, k), PicksOf(rolls[i + 1..], |pool| - 1))
  {
    var rest := rolls[i..];
    assert rest[0] == rolls[i] && rest[1..] == rolls[i + 1..];
    assert AllRolls(rest) by {
      forall j | 0 <= j < |rest| ensures IsRoll(rest[j]) {
        assert rest[j] == rolls[i + j];
      }
    }
    PicksOfUnfold(rest, |pool|);
    DrawnUnfold(pool, PicksOf(rest, |pool|));
  }

  /**
   * The loop of `generateSecretNumber`: for each roll, pick an index into the
   * remaining digits, take that digit and splice it out of the pool.
   */
  method DrawDigits(pool: seq<int>, rolls: seq<real>) returns (selected: seq<int>)
    requires |rolls| <= |pool| && AllRolls(rolls)
    ensures selected == Drawn(pool, PicksOf(rolls, |pool|))
  {
    var digits := pool;
    selected := [];
    assert rolls[0..] == rolls;
    for i := 0 to |rolls|
      invariant |digits| == |pool| - i
      invariant selected + Drawn(digits, PicksOf(rolls[i..], |digits|)) == Drawn(pool, PicksOf(rolls, |pool|))
    {
      var idx := RandomIndex(rolls[i], |digits|);
      DrawStep(digits, rolls, i);
      selected := selected + [digits[idx]];
      digits := RemoveAt(digits, idx);
    }
    assert rolls[|rolls|..] == [];
  }

  /** `generateSecretNumber`: three draws without replacement from the digits 1..9. */
  method GenerateSecret(rolls: seq<real>) returns (selected: seq<int>)
    requires ValidRolls(rolls)
    ensures selected == SecretOf(rolls)
    ensures IsSecret(selected)
  {
    selected := DrawDigits(Pool, rolls);
  }

  /** Three picks from a pool of distinct digits form a secret. */
  lemma DrawnDigits(pool: seq<int>, picks: seq<nat>)
    requires Distinct(pool) && AllDigits(pool) && ValidPicks(|pool|, picks) && |picks| == 3
    ensures IsSecret(Drawn(pool, picks))
  {
    var s := Drawn(pool, picks);
    DrawnFromPool(pool, picks);
    SecretShape(s);
    forall i | 0 <= i < 3 ensures 1 <= s[i] <= 9 {
      assert s[i] in s;
      var k :| 0 <= k < |pool| && pool[k] == s[i];
    }
  }

  /** Different picks from a pool of distinct values never yield the same draw. */
  lemma {:induction false} DrawnInjective(pool: seq<int>, p: seq<nat>, q: seq<nat>)
    requires Distinct(pool) && ValidPicks(|pool|, p) && ValidPicks(|pool|, q) && |p| == |q|
    requires Drawn(pool, p) == Drawn(pool, q)
    ensures p == q
    decreases p
  {
    if p != [] {
      DrawnUnfold(pool, p);
      DrawnUnfold(pool, q);
      var dp := Drawn(pool, p);
      assert dp[0] == pool[p[0]] == pool[q[0]];
      DistinctIndex(pool, p[0], q[0]);
      var rest := RemoveAt(pool, p[0]);
      assert dp[1..] == Drawn(rest, p[1..]) == Drawn(rest, q[1..]);
      RemoveAtDistinct(pool, p[0]);
      DrawnInjective(rest, p[1..], q[1..]);
      assert p == [p[0]] + p[1..] && q == [q[0]] + q[1..];
    }
  }

  /** The position of `x` in `s`. */
  function IndexOf(s: seq<int>, x: int): (k: nat)
    requires x in s
    ensures k < |s| && s[k] == x
  {
    if s[0] == x then 0 else 1 + IndexOf(s[1..], x)
  }

  /** After splicing out the first value of `target`, the rest of `target` is still in the pool. */
  lemma RestStillInPool(pool: seq<int>, target: seq<int>, k: nat)
    requires Distinct(pool) && Distinct(target) && target != [] && k < |pool| && pool[k] == target[0]
    requires forall x :: x in target ==> x in pool
    ensures Distinct(target[1..])
    ensures forall x :: x in target[1..] ==> x in RemoveAt(pool, k)
  {
    RemoveAtDistinct(pool, k);
    forall x | x in target[1..] ensures x in RemoveAt(pool, k) {
      var j :| 0 <= j < |target[1..]| && target[1..][j] == x;
      assert target[j + 1] == x && target[0] != target[j + 1];
    }
  }

  /** The picks that draw exactly `target` from `pool`: each value's position in what is left. */
  function PicksFor(pool: seq<int>, target: seq<int>): (picks: seq<nat>)
    requires Distinct(pool) && Distinct(target) && |target| <= |pool|
    requires forall x :: x in target ==> x in pool
    ensures ValidPicks(|pool|, picks) && |picks| == |target|
    decreases target
  {
    if target == [] then []
    else
      var k := IndexOf(pool, target[0]);
      RestStillInPool(pool, target, k);
      RemoveAtDistinct(pool, k);
      var tail := PicksFor(RemoveAt(pool, k), target[1..]);
      ConsPicks(|pool|, k, tail);
      [k] + tail
  }

  /** Drawing the picks `PicksFor` computes gives back the target. */
  lemma {:induction false} PicksForDraws(pool: seq<int>, target: seq<int>)
    requires Distinct(pool) && Distinct(target) && |target| <= |pool|
    requires forall x :: x in target ==> x in pool
    ensures Drawn(pool, PicksFor(pool, target)) == target
    decreases target
  {
    if target != [] {
      var k := IndexOf(pool, target[0]);
      RestStillInPool(pool, target, k);
      RemoveAtDistinct(pool, k);
      var rest := RemoveAt(pool, k);
      var tail := PicksFor(rest, target[1..]);
      ConsPicks(|pool|, k, tail);
      PicksForDraws(rest, target[1..]);
      assert PicksFor(pool, target) == [k] + tail;
      assert Drawn(pool, [k] + tail) == [pool[k]] + Drawn(rest, tail);
      assert target == [target[0]] + target[1..];
    }
  }

  /** The rolls `i / n` that make `PicksOf` produce the given picks. */
  function RollsFor(picks: seq<nat>, n: nat): (rolls: seq<real>)
    requires ValidPicks(n, picks)
    ensures |rolls| == |picks| && AllRolls(rolls)
    ensures PicksOf(rolls, n) == picks
    decreases picks
  {
    if picks == [] then []
    else
      TailPicks(n, picks);
      RandomIndexReaches(picks[0], n);
      var tail := RollsFor(picks[1..], n - 1);
      var rolls := [picks[0] as real / n as real] + tail;
      assert rolls[1..] == tail;
      assert picks == [picks[0]] + picks[1..];
      rolls
  }

  /** Every one of the 9 * 8 * 7 secrets is the outcome of some rolls: the generator misses none. */
  lemma EverySecretGenerated(s: seq<int>)
    requires IsSecret(s)
    ensures exists rolls :: ValidRolls(rolls) && SecretOf(rolls) == s
  {
    PoolIsDigits();
    SecretShape(s);
    var picks := PicksFor(Pool, s);
    PicksForDraws(Pool, s);
    var rolls := RollsFor(picks, 9);
    assert SecretOf(rolls) == s;
  }

  /** Rolls that land on different pool indices produce different secrets. */
  lemma DifferentPicksDifferentSecrets(r1: seq<real>, r2: seq<real>)
    requires ValidRolls(r1) && ValidRolls(r2)
    requires PicksOf(r1, 9) != PicksOf(r2, 9)
    ensures SecretOf(r1) != SecretOf(r2)
  {
    PoolIsDigits();
    if SecretOf(r1) == SecretOf(r2) {
      DrawnInjective(Pool, PicksOf(r1, 9), PicksOf(r2, 9));
    }
  }
}
