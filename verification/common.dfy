/**
  Shared vocabulary for the trade widget and the options web app:
  nullable values, error-carrying results, ASCII case folding, JavaScript's
  `indexOf`, first-match search, filtering and decimal scaling of token amounts.
 */
module Common {

  /** A value that may be absent (JavaScript `null`/`undefined`). */
  datatype Option<+T> = None | Some(value: T)

  /** The outcome of an operation that can throw. */
  datatype Result<+T, +E> = Ok(value: T) | Err(error: E)

  /** The outcome of a check that either passes or throws. */
  datatype Outcome<+E> = Pass | Fail(error: E)

  /** `toLowerCase` restricted to ASCII letters (addresses are hexadecimal). */
  function LowerChar(c: char): char
  {
    if 'A' <= c <= 'Z' then (c as int + 32) as char else c
  }

  function Lower(s: string): (r: string)
    ensures |r| == |s|
    ensures forall i :: 0 <= i < |s| ==> r[i] == LowerChar(s[i])
  {
    if s == [] then [] else [LowerChar(s[0])] + Lower(s[1..])
  }

  /** Equality after lower-casing both sides. */
  predicate SameIgnoringCase(a: string, b: string)
  {
    Lower(a) == Lower(b)
  }

  /** JavaScript truthiness of a string that may be absent: `""` is falsy. */
  predicate Truthy(s: Option<string>)
  {
    s.Some? && s.value != ""
  }

  /** `p` occurs in `s` starting at index `i`. */
  predicate OccursAt(s: string, p: string, i: int)
  {
    0 <= i && i + |p| <= |s| && s[i..i + |p|] == p
  }

  function IndexOfFrom(s: string, p: string, k: nat): int
    requires k <= |s|
    decreases |s| - k
  {
    if k + |p| > |s| then -1
    else if s[k..k + |p|] == p then k
    else IndexOfFrom(s, p, k + 1)
  }

  /** The search from `k` returns the first occurrence at or after `k`, or -1 when there is none. */
  lemma {:induction false} IndexOfFromIsFirst(s: string, p: string, k: nat)
    requires k <= |s|
    ensures var r := IndexOfFrom(s, p, k);
            (r == -1 || (k <= r && OccursAt(s, p, r)))
            && (r == -1 <==> forall i :: k <= i ==> !OccursAt(s, p, i))
            && (r != -1 ==> forall i :: k <= i < r ==> !OccursAt(s, p, i))
    decreases |s| - k
  {
    if k + |p| > |s| {
    } else if s[k..k + |p|] != p {
      IndexOfFromIsFirst(s, p, k + 1);
    }
  }

  /** JavaScript's `s.indexOf(p)`: the first index where `p` occurs, or -1. */
  function IndexOf(s: string, p: string): int
  {
    IndexOfFrom(s, p, 0)
  }

  lemma IndexOfIsFirst(s: string, p: string)
    ensures IndexOf(s, p) == -1 <==> forall i :: !OccursAt(s, p, i)
    ensures IndexOf(s, p) != -1 ==> OccursAt(s, p, IndexOf(s, p)) && forall i :: 0 <= i < IndexOf(s, p) ==> !OccursAt(s, p, i)
  {
    IndexOfFromIsFirst(s, p, 0);
  }

  /** `s.indexOf(p) > 0` holds exactly when `p` occurs somewhere in `s` but not at the very start. */
  lemma IndexOfPositive(s: string, p: string)
    ensures IndexOf(s, p) > 0 <==> (exists i :: OccursAt(s, p, i)) && !OccursAt(s, p, 0)
  {
    IndexOfIsFirst(s, p);
    var r := IndexOf(s, p);
    if r == 0 {
      assert OccursAt(s, p, 0);
    } else if r > 0 {
      assert OccursAt(s, p, r);
    }
  }

  /** A pattern holding a character the string lacks does not occur in it. */
  lemma AbsentWhenCharMissing(s: string, p: string, c: char)
    requires c in p && c !in s
    ensures IndexOf(s, p) == -1
  {
    IndexOfIsFirst(s, p);
  }

  /** A pattern that occurs somewhere but does not start the string is found at a positive index. */
  lemma PositiveWhenFoundLater(s: string, p: string, i: int)
    requires OccursAt(s, p, i) && p != [] && s[0] != p[0]
    ensures IndexOf(s, p) > 0
  {
    IndexOfPositive(s, p);
  }

  /** Index of the first element satisfying `p`, as a `for` loop with an early `return` finds it. */
  function FindFirst<T>(s: seq<T>, p: T -> bool): (r: Option<nat>)
    ensures r.None? <==> forall i :: 0 <= i < |s| ==> !p(s[i])
    ensures r.Some? ==> r.value < |s| && p(s[r.value])
    ensures r.Some? ==> forall i :: 0 <= i < r.value ==> !p(s[i])
  {
    if s == [] then None
    else if p(s[0]) then Some(0)
    else match FindFirst(s[1..], p)
      case None => None
      case Some(k) => Some(k + 1)
  }

  /**
    `Array.prototype.filter`: the elements satisfying `p`. `FilterKeepsOrder`
    states that they come in the order of `s`, once per position.
   */
  function Filter<T>(s: seq<T>, p: T -> bool): (r: seq<T>)
    ensures |r| <= |s|
    ensures forall i :: 0 <= i < |r| ==> r[i] in s && p(r[i])
    ensures forall i :: 0 <= i < |s| && p(s[i]) ==> s[i] in r
  {
    if s == [] then []
    else if p(s[0]) then [s[0]] + Filter(s[1..], p)
    else Filter(s[1..], p)
  }

  /** The positions from `k` on whose element satisfies `p`, in increasing order. */
  predicate IsKeptFrom<T>(s: seq<T>, p: T -> bool, k: nat, idx: seq<nat>)
  {
    && (forall i :: 0 <= i < |idx| ==> k <= idx[i] < |s| && p(s[idx[i]]))
    && (forall i, j :: 0 <= i < j < |idx| ==> idx[i] < idx[j])
    && (forall m :: k <= m < |s| && p(s[m]) ==> m in idx)
  }

  /** Prepending a passing position `k` to the positions kept from `k + 1` keeps them from `k`. */
  lemma KeptFromCons<T>(s: seq<T>, p: T -> bool, k: nat, rest: seq<nat>)
    requires k < |s| && p(s[k]) && IsKeptFrom(s, p, k + 1, rest)
    ensures IsKeptFrom(s, p, k, [k] + rest)
  {
    var r := [k] + rest;
    assert forall i :: 0 < i < |r| ==> r[i] == rest[i - 1];
    forall m | k < m < |s| && p(s[m])
      ensures m in r
    {
      var i :| 0 <= i < |rest| && rest[i] == m;
      assert r[i + 1] == m;
    }
  }

  function KeptFrom<T>(s: seq<T>, p: T -> bool, k: nat): (idx: seq<nat>)
    requires k <= |s|
    ensures IsKeptFrom(s, p, k, idx)
    decreases |s| - k
  {
    if k == |s| then []
    else
      var rest := KeptFrom(s, p, k + 1);
      if p(s[k]) then
        KeptFromCons(s, p, k, rest);
        [k] + rest
      else rest
  }

  /** All positions of `s` whose element satisfies `p`, in increasing order. */
  function Kept<T>(s: seq<T>, p: T -> bool): (idx: seq<nat>)
    ensures forall i :: 0 <= i < |idx| ==> idx[i] < |s| && p(s[idx[i]])
    ensures forall i, j :: 0 <= i < j < |idx| ==> idx[i] < idx[j]
    ensures forall m :: 0 <= m < |s| && p(s[m]) ==> m in idx
  {
    KeptFrom(s, p, 0)
  }

  lemma {:induction false} FilterFollowsKept<T>(s: seq<T>, p: T -> bool, k: nat)
    requires k <= |s|
    ensures var r := Filter(s[k..], p);
            var idx := KeptFrom(s, p, k);
            |r| == |idx| && forall i :: 0 <= i < |r| ==> r[i] == s[idx[i]]
    decreases |s| - k
  {
    if k < |s| {
      FilterFollowsKept(s, p, k + 1);
      var t := s[k..];
      assert t[0] == s[k] && t[1..] == s[k + 1..];
      var rest := Filter(s[k + 1..], p);
      var tail := KeptFrom(s, p, k + 1);
      if p(s[k]) {
        assert Filter(t, p) == [s[k]] + rest;
        assert KeptFrom(s, p, k) == [k] + tail;
        forall i | 0 < i < |rest| + 1
          ensures ([s[k]] + rest)[i] == s[([k] + tail)[i]]
        {
          assert ([s[k]] + rest)[i] == rest[i - 1];
          assert ([k] + tail)[i] == tail[i - 1];
        }
      } else {
        assert Filter(t, p) == rest;
        assert KeptFrom(s, p, k) == tail;
      }
    }
  }

  /**
    The filtered sequence lists `s` at exactly the positions whose element
    satisfies `p`, in increasing order: order and multiplicity are kept.
   */
  lemma FilterKeepsOrder<T>(s: seq<T>, p: T -> bool)
    ensures var r := Filter(s, p);
            var idx := Kept(s, p);
            |r| == |idx| && forall i :: 0 <= i < |r| ==> r[i] == s[idx[i]]
  {
    FilterFollowsKept(s, p, 0);
    assert s[0..] == s;
  }

  /** Filtering with two tests that agree on every element of `s` gives the same result. */
  lemma {:induction false} FilterAgrees<T>(s: seq<T>, p: T -> bool, q: T -> bool)
    requires forall i :: 0 <= i < |s| ==> p(s[i]) == q(s[i])
    ensures Filter(s, p) == Filter(s, q)
  {
    if s != [] {
      assert forall i :: 0 <= i < |s[1..]| ==> s[1..][i] == s[i + 1];
      FilterAgrees(s[1..], p, q);
    }
  }

  /** Sum of integers, accumulated left to right from zero. */
  function SumInts(s: seq<int>): int
  {
    if s == [] then 0 else SumInts(s[..|s| - 1]) + s[|s| - 1]
  }

  /** Cancelling a non-zero factor on both sides. */
  lemma MulCancel(a: real, b: real, c: real)
    requires c != 0.0 && a * c == b * c
    ensures a == b
  {
    assert (a - b) * c == 0.0;
  }

  /** Multiplying by a non-negative factor keeps an inequality. */
  lemma MulMonotone(a: real, b: real, c: real)
    requires a <= b && 0.0 <= c
    ensures a * c <= b * c
  {
    assert (b - a) * c >= 0.0;
  }

  /** Ten to the power `n`, as a real. */
  function Pow10(n: nat): (r: real)
    ensures r >= 1.0
  {
    if n == 0 then 1.0 else 10.0 * Pow10(n - 1)
  }

  /** A base-unit amount expressed in whole tokens of the given decimal count. */
  function ToUnits(amount: real, decimals: nat): real
  {
    amount / Pow10(decimals)
  }

  /** Whole tokens scaled back by the decimal count give the base-unit amount again. */
  lemma ToUnitsScalesBack(amount: real, decimals: nat)
    ensures ToUnits(amount, decimals) * Pow10(decimals) == amount
  {
  }

  lemma ToUnitsNonNegative(amount: real, decimals: nat)
    requires amount >= 0.0
    ensures ToUnits(amount, decimals) >= 0.0
  {
    assert Pow10(decimals) > 0.0;
  }

  /** A whole-token amount expressed in base units of the given decimal count. */
  function FromUnits(units: real, decimals: nat): (r: real)
    ensures ToUnits(r, decimals) == units
  {
    units * Pow10(decimals)
  }
}
