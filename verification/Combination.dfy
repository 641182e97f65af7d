/** `CommonUtil::CombinationWithRepeated` of Include/CommonUtil.h: it steps a vector of
    face indices, in place, to the next multiset of the same size. */
module Combination {

  /** A multiset of `|v|` indices below `size`, written in its non-decreasing form. */
  predicate IsChoice(v: seq<nat>, size: nat) {
    && (forall i :: 0 <= i < |v| ==> v[i] < size)
    && (forall i, j :: 0 <= i < j < |v| ==> v[i] <= v[j])
  }

  predicate LessAt(a: seq<nat>, b: seq<nat>, k: nat) {
    && |a| == |b| && k < |a|
    && (forall i :: 0 <= i < k ==> a[i] == b[i])
    && a[k] < b[k]
  }

  /** Lexicographic order. */
  ghost predicate Less(a: seq<nat>, b: seq<nat>) {
    exists k: nat :: LessAt(a, b, k)
  }

  function Repeat(x: nat, n: nat): (r: seq<nat>)
    ensures |r| == n && forall i :: 0 <= i < n ==> r[i] == x
  {
    if n == 0 then [] else [x] + Repeat(x, n - 1)
  }

  /** `next` follows `v` immediately: no choice lies strictly between them. */
  ghost predicate Follows(v: seq<nat>, next: seq<nat>, size: nat) {
    && IsChoice(next, size)
    && Less(v, next)
    && forall w :: IsChoice(w, size) && Less(v, w) ==> w == next || Less(next, w)
  }

  /** Raising the last entry below `size - 1`, and everything after it to the same value, skips nothing. */
  lemma RaiseFollows(v: seq<nat>, size: nat, p: nat)
    requires IsChoice(v, size) && p < |v| && v[p] + 1 < size
    requires forall i :: p < i < |v| ==> v[i] == size - 1
    ensures Follows(v, v[..p] + Repeat(v[p] + 1, |v| - p), size)
  {
    var next := v[..p] + Repeat(v[p] + 1, |v| - p);
    assert forall i :: p <= i < |v| ==> next[i] == v[p] + 1;
    assert LessAt(v, next, p);
    forall w | IsChoice(w, size) && Less(v, w) ensures w == next || Less(next, w) {
      RaiseIsBelow(v, size, p, next, w);
    }
  }

  lemma RaiseIsBelow(v: seq<nat>, size: nat, p: nat, next: seq<nat>, w: seq<nat>)
    requires p < |v| == |next| && (forall i :: p < i < |v| ==> v[i] == size - 1)
    requires forall i :: 0 <= i < |v| ==> next[i] == if i < p then v[i] else v[p] + 1
    requires IsChoice(w, size) && Less(v, w)
    ensures w == next || Less(next, w)
  {
    var k: nat :| LessAt(v, w, k);
    if k < p {
      assert LessAt(next, w, k);
    } else if w != next {
      var d := FirstDifference(next, w);
      assert k == p <= d && w[p] <= w[d];
      assert LessAt(next, w, d);
    }
  }

  lemma {:induction false} FirstDifference(a: seq<nat>, b: seq<nat>) returns (d: nat)
    requires |a| == |b| && a != b
    ensures d < |a| && a[d] != b[d] && forall i :: 0 <= i < d ==> a[i] == b[i]
  {
    if a[0] != b[0] {
      d := 0;
    } else {
      assert a == [a[0]] + a[1..] && b == [b[0]] + b[1..];
      d := FirstDifference(a[1..], b[1..]);
      d := d + 1;
    }
  }

  /** The order is total on vectors of one length. */
  lemma Trichotomy(a: seq<nat>, b: seq<nat>)
    requires |a| == |b|
    ensures a == b || Less(a, b) || Less(b, a)
  {
    if a != b {
      var d := FirstDifference(a, b);
      assert LessAt(a, b, d) || LessAt(b, a, d);
    }
  }

  lemma LessTransitive(a: seq<nat>, b: seq<nat>, c: seq<nat>)
    requires Less(a, b) && Less(b, c)
    ensures Less(a, c)
  {
    var i: nat :| LessAt(a, b, i);
    var j: nat :| LessAt(b, c, j);
    assert LessAt(a, c, if i < j then i else j);
  }

  /** The in-place successor.  It answers false, changing nothing, only at the last choice
      (or for an empty set or an empty choice). */
  method CombinationWithRepeated(size: nat, comb: nat, vi: array<nat>) returns (more: bool)
    requires vi.Length == comb && IsChoice(vi[..], size)
    modifies vi
    ensures more ==> Follows(old(vi[..]), vi[..], size)
    ensures !more ==> vi[..] == old(vi[..]) && (size == 0 || comb == 0 || vi[..] == Repeat(size - 1, comb))
    ensures more <==> exists w :: IsChoice(w, size) && Less(old(vi[..]), w)
  {
    ghost var v := vi[..];
    if size == 0 || comb == 0 {
      return false;
    }
    var reachEnd := false;
    var x := comb - 1;
    while x >= 0
      invariant -1 <= x < comb
      invariant vi[..] == v
      invariant forall i :: x < i < comb ==> v[i] == size - 1
      invariant reachEnd <==> x < comb - 1
      invariant x == -1 ==> v[0] != size - 1
    {
      if x == 0 && vi[x] == size - 1 {
        NothingAbove(v, size);
        assert v == Repeat(size - 1, comb);
        return false;
      }
      if reachEnd {
        if vi[x] != size - 1 {
          RaiseFollows(v, size, x);
          var level := vi[x] + 1;
          for y := x to comb
            invariant vi[..x] == v[..x]
            invariant forall i :: x <= i < y ==> vi[i] == level
          {
            vi[y] := level;
          }
          assert vi[..] == v[..x] + Repeat(level, comb - x);
          return true;
        }
      }
      if vi[x] == size - 1 {
        reachEnd := true;
      } else if vi[x] < size - 1 {
        RaiseFollows(v, size, x);
        vi[x] := vi[x] + 1;
        assert vi[..] == v[..x] + Repeat(v[x] + 1, comb - x);
        return true;
      }
      x := x - 1;
    }
    assert false;
  }

  lemma NothingAbove(v: seq<nat>, size: nat)
    requires size > 0 && forall i :: 0 <= i < |v| ==> v[i] == size - 1
    ensures forall w :: IsChoice(w, size) ==> !Less(v, w)
  {
  }

  // ------------------------------------------------------------- whole enumeration

  /** The vectors met from all zeros, each from the one before. */
  ghost predicate IsTrailPrefix(t: seq<seq<nat>>, size: nat, comb: nat) {
    && t != [] && t[0] == Repeat(0, comb)
    && (forall i :: 0 <= i < |t| - 1 ==> Follows(t[i], t[i + 1], size))
  }

  /** The whole enumeration: a trail that goes on until the successor routine answers false. */
  ghost predicate IsTrail(t: seq<seq<nat>>, size: nat, comb: nat) {
    && IsTrailPrefix(t, size, comb)
    && (forall w :: IsChoice(w, size) ==> !Less(t[|t| - 1], w))
  }

  lemma {:induction false} TrailIncreases(t: seq<seq<nat>>, size: nat, comb: nat, i: nat, j: nat)
    requires IsTrail(t, size, comb) && i < j < |t|
    ensures Less(t[i], t[j])
    decreases j
  {
    assert Follows(t[j - 1], t[j], size);
    if i < j - 1 {
      TrailIncreases(t, size, comb, i, j - 1);
      LessTransitive(t[i], t[j - 1], t[j]);
    }
  }

  lemma ZerosFirst(size: nat, comb: nat, w: seq<nat>)
    requires IsChoice(w, size) && |w| == comb
    ensures w == Repeat(0, comb) || Less(Repeat(0, comb), w)
  {
    Trichotomy(Repeat(0, comb), w);
  }

  lemma {:induction false} TrailLengths(t: seq<seq<nat>>, size: nat, comb: nat, i: nat)
    requires IsTrail(t, size, comb) && i < |t|
    ensures |t[i]| == comb
  {
    if i > 0 {
      assert Follows(t[i - 1], t[i], size);
      TrailLengths(t, size, comb, i - 1);
    }
  }

  lemma {:induction false} TrailReaches(t: seq<seq<nat>>, size: nat, comb: nat, w: seq<nat>, i: nat) returns (k: nat)
    requires IsTrail(t, size, comb) && IsChoice(w, size) && |w| == comb
    requires i < |t| && (w == t[i] || Less(t[i], w))
    ensures k < |t| && t[k] == w
    decreases |t| - i
  {
    if w == t[i] {
      k := i;
    } else {
      assert i + 1 < |t|;
      assert Follows(t[i], t[i + 1], size);
      k := TrailReaches(t, size, comb, w, i + 1);
    }
  }

  lemma LeastOfBag(a: seq<nat>, b: seq<nat>, size: nat)
    requires IsChoice(a, size) && a != [] && b != [] && multiset(a) == multiset(b)
    ensures a[0] <= b[0]
  {
    assert b[0] in multiset(a);
    assert b[0] in a;
  }

  lemma BagOfTail(a: seq<nat>)
    requires a != []
    ensures multiset(a[1..]) == multiset(a) - multiset{a[0]}
    ensures multiset(a) == multiset{a[0]} + multiset(a[1..])
  {
    assert a == [a[0]] + a[1..];
  }

  /** A multiset has one non-decreasing listing. */
  lemma {:induction false} ChoiceOfBag(a: seq<nat>, b: seq<nat>, size: nat)
    requires IsChoice(a, size) && IsChoice(b, size) && multiset(a) == multiset(b)
    ensures a == b
  {
    assert |a| == |multiset(a)| == |multiset(b)| == |b|;
    if a != [] {
      LeastOfBag(a, b, size);
      LeastOfBag(b, a, size);
      BagOfTail(a);
      BagOfTail(b);
      ChoiceOfBag(a[1..], b[1..], size);
    }
  }

  /** Every multiset of `comb` indices is met exactly once. */
  lemma TrailMeetsEveryBagOnce(t: seq<seq<nat>>, size: nat, comb: nat, w: seq<nat>)
    requires IsTrail(t, size, comb) && |w| == comb && forall i :: 0 <= i < comb ==> w[i] < size
    ensures exists k :: 0 <= k < |t| && multiset(t[k]) == multiset(w)
    ensures forall i, j :: 0 <= i < j < |t| ==> multiset(t[i]) != multiset(t[j])
  {
    assert comb > 0 ==> w[0] < size;
    var s := SortChoice(w, size);
    ZerosFirst(size, comb, s);
    var k := TrailReaches(t, size, comb, s, 0);
    forall i, j | 0 <= i < j < |t| ensures multiset(t[i]) != multiset(t[j]) {
      if multiset(t[i]) == multiset(t[j]) {
        TrailLengths(t, size, comb, i);
        TrailLengths(t, size, comb, j);
        TrailChoice(t, size, comb, i);
        TrailChoice(t, size, comb, j);
        ChoiceOfBag(t[i], t[j], size);
        TrailIncreases(t, size, comb, i, j);
      }
    }
  }

  lemma TrailChoice(t: seq<seq<nat>>, size: nat, comb: nat, i: nat)
    requires IsTrail(t, size, comb) && i < |t| && (size > 0 || comb == 0)
    ensures IsChoice(t[i], size)
  {
    if i > 0 {
      assert Follows(t[i - 1], t[i], size);
    }
  }

  /** Any index vector has a non-decreasing rearrangement. */
  lemma {:induction false} SortChoice(w: seq<nat>, size: nat) returns (s: seq<nat>)
    requires forall i :: 0 <= i < |w| ==> w[i] < size
    ensures IsChoice(s, size) && multiset(s) == multiset(w) && |s| == |w|
  {
    if w == [] {
      s := [];
    } else {
      var r := SortChoice(w[1..], size);
      s := Insert(r, size, w[0]);
      BagOfTail(w);
    }
  }

  lemma {:induction false} Insert(r: seq<nat>, size: nat, x: nat) returns (s: seq<nat>)
    requires IsChoice(r, size) && x < size
    ensures IsChoice(s, size) && |s| == |r| + 1
    ensures multiset(s) == multiset(r) + multiset{x}
    ensures s[0] == x || (r != [] && s[0] == r[0])
  {
    if r == [] || x <= r[0] {
      s := [x] + r;
      Prepend(r, size, x);
    } else {
      BagOfTail(r);
      var t := Insert(r[1..], size, x);
      s := [r[0]] + t;
      Prepend(t, size, r[0]);
    }
  }

  lemma Prepend(r: seq<nat>, size: nat, x: nat)
    requires IsChoice(r, size) && x < size && (r != [] ==> x <= r[0])
    ensures IsChoice([x] + r, size)
    ensures multiset([x] + r) == multiset(r) + multiset{x}
  {
    var s := [x] + r;
    assert forall i :: 0 <= i < |r| ==> r[0] <= r[i];
    assert forall i :: 1 <= i < |s| ==> s[i] == r[i - 1];
  }

  // ------------------------------------------------------------------- termination

  function Power(b: nat, n: nat): nat {
    if n == 0 then 1 else b * Power(b, n - 1)
  }

  /** A choice read as a number in base `size`. */
  function Weight(v: seq<nat>, size: nat): nat {
    if v == [] then 0 else v[0] * Power(size, |v| - 1) + Weight(v[1..], size)
  }

  lemma {:induction false} WeightBound(v: seq<nat>, size: nat)
    requires forall i :: 0 <= i < |v| ==> v[i] < size
    ensures Weight(v, size) < Power(size, |v|)
  {
    if v != [] {
      WeightBound(v[1..], size);
      LeadingDigit(v[0], size, Power(size, |v| - 1), Weight(v[1..], size), 0);
    }
  }

  /** A smaller leading digit outweighs everything below it. */
  lemma LeadingDigit(a: nat, b: nat, p: nat, low: nat, other: nat)
    requires a < b && low < p
    ensures a * p + low < b * p + other
  {
    Distribute(a, b - a, p);
  }

  lemma Distribute(a: nat, d: nat, p: nat)
    ensures (a + d) * p == a * p + d * p
  {
  }

  lemma {:induction false} WeightIncreases(a: seq<nat>, b: seq<nat>, size: nat, k: nat)
    requires LessAt(a, b, k)
    requires forall i :: 0 <= i < |a| ==> a[i] < size && b[i] < size
    ensures Weight(a, size) < Weight(b, size)
  {
    if k == 0 {
      WeightBound(a[1..], size);
      LeadingDigit(a[0], b[0], Power(size, |a| - 1), Weight(a[1..], size), Weight(b[1..], size));
    } else {
      WeightIncreases(a[1..], b[1..], size, k - 1);
    }
  }

  /** The gap to the highest weight shrinks with every step, so an enumeration ends. */
  lemma WeightFollows(v: seq<nat>, next: seq<nat>, size: nat)
    requires IsChoice(v, size) && Follows(v, next, size)
    ensures Weight(v, size) < Weight(next, size) < Power(size, |v|)
  {
    var k: nat :| LessAt(v, next, k);
    WeightIncreases(v, next, size, k);
    WeightBound(next, size);
  }

  /** A whole enumeration ends with every entry at its highest. */
  lemma TrailEndsAtTop(t: seq<seq<nat>>, size: nat, comb: nat)
    requires IsTrail(t, size, comb) && size > 0
    ensures t[|t| - 1] == Repeat(size - 1, comb)
  {
    var last, top := t[|t| - 1], Repeat(size - 1, comb);
    TrailLengths(t, size, comb, |t| - 1);
    TrailChoice(t, size, comb, |t| - 1);
    assert IsChoice(top, size);
    Trichotomy(last, top);
    NothingAbove(top, size);
  }
}
