/** The tile wall of a game: tiles are dealt from the front of the list, replacement tiles and
    the bonus tile come from the tail, where only their indices are put aside
    (`_random_result_list`); the list itself keeps them. */
module Wall {
  /** The bonus tile index is a die roll, moved by six when that place is taken. */
  const BAO_STEP := 6

  /** What the tail must still hold for a bonus roll: `BAO_STEP` plus the highest roll. */
  const TAIL := 12

  // ------------------------------------------------------------------ tail indices

  /** The next `want` free indices from `i` on, counted from the tail. */
  function FreeIndices(reserved: set<nat>, i: nat, size: nat, want: nat): seq<nat>
    decreases size + 1 - i
  {
    if i > size || want == 0 then []
    else if i in reserved then FreeIndices(reserved, i + 1, size, want)
    else [i] + FreeIndices(reserved, i + 1, size, want - 1)
  }

  ghost predicate Distinct<T>(s: seq<T>) {
    forall i, j :: 0 <= i < j < |s| ==> s[i] != s[j]
  }

  function Elements<T>(s: seq<T>): set<T> {
    set x | x in s
  }

  /** The indices taken are the smallest free ones: distinct, in the list, and nothing free is skipped. */
  lemma {:induction false} SmallestFree(reserved: set<nat>, i: nat, size: nat, want: nat)
    ensures var s := FreeIndices(reserved, i, size, want);
            && |s| <= want && Distinct(s)
            && (forall x <- s :: i <= x <= size && x !in reserved)
            && (forall x <- s, y | i <= y < x :: y in reserved || y in s)
            && (|s| < want ==> forall y | i <= y <= size :: y in reserved || y in s)
    decreases size + 1 - i
  {
    var s := FreeIndices(reserved, i, size, want);
    if i <= size && want > 0 {
      if i in reserved {
        SmallestFree(reserved, i + 1, size, want);
      } else {
        SmallestFree(reserved, i + 1, size, want - 1);
        var rest := FreeIndices(reserved, i + 1, size, want - 1);
        assert s == [i] + rest;
        forall y | i <= y <= size && (y == i || y in rest) ensures y in s {
          assert s[0] == i && s[1..] == rest;
        }
      }
    }
  }

  lemma {:induction false} CountOfDistinct<T>(s: seq<T>)
    requires Distinct(s)
    ensures |Elements(s)| == |s|
  {
    if s != [] {
      var n := |s| - 1;
      CountOfDistinct(s[..n]);
      assert Elements(s) == Elements(s[..n]) + {s[n]} by {
        assert s == s[..n] + [s[n]];
      }
    }
  }

  /** A set that holds 1..m has at least `m` elements. */
  lemma {:induction false} HoldsUpTo(s: set<nat>, m: nat)
    requires forall y | 1 <= y <= m :: y in s
    ensures m <= |s|
  {
    if m > 0 {
      HoldsUpTo(s - {m}, m - 1);
    }
  }

  // ------------------------------------------------------------------------ the wall

  datatype Stack = Stack(cards: seq<int>, reserved: set<nat>)

  function Remain(w: Stack): int {
    |w.cards| - |w.reserved|
  }

  function Front(w: Stack, n: nat): Stack {
    if |w.cards| < n then w else w.(cards := w.cards[n..])
  }

  /** The loop of `TailPai` tests its count after taking, so it takes one tile even for a count of 0. */
  function TailIndices(w: Stack, n: nat): seq<nat> {
    FreeIndices(w.reserved, 1, |w.cards|, if n == 0 then 1 else n)
  }

  function Tail(w: Stack, n: nat): Stack {
    w.(reserved := w.reserved + Elements(TailIndices(w, n)))
  }

  function BaoIndex(w: Stack, t: nat): nat {
    if t in w.reserved then t + BAO_STEP else t
  }

  function Bao(w: Stack, t: nat): Stack {
    w.(reserved := w.reserved + {BaoIndex(w, t)})
  }

  // ------------------------------------------------------------------- runs on the wall

  datatype Op = FrontDraw(count: nat) | TailDraw(count: nat) | BaoDraw(index: nat)

  /** The wall, with the places in the shuffle of the tiles dealt and of those put aside for the bonus. */
  datatype Table = Table(wall: Stack, dealt: seq<int>, aside: set<int>)

  /** Places in a shuffle of `total` tiles: the tiles a front draw takes, those at tail indices. */
  function FrontPlaces(total: nat, w: Stack, n: nat): (r: seq<int>)
    ensures |r| == if |w.cards| < n then 0 else n
  {
    if |w.cards| < n then [] else seq(n, k requires 0 <= k < n => total - |w.cards| + k)
  }

  function TailPlaces(total: nat, indices: seq<nat>): (r: seq<int>)
    ensures |r| == |indices|
  {
    seq(|indices|, k requires 0 <= k < |indices| => total - indices[k])
  }

  function Step(total: nat, t: Table, op: Op): Table {
    match op
    case FrontDraw(n) => t.(wall := Front(t.wall, n), dealt := t.dealt + FrontPlaces(total, t.wall, n))
    case TailDraw(n) =>
      t.(wall := Tail(t.wall, n), dealt := t.dealt + TailPlaces(total, TailIndices(t.wall, n)))
    case BaoDraw(i) =>
      var index := BaoIndex(t.wall, i);
      t.(wall := Bao(t.wall, i), aside := if index in t.wall.reserved then t.aside else t.aside + {total - index})
  }

  /** What the game sees to: a front draw leaves the tail its twelve tiles and a count that is not
      negative; the bonus index is a die roll. */
  predicate Allowed(w: Stack, op: Op) {
    match op
    case FrontDraw(n) => |w.cards| >= n ==> |w.cards| - n >= TAIL && Remain(w) >= n
    case TailDraw(_) => true
    case BaoDraw(i) => 1 <= i <= 6
  }

  /** The places used are those in front of the list and those put aside at the tail. */
  ghost predicate Used(total: nat, w: Stack, p: int) {
    0 <= p < total - |w.cards| || (p <= total && total - p in w.reserved)
  }

  function Max(a: int, b: int): int {
    if a < b then b else a
  }

  /** What every step keeps. */
  ghost predicate Sound(deck: seq<int>, t: Table) {
    var w := t.wall;
    && |w.cards| <= |deck| && w.cards == deck[|deck| - |w.cards|..] && |w.cards| >= TAIL && Remain(w) >= 0
    && (forall r <- w.reserved :: 1 <= r <= Max(TAIL, |w.reserved|))
  }

  /** Tiles dealt and tiles aside are all different, and the rest is what `GetRemainCount` counts. */
  ghost predicate Accounted(total: nat, t: Table) {
    && Distinct(t.dealt) && (forall p <- t.dealt :: p !in t.aside)
    && (forall p: int :: p in t.dealt || p in t.aside <==> Used(total, t.wall, p))
    && |t.dealt| + |t.aside| + Remain(t.wall) == total
  }

  /** A set of numbers from 1 to `m` has at most `m` elements. */
  lemma {:induction false} AtMost(s: set<nat>, m: nat)
    requires forall r <- s :: 1 <= r <= m
    ensures |s| <= m
  {
    if m > 0 {
      AtMost(s - {m}, m - 1);
    } else {
      assert forall r: nat :: r !in s;
      assert s == {};
    }
  }

  /** Dealing places that were free keeps the account. */
  lemma DealAccounts(total: nat, t: Table, w2: Stack, places: seq<int>)
    requires Accounted(total, t) && Distinct(places) && Remain(w2) == Remain(t.wall) - |places|
    requires forall p <- places :: !Used(total, t.wall, p)
    requires forall p: int :: Used(total, w2, p) <==> Used(total, t.wall, p) || p in places
    ensures Accounted(total, Table(w2, t.dealt + places, t.aside))
  {
    hide Used, Remain;
    var t2 := Table(w2, t.dealt + places, t.aside);
    forall p: int ensures p in t2.dealt || p in t2.aside <==> Used(total, w2, p) {
    }
    forall i, j | 0 <= i < j < |t2.dealt| ensures t2.dealt[i] != t2.dealt[j] {
      assert i < |t.dealt| ==> t.dealt[i] in t.dealt;
      assert j >= |t.dealt| ==> places[j - |t.dealt|] in places;
    }
    forall p <- t2.dealt ensures p !in t2.aside {
      assert p in t.dealt || p in places;
    }
  }

  /** So does putting one aside. */
  lemma AsideAccounts(total: nat, t: Table, w2: Stack, place: int)
    requires Accounted(total, t) && Remain(w2) == Remain(t.wall) - 1
    requires !Used(total, t.wall, place)
    requires forall p: int :: Used(total, w2, p) <==> Used(total, t.wall, p) || p == place
    ensures Accounted(total, Table(w2, t.dealt, t.aside + {place}))
  {
    hide Used, Remain;
    assert place !in t.aside;
  }

  lemma FrontStep(deck: seq<int>, t: Table, n: nat)
    requires Sound(deck, t) && Accounted(|deck|, t) && Allowed(t.wall, FrontDraw(n))
    ensures var t2 := Step(|deck|, t, FrontDraw(n)); Sound(deck, t2) && Accounted(|deck|, t2)
  {
    var w, total := t.wall, |deck|;
    if |w.cards| >= n {
      var places := FrontPlaces(total, w, n);
      var w2 := Front(w, n);
      forall p: int ensures p in places <==> total - |w.cards| <= p < total - |w.cards| + n {
        assert total - |w.cards| <= p < total - |w.cards| + n ==> places[p - (total - |w.cards|)] == p;
      }
      DealAccounts(total, t, w2, places);
    } else {
      assert t.dealt + [] == t.dealt;
    }
  }

  /** A tail draw puts free indices aside, each of them smaller than every index left free: as many as asked
      for, one when none is asked for, and all that are free when there are fewer. */
  lemma TailTakes(w: Stack, n: nat)
    ensures var r, s := Tail(w, n).reserved, TailIndices(w, n);
            && |r| == |w.reserved| + |s| && w.reserved <= r && w.cards == Tail(w, n).cards
            && (forall x :: x in r && x !in w.reserved ==> 1 <= x <= |w.cards|)
            && (forall x, y :: x in r && x !in w.reserved && 1 <= y < x ==> y in r)
            && |s| <= (if n == 0 then 1 else n)
            && (|s| < (if n == 0 then 1 else n) ==> forall y :: 1 <= y <= |w.cards| ==> y in r)
  {
    var s := TailIndices(w, n);
    SmallestFree(w.reserved, 1, |w.cards|, if n == 0 then 1 else n);
    CountOfDistinct(s);
    hide FreeIndices;
    assert w.reserved !! Elements(s);
    assert |w.reserved + Elements(s)| == |w.reserved| + |Elements(s)|;
  }

  lemma TailReserves(w: Stack, n: nat)
    requires |w.cards| >= TAIL && Remain(w) >= 0 && forall r <- w.reserved :: 1 <= r <= Max(TAIL, |w.reserved|)
    ensures var s, w2 := TailIndices(w, n), Tail(w, n);
            && |w2.reserved| == |w.reserved| + |s| && Remain(w2) >= 0
            && (forall r <- w2.reserved :: 1 <= r <= Max(TAIL, |w2.reserved|))
            && (Remain(w) >= n > 0 ==> |s| == n)
  {
    var s, w2, want := TailIndices(w, n), Tail(w, n), if n == 0 then 1 else n;
    SmallestFree(w.reserved, 1, |w.cards|, want);
    CountOfDistinct(s);
    assert w.reserved * Elements(s) == {};
    forall r | r in w2.reserved ensures 1 <= r <= Max(TAIL, |w2.reserved|) {
      if r in s {
        HoldsUpTo(w2.reserved, r);
      }
    }
    AtMost(w2.reserved, |w.cards|);
    if |s| < want {
      HoldsUpTo(w2.reserved, |w.cards|);
    }
  }

  lemma TailStep(deck: seq<int>, t: Table, n: nat)
    requires Sound(deck, t) && Accounted(|deck|, t)
    ensures var t2 := Step(|deck|, t, TailDraw(n)); Sound(deck, t2) && Accounted(|deck|, t2)
    ensures Remain(t.wall) >= n > 0 ==> |Step(|deck|, t, TailDraw(n)).dealt| == |t.dealt| + n
  {
    var w, want := t.wall, if n == 0 then 1 else n;
    var s := TailIndices(w, n);
    SmallestFree(w.reserved, 1, |w.cards|, want);
    TailReserves(w, n);
    hide TailIndices;
    TailAccounts(|deck|, t, n, s);
  }

  lemma TailAccounts(total: nat, t: Table, n: nat, s: seq<nat>)
    requires |t.wall.cards| <= total && Accounted(total, t)
    requires s == TailIndices(t.wall, n) && Distinct(s)
    requires forall x <- s :: 1 <= x <= |t.wall.cards| && x !in t.wall.reserved
    requires |Tail(t.wall, n).reserved| == |t.wall.reserved| + |s|
    ensures Accounted(total, Step(total, t, TailDraw(n)))
  {
    hide TailIndices, Accounted;
    var w, w2, places := t.wall, Tail(t.wall, n), TailPlaces(total, s);
    PlacesOf(total, s);
    assert forall p: int :: p in places ==> !Used(total, w, p);
    assert forall p: int :: Used(total, w2, p) <==> Used(total, w, p) || p in places;
    DealAccounts(total, t, w2, places);
  }

  lemma PlacesOf(total: nat, s: seq<nat>)
    requires Distinct(s)
    ensures Distinct(TailPlaces(total, s))
    ensures forall p: int :: p in TailPlaces(total, s) <==> total - p in s && p <= total
  {
    var places := TailPlaces(total, s);
    forall p: int ensures p in places <==> total - p in s && p <= total {
      if total - p in s && p <= total {
        var k :| 0 <= k < |s| && s[k] == total - p;
        assert places[k] == p;
      }
      if p in places {
        var k :| 0 <= k < |s| && places[k] == p;
        assert s[k] in s;
      }
    }
  }

  lemma BaoReserves(w: Stack, i: nat)
    requires |w.cards| >= TAIL && Remain(w) >= 0 && 1 <= i <= 6
    requires forall r <- w.reserved :: 1 <= r <= Max(TAIL, |w.reserved|)
    ensures var w2, index := Bao(w, i), BaoIndex(w, i);
            && Remain(w2) == Remain(w) - (if index in w.reserved then 0 else 1) && Remain(w2) >= 0
            && (forall r <- w2.reserved :: 1 <= r <= Max(TAIL, |w2.reserved|))
            && (index in w.reserved ==> w2 == w)
  {
    var w2, index := Bao(w, i), BaoIndex(w, i);
    if index in w.reserved {
      assert w2.reserved == w.reserved;
    } else {
      AtMost(w2.reserved, |w.cards|);
    }
  }

  lemma BaoStep(deck: seq<int>, t: Table, i: nat)
    requires Sound(deck, t) && Accounted(|deck|, t) && 1 <= i <= 6
    ensures var t2 := Step(|deck|, t, BaoDraw(i)); Sound(deck, t2) && Accounted(|deck|, t2)
  {
    hide Accounted, Remain, Used, BaoIndex;
    var w, w2, index := t.wall, Bao(t.wall, i), BaoIndex(t.wall, i);
    BaoReserves(w, i);
    if index in w.reserved {
      assert Step(|deck|, t, BaoDraw(i)) == t;
    } else {
      BaoUses(|deck|, w, i);
      AsideAccounts(|deck|, t, w2, |deck| - index);
    }
  }

  lemma BaoUses(total: nat, w: Stack, i: nat)
    requires |w.cards| <= total && TAIL <= |w.cards| && 1 <= i <= 6 && BaoIndex(w, i) !in w.reserved
    ensures !Used(total, w, total - BaoIndex(w, i))
    ensures forall p: int :: Used(total, Bao(w, i), p) <==> Used(total, w, p) || p == total - BaoIndex(w, i)
  {
  }

  /** A run of draws. */
  function Run(total: nat, t: Table, ops: seq<Op>): Table
    decreases |ops|
  {
    if ops == [] then t else Run(total, Step(total, t, ops[0]), ops[1..])
  }

  /** Every step of the run is one the game makes. */
  predicate AllAllowed(total: nat, t: Table, ops: seq<Op>)
    decreases |ops|
  {
    ops != [] ==> Allowed(t.wall, ops[0]) && AllAllowed(total, Step(total, t, ops[0]), ops[1..])
  }

  lemma {:induction false} RunKeeps(deck: seq<int>, t: Table, ops: seq<Op>)
    requires Sound(deck, t) && Accounted(|deck|, t) && AllAllowed(|deck|, t, ops)
    ensures var t2 := Run(|deck|, t, ops); Sound(deck, t2) && Accounted(|deck|, t2)
    decreases |ops|
  {
    if ops != [] {
      hide Sound, Accounted, Step, Allowed;
      StepKeeps(deck, t, ops[0]);
      RunKeeps(deck, Step(|deck|, t, ops[0]), ops[1..]);
    }
  }

  lemma StepKeeps(deck: seq<int>, t: Table, op: Op)
    requires Sound(deck, t) && Accounted(|deck|, t) && Allowed(t.wall, op)
    ensures var t2 := Step(|deck|, t, op); Sound(deck, t2) && Accounted(|deck|, t2)
  {
    match op
    case FrontDraw(n) => FrontStep(deck, t, n);
    case TailDraw(n) => TailStep(deck, t, n);
    case BaoDraw(i) => BaoStep(deck, t, i);
  }

  function Start(deck: seq<int>): Table {
    Table(Stack(deck, {}), [], {})
  }

  /** Over every run of draws the game makes on a shuffle: the list stays a suffix of the shuffle,
      no tile is dealt twice, no tile put aside is ever dealt, the reserved indices stay within twelve
      or their own number, and `GetRemainCount` counts the tiles neither dealt nor put aside. */
  lemma DealtOnce(deck: seq<int>, ops: seq<Op>)
    requires |deck| >= TAIL && AllAllowed(|deck|, Start(deck), ops)
    ensures var t := Run(|deck|, Start(deck), ops); var w := t.wall;
            && |w.cards| <= |deck| && w.cards == deck[|deck| - |w.cards|..]
            && Distinct(t.dealt) && (forall p <- t.dealt :: 0 <= p < |deck| && p !in t.aside)
            && (forall r <- w.reserved :: 1 <= r <= Max(TAIL, |w.reserved|))
            && Remain(w) >= 0
            && Remain(w) == |Left(|deck|, t)|
  {
    var total, t := |deck|, Start(deck);
    assert deck == deck[0..];
    RunKeeps(deck, t, ops);
    var t2 := Run(total, t, ops);
    forall p <- t2.dealt ensures 0 <= p < total {
      assert Used(total, t2.wall, p);
    }
    forall p <- t2.aside ensures 0 <= p < total {
      assert Used(total, t2.wall, p);
    }
    LeftCount(total, t2);
  }

  /** Places of the tiles neither dealt nor put aside. */
  function Left(total: nat, t: Table): set<int> {
    set p | 0 <= p < total && p !in t.dealt && p !in t.aside
  }

  function Places(n: nat): (r: set<int>)
    ensures |r| == n && forall p :: p in r <==> 0 <= p < n
  {
    if n == 0 then {} else Places(n - 1) + {n - 1}
  }

  lemma LeftCount(total: nat, t: Table)
    requires Distinct(t.dealt) && forall p <- t.dealt :: 0 <= p < total && p !in t.aside
    requires forall p <- t.aside :: 0 <= p < total
    ensures |Left(total, t)| == total - |t.dealt| - |t.aside|
  {
    CountOfDistinct(t.dealt);
    var all, dealt := Places(total), Elements(t.dealt);
    assert all == Left(total, t) + (dealt + t.aside);
    assert Left(total, t) * (dealt + t.aside) == {} && dealt * t.aside == {};
  }

  /** `FaPai` does not look at the tail: it deals a tile that is already out exactly when an index
      beyond what the list will hold has been put aside. */
  lemma FrontDealsUsedTile(deck: seq<int>, t: Table, n: nat)
    requires Sound(deck, t) && Accounted(|deck|, t) && n <= |t.wall.cards|
    ensures (exists p <- FrontPlaces(|deck|, t.wall, n) :: p in t.dealt || p in t.aside)
            <==> exists r <- t.wall.reserved :: r > |t.wall.cards| - n
  {
    var total, w := |deck|, t.wall;
    var places := FrontPlaces(total, w, n);
    if p :| p in places && (p in t.dealt || p in t.aside) {
      assert Used(total, t.wall, p);
      assert total - p in w.reserved;
    }
    if r :| r in w.reserved && r > |w.cards| - n {
      assert Used(total, t.wall, total - r);
      assert places[|w.cards| - r] == total - r;
    }
  }

  /** A game ended at twelve remaining tiles, the bonus rolled twice: of the four tiles then shared out, the third
      is the bonus tile put aside. */
  lemma SharingDealsBonusTile(deck: seq<int>)
    requires |deck| >= 14
    ensures var ops := [BaoDraw(6), BaoDraw(6), FrontDraw(|deck| - 14)]; var t := Run(|deck|, Start(deck), ops);
            && AllAllowed(|deck|, Start(deck), ops) && Remain(t.wall) == 12 && !GoesOn(t.wall, 8) && |t.wall.cards| == 14
            && FrontPlaces(|deck|, t.wall, 4)[2] in t.aside
  {
    var t0 := Start(deck);
    var ops := [BaoDraw(6), BaoDraw(6), FrontDraw(|deck| - 14)];
    assert ops[1..] == [BaoDraw(6), FrontDraw(|deck| - 14)] && ops[1..][1..] == [FrontDraw(|deck| - 14)];
    assert ops[1..][1..][1..] == [];
    var t1 := Step(|deck|, t0, BaoDraw(6));
    var t2 := Step(|deck|, t1, BaoDraw(6));
    assert t1.wall.reserved == {6} && t2.wall.reserved == {6, 12} && |deck| - 12 in t2.aside;
    var t3 := Step(|deck|, t2, FrontDraw(|deck| - 14));
    assert Run(|deck|, t2, ops[1..][1..]) == t3;
    assert AllAllowed(|deck|, t2, ops[1..][1..]) && AllAllowed(|deck|, t1, ops[1..]);
  }

  /** One kong, and then the whole list dealt: the last tile goes out twice.  A game stops drawing before that. */
  lemma FrontDealsTailTile(deck: seq<int>)
    requires deck != []
    ensures var t := Run(|deck|, Start(deck), [TailDraw(1), FrontDraw(|deck|)]);
            |t.dealt| == |deck| + 1 && t.dealt[0] == t.dealt[|deck|] == |deck| - 1
  {
    var t := Start(deck);
    var ops := [TailDraw(1), FrontDraw(|deck|)];
    FreeOfEmpty(1, |deck|, 1);
    assert ops[1..] == [FrontDraw(|deck|)] && ops[1..][1..] == [];
    var t1 := Step(|deck|, t, TailDraw(1));
    assert t1.dealt == [|deck| - 1];
    var t2 := Step(|deck|, t1, FrontDraw(|deck|));
    assert Run(|deck|, t2, []) == t2;
    assert Run(|deck|, t1, [FrontDraw(|deck|)]) == t2 by {
      assert [FrontDraw(|deck|)][1..] == [];
    }
    assert Run(|deck|, t, ops) == Run(|deck|, t1, ops[1..]);
  }

  /** `GetBaoPai` moves a taken index once: it shows a tile that is still in the wall exactly when
      the roll or the place six further on is free. */
  lemma BaoShowsFreshTile(deck: seq<int>, t: Table, i: nat)
    requires Sound(deck, t) && Accounted(|deck|, t) && 1 <= i <= 6
    ensures |deck| - BaoIndex(t.wall, i) in Left(|deck|, t)
            <==> i !in t.wall.reserved || i + BAO_STEP !in t.wall.reserved
  {
    assert Used(|deck|, t.wall, |deck| - BaoIndex(t.wall, i)) <==> BaoIndex(t.wall, i) in t.wall.reserved;
  }

  /** Seven kongs and then a roll of 1: the bonus tile is one a player holds. */
  lemma BaoShowsDealtTile(deck: seq<int>)
    requires |deck| >= 20
    ensures var t := Run(|deck|, Start(deck), [TailDraw(7)]);
            AllAllowed(|deck|, Start(deck), [TailDraw(7), BaoDraw(1)]) &&
            |deck| - BaoIndex(t.wall, 1) in t.dealt
  {
    var t := Start(deck);
    var s := FreeIndices({}, 1, |deck|, 7);
    FreeOfEmpty(1, |deck|, 7);
    hide FreeIndices;
    assert s[0] == 1 && s[6] == 7;
    assert TailPlaces(|deck|, s)[6] == |deck| - 7;
    assert [TailDraw(7)][1..] == [] && [TailDraw(7), BaoDraw(1)][1..] == [BaoDraw(1)] && [BaoDraw(1)][1..] == [];
    assert Run(|deck|, t, [TailDraw(7)]) == Step(|deck|, t, TailDraw(7));
  }

  lemma {:induction false} FreeOfEmpty(i: nat, size: nat, want: nat)
    requires i + want <= size + 1
    ensures FreeIndices({}, i, size, want) == seq(want, k requires 0 <= k < want => i + k)
    decreases want
  {
    if want > 0 {
      FreeOfEmpty(i + 1, size, want - 1);
    }
  }

  /** The exhausted-wall test: `CheckLiuJu` ends the game at `liuJuCount + 4` tiles or fewer. */
  predicate GoesOn(w: Stack, liuJuCount: nat) {
    Remain(w) > liuJuCount + 4
  }

  /** Drawing one tile only while the game goes on is safe when at least eight tiles end it. */
  predicate Guarded(total: nat, t: Table, ops: seq<Op>, liuJuCount: nat)
    decreases |ops|
  {
    ops != [] ==>
      && (match ops[0]
          case FrontDraw(n) => n == 1 && GoesOn(t.wall, liuJuCount)
          case TailDraw(n) => true
          case BaoDraw(i) => 1 <= i <= 6)
      && Guarded(total, Step(total, t, ops[0]), ops[1..], liuJuCount)
  }

  lemma {:induction false} GuardedIsAllowed(total: nat, t: Table, ops: seq<Op>, liuJuCount: nat)
    requires liuJuCount >= 8 && Guarded(total, t, ops, liuJuCount)
    ensures AllAllowed(total, t, ops)
    decreases |ops|
  {
    if ops != [] {
      GuardedIsAllowed(total, Step(total, t, ops[0]), ops[1..], liuJuCount);
    }
  }

  // --------------------------------------------------------------- the loop of TailPai

  /** After the first `i` tail indices: those taken, their tiles, and what is put aside. */
  ghost predicate Taking(w: Stack, n: nat, i: nat, taken: seq<nat>, dealt: seq<int>, reserved: set<nat>) {
    var want := if n == 0 then 1 else n;
    && |taken| < want && reserved == w.reserved + Elements(taken) && TilesAt(w, i, taken, dealt)
    && taken + FreeIndices(w.reserved, i + 1, |w.cards|, want - |taken|) == TailIndices(w, n)
  }

  /** `dealt` is what lies at the tail indices `taken`, none beyond `i`. */
  ghost predicate TilesAt(w: Stack, i: nat, taken: seq<nat>, dealt: seq<int>) {
    |dealt| == |taken| && i <= |w.cards| &&
    forall k :: 0 <= k < |taken| ==> 1 <= taken[k] <= i && dealt[k] == w.cards[|w.cards| - taken[k]]
  }

  /** `TailPai` is done: the tiles of the smallest free indices are dealt, and these are put aside. */
  ghost predicate TookTail(w: Stack, n: nat, dealt: seq<int>, reserved: set<nat>) {
    var s := TailIndices(w, n);
    reserved == w.reserved + Elements(s) && TilesAt(w, |w.cards|, s, dealt)
  }

  lemma TakingStart(w: Stack, n: nat)
    ensures Taking(w, n, 0, [], [], w.reserved)
  {
    assert [] + TailIndices(w, n) == TailIndices(w, n);
    assert w.reserved + Elements<nat>([]) == w.reserved;
  }

  lemma TakingStep(w: Stack, n: nat, i: nat, taken: seq<nat>, dealt: seq<int>, reserved: set<nat>)
    requires i < |w.cards| && Taking(w, n, i, taken, dealt, reserved)
    ensures i + 1 in reserved ==> Taking(w, n, i + 1, taken, dealt, reserved)
    ensures i + 1 !in reserved ==>
              var taken2: seq<nat>, dealt2 := taken + [i + 1], dealt + [w.cards[|w.cards| - 1 - i]];
              if |dealt2| >= n then TookTail(w, n, dealt2, reserved + {i + 1})
              else Taking(w, n, i + 1, taken2, dealt2, reserved + {i + 1})
  {
    var want := if n == 0 then 1 else n;
    if i + 1 in reserved {
      assert forall k :: 0 <= k < |taken| ==> taken[k] != i + 1;
    } else {
      var taken2: seq<nat> := taken + [i + 1];
      var rest := FreeIndices(w.reserved, i + 2, |w.cards|, want - |taken2|);
      assert taken + ([i + 1] + rest) == taken2 + rest;
      assert Elements(taken2) == Elements(taken) + {i + 1};
      assert |taken2| == want ==> taken2 + rest == taken2;
    }
  }

  lemma TakingEnd(w: Stack, n: nat, taken: seq<nat>, dealt: seq<int>, reserved: set<nat>)
    requires Taking(w, n, |w.cards|, taken, dealt, reserved)
    ensures TookTail(w, n, dealt, reserved)
  {
    assert taken + [] == taken;
    assert taken == TailIndices(w, n);
  }

  // ------------------------------------------------------------------------- the game

  class Game {
    var cards: seq<int>
    var randomResultList: set<nat>

    function Wall(): Stack
      reads this
    {
      Stack(cards, randomResultList)
    }

    constructor (shuffle: seq<int>)
      ensures Wall() == Start(shuffle).wall
    {
      cards, randomResultList := shuffle, {};
    }

    method FaPai(cardCount: nat) returns (dealt: seq<int>)
      modifies this`cards
      ensures Wall() == Front(old(Wall()), cardCount)
      ensures dealt == if |old(cards)| < cardCount then [] else old(cards)[..cardCount]
      ensures dealt + cards == old(cards)
    {
      dealt := [];
      if |cards| < cardCount {
        return;
      }
      for i := 0 to cardCount
        invariant dealt == old(cards)[..i] && cards == old(cards)[i..]
      {
        var value := cards[0];
        dealt := dealt + [value];
        cards := cards[1..];
      }
    }

    method TailPai(cardCount: nat) returns (dealt: seq<int>)
      modifies this`randomResultList
      ensures TookTail(old(Wall()), cardCount, dealt, randomResultList)
    {
      dealt := [];
      hide FreeIndices, Elements, TailIndices, Taking, TilesAt;
      ghost var w, taken: seq<nat> := Wall(), [];
      TakingStart(w, cardCount);
      var i: nat := 0;
      while i < |cards|
        invariant i <= |cards| && cards == w.cards
        invariant Taking(w, cardCount, i, taken, dealt, randomResultList)
      {
        TakingStep(w, cardCount, i, taken, dealt, randomResultList);
        if i + 1 !in randomResultList {
          randomResultList := randomResultList + {i + 1};
          dealt := dealt + [cards[|cards| - 1 - i]];
          taken := taken + [i + 1];
          if |dealt| >= cardCount {
            return;
          }
        }
        i := i + 1;
      }
      TakingEnd(w, cardCount, taken, dealt, randomResultList);
    }

    method GetBaoPai(tailIndex: nat) returns (bao: int)
      requires 1 <= tailIndex && BaoIndex(Wall(), tailIndex) <= |cards|
      modifies this`randomResultList
      ensures Wall() == Bao(old(Wall()), tailIndex)
      ensures bao == cards[|cards| - BaoIndex(old(Wall()), tailIndex)]
      ensures tailIndex !in old(randomResultList) ==>
                bao == cards[|cards| - tailIndex] && randomResultList == old(randomResultList) + {tailIndex}
      ensures tailIndex in old(randomResultList) ==>
                bao == cards[|cards| - tailIndex - 6] && randomResultList == old(randomResultList) + {tailIndex + 6}
    {
      var index := tailIndex;
      if index in randomResultList {
        index := index + BAO_STEP;
      }
      randomResultList := randomResultList + {index};
      bao := cards[|cards| - index];
    }

    method GetRemainCount() returns (count: int)
      ensures count == Remain(Wall()) == |cards| - |randomResultList|
    {
      count := |cards| - |randomResultList|;
    }
  }

  /** The tiles the draws return are those at the places the run records. */
  lemma DealtTiles(deck: seq<int>, w: Stack, n: nat)
    requires |w.cards| <= |deck| && w.cards == deck[|deck| - |w.cards|..]
    ensures n <= |w.cards| ==> forall k :: 0 <= k < n ==>
              w.cards[..n][k] == deck[FrontPlaces(|deck|, w, n)[k]]
    ensures var s := TailIndices(w, n); forall k :: 0 <= k < |s| ==>
              1 <= s[k] <= |w.cards| && w.cards[|w.cards| - s[k]] == deck[TailPlaces(|deck|, s)[k]]
  {
    SmallestFree(w.reserved, 1, |w.cards|, if n == 0 then 1 else n);
    var s := TailIndices(w, n);
    forall k | 0 <= k < |s| ensures 1 <= s[k] <= |w.cards| {
      assert s[k] in s;
    }
  }
}
