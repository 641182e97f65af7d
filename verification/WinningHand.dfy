/** The winning-hand search of GameServer/Player.cpp.

    A hand wins when it splits into triplets, same-suit runs and one pair.  The
    search tries the first tile as a pair, a triplet and the start of a run; it
    shortens its vector in place and leaves what it found in `huResult`,
    `shunzis` and `zhang`, which scoring reads afterwards. */
module WinningHand {
  import opened Tiles
  import opened Hands

  datatype Meld = Triplet(tile: Card) | Run(first: Card) {
    predicate Ok() {
      Run? ==> first.value <= 7 && !IsHonor(first.kind)
    }

    function Cards(): multiset<Card> {
      match this
      case Triplet(c) => multiset{}[c := 3]
      case Run(c) => multiset{}[c := 1][c.Plus(1) := 1][c.Plus(2) := 1]
    }
  }

  datatype Partition = Partition(pair: Option<Card>, melds: seq<Meld>)

  /** All tiles of a list of melds. */
  function MeldCards(melds: seq<Meld>): multiset<Card> {
    if melds == [] then multiset{} else melds[0].Cards() + MeldCards(melds[1..])
  }

  function PairCards(pair: Option<Card>): multiset<Card> {
    match pair
    case None => multiset{}
    case Some(c) => multiset{}[c := 2]
  }

  /** `p` is a way to split `hand` into melds, plus one pair unless a pair was already used. */
  ghost predicate Splits(hand: multiset<Card>, usePair: bool, p: Partition) {
    && p.pair.None? == usePair
    && (forall m :: m in p.melds ==> m.Ok())
    && PairCards(p.pair) + MeldCards(p.melds) == hand
  }

  ghost predicate CanSplit(hand: multiset<Card>, usePair: bool) {
    exists p :: Splits(hand, usePair, p)
  }

  /** Meld `m` occurs in some split of the hand. */
  ghost predicate CanUse(hand: multiset<Card>, usePair: bool, m: Meld) {
    exists p :: Splits(hand, usePair, p) && m in p.melds
  }

  /** `c` is the pair of some split of the hand. */
  ghost predicate CanPair(hand: multiset<Card>, c: Card) {
    exists p :: Splits(hand, false, p) && p.pair == Some(c)
  }

  ghost predicate CanUseRun(hand: multiset<Card>, usePair: bool) {
    exists c :: CanUse(hand, usePair, Run(c))
  }

  ghost predicate CanUseTriplet(hand: multiset<Card>, usePair: bool) {
    exists c :: CanUse(hand, usePair, Triplet(c))
  }

  // ---------------------------------------------------------------- meld lists

  lemma {:induction false} TakeOutMeld(melds: seq<Meld>, i: nat)
    requires i < |melds|
    ensures MeldCards(melds) == melds[i].Cards() + MeldCards(melds[..i] + melds[i + 1..])
  {
    hide Meld.Cards;
    var rest := melds[..i] + melds[i + 1..];
    if i == 0 {
      assert rest == melds[1..];
    } else {
      TakeOutMeld(melds[1..], i - 1);
      assert rest[0] == melds[0];
      assert rest[1..] == melds[1..][..i - 1] + melds[1..][i..];
    }
  }

  lemma {:induction false} MeldOfTile(melds: seq<Meld>, c: Card) returns (i: nat)
    requires c in MeldCards(melds)
    ensures i < |melds| && c in melds[i].Cards()
  {
    hide Meld.Cards;
    if c in melds[0].Cards() {
      i := 0;
    } else {
      i := MeldOfTile(melds[1..], c);
      i := i + 1;
    }
  }

  // --------------------------------------------------------- a split, counted face by face

  /** A split told by the copies of each face alone: the pair, the triplets by their tile, the runs by their
      first tile.  A run is of a suit and starts at 7 or below. */
  ghost predicate ByCounts(hand: multiset<Card>, usePair: bool, pair: Option<Card>, trips: multiset<Card>, runs: multiset<Card>) {
    && (pair.None? <==> usePair)
    && (forall c :: c in runs ==> c.kind != CARD_TYPE_FENG && c.kind != CARD_TYPE_JIAN && c.value <= 7)
    && (forall c: Card {:trigger hand[c]} :: hand[c] == (if pair == Some(c) then 2 else 0) + 3 * trips[c]
                                     + runs[c] + runs[Card(c.kind, c.value - 1)] + runs[Card(c.kind, c.value - 2)])
  }

  function TripsOf(melds: seq<Meld>): multiset<Card> {
    if melds == [] then multiset{}
    else (match melds[0] case Triplet(c) => multiset{c} case Run(_) => multiset{}) + TripsOf(melds[1..])
  }

  function RunsOf(melds: seq<Meld>): multiset<Card> {
    if melds == [] then multiset{}
    else (match melds[0] case Triplet(_) => multiset{} case Run(c) => multiset{c}) + RunsOf(melds[1..])
  }

  lemma OneMeld(m: Meld, c: Card)
    ensures m.Cards()[c] == if m.Triplet? then (if m.tile == c then 3 else 0)
                            else (if m.first == c then 1 else 0) + (if m.first == Card(c.kind, c.value - 1) then 1 else 0)
                                 + (if m.first == Card(c.kind, c.value - 2) then 1 else 0)
  {
  }

  lemma {:induction false} MeldCounts(melds: seq<Meld>, c: Card)
    ensures MeldCards(melds)[c] == 3 * TripsOf(melds)[c]
              + RunsOf(melds)[c] + RunsOf(melds)[Card(c.kind, c.value - 1)] + RunsOf(melds)[Card(c.kind, c.value - 2)]
  {
    hide Meld.Cards;
    if melds != [] {
      OneMeld(melds[0], c);
      MeldCounts(melds[1..], c);
    }
  }

  lemma {:induction false} RunsAreMelds(melds: seq<Meld>, c: Card)
    ensures c in RunsOf(melds) <==> Run(c) in melds
    ensures c in TripsOf(melds) <==> Triplet(c) in melds
  {
    if melds != [] {
      assert melds == [melds[0]] + melds[1..];
      RunsAreMelds(melds[1..], c);
    }
  }

  /** Melds with these triplets and runs. */
  lemma {:induction false} MeldsOf(trips: multiset<Card>, runs: multiset<Card>) returns (melds: seq<Meld>)
    ensures TripsOf(melds) == trips && RunsOf(melds) == runs
    decreases |trips| + |runs|
  {
    if c :| c in trips {
      var rest := MeldsOf(trips - multiset{c}, runs);
      melds := [Triplet(c)] + rest;
      assert melds[1..] == rest;
      assert multiset{c} + (trips - multiset{c}) == trips;
    } else if c :| c in runs {
      var rest := MeldsOf(trips, runs - multiset{c});
      melds := [Run(c)] + rest;
      assert melds[1..] == rest;
      assert multiset{c} + (runs - multiset{c}) == runs;
    } else {
      melds := [];
    }
  }

  /** A hand splits exactly when its faces can be counted out so. */
  lemma SplitByCounts(hand: multiset<Card>, usePair: bool)
    ensures CanSplit(hand, usePair) <==> exists pair, trips, runs :: ByCounts(hand, usePair, pair, trips, runs)
  {
    hide Splits, ByCounts;
    if p :| Splits(hand, usePair, p) {
      CountsOfSplit(hand, usePair, p);
    }
    if pair, trips, runs :| ByCounts(hand, usePair, pair, trips, runs) {
      SplitOfCounts(hand, usePair, pair, trips, runs);
    }
  }

  /** The copies of a face in a split. */
  lemma SplitCount(pair: Option<Card>, melds: seq<Meld>, c: Card)
    ensures (PairCards(pair) + MeldCards(melds))[c] == (if pair == Some(c) then 2 else 0) + 3 * TripsOf(melds)[c]
              + RunsOf(melds)[c] + RunsOf(melds)[Card(c.kind, c.value - 1)] + RunsOf(melds)[Card(c.kind, c.value - 2)]
  {
    hide TripsOf, RunsOf, MeldCards;
    MeldCounts(melds, c);
  }

  lemma SplitOfCounts(hand: multiset<Card>, usePair: bool, pair: Option<Card>, trips: multiset<Card>, runs: multiset<Card>)
    requires ByCounts(hand, usePair, pair, trips, runs)
    ensures CanSplit(hand, usePair)
  {
    hide TripsOf, RunsOf, MeldCards, PairCards;
    var melds := MeldsOf(trips, runs);
    forall m | m in melds ensures m.Ok() {
      if m.Run? {
        RunsAreMelds(melds, m.first);
      }
    }
    forall c: Card ensures (PairCards(pair) + MeldCards(melds))[c] == hand[c] {
      SplitCount(pair, melds, c);
    }
    assert PairCards(pair) + MeldCards(melds) == hand;
    assert Splits(hand, usePair, Partition(pair, melds));
  }

  lemma CountsOfSplit(hand: multiset<Card>, usePair: bool, p: Partition)
    requires Splits(hand, usePair, p)
    ensures ByCounts(hand, usePair, p.pair, TripsOf(p.melds), RunsOf(p.melds))
  {
    hide TripsOf, RunsOf, MeldCards, PairCards;
    forall c | c in RunsOf(p.melds) ensures c.kind != CARD_TYPE_FENG && c.kind != CARD_TYPE_JIAN && c.value <= 7 {
      RunsAreMelds(p.melds, c);
      assert Run(c).Ok();
    }
    forall c: Card {:trigger hand[c]}
      ensures hand[c] == (if p.pair == Some(c) then 2 else 0) + 3 * TripsOf(p.melds)[c] + RunsOf(p.melds)[c]
                         + RunsOf(p.melds)[Card(c.kind, c.value - 1)] + RunsOf(p.melds)[Card(c.kind, c.value - 2)]
    {
      SplitCount(p.pair, p.melds, c);
    }
  }

  /** A run of some split is three neighbours of one suit, all in the hand. */
  lemma RunIsOfSuit(hand: multiset<Card>, usePair: bool, c: Card)
    ensures CanUse(hand, usePair, Run(c)) ==>
              && c.kind != CARD_TYPE_FENG && c.kind != CARD_TYPE_JIAN && c.value <= 7
              && c in hand && Card(c.kind, c.value + 1) in hand && Card(c.kind, c.value + 2) in hand
  {
    hide Splits, TripsOf, RunsOf;
    if p :| Splits(hand, usePair, p) && Run(c) in p.melds {
      CountsOfSplit(hand, usePair, p);
      RunsAreMelds(p.melds, c);
      RunCounted(hand, usePair, p.pair, TripsOf(p.melds), RunsOf(p.melds), c);
    }
  }

  lemma RunCounted(hand: multiset<Card>, usePair: bool, pair: Option<Card>, trips: multiset<Card>, runs: multiset<Card>, c: Card)
    requires ByCounts(hand, usePair, pair, trips, runs) && c in runs
    ensures c.kind != CARD_TYPE_FENG && c.kind != CARD_TYPE_JIAN && c.value <= 7
    ensures c in hand && Card(c.kind, c.value + 1) in hand && Card(c.kind, c.value + 2) in hand
  {
    var second, third := Card(c.kind, c.value + 1), Card(c.kind, c.value + 2);
    assert c == Card(second.kind, second.value - 1) && c == Card(third.kind, third.value - 2);
    assert hand[c] >= 1 && hand[second] >= 1 && hand[third] >= 1;
  }

  /** Winds and dragons make pairs and triplets only: in a hand that splits each is held a multiple of three
      times, but for one that is the pair. */
  lemma HonorsInThrees(hand: multiset<Card>, usePair: bool, c: Card, d: Card)
    requires CanSplit(hand, usePair)
    requires (c.kind == CARD_TYPE_FENG || c.kind == CARD_TYPE_JIAN) && (d.kind == CARD_TYPE_FENG || d.kind == CARD_TYPE_JIAN)
    ensures hand[c] % 3 == 0 || (!usePair && hand[c] % 3 == 2)
    ensures hand[c] % 3 == 2 && hand[d] % 3 == 2 ==> c == d
  {
    hide *;
    SplitByCounts(hand, usePair);
    var pair, trips, runs :| ByCounts(hand, usePair, pair, trips, runs);
    HonorCount(hand, usePair, pair, trips, runs, c);
    HonorCount(hand, usePair, pair, trips, runs, d);
  }

  lemma HonorCount(hand: multiset<Card>, usePair: bool, pair: Option<Card>, trips: multiset<Card>, runs: multiset<Card>, c: Card)
    requires ByCounts(hand, usePair, pair, trips, runs) && (c.kind == CARD_TYPE_FENG || c.kind == CARD_TYPE_JIAN)
    ensures usePair ==> pair == None
    ensures hand[c] == (if pair == Some(c) then 2 else 0) + 3 * trips[c]
  {
    var b, a := Card(c.kind, c.value - 1), Card(c.kind, c.value - 2);
    assert c !in runs && b !in runs && a !in runs;
  }

  lemma HonorsOfWin(hand: multiset<Card>)
    ensures CanSplit(hand, false) ==>
              forall c: Card :: c.kind == CARD_TYPE_FENG || c.kind == CARD_TYPE_JIAN ==> hand[c] % 3 != 1
  {
    if CanSplit(hand, false) {
      forall c: Card | c.kind == CARD_TYPE_FENG || c.kind == CARD_TYPE_JIAN ensures hand[c] % 3 != 1 {
        HonorsInThrees(hand, false, c, c);
      }
    }
  }

  /** The smallest winning shapes: a pair, and a triplet of any face or a run of a suit. */
  lemma SmallestWins(d: Card, c: Card)
    ensures CanSplit(multiset{d, d, c, c, c}, false)
    ensures CARD_TYPE_WANZI <= c.kind <= CARD_TYPE_TIAOZI && c.value <= 7 ==>
              CanSplit(multiset{d, d, c, Card(c.kind, c.value + 1), Card(c.kind, c.value + 2)}, false)
  {
    hide *;
    TripletWins3(d, c);
    if CARD_TYPE_WANZI <= c.kind <= CARD_TYPE_TIAOZI && c.value <= 7 {
      RunWins3(d, c);
    }
  }

  lemma TripletWins3(d: Card, c: Card)
    ensures CanSplit(multiset{d, d, c, c, c}, false)
  {
    hide CanSplit;
    var hand := multiset{d, d, c, c, c};
    assert ByCounts(hand, false, Some(d), multiset{c}, multiset{});
    SplitOfCounts(hand, false, Some(d), multiset{c}, multiset{});
  }

  lemma RunWins3(d: Card, c: Card)
    requires CARD_TYPE_WANZI <= c.kind <= CARD_TYPE_TIAOZI && c.value <= 7
    ensures CanSplit(multiset{d, d, c, Card(c.kind, c.value + 1), Card(c.kind, c.value + 2)}, false)
  {
    hide CanSplit;
    var hand := multiset{d, d, c, Card(c.kind, c.value + 1), Card(c.kind, c.value + 2)};
    assert ByCounts(hand, false, Some(d), multiset{}, multiset{c});
    SplitOfCounts(hand, false, Some(d), multiset{}, multiset{c});
  }

  /** Every run recorded is three neighbours of a suit. */
  ghost predicate OfSuits(runs: seq<ShunZi>) {
    forall s :: s in runs ==>
      && s.first.kind != CARD_TYPE_FENG && s.first.kind != CARD_TYPE_JIAN && s.first.value <= 7
      && s.second == Card(s.first.kind, s.first.value + 1) && s.third == Card(s.first.kind, s.first.value + 2)
  }

  lemma RecordsOfSuits(hand: multiset<Card>, usePair: bool, log: Log)
    requires Records(hand, usePair, log)
    ensures OfSuits(log.runs)
  {
    forall s | s in log.runs
      ensures s.first.kind != CARD_TYPE_FENG && s.first.kind != CARD_TYPE_JIAN && s.first.value <= 7
      ensures s.second == Card(s.first.kind, s.first.value + 1) && s.third == Card(s.first.kind, s.first.value + 2)
    {
      assert s == RunOf(s.first);
      RunIsOfSuit(hand, usePair, s.first);
    }
  }

  // ------------------------------------------------- the first tile's component

  /** What is left when the smallest tile is used as a pair, a triplet or the start of a run. */
  datatype Head = AsPair | AsMeld(m: Meld)

  predicate HeadFits(hand: multiset<Card>, usePair: bool, c: Card, h: Head) {
    match h
    case AsPair => !usePair && hand[c] >= 2
    case AsMeld(m) => (m == Triplet(c) || m == Run(c)) && m.Ok() && m.Cards() <= hand
  }

  function HeadCards(c: Card, h: Head): multiset<Card> {
    match h
    case AsPair => multiset{}[c := 2]
    case AsMeld(m) => m.Cards()
  }

  /** A meld that holds the smallest tile is a triplet of it or a run from it. */
  lemma SmallestInMeld(m: Meld, hand: multiset<Card>, c: Card)
    requires m.Ok() && m.Cards() <= hand && c in m.Cards()
    requires forall d :: d in hand ==> Leq(c, d)
    ensures m == Triplet(c) || m == Run(c)
  {
    if m.Run? {
      assert m.first in m.Cards();
      assert Leq(c, m.first);
    }
  }

  /** Every split of a hand uses its smallest tile in one of the three ways. */
  lemma Peel(hand: multiset<Card>, usePair: bool, c: Card, p: Partition) returns (h: Head, q: Partition)
    requires Splits(hand, usePair, p)
    requires c in hand && forall d :: d in hand ==> Leq(c, d)
    ensures HeadFits(hand, usePair, c, h)
    ensures Splits(hand - HeadCards(c, h), usePair || h.AsPair?, q)
    ensures match h
            case AsPair => p.pair == Some(c) && q.melds == p.melds
            case AsMeld(m) => q.pair == p.pair && forall n :: n in p.melds <==> n == m || n in q.melds
  {
    if p.pair == Some(c) {
      h, q := AsPair, Partition(None, p.melds);
    } else {
      var i := MeldOfTile(p.melds, c);
      h, q := PeelMeld(hand, usePair, c, p, i);
    }
  }

  lemma PeelMeld(hand: multiset<Card>, usePair: bool, c: Card, p: Partition, i: nat) returns (h: Head, q: Partition)
    requires Splits(hand, usePair, p)
    requires i < |p.melds| && c in p.melds[i].Cards() && forall d :: d in hand ==> Leq(c, d)
    ensures h == AsMeld(p.melds[i]) && HeadFits(hand, usePair, c, h)
    ensures Splits(hand - p.melds[i].Cards(), usePair, q)
    ensures q.pair == p.pair && forall n :: n in p.melds <==> n == p.melds[i] || n in q.melds
  {
    var m := p.melds[i];
    var rest := p.melds[..i] + p.melds[i + 1..];
    assert p.melds == p.melds[..i] + [m] + p.melds[i + 1..];
    h, q := AsMeld(m), Partition(p.pair, rest);
    TakeOutMeld(p.melds, i);
    assert m in p.melds;
    SmallestInMeld(m, hand, c);
  }

  /** The converse: a split of what is left extends to one of the whole hand. */
  lemma Extend(hand: multiset<Card>, usePair: bool, c: Card, h: Head, q: Partition) returns (p: Partition)
    requires HeadFits(hand, usePair, c, h)
    requires Splits(hand - HeadCards(c, h), usePair || h.AsPair?, q)
    ensures Splits(hand, usePair, p)
    ensures match h
            case AsPair => p.pair == Some(c) && p.melds == q.melds
            case AsMeld(m) => p.pair == q.pair && p.melds == [m] + q.melds
  {
    match h
    case AsPair =>
      p := Partition(Some(c), q.melds);
    case AsMeld(m) =>
      p := Partition(q.pair, [m] + q.melds);
      assert MeldCards(p.melds) == m.Cards() + MeldCards(q.melds);
  }

  ghost predicate HeadWins(hand: multiset<Card>, usePair: bool, c: Card, h: Head) {
    HeadFits(hand, usePair, c, h) && CanSplit(hand - HeadCards(c, h), usePair || h.AsPair?)
  }

  /** A meld is usable through head `h`: it is that head, or usable in what is left. */
  ghost predicate HeadUses(hand: multiset<Card>, usePair: bool, c: Card, h: Head, m: Meld) {
    && HeadWins(hand, usePair, c, h)
    && (h == AsMeld(m) || CanUse(hand - HeadCards(c, h), usePair || h.AsPair?, m))
  }

  lemma HeadOfSplit(hand: multiset<Card>, usePair: bool, c: Card, p: Partition) returns (h: Head)
    requires c in hand && forall d :: d in hand ==> Leq(c, d)
    requires Splits(hand, usePair, p)
    ensures h in [AsPair, AsMeld(Triplet(c)), AsMeld(Run(c))]
    ensures HeadWins(hand, usePair, c, h)
    ensures forall m :: m in p.melds ==> HeadUses(hand, usePair, c, h, m)
    ensures h.AsPair? ==> p.pair == Some(c)
    ensures !h.AsPair? && p.pair.Some? ==> CanPair(hand - HeadCards(c, h), p.pair.value)
  {
    hide HeadFits, HeadCards, MeldCards, Meld.Cards, PairCards;
    var q;
    h, q := Peel(hand, usePair, c, p);
  }

  lemma SplitOfHead(hand: multiset<Card>, usePair: bool, c: Card, h: Head)
    requires HeadWins(hand, usePair, c, h)
    ensures CanSplit(hand, usePair)
    ensures h.AsPair? ==> CanPair(hand, c)
    ensures !h.AsPair? && !usePair ==>
              forall d :: CanPair(hand - HeadCards(c, h), d) ==> CanPair(hand, d)
  {
    var q :| Splits(hand - HeadCards(c, h), usePair || h.AsPair?, q);
    var p := Extend(hand, usePair, c, h, q);
    if !h.AsPair? && !usePair {
      forall d | CanPair(hand - HeadCards(c, h), d) ensures CanPair(hand, d) {
        var q1 :| Splits(hand - HeadCards(c, h), false, q1) && q1.pair == Some(d);
        var p1 := Extend(hand, usePair, c, h, q1);
      }
    }
  }

  // ---------------------------------------------------------- the side records

  /** One entry of `_hu_result`: which of the three uses of the first tile won. */
  datatype Branches = Branches(pair: bool, trips: bool, straight: bool)

  datatype ShunZi = ShunZi(first: Card, second: Card, third: Card)

  function RunOf(c: Card): ShunZi {
    ShunZi(c, c.Plus(1), c.Plus(2))
  }

  /** What a search appends to the two record lists. */
  datatype Log = Log(hu: seq<Branches>, runs: seq<ShunZi>)

  ghost predicate FlagsTrips(log: Log) {
    exists e :: e in log.hu && e.trips
  }

  ghost predicate FlagsStraight(log: Log) {
    exists e :: e in log.hu && e.straight
  }

  /** What the records of a finished search say: a run is listed exactly when some split
      uses it, and a triplet (a run) is flagged exactly when some split has one. */
  ghost predicate Records(hand: multiset<Card>, usePair: bool, log: Log) {
    && (forall c :: RunOf(c) in log.runs <==> CanUse(hand, usePair, Run(c)))
    && (forall s :: s in log.runs ==> s == RunOf(s.first))
    && (FlagsTrips(log) <==> CanUseTriplet(hand, usePair))
    && (FlagsStraight(log) <==> CanUseRun(hand, usePair))
  }

  /** The same for one branch of the search; a branch that is not entered records nothing. */
  ghost predicate BranchRecords(hand: multiset<Card>, usePair: bool, c: Card, h: Head, log: Log) {
    if HeadFits(hand, usePair, c, h)
    then Records(hand - HeadCards(c, h), usePair || h.AsPair?, log)
    else log == Log([], [])
  }

  /** `m` is found below head `h`, not as the head itself. */
  ghost predicate Below(hand: multiset<Card>, usePair: bool, c: Card, h: Head, m: Meld) {
    HeadFits(hand, usePair, c, h) && CanUse(hand - HeadCards(c, h), usePair || h.AsPair?, m)
  }

  lemma BranchFacts(hand: multiset<Card>, usePair: bool, c: Card, h: Head, log: Log)
    requires BranchRecords(hand, usePair, c, h, log)
    ensures forall d :: RunOf(d) in log.runs <==> Below(hand, usePair, c, h, Run(d))
    ensures forall s :: s in log.runs ==> s == RunOf(s.first)
    ensures FlagsTrips(log) <==> exists d :: Below(hand, usePair, c, h, Triplet(d))
    ensures FlagsStraight(log) <==> exists d :: Below(hand, usePair, c, h, Run(d))
  {
  }

  predicate Smallest(hand: multiset<Card>, c: Card) {
    c in hand && forall d :: d in hand ==> Leq(c, d)
  }

  /** The search equation: trying the smallest tile in three ways loses no split ... */
  lemma SearchStep(hand: multiset<Card>, usePair: bool, c: Card)
    requires Smallest(hand, c)
    ensures CanSplit(hand, usePair) <==>
            || HeadWins(hand, usePair, c, AsPair)
            || HeadWins(hand, usePair, c, AsMeld(Triplet(c)))
            || HeadWins(hand, usePair, c, AsMeld(Run(c)))
  {
    hide HeadFits, HeadCards, HeadWins, HeadUses;
    if CanSplit(hand, usePair) {
      var p :| Splits(hand, usePair, p);
      var h := HeadOfSplit(hand, usePair, c, p);
    }
    if HeadWins(hand, usePair, c, AsPair) {
      SplitOfHead(hand, usePair, c, AsPair);
    }
    if HeadWins(hand, usePair, c, AsMeld(Triplet(c))) {
      SplitOfHead(hand, usePair, c, AsMeld(Triplet(c)));
    }
    if HeadWins(hand, usePair, c, AsMeld(Run(c))) {
      SplitOfHead(hand, usePair, c, AsMeld(Run(c)));
    }
  }

  /** ... and no meld of any split: it is the head of a winning branch, or found below one. */
  lemma UseStep(hand: multiset<Card>, usePair: bool, c: Card, m: Meld)
    requires Smallest(hand, c)
    ensures CanUse(hand, usePair, m) <==>
            || Below(hand, usePair, c, AsPair, m)
            || Below(hand, usePair, c, AsMeld(Triplet(c)), m)
            || Below(hand, usePair, c, AsMeld(Run(c)), m)
            || ((m == Triplet(c) || m == Run(c)) && HeadWins(hand, usePair, c, AsMeld(m)))
  {
    if CanUse(hand, usePair, m) {
      var p :| Splits(hand, usePair, p) && m in p.melds;
      var h := HeadOfSplit(hand, usePair, c, p);
      assert HeadUses(hand, usePair, c, h, m);
    }
    UseBelow(hand, usePair, c, AsPair, m);
    UseBelow(hand, usePair, c, AsMeld(Triplet(c)), m);
    UseBelow(hand, usePair, c, AsMeld(Run(c)), m);
    if HeadWins(hand, usePair, c, AsMeld(m)) {
      UseOfHead(hand, usePair, c, m);
    }
  }

  lemma UseBelow(hand: multiset<Card>, usePair: bool, c: Card, h: Head, m: Meld)
    ensures Below(hand, usePair, c, h, m) ==> CanUse(hand, usePair, m)
  {
    if Below(hand, usePair, c, h, m) {
      var q :| Splits(hand - HeadCards(c, h), usePair || h.AsPair?, q) && m in q.melds;
      var p := Extend(hand, usePair, c, h, q);
    }
  }

  lemma UseOfHead(hand: multiset<Card>, usePair: bool, c: Card, m: Meld)
    requires HeadWins(hand, usePair, c, AsMeld(m))
    ensures CanUse(hand, usePair, m)
  {
    var q :| Splits(hand - m.Cards(), usePair, q);
    var p := Extend(hand, usePair, c, AsMeld(m), q);
  }

  /** Joining the records of the three branches gives the records of the whole search. */
  lemma RecordsStep(hand: multiset<Card>, usePair: bool, c: Card, l1: Log, l2: Log, l3: Log, e: Branches)
    requires Smallest(hand, c)
    requires BranchRecords(hand, usePair, c, AsPair, l1)
    requires BranchRecords(hand, usePair, c, AsMeld(Triplet(c)), l2)
    requires BranchRecords(hand, usePair, c, AsMeld(Run(c)), l3)
    requires e.trips == HeadWins(hand, usePair, c, AsMeld(Triplet(c)))
    requires e.straight == HeadWins(hand, usePair, c, AsMeld(Run(c)))
    ensures Records(hand, usePair, Joined(l1, l2, l3, e, c))
  {
    hide HeadFits, HeadWins, BranchRecords, CanUse, Smallest, Below;
    BranchFacts(hand, usePair, c, AsPair, l1);
    BranchFacts(hand, usePair, c, AsMeld(Triplet(c)), l2);
    BranchFacts(hand, usePair, c, AsMeld(Run(c)), l3);
    JoinedFlags(l1, l2, l3, e, c);
    forall d
      ensures RunOf(d) in Joined(l1, l2, l3, e, c).runs <==> CanUse(hand, usePair, Run(d))
      ensures CanUse(hand, usePair, Triplet(d)) <==>
            || Below(hand, usePair, c, AsPair, Triplet(d))
            || Below(hand, usePair, c, AsMeld(Triplet(c)), Triplet(d))
            || Below(hand, usePair, c, AsMeld(Run(c)), Triplet(d))
            || (d == c && e.trips)
      ensures CanUse(hand, usePair, Run(d)) <==>
            || Below(hand, usePair, c, AsPair, Run(d))
            || Below(hand, usePair, c, AsMeld(Triplet(c)), Run(d))
            || Below(hand, usePair, c, AsMeld(Run(c)), Run(d))
            || (d == c && e.straight)
    {
      UseStep(hand, usePair, c, Triplet(d));
      UseStep(hand, usePair, c, Run(d));
    }
  }

  function Joined(l1: Log, l2: Log, l3: Log, e: Branches, c: Card): Log {
    Log(l1.hu + l2.hu + l3.hu + [e], l1.runs + l2.runs + l3.runs + if e.straight then [RunOf(c)] else [])
  }

  lemma JoinedFlags(l1: Log, l2: Log, l3: Log, e: Branches, c: Card)
    ensures FlagsTrips(Joined(l1, l2, l3, e, c)) <==> FlagsTrips(l1) || FlagsTrips(l2) || FlagsTrips(l3) || e.trips
    ensures FlagsStraight(Joined(l1, l2, l3, e, c)) <==>
            FlagsStraight(l1) || FlagsStraight(l2) || FlagsStraight(l3) || e.straight
  {
    var hu := Joined(l1, l2, l3, e, c).hu;
    assert e in hu;
    assert forall x :: x in hu <==> x in l1.hu || x in l2.hu || x in l3.hu || x == e;
  }

  // -------------------------------------------------------------- sorted vectors

  lemma SortedHead(cards: seq<Card>)
    requires cards != [] && Sorted(cards)
    ensures Smallest(multiset(cards), cards[0])
    ensures |cards| >= 2 ==> (cards[0] == cards[1] <==> multiset(cards)[cards[0]] >= 2)
    ensures |cards| >= 3 ==> (cards[0] == cards[1] == cards[2] <==> multiset(cards)[cards[0]] >= 3)
  {
    var c := cards[0];
    if |cards| >= 2 {
      assert cards == [c] + [cards[1]] + cards[2..];
      if cards[1] != c {
        assert forall i :: 1 <= i < |cards| ==> cards[i] != c;
        assert c !in cards[2..];
      }
    }
    if |cards| >= 3 {
      assert cards == [c] + [cards[1]] + [cards[2]] + cards[3..];
      if cards[2] != c {
        assert forall i :: 2 <= i < |cards| ==> cards[i] != c;
        assert c !in cards[3..];
      }
    }
  }

  lemma SortedTail(cards: seq<Card>, k: nat)
    requires k <= |cards| && Sorted(cards)
    requires forall i :: 0 <= i < k ==> cards[i] == cards[0]
    ensures Sorted(cards[k..])
    ensures k > 0 ==> multiset(cards[k..]) == multiset(cards) - multiset{}[cards[0] := k]
  {
    if k > 0 {
      assert cards == cards[..k] + cards[k..];
      AllEqual(cards[..k], cards[0]);
    }
  }

  lemma {:induction false} AllEqual(s: seq<Card>, c: Card)
    requires forall i :: 0 <= i < |s| ==> s[i] == c
    ensures multiset(s) == multiset{}[c := |s|]
  {
    if s != [] {
      assert s == [c] + s[1..];
      AllEqual(s[1..], c);
    }
  }

  lemma SortedRemoval(cards: seq<Card>, c: Card)
    requires Sorted(cards)
    ensures Sorted(RemoveFirst(cards, c))
  {
  }

  lemma RunFits(hand: multiset<Card>, usePair: bool, c: Card)
    requires c in hand
    ensures HeadFits(hand, usePair, c, AsMeld(Run(c))) <==> Run(c).Ok() && c.Plus(1) in hand && c.Plus(2) in hand
  {
    var run := Run(c).Cards();
    assert run[c] == 1 && run[c.Plus(1)] == 1 && run[c.Plus(2)] == 1;
  }

  /** The guards of the three branches, and the vector each branch passes on. */
  lemma BranchGuards(cards: seq<Card>, usePair: bool)
    requires |cards| >= 3 && Sorted(cards)
    ensures var c, hand := cards[0], multiset(cards);
            && Smallest(hand, c)
            && (HeadFits(hand, usePair, c, AsPair) <==> !usePair && cards[0] == cards[1])
            && (HeadFits(hand, usePair, c, AsMeld(Triplet(c))) <==> cards[0] == cards[1] == cards[2])
            && (HeadFits(hand, usePair, c, AsMeld(Run(c))) <==>
                c.value <= 7 && !IsHonor(c.kind) && c.Plus(1) in cards && c.Plus(2) in cards)
            && (cards[0] == cards[1] ==> Sorted(cards[2..]) && multiset(cards[2..]) == hand - HeadCards(c, AsPair))
            && (cards[0] == cards[1] == cards[2] ==>
                Sorted(cards[3..]) && multiset(cards[3..]) == hand - HeadCards(c, AsMeld(Triplet(c))))
  {
    SortedHead(cards);
    RunFits(multiset(cards), usePair, cards[0]);
    if cards[0] == cards[1] {
      SortedTail(cards, 2);
      if cards[1] == cards[2] {
        SortedTail(cards, 3);
      }
    }
  }

  function WithoutRun(cards: seq<Card>, c: Card): (rest: seq<Card>)
    ensures |rest| <= |cards| && (c in cards ==> |rest| < |cards|)
  {
    RemoveFirst(RemoveFirst(RemoveFirst(cards, c), c.Plus(1)), c.Plus(2))
  }

  lemma RunCards(hand: multiset<Card>, c: Card)
    ensures hand - multiset{c} - multiset{c.Plus(1)} - multiset{c.Plus(2)} == hand - HeadCards(c, AsMeld(Run(c)))
  {
  }

  lemma RunRemoval(cards: seq<Card>, c: Card)
    requires Sorted(cards) && c in cards && c.Plus(1) in cards && c.Plus(2) in cards
    ensures c.Plus(1) in RemoveFirst(cards, c) && c.Plus(2) in RemoveFirst(RemoveFirst(cards, c), c.Plus(1))
    ensures Sorted(WithoutRun(cards, c)) && |WithoutRun(cards, c)| == |cards| - 3
    ensures multiset(WithoutRun(cards, c)) == multiset(cards) - HeadCards(c, AsMeld(Run(c)))
  {
    hide RemoveFirst, IndexOf, Meld.Cards;
    var one := RemoveFirst(cards, c);
    var two := RemoveFirst(one, c.Plus(1));
    SortedRemoval(cards, c);
    SortedRemoval(one, c.Plus(1));
    SortedRemoval(two, c.Plus(2));
    assert c.Plus(1) in multiset(one) && c.Plus(2) in multiset(two);
    RunCards(multiset(cards), c);
  }

  /** A hand of at most two tiles has no meld. */
  lemma SmallHand(hand: multiset<Card>, usePair: bool, p: Partition)
    requires Splits(hand, usePair, p)
    ensures |hand| == 3 * |p.melds| + if usePair then 0 else 2
  {
    MeldSize(p.melds);
  }

  lemma {:induction false} MeldSize(melds: seq<Meld>)
    ensures |MeldCards(melds)| == 3 * |melds|
  {
    if melds != [] {
      MeldSize(melds[1..]);
    }
  }

  // ------------------------------------------------------------------- the search

  lemma RecordsMean(hand: multiset<Card>, log: Log)
    requires Records(hand, false, log)
    ensures FlagsTrips(log) <==> CanUseTriplet(hand, false)
    ensures FlagsStraight(log) <==> CanUseRun(hand, false)
    ensures log.runs == [] <==> !CanUseRun(hand, false)
    ensures forall c :: RunOf(c) in log.runs <==> CanUse(hand, false, Run(c))
  {
    if log.runs != [] {
      assert log.runs[0] in log.runs;
    }
  }

  lemma Increments<T>(a: seq<T>, b: seq<T>, c: seq<T>, d: seq<T>, e: seq<T>)
    requires a <= b <= c <= d <= e
    ensures a <= e
    ensures e[|a|..] == b[|a|..] + c[|b|..] + d[|c|..] + e[|d|..]
  {
  }

  /** What the search answers, for hands of every size.  The case of two tiles does not ask whether a
      pair was used already, nor the case of none whether one was. */
  function Search(cards: seq<Card>, usePair: bool): bool
    decreases |cards|
  {
    if |cards| <= 2 then |cards| == 0 || (|cards| == 2 && cards[0] == cards[1])
    else PairWins(cards, usePair) || TripletWins(cards, usePair) || RunWins(cards, usePair)
  }

  function PairWins(cards: seq<Card>, usePair: bool): bool
    requires |cards| >= 3
    decreases |cards|, 0
  {
    !usePair && cards[0] == cards[1] && Search(cards[2..], true)
  }

  function TripletWins(cards: seq<Card>, usePair: bool): bool
    requires |cards| >= 3
    decreases |cards|, 0
  {
    cards[0] == cards[1] == cards[2] && Search(cards[3..], usePair)
  }

  function RunWins(cards: seq<Card>, usePair: bool): bool
    requires |cards| >= 3
    decreases |cards|, 0
  {
    var c := cards[0];
    c.value <= 7 && !IsHonor(c.kind) && c.Plus(1) in cards && c.Plus(2) in cards && Search(WithoutRun(cards, c), usePair)
  }

  /** The sizes the search is documented for: 3n+2 tiles, 3n once the pair is used. */
  predicate Sized(n: nat, usePair: bool) {
    n % 3 == if usePair then 0 else 2
  }

  /** A `std::vector<Card_t>` handed over by reference. */
  class CardVector {
    var items: seq<Card>

    constructor (items: seq<Card>)
      ensures this.items == items
    {
      this.items := items;
    }

    method Erase(c: Card)
      requires c in items
      modifies this
      ensures items == RemoveFirst(old(items), c)
    {
      items := RemoveFirst(items, c);
    }

    /** The first copy of each of the three tiles of a run goes, one after the other. */
    method EraseRun(c: Card)
      requires Sorted(items) && c in items && c.Plus(1) in items && c.Plus(2) in items
      modifies this
      ensures items == WithoutRun(old(items), c)
    {
      RunRemoval(items, c);
      Erase(c);
      Erase(c.Plus(1));
      Erase(c.Plus(2));
    }
  }

  /** The part of a player that the search writes. */
  class Player {
    var huResult: seq<Branches>
    var shunzis: seq<ShunZi>
    var zhang: Card

    /** Decides whether the tiles split, and leaves the records of every split. */
    method CanHuPai(cards: CardVector, usePair: bool) returns (win: bool)
      requires Sorted(cards.items)
      modifies this, cards
      ensures win == Search(old(cards.items), usePair)
      ensures old(huResult) <= huResult && old(shunzis) <= shunzis
      ensures Sized(|old(cards.items)|, usePair) ==>
                Decided(multiset(old(cards.items)), usePair, win, Log(huResult[|old(huResult)|..], shunzis[|old(shunzis)|..]),
                        old(zhang), zhang)
      decreases |cards.items|, 2
    {
      ghost var items, hand, zhang0 := cards.items, multiset(cards.items), zhang;
      ghost var sized := Sized(|items|, usePair);
      var size := |cards.items|;
      SmallDecided(items, usePair, zhang);
      assert huResult[|huResult|..] == [] && shunzis[|shunzis|..] == [];
      SearchCases(items, usePair);
      SmallestFirst(items);
      hide *;
      if size <= 2 {
        if size == 1 {
          return false;
        }
        if size == 0 {
          return true;
        }
        if cards.items[0] == cards.items[1] {
          AddZhang(cards.items[0]);
          return true;
        } else {
          return false;
        }
      }
      var c := cards.items[0];
      ghost var hu0, r0 := huResult, shunzis;
      var pair := TryPair(cards, usePair);
      ghost var hu1, r1, zhang1 := huResult, shunzis, zhang;
      var trips := TryTriplet(cards, usePair);
      ghost var hu2, r2, zhang2 := huResult, shunzis, zhang;
      var straight := TryRun(cards, usePair, c, hand);
      ghost var hu3, r3 := huResult, shunzis;
      if straight {
        AddShunZi(RunOf(c));
      }
      var e := Branches(pair, trips, straight);
      huResult := huResult + [e];

      Increments(hu0, hu1, hu2, hu3, huResult);
      Increments(r0, r1, r2, r3, shunzis);
      win := pair || trips || straight;
      if sized {
        DecidedByBranches(hand, usePair, c, Log(hu1[|hu0|..], r1[|r0|..]), Log(hu2[|hu1|..], r2[|r1|..]),
                          Log(hu3[|hu2|..], r3[|r2|..]), e, zhang0, zhang1, zhang2, zhang);
      }
    }

    /** The first tile as the pair. */
    method TryPair(cards: CardVector, usePair: bool) returns (pair: bool)
      requires Sorted(cards.items) && |cards.items| >= 3
      modifies this
      ensures pair == PairWins(cards.items, usePair)
      ensures old(huResult) <= huResult && old(shunzis) <= shunzis
      ensures Sized(|cards.items|, usePair) ==>
                Tried(multiset(cards.items), usePair, cards.items[0], AsPair, pair,
                      Log(huResult[|old(huResult)|..], shunzis[|old(shunzis)|..]), old(zhang), zhang)
      decreases |cards.items|, 0
    {
      hide *;
      PairGuard(cards.items, usePair);
      ghost var hand, c := multiset(cards.items), cards.items[0];
      ghost var hu0, runs0, zhang0 := huResult, shunzis, zhang;
      ghost var sized := Sized(|cards.items|, usePair);
      NotTried(hand, usePair, c, AsPair, zhang);
      assert huResult[|huResult|..] == [] && shunzis[|shunzis|..] == [];
      pair := false;
      if !usePair {
        if cards.items[0] == cards.items[1] {
          var sub := new CardVector(cards.items[2..]);
          pair := CanHuPai(sub, true);
          if sized {
            TriedBySearch(hand, usePair, c, AsPair, pair, Log(huResult[|hu0|..], shunzis[|runs0|..]), zhang0, zhang);
          }
        }
        if pair {
          AddZhang(cards.items[0]);
        }
      }
    }

    /** The first tile as a triplet. */
    method TryTriplet(cards: CardVector, usePair: bool) returns (trips: bool)
      requires Sorted(cards.items) && |cards.items| >= 3
      modifies this
      ensures trips == TripletWins(cards.items, usePair)
      ensures old(huResult) <= huResult && old(shunzis) <= shunzis
      ensures Sized(|cards.items|, usePair) ==>
                Tried(multiset(cards.items), usePair, cards.items[0], AsMeld(Triplet(cards.items[0])), trips,
                      Log(huResult[|old(huResult)|..], shunzis[|old(shunzis)|..]), old(zhang), zhang)
      decreases |cards.items|, 0
    {
      hide *;
      TripletGuard(cards.items, usePair);
      ghost var hand, c := multiset(cards.items), cards.items[0];
      ghost var hu0, runs0, zhang0 := huResult, shunzis, zhang;
      ghost var sized := Sized(|cards.items|, usePair);
      NotTried(hand, usePair, c, AsMeld(Triplet(c)), zhang);
      assert huResult[|huResult|..] == [] && shunzis[|shunzis|..] == [];
      trips := false;
      if cards.items[0] == cards.items[1] && cards.items[1] == cards.items[2] {
        var sub := new CardVector(cards.items[3..]);
        trips := CanHuPai(sub, usePair);
        if sized {
          TriedBySearch(hand, usePair, c, AsMeld(Triplet(c)), trips, Log(huResult[|hu0|..], shunzis[|runs0|..]), zhang0, zhang);
        }
      }
    }

    /** The first tile as the start of a run; the three tiles leave the vector. */
    method TryRun(cards: CardVector, usePair: bool, first: Card, ghost hand: multiset<Card>) returns (straight: bool)
      requires Sorted(cards.items) && |cards.items| >= 3
      requires first == cards.items[0] && hand == multiset(cards.items)
      modifies this, cards
      ensures straight == RunWins(old(cards.items), usePair)
      ensures straight ==> first.kind != CARD_TYPE_FENG && first.kind != CARD_TYPE_JIAN && first.value <= 7
                           && Card(first.kind, first.value + 1) in old(cards.items) && Card(first.kind, first.value + 2) in old(cards.items)
      ensures old(huResult) <= huResult && old(shunzis) <= shunzis
      ensures Sized(|old(cards.items)|, usePair) ==>
                Tried(hand, usePair, first, AsMeld(Run(first)), straight,
                      Log(huResult[|old(huResult)|..], shunzis[|old(shunzis)|..]), old(zhang), zhang)
      decreases |cards.items|, 1
    {
      RunGuard(cards.items, usePair);
      assert IsHonor(first.kind) <==> first.kind == CARD_TYPE_FENG || first.kind == CARD_TYPE_JIAN;
      assert first.Plus(1) == Card(first.kind, first.value + 1) && first.Plus(2) == Card(first.kind, first.value + 2);
      hide *;
      straight := false;
      ghost var run := AsMeld(Run(first));
      NotTried(hand, usePair, first, run, zhang);
      assert huResult[|huResult|..] == [] && shunzis[|shunzis|..] == [];
      if first.value > 7 || IsHonor(first.kind) {
        return;
      }
      var second, third := first.Plus(1), first.Plus(2);
      if second !in cards.items || third !in cards.items {
        return;
      }
      straight := SearchWithoutRun(cards, usePair, first, hand);
    }

    method SearchWithoutRun(cards: CardVector, usePair: bool, first: Card, ghost hand: multiset<Card>) returns (straight: bool)
      requires Sorted(cards.items) && first in cards.items && first.Plus(1) in cards.items && first.Plus(2) in cards.items
      requires hand == multiset(cards.items) && HeadFits(hand, usePair, first, AsMeld(Run(first)))
      modifies this, cards
      ensures straight == Search(WithoutRun(old(cards.items), first), usePair)
      ensures old(huResult) <= huResult && old(shunzis) <= shunzis
      ensures Sized(|old(cards.items)|, usePair) ==>
                Tried(hand, usePair, first, AsMeld(Run(first)), straight,
                      Log(huResult[|old(huResult)|..], shunzis[|old(shunzis)|..]), old(zhang), zhang)
      decreases |cards.items|, 0
    {
      hide *;
      SizedRest(|cards.items|, usePair);
      RunRemoval(cards.items, first);
      ghost var hu0, runs0, zhang0 := huResult, shunzis, zhang;
      ghost var sized, rest := Sized(|cards.items|, usePair), WithoutRun(cards.items, first);
      assert multiset(rest) == hand - HeadCards(first, AsMeld(Run(first)));
      cards.EraseRun(first);
      straight := CanHuPai(cards, usePair);
      if sized {
        TriedBySearch(hand, usePair, first, AsMeld(Run(first)), straight, Log(huResult[|hu0|..], shunzis[|runs0|..]), zhang0, zhang);
      }
    }

    /** The shape part of the win test: clear the records, sort each kind, search, and
        count what was recorded.  The counts are what the 刻 and 飘 rules look at. */
    method CheckShape(hand: Hand) returns (win: bool, keCount: nat, shunziCount: nat)
      modifies this
      ensures win == Search(CardList(SortHand(hand)), false)
      ensures |HandTiles(hand)| % 3 == 2 ==>
                && (win <==> CanSplit(HandTiles(hand), false)) && (win ==> CanPair(HandTiles(hand), zhang))
                && (keCount > 0 <==> CanUseTriplet(HandTiles(hand), false))
                && (shunziCount > 0 <==> CanUseRun(HandTiles(hand), false))
                && (shunzis == [] <==> !CanUseRun(HandTiles(hand), false))
                && (forall c :: RunOf(c) in shunzis <==> CanUse(HandTiles(hand), false, Run(c)))
                && OfSuits(shunzis)
                && (win ==> forall c: Card :: c.kind == CARD_TYPE_FENG || c.kind == CARD_TYPE_JIAN ==> HandTiles(hand)[c] % 3 != 1)
    {
      huResult, shunzis := [], [];
      var sorted := SortHand(hand);
      assert forall k :: k in sorted ==> Ascending(sorted[k]);
      SortKeepsTiles(hand);
      CardListIsSorted(sorted);
      SizedHand(CardList(sorted));
      hide *;
      var list := new CardVector(CardList(sorted));
      ghost var zhang0 := zhang;
      win := CanHuPai(list, false);
      ghost var log := Log(huResult, shunzis);
      assert huResult[0..] == huResult && shunzis[0..] == shunzis;
      if |HandTiles(hand)| % 3 == 2 {
        DecidedMeans(HandTiles(hand), win, log, zhang0, zhang);
        DecidedOfSuits(HandTiles(hand), false, win, log, zhang0, zhang);
        HonorsOfWin(HandTiles(hand));
      }
      keCount, shunziCount := CountRecords();
    }

    /** Counts the entries that flag a triplet and those that flag a run. */
    method CountRecords() returns (keCount: nat, shunziCount: nat)
      ensures keCount > 0 <==> FlagsTrips(Log(huResult, shunzis))
      ensures shunziCount > 0 <==> FlagsStraight(Log(huResult, shunzis))
    {
      keCount, shunziCount := 0, 0;
      for i := 0 to |huResult|
        invariant keCount > 0 <==> exists j :: 0 <= j < i && huResult[j].trips
        invariant shunziCount > 0 <==> exists j :: 0 <= j < i && huResult[j].straight
      {
        if huResult[i].straight {
          shunziCount := shunziCount + 1;
        }
        if huResult[i].trips {
          keCount := keCount + 1;
        }
      }
    }

    method AddZhang(c: Card)
      modifies this`zhang
      ensures zhang == c
    {
      zhang := c;
    }

    method AddShunZi(s: ShunZi)
      modifies this`shunzis
      ensures shunzis == old(shunzis) + [s]
    {
      shunzis := shunzis + [s];
    }
  }

  /** The whole result of the search on a hand of a documented size: the answer is the split, the records
      are those of every split, and on success the pair kept is the pair of some split. */
  ghost predicate Decided(hand: multiset<Card>, usePair: bool, win: bool, log: Log, zhang0: Card, zhang: Card) {
    && (win <==> CanSplit(hand, usePair)) && Records(hand, usePair, log)
    && if win && !usePair then CanPair(hand, zhang) else zhang == zhang0
  }

  /** The same for one branch. */
  ghost predicate Tried(hand: multiset<Card>, usePair: bool, c: Card, h: Head, win: bool, log: Log, zhang0: Card, zhang: Card) {
    && win == HeadWins(hand, usePair, c, h) && BranchRecords(hand, usePair, c, h, log)
    && if win && !usePair then CanPair(hand, zhang) else zhang == zhang0
  }

  lemma DecidedOfSuits(hand: multiset<Card>, usePair: bool, win: bool, log: Log, zhang0: Card, zhang: Card)
    requires Decided(hand, usePair, win, log, zhang0, zhang)
    ensures OfSuits(log.runs)
  {
    RecordsOfSuits(hand, usePair, log);
  }

  lemma SmallDecided(cards: seq<Card>, usePair: bool, zhang: Card)
    ensures |cards| <= 2 && Sized(|cards|, usePair) ==>
              Decided(multiset(cards), usePair, Search(cards, usePair), Log([], []), zhang,
                      if |cards| == 2 && cards[0] == cards[1] then cards[0] else zhang)
  {
    if |cards| <= 2 && Sized(|cards|, usePair) {
      SmallSearch(cards, usePair);
    }
  }

  lemma SearchCases(cards: seq<Card>, usePair: bool)
    ensures Search(cards, usePair) == if |cards| <= 2 then |cards| == 0 || (|cards| == 2 && cards[0] == cards[1])
                                      else PairWins(cards, usePair) || TripletWins(cards, usePair) || RunWins(cards, usePair)
  {
    hide PairWins, TripletWins, RunWins;
  }

  lemma SmallestFirst(cards: seq<Card>)
    requires Sorted(cards)
    ensures |cards| >= 3 ==> Smallest(multiset(cards), cards[0])
  {
    if |cards| >= 3 {
      SortedHead(cards);
    }
  }

  lemma PairGuard(cards: seq<Card>, usePair: bool)
    requires |cards| >= 3 && Sorted(cards)
    ensures HeadFits(multiset(cards), usePair, cards[0], AsPair) <==> !usePair && cards[0] == cards[1]
    ensures PairWins(cards, usePair) <==> !usePair && cards[0] == cards[1] && Search(cards[2..], true)
    ensures cards[0] == cards[1] ==>
              Sorted(cards[2..]) && multiset(cards[2..]) == multiset(cards) - HeadCards(cards[0], AsPair)
    ensures !usePair && Sized(|cards|, usePair) ==> Sized(|cards[2..]|, true)
  {
    BranchGuards(cards, usePair);
  }

  lemma TripletGuard(cards: seq<Card>, usePair: bool)
    requires |cards| >= 3 && Sorted(cards)
    ensures HeadFits(multiset(cards), usePair, cards[0], AsMeld(Triplet(cards[0]))) <==> cards[0] == cards[1] == cards[2]
    ensures TripletWins(cards, usePair) <==> cards[0] == cards[1] == cards[2] && Search(cards[3..], usePair)
    ensures cards[0] == cards[1] == cards[2] ==>
              Sorted(cards[3..]) && multiset(cards[3..]) == multiset(cards) - HeadCards(cards[0], AsMeld(Triplet(cards[0])))
    ensures Sized(|cards|, usePair) ==> Sized(|cards[3..]|, usePair)
  {
    BranchGuards(cards, usePair);
  }

  lemma RunGuard(cards: seq<Card>, usePair: bool)
    requires |cards| >= 3 && Sorted(cards)
    ensures var c, hand := cards[0], multiset(cards);
            HeadFits(hand, usePair, c, AsMeld(Run(c))) <==>
              c.value <= 7 && !IsHonor(c.kind) && c.Plus(1) in cards && c.Plus(2) in cards
    ensures RunWins(cards, usePair) <==>
              var c := cards[0];
              c.value <= 7 && !IsHonor(c.kind) && c.Plus(1) in cards && c.Plus(2) in cards && Search(WithoutRun(cards, c), usePair)
  {
    RunFits(multiset(cards), usePair, cards[0]);
  }

  lemma SizedRest(n: nat, usePair: bool)
    ensures n >= 3 && Sized(n, usePair) ==> Sized(n - 3, usePair)
  {
  }

  lemma SizedHand(cards: seq<Card>)
    ensures Sized(|cards|, false) <==> |multiset(cards)| % 3 == 2
  {
    assert |multiset(cards)| == |cards|;
  }

  lemma DecidedMeans(hand: multiset<Card>, win: bool, log: Log, zhang0: Card, zhang: Card)
    requires Decided(hand, false, win, log, zhang0, zhang)
    ensures (win <==> CanSplit(hand, false)) && (win ==> CanPair(hand, zhang))
    ensures FlagsTrips(log) <==> CanUseTriplet(hand, false)
    ensures FlagsStraight(log) <==> CanUseRun(hand, false)
    ensures log.runs == [] <==> !CanUseRun(hand, false)
    ensures forall c :: RunOf(c) in log.runs <==> CanUse(hand, false, Run(c))
  {
    hide Records, CanSplit, CanPair, CanUse, CanUseRun, CanUseTriplet, FlagsTrips, FlagsStraight;
    RecordsMean(hand, log);
  }

  /** A branch that is not entered records nothing. */
  lemma NotTried(hand: multiset<Card>, usePair: bool, c: Card, h: Head, zhang: Card)
    ensures !HeadFits(hand, usePair, c, h) ==> Tried(hand, usePair, c, h, false, Log([], []), zhang, zhang)
  {
  }

  /** Searching what a branch leaves tries the branch; a pair that wins is kept as the pair. */
  lemma TriedBySearch(hand: multiset<Card>, usePair: bool, c: Card, h: Head, win: bool, log: Log, zhang0: Card, zhang: Card)
    requires HeadFits(hand, usePair, c, h)
    requires Decided(hand - HeadCards(c, h), usePair || h.AsPair?, win, log, zhang0, zhang)
    ensures Tried(hand, usePair, c, h, win, log, zhang0, if h.AsPair? && win then c else zhang)
  {
    PairNeedsNone(hand, usePair, c);
    hide Splits, Records, HeadFits, HeadCards, CanSplit;
    if win {
      SplitOfHead(hand, usePair, c, h);
    }
  }

  /** The three branches together decide the hand. */
  lemma DecidedByBranches(hand: multiset<Card>, usePair: bool, c: Card, l1: Log, l2: Log, l3: Log, e: Branches,
                          z0: Card, z1: Card, z2: Card, z3: Card)
    requires Smallest(hand, c)
    requires Tried(hand, usePair, c, AsPair, e.pair, l1, z0, z1)
    requires Tried(hand, usePair, c, AsMeld(Triplet(c)), e.trips, l2, z1, z2)
    requires Tried(hand, usePair, c, AsMeld(Run(c)), e.straight, l3, z2, z3)
    ensures Decided(hand, usePair, e.pair || e.trips || e.straight, Joined(l1, l2, l3, e, c), z0, z3)
  {
    hide Splits, HeadFits, HeadCards, HeadWins, BranchRecords, Records, CanSplit, CanPair, Smallest, Joined;
    RecordsStep(hand, usePair, c, l1, l2, l3, e);
    SearchStep(hand, usePair, c);
    PairNeedsNone(hand, usePair, c);
  }

  lemma PairNeedsNone(hand: multiset<Card>, usePair: bool, c: Card)
    ensures HeadFits(hand, usePair, c, AsPair) ==> !usePair
    ensures HeadWins(hand, usePair, c, AsPair) ==> !usePair
  {
  }

  /** Hands too small for a meld: nothing, or a pair. */
  lemma SmallSearch(cards: seq<Card>, usePair: bool)
    requires |cards| <= 2 && |cards| % 3 == if usePair then 0 else 2
    ensures CanSplit(multiset(cards), usePair) <==> |cards| == 0 || cards[0] == cards[1]
    ensures Records(multiset(cards), usePair, Log([], []))
    ensures |cards| == 2 && cards[0] == cards[1] ==> CanPair(multiset(cards), cards[0])
  {
    hide Meld.Cards;
    var hand := multiset(cards);
    forall p | Splits(hand, usePair, p) ensures p.melds == [] {
      SmallHand(hand, usePair, p);
    }
    SmallSplit(cards, usePair);
    assert forall m :: !CanUse(hand, usePair, m);
  }

  lemma SmallSplit(cards: seq<Card>, usePair: bool)
    requires |cards| <= 2 && |cards| % 3 == if usePair then 0 else 2
    requires forall p :: Splits(multiset(cards), usePair, p) ==> p.melds == []
    ensures CanSplit(multiset(cards), usePair) <==> |cards| == 0 || cards[0] == cards[1]
    ensures |cards| == 2 && cards[0] == cards[1] ==> CanPair(multiset(cards), cards[0])
  {
    var hand := multiset(cards);
    if |cards| == 0 {
      assert Splits(hand, usePair, Partition(None, []));
    } else {
      assert cards == [cards[0]] + [cards[1]];
      if cards[0] == cards[1] {
        assert Splits(hand, usePair, Partition(Some(cards[0]), []));
      } else {
        assert hand[cards[0]] == 1;
      }
    }
  }

  // ------------------------------------------------------------- hands of every size

  /** On hands of a documented size the search answers whether the hand splits. */
  lemma {:induction false} SearchIsSplit(cards: seq<Card>, usePair: bool)
    requires Sorted(cards) && Sized(|cards|, usePair)
    ensures Search(cards, usePair) <==> CanSplit(multiset(cards), usePair)
    decreases |cards|
  {
    SearchCases(cards, usePair);
    if |cards| <= 2 {
      SmallSearch(cards, usePair);
    } else {
      var c := cards[0];
      PairGuard(cards, usePair);
      TripletGuard(cards, usePair);
      RunGuard(cards, usePair);
      SizedRest(|cards|, usePair);
      SmallestFirst(cards);
      SearchStep(multiset(cards), usePair, c);
      hide Search, PairWins, TripletWins, RunWins, Splits, HeadFits, HeadCards, CanSplit, Sorted, Smallest, Sized, WithoutRun, IsHonor;
      if !usePair && cards[0] == cards[1] {
        SearchIsSplit(cards[2..], true);
      }
      if cards[0] == cards[1] == cards[2] {
        SearchIsSplit(cards[3..], usePair);
      }
      if HeadFits(multiset(cards), usePair, c, AsMeld(Run(c))) {
        RunRemoval(cards, c);
        SearchIsSplit(WithoutRun(cards, c), usePair);
      }
    }
  }

  /** It answers for every hand of a size as it should exactly for the documented sizes, and for one tile. */
  lemma SearchRightBySize(n: nat)
    ensures (forall cards: seq<Card> :: |cards| == n && Sorted(cards) ==>
               (Search(cards, false) <==> CanSplit(multiset(cards), false)))
            <==> n % 3 == 2 || n == 1
  {
    if n % 3 == 2 {
      forall cards: seq<Card> | |cards| == n && Sorted(cards)
        ensures Search(cards, false) <==> CanSplit(multiset(cards), false)
      {
        SearchIsSplit(cards, false);
      }
    } else {
      forall cards: seq<Card> | |cards| == n ensures !CanSplit(multiset(cards), false) {
        OnlyDocumentedSizes(cards);
      }
      if n != 1 {
        var same := seq(n, i => Card(CARD_TYPE_JIAN, 1));
        SameTiles(same, false);
        assert Sorted(same);
      }
    }
  }

  lemma OnlyDocumentedSizes(cards: seq<Card>)
    ensures CanSplit(multiset(cards), false) ==> |cards| % 3 == 2
  {
    if CanSplit(multiset(cards), false) {
      var p :| Splits(multiset(cards), false, p);
      SmallHand(multiset(cards), false, p);
      assert |multiset(cards)| == |cards|;
    }
  }

  /** Equal tiles are accepted in any number but one: triplets, and what is left over. */
  lemma {:induction false} SameTiles(cards: seq<Card>, usePair: bool)
    requires forall i :: 0 <= i < |cards| ==> cards[i] == cards[0]
    requires |cards| != 1 && (usePair ==> |cards| % 3 != 1)
    ensures Search(cards, usePair)
    decreases |cards|
  {
    if |cards| > 2 {
      if |cards| == 4 {
        SameTiles(cards[2..], true);
      } else {
        SameTiles(cards[3..], usePair);
      }
    }
  }
}
