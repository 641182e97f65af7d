/** A player's tiles during a game: the hand, the melds laid out, and the kongs.  Every turn
    decision of the server reads the number of tiles in the hand (`ShouldZhuaPai`,
    `ShouldDaPai`); the operations below keep the weighted count that makes it unambiguous. */
module PlayerTiles {
  import opened Tiles
  import opened Hands
  import opened Fans
  import Ready = TingPai
  import WinningHand

  /** A kong: its tile and the player recorded as its source. */
  datatype Gang = Gang(pai: Card, source: int)

  datatype Pais = Pais(hand: Hand, outHand: Hand, minggang: seq<Gang>, angang: seq<Gang>,
                       fenggang: nat, jiangang: nat, zhuiFeng: seq<Card>, zhuiJian: seq<Card>)

  // --------------------------------------------------------------------------- counting

  function Count(row: seq<int>, value: int): nat {
    if row == [] then 0
    else Count(row[..|row| - 1], value) + if row[|row| - 1] == value then 1 else 0
  }

  lemma {:induction false} CountIsMultiplicity(row: seq<int>, value: int)
    ensures Count(row, value) == multiset(row)[value]
  {
    if row != [] {
      var n := |row| - 1;
      CountIsMultiplicity(row[..n], value);
      assert row == row[..n] + [row[n]];
    }
  }

  lemma {:induction false} CountParts(a: seq<int>, b: seq<int>, value: int)
    ensures Count(a + b, value) == Count(a, value) + Count(b, value)
  {
    if b == [] {
      assert a + b == a;
    } else {
      var n := |b| - 1;
      CountParts(a, b[..n], value);
      assert (a + b)[..|a + b| - 1] == a + b[..n];
    }
  }

  lemma {:induction false} CountNone(row: seq<int>, value: int)
    ensures Count(row, value) == 0 <==> value !in row
    ensures Count(row, value) <= |row|
  {
    if row != [] {
      var n := |row| - 1;
      CountNone(row[..n], value);
      assert value in row <==> value in row[..n] || value == row[n];
    }
  }

  lemma CountRemoveFirst(row: seq<int>, x: int, value: int)
    requires x in row
    ensures Count(RemoveFirst(row, x), value) == Count(row, value) - if value == x then 1 else 0
  {
    var i := IndexOf(row, x);
    var a, b := row[..i], row[i + 1..];
    assert row == a + [x] + b;
    hide IndexOf;
    CountParts(a, b, value);
    CountParts(a + [x], b, value);
    CountParts(a, [x], value);
    assert Count([x], value) == if value == x then 1 else 0 by {
      assert [x][..0] == [];
    }
  }

  lemma CountSort(row: seq<int>, value: int)
    ensures Count(SortValues(row), value) == Count(row, value)
  {
    CountIsMultiplicity(row, value);
    CountIsMultiplicity(SortValues(row), value);
  }

  /** Tiles in a hand of the five kinds (`GetCardCount`). */
  function Size(h: Hand): nat {
    |Values(h, 1)| + |Values(h, 2)| + |Values(h, 3)| + |Values(h, 4)| + |Values(h, 5)|
  }

  predicate IsKind(kind: int) {
    CARD_TYPE_WANZI <= kind <= CARD_TYPE_JIAN
  }

  /** Rows of other kinds may exist, but hold nothing. */
  predicate Proper(h: Hand) {
    forall k :: k in h && !IsKind(k) ==> h[k] == []
  }

  function Weight(s: Pais): nat {
    Size(s.hand) + Size(s.outHand) + 3 * (|s.minggang| + |s.angang| + s.fenggang + s.jiangang)
  }

  predicate ShouldZhuaPai(h: Hand) {
    h == map[] || DrawNumber(Size(h))
  }

  predicate ShouldDaPai(h: Hand) {
    DiscardNumber(Size(h))
  }

  // -------------------------------------------------------------------- aligned triples

  predicate Triple(row: seq<int>, i: nat)
    requires 3 * i + 2 < |row|
  {
    var a, b, c := row[3 * i], row[3 * i + 1], row[3 * i + 2];
    (a == b == c) || (b == a + 1 && c == a + 2)
  }

  /** The melds of one kind: three equal values or three in a row, one after the other. */
  ghost predicate Aligned(row: seq<int>) {
    |row| % 3 == 0 && forall i: nat :: 3 * i + 2 < |row| ==> Triple(row, i)
  }

  lemma AlignedAppend(row: seq<int>, meld: seq<int>)
    requires Aligned(row) && |meld| == 3 && Triple(meld, 0)
    ensures Aligned(row + meld)
  {
    var r := row + meld;
    forall i: nat | 3 * i + 2 < |r| ensures Triple(r, i) {
      if 3 * i + 2 < |row| {
        assert Triple(row, i);
      }
    }
  }

  lemma AlignedCut(row: seq<int>, p: nat)
    requires Aligned(row) && p % 3 == 0 && p + 3 <= |row|
    ensures Aligned(row[..p] + row[p + 3..])
  {
    var r := row[..p] + row[p + 3..];
    forall i: nat | 3 * i + 2 < |r| ensures Triple(r, i) {
      if 3 * i + 2 < p {
        assert Triple(row, i);
      } else {
        assert Triple(row, i + 1);
      }
    }
  }

  /** `std::remove` and `erase`: the row without any `value`. */
  function RemoveAll(row: seq<int>, value: int): seq<int> {
    if row == [] then []
    else RemoveAll(row[..|row| - 1], value) + if row[|row| - 1] == value then [] else [row[|row| - 1]]
  }

  lemma {:induction false} RemoveAllParts(a: seq<int>, b: seq<int>, value: int)
    ensures RemoveAll(a + b, value) == RemoveAll(a, value) + RemoveAll(b, value)
  {
    if b == [] {
      assert a + b == a;
    } else {
      var n := |b| - 1;
      RemoveAllParts(a, b[..n], value);
      assert (a + b)[..|a + b| - 1] == a + b[..n];
    }
  }

  lemma {:induction false} RemoveAllNone(a: seq<int>, value: int)
    requires value !in a
    ensures RemoveAll(a, value) == a
  {
    if a != [] {
      RemoveAllNone(a[..|a| - 1], value);
    }
  }

  lemma {:induction false} RemoveAllCounts(row: seq<int>, value: int, other: int)
    ensures |RemoveAll(row, value)| == |row| - Count(row, value)
    ensures Count(RemoveAll(row, value), other) == if other == value then 0 else Count(row, other)
  {
    if row != [] {
      var n := |row| - 1;
      RemoveAllCounts(row[..n], value, other);
      var rest := RemoveAll(row[..n], value);
      if row[n] != value {
        assert (rest + [row[n]])[..|rest|] == rest;
      } else {
        assert rest + [] == rest;
      }
    }
  }

  /** The test `CheckGangPai` makes on a row laid out: from the first `value` on, three of them. */
  predicate HasPong(row: seq<int>, value: int) {
    value in row &&
    var p := IndexOf(row, value); p + 2 < |row| && row[p + 1] == value && row[p + 2] == value
  }

  /** Of three equal values laid out one after the other, removing them removes one meld. */
  lemma PongIsOneMeld(row: seq<int>, value: int)
    requires Aligned(row) && HasPong(row, value) && Count(row, value) == 3
    ensures Aligned(RemoveAll(row, value))
  {
    var p := PongParts(row, value);
    var a, m, b := row[..p], [value, value, value], row[p + 3..];
    hide *;
    CountParts(a + m, b, value);
    CountParts(a, m, value);
    CountNone(a, value);
    CountNone(b, value);
    PongRow(value);
    RemoveAllParts(a + m, b, value);
    RemoveAllParts(a, m, value);
    RemoveAllNone(a, value);
    RemoveAllNone(b, value);
    assert a + [] == a;
    PongStart(row, p, value);
    AlignedCut(row, p);
  }

  lemma PongParts(row: seq<int>, value: int) returns (p: nat)
    requires HasPong(row, value)
    ensures p + 3 <= |row| && row[p] == row[p + 1] == row[p + 2] == value && value !in row[..p]
    ensures row == row[..p] + [value, value, value] + row[p + 3..]
  {
    p := IndexOf(row, value);
    hide *;
    assert row[p..p + 3] == [value, value, value];
    assert row == row[..p] + row[p..p + 3] + row[p + 3..];
  }

  lemma PongRow(value: int)
    ensures Count([value, value, value], value) == 3 && RemoveAll([value, value, value], value) == []
  {
    var one := [value];
    assert one[..0] == [] && RemoveAll([], value) == [];
    assert Count(one, value) == 1 && RemoveAll(one, value) == [];
    CountParts(one, one, value);
    CountParts(one + one, one, value);
    RemoveAllParts(one, one, value);
    RemoveAllParts(one + one, one, value);
    assert one + one + one == [value, value, value];
  }

  /** The first of exactly three equal values side by side starts a meld. */
  lemma PongStart(row: seq<int>, p: nat, value: int)
    requires Aligned(row) && p + 3 <= |row| && row[p] == row[p + 1] == row[p + 2] == value
    requires value !in row[..p] && value !in row[p + 3..]
    ensures p % 3 == 0
  {
    assert Triple(row, p / 3);
    assert p > 0 ==> row[..p][p - 1] == row[p - 1];
    assert p + 3 < |row| ==> row[p + 3..][0] == row[p + 3];
    if 3 * (p / 3) + 5 < |row| {
      assert Triple(row, p / 3 + 1);
    }
  }

  // ------------------------------------------------------------------------ the invariant

  /** No face more than four times, melds aligned, nothing outside the five kinds. */
  ghost predicate WellFormed(s: Pais) {
    && Proper(s.hand) && Proper(s.outHand)
    && (forall k :: Aligned(Values(s.outHand, k)))
    && (forall k, v :: Count(Values(s.hand, k), v) + Count(Values(s.outHand, k), v) <= 4)
  }

  /** The player has to draw at 13 and to discard at 14. */
  ghost predicate InTurn(s: Pais) {
    WellFormed(s) && (Weight(s) == 13 || Weight(s) == 14)
  }

  lemma MeldsOf(s: Pais, k: int) returns (n: nat)
    requires WellFormed(s)
    ensures |Values(s.outHand, k)| == 3 * n
  {
    assert Aligned(Values(s.outHand, k));
    n := |Values(s.outHand, k)| / 3;
  }

  lemma OutSize(s: Pais)
    requires WellFormed(s)
    ensures Size(s.outHand) % 3 == 0
  {
    hide WellFormed, Values;
    var a := MeldsOf(s, 1);
    var b := MeldsOf(s, 2);
    var c := MeldsOf(s, 3);
    var d := MeldsOf(s, 4);
    var e := MeldsOf(s, 5);
    assert Size(s.outHand) == 3 * (a + b + c + d + e);
  }

  /** In turn, exactly one of the two tests holds: the one for drawing at 13, for discarding at 14. */
  lemma ExactlyOne(s: Pais)
    requires InTurn(s)
    ensures ShouldZhuaPai(s.hand) <==> Weight(s) == 13
    ensures ShouldDaPai(s.hand) <==> Weight(s) == 14
  {
    OutSize(s);
    HandNumber(Size(s.hand), Size(s.outHand) / 3 + |s.minggang| + |s.angang| + s.fenggang + s.jiangang);
    hide Size, WellFormed, DrawNumber, DiscardNumber;
    assert Size(s.hand) + 3 * (Size(s.outHand) / 3 + |s.minggang| + |s.angang| + s.fenggang + s.jiangang) == Weight(s);
  }

  predicate DrawNumber(n: nat) {
    n == 13 || n == 10 || n == 7 || n == 4 || n == 1
  }

  predicate DiscardNumber(n: nat) {
    n == 14 || n == 11 || n == 8 || n == 5 || n == 2
  }

  lemma HandNumber(n: nat, melds: nat)
    ensures n + 3 * melds == 13 ==> DrawNumber(n) && !DiscardNumber(n)
    ensures n + 3 * melds == 14 ==> DiscardNumber(n) && !DrawNumber(n) && n > 0
    ensures n + 3 * melds == 10 ==> DrawNumber(n) && !DiscardNumber(n)
    ensures n + 3 * melds == 12 || n + 3 * melds == 9 ==> !DrawNumber(n) && !DiscardNumber(n)
  {
  }

  // ------------------------------------------------------------------------- operations

  function Push(h: Hand, c: Card): Hand {
    h[c.kind := Values(h, c.kind) + [c.value]]
  }

  function PushAll(h: Hand, cards: seq<Card>): Hand {
    if cards == [] then h else Push(PushAll(h, cards[..|cards| - 1]), cards[|cards| - 1])
  }

  /** Tiles drawn are taken only when the count asks for one; looking at the bonus tile may win first. */
  function OnFaPai(s: Pais, cards: seq<Card>, jinBao: bool): Pais {
    if cards == [] || !ShouldZhuaPai(s.hand) || jinBao then s
    else s.(hand := SortHand(PushAll(s.hand, cards)))
  }

  function DaPai(s: Pais, pai: Card): Pais {
    if !ShouldDaPai(s.hand) then s
    else s.(hand := s.hand[pai.kind := RemoveFirst(Values(s.hand, pai.kind), pai.value)])
  }

  /** Room rules and flags outside the tiles that let a claim through: no hosting, no ready hand,
      not the wild tile, open-hand and dragon rules met. */
  predicate CheckChiPai(s: Pais, pai: Card, hui: Card, allowed: bool) {
    && allowed && !ShouldDaPai(s.hand) && pai.kind in s.hand && CARD_TYPE_WANZI <= pai.kind <= CARD_TYPE_TIAOZI
    && (Eats(s.hand[pai.kind], pai, -1, -2, hui) || Eats(s.hand[pai.kind], pai, 1, 2, hui)
        || Eats(s.hand[pai.kind], pai, -1, 1, hui))
  }

  predicate Eats(row: seq<int>, pai: Card, i: int, j: int, hui: Card) {
    pai.value + i in row && pai.value + j in row && pai.Plus(i) != hui && pai.Plus(j) != hui
  }

  /** The three tiles, sorted, are a run. */
  predicate IsRun(pai: Card, a: Card, b: Card) {
    var c := SortValues([pai.value, a.value, b.value]);
    c[1] - c[0] == 1 && c[2] - c[1] == 1
  }

  /** 吃 with these two tiles goes through. */
  predicate Eating(s: Pais, pai: Card, a: Card, b: Card, hui: Card, allowed: bool) {
    && CheckChiPai(s, pai, hui, allowed) && a.kind == pai.kind && b.kind == pai.kind && a != hui && b != hui
    && IsRun(pai, a, b) && a.value in s.hand[pai.kind]
  }

  function OnChiPai(s: Pais, pai: Card, a: Card, b: Card, hui: Card, allowed: bool): Pais {
    if !Eating(s, pai, a, b, hui, allowed) then s
    else
      var row := RemoveFirst(s.hand[pai.kind], a.value);
      if b.value !in row then s.(hand := s.hand[pai.kind := row])
      else s.(hand := s.hand[pai.kind := RemoveFirst(row, b.value)],
              outHand := s.outHand[pai.kind := Values(s.outHand, pai.kind) + SortValues([pai.value, a.value, b.value])])
  }

  predicate CheckPengPai(s: Pais, pai: Card, allowed: bool) {
    allowed && !ShouldDaPai(s.hand) && pai.kind in s.hand && Count(s.hand[pai.kind], pai.value) >= 2
  }

  function OnPengPai(s: Pais, pai: Card, allowed: bool): Pais {
    if !CheckPengPai(s, pai, allowed) then s
    else s.(hand := s.hand[pai.kind := RemoveFirst(RemoveFirst(s.hand[pai.kind], pai.value), pai.value)],
            outHand := s.outHand[pai.kind := Values(s.outHand, pai.kind) + [pai.value, pai.value, pai.value]])
  }

  /** What the room says of a kong: forbidden outright; the open-hand rules for open and closed
      kongs; 建平's closed hand; whether a ready hand stays ready. */
  datatype GangRules = GangRules(banned: bool, mingPiao: bool, anGangPiao: bool, closed: bool, keepsTing: bool)

  predicate CheckGangPai(s: Pais, pai: Card, self: bool, r: GangRules)
    requires pai.kind in s.hand || !self
  {
    var n := Count(Values(s.hand, pai.kind), pai.value);
    && !r.banned && !(n == 4 && r.anGangPiao && r.closed) && r.mingPiao && r.keepsTing
    && (n == 3 || (n == 4 && r.anGangPiao)
        || ((self || n == 1) && |Values(s.outHand, pai.kind)| % 3 == 0 && HasPong(Values(s.outHand, pai.kind), pai.value)))
  }

  /** Where the kong test is defined: a player's own claim on a kind he has no row of reads past the
      end of the map. */
  predicate KindHeld(s: Pais, pai: Card, self: bool) {
    IsKind(pai.kind) && (pai.kind in s.hand || !self)
  }

  /** The tiles a kong takes off the hand and off the table. */
  function TakeGang(s: Pais, pai: Card): Pais {
    var out := Values(s.outHand, pai.kind);
    var s1 := s.(hand := s.hand[pai.kind := RemoveAll(Values(s.hand, pai.kind), pai.value)]);
    if Count(out, pai.value) == 3 then s1.(outHand := s.outHand[pai.kind := RemoveAll(out, pai.value)]) else s1
  }

  /** A kong from three in the hand is recorded as the client sent it, one on a triplet laid out
      with the source the server knows. */
  function OnGangPai(s: Pais, pai: Card, paiSource: int, source: int, self: bool, r: GangRules): Pais
    requires pai.kind in s.hand || !self
  {
    var n := Count(Values(s.hand, pai.kind), pai.value);
    if !CheckGangPai(s, pai, self, r) || (n == 4 && r.closed) then s
    else
      var taken := TakeGang(s, pai);
      taken.(minggang := s.minggang + (if n == 3 then [Gang(pai, paiSource)] else [])
                         + (if Count(Values(s.outHand, pai.kind), pai.value) == 3 then [Gang(pai, source)] else []),
             angang := s.angang + if n == 4 then [Gang(pai, paiSource)] else [])
  }

  /** The kong is being robbed: its tiles are gone, the kong is not recorded yet. */
  function OnBeenQiangGang(s: Pais, pai: Card, self: bool, r: GangRules): Pais
    requires pai.kind in s.hand || !self
  {
    if CheckGangPai(s, pai, self, r) then TakeGang(s, pai) else s
  }

  function OnBeenQiangGangWithGivingUp(s: Pais, pai: Card, source: int): Pais {
    s.(minggang := s.minggang + [Gang(pai, source)])
  }

  /** Four tiles shared out when the game is drawn, one to each player: taken without a test. */
  function OnFenZhang(s: Pais, card: Card): Pais {
    s.(hand := SortHand(Push(s.hand, card)))
  }

  predicate HoldsAll(row: seq<int>, upTo: nat) {
    forall v :: 1 <= v <= upTo ==> v in row
  }

  /** `CheckFengGangPai`, `CheckJianGangPai`: allowed by the room and one of each held. */
  predicate CheckXuanFeng(s: Pais, kind: int, allowed: bool) {
    allowed && kind in s.hand && HoldsAll(s.hand[kind], if kind == CARD_TYPE_FENG then 4 else 3)
  }

  function RemoveEach(row: seq<int>, upTo: nat): seq<int> {
    if upTo == 0 then row else RemoveFirst(RemoveEach(row, upTo - 1), upTo)
  }

  function OnGangFengPai(s: Pais, allowed: bool): Pais {
    if !CheckXuanFeng(s, CARD_TYPE_FENG, allowed) then s
    else s.(hand := s.hand[CARD_TYPE_FENG := RemoveEach(s.hand[CARD_TYPE_FENG], 4)], fenggang := s.fenggang + 1)
  }

  function OnGangJianPai(s: Pais, allowed: bool): Pais {
    if !CheckXuanFeng(s, CARD_TYPE_JIAN, allowed) then s
    else s.(hand := s.hand[CARD_TYPE_JIAN := RemoveEach(s.hand[CARD_TYPE_JIAN], 3)], jiangang := s.jiangang + 1)
  }

  /** Adding a wind or a dragon to such a kong; `other` stands for an operation that is neither. */
  datatype ZhuiFeng = Feng | Jian | Other

  /** Allowed by the room, and a wind in the hand beside a wind kong or a dragon beside a dragon kong. */
  predicate CheckZhuiFengGang(s: Pais, allowed: bool) {
    allowed && ((s.fenggang > 0 && Values(s.hand, CARD_TYPE_FENG) != []) || (s.jiangang > 0 && Values(s.hand, CARD_TYPE_JIAN) != []))
  }

  function OnGangZhuiFeng(s: Pais, oper: ZhuiFeng, pai: Card): Pais {
    var row := Values(s.hand, pai.kind);
    if pai.value !in row || (oper.Feng? && s.fenggang == 0) || (oper.Jian? && s.jiangang == 0)
    then s.(hand := s.hand[pai.kind := row])
    else s.(hand := s.hand[pai.kind := RemoveFirst(row, pai.value)],
            zhuiFeng := if oper.Feng? then s.zhuiFeng + [pai] else s.zhuiFeng,
            zhuiJian := if oper.Jian? then s.zhuiJian + [pai] else s.zhuiJian)
  }

  // -------------------------------------------------------- what each operation does

  lemma SizeUpdate(h: Hand, kind: int, row: seq<int>)
    requires IsKind(kind) || (row == [] && Values(h, kind) == [])
    ensures Size(h[kind := row]) == Size(h) - |Values(h, kind)| + |row|
  {
  }

  /** A new row in the hand keeps the invariant when it brings no face above four. */
  lemma HandRow(s: Pais, kind: int, row: seq<int>)
    requires WellFormed(s) && (IsKind(kind) || row == [])
    requires forall v :: Count(row, v) + Count(Values(s.outHand, kind), v) <= 4
    ensures WellFormed(s.(hand := s.hand[kind := row]))
  {
    hide Count, Aligned;
  }

  /** So do a new hand row and a new row of melds together. */
  lemma BothRows(s: Pais, kind: int, row: seq<int>, melds: seq<int>)
    requires WellFormed(s) && IsKind(kind) && Aligned(melds)
    requires forall v :: Count(row, v) + Count(melds, v) <= 4
    ensures WellFormed(s.(hand := s.hand[kind := row], outHand := s.outHand[kind := melds]))
  {
    hide Count, Aligned;
    var out := s.outHand[kind := melds];
    var hand := s.hand[kind := row];
    forall k ensures Aligned(Values(out, k)) {
      assert k != kind ==> Values(out, k) == Values(s.outHand, k);
    }
    forall k, v ensures Count(Values(hand, k), v) + Count(Values(out, k), v) <= 4 {
      if k != kind {
        assert Values(out, k) == Values(s.outHand, k) && Values(hand, k) == Values(s.hand, k);
      }
    }
  }

  /** A whole new hand. */
  lemma NewHand(s: Pais, h: Hand)
    requires WellFormed(s) && Proper(h)
    requires forall k, v :: Count(Values(h, k), v) + Count(Values(s.outHand, k), v) <= 4
    ensures WellFormed(s.(hand := h)) && Weight(s.(hand := h)) == Weight(s) - Size(s.hand) + Size(h)
  {
    hide Count, Aligned, Values, Size;
  }

  /** Nothing but the hand and the melds matters to it. */
  lemma SameTiles(s: Pais, t: Pais)
    requires WellFormed(s) && t.hand == s.hand && t.outHand == s.outHand
    ensures WellFormed(t)
  {
  }

  function CardCount(cards: seq<Card>, c: Card): nat {
    if cards == [] then 0
    else CardCount(cards[..|cards| - 1], c) + if cards[|cards| - 1] == c then 1 else 0
  }

  /** The wall holds four of each face: a draw never brings a fifth. */
  ghost predicate Fits(s: Pais, cards: seq<Card>) {
    && (forall c <- cards :: IsKind(c.kind))
    && (forall c: Card :: Count(Values(s.hand, c.kind), c.value) + Count(Values(s.outHand, c.kind), c.value)
                          + CardCount(cards, c) <= 4)
  }

  lemma {:induction false} PushKeeps(s: Pais, cards: seq<Card>)
    requires WellFormed(s) && Fits(s, cards)
    ensures var h := PushAll(s.hand, cards);
            && Size(h) == Size(s.hand) + |cards| && Proper(h)
            && forall c: Card :: Count(Values(h, c.kind), c.value) == Count(Values(s.hand, c.kind), c.value) + CardCount(cards, c)
  {
    if cards != [] {
      var n := |cards| - 1;
      var last, g := cards[n], PushAll(s.hand, cards[..n]);
      assert last in cards;
      forall c: Card ensures CardCount(cards, c) == CardCount(cards[..n], c) + if last == c then 1 else 0 {
      }
      PushKeeps(s, cards[..n]);
      PushOne(g, last);
      hide Count, CardCount, Size, PushAll, Push;
      assert PushAll(s.hand, cards) == Push(g, last) by {
        PushLast(s.hand, cards);
      }
    }
  }

  lemma PushNone(h: Hand)
    ensures PushAll(h, []) == h
  {
  }

  lemma PushLast(h: Hand, cards: seq<Card>)
    requires cards != []
    ensures PushAll(h, cards) == Push(PushAll(h, cards[..|cards| - 1]), cards[|cards| - 1])
  {
  }

  lemma PushOne(h: Hand, last: Card)
    requires IsKind(last.kind)
    ensures var g := Push(h, last);
            && Size(g) == Size(h) + 1 && (Proper(h) ==> Proper(g))
            && forall c: Card :: Count(Values(g, c.kind), c.value) == Count(Values(h, c.kind), c.value) + if c == last then 1 else 0
  {
    var row, g := Values(h, last.kind), Push(h, last);
    SizeUpdate(h, last.kind, row + [last.value]);
    assert (row + [last.value])[..|row|] == row;
    forall c: Card ensures Count(Values(g, c.kind), c.value) == Count(Values(h, c.kind), c.value) + if c == last then 1 else 0 {
    }
  }

  lemma SortKeeps(h: Hand)
    ensures Size(SortHand(h)) == Size(h) && (Proper(h) ==> Proper(SortHand(h)))
    ensures forall k, v :: Count(Values(SortHand(h), k), v) == Count(Values(h, k), v)
  {
    forall k, v ensures Count(Values(SortHand(h), k), v) == Count(Values(h, k), v) {
      CountSort(Values(h, k), v);
    }
  }

  /** Drawing: the tiles are taken exactly when the count asks for a draw. */
  lemma DrawEffect(s: Pais, cards: seq<Card>, jinBao: bool)
    requires WellFormed(s) && Fits(s, cards)
    ensures var t := OnFaPai(s, cards, jinBao);
            && WellFormed(t)
            && Weight(t) == Weight(s) + if ShouldZhuaPai(s.hand) && !jinBao then |cards| else 0
  {
    hide Count, CardCount, Aligned, Size, PushAll, SortHand, Values, Proper, WellFormed, Weight, ShouldZhuaPai;
    if cards != [] && ShouldZhuaPai(s.hand) && !jinBao {
      var h := PushAll(s.hand, cards);
      PushKeeps(s, cards);
      SortKeeps(h);
      forall k, v ensures Count(Values(SortHand(h), k), v) + Count(Values(s.outHand, k), v) <= 4 {
        var c := Card(k, v);
        assert Count(Values(h, c.kind), c.value) == Count(Values(s.hand, c.kind), c.value) + CardCount(cards, c);
      }
      NewHand(s, SortHand(h));
    }
  }

  /** Discarding: one tile goes when the count asks for it and the tile is held. */
  lemma DiscardEffect(s: Pais, pai: Card)
    requires WellFormed(s)
    ensures var t := DaPai(s, pai);
            && WellFormed(t)
            && Weight(t) == Weight(s) - if ShouldDaPai(s.hand) && pai.value in Values(s.hand, pai.kind) then 1 else 0
  {
    if ShouldDaPai(s.hand) {
      var row := Values(s.hand, pai.kind);
      LessCounts(row, pai.value);
      LessHand(s, pai, pai.value in row);
    }
  }

  /** One tile less in the hand, or the same row written back. */
  lemma LessHand(s: Pais, pai: Card, take: bool)
    requires WellFormed(s) && (take ==> pai.value in Values(s.hand, pai.kind))
    ensures var row := Values(s.hand, pai.kind);
            var t := s.(hand := s.hand[pai.kind := if take then RemoveFirst(row, pai.value) else row]);
            WellFormed(t) && Size(t.hand) == Size(s.hand) - if take then 1 else 0
  {
    hide Count, RemoveFirst, IndexOf, Aligned, WellFormed;
    var row := Values(s.hand, pai.kind);
    var less := if take then RemoveFirst(row, pai.value) else row;
    LessCounts(row, pai.value);
    OtherKinds(s, pai.kind);
    SizeUpdate(s.hand, pai.kind, less);
    hide Size;
    forall v ensures Count(less, v) + Count(Values(s.outHand, pai.kind), v) <= 4 {
      FourAtMost(s, pai.kind, v);
    }
    HandRow(s, pai.kind, less);
  }

  lemma LessCounts(row: seq<int>, x: int)
    ensures forall v :: Count(RemoveFirst(row, x), v) == Count(row, v) - if x in row && v == x then 1 else 0
  {
    forall v ensures Count(RemoveFirst(row, x), v) == Count(row, v) - if x in row && v == x then 1 else 0 {
      if x in row {
        CountRemoveFirst(row, x, v);
      }
    }
  }

  /** The tile claimed is a fifth of its face to nobody: the player counts at most three of it. */
  ghost predicate Claimable(s: Pais, pai: Card) {
    Count(Values(s.hand, pai.kind), pai.value) + Count(Values(s.outHand, pai.kind), pai.value) <= 3
  }

  /** `CmdPaiOperate` lets a 吃 through only when both tiles are held. */
  predicate Held(s: Pais, a: Card, b: Card) {
    a.value in Values(s.hand, a.kind) && b.value in Values(s.hand, b.kind)
  }

  lemma CountThree(x: int, y: int, z: int, v: int)
    ensures Count([x, y, z], v) == (if v == x then 1 else 0) + Two([y, z], v)
  {
    var a, b, c := [x], [y], [z];
    assert a[..0] == [] && b[..0] == [] && c[..0] == [] && a + b + c == [x, y, z];
    CountParts(a, b, v);
    CountParts(a + b, c, v);
  }

  /** Three values that sort to a run are distinct, and the run holds exactly them. */
  lemma RunTriple(x: int, y: int, z: int)
    requires var c := SortValues([x, y, z]); c[1] - c[0] == 1 && c[2] - c[1] == 1
    ensures Triple(SortValues([x, y, z]), 0) && y != z
    ensures forall v :: Count(SortValues([x, y, z]), v) == (if v == x then 1 else 0) + Two([y, z], v)
  {
    hide Count, SortValues;
    var c := SortValues([x, y, z]);
    forall v ensures Count(c, v) == Count([x, y, z], v) {
      CountSort([x, y, z], v);
    }
    RunMeld(c, x, y, z);
  }

  lemma RunMeld(c: seq<int>, x: int, y: int, z: int)
    requires |c| == 3 && c[1] - c[0] == 1 && c[2] - c[1] == 1
    requires forall v :: Count(c, v) == Count([x, y, z], v)
    ensures Triple(c, 0) && y != z
    ensures forall v :: Count(c, v) == (if v == x then 1 else 0) + Two([y, z], v)
  {
    hide Count;
    forall v ensures Count(c, v) == (if v == x then 1 else 0) + Two([y, z], v) {
      CountThree(x, y, z, v);
    }
    assert c == [c[0], c[1], c[2]];
    CountThree(c[0], c[1], c[2], y);
  }

  /** Two different tiles taken out of a row. */
  lemma TakeTwo(row: seq<int>, a: int, b: int)
    requires a in row && b in row && a != b
    ensures b in RemoveFirst(row, a)
    ensures var r := RemoveFirst(RemoveFirst(row, a), b);
            |r| == |row| - 2 && forall v :: Count(r, v) == Count(row, v) - Two([a, b], v)
  {
    LessCounts(row, a);
    CountNone(row, b);
    CountNone(RemoveFirst(row, a), b);
    LessCounts(RemoveFirst(row, a), b);
    hide Count;
  }

  /** 吃: from 13 to 14 when the claim holds, otherwise nothing moves. */
  lemma ChiEffect(s: Pais, pai: Card, a: Card, b: Card, hui: Card, allowed: bool)
    requires WellFormed(s) && Claimable(s, pai) && Held(s, a, b)
    ensures var t := OnChiPai(s, pai, a, b, hui, allowed);
            && WellFormed(t)
            && (if Eating(s, pai, a, b, hui, allowed) then !ShouldDaPai(s.hand) && Weight(t) == Weight(s) + 1 else t == s)
  {
    var k := pai.kind;
    if Eating(s, pai, a, b, hui, allowed) {
      var meld, hand, out := SortValues([pai.value, a.value, b.value]), s.hand[k], Values(s.outHand, k);
      var row := RemoveFirst(hand, a.value);
      var row2 := RemoveFirst(row, b.value);
      RunTriple(pai.value, a.value, b.value);
      TakeTwo(hand, a.value, b.value);
      hide Count, SortValues, RemoveFirst, WellFormed, Triple, Aligned;
      MeldCounts(s, pai, row2, meld, [a.value, b.value]);
      AlignedAppend(out, meld) by {
        assert Aligned(Values(s.outHand, k)) by { AlignedRow(s, k); }
      }
      BothRows(s, k, row2, out + meld);
      SizeUpdate(s.hand, k, row2);
      SizeUpdate(s.outHand, k, out + meld);
    }
  }

  lemma FourAtMost(s: Pais, k: int, v: int)
    requires WellFormed(s)
    ensures Count(Values(s.hand, k), v) + Count(Values(s.outHand, k), v) <= 4
  {
  }

  lemma OtherKinds(s: Pais, k: int)
    requires WellFormed(s)
    ensures IsKind(k) || Values(s.hand, k) == []
  {
  }

  lemma AlignedRow(s: Pais, k: int)
    requires WellFormed(s)
    ensures Aligned(Values(s.outHand, k))
  {
  }

  /** A meld made of a claimed tile and two tiles from the hand keeps every face within four. */
  lemma MeldCounts(s: Pais, pai: Card, row: seq<int>, meld: seq<int>, from: seq<int>)
    requires WellFormed(s) && Claimable(s, pai) && |from| == 2
    requires forall v :: Count(meld, v) == (if v == pai.value then 1 else 0) + Two(from, v)
    requires forall v :: Count(row, v) == Count(Values(s.hand, pai.kind), v) - Two(from, v)
    ensures forall v :: Count(row, v) + Count(Values(s.outHand, pai.kind) + meld, v) <= 4
  {
    forall v ensures Count(row, v) + Count(Values(s.outHand, pai.kind) + meld, v) <= 4 {
      CountParts(Values(s.outHand, pai.kind), meld, v);
      assert Count(Values(s.hand, pai.kind), v) + Count(Values(s.outHand, pai.kind), v) <= 4;
      hide Count;
    }
  }

  function Two(from: seq<int>, v: int): nat
    requires |from| == 2
  {
    (if v == from[0] then 1 else 0) + (if v == from[1] then 1 else 0)
  }

  /** 碰: from 13 to 14 when the claim holds, otherwise nothing moves. */
  lemma PengEffect(s: Pais, pai: Card, allowed: bool)
    requires WellFormed(s) && Claimable(s, pai) && IsKind(pai.kind)
    ensures var t := OnPengPai(s, pai, allowed);
            && WellFormed(t)
            && (if CheckPengPai(s, pai, allowed) then !ShouldDaPai(s.hand) && Weight(t) == Weight(s) + 1 else t == s)
  {
    if CheckPengPai(s, pai, allowed) {
      var k, v := pai.kind, pai.value;
      var meld, hand, out := [v, v, v], s.hand[k], Values(s.outHand, k);
      hide Count, RemoveFirst, WellFormed, Aligned;
      var row := RemoveFirst(RemoveFirst(hand, v), v);
      TakeSame(hand, v);
      PongCounts(v);
      MeldCounts(s, pai, row, meld, [v, v]);
      AlignedRow(s, k);
      AlignedAppend(out, meld);
      BothRows(s, k, row, out + meld);
      SizeUpdate(s.hand, k, row);
      SizeUpdate(s.outHand, k, out + meld);
    }
  }

  /** Two equal tiles taken out of a row. */
  lemma TakeSame(row: seq<int>, a: int)
    requires Count(row, a) >= 2
    ensures var r := RemoveFirst(RemoveFirst(row, a), a);
            |r| == |row| - 2 && forall v :: Count(r, v) == Count(row, v) - Two([a, a], v)
  {
    hide Count, RemoveFirst;
    CountNone(row, a);
    LessCounts(row, a);
    CountNone(RemoveFirst(row, a), a);
    LessCounts(RemoveFirst(row, a), a);
  }

  lemma PongCounts(v: int)
    ensures forall w :: Count([v, v, v], w) == if w == v then 3 else 0
  {
    var one := [v];
    assert one[..0] == [] && one + one + one == [v, v, v];
    forall w ensures Count([v, v, v], w) == if w == v then 3 else 0 {
      CountParts(one, one, w);
      CountParts(one + one, one, w);
    }
  }

  /** The tiles of a kong that passed the test: all copies leave the hand, and three laid out leave
      with them exactly when there are three. */
  lemma TakeGangEffect(s: Pais, pai: Card, self: bool, r: GangRules)
    requires WellFormed(s) && KindHeld(s, pai, self) && CheckGangPai(s, pai, self, r)
    ensures var t, n := TakeGang(s, pai), Count(Values(s.hand, pai.kind), pai.value);
            var out := Count(Values(s.outHand, pai.kind), pai.value);
            && WellFormed(t)
            && Weight(t) == Weight(s) - n - (if out == 3 then 3 else 0)
            && (out == 3 ==> n <= 1) && (n == 1 ==> out == 3) && (n == 0 || n == 1 || n == 3 || n == 4) && (n == 4 ==> !r.closed)
  {
    var k, v := pai.kind, pai.value;
    var hand, out := Values(s.hand, k), Values(s.outHand, k);
    var row := RemoveAll(hand, v);
    assert Count(Values(s.hand, k), v) + Count(out, v) <= 4;
    if HasPong(out, v) {
      PongCount(out, v);
    }
    forall w ensures Count(row, w) == if w == v then 0 else Count(hand, w) {
      RemoveAllCounts(hand, v, w);
    }
    RemoveAllCounts(hand, v, v);
    SizeUpdate(s.hand, k, row);
    hide Count;
    forall w ensures Count(row, w) + Count(out, w) <= 4 {
      assert Count(Values(s.hand, k), w) + Count(Values(s.outHand, k), w) <= 4;
    }
    if Count(out, v) == 3 {
      var melds := RemoveAll(out, v);
      AlignedRow(s, k);
      PongIsOneMeld(out, v);
      forall w ensures Count(melds, w) <= Count(out, w) {
        RemoveAllCounts(out, v, w);
      }
      RemoveAllCounts(out, v, v);
      SizeUpdate(s.outHand, k, melds);
      hide WellFormed;
      BothRows(s, k, row, melds);
    } else {
      hide WellFormed;
      HandRow(s, k, row);
    }
  }

  lemma PongCount(row: seq<int>, v: int)
    requires HasPong(row, v)
    ensures Count(row, v) >= 3
  {
    var p := PongParts(row, v);
    var a, b := row[..p], row[p + 3..];
    hide *;
    CountParts(a + [v, v, v], b, v);
    CountParts(a, [v, v, v], v);
    PongCounts(v);
  }

  /** A kong gives a tile up, unless it claims a tile: its weight drops by one when the player lays
      down four of his own (one on a triplet, or four from the hand), and stays when three of his
      meet a fourth. */
  lemma GangEffect(s: Pais, pai: Card, paiSource: int, source: int, self: bool, r: GangRules)
    requires WellFormed(s) && KindHeld(s, pai, self)
    ensures var t, n := OnGangPai(s, pai, paiSource, source, self, r), Count(Values(s.hand, pai.kind), pai.value);
            && WellFormed(t)
            && (!CheckGangPai(s, pai, self, r) ==> t == s)
            && (CheckGangPai(s, pai, self, r) ==> Weight(t) == Weight(s) - if n == 1 || n == 4 then 1 else 0)
  {
    var n, out := Count(Values(s.hand, pai.kind), pai.value), Count(Values(s.outHand, pai.kind), pai.value);
    if CheckGangPai(s, pai, self, r) {
      TakeGangEffect(s, pai, self, r);
      SameTiles(TakeGang(s, pai), OnGangPai(s, pai, paiSource, source, self, r));
    }
  }

  /** A kong robbed and then given up, recorded with the player who laid it down, is the kong it would have been
      exactly when that player is the source it would have had: the one the client sent for three tiles of the
      hand, the one the server kept for three laid out. */
  lemma GivingUpRestores(s: Pais, pai: Card, owner: int, paiSource: int, source: int, self: bool, r: GangRules)
    requires WellFormed(s) && KindHeld(s, pai, self) && CheckGangPai(s, pai, self, r)
    ensures var n, out := Count(Values(s.hand, pai.kind), pai.value), Count(Values(s.outHand, pai.kind), pai.value);
            OnBeenQiangGangWithGivingUp(OnBeenQiangGang(s, pai, self, r), pai, owner)
              == OnGangPai(s, pai, paiSource, source, self, r)
            <==> (n == 3 && owner == paiSource) || (out == 3 && owner == source)
    ensures WellFormed(OnBeenQiangGang(s, pai, self, r))
  {
    hide WellFormed, CheckGangPai, Count, Size, RemoveAll;
    TakeGangEffect(s, pai, self, r);
    var n, out := Count(Values(s.hand, pai.kind), pai.value), Count(Values(s.outHand, pai.kind), pai.value);
    var kong, given := OnGangPai(s, pai, paiSource, source, self, r), TakeGang(s, pai);
    Recorded(s.minggang, if n == 3 then Some(Gang(pai, paiSource)) else None,
             if out == 3 then Some(Gang(pai, source)) else None, Gang(pai, owner));
    assert s.angang + [] == s.angang;
    assert n == 4 ==> |kong.angang| == |s.angang| + 1;
  }

  /** Which record equals the one given. */
  lemma Recorded(gangs: seq<Gang>, a: Option<Gang>, b: Option<Gang>, g: Gang)
    requires !(a.Some? && b.Some?)
    ensures var r := gangs + (if a.Some? then [a.value] else []) + (if b.Some? then [b.value] else []);
            gangs + [g] == r <==> a == Some(g) || b == Some(g)
  {
    var r := gangs + (if a.Some? then [a.value] else []) + (if b.Some? then [b.value] else []);
    if a.Some? || b.Some? {
      var x := if a.Some? then a.value else b.value;
      assert r == gangs + [x];
      assert (gangs + [g])[|gangs|] == g && (gangs + [x])[|gangs|] == x;
    } else {
      assert |r| == |gangs|;
    }
  }

  /** Three tiles of the hand and a discard of player 2, laid down by player 1, robbed and given up: the
      kong records player 1 as its source, not player 2. */
  lemma GivingUpForgetsFeeder()
    ensures var s := Pais(map[1 := [1, 1, 1, 2]], map[], ThreeKongs(), [], 0, 0, [], []);
            var r := GangRules(false, true, true, false, true);
            && InTurn(s) && ShouldZhuaPai(s.hand) && CheckGangPai(s, Card(1, 1), false, r)
            && OnGangPai(s, Card(1, 1), 2, 2, false, r).minggang == ThreeKongs() + [Gang(Card(1, 1), 2)]
            && OnBeenQiangGangWithGivingUp(OnBeenQiangGang(s, Card(1, 1), false, r), Card(1, 1), 1).minggang
               == ThreeKongs() + [Gang(Card(1, 1), 1)]
  {
    var three, one := [1, 1, 1], [2];
    var row := three + one;
    assert row == [1, 1, 1, 2];
    PongCounts(1);
    forall v ensures Count(row, v) == (if v == 1 then 3 else 0) + if v == 2 then 1 else 0 {
      CountParts(three, one, v);
      PongCounts(1);
      assert one[..0] == [];
    }
    OneRow(1, row);
    assert [] == Values(map[], 1) && Count([], 1) == 0;
    assert ThreeKongs() + [Gang(Card(1, 1), 2)] + [] == ThreeKongs() + [Gang(Card(1, 1), 2)];
    hide Count, WellFormed, ThreeKongs, RemoveAll;
  }

  lemma {:induction false} RemoveEachEffect(row: seq<int>, upTo: nat)
    requires forall v :: 1 <= v <= upTo ==> Count(row, v) >= 1
    ensures |RemoveEach(row, upTo)| == |row| - upTo
    ensures forall v :: Count(RemoveEach(row, upTo), v) == Count(row, v) - if 1 <= v <= upTo then 1 else 0
  {
    hide Count, RemoveFirst, IndexOf;
    if upTo > 0 {
      var less := RemoveEach(row, upTo - 1);
      RemoveEachEffect(row, upTo - 1);
      CountNone(less, upTo);
      LessCounts(less, upTo);
    }
  }

  /** The wind kong takes four tiles and counts as one kong: one tile less. */
  lemma FengEffect(s: Pais, allowed: bool)
    requires WellFormed(s)
    ensures var t := OnGangFengPai(s, allowed);
            WellFormed(t) && Weight(t) == Weight(s) - if CheckXuanFeng(s, CARD_TYPE_FENG, allowed) then 1 else 0
  {
    if CheckXuanFeng(s, CARD_TYPE_FENG, allowed) {
      XuanFengRow(s, CARD_TYPE_FENG, 4);
      SameTiles(s.(hand := s.hand[CARD_TYPE_FENG := RemoveEach(s.hand[CARD_TYPE_FENG], 4)]), OnGangFengPai(s, allowed));
    }
  }

  /** The dragon kong takes three tiles and counts as one kong: nothing to draw. */
  lemma JianEffect(s: Pais, allowed: bool)
    requires WellFormed(s)
    ensures var t := OnGangJianPai(s, allowed); WellFormed(t) && Weight(t) == Weight(s)
  {
    if CheckXuanFeng(s, CARD_TYPE_JIAN, allowed) {
      XuanFengRow(s, CARD_TYPE_JIAN, 3);
      SameTiles(s.(hand := s.hand[CARD_TYPE_JIAN := RemoveEach(s.hand[CARD_TYPE_JIAN], 3)]), OnGangJianPai(s, allowed));
    }
  }

  lemma XuanFengRow(s: Pais, kind: int, upTo: nat)
    requires WellFormed(s) && IsKind(kind) && kind in s.hand && HoldsAll(s.hand[kind], upTo)
    ensures var t := s.(hand := s.hand[kind := RemoveEach(s.hand[kind], upTo)]);
            WellFormed(t) && Size(t.hand) == Size(s.hand) - upTo
  {
    var row := RemoveEach(s.hand[kind], upTo);
    forall v | 1 <= v <= upTo ensures Count(s.hand[kind], v) >= 1 {
      CountNone(s.hand[kind], v);
    }
    RemoveEachEffect(s.hand[kind], upTo);
    SizeUpdate(s.hand, kind, row);
    hide Count;
    forall v ensures Count(row, v) + Count(Values(s.outHand, kind), v) <= 4 {
      assert Count(Values(s.hand, kind), v) + Count(Values(s.outHand, kind), v) <= 4;
    }
    HandRow(s, kind, row);
  }

  /** Adding to a wind or dragon kong: the tile leaves the hand and is not counted again. */
  lemma ZhuiFengEffect(s: Pais, oper: ZhuiFeng, pai: Card)
    requires WellFormed(s)
    ensures var t := OnGangZhuiFeng(s, oper, pai); WellFormed(t)
    ensures Weight(OnGangZhuiFeng(s, oper, pai)) == Weight(s) - if Adds(s, oper, pai) then 1 else 0
  {
    hide WellFormed, RemoveFirst, Size, Adds;
    var take := Adds(s, oper, pai);
    AddsHeld(s, oper, pai);
    LessHand(s, pai, take);
    var t0 := s.(hand := s.hand[pai.kind := if take then RemoveFirst(Values(s.hand, pai.kind), pai.value)
                                            else Values(s.hand, pai.kind)]);
    AddsOr(s, oper, pai);
    SameTiles(t0, OnGangZhuiFeng(s, oper, pai));
  }

  lemma AddsHeld(s: Pais, oper: ZhuiFeng, pai: Card)
    ensures Adds(s, oper, pai) ==> pai.value in Values(s.hand, pai.kind)
  {
  }

  lemma AddsOr(s: Pais, oper: ZhuiFeng, pai: Card)
    ensures var t := OnGangZhuiFeng(s, oper, pai);
            && t.hand == s.hand[pai.kind := if Adds(s, oper, pai) then RemoveFirst(Values(s.hand, pai.kind), pai.value)
                                            else Values(s.hand, pai.kind)]
            && t == s.(hand := t.hand, zhuiFeng := t.zhuiFeng, zhuiJian := t.zhuiJian)
  {
    hide RemoveFirst;
  }

  predicate Adds(s: Pais, oper: ZhuiFeng, pai: Card) {
    pai.value in Values(s.hand, pai.kind) && !(oper.Feng? && s.fenggang == 0) && !(oper.Jian? && s.jiangang == 0)
  }

  // ------------------------------------------------------- which tiles each operation moves

  /** The tests on the hand by its size: every third number, up to 13 to draw and up to 14 to discard. */
  lemma DueBySize(h: Hand)
    ensures |HandTiles(h)| == Size(h)
    ensures ShouldZhuaPai(h) <==> h == map[] || (|HandTiles(h)| <= 13 && |HandTiles(h)| % 3 == 1)
    ensures ShouldDaPai(h) <==> |HandTiles(h)| <= 14 && |HandTiles(h)| % 3 == 2
  {
    assert |HandTiles(h)| == Size(h) by {
      hide Row, Values;
      assert forall k :: |RowTiles(k, Values(h, k))| == |Values(h, k)|;
    }
    hide HandTiles, Size;
    SizeTests(Size(h));
  }

  lemma SizeTests(n: nat)
    ensures DrawNumber(n) <==> n <= 13 && n % 3 == 1
    ensures DiscardNumber(n) <==> n <= 14 && n % 3 == 2
  {
  }

  lemma TileCount(h: Hand, c: Card)
    requires IsKind(c.kind) || Values(h, c.kind) == []
    ensures HandTiles(h)[c] == Count(Values(h, c.kind), c.value)
    ensures c in HandTiles(h) <==> c.value in Values(h, c.kind)
  {
    hide HandTiles;
    HandCount(h, c);
    CountIsMultiplicity(Values(h, c.kind), c.value);
    CountNone(Values(h, c.kind), c.value);
  }

  /** Only the tiles of its kind change with a row. */
  lemma TileCountRow(h: Hand, kind: int, row: seq<int>, c: Card)
    requires IsKind(kind)
    ensures HandTiles(h[kind := row])[c] == if c.kind == kind then Count(row, c.value) else HandTiles(h)[c]
  {
    hide HandTiles, Count;
    HandCount(h[kind := row], c);
    HandCount(h, c);
    CountIsMultiplicity(row, c.value);
  }

  /** One tile taken out of the hand when it is there. */
  lemma TakeOneTile(h: Hand, pai: Card)
    requires Proper(h)
    ensures var g := h[pai.kind := RemoveFirst(Values(h, pai.kind), pai.value)];
            && Proper(g)
            && HandTiles(g) == if pai in HandTiles(h) then HandTiles(h) - multiset{pai} else HandTiles(h)
  {
    hide RemoveFirst, HandTiles, IndexOf, Count;
    ProperRow(h, pai.kind);
    TileCount(h, pai);
    hide Proper;
    if pai.value in Values(h, pai.kind) {
      HandRemove(h, pai);
    } else {
      NothingRemoved(Values(h, pai.kind), pai.value);
      RowWrittenBack(h, pai.kind);
    }
  }

  /** A row of a kind that is none holds nothing. */
  lemma ProperRow(h: Hand, kind: int)
    requires Proper(h)
    ensures IsKind(kind) || Values(h, kind) == []
    ensures forall x :: Proper(h[kind := RemoveFirst(Values(h, kind), x)])
  {
  }

  lemma NothingRemoved(row: seq<int>, x: int)
    requires x !in row
    ensures RemoveFirst(row, x) == row
  {
  }

  lemma RowWrittenBack(h: Hand, kind: int)
    ensures HandTiles(h[kind := Values(h, kind)]) == HandTiles(h)
  {
    var g := h[kind := Values(h, kind)];
    assert forall k :: Values(g, k) == Values(h, k);
    hide Values, RowTiles;
  }

  /** A discard: the tile named leaves when a discard is due and it is held, otherwise nothing does. */
  lemma DiscardTiles(s: Pais, pai: Card)
    requires Proper(s.hand)
    ensures var held, t := HandTiles(s.hand), DaPai(s, pai);
            && t == s.(hand := t.hand)
            && HandTiles(t.hand) == if |held| <= 14 && |held| % 3 == 2 && pai in held then held - multiset{pai} else held
  {
    DueBySize(s.hand);
    TakeOneTile(s.hand, pai);
    hide RemoveFirst, HandTiles, Values;
  }

  /** 听: the tile named leaves when it is held and may. */
  lemma TingTiles(s: Pais, pai: Card, canTing: bool)
    requires Proper(s.hand)
    ensures var held, t := HandTiles(s.hand), TingPai(s, pai, canTing);
            && t == s.(hand := t.hand)
            && HandTiles(t.hand) == if canTing && pai in held then held - multiset{pai} else held
  {
    TakeOneTile(s.hand, pai);
    RowWrittenBack(s.hand, pai.kind);
    TileCount(s.hand, pai);
    hide RemoveFirst, HandTiles, Values;
  }

  // draws

  lemma {:induction false} PushTiles(h: Hand, cards: seq<Card>)
    requires forall c <- cards :: IsKind(c.kind)
    ensures HandTiles(PushAll(h, cards)) == HandTiles(h) + multiset(cards)
  {
    if cards != [] {
      var n := |cards| - 1;
      assert cards[n] in cards && cards == cards[..n] + [cards[n]];
      PushTiles(h, cards[..n]);
      HandDraw(PushAll(h, cards[..n]), cards[n]);
      hide HandTiles, Values;
    }
  }

  lemma SortedRows(h: Hand)
    ensures HandTiles(SortHand(h)) == HandTiles(h)
    ensures forall k :: Ascending(Values(SortHand(h), k))
  {
    SortKeepsTiles(h);
  }

  /** A draw: the cards join the hand, each kind in order, exactly when the hand has to draw and did not win
      with the bonus tile; otherwise nothing changes. */
  lemma DrawTiles(s: Pais, cards: seq<Card>, jinBao: bool)
    requires forall c <- cards :: IsKind(c.kind)
    ensures var held, t := HandTiles(s.hand), OnFaPai(s, cards, jinBao);
            if cards != [] && !jinBao && (s.hand == map[] || (|held| <= 13 && |held| % 3 == 1)) then
              && t == s.(hand := t.hand)
              && HandTiles(t.hand) == held + multiset(cards) && (forall k :: Ascending(Values(t.hand, k)))
            else t == s
  {
    DueBySize(s.hand);
    PushTiles(s.hand, cards);
    SortedRows(PushAll(s.hand, cards));
    hide HandTiles, Values, PushAll, SortHand;
  }

  /** A tile shared out joins the hand whatever it holds. */
  lemma SharedTile(s: Pais, card: Card)
    requires IsKind(card.kind)
    ensures var t := OnFenZhang(s, card);
            && t == s.(hand := t.hand)
            && HandTiles(t.hand) == HandTiles(s.hand) + multiset{card} && (forall k :: Ascending(Values(t.hand, k)))
  {
    HandDraw(s.hand, card);
    SortedRows(Push(s.hand, card));
    hide HandTiles, Values, SortHand;
  }

  // 吃 and 碰

  /** The two tiles that complete the run from `start` with this one are held, and neither is wild. */
  ghost predicate Completes(held: multiset<Card>, pai: Card, hui: Card, start: int) {
    && start <= pai.value <= start + 2
    && forall w :: start <= w <= start + 2 && w != pai.value ==> Card(pai.kind, w) in held && Card(pai.kind, w) != hui
  }

  ghost predicate ThreeInRow(x: int, y: int, z: int, start: int) {
    multiset{x, y, z} == multiset{start, start + 1, start + 2}
  }

  /** A tile can be eaten when no discard is due and it completes a run, of its suit, with two tiles held. */
  lemma ChiTest(s: Pais, pai: Card, hui: Card, allowed: bool)
    ensures var held := HandTiles(s.hand);
            CheckChiPai(s, pai, hui, allowed)
            <==> allowed && !(|held| <= 14 && |held| % 3 == 2) && 1 <= pai.kind <= 3
                 && exists start :: Completes(held, pai, hui, start)
  {
    DueBySize(s.hand);
    hide HandTiles, Size;
    var held, v := HandTiles(s.hand), pai.value;
    if 1 <= pai.kind <= 3 {
      forall w ensures Card(pai.kind, w) in held <==> w in Values(s.hand, pai.kind) {
        TileCount(s.hand, Card(pai.kind, w));
      }
      var row := Values(s.hand, pai.kind);
      assert Completes(held, pai, hui, v - 2) <==> Eats(row, pai, -1, -2, hui);
      assert Completes(held, pai, hui, v) <==> Eats(row, pai, 1, 2, hui);
      assert Completes(held, pai, hui, v - 1) <==> Eats(row, pai, -1, 1, hui);
    }
  }

  /** Three values sort to a run exactly when they are three in a row, in any order. */
  lemma RunTest(x: int, y: int, z: int)
    ensures var c := SortValues([x, y, z]);
            && |c| == 3
            && (c[1] - c[0] == 1 && c[2] - c[1] == 1 <==> exists start :: ThreeInRow(x, y, z, start))
            && (forall start :: ThreeInRow(x, y, z, start) ==> c == [start, start + 1, start + 2])
  {
    hide SortValues, Ascending;
    var c := SortValues([x, y, z]);
    assert multiset(c) == multiset{x, y, z};
    BagOfThree(c);
    if c[1] - c[0] == 1 && c[2] - c[1] == 1 {
      assert ThreeInRow(x, y, z, c[0]);
    }
    forall start | ThreeInRow(x, y, z, start) ensures c == [start, start + 1, start + 2] {
      SameRun(c, start);
    }
  }

  lemma BagOfThree(c: seq<int>)
    requires |c| == 3
    ensures multiset(c) == multiset{c[0], c[1], c[2]}
  {
    assert c == [c[0], c[1], c[2]];
  }

  lemma SameRun(c: seq<int>, start: int)
    requires |c| == 3 && Ascending(c) && multiset(c) == multiset{start, start + 1, start + 2}
    ensures c == [start, start + 1, start + 2]
  {
    assert c == [c[0], c[1], c[2]] && multiset(c) == multiset{c[0], c[1], c[2]};
    var m := multiset(c);
    assert m[start] == 1 && m[start + 1] == 1 && m[start + 2] == 1;
    assert c[0] in m && c[1] in m && c[2] in m;
  }

  /** 吃: it goes through when the tile can be eaten and the two named, not wild, make a run with it; they
      leave the hand and the run is laid out. The second one missing, the first is gone all the same. */
  lemma ChiTiles(s: Pais, pai: Card, a: Card, b: Card, hui: Card, allowed: bool)
    requires Proper(s.hand)
    ensures var held, t, k := HandTiles(s.hand), OnChiPai(s, pai, a, b, hui, allowed), pai.kind;
            var due := |held| <= 14 && |held| % 3 == 2;
            if allowed && !due && 1 <= k <= 3 && (exists start :: Completes(held, pai, hui, start))
               && a.kind == k && b.kind == k && a != hui && b != hui && a in held
               && (exists start :: ThreeInRow(pai.value, a.value, b.value, start)) then
              && t == s.(hand := t.hand, outHand := t.outHand)
              && HandTiles(t.hand) == held - multiset{a} - multiset{b}
              && (b !in held ==> t.outHand == s.outHand)
              && (b in held ==> forall start :: ThreeInRow(pai.value, a.value, b.value, start) ==>
                    t.outHand == s.outHand[k := Values(s.outHand, k) + [start, start + 1, start + 2]])
            else t == s
  {
    EatingTest(s, pai, a, b, hui, allowed);
    hide *;
    if Eating(s, pai, a, b, hui, allowed) {
      DifferentTiles(pai.value, a.value, b.value);
      TwoLeft(HandTiles(s.hand), a, b);
      ChiMoves(s, pai, a, b, hui, allowed);
    } else {
      ChiRefused(s, pai, a, b, hui, allowed);
    }
  }

  lemma ChiRefused(s: Pais, pai: Card, a: Card, b: Card, hui: Card, allowed: bool)
    requires !Eating(s, pai, a, b, hui, allowed)
    ensures OnChiPai(s, pai, a, b, hui, allowed) == s
  {
  }

  lemma EatingTest(s: Pais, pai: Card, a: Card, b: Card, hui: Card, allowed: bool)
    requires Proper(s.hand)
    ensures var held, k := HandTiles(s.hand), pai.kind;
            Eating(s, pai, a, b, hui, allowed)
            <==> allowed && !(|held| <= 14 && |held| % 3 == 2) && 1 <= k <= 3 && (exists start :: Completes(held, pai, hui, start))
                 && a.kind == k && b.kind == k && a != hui && b != hui && a in held
                 && exists start :: ThreeInRow(pai.value, a.value, b.value, start)
  {
    hide HandTiles, SortValues, ThreeInRow, Completes, Size, Eats, Proper, Count, CheckChiPai;
    ChiTest(s, pai, hui, allowed);
    RunTest(pai.value, a.value, b.value);
    ProperRow(s.hand, a.kind);
    TileCount(s.hand, a);
    if CheckChiPai(s, pai, hui, allowed) {
      ChiKind(s, pai, hui, allowed);
    }
  }

  lemma ChiMoves(s: Pais, pai: Card, a: Card, b: Card, hui: Card, allowed: bool)
    requires Proper(s.hand) && Eating(s, pai, a, b, hui, allowed) && a != b
    ensures var held, t, k := HandTiles(s.hand), OnChiPai(s, pai, a, b, hui, allowed), pai.kind;
            && t == s.(hand := t.hand, outHand := t.outHand)
            && (b in held - multiset{a} ==> HandTiles(t.hand) == held - multiset{a} - multiset{b})
            && (b !in held - multiset{a} ==> HandTiles(t.hand) == held - multiset{a} && t.outHand == s.outHand)
            && (b in held - multiset{a} ==> forall start :: ThreeInRow(pai.value, a.value, b.value, start) ==>
                  t.outHand == s.outHand[k := Values(s.outHand, k) + [start, start + 1, start + 2]])
  {
    hide HandTiles, SortValues, ThreeInRow, CheckChiPai, RemoveFirst, Proper;
    RunTest(pai.value, a.value, b.value);
    ChiKind(s, pai, hui, allowed);
    TakeOneTile(s.hand, a);
    SecondTile(s.hand, a, b);
    if b in HandTiles(s.hand) - multiset{a} {
      TakeTwoTiles(s.hand, a, b);
    }
  }

  /** Whether the second tile is still there. */
  lemma SecondTile(h: Hand, a: Card, b: Card)
    requires Proper(h) && a.kind == b.kind && a.value in Values(h, a.kind)
    ensures a in HandTiles(h)
    ensures b.value in RemoveFirst(Values(h, a.kind), a.value) <==> b in HandTiles(h) - multiset{a}
  {
    hide HandTiles, RemoveFirst, Count;
    var g := h[a.kind := RemoveFirst(Values(h, a.kind), a.value)];
    ProperRow(h, a.kind);
    TileCount(h, a);
    TakeOneTile(h, a);
    ProperRow(g, a.kind);
    TileCount(g, b);
  }

  lemma RowWritten(h: Hand, kind: int, row: seq<int>)
    ensures Values(h[kind := row], kind) == row
  {
  }

  /** Two tiles of one kind taken one after the other. */
  lemma TakeTwoTiles(h: Hand, a: Card, b: Card)
    requires Proper(h) && a.kind == b.kind && a in HandTiles(h) && b in HandTiles(h) - multiset{a}
    ensures HandTiles(h[a.kind := RemoveFirst(RemoveFirst(Values(h, a.kind), a.value), b.value)])
            == HandTiles(h) - multiset{a} - multiset{b}
  {
    hide *;
    var k := a.kind;
    var row := RemoveFirst(Values(h, k), a.value);
    var g := h[k := row];
    TakeOneTile(h, a);
    TakeOneTile(g, b);
    RowWritten(h, k, row);
    assert g[k := RemoveFirst(row, b.value)] == h[k := RemoveFirst(row, b.value)];
  }

  lemma TwoLeft(held: multiset<Card>, a: Card, b: Card)
    requires a != b
    ensures b in held - multiset{a} <==> b in held
    ensures b !in held ==> held - multiset{a} - multiset{b} == held - multiset{a}
  {
  }

  lemma DifferentTiles(x: int, y: int, z: int)
    requires exists start :: ThreeInRow(x, y, z, start)
    ensures y != z
  {
    var start :| ThreeInRow(x, y, z, start);
    assert multiset{x, y, z}[y] == multiset{start, start + 1, start + 2}[y] <= 1;
  }

  /** 碰: with two of the tile held and no discard due, two leave the hand and three are laid out. */
  lemma PengTiles(s: Pais, pai: Card, allowed: bool)
    requires Proper(s.hand)
    ensures var held, t, k, v := HandTiles(s.hand), OnPengPai(s, pai, allowed), pai.kind, pai.value;
            if allowed && !(|held| <= 14 && |held| % 3 == 2) && held[pai] >= 2 then
              && CheckPengPai(s, pai, allowed) && t == s.(hand := t.hand, outHand := t.outHand)
              && HandTiles(t.hand) == held - multiset{pai, pai}
              && t.outHand == s.outHand[k := Values(s.outHand, k) + [v, v, v]]
            else !CheckPengPai(s, pai, allowed) && t == s
  {
    DueBySize(s.hand);
    ProperRow(s.hand, pai.kind);
    TileCount(s.hand, pai);
    hide HandTiles, RemoveFirst, Count, Size, Proper, ShouldDaPai;
    if CheckPengPai(s, pai, allowed) {
      var held := HandTiles(s.hand);
      assert pai in held - multiset{pai} && held - multiset{pai} - multiset{pai} == held - multiset{pai, pai};
      TakeTwoTiles(s.hand, pai, pai);
    }
  }

  // kongs

  /** The first `value` of a row is followed by two more. */
  ghost predicate PongAt(row: seq<int>, value: int, p: nat) {
    p + 2 < |row| && value !in row[..p] && row[p] == row[p + 1] == row[p + 2] == value
  }

  lemma PongTest(row: seq<int>, value: int)
    ensures HasPong(row, value) <==> exists p: nat :: PongAt(row, value, p)
  {
    if HasPong(row, value) {
      assert PongAt(row, value, IndexOf(row, value));
    }
    if p: nat :| PongAt(row, value, p) {
      FirstIsThere(row, value, p);
    }
  }

  lemma FirstIsThere(row: seq<int>, value: int, p: nat)
    requires p < |row| && row[p] == value && value !in row[..p]
    ensures IndexOf(row, value) == p
  {
    var q := IndexOf(row, value);
    forall i | 0 <= i < q ensures row[i] != value {
      assert row[..q][i] == row[i];
    }
    forall i | 0 <= i < p ensures row[i] != value {
      assert row[..p][i] == row[i];
    }
  }

  /** A kong is allowed of three in the hand, of four where the room lets a closed kong through, which 建平's
      closed hand then forbids, and else of the triplet laid out, for one in the hand or a player's own claim. */
  lemma KongTest(s: Pais, pai: Card, self: bool, r: GangRules)
    requires KindHeld(s, pai, self)
    ensures var n, out := HandTiles(s.hand)[pai], Values(s.outHand, pai.kind);
            CheckGangPai(s, pai, self, r)
            <==> !r.banned && r.mingPiao && r.keepsTing
                 && if n == 3 then true else if n == 4 && r.anGangPiao then !r.closed
                    else (self || n == 1) && |out| % 3 == 0 && exists p: nat :: PongAt(out, pai.value, p)
  {
    TileCount(s.hand, pai);
    PongTest(Values(s.outHand, pai.kind), pai.value);
    hide HandTiles, HasPong, Count;
  }

  /** All copies of a face taken out of a row of the hand, and no other tile. */
  lemma AllCopiesGone(h: Hand, pai: Card)
    requires IsKind(pai.kind)
    ensures HandTiles(h[pai.kind := RemoveAll(Values(h, pai.kind), pai.value)]) == HandTiles(h)[pai := 0]
  {
    var row := Values(h, pai.kind);
    var less := RemoveAll(row, pai.value);
    hide HandTiles, Values;
    var g := h[pai.kind := less];
    forall c ensures HandTiles(g)[c] == if c == pai then 0 else HandTiles(h)[c] {
      TileCountRow(h, pai.kind, less, c);
      RemoveAllCounts(row, pai.value, c.value);
      if c.kind == pai.kind {
        TileCount(h, c);
      }
    }
  }

  /** A kong of the tiles held: every copy leaves the hand, and the table when three are laid out there, and
      nothing else does. It is recorded as open for three held, with the source the client named, and for three
      laid out, with the source the server kept; and as closed for four held. */
  lemma KongTiles(s: Pais, pai: Card, paiSource: int, source: int, self: bool, r: GangRules)
    requires KindHeld(s, pai, self)
    ensures var n, m := HandTiles(s.hand)[pai], HandTiles(s.outHand)[pai];
            var t := OnGangPai(s, pai, paiSource, source, self, r);
            if CheckGangPai(s, pai, self, r) && !(n == 4 && r.closed) then
              && HandTiles(t.hand) == HandTiles(s.hand)[pai := 0]
              && HandTiles(t.outHand) == (if m == 3 then HandTiles(s.outHand)[pai := 0] else HandTiles(s.outHand))
              && t.minggang == s.minggang + (if n == 3 then [Gang(pai, paiSource)] else []) + (if m == 3 then [Gang(pai, source)] else [])
              && t.angang == s.angang + (if n == 4 then [Gang(pai, paiSource)] else [])
              && t == s.(hand := t.hand, outHand := t.outHand, minggang := t.minggang, angang := t.angang)
            else t == s
  {
    TileCount(s.hand, pai);
    TileCount(s.outHand, pai);
    AllCopiesGone(s.hand, pai);
    AllCopiesGone(s.outHand, pai);
    hide HandTiles, CheckGangPai, Count, RemoveAll;
  }

  /** A kong being robbed takes the same tiles and records nothing; given up, it is recorded as open. */
  lemma RobbedTiles(s: Pais, pai: Card, source: int, self: bool, r: GangRules)
    requires KindHeld(s, pai, self)
    ensures var t := OnBeenQiangGang(s, pai, self, r);
            if CheckGangPai(s, pai, self, r) then
              && HandTiles(t.hand) == HandTiles(s.hand)[pai := 0]
              && HandTiles(t.outHand)
                 == (if HandTiles(s.outHand)[pai] == 3 then HandTiles(s.outHand)[pai := 0] else HandTiles(s.outHand))
              && t == s.(hand := t.hand, outHand := t.outHand)
            else t == s
    ensures var t := OnBeenQiangGangWithGivingUp(s, pai, source);
            && |t.minggang| == |s.minggang| + 1 && t.minggang[|s.minggang|] == Gang(pai, source)
            && t.minggang[..|s.minggang|] == s.minggang && t == s.(minggang := t.minggang)
  {
    TileCount(s.outHand, pai);
    AllCopiesGone(s.hand, pai);
    AllCopiesGone(s.outHand, pai);
    hide HandTiles, CheckGangPai, Count, RemoveAll;
  }

  /** One of each value up to the last leaves the hand. */
  lemma EachGone(h: Hand, kind: int, row: seq<int>, last: nat, less: seq<int>, c: Card)
    requires IsKind(kind) && Values(h, kind) == row && HoldsAll(row, last) && less == RemoveEach(row, last)
    ensures HandTiles(h[kind := less])[c] + (if c.kind == kind && 1 <= c.value <= last then 1 else 0) == HandTiles(h)[c]
  {
    hide *;
    TileCountRow(h, kind, less, c);
    if c.kind == kind {
      TileCount(h, c);
      EachHeld(row, last);
      RemoveEachEffect(row, last);
    }
  }

  lemma EachHeld(row: seq<int>, last: nat)
    requires HoldsAll(row, last)
    ensures forall v :: 1 <= v <= last ==> Count(row, v) >= 1
  {
    forall v | 1 <= v <= last ensures Count(row, v) >= 1 {
      CountNone(row, v);
    }
  }

  /** The wind kong: with one of each wind held and the room allowing it, those four leave the hand and the
      wind kongs are one more. */
  lemma WindKongTiles(s: Pais, allowed: bool)
    ensures var held, t := HandTiles(s.hand), OnGangFengPai(s, allowed);
            if allowed && Card(4, 1) in held && Card(4, 2) in held && Card(4, 3) in held && Card(4, 4) in held then
              && HandTiles(t.hand) == held - multiset{Card(4, 1), Card(4, 2), Card(4, 3), Card(4, 4)}
              && t == s.(hand := t.hand, fenggang := s.fenggang + 1)
            else t == s
  {
    hide HandTiles, RemoveEach;
    forall v ensures Card(4, v) in HandTiles(s.hand) <==> v in Values(s.hand, 4) {
      TileCount(s.hand, Card(4, v));
    }
    assert 4 in s.hand && HoldsAll(s.hand[4], 4) <==> 1 in Values(s.hand, 4) && 2 in Values(s.hand, 4) && 3 in Values(s.hand, 4) && 4 in Values(s.hand, 4);
    if CheckXuanFeng(s, CARD_TYPE_FENG, allowed) {
      var t, winds := OnGangFengPai(s, allowed), multiset{Card(4, 1), Card(4, 2), Card(4, 3), Card(4, 4)};
      forall c ensures HandTiles(t.hand)[c] == (HandTiles(s.hand) - winds)[c] {
        EachGone(s.hand, 4, s.hand[4], 4, t.hand[4], c);
        assert winds[c] == if c.kind == 4 && 1 <= c.value <= 4 then 1 else 0;
      }
    }
  }

  /** The dragon kong: likewise the three dragons and the dragon kongs. */
  lemma DragonKongTiles(s: Pais, allowed: bool)
    ensures var held, t := HandTiles(s.hand), OnGangJianPai(s, allowed);
            if allowed && Card(5, 1) in held && Card(5, 2) in held && Card(5, 3) in held then
              && HandTiles(t.hand) == held - multiset{Card(5, 1), Card(5, 2), Card(5, 3)}
              && t == s.(hand := t.hand, jiangang := s.jiangang + 1)
            else t == s
  {
    hide HandTiles, RemoveEach;
    forall v ensures Card(5, v) in HandTiles(s.hand) <==> v in Values(s.hand, 5) {
      TileCount(s.hand, Card(5, v));
    }
    assert 5 in s.hand && HoldsAll(s.hand[5], 3) <==> 1 in Values(s.hand, 5) && 2 in Values(s.hand, 5) && 3 in Values(s.hand, 5);
    if CheckXuanFeng(s, CARD_TYPE_JIAN, allowed) {
      var t, dragons := OnGangJianPai(s, allowed), multiset{Card(5, 1), Card(5, 2), Card(5, 3)};
      forall c ensures HandTiles(t.hand)[c] == (HandTiles(s.hand) - dragons)[c] {
        EachGone(s.hand, 5, s.hand[5], 3, t.hand[5], c);
        assert dragons[c] == if c.kind == 5 && 1 <= c.value <= 3 then 1 else 0;
      }
    }
  }

  /** A tile added to a wind or dragon kong leaves the hand and joins the tiles of that kong. It is refused
      when it is not held or there is no such kong; the room's own test asks for a kong and any tile of its kind. */
  lemma AddedTiles(s: Pais, oper: ZhuiFeng, pai: Card, allowed: bool)
    requires Proper(s.hand)
    ensures var held, t := HandTiles(s.hand), OnGangZhuiFeng(s, oper, pai);
            var adds := pai in held && (oper.Feng? ==> s.fenggang > 0) && (oper.Jian? ==> s.jiangang > 0);
            && t == s.(hand := t.hand, zhuiFeng := t.zhuiFeng, zhuiJian := t.zhuiJian)
            && HandTiles(t.hand) == (if adds then held - multiset{pai} else held)
            && t.zhuiFeng == s.zhuiFeng + (if adds && oper.Feng? then [pai] else [])
            && t.zhuiJian == s.zhuiJian + (if adds && oper.Jian? then [pai] else [])
    ensures CheckZhuiFengGang(s, allowed)
            <==> allowed && exists c :: c in HandTiles(s.hand) && ((c.kind == 4 && s.fenggang > 0) || (c.kind == 5 && s.jiangang > 0))
  {
    hide HandTiles, RemoveFirst, Values, Count;
    ProperRow(s.hand, pai.kind);
    TileCount(s.hand, pai);
    TakeOneTile(s.hand, pai);
    RowWrittenBack(s.hand, pai.kind);
    AddTest(s, allowed);
    hide Proper, CheckZhuiFengGang;
    assert s.zhuiFeng + [] == s.zhuiFeng && s.zhuiJian + [] == s.zhuiJian;
  }

  lemma AddTest(s: Pais, allowed: bool)
    ensures CheckZhuiFengGang(s, allowed)
            <==> allowed && exists c :: c in HandTiles(s.hand) && ((c.kind == 4 && s.fenggang > 0) || (c.kind == 5 && s.jiangang > 0))
  {
    hide HandTiles, Values;
    HoldsKind(s.hand, 4);
    HoldsKind(s.hand, 5);
  }

  lemma HoldsKind(h: Hand, kind: int)
    requires IsKind(kind)
    ensures Values(h, kind) != [] <==> exists c :: c in HandTiles(h) && c.kind == kind
  {
    hide HandTiles;
    if Values(h, kind) != [] {
      TileCount(h, Card(kind, Values(h, kind)[0]));
    }
    if c :| c in HandTiles(h) && c.kind == kind {
      TileCount(h, c);
    }
  }

  // ---------------------------------------------------------------------- the turn machine

  /** A player during a game; `robbed` while a kong of his waits for a robber's decision. */
  datatype Turn = Turn(pais: Pais, robbed: bool)

  /** The steps of `Game::OnPaiOperate` on one player's tiles.  `tail` is what `TailPai(1)` gave,
      `front` what `FaPai(1)` gave, `jinBao` whether looking at the bonus tile won instead. */
  datatype Step =
    | Draw(front: seq<Card>, jinBao: bool)
    | Discard(pai: Card)
    | Ting(pai: Card, canTing: bool)
    | Chi(pai: Card, a: Card, b: Card, hui: Card, allowed: bool)
    | Peng(pai: Card, allowed: bool)
    | Kong(pai: Card, paiSource: int, source: int, self: bool, rules: GangRules, tail: seq<Card>, jinBao: bool)
    | Robbed(pai: Card, self: bool, rules: GangRules)
    | GiveUp(pai: Card, source: int, tail: seq<Card>, jinBao: bool)
    | FengKong(allowed: bool, tail: seq<Card>, jinBao: bool)
    | JianKong(allowed: bool)
    | ZhuiKong(oper: ZhuiFeng, pai: Card, allowed: bool, tail: seq<Card>, jinBao: bool)
    | FenZhang(card: Card)

  /** A hand going ready gives a tile up without asking for the count; `canTing` is what `CanTingPai` says. */
  function TingPai(s: Pais, pai: Card, canTing: bool): Pais {
    var row := Values(s.hand, pai.kind);
    if pai.value !in row || !canTing then s.(hand := s.hand[pai.kind := row])
    else s.(hand := s.hand[pai.kind := RemoveFirst(row, pai.value)])
  }

  function Apply(t: Turn, step: Step): Turn
    requires step.Kong? || step.Robbed? ==> KindHeld(t.pais, step.pai, step.self)
  {
    var s := t.pais;
    match step
    case Draw(front, jinBao) => Turn(OnFaPai(s, front, jinBao), t.robbed)
    case Discard(pai) => Turn(DaPai(s, pai), t.robbed)
    case Ting(pai, canTing) => Turn(TingPai(s, pai, canTing), t.robbed)
    case Chi(pai, a, b, hui, allowed) => Turn(OnChiPai(s, pai, a, b, hui, allowed), t.robbed)
    case Peng(pai, allowed) => Turn(OnPengPai(s, pai, allowed), t.robbed)
    case Kong(pai, paiSource, source, self, rules, tail, jinBao) =>
      if !CheckGangPai(s, pai, self, rules) then t
      else Turn(OnFaPai(OnGangPai(s, pai, paiSource, source, self, rules), tail, jinBao), t.robbed)
    case Robbed(pai, self, rules) =>
      if !CheckGangPai(s, pai, self, rules) then t else Turn(OnBeenQiangGang(s, pai, self, rules), true)
    case GiveUp(pai, source, tail, jinBao) =>
      Turn(OnFaPai(OnBeenQiangGangWithGivingUp(s, pai, source), tail, jinBao), false)
    case FengKong(allowed, tail, jinBao) =>
      if !CheckXuanFeng(s, CARD_TYPE_FENG, allowed) then t
      else Turn(OnFaPai(OnGangFengPai(s, allowed), tail, jinBao), t.robbed)
    case JianKong(allowed) => Turn(OnGangJianPai(s, allowed), t.robbed)
    case ZhuiKong(oper, pai, allowed, tail, jinBao) =>
      if !CheckZhuiFengGang(s, allowed) then t
      else Turn(OnFaPai(OnGangZhuiFeng(s, oper, pai), tail, jinBao), t.robbed)
    case FenZhang(card) => Turn(OnFenZhang(s, card), t.robbed)
  }

  /** What is assumed of the tiles: no step brings a player a fifth tile of a face, two tiles eaten with
      are held, and a draw is of one tile at most.  Nothing is assumed of the order of the steps. */
  ghost predicate Possible(t: Turn, step: Step) {
    var s := t.pais;
    match step
    case Draw(front, jinBao) => |front| <= 1 && Fits(s, front)
    case Discard(pai) => true
    case Ting(pai, canTing) => true
    case Chi(pai, a, b, hui, allowed) => Claimable(s, pai) && Held(s, a, b)
    case Peng(pai, allowed) => Claimable(s, pai) && IsKind(pai.kind)
    case Kong(pai, paiSource, source, self, rules, tail, jinBao) =>
      KindHeld(s, pai, self) && |tail| <= 1 && Fits(OnGangPai(s, pai, paiSource, source, self, rules), tail)
    case Robbed(pai, self, rules) => KindHeld(s, pai, self)
    case GiveUp(pai, source, tail, jinBao) => |tail| <= 1 && Fits(s, tail)
    case FengKong(allowed, tail, jinBao) => |tail| <= 1 && Fits(OnGangFengPai(s, allowed), tail)
    case JianKong(allowed) => true
    case ZhuiKong(oper, pai, allowed, tail, jinBao) => |tail| <= 1 && Fits(OnGangZhuiFeng(s, oper, pai), tail)
    case FenZhang(card) => Fits(s, [card])
  }

  /** A player lays down four tiles of his own for this kong. */
  predicate OwnKong(s: Pais, pai: Card) {
    var n := Count(Values(s.hand, pai.kind), pai.value); n == 1 || n == 4
  }

  /** A robbed kong takes three tiles more than a draw will give back: four of a player's own when he has
      to discard, three and the claimed one when he has to draw; claimed with none held, the three laid out. */
  predicate RobbedOnTurn(s: Pais, pai: Card) {
    if pai.value !in Values(s.hand, pai.kind) then
      Count(Values(s.outHand, pai.kind), pai.value) == 3 && !ShouldDaPai(s.hand)
    else
      OwnKong(s, pai) <==> ShouldDaPai(s.hand)
  }

  /** No tile is held, and not three are laid out: of a triplet and a run with the tile nothing is taken. */
  predicate TakesNone(s: Pais, pai: Card) {
    pai.value !in Values(s.hand, pai.kind) && Count(Values(s.outHand, pai.kind), pai.value) != 3
  }

  /** Nothing is drawn. */
  predicate NoDraw(tail: seq<Card>, jinBao: bool) {
    tail == [] || jinBao
  }

  /** When a step is on turn.  The code asks for the turn when a tile is discarded, eaten or matched; it does
      not when a hand goes ready, a kong is laid down or its robbers give up, or a tile is shared out.
      While a kong is being robbed, only its robbers' giving up and what moves no tile is. */
  predicate OnTurn(t: Turn, step: Step)
    requires step.Kong? || step.Robbed? ==> KindHeld(t.pais, step.pai, step.self)
  {
    if t.robbed then OnTurnRobbed(t.pais, step) else OnTurnFree(t.pais, step)
  }

  predicate OnTurnFree(s: Pais, step: Step)
    requires step.Kong? || step.Robbed? ==> KindHeld(s, step.pai, step.self)
  {
    match step
    case Ting(pai, canTing) => canTing && pai.value in Values(s.hand, pai.kind) ==> ShouldDaPai(s.hand)
    case Kong(pai, _, _, self, rules, _, _) => CheckGangPai(s, pai, self, rules) && OwnKong(s, pai) ==> ShouldDaPai(s.hand)
    case Robbed(pai, self, rules) => CheckGangPai(s, pai, self, rules) ==> RobbedOnTurn(s, pai)
    case GiveUp(_, _, _, _) => false
    case FengKong(allowed, _, _) => CheckXuanFeng(s, CARD_TYPE_FENG, allowed) ==> ShouldDaPai(s.hand)
    case ZhuiKong(oper, pai, allowed, _, _) => CheckZhuiFengGang(s, allowed) && Adds(s, oper, pai) ==> ShouldDaPai(s.hand)
    case FenZhang(_) => ShouldZhuaPai(s.hand)
    case _ => true
  }

  predicate OnTurnRobbed(s: Pais, step: Step)
    requires step.Kong? || step.Robbed? ==> KindHeld(s, step.pai, step.self)
  {
    match step
    case Draw(front, jinBao) => NoDraw(front, jinBao)
    case Ting(pai, canTing) => !canTing || pai.value !in Values(s.hand, pai.kind)
    case Chi(pai, a, b, hui, allowed) => !Eating(s, pai, a, b, hui, allowed)
    case Peng(pai, allowed) => !CheckPengPai(s, pai, allowed)
    case Kong(pai, _, _, self, rules, tail, jinBao) =>
      CheckGangPai(s, pai, self, rules) ==> !OwnKong(s, pai) && NoDraw(tail, jinBao)
    case Robbed(pai, self, rules) => CheckGangPai(s, pai, self, rules) ==> TakesNone(s, pai)
    case FengKong(allowed, _, _) => !CheckXuanFeng(s, CARD_TYPE_FENG, allowed)
    case ZhuiKong(oper, pai, allowed, tail, jinBao) =>
      CheckZhuiFengGang(s, allowed) ==> !Adds(s, oper, pai) && NoDraw(tail, jinBao)
    case FenZhang(_) => false
    case _ => true
  }

  /** 13 to draw, 14 to discard, 10 while a kong is being robbed. */
  ghost predicate Steady(t: Turn) {
    WellFormed(t.pais) && if t.robbed then Weight(t.pais) == 10 else Weight(t.pais) == 13 || Weight(t.pais) == 14
  }

  /** Drawing at most one tile after something that left 12, 13 or 14: from 12 the draw is refused. */
  lemma DrawToTurn(s: Pais, cards: seq<Card>, jinBao: bool)
    requires WellFormed(s) && 12 <= Weight(s) <= 14 && |cards| <= 1 && Fits(s, cards) && (Weight(s) == 12 ==> s.hand.Keys != {})
    ensures InTurn(OnFaPai(s, cards, jinBao)) <==> Weight(s) != 12
    ensures Weight(s) == 12 ==> OnFaPai(s, cards, jinBao) == s && !ShouldZhuaPai(s.hand) && !ShouldDaPai(s.hand)
  {
    OutSize(s);
    var melds := Size(s.outHand) / 3 + |s.minggang| + |s.angang| + s.fenggang + s.jiangang;
    assert Size(s.hand) + 3 * melds == Weight(s);
    HandNumber(Size(s.hand), melds);
    DrawEffect(s, cards, jinBao);
    hide WellFormed, Size;
  }

  /** A hand going ready keeps the turn exactly on the discarding side. */
  lemma TingKeepsTurn(s: Pais, pai: Card)
    requires InTurn(s) && pai.value in Values(s.hand, pai.kind)
    ensures InTurn(TingPai(s, pai, true)) <==> ShouldDaPai(s.hand)
    ensures Weight(TingPai(s, pai, true)) == Weight(s) - 1
    ensures WellFormed(TingPai(s, pai, true))
  {
    ExactlyOne(s);
    LessHand(s, pai, true);
  }

  lemma TingKeepsRow(s: Pais, pai: Card, canTing: bool)
    requires WellFormed(s) && !(canTing && pai.value in Values(s.hand, pai.kind))
    ensures WellFormed(TingPai(s, pai, canTing)) && Weight(TingPai(s, pai, canTing)) == Weight(s)
  {
    LessHand(s, pai, false);
  }

  /** While a kong is being robbed ten tiles are counted exactly when it was laid down on its turn. */
  lemma RobbedLeavesTen(s: Pais, pai: Card, self: bool, r: GangRules)
    requires InTurn(s) && KindHeld(s, pai, self) && CheckGangPai(s, pai, self, r)
    ensures WellFormed(OnBeenQiangGang(s, pai, self, r))
    ensures Weight(OnBeenQiangGang(s, pai, self, r)) == 10 <==> RobbedOnTurn(s, pai)
    ensures Count(Values(s.hand, pai.kind), pai.value) == 3 && ShouldDaPai(s.hand) ==>
              Weight(OnBeenQiangGang(s, pai, self, r)) == 11
  {
    CountNone(Values(s.hand, pai.kind), pai.value);
    TakeGangEffect(s, pai, self, r);
    ExactlyOne(s);
    hide WellFormed;
  }

  /** A tile shared out is one tile more, whatever the count. */
  lemma FenZhangEffect(s: Pais, card: Card)
    requires WellFormed(s) && Fits(s, [card])
    ensures WellFormed(OnFenZhang(s, card)) && Weight(OnFenZhang(s, card)) == Weight(s) + 1
  {
    PushKeeps(s, [card]);
    assert PushAll(s.hand, [card]) == Push(s.hand, card) by {
      assert [card][..0] == [];
    }
    hide Count, CardCount, Aligned, Size, PushAll, Push, SortHand, Values, Proper;
    var h := Push(s.hand, card);
    SortKeeps(h);
    forall k, v ensures Count(Values(SortHand(h), k), v) + Count(Values(s.outHand, k), v) <= 4 {
      var c := Card(k, v);
      assert Count(Values(h, c.kind), c.value) == Count(Values(s.hand, c.kind), c.value) + CardCount([card], c);
    }
    NewHand(s, SortHand(h));
  }

  /** Giving up a robbery twice, or without one, counts three tiles too many: 16 or 17. */
  lemma GivenUpTwice(s: Pais, pai: Card, source: int, tail: seq<Card>, jinBao: bool)
    requires InTurn(s) && |tail| <= 1 && Fits(s, tail)
    ensures var t := OnFaPai(OnBeenQiangGangWithGivingUp(s, pai, source), tail, jinBao);
            && WellFormed(t) && (Weight(t) == 16 || Weight(t) == 17)
            && (ShouldDaPai(s.hand) ==> Weight(t) == 17 && t.hand == s.hand && ShouldDaPai(t.hand))
  {
    var given := OnBeenQiangGangWithGivingUp(s, pai, source);
    SameTiles(s, given);
    ExactlyOne(s);
    assert Fits(given, tail);
    hide WellFormed, Fits, Size;
    DrawEffect(given, tail, jinBao);
  }

  /** A draw while ten tiles are counted leaves ten exactly when nothing is drawn; from nine it is refused. */
  lemma DrawAtTen(s: Pais, cards: seq<Card>, jinBao: bool)
    requires WellFormed(s) && |cards| <= 1 && Fits(s, cards) && (Weight(s) == 10 || (Weight(s) == 9 && s.hand.Keys != {}))
    ensures var t := OnFaPai(s, cards, jinBao);
            WellFormed(t) && (Weight(t) == 10 <==> Weight(s) == 10 && NoDraw(cards, jinBao))
  {
    OutSize(s);
    var melds := Size(s.outHand) / 3 + |s.minggang| + |s.angang| + s.fenggang + s.jiangang;
    assert Size(s.hand) + 3 * melds == Weight(s);
    HandNumber(Size(s.hand), melds);
    DrawEffect(s, cards, jinBao);
    hide WellFormed, Size;
  }

  lemma NoDiscardAtTen(s: Pais)
    requires WellFormed(s) && Weight(s) == 10
    ensures !ShouldDaPai(s.hand)
  {
    OutSize(s);
    var melds := Size(s.outHand) / 3 + |s.minggang| + |s.angang| + s.fenggang + s.jiangang;
    assert Size(s.hand) + 3 * melds == Weight(s);
    HandNumber(Size(s.hand), melds);
    hide WellFormed, Size;
  }

  /** From any steady state, a step leads to a steady state exactly when it is on turn. */
  lemma ApplySteady(t: Turn, step: Step)
    requires Steady(t) && Possible(t, step)
    ensures Steady(Apply(t, step)) <==> OnTurn(t, step)
  {
    if t.robbed {
      RobbedSteady(t, step);
    } else {
      FreeSteady(t, step);
    }
  }

  lemma FreeSteady(t: Turn, step: Step)
    requires Steady(t) && Possible(t, step) && !t.robbed
    ensures Steady(Apply(t, step)) <==> OnTurnFree(t.pais, step)
  {
    hide WellFormed, Weight, Fits, CheckGangPai, ShouldDaPai, ShouldZhuaPai, OnFaPai, DaPai, TingPai, OnChiPai, OnPengPai,
         OnGangPai, OnBeenQiangGang, OnBeenQiangGangWithGivingUp, OnGangFengPai, OnGangJianPai, OnGangZhuiFeng, OnFenZhang,
         Claimable, Held, Count, CheckXuanFeng, CheckZhuiFengGang, Adds, OwnKong, RobbedOnTurn, Eating;
    var s := t.pais;
    ExactlyOne(s);
    match step {
      case Draw(front, jinBao) => DrawToTurn(s, front, jinBao);
      case Discard(pai) => DiscardEffect(s, pai);
      case Ting(pai, canTing) =>
        if canTing && pai.value in Values(s.hand, pai.kind) {
          TingKeepsTurn(s, pai);
        } else {
          TingKeepsRow(s, pai, canTing);
        }
      case Chi(pai, a, b, hui, allowed) => ChiEffect(s, pai, a, b, hui, allowed);
      case Peng(pai, allowed) => PengEffect(s, pai, allowed);
      case Kong(pai, paiSource, source, self, rules, tail, jinBao) => KongKeepsTurn(s, pai, paiSource, source, self, rules, tail, jinBao);
      case Robbed(pai, self, rules) =>
        if CheckGangPai(s, pai, self, rules) {
          RobbedLeavesTen(s, pai, self, rules);
        }
      case GiveUp(pai, source, tail, jinBao) => GivenUpTwice(s, pai, source, tail, jinBao);
      case FengKong(allowed, tail, jinBao) => FengKongKeepsTurn(s, allowed, tail, jinBao);
      case JianKong(allowed) => JianEffect(s, allowed);
      case ZhuiKong(oper, pai, allowed, tail, jinBao) => ZhuiKongKeepsTurn(s, oper, pai, tail, jinBao);
      case FenZhang(card) => FenZhangEffect(s, card);
    }
  }

  lemma RobbedSteady(t: Turn, step: Step)
    requires Steady(t) && Possible(t, step) && t.robbed
    ensures Steady(Apply(t, step)) <==> OnTurnRobbed(t.pais, step)
  {
    hide WellFormed, Weight, Fits, CheckGangPai, ShouldDaPai, ShouldZhuaPai, OnFaPai, DaPai, TingPai, OnChiPai, OnPengPai,
         OnGangPai, OnBeenQiangGang, OnBeenQiangGangWithGivingUp, OnGangFengPai, OnGangJianPai, OnGangZhuiFeng, OnFenZhang,
         Claimable, Held, Count, CheckXuanFeng, CheckZhuiFengGang, Adds, OwnKong, Eating, NoDraw, TakesNone;
    var s := t.pais;
    NoDiscardAtTen(s);
    match step {
      case Draw(front, jinBao) => DrawAtTen(s, front, jinBao);
      case Discard(pai) => DiscardEffect(s, pai);
      case Ting(pai, canTing) =>
        if canTing && pai.value in Values(s.hand, pai.kind) {
          TingTakesOne(s, pai);
        } else {
          TingKeepsRow(s, pai, canTing);
        }
      case Chi(pai, a, b, hui, allowed) => ChiEffect(s, pai, a, b, hui, allowed);
      case Peng(pai, allowed) => PengEffect(s, pai, allowed);
      case Kong(pai, paiSource, source, self, rules, tail, jinBao) =>
        if CheckGangPai(s, pai, self, rules) {
          KongAtTen(s, pai, paiSource, source, self, rules, tail, jinBao);
        }
      case Robbed(pai, self, rules) =>
        if CheckGangPai(s, pai, self, rules) {
          RobbedTakesTiles(s, pai, self, rules);
        }
      case GiveUp(pai, source, tail, jinBao) => GiveUpSteady(t, step);
      case FengKong(allowed, tail, jinBao) =>
        if CheckXuanFeng(s, CARD_TYPE_FENG, allowed) {
          FengKongAtTen(s, allowed, tail, jinBao);
        }
      case JianKong(allowed) => JianEffect(s, allowed);
      case ZhuiKong(oper, pai, allowed, tail, jinBao) => ZhuiKongAtTen(s, oper, pai, tail, jinBao);
      case FenZhang(card) => FenZhangEffect(s, card);
    }
  }

  lemma KongAtTen(s: Pais, pai: Card, paiSource: int, source: int, self: bool, r: GangRules, tail: seq<Card>, jinBao: bool)
    requires WellFormed(s) && Weight(s) == 10 && KindHeld(s, pai, self) && CheckGangPai(s, pai, self, r)
    requires |tail| <= 1 && Fits(OnGangPai(s, pai, paiSource, source, self, r), tail)
    ensures var t := OnFaPai(OnGangPai(s, pai, paiSource, source, self, r), tail, jinBao);
            WellFormed(t) && (Weight(t) == 10 <==> !OwnKong(s, pai) && NoDraw(tail, jinBao))
  {
    GangEffect(s, pai, paiSource, source, self, r);
    var t := OnGangPai(s, pai, paiSource, source, self, r);
    assert OwnKong(s, pai) ==> pai.kind in t.hand;
    hide WellFormed, OnGangPai, CheckGangPai;
    DrawAtTen(t, tail, jinBao);
  }

  lemma RobbedTakesTiles(s: Pais, pai: Card, self: bool, r: GangRules)
    requires WellFormed(s) && KindHeld(s, pai, self) && CheckGangPai(s, pai, self, r)
    ensures WellFormed(OnBeenQiangGang(s, pai, self, r))
    ensures Weight(OnBeenQiangGang(s, pai, self, r)) == Weight(s) <==> TakesNone(s, pai)
  {
    CountNone(Values(s.hand, pai.kind), pai.value);
    TakeGangEffect(s, pai, self, r);
    hide WellFormed;
  }

  lemma FengKongAtTen(s: Pais, allowed: bool, tail: seq<Card>, jinBao: bool)
    requires WellFormed(s) && Weight(s) == 10 && CheckXuanFeng(s, CARD_TYPE_FENG, allowed)
    requires |tail| <= 1 && Fits(OnGangFengPai(s, allowed), tail)
    ensures Weight(OnFaPai(OnGangFengPai(s, allowed), tail, jinBao)) != 10
  {
    var t := OnGangFengPai(s, allowed);
    FengEffect(s, allowed);
    assert CARD_TYPE_FENG in t.hand;
    hide WellFormed, OnGangFengPai;
    DrawAtTen(t, tail, jinBao);
  }

  lemma ZhuiKongAtTen(s: Pais, oper: ZhuiFeng, pai: Card, tail: seq<Card>, jinBao: bool)
    requires WellFormed(s) && Weight(s) == 10 && |tail| <= 1 && Fits(OnGangZhuiFeng(s, oper, pai), tail)
    ensures var t := OnFaPai(OnGangZhuiFeng(s, oper, pai), tail, jinBao);
            WellFormed(t) && (Weight(t) == 10 <==> !Adds(s, oper, pai) && NoDraw(tail, jinBao))
  {
    var t := OnGangZhuiFeng(s, oper, pai);
    ZhuiFengEffect(s, oper, pai);
    assert pai.kind in t.hand;
    hide WellFormed, OnGangZhuiFeng;
    DrawAtTen(t, tail, jinBao);
  }

  lemma TingTakesOne(s: Pais, pai: Card)
    requires WellFormed(s) && pai.value in Values(s.hand, pai.kind)
    ensures WellFormed(TingPai(s, pai, true)) && Weight(TingPai(s, pai, true)) == Weight(s) - 1
  {
    LessHand(s, pai, true);
  }

  lemma GiveUpSteady(t: Turn, step: Step)
    requires Steady(t) && Possible(t, step) && t.robbed && step.GiveUp?
    ensures Steady(Apply(t, step))
  {
    var s, given := t.pais, OnBeenQiangGangWithGivingUp(t.pais, step.pai, step.source);
    SameTiles(s, given);
    DrawToTurn(given, step.tail, step.jinBao);
  }

  /** A kong with its replacement keeps the turn exactly when it is not one of the player's own tiles on
      the drawing side: `CheckGangPai` has no `ShouldDaPai` test. */
  lemma KongKeepsTurn(s: Pais, pai: Card, paiSource: int, source: int, self: bool, r: GangRules, tail: seq<Card>, jinBao: bool)
    requires InTurn(s) && KindHeld(s, pai, self)
    requires |tail| <= 1 && Fits(OnGangPai(s, pai, paiSource, source, self, r), tail)
    ensures CheckGangPai(s, pai, self, r) ==>
              (InTurn(OnFaPai(OnGangPai(s, pai, paiSource, source, self, r), tail, jinBao))
               <==> !OwnKong(s, pai) || ShouldDaPai(s.hand))
  {
    if CheckGangPai(s, pai, self, r) {
      var t := OnGangPai(s, pai, paiSource, source, self, r);
      GangEffect(s, pai, paiSource, source, self, r);
      ExactlyOne(s);
      assert OwnKong(s, pai) ==> pai.kind in t.hand;
      hide WellFormed, OnGangPai, CheckGangPai;
      DrawToTurn(t, tail, jinBao);
    }
  }

  /** The wind kong likewise: its own test asks for four winds and the room's rule only. */
  lemma FengKongKeepsTurn(s: Pais, allowed: bool, tail: seq<Card>, jinBao: bool)
    requires InTurn(s) && |tail| <= 1 && Fits(OnGangFengPai(s, allowed), tail)
    ensures InTurn(OnFaPai(OnGangFengPai(s, allowed), tail, jinBao))
            <==> (CheckXuanFeng(s, CARD_TYPE_FENG, allowed) ==> ShouldDaPai(s.hand))
  {
    var t := OnGangFengPai(s, allowed);
    FengEffect(s, allowed);
    ExactlyOne(s);
    assert CheckXuanFeng(s, CARD_TYPE_FENG, allowed) ==> CARD_TYPE_FENG in t.hand;
    hide WellFormed, OnGangFengPai;
    DrawToTurn(t, tail, jinBao);
  }

  /** So does adding to a wind or dragon kong. */
  lemma ZhuiKongKeepsTurn(s: Pais, oper: ZhuiFeng, pai: Card, tail: seq<Card>, jinBao: bool)
    requires InTurn(s) && |tail| <= 1 && Fits(OnGangZhuiFeng(s, oper, pai), tail)
    ensures InTurn(OnFaPai(OnGangZhuiFeng(s, oper, pai), tail, jinBao))
            <==> (Adds(s, oper, pai) ==> ShouldDaPai(s.hand))
  {
    var t := OnGangZhuiFeng(s, oper, pai);
    ZhuiFengEffect(s, oper, pai);
    ExactlyOne(s);
    assert pai.kind in t.hand;
    hide WellFormed, OnGangZhuiFeng;
    DrawToTurn(t, tail, jinBao);
  }

  /** Every step of a run is possible when it is taken. */
  ghost predicate PossibleRun(t: Turn, steps: seq<Step>)
    decreases |steps|
  {
    steps != [] ==> Possible(t, steps[0]) && PossibleRun(Apply(t, steps[0]), steps[1..])
  }

  ghost function Run(t: Turn, steps: seq<Step>): Turn
    requires PossibleRun(t, steps)
    decreases |steps|
  {
    if steps == [] then t else Run(Apply(t, steps[0]), steps[1..])
  }

  /** Every step of a run is on turn. */
  ghost predicate AllOnTurn(t: Turn, steps: seq<Step>)
    requires PossibleRun(t, steps)
    decreases |steps|
  {
    steps != [] ==> OnTurn(t, steps[0]) && AllOnTurn(Apply(t, steps[0]), steps[1..])
  }

  /** Every state of a run is steady. */
  ghost predicate AllSteady(t: Turn, steps: seq<Step>)
    requires PossibleRun(t, steps)
    decreases |steps|
  {
    Steady(t) && (steps != [] ==> AllSteady(Apply(t, steps[0]), steps[1..]))
  }

  const NOTHING: Pais := Pais(map[], map[], [], [], 0, 0, [], [])

  /** The deal: 13 tiles, 14 for the banker. */
  lemma Dealt(cards: seq<Card>)
    requires (|cards| == 13 || |cards| == 14) && forall c <- cards :: IsKind(c.kind)
    requires forall c: Card :: CardCount(cards, c) <= 4
    ensures InTurn(OnFaPai(NOTHING, cards, false))
  {
    forall k, v ensures Count(Values(NOTHING.hand, k), v) == 0 && Count(Values(NOTHING.outHand, k), v) == 0 {
    }
    forall k ensures Aligned(Values(NOTHING.outHand, k)) {
    }
    DrawEffect(NOTHING, cards, false);
  }

  lemma {:induction false} RunSteady(t: Turn, steps: seq<Step>)
    requires Steady(t) && PossibleRun(t, steps)
    ensures AllSteady(t, steps) <==> AllOnTurn(t, steps)
    ensures AllSteady(t, steps) ==> Steady(Run(t, steps))
    decreases |steps|
  {
    hide Steady, Apply, OnTurn;
    if steps != [] {
      var next := Apply(t, steps[0]);
      ApplySteady(t, steps[0]);
      if OnTurn(t, steps[0]) {
        RunSteady(next, steps[1..]);
      } else {
        NotSteady(next, steps[1..]);
      }
    }
  }

  lemma NotSteady(t: Turn, steps: seq<Step>)
    requires PossibleRun(t, steps) && !Steady(t)
    ensures !AllSteady(t, steps)
  {
  }

  /** After the deal, over every run of steps in any order: all states are steady (melds aligned triples, the
      weighted count 13 or 14, or 10 while a kong is being robbed) exactly when every step is on turn; and
      in a steady state that is not waiting for robbers exactly one of the two tests holds. */
  lemma EveryTurn(cards: seq<Card>, steps: seq<Step>)
    requires (|cards| == 13 || |cards| == 14) && (forall c <- cards :: IsKind(c.kind))
    requires forall c: Card :: CardCount(cards, c) <= 4
    requires PossibleRun(Turn(OnFaPai(NOTHING, cards, false), false), steps)
    ensures var t0 := Turn(OnFaPai(NOTHING, cards, false), false);
            && (AllSteady(t0, steps) <==> AllOnTurn(t0, steps))
            && (AllOnTurn(t0, steps) ==> Told(Run(t0, steps)))
  {
    Dealt(cards);
    var t0 := Turn(OnFaPai(NOTHING, cards, false), false);
    RunSteady(t0, steps);
    if AllOnTurn(t0, steps) {
      SteadyTells(Run(t0, steps));
    }
  }

  /** What the tests read of a steady state. */
  ghost predicate Told(t: Turn) {
    var s := t.pais;
    && (forall k :: Aligned(Values(s.outHand, k)))
    && (if t.robbed then Weight(s) == 10
        else (ShouldZhuaPai(s.hand) && !ShouldDaPai(s.hand) && Weight(s) == 13)
             || (ShouldDaPai(s.hand) && !ShouldZhuaPai(s.hand) && Weight(s) == 14))
  }

  lemma SteadyTells(t: Turn)
    requires Steady(t)
    ensures Told(t)
  {
    if !t.robbed {
      ExactlyOne(t.pais);
    }
  }

  // --------------------------------------------------------- steps that are not on turn

  /** Four equal tiles and three kongs, to draw: laying the four down leaves a count of 12 and no test. */
  lemma UnguardedKong()
    ensures var s := Pais(map[1 := [1, 1, 1, 1]], map[], ThreeKongs(), [], 0, 0, [], []);
            var r := GangRules(false, true, true, false, true);
            var t := OnGangPai(s, Card(1, 1), 0, 0, true, r);
            && InTurn(s) && ShouldZhuaPai(s.hand) && CheckGangPai(s, Card(1, 1), true, r)
            && Weight(t) == 12 && !ShouldZhuaPai(t.hand) && !ShouldDaPai(t.hand)
  {
    hide WellFormed, RemoveAll;
    var four := [1, 1, 1, 1];
    var s := Pais(map[1 := four], map[], ThreeKongs(), [], 0, 0, [], []);
    assert Count(four, 1) == 4 by {
      PongCounts(1);
      assert four[..3] == [1, 1, 1];
    }
    OneRow(1, four);
    GangEffect(s, Card(1, 1), 0, 0, true, GangRules(false, true, true, false, true));
    NothingToDo(OnGangPai(s, Card(1, 1), 0, 0, true, GangRules(false, true, true, false, true)));
  }

  /** Thirteen tiles, to draw: 1万1万 3万3万3万 4饼4饼4饼 5条5条5条 9条 中. */
  function ReadyHand(): Hand {
    map[1 := [1, 1, 3, 3, 3], 2 := [4, 4, 4], 3 := [5, 5, 5, 9], 5 := [1]]
  }

  /** The same without 中 and with a second 9条: thirteen tiles again. */
  function ReadyTiles(): seq<Card> {
    [Card(1, 1), Card(1, 1), Card(1, 3), Card(1, 3), Card(1, 3), Card(2, 4), Card(2, 4), Card(2, 4),
     Card(3, 5), Card(3, 5), Card(3, 5), Card(3, 9), Card(3, 9)]
  }

  /** The shape search accepts these thirteen tiles: one pair, three triplets, and a second pair at the end. */
  lemma SearchAcceptsTwoPairs()
    ensures WinningHand.Search(ReadyTiles(), false)
  {
    var t := ReadyTiles();
    assert t[11] == t[12];
    assert WinningHand.Search(t[11..], true);
    assert t[8..][3..] == t[11..] && WinningHand.TripletWins(t[8..], true);
    assert WinningHand.Search(t[8..], true);
    assert t[5..][3..] == t[8..] && WinningHand.TripletWins(t[5..], true);
    assert WinningHand.Search(t[5..], true);
    assert t[2..][3..] == t[5..] && WinningHand.TripletWins(t[2..], true);
    assert WinningHand.Search(t[2..], true);
    assert WinningHand.PairWins(t, false);
  }

  lemma ReadyCards(h: Hand)
    requires h == map[1 := [1, 1, 3, 3, 3], 2 := [4, 4, 4], 3 := [5, 5, 5, 9, 9], 5 := []]
    ensures CardList(h) == ReadyTiles()
  {
    assert Values(h, 4) == [];
    hide Values;
    assert Row(1, [1, 1, 3, 3, 3]) == [Card(1, 1), Card(1, 1), Card(1, 3), Card(1, 3), Card(1, 3)];
    assert Row(2, [4, 4, 4]) == [Card(2, 4), Card(2, 4), Card(2, 4)];
    assert Row(3, [5, 5, 5, 9, 9]) == [Card(3, 5), Card(3, 5), Card(3, 5), Card(3, 9), Card(3, 9)];
    assert Row(4, []) == [] && Row(5, []) == [];
    hide Row;
  }

  lemma ReadyBag(h: Hand)
    requires h == map[1 := [1, 1, 3, 3, 3], 2 := [4, 4, 4], 3 := [5, 5, 5, 9, 9], 5 := []]
    ensures multiset(ReadyTiles()) == HandTiles(h)
  {
    assert forall k :: k in h ==> Ascending(h[k]);
    hide CardList, ReadyTiles, HandTiles;
    CardListIsSorted(h);
    ReadyCards(h);
  }

  /** Giving up 中 and then drawing 9条 makes them. */
  lemma ReadyByNine()
    ensures Card(5, 1) in HandTiles(ReadyHand())
    ensures HandTiles(ReadyHand()) - multiset{Card(5, 1)} + multiset{Card(3, 9)} == multiset(ReadyTiles())
  {
    hide ReadyTiles, HandTiles;
    var h := ReadyHand();
    assert RemoveFirst([1], 1) == [];
    hide RemoveFirst;
    HandRemove(h, Card(5, 1));
    var h1 := h[5 := RemoveFirst(h[5], 1)];
    HandDraw(h1, Card(3, 9));
    var h2 := h1[3 := Values(h1, 3) + [9]];
    assert h[5] == [1] && h1[5] == [] && Values(h1, 3) == [5, 5, 5, 9];
    assert [5, 5, 5, 9] + [9] == [5, 5, 5, 9, 9];
    assert h2[1] == [1, 1, 3, 3, 3] && h2[2] == [4, 4, 4] && h2[3] == [5, 5, 5, 9, 9] && h2[5] == [];
    assert h2 == map[1 := [1, 1, 3, 3, 3], 2 := [4, 4, 4], 3 := [5, 5, 5, 9, 9], 5 := []];
    ReadyBag(h2);
  }

  /** Where the rest of the win test accepts these tiles, `CanTingPai` accepts 中 on the drawing side (no
      faces being fixed yet), and 听 leaves twelve tiles and neither test. */
  lemma ReadyOnTheDrawingSide(rules: Ready.TingRules, faces: seq<Card>)
    requires rules.win(multiset(ReadyTiles())) && Card(3, 9) in faces
    ensures WinningHand.Search(ReadyTiles(), false)
    ensures Ready.Accepted(rules, HandTiles(ReadyHand()), faces, Card(5, 1))
    ensures var s := Pais(ReadyHand(), map[], [], [], 0, 0, [], []); var t := TingPai(s, Card(5, 1), true);
            InTurn(s) && ShouldZhuaPai(s.hand) && Weight(t) == 12 && !ShouldZhuaPai(t.hand) && !ShouldDaPai(t.hand)
  {
    hide ReadyTiles, HandTiles, WinningHand.Search;
    SearchAcceptsTwoPairs();
    ReadyByNine();
    ReadyLeavesTwelve();
  }

  lemma ReadyLeavesTwelve()
    ensures var s := Pais(ReadyHand(), map[], [], [], 0, 0, [], []); var t := TingPai(s, Card(5, 1), true);
            InTurn(s) && ShouldZhuaPai(s.hand) && Weight(t) == 12 && !ShouldZhuaPai(t.hand) && !ShouldDaPai(t.hand)
  {
    hide WellFormed, RemoveFirst;
    var s := Pais(ReadyHand(), map[], [], [], 0, 0, [], []);
    ReadyFormed();
    assert Values(s.hand, 5) == [1];
    hide Size, Values, ReadyHand;
    ExactlyOne(s);
    TingKeepsTurn(s, Card(5, 1));
    NothingToDo(TingPai(s, Card(5, 1), true));
  }

  lemma ReadyFormed()
    ensures WellFormed(Pais(ReadyHand(), map[], [], [], 0, 0, [], []))
    ensures Weight(Pais(ReadyHand(), map[], [], [], 0, 0, [], [])) == 13
  {
    var h := ReadyHand();
    forall v ensures Count([1, 1, 3, 3, 3], v) <= 4 {
      assert [1, 1] + [3, 3, 3] == [1, 1, 3, 3, 3];
      CountParts([1, 1], [3, 3, 3], v);
      CountNone([1, 1], v);
      CountNone([3, 3, 3], v);
    }
    forall k, v ensures Count(Values(h, k), v) <= 4 {
      CountNone(Values(h, k), v);
    }
    assert forall v :: Count([], v) == 0;
    assert Aligned([]);
    hide Count, Aligned;
  }

  /** A wind kong and three kongs beside one tile, to draw: adding the tile leaves 12. */
  lemma UnguardedZhuiKong()
    ensures var s := Pais(map[4 := [1]], map[], ThreeKongs(), [], 1, 0, [], []);
            var t := OnGangZhuiFeng(s, ZhuiFeng.Feng, Card(4, 1));
            && InTurn(s) && ShouldZhuaPai(s.hand) && CheckZhuiFengGang(s, true)
            && Weight(t) == 12 && !ShouldZhuaPai(t.hand) && !ShouldDaPai(t.hand)
  {
    var s0 := Pais(map[4 := [1]], map[], ThreeKongs(), [], 0, 0, [], []);
    var s := s0.(fenggang := 1);
    OneRow(4, [1]);
    SameTiles(s0, s);
    ZhuiFengEffect(s, ZhuiFeng.Feng, Card(4, 1));
    NothingToDo(OnGangZhuiFeng(s, ZhuiFeng.Feng, Card(4, 1)));
  }

  /** Three equal tiles of five and three kongs, to discard: a kong of the three can be robbed, and leaves 11. */
  lemma RobbedAtFourteen()
    ensures var s := Pais(map[1 := [1, 1, 1, 2, 2]], map[], ThreeKongs(), [], 0, 0, [], []);
            var r := GangRules(false, true, true, false, true);
            && InTurn(s) && ShouldDaPai(s.hand) && CheckGangPai(s, Card(1, 1), false, r)
            && Weight(OnBeenQiangGang(s, Card(1, 1), false, r)) == 11
  {
    var three, two := [1, 1, 1], [2, 2];
    var row := three + two;
    assert row == [1, 1, 1, 2, 2];
    var s := Pais(map[1 := row], map[], ThreeKongs(), [], 0, 0, [], []);
    var r := GangRules(false, true, true, false, true);
    PongCounts(1);
    CountNone(two, 1);
    CountParts(three, two, 1);
    forall v ensures Count(row, v) <= 4 {
      CountParts(three, two, v);
      CountNone(three, v);
      CountNone(two, v);
    }
    RobbedLeavesTen(s, Card(1, 1), false, r);
  }

  /** Two tiles and four kongs, to discard: a tile shared out leaves 15. */
  lemma SharedAtFourteen()
    ensures var s := Pais(map[1 := [1, 2]], map[], ThreeKongs() + [Gang(Card(3, 9), 0)], [], 0, 0, [], []);
            && InTurn(s) && ShouldDaPai(s.hand) && Weight(OnFenZhang(s, Card(1, 3))) == 15
  {
    var row := [1, 2];
    OneRow(1, row);
    var s0 := Pais(map[1 := row], map[], ThreeKongs(), [], 0, 0, [], []);
    var s := s0.(minggang := ThreeKongs() + [Gang(Card(3, 9), 0)]);
    SameTiles(s0, s);
    hide WellFormed, Count;
    OneMoreFits(s, row, Card(1, 3));
    FenZhangEffect(s, Card(1, 3));
  }

  lemma OneMoreFits(s: Pais, row: seq<int>, card: Card)
    requires s.hand == map[card.kind := row] && s.outHand == map[] && |row| <= 3 && IsKind(card.kind)
    ensures Fits(s, [card])
  {
    forall c: Card ensures Count(Values(s.hand, c.kind), c.value) + Count(Values(s.outHand, c.kind), c.value)
                           + CardCount([card], c) <= 4 {
      assert [card][..0] == [];
      CountNone(Values(s.hand, c.kind), c.value);
      CountNone([], c.value);
    }
  }

  /** Four winds and three kongs, to draw: the wind kong leaves 12. */
  lemma UnguardedFengKong()
    ensures var s := Pais(map[4 := [1, 2, 3, 4]], map[], ThreeKongs(), [], 0, 0, [], []);
            var t := OnGangFengPai(s, true);
            InTurn(s) && ShouldZhuaPai(s.hand) && Weight(t) == 12 && !ShouldZhuaPai(t.hand) && !ShouldDaPai(t.hand)
  {
    var winds := [1, 2, 3, 4];
    var s := Pais(map[4 := winds], map[], ThreeKongs(), [], 0, 0, [], []);
    OneRow(4, winds);
    assert HoldsAll(winds, 4);
    FengEffect(s, true);
    NothingToDo(OnGangFengPai(s, true));
  }

  /** At 12 neither test holds. */
  lemma NothingToDo(t: Pais)
    requires WellFormed(t) && Weight(t) == 12 && t.hand.Keys != {}
    ensures !ShouldZhuaPai(t.hand) && !ShouldDaPai(t.hand)
  {
    DrawToTurn(t, [], false);
  }

  function ThreeKongs(): seq<Gang> {
    [Gang(Card(2, 1), 0), Gang(Card(2, 2), 0), Gang(Card(2, 3), 0)]
  }

  /** A hand of at most four tiles of one kind beside three kongs. */
  lemma OneRow(kind: int, row: seq<int>)
    requires IsKind(kind) && |row| <= 4
    ensures WellFormed(Pais(map[kind := row], map[], ThreeKongs(), [], 0, 0, [], []))
  {
    forall v ensures Count(row, v) <= 4 {
      CountNone(row, v);
    }
  }

  // ------------------------------------------------------------------------- the player

  /** Tiles of a hand whose kinds are still to be counted. */
  function Part(h: Hand, keys: set<int>): nat {
    PartOf(h, keys, 1) + PartOf(h, keys, 2) + PartOf(h, keys, 3) + PartOf(h, keys, 4) + PartOf(h, keys, 5)
  }

  function PartOf(h: Hand, keys: set<int>, k: int): nat {
    if k in keys then |Values(h, k)| else 0
  }

  lemma PartStep(h: Hand, keys: set<int>, k: int)
    requires Proper(h) && k in keys && k in h
    ensures Part(h, keys) == |h[k]| + Part(h, keys - {k})
  {
    forall j ensures PartOf(h, keys, j) == PartOf(h, keys - {k}, j) + if j == k then |h[k]| else 0 {
    }
    hide PartOf;
  }

  lemma KongHasRow(s: Pais, pai: Card, self: bool, r: GangRules)
    requires (pai.kind in s.hand || !self) && CheckGangPai(s, pai, self, r)
    ensures pai.kind in s.hand
  {
  }

  lemma ChiKind(s: Pais, pai: Card, hui: Card, allowed: bool)
    requires CheckChiPai(s, pai, hui, allowed)
    ensures pai.kind in s.hand
  {
  }

  lemma PengKind(s: Pais, pai: Card, allowed: bool)
    requires CheckPengPai(s, pai, allowed)
    ensures pai.kind in s.hand
  {
  }

  lemma RemoveNone(row: seq<int>)
    ensures RemoveEach(row, 0) == row
  {
  }

  lemma RemoveEachStep(row: seq<int>, v: nat)
    ensures RemoveEach(row, v + 1) == RemoveFirst(RemoveEach(row, v), v + 1)
    ensures v + 1 !in RemoveEach(row, v) ==> RemoveEach(row, v + 1) == RemoveEach(row, v)
  {
  }

  class Player {
    var cardsInhand: Hand
    var cardsOuthand: Hand
    var minggang: seq<Gang>
    var angang: seq<Gang>
    var fenggang: nat
    var jiangang: nat
    var zhuiFenggang: seq<Card>
    var zhuiJiangang: seq<Card>

    function State(): Pais
      reads this
    {
      Pais(cardsInhand, cardsOuthand, minggang, angang, fenggang, jiangang, zhuiFenggang, zhuiJiangang)
    }

    /** A new player, or `ClearCards`. */
    constructor ()
      ensures State() == NOTHING
    {
      cardsInhand, cardsOuthand, minggang, angang := map[], map[], [], [];
      fenggang, jiangang, zhuiFenggang, zhuiJiangang := 0, 0, [], [];
    }

    method GetCardCount() returns (total: nat)
      requires Proper(cardsInhand)
      ensures total == Size(cardsInhand) == |HandTiles(cardsInhand)|
    {
      DueBySize(cardsInhand);
      total := 0;
      var keys := cardsInhand.Keys;
      hide Part, Size, Proper, Values, HandTiles;
      while keys != {}
        invariant keys <= cardsInhand.Keys
        invariant total + Part(cardsInhand, keys) == Size(cardsInhand)
        decreases |keys|
      {
        HasElement(keys);
        var k: int :| k in keys;
        PartStep(cardsInhand, keys, k);
        total := total + |cardsInhand[k]|;
        keys := keys - {k};
      }
    }

    method ShouldZhua() returns (yes: bool)
      requires Proper(cardsInhand)
      ensures yes == ShouldZhuaPai(cardsInhand)
      ensures var n := |HandTiles(cardsInhand)|; yes <==> cardsInhand == map[] || (n <= 13 && n % 3 == 1)
    {
      hide HandTiles;
      DueBySize(cardsInhand);
      if |cardsInhand| == 0 {
        return true;
      }
      var count := GetCardCount();
      yes := count == 13 || count == 10 || count == 7 || count == 4 || count == 1;
    }

    method ShouldDa() returns (yes: bool)
      requires Proper(cardsInhand)
      ensures yes == ShouldDaPai(cardsInhand)
      ensures var n := |HandTiles(cardsInhand)|; yes <==> n <= 14 && n % 3 == 2
    {
      hide HandTiles;
      DueBySize(cardsInhand);
      var count := GetCardCount();
      yes := count == 14 || count == 11 || count == 8 || count == 5 || count == 2;
    }

    method FaPai(cards: seq<Card>, jinBao: bool)
      requires Proper(cardsInhand)
      modifies this
      ensures State() == OnFaPai(old(State()), cards, jinBao)
      ensures var held := HandTiles(old(cardsInhand));
              (forall c <- cards :: IsKind(c.kind)) ==>
                HandTiles(cardsInhand) == if !jinBao && (old(cardsInhand) == map[] || (|held| <= 13 && |held| % 3 == 1))
                                          then held + multiset(cards) else held
    {
      hide HandTiles, PushAll, SortHand, Proper, Size;
      PushNone(cardsInhand);
      if forall c <- cards :: IsKind(c.kind) {
        DrawTiles(State(), cards, jinBao);
      }
      if |cards| == 0 {
        return;
      }
      var draws := ShouldZhua();
      if !draws || jinBao {
        return;
      }
      for i := 0 to |cards|
        invariant State() == old(State()).(hand := PushAll(old(cardsInhand), cards[..i]))
      {
        var card := cards[i];
        PushLast(old(cardsInhand), cards[..i + 1]);
        assert cards[..i + 1][..i] == cards[..i];
        cardsInhand := cardsInhand[card.kind := Values(cardsInhand, card.kind) + [card.value]];
      }
      assert cards[..|cards|] == cards;
      cardsInhand := SortHand(cardsInhand);
    }

    /** A tile shared out at the end. */
    method FenZhang(card: Card)
      modifies this
      ensures State() == OnFenZhang(old(State()), card)
      ensures IsKind(card.kind) ==> HandTiles(cardsInhand) == HandTiles(old(cardsInhand)) + multiset{card}
    {
      hide HandTiles, SortHand;
      if IsKind(card.kind) {
        SharedTile(State(), card);
      }
      cardsInhand := cardsInhand[card.kind := Values(cardsInhand, card.kind) + [card.value]];
      cardsInhand := SortHand(cardsInhand);
    }

    /** The discard of `CmdPaiOperate`, with its error codes. */
    method CmdDaPai(pai: Card) returns (code: nat)
      requires Proper(cardsInhand)
      modifies this
      ensures State() == DaPai(old(State()), pai)
      ensures code == if !ShouldDaPai(old(cardsInhand)) then 3
                      else if pai.value !in Values(old(cardsInhand), pai.kind) then 4 else 0
      ensures var held := HandTiles(old(cardsInhand));
              && code == (if |held| > 14 || |held| % 3 != 2 then 3 else if pai !in held then 4 else 0)
              && HandTiles(cardsInhand) == (if code == 0 then held - multiset{pai} else held)
    {
      hide HandTiles, RemoveFirst, Size, Proper, Count;
      DiscardTiles(State(), pai);
      DueBySize(cardsInhand);
      ProperRow(cardsInhand, pai.kind);
      TileCount(cardsInhand, pai);
      if pai.value !in Values(cardsInhand, pai.kind) {
        NothingRemoved(Values(cardsInhand, pai.kind), pai.value);
      }
      var discards := ShouldDa();
      if !discards {
        return 3;
      }
      var pais := Values(cardsInhand, pai.kind);
      cardsInhand := cardsInhand[pai.kind := pais];
      if pai.value !in pais {
        return 4;
      }
      cardsInhand := cardsInhand[pai.kind := RemoveFirst(pais, pai.value)];
      return 0;
    }

    method CheckChi(pai: Card, hui: Card, allowed: bool) returns (ok: bool)
      requires Proper(cardsInhand)
      ensures ok == CheckChiPai(State(), pai, hui, allowed)
    {
      hide HandTiles, Size, Proper;
      if !allowed {
        return false;
      }
      var discards := ShouldDa();
      if discards || pai.kind !in cardsInhand {
        return false;
      }
      if pai.kind != CARD_TYPE_WANZI && pai.kind != CARD_TYPE_BINGZI && pai.kind != CARD_TYPE_TIAOZI {
        return false;
      }
      var row, v := cardsInhand[pai.kind], pai.value;
      if v - 1 in row && v - 2 in row && pai.Plus(-1) != hui && pai.Plus(-2) != hui {
        return true;
      }
      if v + 1 in row && v + 2 in row && pai.Plus(1) != hui && pai.Plus(2) != hui {
        return true;
      }
      if v - 1 in row && v + 1 in row && pai.Plus(-1) != hui && pai.Plus(1) != hui {
        return true;
      }
      return false;
    }

    method Chi(pai: Card, pais: seq<Card>, hui: Card, allowed: bool)
      requires Proper(cardsInhand)
      modifies this
      ensures State() == if |pais| == 2 then OnChiPai(old(State()), pai, pais[0], pais[1], hui, allowed)
                         else old(State())
    {
      hide SortValues, RemoveFirst, Size, IsRun, CheckChiPai;
      var ok := CheckChi(pai, hui, allowed);
      if !ok || |pais| != 2 {
        return;
      }
      assert pai.kind in cardsInhand by {
        ChiKind(State(), pai, hui, allowed);
      }
      var values;
      ok, values := RunOf(pai, pais, hui);
      if ok {
        TakeRun(pai, pais[0].value, pais[1].value, values);
      }
    }

    /** The tiles named have the claimed kind, are not wild, and make a run with it. */
    method RunOf(pai: Card, pais: seq<Card>, hui: Card) returns (ok: bool, cards: seq<int>)
      requires |pais| == 2
      ensures ok == (pais[0].kind == pai.kind && pais[1].kind == pai.kind && pais[0] != hui && pais[1] != hui
                     && IsRun(pai, pais[0], pais[1]))
      ensures ok ==> cards == SortValues([pai.value, pais[0].value, pais[1].value])
    {
      hide SortValues;
      cards := [pai.value];
      for i := 0 to 2
        invariant |cards| == i + 1 && cards[0] == pai.value
        invariant forall j :: 0 <= j < i ==> cards[j + 1] == pais[j].value
        invariant forall j :: 0 <= j < i ==> pais[j].kind == pai.kind && pais[j] != hui
      {
        if pai.kind != pais[i].kind || pais[i] == hui {
          return false, cards;
        }
        cards := cards + [pais[i].value];
      }
      assert cards == [pai.value, pais[0].value, pais[1].value];
      cards := SortValues(cards);
      ok := cards[1] - cards[0] == 1 && cards[2] - cards[1] == 1;
    }

    method TakeRun(pai: Card, a: int, b: int, meld: seq<int>)
      requires pai.kind in cardsInhand && |meld| > 0
      modifies this
      ensures var hand := old(cardsInhand)[pai.kind]; var row := RemoveFirst(hand, a);
              State() == if a !in hand then old(State())
                         else if b !in row then old(State()).(hand := old(cardsInhand)[pai.kind := row])
                         else old(State()).(hand := old(cardsInhand)[pai.kind := RemoveFirst(row, b)],
                                outHand := old(cardsOuthand)[pai.kind := Values(old(cardsOuthand), pai.kind) + meld])
    {
      hide RemoveFirst;
      var row := cardsInhand[pai.kind];
      if a !in row {
        return;
      }
      row := RemoveFirst(row, a);
      cardsInhand := cardsInhand[pai.kind := row];
      if b !in row {
        return;
      }
      cardsInhand := cardsInhand[pai.kind := RemoveFirst(row, b)];
      AppendMeld(pai.kind, meld);
    }

    /** The loops that push a meld's tiles one by one. */
    method AppendMeld(kind: int, meld: seq<int>)
      requires |meld| > 0
      modifies this`cardsOuthand
      ensures cardsOuthand == old(cardsOuthand)[kind := Values(old(cardsOuthand), kind) + meld]
    {
      for i := 0 to |meld|
        invariant cardsOuthand == if i == 0 then old(cardsOuthand)
                                  else old(cardsOuthand)[kind := Values(old(cardsOuthand), kind) + meld[..i]]
      {
        ghost var row := Values(old(cardsOuthand), kind);
        assert row + meld[..i] + [meld[i]] == row + meld[..i + 1];
        assert meld[..0] == [] && row + [] == row;
        cardsOuthand := cardsOuthand[kind := Values(cardsOuthand, kind) + [meld[i]]];
      }
      assert meld[..|meld|] == meld;
    }

    method CheckPeng(pai: Card, allowed: bool) returns (ok: bool)
      requires Proper(cardsInhand)
      ensures ok == CheckPengPai(State(), pai, allowed)
    {
      if !allowed {
        return false;
      }
      var discards := ShouldDa();
      if discards || pai.kind !in cardsInhand {
        return false;
      }
      return Count(cardsInhand[pai.kind], pai.value) >= 2;
    }

    method Peng(pai: Card, allowed: bool)
      requires Proper(cardsInhand)
      modifies this
      ensures State() == OnPengPai(old(State()), pai, allowed)
      ensures var held := HandTiles(old(cardsInhand));
              HandTiles(cardsInhand) == if allowed && (|held| > 14 || |held| % 3 != 2) && held[pai] >= 2
                                        then held - multiset{pai, pai} else held
    {
      hide Count, RemoveFirst, Size, CheckPengPai, Proper, HandTiles;
      PengTiles(State(), pai, allowed);
      var ok := CheckPeng(pai, allowed);
      if !ok {
        return;
      }
      PengKind(State(), pai, allowed);
      TakeTwice(pai.kind, pai.value);
      AppendMeld(pai.kind, [pai.value, pai.value, pai.value]);
    }

    /** The loop that takes two equal tiles out of the hand. */
    method TakeTwice(kind: int, value: int)
      requires kind in cardsInhand
      modifies this`cardsInhand
      ensures cardsInhand == old(cardsInhand)[kind := RemoveFirst(RemoveFirst(old(cardsInhand)[kind], value), value)]
    {
      hide RemoveFirst;
      ghost var hand := cardsInhand[kind];
      ghost var rows := [hand, RemoveFirst(hand, value), RemoveFirst(RemoveFirst(hand, value), value)];
      for i := 0 to 2
        invariant cardsInhand == old(cardsInhand)[kind := rows[i]]
      {
        cardsInhand := cardsInhand[kind := RemoveFirst(cardsInhand[kind], value)];
      }
    }

    method CheckGang(pai: Card, self: bool, r: GangRules) returns (ok: bool)
      requires pai.kind in cardsInhand || !self
      ensures ok == CheckGangPai(State(), pai, self, r)
    {
      if r.banned {
        return false;
      }
      var hasGang, mine := false, self;
      if pai.kind in cardsInhand {
        var count := Count(cardsInhand[pai.kind], pai.value);
        if count == 3 && r.mingPiao {
          hasGang := true;
        } else if count == 4 && r.anGangPiao {
          if r.closed {
            return false;
          }
          hasGang := true;
        } else if count == 1 {
          mine := true;
        }
      }
      if !r.mingPiao {
        return false;
      }
      if !hasGang && mine {
        if pai.kind !in cardsOuthand || |cardsOuthand[pai.kind]| % 3 != 0 {
          return false;
        }
        var row := cardsOuthand[pai.kind];
        if pai.value !in row {
          return false;
        }
        var p := IndexOf(row, pai.value) + 1;
        if p == |row| {
          return false;
        }
        p := p + 1;
        if p == |row| {
          return false;
        }
        hasGang := row[p - 1] == pai.value && row[p] == pai.value;
      }
      return hasGang && r.keepsTing;
    }

    method LayDownGang(pai: Card, paiSource: int, source: int, self: bool, r: GangRules)
      requires pai.kind in cardsInhand || !self
      modifies this
      ensures State() == OnGangPai(old(State()), pai, paiSource, source, self, r)
    {
      hide CheckGangPai;
      var ok := CheckGang(pai, self, r);
      if !ok {
        return;
      }
      assert pai.kind in cardsInhand by {
        KongHasRow(State(), pai, self, r);
      }
      var count := Count(cardsInhand[pai.kind], pai.value);
      ghost var ming0, an0 := minggang, angang;
      assert ming0 + [] + [] == ming0 && an0 + [] == an0;
      if count == 3 {
        minggang := minggang + [Gang(pai, paiSource)];
      } else if count == 4 {
        if r.closed {
          return;
        }
        angang := angang + [Gang(pai, paiSource)];
      }
      cardsInhand := cardsInhand[pai.kind := RemoveAll(cardsInhand[pai.kind], pai.value)];
      if pai.kind in cardsOuthand {
        if Count(cardsOuthand[pai.kind], pai.value) == 3 {
          minggang := minggang + [Gang(pai, source)];
          cardsOuthand := cardsOuthand[pai.kind := RemoveAll(cardsOuthand[pai.kind], pai.value)];
        }
      }
    }

    method BeenQiangGang(pai: Card, self: bool, r: GangRules)
      requires pai.kind in cardsInhand || !self
      modifies this
      ensures State() == OnBeenQiangGang(old(State()), pai, self, r)
    {
      var ok := CheckGang(pai, self, r);
      if !ok {
        return;
      }
      assert pai.kind in cardsInhand by {
        KongHasRow(State(), pai, self, r);
      }
      cardsInhand := cardsInhand[pai.kind := RemoveAll(cardsInhand[pai.kind], pai.value)];
      if pai.kind in cardsOuthand {
        if Count(cardsOuthand[pai.kind], pai.value) == 3 {
          cardsOuthand := cardsOuthand[pai.kind := RemoveAll(cardsOuthand[pai.kind], pai.value)];
        }
      }
    }

    method BeenQiangGangWithGivingUp(pai: Card, source: int)
      modifies this
      ensures State() == OnBeenQiangGangWithGivingUp(old(State()), pai, source)
    {
      minggang := minggang + [Gang(pai, source)];
    }

    /** `CheckFengGangPai`, `CheckJianGangPai`. */
    method CheckWindOrDragon(kind: int, allowed: bool) returns (ok: bool)
      ensures ok == CheckXuanFeng(State(), kind, allowed)
    {
      if !allowed || kind !in cardsInhand {
        return false;
      }
      var last := if kind == CARD_TYPE_FENG then 4 else 3;
      for v := 1 to last + 1
        invariant forall w :: 1 <= w < v ==> w in cardsInhand[kind]
      {
        if v !in cardsInhand[kind] {
          return false;
        }
      }
      return true;
    }

    /** The loop that takes one tile of each wind or dragon out of the hand. */
    method TakeEach(kind: int, last: nat)
      requires kind in cardsInhand
      modifies this`cardsInhand
      ensures cardsInhand == old(cardsInhand)[kind := RemoveEach(old(cardsInhand)[kind], last)]
    {
      hide RemoveEach, RemoveFirst;
      ghost var row := cardsInhand[kind];
      assert RemoveEach(row, 0) == row by {
        RemoveNone(row);
      }
      for v := 1 to last + 1
        invariant cardsInhand == old(cardsInhand)[kind := RemoveEach(row, v - 1)]
      {
        RemoveEachStep(row, v - 1);
        if v in cardsInhand[kind] {
          cardsInhand := cardsInhand[kind := RemoveFirst(cardsInhand[kind], v)];
        }
      }
    }

    method GangFengPai(allowed: bool)
      modifies this
      ensures State() == OnGangFengPai(old(State()), allowed)
      ensures var held, winds := HandTiles(old(cardsInhand)), multiset{Card(4, 1), Card(4, 2), Card(4, 3), Card(4, 4)};
              if allowed && winds <= held then HandTiles(cardsInhand) == held - winds && fenggang == old(fenggang) + 1
              else State() == old(State())
    {
      hide RemoveEach, HoldsAll, HandTiles;
      WindKongTiles(State(), allowed);
      var ok := CheckWindOrDragon(CARD_TYPE_FENG, allowed);
      if ok {
        TakeEach(CARD_TYPE_FENG, 4);
        fenggang := fenggang + 1;
      }
    }

    method GangJianPai(allowed: bool)
      modifies this
      ensures State() == OnGangJianPai(old(State()), allowed)
      ensures var held, dragons := HandTiles(old(cardsInhand)), multiset{Card(5, 1), Card(5, 2), Card(5, 3)};
              if allowed && dragons <= held then HandTiles(cardsInhand) == held - dragons && jiangang == old(jiangang) + 1
              else State() == old(State())
    {
      hide RemoveEach, HoldsAll, HandTiles;
      DragonKongTiles(State(), allowed);
      var ok := CheckWindOrDragon(CARD_TYPE_JIAN, allowed);
      if ok {
        TakeEach(CARD_TYPE_JIAN, 3);
        jiangang := jiangang + 1;
      }
    }

    method GangZhuiFeng(oper: ZhuiFeng, pai: Card)
      modifies this
      ensures State() == OnGangZhuiFeng(old(State()), oper, pai)
    {
      cardsInhand := cardsInhand[pai.kind := Values(cardsInhand, pai.kind)];
      if pai.value !in cardsInhand[pai.kind] {
        return;
      }
      if oper.Feng? {
        if fenggang == 0 {
          return;
        }
        zhuiFenggang := zhuiFenggang + [pai];
      } else if oper.Jian? {
        if jiangang == 0 {
          return;
        }
        zhuiJiangang := zhuiJiangang + [pai];
      }
      cardsInhand := cardsInhand[pai.kind := RemoveFirst(cardsInhand[pai.kind], pai.value)];
    }
  }
}
