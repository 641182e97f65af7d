/** Which discards leave a ready hand: `CheckTingPai` offers them, `CanTingPai` accepts one,
    and `CheckQiDui` is the seven-pairs test (GameServer/Player.cpp). */
module TingPai {
  import opened Tiles
  import opened Hands

  /** The ordinary win test and the 幺九 rule, as functions of the tiles. */
  datatype TingRules = TingRules(win: multiset<Card> -> bool, yaoJiu: multiset<Card> -> bool)

  /** The faces that complete the remaining tiles, in the order they are tried. */
  function Completions(rules: TingRules, rest: multiset<Card>, faces: seq<Card>): seq<Card> {
    if faces == [] then []
    else (if rules.win(rest + multiset{faces[0]}) then [faces[0]] else []) + Completions(rules, rest, faces[1..])
  }

  lemma {:induction false} CompletionsAre(rules: TingRules, rest: multiset<Card>, faces: seq<Card>)
    ensures forall f :: f in Completions(rules, rest, faces) <==> f in faces && rules.win(rest + multiset{f})
  {
    if faces != [] {
      CompletionsAre(rules, rest, faces[1..]);
    }
  }

  lemma {:induction false} CompletionsSnoc(rules: TingRules, rest: multiset<Card>, faces: seq<Card>, i: nat)
    requires i < |faces|
    ensures Completions(rules, rest, faces[..i + 1])
         == Completions(rules, rest, faces[..i]) + if rules.win(rest + multiset{faces[i]}) then [faces[i]] else []
  {
    if i > 0 {
      CompletionsSnoc(rules, rest, faces[1..], i - 1);
      assert faces[..i + 1][1..] == faces[1..][..i] && faces[..i][1..] == faces[1..][..i - 1];
    }
  }

  /** Discarding `c` leaves a 幺九 and at least one face that wins. */
  ghost predicate Offerable(rules: TingRules, hand: multiset<Card>, faces: seq<Card>, c: Card) {
    && c in hand
    && rules.yaoJiu(hand - multiset{c})
    && exists f :: f in faces && rules.win(hand - multiset{c} + multiset{f})
  }

  /** How often the list names `c`: once per copy in hand and per completing face. */
  function OfferCount(rules: TingRules, hand: multiset<Card>, faces: seq<Card>, c: Card): nat {
    if rules.yaoJiu(hand - multiset{c}) then |Completions(rules, hand - multiset{c}, faces)| else 0
  }

  class Player {
    const rules: TingRules
    const faces: seq<Card>
    const baoRules: bool
    var cardsInhand: Hand
    var hasTing: bool
    var cardsHu: seq<Card>

    constructor (rules: TingRules, faces: seq<Card>, baoRules: bool, hand: Hand)
      ensures this.rules == rules && this.faces == faces && this.baoRules == baoRules
      ensures cardsInhand == hand && !hasTing && cardsHu == []
    {
      this.rules, this.faces, this.baoRules := rules, faces, baoRules;
      cardsInhand, hasTing, cardsHu := hand, false, [];
    }

    function Tiles(): multiset<Card>
      reads this`cardsInhand
    {
      HandTiles(cardsInhand)
    }

    /** Lists the discards that leave a ready hand. */
    method CheckTingPai() returns (found: bool, pais: seq<Card>)
      requires forall k :: k in cardsInhand ==> CARD_TYPE_WANZI <= k <= CARD_TYPE_JIAN
      ensures found <==> pais != []
      ensures !baoRules || hasTing ==> pais == []
      ensures baoRules && !hasTing ==> forall c :: c in pais <==> Offerable(rules, Tiles(), faces, c)
      ensures baoRules && !hasTing ==>
                forall c :: c in pais <==> c in Tiles() && rules.yaoJiu(Tiles() - multiset{c})
                                           && exists f :: f in faces && rules.win(Tiles() - multiset{c} + multiset{f})
      ensures baoRules && !hasTing ==>
                forall c :: multiset(pais)[c] == Tiles()[c] * OfferCount(rules, Tiles(), faces, c)
    {
      pais := [];
      if hasTing || !baoRules {
        return false, pais;
      }
      var cardList := cardsInhand;
      ghost var tiles := Tiles();
      ghost var seen: multiset<Card> := multiset{};
      hide HandTiles, OfferCount, RowTiles, Offerable, Counted;
      CountNothing(rules, tiles, faces);
      for kind := CARD_TYPE_WANZI to CARD_TYPE_JIAN + 1
        invariant seen == KindsBelow(cardList, kind)
        invariant Counted(rules, tiles, faces, seen, pais)
      {
        ghost var below := seen;
        var values := Values(cardList, kind);
        for i := 0 to |values|
          invariant seen == below + RowTiles(kind, values[..i])
          invariant Counted(rules, tiles, faces, seen, pais)
        {
          pais := TryDiscard(cardList, Card(kind, values[i]), pais, tiles, seen);
          seen := seen + multiset{Card(kind, values[i])};
          RowStep(kind, values, i);
        }
        assert values[..|values|] == values;
        NextKind(cardList, kind);
      }
      CountedIsOffered(rules, tiles, faces, pais);
      found := pais != [];
    }

    /** Takes one tile out of a trial copy of the hand and lists it once per completing face. */
    method TryDiscard(cardList: Hand, c: Card, pais: seq<Card>, ghost tiles: multiset<Card>, ghost seen: multiset<Card>)
      returns (r: seq<Card>)
      requires CARD_TYPE_WANZI <= c.kind <= CARD_TYPE_JIAN && c.value in Values(cardList, c.kind)
      requires tiles == HandTiles(cardList)
      requires Counted(rules, tiles, faces, seen, pais)
      ensures Counted(rules, tiles, faces, seen + multiset{c}, r)
    {
      HandRemove(cardList, c);
      var trial := cardList[c.kind := RemoveFirst(cardList[c.kind], c.value)];
      r := pais;
      if rules.yaoJiu(HandTiles(trial)) {
        r := OfferFor(HandTiles(trial), c, pais);
      }
      CountOne(rules, tiles, faces, seen, pais, c, r);
    }

    /** One entry per completing face. */
    method OfferFor(rest: multiset<Card>, c: Card, pais: seq<Card>) returns (r: seq<Card>)
      ensures multiset(r) == multiset(pais)[c := multiset(pais)[c] + |Completions(rules, rest, faces)|]
    {
      r := pais;
      for j := 0 to |faces|
        invariant multiset(r) == multiset(pais)[c := multiset(pais)[c] + |Completions(rules, rest, faces[..j])|]
      {
        CompletionsSnoc(rules, rest, faces, j);
        if rules.win(rest + multiset{faces[j]}) {
          r := r + [c];
        }
      }
      assert faces[..|faces|] == faces;
    }

    /** Whether the discard `pai` leaves a ready hand; the first answer fixes the faces waited for. */
    method CanTingPai(pai: Card) returns (ok: bool)
      requires CARD_TYPE_WANZI <= pai.kind <= CARD_TYPE_JIAN
      modifies this`cardsHu
      ensures ok <==>
              && baoRules && Accepted(rules, Tiles(), faces, pai)
              && (old(cardsHu) != [] ==> forall f :: f in faces && rules.win(Tiles() - multiset{pai} + multiset{f}) ==>
                                           f in old(cardsHu))
      ensures cardsHu == if ok && old(cardsHu) == [] then Completions(rules, Tiles() - multiset{pai}, faces)
                         else old(cardsHu)
    {
      if !baoRules {
        return false;
      }
      HandMember(cardsInhand, pai);
      if pai.value !in Values(cardsInhand, pai.kind) {
        return false;
      }
      HandRemove(cardsInhand, pai);
      ghost var rest := Tiles() - multiset{pai};
      var trial := cardsInhand[pai.kind := RemoveFirst(cardsInhand[pai.kind], pai.value)];
      assert HandTiles(trial) == rest;
      var waits := Waits(trial);
      CompletionsAre(rules, rest, faces);
      hide HandTiles, Completions;
      assert waits != [] ==> waits[0] in waits;
      if |cardsHu| > 0 && |waits| > 0 {
        var same := AllAmong(waits);
        if !same {
          return false;
        }
      }
      if |waits| > 0 && |cardsHu| == 0 {
        cardsHu := waits;
      }
      ok := |waits| > 0;
    }

    /** 不能换听: every face waited for now was waited for before. */
    method AllAmong(waits: seq<Card>) returns (same: bool)
      ensures same <==> forall f :: f in waits ==> f in cardsHu
    {
      var i := 0;
      while i < |waits|
        invariant 0 <= i <= |waits|
        invariant forall j :: 0 <= j < i ==> waits[j] in cardsHu
      {
        if waits[i] !in cardsHu {
          assert waits[i] in waits;
          return false;
        }
        i := i + 1;
      }
      same := true;
    }

    /** The faces that win with the given hand. */
    method Waits(hand: Hand) returns (waits: seq<Card>)
      ensures waits == Completions(rules, HandTiles(hand), faces)
    {
      waits := [];
      for j := 0 to |faces|
        invariant waits == Completions(rules, HandTiles(hand), faces[..j])
      {
        CompletionsSnoc(rules, HandTiles(hand), faces, j);
        if rules.win(HandTiles(hand) + multiset{faces[j]}) {
          waits := waits + [faces[j]];
        }
      }
      assert faces[..|faces|] == faces;
    }
  }

  /** Every tile seen so far is listed as often as it should be. */
  ghost predicate Counted(rules: TingRules, hand: multiset<Card>, faces: seq<Card>, seen: multiset<Card>, pais: seq<Card>) {
    forall c :: multiset(pais)[c] == seen[c] * OfferCount(rules, hand, faces, c)
  }

  lemma CountNothing(rules: TingRules, hand: multiset<Card>, faces: seq<Card>)
    ensures Counted(rules, hand, faces, multiset{}, [])
  {
  }

  lemma CountOne(rules: TingRules, hand: multiset<Card>, faces: seq<Card>, seen: multiset<Card>, pais: seq<Card>,
                 c: Card, r: seq<Card>)
    requires Counted(rules, hand, faces, seen, pais)
    requires multiset(r) == multiset(pais)[c := multiset(pais)[c] + OfferCount(rules, hand, faces, c)]
    ensures Counted(rules, hand, faces, seen + multiset{c}, r)
  {
    hide OfferCount;
    OneMore(seen[c], OfferCount(rules, hand, faces, c));
    forall d ensures multiset(r)[d] == (seen + multiset{c})[d] * OfferCount(rules, hand, faces, d) {
      assert multiset(pais)[d] == seen[d] * OfferCount(rules, hand, faces, d);
      if d != c {
        assert (seen + multiset{c})[d] == seen[d];
      }
    }
  }

  lemma CountedIsOffered(rules: TingRules, hand: multiset<Card>, faces: seq<Card>, pais: seq<Card>)
    requires Counted(rules, hand, faces, hand, pais)
    ensures forall c :: c in pais <==> Offerable(rules, hand, faces, c)
    ensures forall c :: multiset(pais)[c] == hand[c] * OfferCount(rules, hand, faces, c)
  {
    forall c ensures c in pais <==> Offerable(rules, hand, faces, c) {
      OfferedExactly(rules, hand, faces, c, multiset(pais)[c]);
    }
  }

  lemma RowStep(kind: int, values: seq<int>, i: nat)
    requires i < |values|
    ensures RowTiles(kind, values[..i + 1]) == RowTiles(kind, values[..i]) + multiset{Card(kind, values[i])}
  {
    assert values[..i + 1] == values[..i] + [values[i]];
    RowAppend(kind, values[..i], values[i]);
  }

  lemma NextKind(h: Hand, kind: int)
    requires CARD_TYPE_WANZI <= kind <= CARD_TYPE_JIAN
    ensures KindsBelow(h, kind + 1) == KindsBelow(h, kind) + RowTiles(kind, Values(h, kind))
  {
    hide RowTiles;
  }

  lemma OneMore(a: nat, n: nat)
    ensures (a + 1) * n == a * n + n
  {
  }

  function KindsBelow(h: Hand, kind: int): multiset<Card> {
    (if kind > 1 then RowTiles(1, Values(h, 1)) else multiset{})
    + (if kind > 2 then RowTiles(2, Values(h, 2)) else multiset{})
    + (if kind > 3 then RowTiles(3, Values(h, 3)) else multiset{})
    + (if kind > 4 then RowTiles(4, Values(h, 4)) else multiset{})
    + (if kind > 5 then RowTiles(5, Values(h, 5)) else multiset{})
  }

  lemma OfferedExactly(rules: TingRules, hand: multiset<Card>, faces: seq<Card>, c: Card, n: nat)
    requires n == hand[c] * OfferCount(rules, hand, faces, c)
    ensures n > 0 <==> Offerable(rules, hand, faces, c)
  {
    var waits := Completions(rules, hand - multiset{c}, faces);
    CompletionsAre(rules, hand - multiset{c}, faces);
    assert waits != [] ==> waits[0] in waits;
    if hand[c] > 0 && OfferCount(rules, hand, faces, c) > 0 {
      assert n > 0 by {
        Positive(hand[c], OfferCount(rules, hand, faces, c));
      }
    }
  }

  lemma {:induction false} Positive(a: nat, b: nat)
    requires a > 0 && b > 0
    ensures a * b > 0
  {
    OneMore(a - 1, b);
  }

  // ---------------------------------------------------- offered and accepted discards

  /** With no faces fixed yet, the discards accepted are those offered and those that leave no 幺九. */
  ghost predicate Accepted(rules: TingRules, hand: multiset<Card>, faces: seq<Card>, c: Card) {
    c in hand && exists f :: f in faces && rules.win(hand - multiset{c} + multiset{f})
  }

  /** Whatever `CheckTingPai` offers, `CanTingPai` accepts while no faces are fixed; what it
      accepts beyond that are the discards that leave no 幺九. */
  method OfferThenAccept(p: Player, c: Card) returns (offered: bool, ok: bool)
    requires forall k :: k in p.cardsInhand ==> CARD_TYPE_WANZI <= k <= CARD_TYPE_JIAN
    requires CARD_TYPE_WANZI <= c.kind <= CARD_TYPE_JIAN
    requires p.baoRules && !p.hasTing && p.cardsHu == []
    modifies p`cardsHu
    ensures offered <==> ok && p.rules.yaoJiu(p.Tiles() - multiset{c})
  {
    var found, pais := p.CheckTingPai();
    offered := c in pais;
    ok := p.CanTingPai(c);
  }

  // -------------------------------------------------------------------- seven pairs

  predicate PairsUp(values: seq<int>) {
    |values| % 2 == 0 && forall i :: 0 <= i < |values| / 2 ==> values[2 * i] == values[2 * i + 1]
  }

  predicate AllEven(values: seq<int>) {
    forall x :: x in values ==> multiset(values)[x] % 2 == 0
  }

  /** On a sorted list neighbours pair up exactly when every value occurs an even number of times. */
  lemma {:induction false} PairsUpIsAllEven(values: seq<int>)
    requires Ascending(values)
    ensures PairsUp(values) <==> AllEven(values)
  {
    if |values| >= 2 && values[0] == values[1] {
      PairsUpIsAllEven(values[2..]);
      PairsUpTail(values);
      AllEvenTail(values);
    } else if values != [] {
      LoneFirst(values);
      assert |values| >= 2 ==> values[2 * 0] != values[2 * 0 + 1];
    }
  }

  lemma LoneFirst(values: seq<int>)
    requires Ascending(values) && values != [] && (|values| >= 2 ==> values[0] != values[1])
    ensures !AllEven(values)
  {
    assert values == [values[0]] + values[1..];
    assert forall i :: 1 <= i < |values| ==> values[1] <= values[i];
    assert values[0] !in values[1..];
    assert multiset(values)[values[0]] == 1;
  }

  lemma AllEvenTail(values: seq<int>)
    requires |values| >= 2 && values[0] == values[1]
    ensures AllEven(values) <==> AllEven(values[2..])
  {
    var x0, rest := values[0], values[2..];
    assert values == [x0] + [x0] + rest;
    assert multiset(values) == multiset{x0} + multiset{x0} + multiset(rest);
    if AllEven(values) {
      forall x | x in rest ensures multiset(rest)[x] % 2 == 0 {
        assert x in values && multiset(values)[x] % 2 == 0;
      }
    }
    if AllEven(rest) {
      forall x | x in values ensures multiset(values)[x] % 2 == 0 {
        assert x in rest || multiset(rest)[x] == 0;
      }
    }
  }

  lemma PairsUpTail(values: seq<int>)
    requires |values| >= 2 && values[0] == values[1]
    ensures PairsUp(values) <==> PairsUp(values[2..])
  {
    var rest := values[2..];
    if PairsUp(values) {
      forall i | 0 <= i < |rest| / 2 ensures rest[2 * i] == rest[2 * i + 1] {
        assert values[2 * (i + 1)] == values[2 * (i + 1) + 1];
      }
    }
    if PairsUp(rest) {
      forall i | 0 <= i < |values| / 2 ensures values[2 * i] == values[2 * i + 1] {
        if i > 0 {
          assert rest[2 * (i - 1)] == rest[2 * (i - 1) + 1];
        }
      }
    }
  }

  /** Seven pairs: nothing melded, and every kind pairs up once sorted. */
  method CheckQiDui(hasQiDui: bool, cardsInhand: Hand, cardsOuthand: Hand) returns (ok: bool)
    requires forall k :: k in cardsInhand ==> CARD_TYPE_WANZI <= k <= CARD_TYPE_JIAN
    ensures ok <==> hasQiDui && |cardsOuthand| == 0 && forall c :: HandTiles(cardsInhand)[c] % 2 == 0
  {
    if !hasQiDui || |cardsOuthand| != 0 {
      return false;
    }
    for kind := CARD_TYPE_WANZI to CARD_TYPE_JIAN + 1
      invariant forall k :: 1 <= k < kind ==> AllEven(Values(cardsInhand, k))
    {
      var sorted := SortValues(Values(cardsInhand, kind));
      PairsUpIsAllEven(sorted);
      var paired := CheckPairs(sorted);
      SameBag(sorted, Values(cardsInhand, kind));
      if !paired {
        EvenHand(cardsInhand);
        return false;
      }
    }
    EvenHand(cardsInhand);
    ok := true;
  }

  method CheckPairs(values: seq<int>) returns (ok: bool)
    ensures ok == PairsUp(values)
  {
    if |values| % 2 != 0 {
      return false;
    }
    var i := 0;
    while i < |values|
      invariant 0 <= i <= |values| && i % 2 == 0
      invariant forall j :: 0 <= j < i / 2 ==> values[2 * j] == values[2 * j + 1]
    {
      if values[i] != values[i + 1] {
        assert values[2 * (i / 2)] != values[2 * (i / 2) + 1];
        return false;
      }
      i := i + 2;
    }
    ok := true;
  }

  lemma SameBag(a: seq<int>, b: seq<int>)
    requires multiset(a) == multiset(b)
    ensures AllEven(a) <==> AllEven(b)
  {
    assert forall x :: x in a <==> x in multiset(a);
    assert forall x :: x in b <==> x in multiset(b);
  }

  lemma EvenHand(h: Hand)
    requires forall k :: k in h ==> CARD_TYPE_WANZI <= k <= CARD_TYPE_JIAN
    ensures (forall k :: CARD_TYPE_WANZI <= k <= CARD_TYPE_JIAN ==> AllEven(Values(h, k))) <==>
            forall c :: HandTiles(h)[c] % 2 == 0
  {
    hide HandTiles;
    forall c: Card ensures HandTiles(h)[c] == if 1 <= c.kind <= 5 then multiset(Values(h, c.kind))[c.value] else 0 {
      HandCount(h, c);
    }
    if forall c :: HandTiles(h)[c] % 2 == 0 {
      forall k, x | CARD_TYPE_WANZI <= k <= CARD_TYPE_JIAN && x in Values(h, k)
        ensures multiset(Values(h, k))[x] % 2 == 0
      {
        assert HandTiles(h)[Card(k, x)] % 2 == 0;
      }
    }
    if forall k :: CARD_TYPE_WANZI <= k <= CARD_TYPE_JIAN ==> AllEven(Values(h, k)) {
      forall c ensures HandTiles(h)[c] % 2 == 0 {
        if 1 <= c.kind <= 5 {
          assert c.value in Values(h, c.kind) || multiset(Values(h, c.kind))[c.value] == 0;
        }
      }
    }
  }
}
