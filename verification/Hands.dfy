/** A hand as the server keeps it: one list of face values per tile kind. */
module Hands {
  import opened Tiles

  type Hand = map<int, seq<int>>

  function Values(h: Hand, kind: int): seq<int> {
    if kind in h then h[kind] else []
  }

  function Row(kind: int, values: seq<int>): (r: seq<Card>)
    ensures |r| == |values| && forall i :: 0 <= i < |r| ==> r[i] == Card(kind, values[i])
  {
    seq(|values|, i requires 0 <= i < |values| => Card(kind, values[i]))
  }

  function RowTiles(kind: int, values: seq<int>): multiset<Card> {
    multiset(Row(kind, values))
  }

  /** The hand laid out kind by kind, as the win test receives it. */
  function CardList(h: Hand): seq<Card> {
    Row(1, Values(h, 1)) + Row(2, Values(h, 2)) + Row(3, Values(h, 3)) + Row(4, Values(h, 4)) + Row(5, Values(h, 5))
  }

  function HandTiles(h: Hand): multiset<Card> {
    RowTiles(1, Values(h, 1)) + RowTiles(2, Values(h, 2)) + RowTiles(3, Values(h, 3))
    + RowTiles(4, Values(h, 4)) + RowTiles(5, Values(h, 5))
  }

  predicate Ascending(values: seq<int>) {
    forall i, j :: 0 <= i < j < |values| ==> values[i] <= values[j]
  }

  /** Sorting each kind makes the whole list sorted, and the list holds the hand's tiles. */
  lemma CardListIsSorted(h: Hand)
    requires forall k :: k in h ==> Ascending(h[k])
    ensures Sorted(CardList(h)) && multiset(CardList(h)) == HandTiles(h)
  {
    var a, b, c, d, e := Row(1, Values(h, 1)), Row(2, Values(h, 2)), Row(3, Values(h, 3)), Row(4, Values(h, 4)), Row(5, Values(h, 5));
    JoinSorted(a, b, 1, 2);
    JoinSorted(a + b, c, 2, 3);
    JoinSorted(a + b + c, d, 3, 4);
    JoinSorted(a + b + c + d, e, 4, 5);
  }

  lemma JoinSorted(a: seq<Card>, b: seq<Card>, j: int, k: int)
    requires Sorted(a) && Sorted(b) && j < k
    requires (forall i :: 0 <= i < |a| ==> a[i].kind <= j) && (forall i :: 0 <= i < |b| ==> b[i].kind == k)
    ensures Sorted(a + b) && forall i :: 0 <= i < |a + b| ==> (a + b)[i].kind <= k
    ensures multiset(a + b) == multiset(a) + multiset(b)
  {
  }

  lemma RowAppend(kind: int, values: seq<int>, x: int)
    ensures RowTiles(kind, values + [x]) == RowTiles(kind, values) + multiset{Card(kind, x)}
  {
    assert Row(kind, values + [x]) == Row(kind, values) + [Card(kind, x)];
  }

  lemma RowRemove(kind: int, values: seq<int>, x: int)
    requires x in values
    ensures RowTiles(kind, RemoveFirst(values, x)) == RowTiles(kind, values) - multiset{Card(kind, x)}
    ensures Card(kind, x) in RowTiles(kind, values)
  {
    var i := IndexOf(values, x);
    var row := Row(kind, values);
    assert row == row[..i] + [Card(kind, x)] + row[i + 1..];
    assert Row(kind, RemoveFirst(values, x)) == row[..i] + row[i + 1..];
  }

  lemma RowMember(kind: int, values: seq<int>, c: Card)
    ensures c in RowTiles(kind, values) <==> c.kind == kind && c.value in values
  {
    var row := Row(kind, values);
    if c.kind == kind && c.value in values {
      assert row[IndexOf(values, c.value)] == c;
    }
  }

  /** A tile is in the hand when its value is in the list of its kind. */
  lemma HandMember(h: Hand, c: Card)
    requires CARD_TYPE_WANZI <= c.kind <= CARD_TYPE_JIAN
    ensures c in HandTiles(h) <==> c.value in Values(h, c.kind)
  {
    forall k {
      RowMember(k, Values(h, k), c);
    }
  }

  /** Changing one kind's list changes the hand by that kind's tiles only. */
  lemma HandUpdate(h: Hand, kind: int, values: seq<int>)
    requires CARD_TYPE_WANZI <= kind <= CARD_TYPE_JIAN
    ensures HandTiles(h[kind := values]) + RowTiles(kind, Values(h, kind)) == HandTiles(h) + RowTiles(kind, values)
  {
    var g := h[kind := values];
    hide Row, RowTiles;
    assert forall k :: Values(g, k) == if k == kind then values else Values(h, k);
    forall c ensures (HandTiles(g) + RowTiles(kind, Values(h, kind)))[c] == (HandTiles(h) + RowTiles(kind, values))[c] {
    }
  }

  lemma HandDraw(h: Hand, c: Card)
    requires CARD_TYPE_WANZI <= c.kind <= CARD_TYPE_JIAN
    ensures HandTiles(h[c.kind := Values(h, c.kind) + [c.value]]) == HandTiles(h) + multiset{c}
  {
    var old_, new_ := Values(h, c.kind), Values(h, c.kind) + [c.value];
    HandUpdate(h, c.kind, new_);
    RowAppend(c.kind, old_, c.value);
    Shift(HandTiles(h[c.kind := new_]), RowTiles(c.kind, old_), HandTiles(h), multiset{c});
  }

  lemma HandRemove(h: Hand, c: Card)
    requires CARD_TYPE_WANZI <= c.kind <= CARD_TYPE_JIAN && c.value in Values(h, c.kind)
    ensures c in HandTiles(h)
    ensures HandTiles(h[c.kind := RemoveFirst(h[c.kind], c.value)]) == HandTiles(h) - multiset{c}
  {
    HandMember(h, c);
    HandUpdate(h, c.kind, RemoveFirst(h[c.kind], c.value));
    RowRemove(c.kind, h[c.kind], c.value);
    var g, row := HandTiles(h[c.kind := RemoveFirst(h[c.kind], c.value)]), RowTiles(c.kind, h[c.kind]);
    assert row == (row - multiset{c}) + multiset{c};
    Shift(HandTiles(h), row - multiset{c}, g, multiset{c});
  }

  lemma Shift<T>(a: multiset<T>, r: multiset<T>, b: multiset<T>, x: multiset<T>)
    requires a + r == b + (r + x)
    ensures a == b + x
  {
    assert forall t :: a[t] == (a + r)[t] - r[t];
  }

  // ------------------------------------------------------------------- sorting a kind

  function Insert(values: seq<int>, x: int): (r: seq<int>)
    requires Ascending(values)
    ensures Ascending(r) && multiset(r) == multiset(values) + multiset{x}
    ensures |r| == |values| + 1 && (r[0] == x || (values != [] && r[0] == values[0]))
  {
    if values == [] || x <= values[0] then [x] + values
    else
      assert values == [values[0]] + values[1..];
      assert forall i :: 0 <= i < |values| ==> values[0] <= values[i];
      var t := Insert(values[1..], x);
      assert forall i :: 0 <= i < |t| ==> t[0] <= t[i];
      [values[0]] + t
  }

  /** `std::sort` on one kind's values. */
  function SortValues(values: seq<int>): (r: seq<int>)
    ensures Ascending(r) && multiset(r) == multiset(values) && |r| == |values|
  {
    if values == [] then []
    else
      assert values == [values[0]] + values[1..];
      Insert(SortValues(values[1..]), values[0])
  }

  function SortHand(h: Hand): Hand {
    map k | k in h :: SortValues(h[k])
  }

  lemma {:induction false} RowCount(kind: int, values: seq<int>, c: Card)
    ensures RowTiles(kind, values)[c] == if c.kind == kind then multiset(values)[c.value] else 0
  {
    if values != [] {
      var last := |values| - 1;
      assert values == values[..last] + [values[last]];
      RowAppend(kind, values[..last], values[last]);
      RowCount(kind, values[..last], c);
    }
  }

  lemma HandCount(h: Hand, c: Card)
    ensures HandTiles(h)[c] ==
            if CARD_TYPE_WANZI <= c.kind <= CARD_TYPE_JIAN then multiset(Values(h, c.kind))[c.value] else 0
  {
    hide RowTiles;
    RowCount(1, Values(h, 1), c);
    RowCount(2, Values(h, 2), c);
    RowCount(3, Values(h, 3), c);
    RowCount(4, Values(h, 4), c);
    RowCount(5, Values(h, 5), c);
  }

  lemma SortKeepsTiles(h: Hand)
    ensures HandTiles(SortHand(h)) == HandTiles(h)
  {
    hide Row, RowTiles;
    forall kind ensures RowTiles(kind, Values(SortHand(h), kind)) == RowTiles(kind, Values(h, kind)) {
      var a, b := Values(SortHand(h), kind), Values(h, kind);
      assert multiset(a) == multiset(b);
      forall c ensures RowTiles(kind, a)[c] == RowTiles(kind, b)[c] {
        RowCount(kind, a, c);
        RowCount(kind, b, c);
      }
    }
  }
}
