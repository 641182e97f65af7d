/** Mahjong tiles as the game server sees them: a kind and a face value. */
module Tiles {

  const CARD_TYPE_WANZI: int := 1
  const CARD_TYPE_BINGZI: int := 2
  const CARD_TYPE_TIAOZI: int := 3
  const CARD_TYPE_FENG: int := 4
  const CARD_TYPE_JIAN: int := 5

  datatype Option<+T> = None | Some(value: T)

  datatype Card = Card(kind: int, value: int) {
    function Plus(n: int): Card {
      Card(kind, value + n)
    }
  }

  /** Winds and dragons: the kinds that never form a run. */
  predicate IsHonor(kind: int) {
    kind == CARD_TYPE_FENG || kind == CARD_TYPE_JIAN
  }

  /** The order of a hand laid out kind by kind, each kind ascending. */
  predicate Leq(a: Card, b: Card) {
    a.kind < b.kind || (a.kind == b.kind && a.value <= b.value)
  }

  predicate Sorted(cards: seq<Card>) {
    forall i, j :: 0 <= i < j < |cards| ==> Leq(cards[i], cards[j])
  }

  /** The position `std::find` stops at. */
  function IndexOf<T(==)>(s: seq<T>, x: T): (i: nat)
    requires x in s
    ensures i < |s| && s[i] == x && x !in s[..i]
  {
    if s[0] == x then 0 else 1 + IndexOf(s[1..], x)
  }

  /** `s` without its first `x`; `s` itself when there is none. */
  function RemoveFirst<T(==)>(s: seq<T>, x: T): (r: seq<T>)
    ensures multiset(r) == multiset(s) - multiset{x}
    ensures |r| == if x in s then |s| - 1 else |s|
  {
    if x in s then
      var i := IndexOf(s, x);
      assert s == s[..i] + [x] + s[i + 1..];
      s[..i] + s[i + 1..]
    else
      s
  }
}
