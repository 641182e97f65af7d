/** The wild-tile win test, `Player::CheckHuiHu` of GameServer/Player.cpp.

    Wild tiles (会牌, and the 绝头 tiles counted as wild) may stand for any face.  The
    search fills them with every multiset of faces, asks the ordinary win test each
    time, and for scoring keeps the fan set with the largest product of multiples. */
module WildSearch {
  import opened Fans
  import opened Tiles
  import Combination
  import WinningHand

  /** The ordinary win test with its fan set; both depend on the tiles only. */
  datatype WinRules = WinRules(win: multiset<Card> -> bool, fans: multiset<Card> -> set<int>, multiple: int -> nat)

  // ---------------------------------------------------------------- substitutions

  /** `w` gives each of the `k` wild tiles a face. */
  predicate IsFill(w: seq<Card>, k: nat, faces: seq<Card>) {
    |w| == k && forall i :: 0 <= i < k ==> w[i] in faces
  }

  predicate InRange(v: seq<nat>, n: nat) {
    forall i :: 0 <= i < |v| ==> v[i] < n
  }

  function Picked(faces: seq<Card>, v: seq<nat>): (w: seq<Card>)
    requires InRange(v, |faces|)
    ensures IsFill(w, |v|, faces)
  {
    seq(|v|, i requires 0 <= i < |v| => faces[v[i]])
  }

  ghost predicate WinsWith(rules: WinRules, base: multiset<Card>, w: seq<Card>) {
    rules.win(base + multiset(w))
  }

  ghost predicate CanFill(rules: WinRules, base: multiset<Card>, k: nat, faces: seq<Card>) {
    exists w :: IsFill(w, k, faces) && WinsWith(rules, base, w)
  }

  /** `best` beats every winning filling, and is the fan set of one when any scores at all. */
  ghost predicate IsBest(rules: WinRules, base: multiset<Card>, k: nat, faces: seq<Card>, best: set<int>) {
    && (forall w :: IsFill(w, k, faces) && WinsWith(rules, base, w) ==>
          Product(rules.multiple, rules.fans(base + multiset(w))) <= Product(rules.multiple, best))
    && ((exists w :: IsFill(w, k, faces) && WinsWith(rules, base, w)
                     && Product(rules.multiple, rules.fans(base + multiset(w))) >= 1) ==>
          exists w :: IsFill(w, k, faces) && WinsWith(rules, base, w) && best == rules.fans(base + multiset(w)))
  }

  /** The last filling tried: every wild tile as the last face. */
  function LastFill(k: nat, faces: seq<Card>): (w: seq<Card>)
    requires faces != []
    ensures IsFill(w, k, faces)
  {
    seq(k, i => faces[|faces| - 1])
  }

  /** Some winning filling has a product of at least 1. */
  ghost predicate SomeScores(rules: WinRules, base: multiset<Card>, k: nat, faces: seq<Card>) {
    exists w :: IsFill(w, k, faces) && WinsWith(rules, base, w)
                && Product(rules.multiple, rules.fans(base + multiset(w))) >= 1
  }

  /** `best` is the fan set of a winning filling. */
  ghost predicate IsFansOfWin(rules: WinRules, base: multiset<Card>, k: nat, faces: seq<Card>, best: set<int>) {
    exists w :: IsFill(w, k, faces) && WinsWith(rules, base, w) && best == rules.fans(base + multiset(w))
  }

  /** What scoring keeps: the fan set of a best winning filling when any scores, and otherwise
      what the last test left. */
  ghost predicate IsKept(rules: WinRules, base: multiset<Card>, k: nat, faces: seq<Card>, best: set<int>)
    requires faces != []
  {
    && IsBest(rules, base, k, faces, best)
    && (!SomeScores(rules, base, k, faces) ==> best == FansLeft(rules, base + multiset(LastFill(k, faces))))
  }

  /** What one scoring test leaves in the fan list. */
  function FansLeft(rules: WinRules, tiles: multiset<Card>): set<int> {
    if rules.win(tiles) then rules.fans(tiles) else {}
  }

  /** The fan set kept is that of a winning filling exactly when some winning filling scores, or the
      last filling tried wins; otherwise it is the empty set of that last test. */
  lemma KeptIsOfWin(rules: WinRules, base: multiset<Card>, k: nat, faces: seq<Card>, best: set<int>)
    requires faces != [] && IsKept(rules, base, k, faces, best)
    ensures IsFansOfWin(rules, base, k, faces, best)
            <==> SomeScores(rules, base, k, faces) || WinsWith(rules, base, LastFill(k, faces))
    ensures !IsFansOfWin(rules, base, k, faces, best) ==> best == {}
  {
    assert Product(rules.multiple, {}) == 1;
    hide Product;
    var last := LastFill(k, faces);
    if !SomeScores(rules, base, k, faces) && !WinsWith(rules, base, last) {
      assert best == {};
      forall w | IsFill(w, k, faces) && WinsWith(rules, base, w) ensures rules.fans(base + multiset(w)) != {} {
        assert Product(rules.multiple, rules.fans(base + multiset(w))) < 1;
      }
    }
  }

  /** Two faces, one wild tile, a win with the first face only, and a fan without a multiple: the win is
      scored with no fan at all. */
  lemma UnconfiguredFanIsLost(base: multiset<Card>, first: Card, second: Card, fan: int, best: set<int>)
    requires first != second
    ensures var rules := OneWin(base + multiset{first}, fan); var faces := [first, second];
            && CanFill(rules, base, 1, faces)
            && (IsKept(rules, base, 1, faces, best) ==> best == {} && !IsFansOfWin(rules, base, 1, faces, best))
  {
    var rules, faces := OneWin(base + multiset{first}, fan), [first, second];
    assert IsFill([first], 1, faces) && multiset([first]) == multiset{first} && WinsWith(rules, base, [first]);
    ProductStep(rules.multiple, {fan}, fan);
    assert Product(rules.multiple, {fan}) == 0;
    hide Product;
    assert !SomeScores(rules, base, 1, faces);
    assert LastFill(1, faces) == [second];
    assert (base + multiset([second]))[second] == base[second] + 1 && (base + multiset{first})[second] == base[second];
    if IsKept(rules, base, 1, faces, best) {
      KeptIsOfWin(rules, base, 1, faces, best);
    }
  }

  /** A win test that accepts one hand, with one fan that has no multiple. */
  function OneWin(tiles: multiset<Card>, fan: int): WinRules {
    WinRules(m => m == tiles, m => {fan}, f => 0)
  }

  lemma {:induction false} IndicesOf(w: seq<Card>, faces: seq<Card>) returns (v: seq<nat>)
    requires forall i :: 0 <= i < |w| ==> w[i] in faces
    ensures |v| == |w| && forall i :: 0 <= i < |v| ==> v[i] < |faces| && faces[v[i]] == w[i]
  {
    if w == [] {
      v := [];
    } else {
      var r := IndicesOf(w[1..], faces);
      v := [IndexOf(faces, w[0])] + r;
    }
  }

  /** Equal index multisets pick equal tile multisets. */
  lemma {:induction false} PickedBag(faces: seq<Card>, a: seq<nat>, b: seq<nat>)
    requires InRange(a, |faces|) && InRange(b, |faces|) && multiset(a) == multiset(b)
    ensures multiset(Picked(faces, a)) == multiset(Picked(faces, b))
    decreases |a|
  {
    hide Picked;
    assert |a| == |multiset(a)| == |multiset(b)| == |b|;
    if a == [] {
      assert a == b;
    } else {
      assert a[0] in multiset(b);
      var i :| 0 <= i < |b| && b[i] == a[0];
      var c := b[..i] + b[i + 1..];
      var d := a[..0] + a[1..];
      BagWithout(b, i);
      BagWithout(a, 0);
      Cancel(multiset{a[0]}, multiset(d), multiset(c));
      PickedBag(faces, d, c);
      PickedWithout(faces, a, 0);
      PickedWithout(faces, b, i);
    }
  }

  lemma Cancel<T>(x: multiset<T>, a: multiset<T>, b: multiset<T>)
    requires x + a == x + b
    ensures a == b
  {
    assert a == (x + a) - x && b == (x + b) - x;
  }

  lemma PickedWithout(faces: seq<Card>, v: seq<nat>, i: nat)
    requires InRange(v, |faces|) && i < |v|
    ensures multiset(Picked(faces, v)) == multiset{faces[v[i]]} + multiset(Picked(faces, v[..i] + v[i + 1..]))
  {
    var p := Picked(faces, v);
    BagWithout(p, i);
    assert p[..i] + p[i + 1..] == Picked(faces, v[..i] + v[i + 1..]);
  }

  lemma BagWithout<T>(s: seq<T>, i: nat)
    requires i < |s|
    ensures multiset(s) == multiset{s[i]} + multiset(s[..i] + s[i + 1..])
  {
    assert s == s[..i] + [s[i]] + s[i + 1..];
  }

  /** A trail through all index multisets tries every filling. */
  lemma TrailTriesAll(t: seq<seq<nat>>, faces: seq<Card>, k: nat, w: seq<Card>) returns (i: nat)
    requires Combination.IsTrail(t, |faces|, k) && IsFill(w, k, faces) && faces != []
    ensures i < |t| && InRange(t[i], |faces|) && multiset(Picked(faces, t[i])) == multiset(w)
  {
    var v := IndicesOf(w, faces);
    Combination.TrailMeetsEveryBagOnce(t, |faces|, k, v);
    i :| 0 <= i < |t| && multiset(t[i]) == multiset(v);
    Combination.TrailChoice(t, |faces|, k, i);
    PickedBag(faces, t[i], v);
    assert Picked(faces, v) == w;
  }

  /** What is left to be completed, face by face: the hand with the claimed tile, unless it is a self-draw;
      without the wild tiles when any is held; and without one copy of each 绝头 tile. */
  ghost predicate LeftOf(base: multiset<Card>, hand: multiset<Card>, huipai: Option<Card>, pai: Card, checkZimo: bool, juetous: seq<Card>) {
    forall d: Card {:trigger base[d]} :: base[d] + multiset(juetous)[d]
      == if huipai == Some(d) && hand[d] > 0 then 0 else hand[d] + if !checkZimo && d == pai then 1 else 0
  }

  lemma OneLeft(b1: multiset<Card>, b2: multiset<Card>, hand: multiset<Card>, huipai: Option<Card>, pai: Card, checkZimo: bool, juetous: seq<Card>)
    requires LeftOf(b1, hand, huipai, pai, checkZimo, juetous) && LeftOf(b2, hand, huipai, pai, checkZimo, juetous)
    ensures b1 == b2
  {
    forall d: Card ensures b1[d] == b2[d] {
    }
  }

  /** The tiles before the 绝头 tiles go are the ones to take them from. */
  lemma PlainMeans(plain: multiset<Card>, hand: multiset<Card>, huipai: Option<Card>, pai: Card, checkZimo: bool, juetous: seq<Card>)
    requires forall d: Card :: plain[d] == if huipai == Some(d) && hand[d] > 0 then 0 else hand[d] + if !checkZimo && d == pai then 1 else 0
    ensures (exists b :: LeftOf(b, hand, huipai, pai, checkZimo, juetous)) <==> multiset(juetous) <= plain
    ensures multiset(juetous) <= plain ==> LeftOf(plain - multiset(juetous), hand, huipai, pai, checkZimo, juetous)
    ensures multiset(juetous) <= plain ==> forall d: Card :: huipai != Some(d) ==>
              (plain - multiset(juetous))[d] + multiset(juetous)[d] == hand[d] + if !checkZimo && d == pai then 1 else 0
    ensures huipai.Some? && hand[huipai.value] > 0 ==> (plain - multiset(juetous))[huipai.value] == 0
  {
    if b :| LeftOf(b, hand, huipai, pai, checkZimo, juetous) {
      forall d: Card ensures multiset(juetous)[d] <= plain[d] {
        assert b[d] + multiset(juetous)[d] == plain[d];
      }
    }
    if multiset(juetous) <= plain {
      assert LeftOf(plain - multiset(juetous), hand, huipai, pai, checkZimo, juetous);
    }
  }

  /** Some filling wins, in terms of the faces put in. */
  lemma FillMeans(rules: WinRules, base: multiset<Card>, k: nat, faces: seq<Card>)
    ensures CanFill(rules, base, k, faces) <==>
              exists w: seq<Card> :: rules.win(base + multiset(w)) && |w| == k && forall i :: 0 <= i < |w| ==> w[i] in faces
  {
    if w :| IsFill(w, k, faces) && WinsWith(rules, base, w) {
      assert rules.win(base + multiset(w));
    }
    if w: seq<Card> :| rules.win(base + multiset(w)) && |w| == k && forall i :: 0 <= i < |w| ==> w[i] in faces {
      assert IsFill(w, k, faces) && WinsWith(rules, base, w);
    }
  }

  // -------------------------------------------------------------------- the player

  class Player {
    const rules: WinRules
    const faces: seq<Card>
    const huipai: Option<Card>
    var hand: multiset<Card>
    var fanList: set<int>
    var huiFanList: seq<set<int>>

    constructor (rules: WinRules, faces: seq<Card>, huipai: Option<Card>, hand: multiset<Card>)
      ensures this.rules == rules && this.faces == faces && this.huipai == huipai && this.hand == hand
    {
      this.rules, this.faces, this.huipai, this.hand := rules, faces, huipai, hand;
      fanList, huiFanList := {}, [];
    }

    /** The ordinary win test on a filled hand; when scoring it leaves the fan set. */
    method CheckHuPai(tiles: multiset<Card>, calculate: bool) returns (ok: bool)
      modifies this`fanList
      ensures ok == rules.win(tiles)
      ensures calculate ==> fanList == FansLeft(rules, tiles)
    {
      ok := rules.win(tiles);
      if calculate {
        fanList := if ok then rules.fans(tiles) else {};
      }
    }

    /** The wild tiles held. */
    method GetHuiPaiCount() returns (count: nat)
      ensures huipai.None? ==> count == 0
      ensures huipai.Some? ==> count == hand[huipai.value]
    {
      match huipai
      case None => count := 0;
      case Some(c) => count := hand[c];
    }

    /** Takes one copy of each 绝头 tile out; each counts as one more wild tile. */
    method TakeJueTou(plain: multiset<Card>, juetous: seq<Card>) returns (ok: bool, rest: multiset<Card>)
      ensures ok <==> multiset(juetous) <= plain
      ensures ok ==> rest == plain - multiset(juetous)
    {
      rest := plain;
      for i := 0 to |juetous|
        invariant multiset(juetous[..i]) <= plain
        invariant rest == plain - multiset(juetous[..i])
      {
        assert juetous[..i + 1] == juetous[..i] + [juetous[i]];
        if juetous[i] !in rest {
          assert juetous == juetous[..i + 1] + juetous[i + 1..];
          assert multiset(juetous[..i + 1])[juetous[i]] > plain[juetous[i]];
          return false, rest;
        }
        rest := rest - multiset{juetous[i]};
      }
      assert juetous[..|juetous|] == juetous;
      ok := true;
    }

    /** The tiles left to be completed and the number of wild tiles, if there is anything to search. */
    method Prepare(pai: Card, checkZimo: bool, hasYaoJiu: bool, juetous: seq<Card>)
      returns (ok: bool, base: multiset<Card>, count: nat)
      ensures count == (if huipai.Some? then hand[huipai.value] else 0) + |juetous|
      ensures ok <==> hasYaoJiu && count > 0 && exists b :: LeftOf(b, hand, huipai, pai, checkZimo, juetous)
      ensures ok ==> LeftOf(base, hand, huipai, pai, checkZimo, juetous)
      ensures ok ==> forall d: Card :: huipai != Some(d) ==>
                base[d] + multiset(juetous)[d] == hand[d] + if !checkZimo && d == pai then 1 else 0
      ensures ok && huipai.Some? && hand[huipai.value] > 0 ==> base[huipai.value] == 0
    {
      count := GetHuiPaiCount();
      var wild := count;
      count, base := count + |juetous|, multiset{};
      if !hasYaoJiu {
        return false, base, count;
      }
      base := hand;
      if !checkZimo {
        base := base + multiset{pai};
      }
      if wild > 0 {
        base := base[huipai.value := 0];
      }
      var plain := base;
      PlainMeans(plain, hand, huipai, pai, checkZimo, juetous);
      hide *;
      ok, base := TakeJueTou(plain, juetous);
      ok := ok && count != 0;
    }

    /** Wins with the wild tiles exactly when faces for all of them complete what is left to a win; when
        scoring, the fan set kept is the best one that scores, or what the last filling tried left. */
    method CheckHuiHu(pai: Card, checkZimo: bool, calculate: bool, hasYaoJiu: bool, juetous: seq<Card>)
      returns (ok: bool)
      requires faces != []
      modifies this`fanList, this`huiFanList
      ensures ok <==> hasYaoJiu && exists base, w: seq<Card> ::
                && LeftOf(base, hand, huipai, pai, checkZimo, juetous) && rules.win(base + multiset(w))
                && 0 < |w| == (if huipai.Some? then hand[huipai.value] else 0) + |juetous|
                && forall i :: 0 <= i < |w| ==> w[i] in faces
      ensures ok && calculate ==> exists base ::
                LeftOf(base, hand, huipai, pai, checkZimo, juetous)
                && IsKept(rules, base, (if huipai.Some? then hand[huipai.value] else 0) + |juetous|, faces, fanList)
    {
      hide LeftOf, IsKept, CanFill;
      var base, count;
      ok, base, count := Prepare(pai, checkZimo, hasYaoJiu, juetous);
      if !ok {
        return;
      }
      forall b | LeftOf(b, hand, huipai, pai, checkZimo, juetous) ensures b == base {
        OneLeft(b, base, hand, huipai, pai, checkZimo, juetous);
      }
      fanList, huiFanList := {}, [];
      var best;
      ok, best := Search(base, count, calculate);
      FillMeans(rules, base, count, faces);
      if ok && calculate {
        fanList := best;
      }
    }

    /** Puts the chosen faces into the hand. */
    method Fill(base: multiset<Card>, vi: array<nat>) returns (tiles: multiset<Card>)
      requires InRange(vi[..], |faces|)
      ensures tiles == base + multiset(Picked(faces, vi[..]))
    {
      tiles := base;
      ghost var w := Picked(faces, vi[..]);
      for j := 0 to vi.Length
        invariant tiles == base + multiset(w[..j])
      {
        tiles := tiles + multiset{faces[vi[j]]};
        assert w[..j + 1] == w[..j] + [faces[vi[j]]];
      }
      assert w[..vi.Length] == w;
    }

    /** Fills the wild tiles as `vi` says and runs the win test; when scoring, a win's fan set is kept. */
    method TryFill(base: multiset<Card>, vi: array<nat>, calculate: bool) returns (canHu: bool)
      requires InRange(vi[..], |faces|)
      modifies this`fanList, this`huiFanList
      ensures canHu == WinsAt(rules, base, faces, vi[..])
      ensures huiFanList == old(huiFanList) + if canHu && calculate then [FansAt(rules, base, faces, vi[..])] else []
      ensures calculate ==> fanList == FansLeft(rules, base + multiset(Picked(faces, vi[..])))
    {
      var tiles := Fill(base, vi);
      canHu := CheckHuPai(tiles, calculate);
      if canHu && calculate {
        huiFanList := huiFanList + [fanList];
      }
    }

    /** Tries the fillings one after the other.  Without scoring it stops at the first win;
        otherwise it goes through all of them and keeps the fan set of every win. */
    method Enumerate(base: multiset<Card>, count: nat, calculate: bool)
      returns (won: bool, ghost trail: seq<seq<nat>>)
      requires faces != [] && count > 0 && huiFanList == []
      modifies this`fanList, this`huiFanList
      ensures won ==> !calculate && CanFill(rules, base, count, faces)
      ensures !won ==> Combination.IsTrail(trail, |faces|, count)
      ensures !won && !calculate ==> NoneWins(rules, base, faces, trail) && huiFanList == []
      ensures !won && calculate ==> Collected(rules, base, faces, trail, huiFanList) && LeftBy(rules, base, faces, trail, fanList)
    {
      var vi := new nat[count](_ => 0);
      ghost var zeros := vi[..];
      trail := [zeros];
      assert zeros == Combination.Repeat(0, count);
      var canHu := TryFill(base, vi, calculate);
      if canHu && !calculate {
        WinIsFill(rules, base, faces, zeros);
        return true, trail;
      }
      if calculate {
        CollectOne(rules, base, faces, [], zeros, [], huiFanList);
      }
      hide *;
      var more := Advance(vi, trail, count);
      while more
        invariant fresh(vi) && vi.Length == count
        invariant if more then Combination.IsTrailPrefix(trail + [vi[..]], |faces|, count)
                  else Combination.IsTrail(trail, |faces|, count)
        invariant more ==> Combination.IsChoice(vi[..], |faces|)
        invariant !calculate ==> NoneWins(rules, base, faces, trail) && huiFanList == []
        invariant calculate ==> Collected(rules, base, faces, trail, huiFanList) && LeftBy(rules, base, faces, trail, fanList)
        decreases more, Combination.Power(|faces|, count) - Combination.Weight(vi[..], |faces|)
      {
        ghost var v, before, list := vi[..], trail, huiFanList;
        trail := trail + [v];
        canHu := TryFill(base, vi, calculate);
        if canHu && !calculate {
          WinIsFill(rules, base, faces, v);
          return true, trail;
        }
        if calculate {
          CollectOne(rules, base, faces, before, v, list, huiFanList);
        } else {
          NoneWinsYet(rules, base, faces, before, v);
        }
        more := Advance(vi, trail, count);
      }
      won := false;
    }

    /** One successor step, with what it means for the enumeration so far. */
    method Advance(vi: array<nat>, ghost trail: seq<seq<nat>>, count: nat) returns (more: bool)
      requires vi.Length == count && Combination.IsChoice(vi[..], |faces|)
      requires Combination.IsTrailPrefix(trail, |faces|, count) && trail[|trail| - 1] == vi[..]
      modifies vi
      ensures if more then Combination.IsTrailPrefix(trail + [vi[..]], |faces|, count)
              else Combination.IsTrail(trail, |faces|, count)
      ensures more ==> Combination.IsChoice(vi[..], |faces|)
      ensures more ==> Combination.Weight(old(vi[..]), |faces|) < Combination.Weight(vi[..], |faces|)
                       < Combination.Power(|faces|, count)
    {
      ghost var v := vi[..];
      more := Combination.CombinationWithRepeated(|faces|, count, vi);
      if more {
        Combination.WeightFollows(v, vi[..], |faces|);
      }
    }

    method Search(base: multiset<Card>, count: nat, calculate: bool) returns (ok: bool, best: set<int>)
      requires faces != [] && count > 0 && huiFanList == []
      modifies this`fanList, this`huiFanList
      ensures ok <==> CanFill(rules, base, count, faces)
      ensures ok && calculate ==> IsKept(rules, base, count, faces, best)
    {
      var won;
      ghost var trail;
      won, trail := Enumerate(base, count, calculate);
      if won {
        return true, {};
      }
      hide Collected, NoneWins, CanFill, IsKept, LeftBy, Combination.IsTrail;
      EveryFillTried(rules, base, faces, trail, count);
      if calculate {
        EmptyMeansNone(rules, base, faces, trail, huiFanList);
      }
      if huiFanList == [] {
        return false, {};
      }
      best := Largest();
      ok := true;
      CollectedKept(rules, base, faces, trail, count, huiFanList, fanList, best);
    }

    /** The product of a fan set, taken in whatever order the set is visited. */
    method ScoreOf(fans: set<int>) returns (score: nat)
      ensures score == Product(rules.multiple, fans)
    {
      score := 1;
      var rest := fans;
      assert Product(rules.multiple, {}) == 1;
      hide Product;
      while rest != {}
        invariant rest <= fans
        invariant Product(rules.multiple, fans) == score * Product(rules.multiple, rest)
      {
        HasElement(rest);
        var f :| f in rest;
        ProductStep(rules.multiple, rest, f);
        Regroup(score, rules.multiple(f), Product(rules.multiple, rest - {f}));
        score := score * rules.multiple(f);
        rest := rest - {f};
      }
    }

    /** The last listed fan set among those with the largest product of at least 1;
        the current fan set when every product is 0. */
    method Largest() returns (best: set<int>)
      ensures if exists f :: f in huiFanList && Product(rules.multiple, f) >= 1 then best in huiFanList else best == fanList
      ensures forall f :: f in huiFanList ==> Product(rules.multiple, f) <= Product(rules.multiple, best)
    {
      var maxScore: nat := 1;
      best := fanList;
      ghost var found := false;
      for i := 0 to |huiFanList|
        invariant maxScore >= 1
        invariant if found then best in huiFanList && Product(rules.multiple, best) == maxScore
                  else best == fanList && maxScore == 1
        invariant forall j :: 0 <= j < i ==> if found then Product(rules.multiple, huiFanList[j]) <= maxScore
                                             else Product(rules.multiple, huiFanList[j]) == 0
      {
        var score := ScoreOf(huiFanList[i]);
        if score >= maxScore {
          maxScore, best := score, huiFanList[i];
          found := true;
        }
      }
    }
  }

  ghost predicate WinsAt(rules: WinRules, base: multiset<Card>, faces: seq<Card>, v: seq<nat>) {
    InRange(v, |faces|) && WinsWith(rules, base, Picked(faces, v))
  }

  ghost function FansAt(rules: WinRules, base: multiset<Card>, faces: seq<Card>, v: seq<nat>): set<int>
    requires InRange(v, |faces|)
  {
    rules.fans(base + multiset(Picked(faces, v)))
  }

  /** `left` is what the test of the last filling of the trail left. */
  ghost predicate LeftBy(rules: WinRules, base: multiset<Card>, faces: seq<Card>, trail: seq<seq<nat>>, left: set<int>) {
    trail != [] && InRange(trail[|trail| - 1], |faces|)
    && left == FansLeft(rules, base + multiset(Picked(faces, trail[|trail| - 1])))
  }

  lemma WinIsFill(rules: WinRules, base: multiset<Card>, faces: seq<Card>, v: seq<nat>)
    requires WinsAt(rules, base, faces, v)
    ensures CanFill(rules, base, |v|, faces)
  {
    var w := Picked(faces, v);
    assert IsFill(w, |v|, faces) && WinsWith(rules, base, w);
  }

  ghost predicate NoneWins(rules: WinRules, base: multiset<Card>, faces: seq<Card>, trail: seq<seq<nat>>) {
    forall v :: v in trail ==> !WinsAt(rules, base, faces, v)
  }

  /** The list holds the fan sets of the winning fillings of a trail, and nothing else. */
  ghost predicate Collected(rules: WinRules, base: multiset<Card>, faces: seq<Card>,
                            trail: seq<seq<nat>>, list: seq<set<int>>) {
    && (forall v :: v in trail ==> InRange(v, |faces|))
    && (forall v :: v in trail && WinsAt(rules, base, faces, v) ==> FansAt(rules, base, faces, v) in list)
    && (forall f :: f in list ==>
          exists v :: v in trail && WinsAt(rules, base, faces, v) && f == FansAt(rules, base, faces, v))
  }

  lemma CollectOne(rules: WinRules, base: multiset<Card>, faces: seq<Card>, before: seq<seq<nat>>, v: seq<nat>,
                   list: seq<set<int>>, list': seq<set<int>>)
    requires Collected(rules, base, faces, before, list) && InRange(v, |faces|)
    requires list' == list + if WinsAt(rules, base, faces, v) then [FansAt(rules, base, faces, v)] else []
    ensures Collected(rules, base, faces, before + [v], list')
  {
    assert v in before + [v];
    if WinsAt(rules, base, faces, v) {
      assert FansAt(rules, base, faces, v) in list';
    }
  }

  lemma NoneWinsYet(rules: WinRules, base: multiset<Card>, faces: seq<Card>, before: seq<seq<nat>>, v: seq<nat>)
    requires NoneWins(rules, base, faces, before) && !WinsAt(rules, base, faces, v)
    ensures NoneWins(rules, base, faces, before + [v])
  {
  }

  lemma EmptyMeansNone(rules: WinRules, base: multiset<Card>, faces: seq<Card>, trail: seq<seq<nat>>, list: seq<set<int>>)
    requires Collected(rules, base, faces, trail, list)
    ensures list == [] <==> NoneWins(rules, base, faces, trail)
  {
    if list != [] {
      assert list[0] in list;
    }
  }

  lemma WinOfTrail(rules: WinRules, base: multiset<Card>, faces: seq<Card>, trail: seq<seq<nat>>, k: nat, w: seq<Card>)
    returns (v: seq<nat>)
    requires Combination.IsTrail(trail, |faces|, k) && faces != []
    requires IsFill(w, k, faces) && WinsWith(rules, base, w)
    ensures v in trail && InRange(v, |faces|) && WinsAt(rules, base, faces, v)
    ensures FansAt(rules, base, faces, v) == rules.fans(base + multiset(w))
  {
    var i := TrailTriesAll(trail, faces, k, w);
    v := trail[i];
  }

  lemma EveryFillTried(rules: WinRules, base: multiset<Card>, faces: seq<Card>, trail: seq<seq<nat>>, k: nat)
    requires Combination.IsTrail(trail, |faces|, k) && faces != []
    ensures CanFill(rules, base, k, faces) <==> !NoneWins(rules, base, faces, trail)
  {
    if CanFill(rules, base, k, faces) {
      var w :| IsFill(w, k, faces) && WinsWith(rules, base, w);
      var v := WinOfTrail(rules, base, faces, trail, k, w);
    }
    if !NoneWins(rules, base, faces, trail) {
      var i :| 0 <= i < |trail| && WinsAt(rules, base, faces, trail[i]);
      Combination.TrailLengths(trail, |faces|, k, i);
      WinIsFill(rules, base, faces, trail[i]);
    }
  }

  lemma CollectedBest(rules: WinRules, base: multiset<Card>, faces: seq<Card>, trail: seq<seq<nat>>, k: nat,
                      list: seq<set<int>>, best: set<int>)
    requires Combination.IsTrail(trail, |faces|, k) && faces != []
    requires Collected(rules, base, faces, trail, list)
    requires (exists f :: f in list && Product(rules.multiple, f) >= 1) ==> best in list
    requires forall f :: f in list ==> Product(rules.multiple, f) <= Product(rules.multiple, best)
    ensures IsBest(rules, base, k, faces, best)
  {
    forall w | IsFill(w, k, faces) && WinsWith(rules, base, w)
      ensures rules.fans(base + multiset(w)) in list
    {
      var v := WinOfTrail(rules, base, faces, trail, k, w);
    }
    if best in list {
      var v :| v in trail && WinsAt(rules, base, faces, v) && best == FansAt(rules, base, faces, v);
      var i :| 0 <= i < |trail| && trail[i] == v;
      Combination.TrailLengths(trail, |faces|, k, i);
      assert IsFill(Picked(faces, v), k, faces) && WinsWith(rules, base, Picked(faces, v));
    }
  }

  /** The enumeration ends with every wild tile as the last face. */
  lemma TrailEnds(faces: seq<Card>, trail: seq<seq<nat>>, k: nat)
    requires faces != [] && Combination.IsTrail(trail, |faces|, k) && trail != [] && InRange(trail[|trail| - 1], |faces|)
    ensures Picked(faces, trail[|trail| - 1]) == LastFill(k, faces)
  {
    Combination.TrailEndsAtTop(trail, |faces|, k);
  }

  lemma CollectedKept(rules: WinRules, base: multiset<Card>, faces: seq<Card>, trail: seq<seq<nat>>, k: nat,
                      list: seq<set<int>>, left: set<int>, best: set<int>)
    requires Combination.IsTrail(trail, |faces|, k) && faces != []
    requires Collected(rules, base, faces, trail, list) && LeftBy(rules, base, faces, trail, left)
    requires if exists f :: f in list && Product(rules.multiple, f) >= 1 then best in list else best == left
    requires forall f :: f in list ==> Product(rules.multiple, f) <= Product(rules.multiple, best)
    ensures IsKept(rules, base, k, faces, best)
  {
    CollectedBest(rules, base, faces, trail, k, list, best);
    TrailEnds(faces, trail, k);
    hide Product, IsBest, Combination.IsTrail;
    if !SomeScores(rules, base, k, faces) {
      forall f | f in list ensures Product(rules.multiple, f) < 1 {
        var v :| v in trail && WinsAt(rules, base, faces, v) && f == FansAt(rules, base, faces, v);
        var i :| 0 <= i < |trail| && trail[i] == v;
        Combination.TrailLengths(trail, |faces|, k, i);
        assert IsFill(Picked(faces, v), k, faces);
      }
    }
  }
}
