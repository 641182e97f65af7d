/** Settlement of one game: `Game::Calculate`, `Game::CalculateGangScore` and `Game::OnLiuJu`
    of GameServer/Game.cpp.  Four score records are filled in place: what each loser pays for
    the win, the winner's total, the kong scores, and the liability of the discarder. */
module Settlement {
  import opened Fans

  const MAX_PLAYER_COUNT: nat := 4

  datatype Detail = Detail(fanType: int, score: int)

  datatype Element = Element(playerId: int, score: int, details: seq<Detail>)

  /** What settlement reads of a seated player.  `mingGang` lists, per open kong, the id of
      the player the fourth tile came from. */
  datatype Seat = Seat(id: int, mingGang: seq<int>, anGang: nat, fengGang: nat, jianGang: nat,
                       bimen: bool, mingPiao: bool, gangOperation: bool, juetou: nat)

  datatype Rules = Rules(jianPing: bool, yiJiaFu: bool, baoSanJia: bool, huangZhuang: bool,
                         topMultiple: int, multiple: int -> nat)

  datatype Table = Table(seats: seq<Seat>, rules: Rules, banker: int) {
    /** Four seated players with different ids. */
    predicate Valid() {
      && |seats| == MAX_PLAYER_COUNT
      && forall i, j :: 0 <= i < j < MAX_PLAYER_COUNT ==> seats[i].id != seats[j].id
    }
  }

  datatype Win = Win(hu: nat, dianpao: int, fans: set<int>)

  // ------------------------------------------------------------------ kong balances

  /** Kong points a player takes from each other player, the open kongs counted once each. */
  function GangWin(t: Table, i: nat): int
    requires t.Valid() && i < MAX_PLAYER_COUNT
  {
    var s, m := t.seats[i], t.rules.multiple;
    |s.mingGang| * m(FAN_TYPE_MING_GANG) + ClosedGang(t, i)
  }

  function ClosedGang(t: Table, i: nat): int
    requires t.Valid() && i < MAX_PLAYER_COUNT
  {
    var s, m := t.seats[i], t.rules.multiple;
    s.anGang * m(FAN_TYPE_AN_GANG) + s.fengGang * m(FAN_TYPE_XUAN_FENG_GANG) + s.jianGang * m(FAN_TYPE_XUAN_JIAN_GANG)
  }

  /** What player `j` pays for one open kong of player `i` fed by `source`.  In 建平 the feeder
      pays for all three, and a kong the owner fed himself costs everyone one share. */
  function MingUnit(t: Table, i: nat, j: nat, source: int): int
    requires t.Valid() && i < MAX_PLAYER_COUNT && j < MAX_PLAYER_COUNT
  {
    var each := t.rules.multiple(FAN_TYPE_MING_GANG);
    if !t.rules.jianPing then each
    else if t.seats[j].id == source then each * (MAX_PLAYER_COUNT - 1)
    else if t.seats[i].id == source then each
    else 0
  }

  function MingPay(t: Table, i: nat, j: nat, sources: seq<int>): int
    requires t.Valid() && i < MAX_PLAYER_COUNT && j < MAX_PLAYER_COUNT
  {
    if sources == [] then 0
    else MingPay(t, i, j, sources[..|sources| - 1]) + MingUnit(t, i, j, sources[|sources| - 1])
  }

  /** How the kongs of player `i` move the score of player `j`. */
  function Contribution(t: Table, i: nat, j: nat): int
    requires t.Valid() && i < MAX_PLAYER_COUNT && j < MAX_PLAYER_COUNT
  {
    if i == j then GangWin(t, i) * (MAX_PLAYER_COUNT - 1)
    else -(ClosedGang(t, i) + MingPay(t, i, j, t.seats[i].mingGang))
  }

  /** What the kongs of player `i` show player `j` under a fan type. */
  function Share(t: Table, i: nat, j: nat, fan: int): int
    requires t.Valid() && i < MAX_PLAYER_COUNT && j < MAX_PLAYER_COUNT
  {
    var s, times := t.seats[i], if i == j then MAX_PLAYER_COUNT - 1 else -1;
    if fan == FAN_TYPE_MING_GANG then
      if i == j then |s.mingGang| * t.rules.multiple(fan) * times else -MingPay(t, i, j, s.mingGang)
    else if fan == FAN_TYPE_AN_GANG then s.anGang * t.rules.multiple(fan) * times
    else if fan == FAN_TYPE_XUAN_FENG_GANG then s.fengGang * t.rules.multiple(fan) * times
    else if fan == FAN_TYPE_XUAN_JIAN_GANG then s.jianGang * t.rules.multiple(fan) * times
    else 0
  }

  /** Under its type each kong point is shown, and nothing else. */
  lemma SharesAreContribution(t: Table, i: nat, j: nat)
    requires t.Valid() && i < MAX_PLAYER_COUNT && j < MAX_PLAYER_COUNT
    ensures Share(t, i, j, FAN_TYPE_MING_GANG) + Share(t, i, j, FAN_TYPE_AN_GANG) + Share(t, i, j, FAN_TYPE_XUAN_FENG_GANG)
            + Share(t, i, j, FAN_TYPE_XUAN_JIAN_GANG) == Contribution(t, i, j)
  {
    var s, m := t.seats[i], t.rules.multiple;
    var a, b, c, d := |s.mingGang| * m(FAN_TYPE_MING_GANG), s.anGang * m(FAN_TYPE_AN_GANG),
                      s.fengGang * m(FAN_TYPE_XUAN_FENG_GANG), s.jianGang * m(FAN_TYPE_XUAN_JIAN_GANG);
    Distribute(a, b, 3);
    Distribute(a + b, c, 3);
    Distribute(a + b + c, d, 3);
  }

  /** What player `j` is shown under a fan type after the kongs of the first `n` players were settled. */
  function Shares(t: Table, n: nat, j: nat, fan: int): int
    requires t.Valid() && n <= MAX_PLAYER_COUNT && j < MAX_PLAYER_COUNT
  {
    if n == 0 then 0 else Shares(t, n - 1, j, fan) + Share(t, n - 1, j, fan)
  }

  /** The kong details of a player add up to his kong balance. */
  lemma {:induction false} SharesAreBalance(t: Table, n: nat, j: nat)
    requires t.Valid() && n <= MAX_PLAYER_COUNT && j < MAX_PLAYER_COUNT
    ensures Shares(t, n, j, FAN_TYPE_MING_GANG) + Shares(t, n, j, FAN_TYPE_AN_GANG) + Shares(t, n, j, FAN_TYPE_XUAN_FENG_GANG)
            + Shares(t, n, j, FAN_TYPE_XUAN_JIAN_GANG) == Balance(t, n, j)
  {
    if n > 0 {
      SharesAreBalance(t, n - 1, j);
      SharesAreContribution(t, n - 1, j);
      hide Share, Contribution;
    }
  }

  /** The kong score of player `j` after the first `n` players were settled. */
  function Balance(t: Table, n: nat, j: nat): int
    requires t.Valid() && n <= MAX_PLAYER_COUNT && j < MAX_PLAYER_COUNT
  {
    if n == 0 then 0 else Balance(t, n - 1, j) + Contribution(t, n - 1, j)
  }

  function GangBalance(t: Table, j: nat): int
    requires t.Valid() && j < MAX_PLAYER_COUNT
  {
    Balance(t, MAX_PLAYER_COUNT, j)
  }

  predicate IsSeated(t: Table, id: int) {
    exists k :: 0 <= k < |t.seats| && t.seats[k].id == id
  }

  /** Open kongs whose recorded source sits at no place of the table. */
  function Foreign(t: Table, sources: seq<int>): nat {
    if sources == [] then 0
    else Foreign(t, sources[..|sources| - 1]) + if IsSeated(t, sources[|sources| - 1]) then 0 else 1
  }

  function ForeignGangs(t: Table): nat
    requires t.Valid()
  {
    Foreign(t, t.seats[0].mingGang) + Foreign(t, t.seats[1].mingGang)
    + Foreign(t, t.seats[2].mingGang) + Foreign(t, t.seats[3].mingGang)
  }

  /** Points that 建平 kongs create out of nothing: three shares per kong fed from outside the table. */
  function Unpaid(t: Table): int
    requires t.Valid()
  {
    if t.rules.jianPing
    then ForeignGangs(t) * (3 * t.rules.multiple(FAN_TYPE_MING_GANG))
    else 0
  }

  /** Outside 建平 every opponent pays one share for every open kong, whoever fed it. */
  lemma {:induction false} EachPaysOneShare(t: Table, i: nat, j: nat, sources: seq<int>)
    requires t.Valid() && i < MAX_PLAYER_COUNT && j < MAX_PLAYER_COUNT && !t.rules.jianPing
    ensures MingPay(t, i, j, sources) == |sources| * t.rules.multiple(FAN_TYPE_MING_GANG)
  {
    if sources != [] {
      var n := |sources| - 1;
      EachPaysOneShare(t, i, j, sources[..n]);
      Distribute(n, 1, t.rules.multiple(FAN_TYPE_MING_GANG));
    }
  }

  /** In 建平 a player pays three shares for each open kong he fed, and one for each that its owner fed. */
  lemma {:induction false} FeederPays(t: Table, i: nat, j: nat, sources: seq<int>)
    requires t.Valid() && i < MAX_PLAYER_COUNT && j < MAX_PLAYER_COUNT && i != j && t.rules.jianPing
    ensures MingPay(t, i, j, sources)
            == (3 * multiset(sources)[t.seats[j].id] + multiset(sources)[t.seats[i].id]) * t.rules.multiple(FAN_TYPE_MING_GANG)
  {
    if sources != [] {
      var n := |sources| - 1;
      var rest, last, each := sources[..n], sources[n], t.rules.multiple(FAN_TYPE_MING_GANG);
      FeederPays(t, i, j, rest);
      assert sources == rest + [last];
      assert t.seats[i].id != t.seats[j].id;
      var more := if last == t.seats[j].id then 3 else if last == t.seats[i].id then 1 else 0;
      Distribute(3 * multiset(rest)[t.seats[j].id] + multiset(rest)[t.seats[i].id], more, each);
    }
  }

  /** What player `j` pays for the kongs of player `i`, in shares of each kind of kong. */
  function Owes(t: Table, i: nat, j: nat): int
    requires t.Valid() && i < MAX_PLAYER_COUNT && j < MAX_PLAYER_COUNT
  {
    var s, m, ming := t.seats[i], t.rules.multiple, multiset(t.seats[i].mingGang);
    (if t.rules.jianPing then 3 * ming[t.seats[j].id] + ming[s.id] else |s.mingGang|) * m(FAN_TYPE_MING_GANG)
    + s.anGang * m(FAN_TYPE_AN_GANG) + s.fengGang * m(FAN_TYPE_XUAN_FENG_GANG) + s.jianGang * m(FAN_TYPE_XUAN_JIAN_GANG)
  }

  lemma OwesAre(t: Table, i: nat, j: nat)
    requires t.Valid() && i < MAX_PLAYER_COUNT && j < MAX_PLAYER_COUNT && i != j
    ensures Contribution(t, i, j) == 0 - Owes(t, i, j)
  {
    if t.rules.jianPing {
      FeederPays(t, i, j, t.seats[i].mingGang);
    } else {
      EachPaysOneShare(t, i, j, t.seats[i].mingGang);
    }
    hide MingPay;
  }

  /** The kongs of a whole table: a player gets three shares for every kong of his own, and pays for those of
      the others: one share each, but in 建平 for an open kong three when he fed it, one when its owner did,
      and nothing otherwise. */
  lemma GangBalanceIs(t: Table, j: nat)
    requires t.Valid() && j < MAX_PLAYER_COUNT
    ensures var s, m := t.seats[j], t.rules.multiple;
            var earned := |s.mingGang| * m(FAN_TYPE_MING_GANG) + s.anGang * m(FAN_TYPE_AN_GANG)
                          + s.fengGang * m(FAN_TYPE_XUAN_FENG_GANG) + s.jianGang * m(FAN_TYPE_XUAN_JIAN_GANG);
            GangBalance(t, j) == 3 * earned
              - (if j == 0 then 0 else Owes(t, 0, j)) - (if j == 1 then 0 else Owes(t, 1, j))
              - (if j == 2 then 0 else Owes(t, 2, j)) - (if j == 3 then 0 else Owes(t, 3, j))
  {
    hide Owes;
    BalanceOfFour(t, j);
    forall i: nat | i < MAX_PLAYER_COUNT && i != j ensures Contribution(t, i, j) == 0 - Owes(t, i, j) {
      OwesAre(t, i, j);
    }
    hide Balance, GangBalance;
  }

  lemma BalanceOfFour(t: Table, j: nat)
    requires t.Valid() && j < MAX_PLAYER_COUNT
    ensures GangBalance(t, j) == Contribution(t, 0, j) + Contribution(t, 1, j) + Contribution(t, 2, j) + Contribution(t, 3, j)
  {
    hide Contribution;
    assert Balance(t, 4, j) == Balance(t, 3, j) + Contribution(t, 3, j);
    assert Balance(t, 3, j) == Balance(t, 2, j) + Contribution(t, 2, j);
    assert Balance(t, 2, j) == Balance(t, 1, j) + Contribution(t, 1, j);
    assert Balance(t, 1, j) == Balance(t, 0, j) + Contribution(t, 0, j);
  }

  /** The three opponents together pay three shares for an open kong, unless nobody fed it. */
  lemma {:induction false} MingPaidInFull(t: Table, i: nat, sources: seq<int>)
    requires t.Valid() && i < MAX_PLAYER_COUNT
    ensures var each := t.rules.multiple(FAN_TYPE_MING_GANG);
            var paid := (if i == 0 then 0 else MingPay(t, i, 0, sources)) + (if i == 1 then 0 else MingPay(t, i, 1, sources))
                        + (if i == 2 then 0 else MingPay(t, i, 2, sources)) + (if i == 3 then 0 else MingPay(t, i, 3, sources));
            paid == |sources| * (3 * each) - if t.rules.jianPing then Foreign(t, sources) * (3 * each) else 0
  {
    if sources != [] {
      var n := |sources| - 1;
      MingPaidInFull(t, i, sources[..n]);
      var each := t.rules.multiple(FAN_TYPE_MING_GANG);
      Distribute(n, 1, 3 * each);
      Distribute(Foreign(t, sources[..n]), 1, 3 * each);
    }
  }

  lemma Distribute(a: int, b: int, c: int)
    ensures (a + b) * c == a * c + b * c
  {
  }

  /** What one player's kongs add to the table as a whole. */
  lemma ContributionSum(t: Table, i: nat)
    requires t.Valid() && i < MAX_PLAYER_COUNT
    ensures Contribution(t, i, 0) + Contribution(t, i, 1) + Contribution(t, i, 2) + Contribution(t, i, 3)
         == if t.rules.jianPing then Foreign(t, t.seats[i].mingGang) * (3 * t.rules.multiple(FAN_TYPE_MING_GANG)) else 0
  {
    MingPaidInFull(t, i, t.seats[i].mingGang);
    var each := t.rules.multiple(FAN_TYPE_MING_GANG);
  }

  lemma BalanceIs(t: Table, j: nat)
    requires t.Valid() && j < MAX_PLAYER_COUNT
    ensures GangBalance(t, j) == Contribution(t, 0, j) + Contribution(t, 1, j) + Contribution(t, 2, j) + Contribution(t, 3, j)
  {
    hide Contribution;
    assert Balance(t, 1, j) == Balance(t, 0, j) + Contribution(t, 0, j);
    assert Balance(t, 2, j) == Balance(t, 1, j) + Contribution(t, 1, j);
    assert Balance(t, 3, j) == Balance(t, 2, j) + Contribution(t, 2, j);
    assert Balance(t, 4, j) == Balance(t, 3, j) + Contribution(t, 3, j);
  }

  /** Kong scores add up to exactly the points nobody was charged for. */
  lemma GangConservation(t: Table)
    requires t.Valid()
    ensures GangBalance(t, 0) + GangBalance(t, 1) + GangBalance(t, 2) + GangBalance(t, 3) == Unpaid(t)
  {
    ContributionSum(t, 0);
    ContributionSum(t, 1);
    ContributionSum(t, 2);
    ContributionSum(t, 3);
    BalanceIs(t, 0);
    BalanceIs(t, 1);
    BalanceIs(t, 2);
    BalanceIs(t, 3);
    var f0, f1, f2, f3 := Foreign(t, t.seats[0].mingGang), Foreign(t, t.seats[1].mingGang),
                          Foreign(t, t.seats[2].mingGang), Foreign(t, t.seats[3].mingGang);
    hide Contribution, Foreign, GangBalance;
    FourTimes(f0, f1, f2, f3, 3 * t.rules.multiple(FAN_TYPE_MING_GANG));
  }

  lemma FourTimes(a: int, b: int, c: int, d: int, u: int)
    ensures (a + b + c + d) * u == a * u + b * u + c * u + d * u
  {
    Distribute(a, b, u);
    Distribute(a + b, c, u);
    Distribute(a + b + c, d, u);
  }

  // --------------------------------------------------------------- what a loser pays

  function Power(b: nat, n: nat): nat {
    if n == 0 then 1 else Power(b, n - 1) * b
  }

  function If(c: bool, factor: nat): nat {
    if c then factor else 1
  }

  predicate SanJiaBi(t: Table, hu: nat)
    requires t.Valid()
  {
    forall k :: 0 <= k < MAX_PLAYER_COUNT && k != hu ==> t.seats[k].bimen
  }

  /** `start` multiplied by each factor in turn. */
  function Scaled(start: nat, factors: seq<nat>): nat {
    if factors == [] then start else Times(Scaled(start, factors[..|factors| - 1]), factors[|factors| - 1])
  }

  function Times(a: nat, b: nat): nat {
    a * b
  }

  /** The factors that depend on who lost how, in the order they are applied. */
  function Factors(t: Table, w: Win, i: nat): seq<nat>
    requires t.Valid() && w.hu < MAX_PLAYER_COUNT && i < MAX_PLAYER_COUNT
  {
    var m, s, id := t.rules.multiple, t.seats[i], t.seats[i].id;
    var selfDraw := w.dianpao == t.seats[w.hu].id;
    var fed := !selfDraw && id == w.dianpao;
    [If(selfDraw, m(FAN_TYPE_ZI_MO)), If(fed, m(FAN_TYPE_DIAN_PAO)), If(fed && s.gangOperation, m(FAN_TYPE_LIU_LEI)),
     If(id == t.banker, m(FAN_TYPE_ZHUANG)), If(s.bimen, m(FAN_TYPE_BIMEN)),
     If(s.mingPiao, m(FAN_TYPE_PIAO_WEIHU)), If(SanJiaBi(t, w.hu), m(FAN_TYPE_SAN_JIA_BI_MEN))]
  }

  /** The multiplied score of loser `i` before the cap. */
  ghost function RawLoss(t: Table, w: Win, i: nat): nat
    requires t.Valid() && w.hu < MAX_PLAYER_COUNT && i < MAX_PLAYER_COUNT
  {
    Scaled(Product(t.rules.multiple, w.fans) * Power(t.rules.multiple(FAN_TYPE_JUETOUHUI), t.seats[w.hu].juetou),
           Factors(t, w, i))
  }

  /** Capped by the room's highest multiple, if it has one. */
  ghost function Loss(t: Table, w: Win, i: nat): int
    requires t.Valid() && w.hu < MAX_PLAYER_COUNT && i < MAX_PLAYER_COUNT
  {
    var raw := RawLoss(t, w, i);
    if t.rules.topMultiple > 0 && t.rules.topMultiple < raw then t.rules.topMultiple else raw
  }

  /** The loss is the smaller of the product and a positive cap. */
  lemma LossIsSmaller(t: Table, w: Win, i: nat)
    requires t.Valid() && w.hu < MAX_PLAYER_COUNT && i < MAX_PLAYER_COUNT
    ensures Loss(t, w, i) <= RawLoss(t, w, i) && (t.rules.topMultiple > 0 ==> Loss(t, w, i) <= t.rules.topMultiple)
    ensures Loss(t, w, i) == RawLoss(t, w, i) || (t.rules.topMultiple > 0 && Loss(t, w, i) == t.rules.topMultiple)
  {
  }

  /** A win on another player's discard. */
  predicate OnDiscard(t: Table, w: Win)
    requires t.Valid() && w.hu < MAX_PLAYER_COUNT
  {
    w.dianpao != 0 && w.dianpao != t.seats[w.hu].id
  }

  /** Under 一家付 only the discarder pays for a win on a discard. */
  predicate Excused(t: Table, w: Win, i: nat)
    requires t.Valid() && w.hu < MAX_PLAYER_COUNT && i < MAX_PLAYER_COUNT
  {
    t.rules.yiJiaFu && OnDiscard(t, w) && w.dianpao != t.seats[i].id
  }

  /** What player `i` pays the winner before the liability rules. */
  ghost function Pays(t: Table, w: Win, i: nat): int
    requires t.Valid() && w.hu < MAX_PLAYER_COUNT && i < MAX_PLAYER_COUNT
  {
    if i == w.hu || Excused(t, w, i) then 0 else Loss(t, w, i)
  }

  ghost function AllPay(t: Table, w: Win): int
    requires t.Valid() && w.hu < MAX_PLAYER_COUNT
  {
    Pays(t, w, 0) + Pays(t, w, 1) + Pays(t, w, 2) + Pays(t, w, 3)
  }

  predicate Liable(t: Table, w: Win)
    requires t.Valid() && w.hu < MAX_PLAYER_COUNT
  {
    (t.rules.baoSanJia || t.rules.yiJiaFu) && OnDiscard(t, w)
  }

  /** What the liable discarder pays back to player `i`. */
  ghost function PaidBack(t: Table, w: Win, i: nat): int
    requires t.Valid() && w.hu < MAX_PLAYER_COUNT && i < MAX_PLAYER_COUNT
  {
    if i == w.hu || t.seats[i].id == w.dianpao then 0 else Pays(t, w, i)
  }

  ghost function AllPaidBack(t: Table, w: Win): int
    requires t.Valid() && w.hu < MAX_PLAYER_COUNT
  {
    PaidBack(t, w, 0) + PaidBack(t, w, 1) + PaidBack(t, w, 2) + PaidBack(t, w, 3)
  }

  /** The score record of player `i` when settlement is done. */
  ghost function FinalScore(t: Table, w: Win, i: nat): int
    requires t.Valid() && w.hu < MAX_PLAYER_COUNT && i < MAX_PLAYER_COUNT
  {
    (if i == w.hu then AllPay(t, w) else -Pays(t, w, i))
    + GangBalance(t, i)
    + Repaid(t, w, i)
  }

  /** Settlement moves points between the four players and creates none, except for the
      建平 kongs whose source is not at the table. */
  lemma Conservation(t: Table, w: Win)
    requires t.Valid() && w.hu < MAX_PLAYER_COUNT
    requires OnDiscard(t, w) ==> IsSeated(t, w.dianpao)
    ensures FinalScore(t, w, 0) + FinalScore(t, w, 1) + FinalScore(t, w, 2) + FinalScore(t, w, 3) == Unpaid(t)
  {
    GangConservation(t);
    hide GangBalance, Unpaid, Loss, RawLoss;
    assert w.hu == 0 || w.hu == 1 || w.hu == 2 || w.hu == 3;
    if Liable(t, w) {
      var d :| 0 <= d < |t.seats| && t.seats[d].id == w.dianpao;
      assert d == 0 || d == 1 || d == 2 || d == 3;
    }
  }

  /** Zero-sum exactly when no 建平 kong that scores is fed from outside the table. */
  lemma ZeroSum(t: Table, w: Win)
    requires t.Valid() && w.hu < MAX_PLAYER_COUNT
    requires OnDiscard(t, w) ==> IsSeated(t, w.dianpao)
    ensures FinalScore(t, w, 0) + FinalScore(t, w, 1) + FinalScore(t, w, 2) + FinalScore(t, w, 3) == 0 <==>
            !t.rules.jianPing || t.rules.multiple(FAN_TYPE_MING_GANG) == 0
            || forall i, k :: 0 <= i < MAX_PLAYER_COUNT && 0 <= k < |t.seats[i].mingGang| ==>
                                IsSeated(t, t.seats[i].mingGang[k])
  {
    Conservation(t, w);
    hide FinalScore;
    forall i: nat | i < MAX_PLAYER_COUNT
      ensures Foreign(t, t.seats[i].mingGang) == 0 <==>
              forall k :: 0 <= k < |t.seats[i].mingGang| ==> IsSeated(t, t.seats[i].mingGang[k])
    {
      NoForeign(t, t.seats[i].mingGang);
    }
    ZeroProduct(ForeignGangs(t), 3 * t.rules.multiple(FAN_TYPE_MING_GANG));
  }

  lemma ZeroProduct(n: nat, u: nat)
    ensures n * u == 0 <==> n == 0 || u == 0
  {
    if n > 0 && u > 0 {
      Distribute(n - 1, 1, u);
    }
  }

  /** The code does meet such a record: a 建平 kong whose source was never filled in. */
  lemma UnfilledSourceIsNotZeroSum() returns (t: Table, w: Win)
    ensures t.Valid() && w.hu < MAX_PLAYER_COUNT && !OnDiscard(t, w)
    ensures FinalScore(t, w, 0) + FinalScore(t, w, 1) + FinalScore(t, w, 2) + FinalScore(t, w, 3) != 0
  {
    var none := Seat(1, [], 0, 0, 0, false, false, false, 0);
    t := Table([none.(mingGang := [0]), none.(id := 2), none.(id := 3), none.(id := 4)],
               Rules(true, false, false, false, 0, f => 1), 1);
    w := Win(0, 1, {});
    ZeroSum(t, w);
    assert t.seats[0].mingGang[0] == 0 && !IsSeated(t, 0);
  }

  lemma {:induction false} NoForeign(t: Table, sources: seq<int>)
    ensures Foreign(t, sources) == 0 <==> forall k :: 0 <= k < |sources| ==> IsSeated(t, sources[k])
  {
    if sources != [] {
      NoForeign(t, sources[..|sources| - 1]);
    }
  }

  /** 包三家: the discarder pays for everyone, and the other losers keep their kong score. */
  lemma BaoSanJia(t: Table, w: Win, d: nat)
    requires t.Valid() && w.hu < MAX_PLAYER_COUNT && d < MAX_PLAYER_COUNT
    requires w.dianpao != 0 && w.dianpao == t.seats[d].id && d != w.hu
    requires t.rules.baoSanJia && !t.rules.yiJiaFu
    ensures forall i :: 0 <= i < MAX_PLAYER_COUNT && i != w.hu && i != d ==> FinalScore(t, w, i) == GangBalance(t, i)
    ensures FinalScore(t, w, w.hu) - GangBalance(t, w.hu) == GangBalance(t, d) - FinalScore(t, w, d)
    ensures GangBalance(t, d) - FinalScore(t, w, d) ==
            (if w.hu == 0 then 0 else Loss(t, w, 0)) + (if w.hu == 1 then 0 else Loss(t, w, 1))
            + (if w.hu == 2 then 0 else Loss(t, w, 2)) + (if w.hu == 3 then 0 else Loss(t, w, 3))
  {
    hide GangBalance, Loss, RawLoss;
    assert d == 0 || d == 1 || d == 2 || d == 3;
  }

  /** Without either rule, and on a self-drawn win, every loser pays his own loss, and the winner gets it all. */
  lemma EveryLoserPays(t: Table, w: Win)
    requires t.Valid() && w.hu < MAX_PLAYER_COUNT
    requires w.dianpao == 0 || w.dianpao == t.seats[w.hu].id || (!t.rules.baoSanJia && !t.rules.yiJiaFu)
    ensures forall i :: 0 <= i < MAX_PLAYER_COUNT && i != w.hu ==> FinalScore(t, w, i) == GangBalance(t, i) - Loss(t, w, i)
    ensures FinalScore(t, w, w.hu) - GangBalance(t, w.hu) ==
            (if w.hu == 0 then 0 else Loss(t, w, 0)) + (if w.hu == 1 then 0 else Loss(t, w, 1))
            + (if w.hu == 2 then 0 else Loss(t, w, 2)) + (if w.hu == 3 then 0 else Loss(t, w, 3))
  {
    hide Loss, GangBalance;
  }

  /** 一家付: the discarder pays his own part only, and the other losers keep their kong score. */
  lemma YiJiaFu(t: Table, w: Win, d: nat)
    requires t.Valid() && w.hu < MAX_PLAYER_COUNT && d < MAX_PLAYER_COUNT
    requires w.dianpao != 0 && w.dianpao == t.seats[d].id && d != w.hu
    requires t.rules.yiJiaFu
    ensures forall i :: 0 <= i < MAX_PLAYER_COUNT && i != w.hu && i != d ==> FinalScore(t, w, i) == GangBalance(t, i)
    ensures FinalScore(t, w, d) == GangBalance(t, d) - Loss(t, w, d)
    ensures FinalScore(t, w, w.hu) == GangBalance(t, w.hu) + Loss(t, w, d)
  {
    hide GangBalance, Loss, RawLoss;
    assert d == 0 || d == 1 || d == 2 || d == 3;
  }

  // ------------------------------------------------------------------- score details

  /** The total of the details of one fan type. */
  function DetailSum(details: seq<Detail>, fan: int): int {
    if details == [] then 0
    else DetailSum(details[..|details| - 1], fan)
         + if details[|details| - 1].fanType == fan then details[|details| - 1].score else 0
  }

  predicate UniqueFans(details: seq<Detail>) {
    forall i, j :: 0 <= i < j < |details| ==> details[i].fanType != details[j].fanType
  }

  predicate HasFan(details: seq<Detail>, fan: int) {
    exists i :: 0 <= i < |details| && details[i].fanType == fan
  }

  /** The last detail shows the whole uncapped loss; without details the loss is 1. */
  predicate Shows(details: seq<Detail>, loss: int) {
    if details == [] then loss == 1 else details[|details| - 1].score + loss == 0
  }

  function FanCount(details: seq<Detail>, fan: int): nat {
    if details == [] then 0
    else FanCount(details[..|details| - 1], fan) + if details[|details| - 1].fanType == fan then 1 else 0
  }

  /** Each detail shows the loss so far: the one before it times the multiple of its own type. */
  predicate Chain(m: int -> nat, details: seq<Detail>) {
    forall k :: 0 <= k < |details| ==>
      details[k].score == 0 - m(details[k].fanType) * (if k == 0 then 1 else 0 - details[k - 1].score)
  }

  lemma LastShows(details: seq<Detail>, loss: int)
    requires Shows(details, loss)
    ensures loss == if details == [] then 1 else 0 - details[|details| - 1].score
  {
  }

  lemma ChainSnoc(m: int -> nat, details: seq<Detail>, score: nat, fan: int)
    requires Chain(m, details) && Shows(details, score)
    ensures var d := details + [Detail(fan, 0 - score * m(fan))];
            && Chain(m, d) && Shows(d, score * m(fan))
            && forall f :: FanCount(d, f) == FanCount(details, f) + if f == fan then 1 else 0
  {
    var d := details + [Detail(fan, 0 - score * m(fan))];
    assert d[..|d| - 1] == details;
    assert m(fan) * score == score * m(fan);
  }

  /** A loser pays what his last detail shows, 1 when there is none, but no more than a positive cap. */
  predicate Capped(e: Element, top: int) {
    var shown := if e.details == [] then 1 else 0 - e.details[|e.details| - 1].score;
    && 0 - e.score <= shown && (top > 0 ==> 0 - e.score <= top)
    && (0 - e.score == shown || (top > 0 && 0 - e.score == top))
  }

  /** How often a fan type is named in a loser's details: the fans of the hand that multiply, 绝头 once a tile,
      and the types of how he lost. */
  function Named(t: Table, w: Win, i: nat, fan: int): nat
    requires t.Valid() && w.hu < MAX_PLAYER_COUNT && i < MAX_PLAYER_COUNT
  {
    One(fan in w.fans && t.rules.multiple(fan) != 1)
    + (if fan == FAN_TYPE_JUETOUHUI then t.seats[w.hu].juetou else 0) + Ways(t, w, i, fan)
  }

  /** How loser `i` lost. */
  function Ways(t: Table, w: Win, i: nat, fan: int): nat
    requires t.Valid() && w.hu < MAX_PLAYER_COUNT && i < MAX_PLAYER_COUNT
  {
    var s, selfDraw := t.seats[i], w.dianpao == t.seats[w.hu].id;
    var fed := !selfDraw && s.id == w.dianpao;
    One(selfDraw && fan == FAN_TYPE_ZI_MO) + One(fed && fan == FAN_TYPE_DIAN_PAO)
    + One(fed && s.gangOperation && fan == FAN_TYPE_LIU_LEI) + One(s.id == t.banker && fan == FAN_TYPE_ZHUANG)
    + One(s.bimen && fan == FAN_TYPE_BIMEN) + One(s.mingPiao && fan == FAN_TYPE_PIAO_WEIHU)
    + One(SanJiaBi(t, w.hu) && fan == FAN_TYPE_SAN_JIA_BI_MEN)
  }

  /** What a loser's amount is made of: the winner's fans and 绝头会, and one factor for each way of losing. */
  lemma RawLossIs(t: Table, w: Win, i: nat)
    requires t.Valid() && w.hu < MAX_PLAYER_COUNT && i < MAX_PLAYER_COUNT && i != w.hu
    ensures var m, s, selfDraw, fed := t.rules.multiple, t.seats[i], w.dianpao == t.seats[w.hu].id, w.dianpao == t.seats[i].id;
            RawLoss(t, w, i) ==
              Times(Times(Times(Times(Times(Times(Times(
                Product(m, w.fans) * Power(m(FAN_TYPE_JUETOUHUI), t.seats[w.hu].juetou),
                if selfDraw then m(FAN_TYPE_ZI_MO) else 1), if fed then m(FAN_TYPE_DIAN_PAO) else 1),
                if fed && s.gangOperation then m(FAN_TYPE_LIU_LEI) else 1), if s.id == t.banker then m(FAN_TYPE_ZHUANG) else 1),
                if s.bimen then m(FAN_TYPE_BIMEN) else 1), if s.mingPiao then m(FAN_TYPE_PIAO_WEIHU) else 1),
                if forall k :: 0 <= k < MAX_PLAYER_COUNT && k != w.hu ==> t.seats[k].bimen then m(FAN_TYPE_SAN_JIA_BI_MEN) else 1)
  {
    hide Product, Power, Times;
    var f := Factors(t, w, i);
    var start := Product(t.rules.multiple, w.fans) * Power(t.rules.multiple(FAN_TYPE_JUETOUHUI), t.seats[w.hu].juetou);
    ScaledBySeven(start, f);
  }

  lemma ScaledBySeven(start: nat, f: seq<nat>)
    requires |f| == 7
    ensures Scaled(start, f) == Times(Times(Times(Times(Times(Times(Times(start, f[0]), f[1]), f[2]), f[3]), f[4]), f[5]), f[6])
  {
    hide Times;
    assert f[..6][..5] == f[..5] && f[..5][..4] == f[..4] && f[..4][..3] == f[..3] && f[..3][..2] == f[..2] && f[..2][..1] == f[..1] && f[..1][..0] == [];
    assert Scaled(start, f) == Times(Scaled(start, f[..6]), f[6]) && Scaled(start, f[..6]) == Times(Scaled(start, f[..5]), f[5]);
    assert Scaled(start, f[..5]) == Times(Scaled(start, f[..4]), f[4]) && Scaled(start, f[..4]) == Times(Scaled(start, f[..3]), f[3]);
    assert Scaled(start, f[..3]) == Times(Scaled(start, f[..2]), f[2]) && Scaled(start, f[..2]) == Times(Scaled(start, f[..1]), f[1]);
    assert Scaled(start, f[..1]) == Times(Scaled(start, []), f[0]) && Scaled(start, []) == start;
  }

  /** 三家闭门 is charged exactly when the three other than the winner have opened nothing, whoever pays; 自摸 to all
      when the winner drew the tile himself, and 点炮 to the one who fed it when he did not. */
  lemma WaysMean(t: Table, w: Win, i: nat)
    requires t.Valid() && w.hu < MAX_PLAYER_COUNT && i < MAX_PLAYER_COUNT
    ensures Ways(t, w, i, FAN_TYPE_SAN_JIA_BI_MEN) ==
              if forall k :: 0 <= k < MAX_PLAYER_COUNT && k != w.hu ==> t.seats[k].bimen then 1 else 0
    ensures Ways(t, w, i, FAN_TYPE_ZI_MO) == if w.dianpao == t.seats[w.hu].id then 1 else 0
    ensures Ways(t, w, i, FAN_TYPE_DIAN_PAO) == if w.dianpao == t.seats[i].id && i != w.hu then 1 else 0
    ensures Ways(t, w, i, FAN_TYPE_LIU_LEI) == if w.dianpao == t.seats[i].id && i != w.hu && t.seats[i].gangOperation then 1 else 0
    ensures Ways(t, w, i, FAN_TYPE_ZHUANG) == if t.seats[i].id == t.banker then 1 else 0
    ensures Ways(t, w, i, FAN_TYPE_BIMEN) == if t.seats[i].bimen then 1 else 0
    ensures Ways(t, w, i, FAN_TYPE_PIAO_WEIHU) == if t.seats[i].mingPiao then 1 else 0
  {
    assert i != w.hu ==> t.seats[i].id != t.seats[w.hu].id by {
      if i < w.hu {
        assert t.seats[i].id != t.seats[w.hu].id;
      } else if w.hu < i {
        assert t.seats[w.hu].id != t.seats[i].id;
      }
    }
  }

  function One(b: bool): nat {
    if b then 1 else 0
  }

  /** Adds to the first detail of the type, or appends a new one. */
  method AddDetail(details: seq<Detail>, fan: int, score: int) returns (r: seq<Detail>)
    requires UniqueFans(details)
    ensures UniqueFans(r)
    ensures forall f :: DetailSum(r, f) == DetailSum(details, f) + if f == fan then score else 0
    ensures forall f :: HasFan(r, f) <==> HasFan(details, f) || f == fan
  {
    hide HasFan, DetailSum;
    for i := 0 to |details|
      invariant forall j :: 0 <= j < i ==> details[j].fanType != fan
    {
      if details[i].fanType == fan {
        r := details[i := Detail(fan, details[i].score + score)];
        forall f ensures DetailSum(r, f) == DetailSum(details, f) + if f == fan then score else 0 {
          RaiseDetail(details, i, score, f);
        }
        SameFans(details, r);
        FanAt(details, i);
        return;
      }
    }
    r := details + [Detail(fan, score)];
    SnocDetail(details, Detail(fan, score));
  }

  lemma FanAt(details: seq<Detail>, i: nat)
    requires i < |details|
    ensures HasFan(details, details[i].fanType)
  {
  }

  lemma SameFans(a: seq<Detail>, b: seq<Detail>)
    requires |a| == |b| && forall i :: 0 <= i < |a| ==> a[i].fanType == b[i].fanType
    ensures forall f :: HasFan(a, f) <==> HasFan(b, f)
  {
  }

  lemma {:induction false} RaiseDetail(details: seq<Detail>, i: nat, score: int, fan: int)
    requires i < |details|
    ensures DetailSum(details[i := Detail(details[i].fanType, details[i].score + score)], fan)
         == DetailSum(details, fan) + if details[i].fanType == fan then score else 0
  {
    var n := |details| - 1;
    var r := details[i := Detail(details[i].fanType, details[i].score + score)];
    if i == n {
      assert r[..n] == details[..n];
    } else {
      RaiseDetail(details[..n], i, score, fan);
      assert r[..n] == details[..n][i := Detail(details[i].fanType, details[i].score + score)];
    }
  }

  // ------------------------------------------------------------------- the settlement

  /** The record list of one game, filled in place. */
  class GameRecord {
    var list: seq<Element>

    constructor ()
      ensures list == []
    {
      list := [];
    }

    method Add(e: Element)
      modifies this
      ensures list == old(list) + [e]
    {
      list := list + [e];
    }

    method Set(i: nat, score: int, details: seq<Detail>)
      requires i < |list|
      modifies this
      ensures list == old(list)[i := Element(old(list[i].playerId), score, details)]
    {
      list := list[i := list[i].(score := score, details := details)];
    }
  }

  /** The records name the four seats in order. */
  predicate Listed(t: Table, list: seq<Element>)
    requires t.Valid()
  {
    |list| == MAX_PLAYER_COUNT && forall j :: 0 <= j < MAX_PLAYER_COUNT ==> list[j].playerId == t.seats[j].id
  }

  class Game {
    const table: Table

    constructor (table: Table)
      requires table.Valid()
      ensures this.table == table
    {
      this.table := table;
    }

    method ApplyFactor(score: nat, details: seq<Detail>, when: bool, fan: int) returns (s: nat, d: seq<Detail>)
      requires Shows(details, score) && Chain(table.rules.multiple, details)
      ensures s == Times(score, If(when, table.rules.multiple(fan)))
      ensures Shows(d, s) && Chain(table.rules.multiple, d)
      ensures forall f :: FanCount(d, f) == FanCount(details, f) + One(when && f == fan)
    {
      s, d := score, details;
      if when {
        ChainSnoc(table.rules.multiple, details, score, fan);
        s := score * table.rules.multiple(fan);
        d := details + [Detail(fan, 0 - s)];
      }
    }

    /** The fans of the hand, whatever order the set is visited in. */
    method HandFans(fans: set<int>) returns (score: nat, details: seq<Detail>)
      ensures score == Product(table.rules.multiple, fans)
      ensures Shows(details, score) && Chain(table.rules.multiple, details)
      ensures forall f :: FanCount(details, f) == One(f in fans && table.rules.multiple(f) != 1)
    {
      hide Product, Chain, FanCount, Shows;
      score, details := 1, [];
      var rest := fans;
      NoChain(table.rules.multiple);
      while rest != {}
        invariant rest <= fans
        invariant Product(table.rules.multiple, fans) == score * Product(table.rules.multiple, rest)
        invariant Shows(details, score) && Chain(table.rules.multiple, details)
        invariant forall f :: FanCount(details, f) == One(f in fans && f !in rest && table.rules.multiple(f) != 1)
      {
        HasElement(rest);
        var f :| f in rest;
        ProductStep(table.rules.multiple, rest, f);
        Regroup(score, table.rules.multiple(f), Product(table.rules.multiple, rest - {f}));
        rest := rest - {f};
        if table.rules.multiple(f) != 1 {
          ChainSnoc(table.rules.multiple, details, score, f);
          var next := score * table.rules.multiple(f);
          score := next;
          details := details + [Detail(f, 0 - score)];
        }
      }
    }

    /** One factor per 绝头 wild tile of the winner. */
    method JueTouFans(hand: nat, d: seq<Detail>, count: nat) returns (score: nat, details: seq<Detail>)
      requires Shows(d, hand) && Chain(table.rules.multiple, d)
      ensures score == hand * Power(table.rules.multiple(FAN_TYPE_JUETOUHUI), count)
      ensures Shows(details, score) && Chain(table.rules.multiple, details)
      ensures forall f :: FanCount(details, f) == FanCount(d, f) + if f == FAN_TYPE_JUETOUHUI then count else 0
    {
      hide Chain;
      var m := table.rules.multiple;
      score, details := hand, d;
      for k := 0 to count
        invariant score == hand * Power(m(FAN_TYPE_JUETOUHUI), k)
        invariant Shows(details, score) && Chain(m, details)
        invariant forall f :: FanCount(details, f) == FanCount(d, f) + if f == FAN_TYPE_JUETOUHUI then k else 0
      {
        ChainSnoc(m, details, score, FAN_TYPE_JUETOUHUI);
        Regroup(hand, Power(m(FAN_TYPE_JUETOUHUI), k), m(FAN_TYPE_JUETOUHUI));
        score := score * m(FAN_TYPE_JUETOUHUI);
        details := details + [Detail(FAN_TYPE_JUETOUHUI, 0 - score)];
      }
    }

    /** The factors of how loser `i` lost. */
    method HowLost(w: Win, i: nat, start: nat, d: seq<Detail>) returns (score: nat, details: seq<Detail>)
      requires table.Valid() && w.hu < MAX_PLAYER_COUNT && i < MAX_PLAYER_COUNT && i != w.hu
      requires Shows(d, start) && Chain(table.rules.multiple, d)
      ensures score == Scaled(start, Factors(table, w, i))
      ensures Shows(details, score) && Chain(table.rules.multiple, details)
      ensures forall f :: FanCount(details, f) == FanCount(d, f) + Ways(table, w, i, f)
    {
      hide Times, Scaled, Shows, Chain, FanCount;
      var s, id := table.seats[i], table.seats[i].id;
      var selfDraw := w.dianpao == table.seats[w.hu].id;
      var fed := !selfDraw && id == w.dianpao;
      score, details := ApplyFactor(start, d, selfDraw, FAN_TYPE_ZI_MO);
      score, details := ApplyFactor(score, details, fed, FAN_TYPE_DIAN_PAO);
      score, details := ApplyFactor(score, details, fed && s.gangOperation, FAN_TYPE_LIU_LEI);
      score, details := ApplyFactor(score, details, id == table.banker, FAN_TYPE_ZHUANG);
      score, details := ApplyFactor(score, details, s.bimen, FAN_TYPE_BIMEN);
      score, details := ApplyFactor(score, details, s.mingPiao, FAN_TYPE_PIAO_WEIHU);
      score, details := ApplyFactor(score, details, SanJiaBi(table, w.hu), FAN_TYPE_SAN_JIA_BI_MEN);
      ScaledSeven(start, Factors(table, w, i));
    }

    /** What loser `i` owes: the amount his last detail shows, 1 without one, but no more than a positive cap. */
    method LoserElement(w: Win, i: nat) returns (e: Element)
      requires table.Valid() && w.hu < MAX_PLAYER_COUNT && i < MAX_PLAYER_COUNT && i != w.hu
      ensures e.playerId == table.seats[i].id && e.score == -Loss(table, w, i)
      ensures Shows(e.details, RawLoss(table, w, i)) && Chain(table.rules.multiple, e.details)
      ensures forall f :: FanCount(e.details, f) == Named(table, w, i, f)
      ensures forall f :: FanCount(e.details, f) ==
                (if f in w.fans && table.rules.multiple(f) != 1 then 1 else 0)
                + (if f == FAN_TYPE_JUETOUHUI then table.seats[w.hu].juetou else 0) + Ways(table, w, i, f)
      ensures var top, shown := table.rules.topMultiple, if e.details == [] then 1 else 0 - e.details[|e.details| - 1].score;
              && 0 - e.score <= shown && (top > 0 ==> 0 - e.score <= top)
              && (0 - e.score == shown || (top > 0 && 0 - e.score == top))
    {
      hide Power, Scaled, Shows, Product, Chain, FanCount, Factors, Ways;
      var score, details := HandFans(w.fans);
      score, details := JueTouFans(score, details, table.seats[w.hu].juetou);
      score, details := HowLost(w, i, score, details);
      assert score == RawLoss(table, w, i);
      LastShows(details, score);
      var top := table.rules.topMultiple;
      var capped := if top > 0 && top < score then top else score;
      e := Element(table.seats[i].id, 0 - capped, details);
    }

    /** 1. Every loser's record; the winner's is still empty. */
    method FillLosers(record: GameRecord, w: Win)
      requires table.Valid() && w.hu < MAX_PLAYER_COUNT && record.list == []
      modifies record
      ensures Listed(table, record.list) && record.list[w.hu] == Element(table.seats[w.hu].id, 0, [])
      ensures forall j :: 0 <= j < MAX_PLAYER_COUNT && j != w.hu ==> record.list[j].score == -Loss(table, w, j)
      ensures forall j :: 0 <= j < MAX_PLAYER_COUNT && j != w.hu ==> Capped(record.list[j], table.rules.topMultiple)
    {
      for i := 0 to MAX_PLAYER_COUNT
        invariant |record.list| == i
        invariant forall j :: 0 <= j < i && j != w.hu ==> Capped(record.list[j], table.rules.topMultiple)
        invariant forall j :: 0 <= j < i ==> record.list[j].playerId == table.seats[j].id
        invariant w.hu < i ==> record.list[w.hu] == Element(table.seats[w.hu].id, 0, [])
        invariant forall j :: 0 <= j < i && j != w.hu ==> record.list[j].score == -Loss(table, w, j)
      {
        if i == w.hu {
          record.Add(Element(table.seats[i].id, 0, []));
        } else {
          var e := LoserElement(w, i);
          record.Add(e);
        }
      }
    }

    /** Adds a loser's details, negated, to the winner's. */
    method MergeDetails(win: seq<Detail>, lost: seq<Detail>) returns (r: seq<Detail>)
      requires UniqueFans(win)
      ensures UniqueFans(r)
      ensures forall f :: DetailSum(r, f) == DetailSum(win, f) - DetailSum(lost, f)
      ensures forall f :: HasFan(r, f) <==> HasFan(win, f) || HasFan(lost, f)
    {
      r := win;
      for i := 0 to |lost|
        invariant UniqueFans(r)
        invariant forall f :: DetailSum(r, f) == DetailSum(win, f) - DetailSum(lost[..i], f)
        invariant forall f :: HasFan(r, f) <==> HasFan(win, f) || HasFan(lost[..i], f)
      {
        var r0 := r;
        r := AddDetail(r0, lost[i].fanType, -lost[i].score);
        SnocDetail(lost[..i], lost[i]);
        assert lost[..i + 1] == lost[..i] + [lost[i]];
      }
      assert lost[..|lost|] == lost;
    }

    /** 2. What the winner takes: the sum over the paying losers, score and details. */
    method TotalForWinner(record: GameRecord, w: Win) returns (playerScore: map<int, int>)
      requires table.Valid() && w.hu < MAX_PLAYER_COUNT && Listed(table, record.list)
      requires record.list[w.hu].details == []
      requires forall j :: 0 <= j < MAX_PLAYER_COUNT && j != w.hu ==> record.list[j].score == -Loss(table, w, j)
      modifies record
      ensures Listed(table, record.list)
      ensures record.list[w.hu].score == AllPay(table, w)
      ensures forall j :: 0 <= j < MAX_PLAYER_COUNT && j != w.hu ==> record.list[j].score == -Pays(table, w, j)
      ensures forall j :: 0 <= j < MAX_PLAYER_COUNT && j != w.hu ==>
                record.list[j].details == if Excused(table, w, j) then [] else old(record.list[j].details)
      ensures forall j :: 0 <= j < MAX_PLAYER_COUNT && j != w.hu ==>
                Pays(table, w, j) == Entry(playerScore, table.seats[j].id)
      ensures WinnerDetails(table, w, record.list)
    {
      hide Taken, Pays, Loss, AllPay, DetailSum, HasFan, UniqueFans, WinnerDetails, Entry, Excused, PaysBelow, LostBelow, LostHasBelow;
      playerScore := map[];
      var total := 0;
      ghost var list0 := record.list;
      NoneTaken(table, w, list0);
      for i := 0 to MAX_PLAYER_COUNT
        invariant Listed(table, record.list)
        invariant Taken(table, w, list0, record.list, total, playerScore, i)
      {
        ghost var before := record.list;
        if i == w.hu {
          TakeWinner(table, w, list0, before, total, playerScore);
        } else if Excused(table, w, i) {
          record.Set(i, 0, []);
          TakeExcused(table, w, list0, before, total, playerScore, i);
        } else {
          ghost var total0, scores0 := total, playerScore;
          TakenUnique(table, w, list0, before, total, playerScore, i);
          total := total - record.list[i].score;
          playerScore := playerScore[table.seats[i].id := -record.list[i].score];
          var merged := MergeDetails(record.list[w.hu].details, record.list[i].details);
          record.Set(w.hu, record.list[w.hu].score, merged);
          TakePaying(table, w, list0, before, total0, scores0, i, merged);
        }
      }
      ghost var before := record.list;
      record.Set(w.hu, total, record.list[w.hu].details);
      AllTaken(table, w, list0, before, total, playerScore);
    }

    /** What player `index` pays for the open kongs of player `i`, kong by kong. */
    method PayMingGang(i: nat, index: nat, details: seq<Detail>) returns (paid: int, d: seq<Detail>)
      requires table.Valid() && i < MAX_PLAYER_COUNT && index < MAX_PLAYER_COUNT
      ensures paid == MingPay(table, i, index, table.seats[i].mingGang)
      ensures Adds(details, d, FAN_TYPE_MING_GANG, -paid)
    {
      hide DetailSum;
      var each := table.rules.multiple(FAN_TYPE_MING_GANG);
      var gangs := table.seats[i].mingGang;
      paid, d := 0, details;
      for k := 0 to |gangs|
        invariant paid == MingPay(table, i, index, gangs[..k])
        invariant Adds(details, d, FAN_TYPE_MING_GANG, -paid)
      {
        assert gangs[..k + 1][..k] == gangs[..k];
        if table.rules.jianPing {
          if table.seats[index].id == gangs[k] {
            AddsOne(details, d, FAN_TYPE_MING_GANG, -paid, -(each * (MAX_PLAYER_COUNT - 1)));
            d := d + [Detail(FAN_TYPE_MING_GANG, -(each * (MAX_PLAYER_COUNT - 1)))];
            paid := paid + each * (MAX_PLAYER_COUNT - 1);
          } else if table.seats[i].id == gangs[k] {
            AddsOne(details, d, FAN_TYPE_MING_GANG, -paid, 0 - each);
            d := d + [Detail(FAN_TYPE_MING_GANG, 0 - each)];
            paid := paid + each;
          }
        } else {
          AddsOne(details, d, FAN_TYPE_MING_GANG, -paid, 0 - each);
          d := d + [Detail(FAN_TYPE_MING_GANG, 0 - each)];
          paid := paid + each;
        }
      }
      assert gangs[..|gangs|] == gangs;
    }

    /** 3. Kong scores: each player in turn collects from the other three. */
    method CalculateGangScore(record: GameRecord)
      requires table.Valid() && Listed(table, record.list)
      modifies record
      ensures Listed(table, record.list)
      ensures Moved(table, old(record.list), record.list, MAX_PLAYER_COUNT)
    {
      hide Moved, MovedBy;
      ghost var list0 := record.list;
      NotMoved(table, list0);
      for i := 0 to MAX_PLAYER_COUNT
        invariant Listed(table, record.list)
        invariant Moved(table, list0, record.list, i)
      {
        ghost var list1 := record.list;
        GangsOf(record, i);
        MovedStep(table, list0, list1, record.list, i);
      }
    }

    /** The kongs of one player: his gain, then what each other player loses. */
    method GangsOf(record: GameRecord, i: nat)
      requires table.Valid() && Listed(table, record.list) && i < MAX_PLAYER_COUNT
      modifies record
      ensures Listed(table, record.list)
      ensures forall j :: 0 <= j < MAX_PLAYER_COUNT ==> MovedBy(table, i, j, old(record.list[j]), record.list[j])
    {
      hide GangWin, ClosedGang, MingPay, Share, DetailSum, Contribution;
      var s, m := table.seats[i], table.rules.multiple;
      var mingCount := |s.mingGang|;
      var mingScore, anScore := mingCount * m(FAN_TYPE_MING_GANG), s.anGang * m(FAN_TYPE_AN_GANG);
      var fgScore, jgScore := s.fengGang * m(FAN_TYPE_XUAN_FENG_GANG), s.jianGang * m(FAN_TYPE_XUAN_JIAN_GANG);
      var score := mingScore + anScore + fgScore + jgScore;
      GangParts(table, i);
      ghost var list0 := record.list;
      OwnShares(table, i, record.list[i].details);

      var e := record.list[i];
      var d := Shown(e.details, mingCount, FAN_TYPE_MING_GANG, mingScore * (MAX_PLAYER_COUNT - 1));
      d := Shown(d, s.anGang, FAN_TYPE_AN_GANG, anScore * (MAX_PLAYER_COUNT - 1));
      d := Shown(d, s.fengGang, FAN_TYPE_XUAN_FENG_GANG, fgScore * (MAX_PLAYER_COUNT - 1));
      d := Shown(d, s.jianGang, FAN_TYPE_XUAN_JIAN_GANG, jgScore * (MAX_PLAYER_COUNT - 1));
      record.Set(i, e.score + score * (MAX_PLAYER_COUNT - 1), d);
      assert MovedBy(table, i, i, list0[i], record.list[i]);
      hide MovedBy;
      for index := 0 to MAX_PLAYER_COUNT
        invariant Listed(table, record.list)
        invariant forall j :: 0 <= j < MAX_PLAYER_COUNT ==>
                    if j == i || j < index then MovedBy(table, i, j, list0[j], record.list[j]) else record.list[j] == list0[j]
      {
        if index != i {
          var lost, shown := LoseGang(i, index, record.list[index].details, score, mingScore, anScore, fgScore, jgScore);
          MovedIs(table, i, index, list0[index], lost, shown, list0[index].playerId);
          record.Set(index, record.list[index].score - lost, shown);
        }
      }
    }

    /** What player `index` loses by the kongs of player `i`: the flat score, corrected by what
        the open kongs really cost him. */
    method LoseGang(i: nat, index: nat, details: seq<Detail>, score: int, mingScore: int, anScore: int, fgScore: int, jgScore: int)
      returns (lost: int, shown: seq<Detail>)
      requires table.Valid() && i < MAX_PLAYER_COUNT && index < MAX_PLAYER_COUNT && index != i
      requires mingScore == |table.seats[i].mingGang| * table.rules.multiple(FAN_TYPE_MING_GANG)
      requires anScore == table.seats[i].anGang * table.rules.multiple(FAN_TYPE_AN_GANG)
      requires fgScore == table.seats[i].fengGang * table.rules.multiple(FAN_TYPE_XUAN_FENG_GANG)
      requires jgScore == table.seats[i].jianGang * table.rules.multiple(FAN_TYPE_XUAN_JIAN_GANG)
      requires score - mingScore == ClosedGang(table, i)
      ensures lost == -Contribution(table, i, index)
      ensures details <= shown && forall f :: DetailSum(shown, f) == DetailSum(details, f) + Share(table, i, index, f)
    {
      var s := table.seats[i];
      lost, shown := score, details;
      if |s.mingGang| != 0 {
        var paid;
        paid, shown := PayMingGang(i, index, shown);
        lost := lost - (mingScore - paid);
      }
      hide DetailSum;
      OtherShares(table, i, index, details, shown);
      shown := Shown(shown, s.anGang, FAN_TYPE_AN_GANG, -anScore);
      shown := Shown(shown, s.fengGang, FAN_TYPE_XUAN_FENG_GANG, -fgScore);
      shown := Shown(shown, s.jianGang, FAN_TYPE_XUAN_JIAN_GANG, -jgScore);
    }

    /** 4. Liability: the discarder pays the others back and bears it alone, which his last detail shows. */
    method SettleLiability(record: GameRecord, w: Win, playerScore: map<int, int>) returns (done: bool)
      requires table.Valid() && w.hu < MAX_PLAYER_COUNT && Listed(table, record.list)
      requires forall j :: 0 <= j < MAX_PLAYER_COUNT && j != w.hu ==>
                 Pays(table, w, j) == Entry(playerScore, table.seats[j].id)
      modifies record
      ensures Listed(table, record.list)
      ensures done <==> (Liable(table, w) ==> IsSeated(table, w.dianpao))
      ensures done ==> forall j :: 0 <= j < MAX_PLAYER_COUNT ==>
                record.list[j].score == old(record.list[j].score) + Repaid(table, w, j)
                && record.list[j].details == old(record.list[j].details)
                     + if Liable(table, w) && table.seats[j].id == w.dianpao then [Detail(FAN_TYPE_BAOSANJIA, Repaid(table, w, j))] else []
    {
      hide Pays, PaidBack, AllPaidBack, PaidBackBelow, Repaid, Entry, IsSeated, Liable;
      ghost var list0 := record.list;
      NotLiable(table, w);
      if !Liable(table, w) {
        assert forall j :: 0 <= j < MAX_PLAYER_COUNT ==> list0[j].details + [] == list0[j].details;
        return true;
      }
      var dian := SeatOf(w.dianpao);
      if dian == -1 {
        return false;
      }
      var baofen := 0;
      for k := 0 to MAX_PLAYER_COUNT
        invariant Listed(table, record.list)
        invariant baofen == PaidBackBelow(table, w, k)
        invariant forall j :: 0 <= j < MAX_PLAYER_COUNT ==>
                    record.list[j].score == list0[j].score + (if j < k then PaidBack(table, w, j) else 0)
                    && record.list[j].details == list0[j].details
      {
        var id := table.seats[k].id;
        BackStep(table, w, playerScore, k);
        if k != w.hu && id != w.dianpao {
          record.Set(k, record.list[k].score + Entry(playerScore, id), record.list[k].details);
          baofen := baofen + Entry(playerScore, id);
        }
      }
      RepaidAre(table, w, dian);
      assert forall j :: 0 <= j < MAX_PLAYER_COUNT ==> list0[j].details + [] == list0[j].details;
      record.Set(dian, record.list[dian].score - baofen, record.list[dian].details + [Detail(FAN_TYPE_BAOSANJIA, -baofen)]);
      done := true;
    }

    method SeatOf(id: int) returns (seat: int)
      requires table.Valid()
      ensures if IsSeated(table, id) then 0 <= seat < MAX_PLAYER_COUNT && table.seats[seat].id == id else seat == -1
    {
      for k := 0 to MAX_PLAYER_COUNT
        invariant forall j :: 0 <= j < k ==> table.seats[j].id != id
      {
        if table.seats[k].id == id {
          return k;
        }
      }
      seat := -1;
    }

    /** A record without any detail but kongs is shown as a plain win; scores stay as they are. */
    method ShowPingHu(record: GameRecord)
      requires table.Valid() && Listed(table, record.list)
      modifies record
      ensures Listed(table, record.list)
      ensures forall j :: 0 <= j < MAX_PLAYER_COUNT ==> record.list[j].score == old(record.list[j].score)
    {
      for i := 0 to MAX_PLAYER_COUNT
        invariant Listed(table, record.list)
        invariant forall j :: 0 <= j < MAX_PLAYER_COUNT ==> record.list[j].score == old(record.list[j].score)
      {
        var plain := forall k :: 0 <= k < |record.list[i].details| ==>
                       record.list[i].details[k].fanType in {FAN_TYPE_MING_GANG, FAN_TYPE_AN_GANG, FAN_TYPE_XUAN_FENG_GANG};
        if plain && !table.rules.yiJiaFu {
          record.Set(i, record.list[i].score, record.list[i].details + [Detail(FAN_TYPE_PINGHU, 1)]);
        }
      }
    }

    /** Settles a win.  It gives up, leaving no record, when the winner is not seated or a
        liable discarder is not. */
    method Calculate(huPlayer: int, dianpao: int, fanList: set<int>) returns (done: bool, record: GameRecord)
      requires table.Valid()
      ensures fresh(record)
      ensures done <==> IsSeated(table, huPlayer)
                        && ((table.rules.baoSanJia || table.rules.yiJiaFu) && dianpao != 0 && dianpao != huPlayer
                            ==> IsSeated(table, dianpao))
      ensures done ==> Listed(table, record.list)
      ensures done ==> forall j :: 0 <= j < MAX_PLAYER_COUNT ==>
                         record.list[j].score == FinalScore(table, WinOf(table, huPlayer, dianpao, fanList), j)
      ensures done && (dianpao == 0 || dianpao == huPlayer || (!table.rules.baoSanJia && !table.rules.yiJiaFu)) ==>
                forall j :: 0 <= j < MAX_PLAYER_COUNT && table.seats[j].id != huPlayer ==>
                  var paid, top := GangBalance(table, j) - record.list[j].score, table.rules.topMultiple;
                  var raw := RawLoss(table, WinOf(table, huPlayer, dianpao, fanList), j);
                  paid <= raw && (top > 0 ==> paid <= top) && (paid == raw || (top > 0 && paid == top))
    {
      assert |table.seats| == MAX_PLAYER_COUNT;
      hide *;
      record := new GameRecord();
      var hu := SeatOf(huPlayer);
      if hu == -1 {
        return false, record;
      }
      var fans := fanList;
      if huPlayer == table.banker {
        fans := fans + {FAN_TYPE_ZHUANG};
      }
      if dianpao == huPlayer && table.seats[hu].gangOperation {
        fans := fans + {FAN_TYPE_GANG_SHANG_KAI};
      }
      var w := Win(hu, dianpao, fans);
      WinIs(table, huPlayer, dianpao, fanList, hu);
      NoFans(fanList);
      assert w == WinOf(table, huPlayer, dianpao, fanList);
      done := SettleWin(record, w);
    }

    /** The four steps, and the mark of a plain win. */
    method SettleWin(record: GameRecord, w: Win) returns (done: bool)
      requires table.Valid() && w.hu < MAX_PLAYER_COUNT && record.list == []
      modifies record
      ensures done <==> ((table.rules.baoSanJia || table.rules.yiJiaFu) && w.dianpao != 0 && w.dianpao != table.seats[w.hu].id
                         ==> IsSeated(table, w.dianpao))
      ensures done ==> Listed(table, record.list)
      ensures done ==> forall j :: 0 <= j < MAX_PLAYER_COUNT ==> record.list[j].score == FinalScore(table, w, j)
    {
      hide Pays, Loss, AllPay, PaidBack, AllPaidBack, WinnerDetails, Entry, Repaid, IsSeated, Excused, Capped, Shares, Balance;
      FillLosers(record, w);
      var playerScore := TotalForWinner(record, w);
      CalculateGangScore(record);
      done := SettleLiability(record, w, playerScore);
      if !done {
        return;
      }
      ShowPingHu(record);
    }

    /** A drawn game: kong scores still count, unless 荒庄 cancels them. */
    method OnLiuJu() returns (record: GameRecord)
      requires table.Valid()
      ensures fresh(record) && Listed(table, record.list)
      ensures forall j :: 0 <= j < MAX_PLAYER_COUNT ==>
                record.list[j].score == if table.rules.huangZhuang then 0 else GangBalance(table, j)
    {
      record := new GameRecord();
      for i := 0 to MAX_PLAYER_COUNT
        invariant |record.list| == i
        invariant forall j :: 0 <= j < i ==> record.list[j] == Element(table.seats[j].id, 0, [])
      {
        record.Add(Element(table.seats[i].id, 0, []));
      }
      if !table.rules.huangZhuang {
        CalculateGangScore(record);
      }
    }
  }

  /** The winner's total after the first `n` records. */
  ghost predicate Taken(t: Table, w: Win, list0: seq<Element>, list: seq<Element>, total: int,
                        scores: map<int, int>, n: nat)
    requires t.Valid() && w.hu < MAX_PLAYER_COUNT && n <= MAX_PLAYER_COUNT && Listed(t, list0) && Listed(t, list)
  {
    && total == PaysBelow(t, w, n)
    && (forall j :: n <= j < MAX_PLAYER_COUNT && j != w.hu ==> list[j] == list0[j] && list[j].score == -Loss(t, w, j))
    && (forall j :: 0 <= j < n && j != w.hu ==>
          list[j].score == -Pays(t, w, j)
          && list[j].details == (if Excused(t, w, j) then [] else list0[j].details)
          && Pays(t, w, j) == Entry(scores, t.seats[j].id))
    && (forall j :: n <= j < MAX_PLAYER_COUNT ==> t.seats[j].id !in scores)
    && UniqueFans(list[w.hu].details)
    && (forall f :: DetailSum(list[w.hu].details, f) == -LostBelow(w, list, n, f))
    && (forall f :: HasFan(list[w.hu].details, f) <==> LostHasBelow(w, list, n, f))
  }

  lemma TakenUnique(t: Table, w: Win, list0: seq<Element>, list: seq<Element>, total: int, scores: map<int, int>, n: nat)
    requires t.Valid() && w.hu < MAX_PLAYER_COUNT && n <= MAX_PLAYER_COUNT && Listed(t, list0) && Listed(t, list)
    requires Taken(t, w, list0, list, total, scores, n)
    ensures UniqueFans(list[w.hu].details)
  {
  }

  lemma NoneTaken(t: Table, w: Win, list: seq<Element>)
    requires t.Valid() && w.hu < MAX_PLAYER_COUNT && Listed(t, list) && list[w.hu].details == []
    requires forall j :: 0 <= j < MAX_PLAYER_COUNT && j != w.hu ==> list[j].score == -Loss(t, w, j)
    ensures Taken(t, w, list, list, 0, map[], 0)
  {
  }

  lemma AllTaken(t: Table, w: Win, list0: seq<Element>, list: seq<Element>, total: int, scores: map<int, int>)
    requires t.Valid() && w.hu < MAX_PLAYER_COUNT && Listed(t, list0) && Listed(t, list)
    requires Taken(t, w, list0, list, total, scores, MAX_PLAYER_COUNT)
    ensures total == AllPay(t, w)
    ensures forall j :: 0 <= j < MAX_PLAYER_COUNT && j != w.hu ==>
              list[j].score == -Pays(t, w, j)
              && list[j].details == (if Excused(t, w, j) then [] else list0[j].details)
              && Pays(t, w, j) == Entry(scores, t.seats[j].id)
    ensures Listed(t, list[w.hu := Element(list[w.hu].playerId, total, list[w.hu].details)])
    ensures WinnerDetails(t, w, list[w.hu := Element(list[w.hu].playerId, total, list[w.hu].details)])
  {
    PaysBelowAll(t, w);
    LostBelowSame(w, list, list[w.hu := Element(list[w.hu].playerId, total, list[w.hu].details)], MAX_PLAYER_COUNT);
  }

  lemma TakeWinner(t: Table, w: Win, list0: seq<Element>, list: seq<Element>, total: int, scores: map<int, int>)
    requires t.Valid() && w.hu < MAX_PLAYER_COUNT && Listed(t, list0) && Listed(t, list)
    requires Taken(t, w, list0, list, total, scores, w.hu)
    ensures Taken(t, w, list0, list, total, scores, w.hu + 1)
  {
    LostStep(w, list, w.hu);
  }

  lemma LostStep(w: Win, list: seq<Element>, n: nat)
    requires n < |list|
    ensures forall f :: LostHasBelow(w, list, n + 1, f) <==>
                        LostHasBelow(w, list, n, f) || (n != w.hu && HasFan(list[n].details, f))
    ensures forall f :: LostBelow(w, list, n + 1, f) ==
                        LostBelow(w, list, n, f) + if n == w.hu then 0 else DetailSum(list[n].details, f)
  {
  }

  lemma TakeExcused(t: Table, w: Win, list0: seq<Element>, list: seq<Element>, total: int, scores: map<int, int>, n: nat)
    requires t.Valid() && w.hu < MAX_PLAYER_COUNT && n < MAX_PLAYER_COUNT && n != w.hu
    requires Listed(t, list0) && Listed(t, list) && Excused(t, w, n)
    requires Taken(t, w, list0, list, total, scores, n)
    ensures Taken(t, w, list0, list[n := Element(list[n].playerId, 0, [])], total, scores, n + 1)
  {
    var list' := list[n := Element(list[n].playerId, 0, [])];
    LostBelowSame(w, list, list', n);
    LostStep(w, list', n);
    assert forall f :: !HasFan(list'[n].details, f);
  }

  lemma TakePaying(t: Table, w: Win, list0: seq<Element>, list: seq<Element>, total: int, scores: map<int, int>,
                   n: nat, merged: seq<Detail>)
    requires t.Valid() && w.hu < MAX_PLAYER_COUNT && n < MAX_PLAYER_COUNT && n != w.hu
    requires Listed(t, list0) && Listed(t, list) && !Excused(t, w, n)
    requires Taken(t, w, list0, list, total, scores, n)
    requires UniqueFans(merged)
    requires forall f :: DetailSum(merged, f) == DetailSum(list[w.hu].details, f) - DetailSum(list[n].details, f)
    requires forall f :: HasFan(merged, f) <==> HasFan(list[w.hu].details, f) || HasFan(list[n].details, f)
    ensures Taken(t, w, list0, list[w.hu := Element(list[w.hu].playerId, list[w.hu].score, merged)],
                  total - list[n].score, scores[t.seats[n].id := -list[n].score], n + 1)
  {
    hide Loss, DetailSum, HasFan, UniqueFans;
    var list' := list[w.hu := Element(list[w.hu].playerId, list[w.hu].score, merged)];
    LostBelowSame(w, list, list', n);
    LostStep(w, list', n);
    hide LostHasBelow, LostBelow;
    assert forall j :: 0 <= j < MAX_PLAYER_COUNT && j != n ==> t.seats[j].id != t.seats[n].id;
  }

  lemma PaysBelowAll(t: Table, w: Win)
    requires t.Valid() && w.hu < MAX_PLAYER_COUNT
    ensures PaysBelow(t, w, MAX_PLAYER_COUNT) == AllPay(t, w)
  {
    hide Pays;
    assert PaysBelow(t, w, 1) == Pays(t, w, 0);
    assert PaysBelow(t, w, 2) == PaysBelow(t, w, 1) + Pays(t, w, 1);
    assert PaysBelow(t, w, 3) == PaysBelow(t, w, 2) + Pays(t, w, 2);
    assert PaysBelow(t, w, 4) == PaysBelow(t, w, 3) + Pays(t, w, 3);
  }

  /** The place of a seated player. */
  function SeatIndex(t: Table, id: int): (i: nat)
    requires t.Valid()
    ensures i < MAX_PLAYER_COUNT && (IsSeated(t, id) ==> t.seats[i].id == id)
  {
    if t.seats[0].id == id then 0 else if t.seats[1].id == id then 1 else if t.seats[2].id == id then 2
    else
      assert IsSeated(t, id) ==> exists k :: 0 <= k < 4 && t.seats[k].id == id;
      3
  }

  /** The win being settled: two fan types are added for a winning banker and for a
      self-drawn win on a replacement tile. */
  lemma PaysSmaller(t: Table, w: Win)
    requires t.Valid() && w.hu < MAX_PLAYER_COUNT
    requires w.dianpao == 0 || w.dianpao == t.seats[w.hu].id || (!t.rules.baoSanJia && !t.rules.yiJiaFu)
    ensures forall j :: 0 <= j < MAX_PLAYER_COUNT && j != w.hu ==>
              var paid, top := GangBalance(t, j) - FinalScore(t, w, j), t.rules.topMultiple;
              paid <= RawLoss(t, w, j) && (top > 0 ==> paid <= top) && (paid == RawLoss(t, w, j) || (top > 0 && paid == top))
  {
    EveryLoserPays(t, w);
    hide FinalScore, GangBalance, Loss, RawLoss;
    forall j | 0 <= j < MAX_PLAYER_COUNT && j != w.hu
      ensures var paid, top := GangBalance(t, j) - FinalScore(t, w, j), t.rules.topMultiple;
              paid <= RawLoss(t, w, j) && (top > 0 ==> paid <= top) && (paid == RawLoss(t, w, j) || (top > 0 && paid == top))
    {
      LossIsSmaller(t, w, j);
    }
  }

  lemma NoFans(fans: set<int>)
    ensures fans + {} == fans
  {
  }

  lemma WinIs(t: Table, huPlayer: int, dianpao: int, fanList: set<int>, hu: nat)
    requires t.Valid() && hu < MAX_PLAYER_COUNT && t.seats[hu].id == huPlayer
    ensures IsSeated(t, huPlayer)
    ensures WinOf(t, huPlayer, dianpao, fanList)
         == Win(hu, dianpao, fanList + (if huPlayer == t.banker then {FAN_TYPE_ZHUANG} else {})
                             + (if dianpao == huPlayer && t.seats[hu].gangOperation then {FAN_TYPE_GANG_SHANG_KAI} else {}))
    ensures forall j :: 0 <= j < MAX_PLAYER_COUNT ==> (t.seats[j].id != huPlayer <==> j != hu)
    ensures var w := WinOf(t, huPlayer, dianpao, fanList);
            dianpao == 0 || dianpao == huPlayer || (!t.rules.baoSanJia && !t.rules.yiJiaFu) ==>
              forall j :: 0 <= j < MAX_PLAYER_COUNT && j != hu ==>
                var paid, top := GangBalance(t, j) - FinalScore(t, w, j), t.rules.topMultiple;
                paid <= RawLoss(t, w, j) && (top > 0 ==> paid <= top) && (paid == RawLoss(t, w, j) || (top > 0 && paid == top))
  {
    hide FinalScore, GangBalance, RawLoss;
    var w := WinOf(t, huPlayer, dianpao, fanList);
    assert w.hu == hu;
    if dianpao == 0 || dianpao == huPlayer || (!t.rules.baoSanJia && !t.rules.yiJiaFu) {
      PaysSmaller(t, w);
    }
  }

  /** The win that is scored: two fans depend on the table. */
  function WinOf(t: Table, huPlayer: int, dianpao: int, fanList: set<int>): (w: Win)
    requires t.Valid()
    ensures w.hu < MAX_PLAYER_COUNT && w.dianpao == dianpao && (IsSeated(t, huPlayer) ==> t.seats[w.hu].id == huPlayer)
    ensures IsSeated(t, huPlayer) ==> forall f :: f in w.fans <==>
              f in fanList || (f == FAN_TYPE_ZHUANG && huPlayer == t.banker)
              || (f == FAN_TYPE_GANG_SHANG_KAI && dianpao == huPlayer
                  && exists k :: 0 <= k < MAX_PLAYER_COUNT && t.seats[k].id == huPlayer && t.seats[k].gangOperation)
  {
    var hu := SeatIndex(t, huPlayer);
    Win(hu, dianpao,
        fanList + (if huPlayer == t.banker then {FAN_TYPE_ZHUANG} else {})
        + (if dianpao == huPlayer && t.seats[hu].gangOperation then {FAN_TYPE_GANG_SHANG_KAI} else {}))
  }

  /** The records after the kongs of the first `n` players. */
  ghost predicate Moved(t: Table, list0: seq<Element>, list: seq<Element>, n: nat)
    requires t.Valid() && n <= MAX_PLAYER_COUNT && Listed(t, list0) && Listed(t, list)
  {
    forall j :: 0 <= j < MAX_PLAYER_COUNT ==>
      && list[j].score == list0[j].score + Balance(t, n, j) && list0[j].details <= list[j].details
      && forall f :: DetailSum(list[j].details, f) == DetailSum(list0[j].details, f) + Shares(t, n, j, f)
  }

  /** What the kongs of player `i` do to the record of player `j`. */
  ghost predicate MovedBy(t: Table, i: nat, j: nat, before: Element, after: Element)
    requires t.Valid() && i < MAX_PLAYER_COUNT && j < MAX_PLAYER_COUNT
  {
    && after.score == before.score + Contribution(t, i, j) && before.details <= after.details
    && forall f :: DetailSum(after.details, f) == DetailSum(before.details, f) + Share(t, i, j, f)
  }

  lemma NotMoved(t: Table, list: seq<Element>)
    requires t.Valid() && Listed(t, list)
    ensures Moved(t, list, list, 0)
  {
  }

  lemma MovedStep(t: Table, list0: seq<Element>, list1: seq<Element>, list: seq<Element>, n: nat)
    requires t.Valid() && n < MAX_PLAYER_COUNT && Listed(t, list0) && Listed(t, list1) && Listed(t, list)
    requires Moved(t, list0, list1, n) && forall j :: 0 <= j < MAX_PLAYER_COUNT ==> MovedBy(t, n, j, list1[j], list[j])
    ensures Moved(t, list0, list, n + 1)
  {
    hide Share, Contribution, DetailSum;
  }

  lemma MovedIs(t: Table, i: nat, j: nat, before: Element, lost: int, shown: seq<Detail>, id: int)
    requires t.Valid() && i < MAX_PLAYER_COUNT && j < MAX_PLAYER_COUNT && lost == -Contribution(t, i, j)
    requires before.details <= shown && forall f :: DetailSum(shown, f) == DetailSum(before.details, f) + Share(t, i, j, f)
    ensures MovedBy(t, i, j, before, Element(id, before.score - lost, shown))
  {
    hide Share, Contribution, DetailSum;
  }

  lemma GangParts(t: Table, i: nat)
    requires t.Valid() && i < MAX_PLAYER_COUNT
    ensures var s, m := t.seats[i], t.rules.multiple;
            var closed := s.anGang * m(FAN_TYPE_AN_GANG) + s.fengGang * m(FAN_TYPE_XUAN_FENG_GANG) + s.jianGang * m(FAN_TYPE_XUAN_JIAN_GANG);
            && ClosedGang(t, i) == closed
            && Contribution(t, i, i) == (|s.mingGang| * m(FAN_TYPE_MING_GANG) + closed) * (MAX_PLAYER_COUNT - 1)
  {
  }

  /** Adds a detail when there is something to show. */
  function Shown(details: seq<Detail>, count: int, fan: int, score: int): seq<Detail> {
    if count != 0 then details + [Detail(fan, score)] else details
  }

  /** Details added under one type, with this sum. */
  ghost predicate Adds(before: seq<Detail>, after: seq<Detail>, fan: int, sum: int) {
    before <= after && forall f :: DetailSum(after, f) == DetailSum(before, f) + if f == fan then sum else 0
  }

  lemma AddsOne(before: seq<Detail>, after: seq<Detail>, fan: int, sum: int, score: int)
    requires Adds(before, after, fan, sum)
    ensures Adds(before, after + [Detail(fan, score)], fan, sum + score)
  {
    SnocDetail(after, Detail(fan, score));
    hide DetailSum;
  }

  lemma ShownAdds(details: seq<Detail>, count: int, fan: int, score: int)
    requires count == 0 ==> score == 0
    ensures Adds(details, Shown(details, count, fan, score), fan, score)
  {
    SnocDetail(details, Detail(fan, score));
    hide DetailSum;
  }

  lemma OwnShares(t: Table, i: nat, details: seq<Detail>)
    requires t.Valid() && i < MAX_PLAYER_COUNT
    ensures var s, m := t.seats[i], t.rules.multiple;
            var a := Shown(details, |s.mingGang|, FAN_TYPE_MING_GANG, |s.mingGang| * m(FAN_TYPE_MING_GANG) * (MAX_PLAYER_COUNT - 1));
            var b := Shown(a, s.anGang, FAN_TYPE_AN_GANG, s.anGang * m(FAN_TYPE_AN_GANG) * (MAX_PLAYER_COUNT - 1));
            var c := Shown(b, s.fengGang, FAN_TYPE_XUAN_FENG_GANG, s.fengGang * m(FAN_TYPE_XUAN_FENG_GANG) * (MAX_PLAYER_COUNT - 1));
            var d := Shown(c, s.jianGang, FAN_TYPE_XUAN_JIAN_GANG, s.jianGang * m(FAN_TYPE_XUAN_JIAN_GANG) * (MAX_PLAYER_COUNT - 1));
            details <= d && forall f :: DetailSum(d, f) == DetailSum(details, f) + Share(t, i, i, f)
  {
    hide DetailSum, Shown, Adds;
    var s, m := t.seats[i], t.rules.multiple;
    var w, x, y, z := |s.mingGang| * m(FAN_TYPE_MING_GANG) * (MAX_PLAYER_COUNT - 1), s.anGang * m(FAN_TYPE_AN_GANG) * (MAX_PLAYER_COUNT - 1),
                      s.fengGang * m(FAN_TYPE_XUAN_FENG_GANG) * (MAX_PLAYER_COUNT - 1), s.jianGang * m(FAN_TYPE_XUAN_JIAN_GANG) * (MAX_PLAYER_COUNT - 1);
    var a := Shown(details, |s.mingGang|, FAN_TYPE_MING_GANG, w);
    ShownAdds(details, |s.mingGang|, FAN_TYPE_MING_GANG, w);
    ThreeMore(details, a, w, s, x, y, z);
  }

  lemma OtherShares(t: Table, i: nat, j: nat, details: seq<Detail>, a: seq<Detail>)
    requires t.Valid() && i < MAX_PLAYER_COUNT && j < MAX_PLAYER_COUNT && i != j
    requires Adds(details, a, FAN_TYPE_MING_GANG, -MingPay(t, i, j, t.seats[i].mingGang))
    ensures var s, m := t.seats[i], t.rules.multiple;
            var b := Shown(a, s.anGang, FAN_TYPE_AN_GANG, -(s.anGang * m(FAN_TYPE_AN_GANG)));
            var c := Shown(b, s.fengGang, FAN_TYPE_XUAN_FENG_GANG, -(s.fengGang * m(FAN_TYPE_XUAN_FENG_GANG)));
            var d := Shown(c, s.jianGang, FAN_TYPE_XUAN_JIAN_GANG, -(s.jianGang * m(FAN_TYPE_XUAN_JIAN_GANG)));
            details <= d && forall f :: DetailSum(d, f) == DetailSum(details, f) + Share(t, i, j, f)
  {
    hide DetailSum, Shown, MingPay, Share, Adds;
    OtherShare(t, i, j);
    var s, m := t.seats[i], t.rules.multiple;
    ThreeMore(details, a, -MingPay(t, i, j, s.mingGang), s, -(s.anGang * m(FAN_TYPE_AN_GANG)),
              -(s.fengGang * m(FAN_TYPE_XUAN_FENG_GANG)), -(s.jianGang * m(FAN_TYPE_XUAN_JIAN_GANG)));
  }

  lemma ThreeMore(details: seq<Detail>, a: seq<Detail>, w: int, s: Seat, x: int, y: int, z: int)
    requires Adds(details, a, FAN_TYPE_MING_GANG, w)
    requires (s.anGang == 0 ==> x == 0) && (s.fengGang == 0 ==> y == 0) && (s.jianGang == 0 ==> z == 0)
    ensures var b := Shown(a, s.anGang, FAN_TYPE_AN_GANG, x); var c := Shown(b, s.fengGang, FAN_TYPE_XUAN_FENG_GANG, y);
            var d := Shown(c, s.jianGang, FAN_TYPE_XUAN_JIAN_GANG, z);
            && details <= d
            && forall f :: DetailSum(d, f) == DetailSum(details, f)
                 + (if f == FAN_TYPE_MING_GANG then w else if f == FAN_TYPE_AN_GANG then x
                    else if f == FAN_TYPE_XUAN_FENG_GANG then y else if f == FAN_TYPE_XUAN_JIAN_GANG then z else 0)
  {
    hide DetailSum, Shown;
    var b := Shown(a, s.anGang, FAN_TYPE_AN_GANG, x);
    var c := Shown(b, s.fengGang, FAN_TYPE_XUAN_FENG_GANG, y);
    ShownAdds(a, s.anGang, FAN_TYPE_AN_GANG, x);
    ShownAdds(b, s.fengGang, FAN_TYPE_XUAN_FENG_GANG, y);
    ShownAdds(c, s.jianGang, FAN_TYPE_XUAN_JIAN_GANG, z);
  }

  lemma OtherShare(t: Table, i: nat, j: nat)
    requires t.Valid() && i < MAX_PLAYER_COUNT && j < MAX_PLAYER_COUNT && i != j
    ensures var s, m := t.seats[i], t.rules.multiple;
            forall f :: Share(t, i, j, f) ==
              if f == FAN_TYPE_MING_GANG then -MingPay(t, i, j, s.mingGang)
              else if f == FAN_TYPE_AN_GANG then -(s.anGang * m(FAN_TYPE_AN_GANG))
              else if f == FAN_TYPE_XUAN_FENG_GANG then -(s.fengGang * m(FAN_TYPE_XUAN_FENG_GANG))
              else if f == FAN_TYPE_XUAN_JIAN_GANG then -(s.jianGang * m(FAN_TYPE_XUAN_JIAN_GANG)) else 0
  {
    hide MingPay;
  }

  lemma NoChain(m: int -> nat)
    ensures Chain(m, []) && Shows([], 1) && Product(m, {}) == 1 && forall f :: FanCount([], f) == 0
  {
  }

  /** How the liability step moves the score of player `i`. */
  ghost function Repaid(t: Table, w: Win, i: nat): int
    requires t.Valid() && w.hu < MAX_PLAYER_COUNT && i < MAX_PLAYER_COUNT
  {
    if !Liable(t, w) then 0
    else if t.seats[i].id == w.dianpao then -AllPaidBack(t, w)
    else PaidBack(t, w, i)
  }

  ghost function PaidBackBelow(t: Table, w: Win, n: nat): int
    requires t.Valid() && w.hu < MAX_PLAYER_COUNT && n <= MAX_PLAYER_COUNT
  {
    if n == 0 then 0 else PaidBackBelow(t, w, n - 1) + PaidBack(t, w, n - 1)
  }

  lemma NotLiable(t: Table, w: Win)
    requires t.Valid() && w.hu < MAX_PLAYER_COUNT
    ensures PaidBackBelow(t, w, 0) == 0
    ensures !Liable(t, w) ==> forall j :: 0 <= j < MAX_PLAYER_COUNT ==> Repaid(t, w, j) == 0
  {
  }

  lemma BackStep(t: Table, w: Win, playerScore: map<int, int>, k: nat)
    requires t.Valid() && w.hu < MAX_PLAYER_COUNT && k < MAX_PLAYER_COUNT
    requires k != w.hu ==> Pays(t, w, k) == Entry(playerScore, t.seats[k].id)
    ensures PaidBack(t, w, k) == if k != w.hu && t.seats[k].id != w.dianpao then Entry(playerScore, t.seats[k].id) else 0
    ensures PaidBackBelow(t, w, k + 1) == PaidBackBelow(t, w, k) + PaidBack(t, w, k)
  {
  }

  lemma RepaidAre(t: Table, w: Win, dian: nat)
    requires t.Valid() && w.hu < MAX_PLAYER_COUNT && Liable(t, w) && dian < MAX_PLAYER_COUNT && t.seats[dian].id == w.dianpao
    ensures forall j :: 0 <= j < MAX_PLAYER_COUNT ==>
              && (t.seats[j].id == w.dianpao <==> j == dian)
              && Repaid(t, w, j) == if j == dian then -PaidBackBelow(t, w, MAX_PLAYER_COUNT) else PaidBack(t, w, j)
    ensures PaidBack(t, w, dian) == 0
  {
    PaidBackAll(t, w);
    hide PaidBackBelow, AllPaidBack, Pays;
  }

  lemma PaidBackAll(t: Table, w: Win)
    requires t.Valid() && w.hu < MAX_PLAYER_COUNT
    ensures PaidBackBelow(t, w, MAX_PLAYER_COUNT) == AllPaidBack(t, w)
  {
    hide PaidBack;
    assert PaidBackBelow(t, w, 1) == PaidBack(t, w, 0);
    assert PaidBackBelow(t, w, 2) == PaidBackBelow(t, w, 1) + PaidBack(t, w, 1);
    assert PaidBackBelow(t, w, 3) == PaidBackBelow(t, w, 2) + PaidBack(t, w, 2);
    assert PaidBackBelow(t, w, 4) == PaidBackBelow(t, w, 3) + PaidBack(t, w, 3);
  }

  lemma SnocDetail(details: seq<Detail>, d: Detail)
    ensures forall f :: DetailSum(details + [d], f) == DetailSum(details, f) + if d.fanType == f then d.score else 0
    ensures forall f :: HasFan(details + [d], f) <==> HasFan(details, f) || d.fanType == f
  {
    var r := details + [d];
    assert r[..|r| - 1] == details && r[|r| - 1] == d;
    assert forall i :: 0 <= i < |details| ==> r[i] == details[i];
  }

  function Entry(m: map<int, int>, id: int): int {
    if id in m then m[id] else 0
  }

  ghost function PaysBelow(t: Table, w: Win, n: nat): int
    requires t.Valid() && w.hu < MAX_PLAYER_COUNT && n <= MAX_PLAYER_COUNT
  {
    if n == 0 then 0 else PaysBelow(t, w, n - 1) + Pays(t, w, n - 1)
  }

  /** The details of one type over the losers' records. */
  function LostBelow(w: Win, list: seq<Element>, n: nat, fan: int): int
    requires n <= |list|
  {
    if n == 0 then 0
    else LostBelow(w, list, n - 1, fan) + if n - 1 == w.hu then 0 else DetailSum(list[n - 1].details, fan)
  }

  predicate LostHasBelow(w: Win, list: seq<Element>, n: nat, fan: int)
    requires n <= |list|
  {
    exists j :: 0 <= j < n && j != w.hu && HasFan(list[j].details, fan)
  }

  lemma {:induction false} LostBelowSame(w: Win, a: seq<Element>, b: seq<Element>, n: nat)
    requires n <= |a| == |b| && forall j :: 0 <= j < n && j != w.hu ==> a[j] == b[j]
    ensures forall f :: LostBelow(w, a, n, f) == LostBelow(w, b, n, f)
    ensures forall f :: LostHasBelow(w, a, n, f) <==> LostHasBelow(w, b, n, f)
  {
    if n > 0 {
      LostBelowSame(w, a, b, n - 1);
    }
  }

  /** The winner's details name each fan type once, and each is what the losers lost by that type. */
  ghost predicate WinnerDetails(t: Table, w: Win, list: seq<Element>)
    requires t.Valid() && w.hu < MAX_PLAYER_COUNT && Listed(t, list)
  {
    && UniqueFans(list[w.hu].details)
    && (forall f :: DetailSum(list[w.hu].details, f) == -LostBelow(w, list, MAX_PLAYER_COUNT, f))
    && (forall f :: HasFan(list[w.hu].details, f) <==> LostHasBelow(w, list, MAX_PLAYER_COUNT, f))
  }

  lemma ScaledSeven(start: nat, f: seq<nat>)
    requires |f| == 7
    ensures Scaled(start, f) ==
            Times(Times(Times(Times(Times(Times(Times(start, f[0]), f[1]), f[2]), f[3]), f[4]), f[5]), f[6])
  {
    hide Times;
    ScaledStep(start, f[..1]);
    ScaledStep(start, f[..2]);
    ScaledStep(start, f[..3]);
    ScaledStep(start, f[..4]);
    ScaledStep(start, f[..5]);
    ScaledStep(start, f[..6]);
    assert f[..1][..0] == [] && f[..2][..1] == f[..1] && f[..3][..2] == f[..2] && f[..4][..3] == f[..3];
    assert f[..5][..4] == f[..4] && f[..6][..5] == f[..5];
  }

  lemma ScaledStep(start: nat, f: seq<nat>)
    requires f != []
    ensures Scaled(start, f) == Times(Scaled(start, f[..|f| - 1]), f[|f| - 1])
  {
  }
}
