/** A kong that can be robbed: the claims on the desk together with the tiles of the player who laid it
    down, and what the settlement makes of the kongs recorded. */
module RobbedKong {
  import opened Tiles
  import Claims
  import PlayerTiles
  import Settlement
  import opened Fans

  /** A tile drawn from the tail, if any, and whether looking at the bonus tile won instead. */
  datatype Tail = Tail(cards: seq<Card>, jinBao: bool)

  function Passer(d: Claims.Desk): int {
    if d.cache.Some? then d.cache.value.playerId else 0
  }

  /** What the owner of the kong does when everybody passes: for each kong recorded one giving up. */
  function GiveUps(d: Claims.Desk, tails: seq<Tail>, code: int): seq<PlayerTiles.Step>
    decreases |tails|
  {
    if tails == [] then []
    else
      var (next, answer) := Claims.GiveUp(d, Passer(d), None, code);
      (if answer.Recorded? then [PlayerTiles.GiveUp(answer.pai, answer.owner, tails[0].cards, tails[0].jinBao)] else [])
      + GiveUps(next, tails[1..], code)
  }

  predicate Gives(step: PlayerTiles.Step, r: (Card, int)) {
    step.GiveUp? && step.pai == r.0 && step.source == r.1
  }

  lemma {:induction false} GiveUpsRecord(d: Claims.Desk, tails: seq<Tail>, code: int)
    ensures var steps, r := GiveUps(d, tails, code), Claims.Recordings(d, |tails|, code);
            |steps| == |r| && forall i :: 0 <= i < |r| ==> Gives(steps[i], r[i])
    decreases |tails|
  {
    if tails != [] {
      hide Claims.GiveUp;
      GiveUpsRecord(Claims.GiveUp(d, Passer(d), None, code).0, tails[1..], code);
    }
  }

  function Copies(g: PlayerTiles.Gang, n: nat): seq<PlayerTiles.Gang> {
    seq(n, i => g)
  }

  /** Every giving up records the kong. */
  lemma {:induction false} RunRecords(t: PlayerTiles.Turn, steps: seq<PlayerTiles.Step>, pai: Card, owner: int)
    requires PlayerTiles.PossibleRun(t, steps) && forall s <- steps :: Gives(s, (pai, owner))
    ensures PlayerTiles.Run(t, steps).pais.minggang == t.pais.minggang + Copies(PlayerTiles.Gang(pai, owner), |steps|)
    decreases |steps|
  {
    var g := PlayerTiles.Gang(pai, owner);
    if steps == [] {
      assert t.pais.minggang + Copies(g, 0) == t.pais.minggang;
    } else {
      assert steps[0] in steps;
      var next := PlayerTiles.Apply(t, steps[0]);
      assert next.pais.minggang == t.pais.minggang + [g];
      hide PlayerTiles.Apply, PlayerTiles.Possible;
      RunRecords(next, steps[1..], pai, owner);
      assert Copies(g, |steps|) == [g] + Copies(g, |steps| - 1);
    }
  }

  /** The claims on the desk when a kong is robbed: some left over from the last discard, and the robbers. */
  ghost predicate Robbing(left: seq<Claims.Claim>, robbers: seq<Claims.Claim>, pai: Card, owner: int, code: int) {
    && Claims.Orderly(left + robbers) && owner != 0 && Claims.IsCode(code)
    && (forall c <- left :: !Claims.Offers(c, code)) && (forall c <- robbers :: Claims.Robs(c, pai, owner, code))
  }

  /** All pass, each when he is asked: the kong is recorded once for each robber. */
  lemma RecordedForEachRobber(left: seq<Claims.Claim>, robbers: seq<Claims.Claim>, t: PlayerTiles.Turn, tails: seq<Tail>,
                              pai: Card, owner: int, code: int)
    requires Robbing(left, robbers, pai, owner, code) && |tails| == |left| + 2 * |robbers|
    ensures var steps := GiveUps(Claims.Desk(left + robbers, None), tails, code);
            && |steps| == |robbers| && (forall s <- steps :: Gives(s, (pai, owner)))
            && (PlayerTiles.PossibleRun(t, steps) ==>
                  PlayerTiles.Run(t, steps).pais.minggang == t.pais.minggang + Copies(PlayerTiles.Gang(pai, owner), |robbers|))
  {
    hide Claims.Orderly, Claims.Robs, Claims.Robberies, Claims.Recordings, Claims.StableSort, Claims.Offers, GiveUps, Gives,
         PlayerTiles.PossibleRun, PlayerTiles.Run;
    var list := left + robbers;
    var d, sorted := Claims.Desk(list, None), Claims.StableSort(list);
    var steps := GiveUps(d, tails, code);
    Claims.RobberiesOf(left, robbers, pai, owner, code);
    Claims.SortKeepsRobberies(list, code);
    SortedRob(list, pai, owner, code);
    Claims.RobberiesAre(sorted, pai, owner, code);
    Claims.RecordedPerRobber(list, code);
    Claims.SortSize(list);
    GiveUpsRecord(d, tails, code);
    var r := Claims.Recordings(d, |tails|, code);
    forall s | s in steps ensures Gives(s, (pai, owner)) {
      var i :| 0 <= i < |steps| && steps[i] == s;
      assert r[i] == (pai, owner) && Gives(steps[i], r[i]);
    }
    if PlayerTiles.PossibleRun(t, steps) {
      RunRecords(t, steps, pai, owner);
    }
  }

  lemma SortedRob(list: seq<Claims.Claim>, pai: Card, owner: int, code: int)
    requires forall c <- list :: Claims.RobsOrNot(c, pai, owner, code)
    ensures forall c <- Claims.StableSort(list) :: Claims.RobsOrNot(c, pai, owner, code)
  {
    hide Claims.RobsOrNot, Claims.Best;
    Claims.SortIsOrdered(list);
    forall c | c in Claims.StableSort(list) ensures c in list {
      assert c in multiset(Claims.StableSort(list));
    }
  }

  /** So the count stays right exactly when there is one robber. */
  lemma TurnKeptForOneRobber(left: seq<Claims.Claim>, robbers: seq<Claims.Claim>, t: PlayerTiles.Turn, tails: seq<Tail>,
                             pai: Card, owner: int, code: int)
    requires Robbing(left, robbers, pai, owner, code) && robbers != [] && |tails| == |left| + 2 * |robbers|
    requires PlayerTiles.Steady(t) && t.robbed
    requires PlayerTiles.PossibleRun(t, GiveUps(Claims.Desk(left + robbers, None), tails, code))
    ensures PlayerTiles.AllSteady(t, GiveUps(Claims.Desk(left + robbers, None), tails, code)) <==> |robbers| == 1
  {
    var steps := GiveUps(Claims.Desk(left + robbers, None), tails, code);
    RecordedForEachRobber(left, robbers, t, tails, pai, owner, code);
    hide Robbing, GiveUps, PlayerTiles.Steady;
    PlayerTiles.RunSteady(t, steps);
    OnlyFirstOnTurn(t, steps, pai, owner);
  }

  lemma OnlyFirstOnTurn(t: PlayerTiles.Turn, steps: seq<PlayerTiles.Step>, pai: Card, owner: int)
    requires t.robbed && PlayerTiles.PossibleRun(t, steps) && steps != [] && forall s <- steps :: Gives(s, (pai, owner))
    ensures PlayerTiles.AllOnTurn(t, steps) <==> |steps| == 1
  {
    assert steps[0] in steps && steps[0].GiveUp?;
    var next, rest := PlayerTiles.Apply(t, steps[0]), steps[1..];
    assert !next.robbed && PlayerTiles.OnTurn(t, steps[0]);
    hide PlayerTiles.Apply, PlayerTiles.Possible;
    if rest != [] {
      assert rest[0] == steps[1] && steps[1] in steps;
      assert !PlayerTiles.OnTurn(next, rest[0]);
    }
  }

  /** Player `ids[0]` laid the kong down, two others win on it and pass.  After the first pass the second
      question is still on the desk; the owner's own pass asks it, and the kong is recorded again. */
  lemma TwoRobbers(ids: seq<int>, pai: Card, code: int)
    requires |ids| == Claims.MAX_PLAYER_COUNT && Claims.Distinct(ids) && ids[0] != 0 && Claims.IsCode(code)
    ensures var b, c := Claims.Claim(ids[1], ids[0], [Claims.Alert(pai, [code])]), Claims.Claim(ids[2], ids[0], [Claims.Alert(pai, [code])]);
            var list := Claims.Robbers(ids, 0, pai, ids[0], [false, true, true, false], code);
            var first := Claims.GiveUp(Claims.Desk([c], Some(b)), ids[1], None, code);
            var own := Claims.GiveUp(first.0, ids[0], None, code);
            && list == [b, c] && Claims.Ask(list) == (Some(b), [c])
            && first == (Claims.Desk([c], None), Claims.Recorded(pai, ids[0]))
            && own == (Claims.Desk([], Some(c)), Claims.Asked(c))
            && Claims.GiveUp(own.0, ids[2], None, code) == (Claims.Desk([], None), Claims.Recorded(pai, ids[0]))
  {
    hide Claims.Ask, Claims.Offers, Claims.Best;
    var b, c := Claims.Claim(ids[1], ids[0], [Claims.Alert(pai, [code])]), Claims.Claim(ids[2], ids[0], [Claims.Alert(pai, [code])]);
    assert Claims.Seat(0, 0) == 1 && Claims.Seat(0, 1) == 2 && Claims.Seat(0, 2) == 3;
    assert Claims.Robbers(ids, 0, pai, ids[0], [false, true, true, false], code) == [b, c];
    Claims.RobsAsks(b, pai, ids[0], code);
    Claims.RobsAsks(c, pai, ids[0], code);
    AskFirst(b, [c]);
    AskFirst(c, []);
    assert [b] + [c] == [b, c] && [c] + [] == [c];
  }

  /** Of claims that offer the same, the first is asked. */
  lemma AskFirst(b: Claims.Claim, rest: seq<Claims.Claim>)
    requires Claims.Askable(b) && forall c <- rest :: forall k :: Claims.Offers(b, k) <==> Claims.Offers(c, k)
    ensures Claims.Ask([b] + rest) == (Some(b), rest)
  {
    hide Claims.Scan, Claims.Offers, Claims.BestFrom;
    var list := [b] + rest;
    Claims.ScanFindsBest(list, Claims.PAI_OPER_TYPE_HUPAI);
    assert list[0] == b && list[1..] == rest;
    forall i | 0 <= i < |list| ensures Claims.Best(list[i]) == Claims.Best(b) {
      if i > 0 {
        assert list[i] == rest[i - 1] && rest[i - 1] in rest;
        SameBest(b, list[i]);
      }
    }
  }

  lemma SameBest(b: Claims.Claim, c: Claims.Claim)
    requires forall k :: Claims.Offers(b, k) <==> Claims.Offers(c, k)
    ensures Claims.Best(b) == Claims.Best(c)
  {
    hide Claims.Offers, Claims.BestFrom;
  }

  // --------------------------------------------------------------------- in the settlement

  /** Each further record of the kong is paid in full once more. */
  lemma {:induction false} PaidForEachRecord(t: Settlement.Table, i: nat, j: nat, sources: seq<int>, source: int, n: nat)
    requires t.Valid() && i < Settlement.MAX_PLAYER_COUNT && j < Settlement.MAX_PLAYER_COUNT
    ensures Settlement.MingPay(t, i, j, sources + seq(n, k => source))
         == Settlement.MingPay(t, i, j, sources) + n * Settlement.MingUnit(t, i, j, source)
  {
    if n == 0 {
      assert sources + seq(0, k => source) == sources;
    } else {
      var all := sources + seq(n, k => source);
      assert all[..|all| - 1] == sources + seq(n - 1, k => source);
      hide Settlement.MingUnit;
      PaidForEachRecord(t, i, j, sources, source, n - 1);
      assert n * Settlement.MingUnit(t, i, j, source) == (n - 1) * Settlement.MingUnit(t, i, j, source) + Settlement.MingUnit(t, i, j, source);
    }
  }

  /** In 建平 the feeder of a kong pays three shares and the others none; recorded with its owner as the source,
      as after a robbery given up, everybody pays one. */
  lemma FeederIsSpared(t: Settlement.Table, owner: nat, feeder: nat, other: nat)
    requires t.Valid() && t.rules.jianPing && owner < Settlement.MAX_PLAYER_COUNT
    requires feeder < Settlement.MAX_PLAYER_COUNT && other < Settlement.MAX_PLAYER_COUNT
    requires owner != feeder && other != feeder && other != owner
    ensures var each := t.rules.multiple(FAN_TYPE_MING_GANG);
            && Settlement.MingUnit(t, owner, feeder, t.seats[feeder].id) == 3 * each
            && Settlement.MingUnit(t, owner, other, t.seats[feeder].id) == 0
            && Settlement.MingUnit(t, owner, feeder, t.seats[owner].id) == each
            && Settlement.MingUnit(t, owner, other, t.seats[owner].id) == each
  {
    Different(t, owner, feeder);
    Different(t, owner, other);
    Different(t, feeder, other);
  }

  lemma Different(t: Settlement.Table, i: nat, j: nat)
    requires t.Valid() && i < Settlement.MAX_PLAYER_COUNT && j < Settlement.MAX_PLAYER_COUNT && i != j
    ensures t.seats[i].id != t.seats[j].id
  {
    if i < j {
      assert t.seats[i].id != t.seats[j].id;
    } else {
      assert t.seats[j].id != t.seats[i].id;
    }
  }
}
