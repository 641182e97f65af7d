/** A friend room: banker rotation, the count of rounds that ends the match, and the final totals. */
module Room {
  import opened Tiles

  const MAX_PLAYER_COUNT: nat := 4

  /** A game record: the score of each player. */
  datatype Entry = Entry(playerId: int, score: int)
  type Record = seq<Entry>

  datatype Table = Table(
    ids: seq<int>, openRands: int, jianPing: bool,
    banker: int, bankerIndex: int, realGamedCount: int,
    games: nat, gaming: bool, dismissed: bool, history: seq<Record>)

  ghost predicate Distinct(s: seq<int>) {
    forall i, j :: 0 <= i < j < |s| ==> s[i] != s[j]
  }

  /** Four different players; 0 is nobody's id. */
  ghost predicate Seated(ids: seq<int>) {
    |ids| == MAX_PLAYER_COUNT && Distinct(ids) && 0 !in ids
  }

  // ------------------------------------------------------------------------ operations

  /** `GetRemainCount` */
  function Remain(t: Table): int {
    t.openRands - t.realGamedCount + 1
  }

  predicate HasBeenOver(t: Table) {
    !t.gaming && Remain(t) <= 0
  }

  /** `GetPlayerOrder` */
  function Order(ids: seq<int>, player: int): (r: int)
    ensures -1 <= r < |ids|
    ensures player in ids ==> r >= 0 && ids[r] == player
  {
    if player in ids then IndexOf(ids, player) else -1
  }

  function NextIndex(index: int): int {
    (index + 1) % 4
  }

  /** The START step; `allowed` stands for the other tests: players ready, host, cards. */
  function Start(t: Table, allowed: bool): Table
    requires 0 <= t.bankerIndex < |t.ids|
  {
    if !allowed || Remain(t) <= 0 then t
    else t.(games := t.games + 1, gaming := true, banker := t.ids[t.bankerIndex],
            realGamedCount := if t.games == 0 then 1 else t.realGamedCount)
  }

  /** The bank is lost when somebody else wins. */
  predicate LosesBank(t: Table, winner: int) {
    winner != 0 && t.banker != winner
  }

  function Rotated(t: Table, winner: int): Table {
    if !LosesBank(t, winner) then t.(gaming := false)
    else t.(gaming := false, realGamedCount := t.realGamedCount + 1,
            bankerIndex := if t.jianPing then Order(t.ids, winner) else NextIndex(t.bankerIndex))
  }

  /** Whether the final settlement is shown, and the room cleared, after this game. */
  predicate Settles(t: Table) {
    (HasBeenOver(t) || t.dismissed) && t.games > 0
  }

  function Over(t: Table, winner: int): Table {
    var r := Rotated(t, winner);
    if Settles(r) then r.(history := []) else r
  }

  /** What the end of a game does. A drawn game and a banker who wins leave the bank and the round count;
      anybody else's win counts a round, and the bank goes to the winner in 建平 and else to the next seat.
      The final settlement is due after a dismissal and once the count is past the rounds opened, in a room
      that played at all; it clears the records. */
  lemma GameOver(t: Table, winner: int)
    ensures winner == 0 || winner == t.banker ==>
              Over(t, winner).bankerIndex == t.bankerIndex && Over(t, winner).realGamedCount == t.realGamedCount
    ensures winner != 0 && winner != t.banker ==>
              && Over(t, winner).realGamedCount == t.realGamedCount + 1
              && (!t.jianPing ==> Over(t, winner).bankerIndex == (t.bankerIndex + 1) % 4)
              && (t.jianPing && winner in t.ids ==>
                    0 <= Over(t, winner).bankerIndex < |t.ids| && t.ids[Over(t, winner).bankerIndex] == winner)
    ensures var last := t.games > 0 && (t.dismissed || t.openRands < Over(t, winner).realGamedCount);
            && Settles(Rotated(t, winner)) == last
            && Over(t, winner) == t.(gaming := false, bankerIndex := Over(t, winner).bankerIndex,
                                     realGamedCount := Over(t, winner).realGamedCount,
                                     history := if last then [] else t.history)
  {
  }

  // ------------------------------------------------------------------------- the totals

  /** A player's score in one record, and in all of them. */
  function ScoreIn(record: Record, player: int): int {
    if record == [] then 0
    else ScoreIn(record[..|record| - 1], player)
         + if record[|record| - 1].playerId == player then record[|record| - 1].score else 0
  }

  function Total(history: seq<Record>, player: int): int {
    if history == [] then 0 else Total(history[..|history| - 1], player) + ScoreIn(history[|history| - 1], player)
  }

  /** The scores of the final settlement, in seat order. */
  function Totals(t: Table): (r: seq<int>)
    ensures |r| == |t.ids| && forall i :: 0 <= i < |r| ==> r[i] == Total(t.history, t.ids[i])
  {
    seq(|t.ids|, i requires 0 <= i < |t.ids| => Total(t.history, t.ids[i]))
  }

  /** One entry of a record is this player's. */
  ghost predicate OnlyEntry(record: Record, k: nat, player: int) {
    k < |record| && forall j :: 0 <= j < |record| ==> (record[j].playerId == player <==> j == k)
  }

  /** A player's score in a record is that of his entry, and nothing when he has none. */
  lemma {:induction false} ScoreOfEntry(record: Record, k: nat, player: int)
    requires OnlyEntry(record, k, player) || forall e <- record :: e.playerId != player
    ensures ScoreIn(record, player) == if OnlyEntry(record, k, player) then record[k].score else 0
  {
    if record != [] {
      var n := |record| - 1;
      assert record[n] in record;
      if k == n || !OnlyEntry(record, k, player) {
        forall e <- record[..n] ensures e.playerId != player {
          var j :| 0 <= j < n && record[..n][j] == e;
          assert record[j] in record;
        }
        assert !OnlyEntry(record[..n], k, player);
      } else {
        assert OnlyEntry(record[..n], k, player);
      }
      ScoreOfEntry(record[..n], k, player);
    }
  }

  /** A game recorded adds to each total the score of that player's entry; without records they are zero. */
  lemma TotalsAddUp(t: Table, record: Record, i: nat, k: nat)
    requires i < |t.ids| && OnlyEntry(record, k, t.ids[i])
    ensures Totals(t.(history := t.history + [record]))[i] == Totals(t)[i] + record[k].score
    ensures t.history == [] ==> Totals(t)[i] == 0
  {
    ScoreOfEntry(record, k, t.ids[i]);
    assert (t.history + [record])[..|t.history|] == t.history;
    hide ScoreIn;
  }

  function Sum(s: seq<int>): int {
    if s == [] then 0 else Sum(s[..|s| - 1]) + s[|s| - 1]
  }

  /** All scores of a record, whoever they belong to. */
  function RecordSum(record: Record): int {
    if record == [] then 0 else RecordSum(record[..|record| - 1]) + record[|record| - 1].score
  }

  /** Scores of players of the table only. */
  ghost predicate Among(ids: seq<int>, record: Record) {
    forall e <- record :: e.playerId in ids
  }

  /** A game settled among the players of the table, its scores cancelling out. */
  ghost predicate Balanced(ids: seq<int>, record: Record) {
    RecordSum(record) == 0 && Among(ids, record)
  }

  /** All scores of all records. */
  function HistorySum(history: seq<Record>): int {
    if history == [] then 0 else HistorySum(history[..|history| - 1]) + RecordSum(history[|history| - 1])
  }

  function FourScores(ids: seq<int>, record: Record): int
    requires |ids| == 4
  {
    ScoreIn(record, ids[0]) + ScoreIn(record, ids[1]) + ScoreIn(record, ids[2]) + ScoreIn(record, ids[3])
  }

  /** Each entry is some seated player's, and only his. */
  lemma {:induction false} FourShareRecord(ids: seq<int>, record: Record)
    requires Seated(ids) && Among(ids, record)
    ensures FourScores(ids, record) == RecordSum(record)
  {
    if record != [] {
      var n := |record| - 1;
      var last := record[n];
      assert last in record;
      FourShareRecord(ids, record[..n]);
      assert ids[0] != ids[1] && ids[0] != ids[2] && ids[0] != ids[3] && ids[1] != ids[2] && ids[1] != ids[3] && ids[2] != ids[3];
      assert last.playerId == ids[0] || last.playerId == ids[1] || last.playerId == ids[2] || last.playerId == ids[3];
    }
  }

  lemma {:induction false} FourShareHistory(ids: seq<int>, history: seq<Record>)
    requires Seated(ids) && forall record <- history :: Among(ids, record)
    ensures Total(history, ids[0]) + Total(history, ids[1]) + Total(history, ids[2]) + Total(history, ids[3]) == HistorySum(history)
  {
    if history != [] {
      var n := |history| - 1;
      assert history[n] in history && Among(ids, history[n]);
      FourShareRecord(ids, history[n]);
      FourShareHistory(ids, history[..n]);
      hide ScoreIn;
    }
  }

  /** The totals of the four players share out everything that was recorded. */
  lemma TotalsShare(t: Table)
    requires Seated(t.ids) && forall record <- t.history :: Among(t.ids, record)
    ensures Sum(Totals(t)) == HistorySum(t.history)
  {
    FourShareHistory(t.ids, t.history);
    var s := Totals(t);
    hide Total;
    assert s[..3][..2] == s[..2] && s[..2][..1] == s[..1] && s[..1][..0] == [];
    assert Sum(s) == Sum(s[..3]) + s[3] && Sum(s[..3]) == Sum(s[..2]) + s[2] && Sum(s[..2]) == Sum(s[..1]) + s[1];
  }

  /** The totals of the four players cancel out when each recorded game does. */
  lemma TotalsCancel(t: Table)
    requires Seated(t.ids) && forall record <- t.history :: Balanced(t.ids, record)
    ensures Sum(Totals(t)) == 0
  {
    TotalsShare(t);
    NothingLeft(t.ids, t.history);
  }

  lemma {:induction false} NothingLeft(ids: seq<int>, history: seq<Record>)
    requires forall record <- history :: Balanced(ids, record)
    ensures HistorySum(history) == 0
  {
    if history != [] {
      assert Balanced(ids, history[|history| - 1]);
      NothingLeft(ids, history[..|history| - 1]);
    }
  }

  // ------------------------------------------------------------------------------- runs

  datatype Step = StartStep(allowed: bool) | RecordStep(record: Record) | OverStep(winner: int) | Dismiss

  /** A game is won by one of the players, while it is on; a game without a winner ends with 0. */
  predicate Legal(t: Table, s: Step) {
    s.OverStep? ==> s.winner == 0 || (s.winner in t.ids && t.gaming)
  }

  function Apply(t: Table, s: Step): Table
    requires 0 <= t.bankerIndex < |t.ids|
  {
    match s
    case StartStep(allowed) => Start(t, allowed)
    case RecordStep(record) => t.(history := t.history + [record])
    case OverStep(winner) => Over(t, winner)
    case Dismiss => t.(dismissed := true)
  }

  /** 1 when a step ends a game that somebody won who does not sit on the banker's seat. */
  function Lost(t: Table, s: Step): nat
    requires 0 <= t.bankerIndex < |t.ids|
  {
    if s.OverStep? && s.winner in t.ids && s.winner != t.ids[t.bankerIndex] then 1 else 0
  }

  /** What every step keeps; `lost` counts the games won by somebody other than the banker. */
  ghost predicate Consistent(t: Table, lost: nat) {
    && Seated(t.ids) && 0 <= t.bankerIndex < 4
    && (t.games == 0 ==> t.realGamedCount == 0 && lost == 0 && !t.gaming && t.bankerIndex == 0)
    && (t.games > 0 ==> t.realGamedCount == lost + 1)
    && (t.gaming ==> t.banker == t.ids[t.bankerIndex])
    && (!t.jianPing ==> t.bankerIndex == Turns(lost))
  }

  function Turns(lost: nat): int {
    lost % 4
  }

  lemma NextTurn(lost: nat)
    ensures NextIndex(Turns(lost)) == Turns(lost + 1)
    ensures 0 <= Turns(lost) < 4
  {
  }

  lemma StepKeeps(t: Table, s: Step, lost: nat)
    requires Consistent(t, lost) && Legal(t, s)
    ensures Consistent(Apply(t, s), lost + Lost(t, s))
  {
    NextTurn(lost);
    NextTurn(lost + 1);
    hide Turns, NextIndex;
  }

  ghost predicate LegalRun(t: Table, steps: seq<Step>)
    decreases |steps|
  {
    steps != [] ==>
      0 <= t.bankerIndex < |t.ids| && Legal(t, steps[0]) && LegalRun(Apply(t, steps[0]), steps[1..])
  }

  ghost function Run(t: Table, steps: seq<Step>): Table
    requires LegalRun(t, steps)
    decreases |steps|
  {
    if steps == [] then t else Run(Apply(t, steps[0]), steps[1..])
  }

  /** Finished games won by somebody other than the banker. */
  ghost function LostGames(t: Table, steps: seq<Step>): nat
    requires LegalRun(t, steps)
    decreases |steps|
  {
    if steps == [] then 0 else Lost(t, steps[0]) + LostGames(Apply(t, steps[0]), steps[1..])
  }

  lemma {:induction false} RunKeeps(t: Table, steps: seq<Step>, lost: nat)
    requires Consistent(t, lost) && LegalRun(t, steps)
    ensures Consistent(Run(t, steps), lost + LostGames(t, steps))
    ensures var u := Run(t, steps); u.ids == t.ids && u.openRands == t.openRands && u.jianPing == t.jianPing
    decreases |steps|
  {
    if steps != [] {
      StepKeeps(t, steps[0], lost);
      hide Consistent, Legal, Lost;
      RunKeeps(Apply(t, steps[0]), steps[1..], lost + Lost(t, steps[0]));
    }
  }

  function NewRoom(ids: seq<int>, openRands: int, jianPing: bool): Table {
    Table(ids, openRands, jianPing, 0, 0, 0, 0, false, false, [])
  }

  /** Over every run of a room that has started: the round count is one more than the games lost by the
      banker, the banker's seat is a seat, and outside 建平 it is that number modulo four. */
  lemma BankerRotation(ids: seq<int>, openRands: int, jianPing: bool, steps: seq<Step>)
    requires Seated(ids) && LegalRun(NewRoom(ids, openRands, jianPing), steps)
    ensures var t0 := NewRoom(ids, openRands, jianPing); var t, lost := Run(t0, steps), LostGames(t0, steps);
            && 0 <= t.bankerIndex <= 3
            && (t.games > 0 ==> t.realGamedCount - 1 == lost)
            && (!jianPing ==> t.bankerIndex == lost % 4)
            && (t.gaming ==> t.banker == ids[t.bankerIndex])
  {
    RunKeeps(NewRoom(ids, openRands, jianPing), steps, 0);
  }

  /** A game starts exactly while fewer games were lost by the banker than rounds were opened; only the
      very first game does not wait for that, and starts in a room opened for 0 rounds too. */
  lemma StartsWhileRoundsRemain(ids: seq<int>, openRands: int, jianPing: bool, steps: seq<Step>)
    requires Seated(ids) && LegalRun(NewRoom(ids, openRands, jianPing), steps)
    requires 0 <= Run(NewRoom(ids, openRands, jianPing), steps).bankerIndex < 4
    ensures var t0 := NewRoom(ids, openRands, jianPing); var t, lost := Run(t0, steps), LostGames(t0, steps);
            && t.ids == ids
            && (Start(t, true).games == t.games + 1 <==> if t.games == 0 then openRands >= 0 else lost < openRands)
            && (t.games > 0 ==> (HasBeenOver(t) <==> !t.gaming && lost >= openRands))
  {
    RunKeeps(NewRoom(ids, openRands, jianPing), steps, 0);
  }

  /** A room opened for 0 rounds plays its first game, and only that one. */
  lemma RoomForNothingStarts(ids: seq<int>, jianPing: bool)
    requires Seated(ids)
    ensures var t := Start(NewRoom(ids, 0, jianPing), true); t.games == 1 && t.gaming && Start(t, true) == t
  {
  }

  /** 建平: whoever wins a game has the bank in the next one; elsewhere the bank stays with a winning
      banker and else moves on by one seat, whoever won. */
  lemma WinnerTakesBank(ids: seq<int>, openRands: int, jianPing: bool, steps: seq<Step>, winner: int)
    requires Seated(ids) && LegalRun(NewRoom(ids, openRands, jianPing), steps) && winner in ids
    requires Run(NewRoom(ids, openRands, jianPing), steps).gaming
    ensures var t := Run(NewRoom(ids, openRands, jianPing), steps); var u := Over(t, winner);
            && 0 <= t.bankerIndex < 4 && t.ids == ids && 0 <= u.bankerIndex < 4
            && (jianPing ==> ids[u.bankerIndex] == winner)
            && (!jianPing ==> u.bankerIndex == if winner == ids[t.bankerIndex] then t.bankerIndex else (t.bankerIndex + 1) % 4)
  {
    RunKeeps(NewRoom(ids, openRands, jianPing), steps, 0);
  }

  /** After a drawn game the bank stays and the round is played again. */
  lemma DrawKeepsBank(ids: seq<int>, openRands: int, jianPing: bool, steps: seq<Step>)
    requires Seated(ids) && LegalRun(NewRoom(ids, openRands, jianPing), steps)
    requires Run(NewRoom(ids, openRands, jianPing), steps).gaming
    ensures var t := Run(NewRoom(ids, openRands, jianPing), steps); var u := Over(t, 0);
            && t.ids == ids && 0 <= t.bankerIndex < 4
            && u.bankerIndex == t.bankerIndex && u.realGamedCount == t.realGamedCount && u.ids == ids
            && (Start(u, true).games == t.games + 1 <==> t.realGamedCount <= openRands)
  {
    RunKeeps(NewRoom(ids, openRands, jianPing), steps, 0);
  }

  /** The end of a game shows the final settlement exactly when some game was played and either the room was
      dismissed or the banker has by then lost as many games as rounds were opened. */
  lemma SettledWhenLost(ids: seq<int>, openRands: int, jianPing: bool, steps: seq<Step>, winner: int)
    requires Seated(ids) && LegalRun(NewRoom(ids, openRands, jianPing), steps)
    requires Legal(Run(NewRoom(ids, openRands, jianPing), steps), OverStep(winner))
    ensures var t0 := NewRoom(ids, openRands, jianPing); var t := Run(t0, steps);
            && t.ids == ids && 0 <= t.bankerIndex < 4
            && (Settles(Rotated(t, winner)) <==>
                  t.games > 0 && (t.dismissed || LostGames(t0, steps) + Lost(t, OverStep(winner)) >= openRands))
  {
    RunKeeps(NewRoom(ids, openRands, jianPing), steps, 0);
  }

  ghost predicate BalancedStep(ids: seq<int>, s: Step) {
    s.RecordStep? ==> Balanced(ids, s.record)
  }

  lemma {:induction false} HistoryBalanced(t: Table, steps: seq<Step>)
    requires LegalRun(t, steps) && (forall record <- t.history :: Balanced(t.ids, record))
    requires forall s <- steps :: BalancedStep(t.ids, s)
    ensures forall record <- Run(t, steps).history :: Balanced(t.ids, record)
    decreases |steps|
  {
    hide Balanced;
    if steps != [] {
      assert steps[0] in steps && BalancedStep(t.ids, steps[0]);
      HistoryBalanced(Apply(t, steps[0]), steps[1..]);
    }
  }

  /** The totals shown at the end of a match cancel out when every recorded game does. */
  lemma FinalTotalsCancel(ids: seq<int>, openRands: int, jianPing: bool, steps: seq<Step>, winner: int)
    requires Seated(ids) && LegalRun(NewRoom(ids, openRands, jianPing), steps)
    requires forall s <- steps :: BalancedStep(ids, s)
    ensures Sum(Totals(Rotated(Run(NewRoom(ids, openRands, jianPing), steps), winner))) == 0
  {
    var t0 := NewRoom(ids, openRands, jianPing);
    RunKeeps(t0, steps, 0);
    HistoryBalanced(t0, steps);
    TotalsCancel(Rotated(Run(t0, steps), winner));
  }

  // ------------------------------------------------------------------------------ the room

  class Room {
    var players: seq<int>
    var openRands: int
    var jianPing: bool
    var banker: int
    var bankerIndex: int
    var realGamedCount: int
    var games: nat
    var gaming: bool
    var dismissed: bool
    var history: seq<Record>

    function State(): Table
      reads this
    {
      Table(players, openRands, jianPing, banker, bankerIndex, realGamedCount, games, gaming, dismissed, history)
    }

    constructor (ids: seq<int>, rands: int, inJianPing: bool)
      ensures State() == NewRoom(ids, rands, inJianPing)
    {
      players, openRands, jianPing := ids, rands, inJianPing;
      banker, bankerIndex, realGamedCount, games, gaming, dismissed, history := 0, 0, 0, 0, false, false, [];
    }

    method CanStarGame(allowed: bool) returns (ok: bool)
      ensures ok == (allowed && Remain(State()) > 0) == (allowed && realGamedCount <= openRands)
    {
      if !allowed {
        return false;
      }
      if openRands - realGamedCount + 1 <= 0 {
        return false;
      }
      return true;
    }

    /** The START case of `OnPlayerOperate`; the new game names the banker of its seat. */
    method OnStart(allowed: bool)
      requires 0 <= bankerIndex < |players|
      modifies this
      ensures State() == Start(old(State()), allowed)
      ensures old(realGamedCount) > openRands || !allowed ==> State() == old(State())
      ensures old(realGamedCount) <= openRands && allowed ==>
                && gaming && games == old(games) + 1 && banker == players[bankerIndex]
                && realGamedCount == if games == 1 then 1 else old(realGamedCount)
      ensures players == old(players) && openRands == old(openRands) && jianPing == old(jianPing)
              && bankerIndex == old(bankerIndex) && dismissed == old(dismissed) && history == old(history)
    {
      var ok := CanStarGame(allowed);
      if !ok {
        return;
      }
      gaming := true;
      banker := players[bankerIndex];
      if games == 0 {
        realGamedCount := 1;
      }
      games := games + 1;
    }

    method AddGameRecord(record: Record)
      modifies this
      ensures State() == old(State()).(history := old(history) + [record])
    {
      history := history + [record];
    }

    method GetPlayerOrder(player: int) returns (order: int)
      requires Distinct(players)
      ensures order == Order(players, player)
      ensures if player in players then 0 <= order < |players| && players[order] == player else order == -1
    {
      for i := 0 to |players|
        invariant player !in players[..i]
      {
        if players[i] == player {
          return i;
        }
      }
      return -1;
    }

    /** The final settlement is returned when there is one. */
    method OnGameOver(player: int) returns (totals: Option<seq<int>>)
      requires Distinct(players)
      modifies this
      ensures State() == Over(old(State()), player)
      ensures var r := Rotated(old(State()), player); totals == if Settles(r) then Some(Totals(r)) else None
      ensures player == 0 || player == old(banker) ==> bankerIndex == old(bankerIndex) && realGamedCount == old(realGamedCount)
      ensures player != 0 && player != old(banker) ==>
                && realGamedCount == old(realGamedCount) + 1
                && (!jianPing ==> bankerIndex == (old(bankerIndex) + 1) % 4)
                && (jianPing && player in players ==> 0 <= bankerIndex < |players| && players[bankerIndex] == player)
      ensures totals.Some? <==> games > 0 && (dismissed || openRands < realGamedCount)
      ensures history == if totals.Some? then [] else old(history)
      ensures !gaming && players == old(players) && openRands == old(openRands) && jianPing == old(jianPing)
              && banker == old(banker) && games == old(games) && dismissed == old(dismissed)
      ensures totals.Some? ==> |totals.value| == |players| && forall i :: 0 <= i < |players| ==> totals.value[i] == Total(old(history), players[i])
    {
      GameOver(State(), player);
      gaming := false;
      if player != 0 && banker != player {
        realGamedCount := realGamedCount + 1;
        bankerIndex := NextIndex(bankerIndex);
        if jianPing {
          bankerIndex := GetPlayerOrder(player);
        }
      }
      if (gaming || openRands - realGamedCount + 1 > 0) && !dismissed {
        return None;
      }
      if games == 0 {
        return None;
      }
      var scores := AllTotals();
      history := [];
      return Some(scores);
    }

    method AllTotals() returns (scores: seq<int>)
      ensures scores == Totals(State())
    {
      scores := [];
      for i := 0 to |players|
        invariant |scores| == i && forall j :: 0 <= j < i ==> scores[j] == Total(history, players[j])
      {
        var score := TotalOf(players[i]);
        scores := scores + [score];
      }
    }

    /** The two inner loops: every record, every entry of this player. */
    method TotalOf(player: int) returns (score: int)
      ensures score == Total(history, player)
    {
      score := 0;
      for i := 0 to |history|
        invariant score == Total(history[..i], player)
      {
        ghost var before, record := score, history[i];
        for j := 0 to |history[i]|
          invariant score == before + ScoreIn(record[..j], player)
        {
          assert record[..j + 1][..j] == record[..j];
          if player == history[i][j].playerId {
            score := score + history[i][j].score;
          }
        }
        assert record[..|record|] == record;
        assert history[..i + 1][..i] == history[..i];
      }
      assert history[..|history|] == history;
    }
  }
}
