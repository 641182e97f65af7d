/** A whole match: the games that `Settlement` settles, recorded in the room that `Room` models. */
module Match {
  import S = Settlement
  import R = Room
  import opened Fans

  /** A game settled after a win, or drawn. */
  datatype Game = Won(table: S.Table, win: S.Win) | Drawn(table: S.Table)

  /** The players of the room play this game, and the discarder of a win is one of them. */
  ghost predicate PlayedBy(ids: seq<int>, g: Game) {
    var t := g.table;
    && t.Valid() && |ids| == S.MAX_PLAYER_COUNT && (forall i :: 0 <= i < S.MAX_PLAYER_COUNT ==> t.seats[i].id == ids[i])
    && (g.Won? ==> g.win.hu < S.MAX_PLAYER_COUNT && (S.OnDiscard(t, g.win) ==> S.IsSeated(t, g.win.dianpao)))
  }

  /** In 建平 every open kong that scores was fed by one of the players; a drawn game may not score any. */
  ghost predicate Fed(g: Game)
    requires g.table.Valid()
  {
    var t := g.table;
    || (g.Drawn? && t.rules.huangZhuang) || !t.rules.jianPing || t.rules.multiple(FAN_TYPE_MING_GANG) == 0
    || forall i, k :: 0 <= i < S.MAX_PLAYER_COUNT && 0 <= k < |t.seats[i].mingGang| ==> S.IsSeated(t, t.seats[i].mingGang[k])
  }

  /** What settlement leaves in the record of player `i`: `Game::Calculate` after a win,
      `Game::OnLiuJu` after a drawn game. */
  ghost function Score(g: Game, i: nat): int
    requires g.table.Valid() && i < S.MAX_PLAYER_COUNT && (g.Won? ==> g.win.hu < S.MAX_PLAYER_COUNT)
  {
    match g
    case Won(t, w) => S.FinalScore(t, w, i)
    case Drawn(t) => if t.rules.huangZhuang then 0 else S.GangBalance(t, i)
  }

  /** The points no player was charged for. */
  function Created(g: Game): int
    requires g.table.Valid()
  {
    if g.Drawn? && g.table.rules.huangZhuang then 0 else S.Unpaid(g.table)
  }

  ghost function RecordOf(ids: seq<int>, g: Game): R.Record
    requires PlayedBy(ids, g)
  {
    [R.Entry(ids[0], Score(g, 0)), R.Entry(ids[1], Score(g, 1)), R.Entry(ids[2], Score(g, 2)), R.Entry(ids[3], Score(g, 3))]
  }

  /** The scores of one game sum to the points created, which is nothing exactly when the game was fed. */
  lemma GameCancels(ids: seq<int>, g: Game)
    requires PlayedBy(ids, g)
    ensures Score(g, 0) + Score(g, 1) + Score(g, 2) + Score(g, 3) == Created(g) >= 0
    ensures Created(g) == 0 <==> Fed(g)
  {
    var t := g.table;
    // kong balances do not depend on the win: a self-drawn win of the first player has the same
    var w := match g case Won(_, win) => win case Drawn(_) => S.Win(0, t.seats[0].id, {});
    assert S.OnDiscard(t, w) ==> S.IsSeated(t, w.dianpao);
    S.ZeroSum(t, w);
    S.Conservation(t, w);
    S.GangConservation(t);
    NotNegative(t);
  }

  lemma NotNegative(t: S.Table)
    requires t.Valid()
    ensures S.Unpaid(t) >= 0
  {
  }

  lemma GameIsBalanced(ids: seq<int>, g: Game)
    requires PlayedBy(ids, g)
    ensures R.Among(ids, RecordOf(ids, g)) && R.RecordSum(RecordOf(ids, g)) == Created(g)
    ensures R.Balanced(ids, RecordOf(ids, g)) <==> Fed(g)
  {
    GameCancels(ids, g);
    hide Score, Created, Fed;
    var a, b, c, d := R.Entry(ids[0], Score(g, 0)), R.Entry(ids[1], Score(g, 1)), R.Entry(ids[2], Score(g, 2)), R.Entry(ids[3], Score(g, 3));
    SumOfFour(a, b, c, d);
  }

  lemma SumOfFour(a: R.Entry, b: R.Entry, c: R.Entry, d: R.Entry)
    ensures R.RecordSum([a, b, c, d]) == a.score + b.score + c.score + d.score
  {
    var one, two, three, four := [a], [a, b], [a, b, c], [a, b, c, d];
    assert one[..0] == [] && two[..1] == one && three[..2] == two && four[..3] == three;
    assert R.RecordSum(one) == a.score;
    assert R.RecordSum(two) == R.RecordSum(one) + b.score;
    assert R.RecordSum(three) == R.RecordSum(two) + c.score;
  }

  // ------------------------------------------------------------------------------- a match

  /** A game is settled and recorded, or the room takes another step. */
  datatype Play = Settle(game: Game) | Other(step: R.Step)

  ghost predicate PlayOf(ids: seq<int>, p: Play) {
    match p
    case Settle(g) => PlayedBy(ids, g)
    case Other(step) => !step.RecordStep?
  }

  ghost predicate Plays(ids: seq<int>, plays: seq<Play>) {
    forall p <- plays :: PlayOf(ids, p)
  }

  ghost function StepOf(ids: seq<int>, p: Play): R.Step
    requires PlayOf(ids, p)
  {
    match p
    case Settle(g) => R.RecordStep(RecordOf(ids, g))
    case Other(step) => step
  }

  ghost function Steps(ids: seq<int>, plays: seq<Play>): (steps: seq<R.Step>)
    requires Plays(ids, plays)
    ensures |steps| == |plays|
  {
    if plays == [] then []
    else assert plays[0] in plays; [StepOf(ids, plays[0])] + Steps(ids, plays[1..])
  }

  /** The games recorded since the room last showed its final settlement, which clears the records. */
  ghost function Recorded(t: R.Table, games: seq<Game>, plays: seq<Play>): seq<Game>
    requires Plays(t.ids, plays) && R.LegalRun(t, Steps(t.ids, plays))
    decreases |plays|
  {
    if plays == [] then games
    else
      assert plays[0] in plays;
      var next := R.Apply(t, StepOf(t.ids, plays[0]));
      StepsTail(t.ids, plays);
      Recorded(next, Kept(next, games, plays[0]), plays[1..])
  }

  lemma StepsTail(ids: seq<int>, plays: seq<Play>)
    requires Plays(ids, plays) && plays != []
    ensures Plays(ids, plays[1..]) && plays[0] in plays && PlayOf(ids, plays[0])
    ensures Steps(ids, plays)[0] == StepOf(ids, plays[0]) && Steps(ids, plays)[1..] == Steps(ids, plays[1..])
  {
  }

  function CreatedBy(games: seq<Game>): int
    requires forall g <- games :: g.table.Valid()
  {
    if games == [] then 0
    else CreatedBy(games[..|games| - 1]) + Created(games[|games| - 1])
  }

  /** The records are those of these games. */
  ghost predicate Holds(ids: seq<int>, history: seq<R.Record>, games: seq<Game>) {
    |history| == |games| && forall i :: 0 <= i < |games| ==> PlayedBy(ids, games[i]) && history[i] == RecordOf(ids, games[i])
  }

  function Kept(next: R.Table, games: seq<Game>, p: Play): seq<Game> {
    if p.Settle? then games + [p.game] else if next.history == [] then [] else games
  }

  lemma StepHolds(t: R.Table, games: seq<Game>, p: Play)
    requires PlayOf(t.ids, p) && Holds(t.ids, t.history, games) && 0 <= t.bankerIndex < |t.ids|
    ensures var next := R.Apply(t, StepOf(t.ids, p));
            next.ids == t.ids && Holds(next.ids, next.history, Kept(next, games, p))
  {
    hide PlayedBy, RecordOf;
    var next := R.Apply(t, StepOf(t.ids, p));
    match p
    case Settle(g) =>
    case Other(step) =>
      assert next.history == t.history || next.history == [];
  }

  lemma {:induction false} RunHolds(t: R.Table, games: seq<Game>, plays: seq<Play>)
    requires Plays(t.ids, plays) && R.LegalRun(t, Steps(t.ids, plays)) && Holds(t.ids, t.history, games)
    ensures Holds(t.ids, R.Run(t, Steps(t.ids, plays)).history, Recorded(t, games, plays))
    ensures R.Run(t, Steps(t.ids, plays)).ids == t.ids
    decreases |plays|
  {
    hide PlayedBy, RecordOf, R.Apply, Holds, PlayOf, Plays, StepOf, Kept;
    if plays != [] {
      StepsTail(t.ids, plays);
      StepHolds(t, games, plays[0]);
      var next := R.Apply(t, StepOf(t.ids, plays[0]));
      RunHolds(next, Kept(next, games, plays[0]), plays[1..]);
    }
  }

  lemma {:induction false} HistoryCreated(ids: seq<int>, history: seq<R.Record>, games: seq<Game>)
    requires Holds(ids, history, games)
    ensures forall g <- games :: PlayedBy(ids, g)
    ensures R.HistorySum(history) == CreatedBy(games) >= 0 && (forall record <- history :: R.Among(ids, record))
    ensures CreatedBy(games) == 0 <==> forall g <- games :: Fed(g)
  {
    hide PlayedBy, RecordOf, Created, Fed, R.RecordSum, R.Among, Holds;
    HoldsLast(ids, history, games);
    if games != [] {
      var n := |games| - 1;
      GameCancels(ids, games[n]);
      GameIsBalanced(ids, games[n]);
      HistoryCreated(ids, history[..n], games[..n]);
      assert games == games[..n] + [games[n]] && history == history[..n] + [history[n]];
    }
  }

  lemma HoldsLast(ids: seq<int>, history: seq<R.Record>, games: seq<Game>)
    requires Holds(ids, history, games)
    ensures |history| == |games|
    ensures games != [] ==>
              var n := |games| - 1;
              && Holds(ids, history[..n], games[..n]) && PlayedBy(ids, games[n]) && history[n] == RecordOf(ids, games[n])
  {
    hide PlayedBy, RecordOf;
  }

  /** A player's scores over these games. */
  ghost function Scores(games: seq<Game>, i: nat): int
    requires i < S.MAX_PLAYER_COUNT && forall g <- games :: g.table.Valid() && (g.Won? ==> g.win.hu < S.MAX_PLAYER_COUNT)
  {
    if games == [] then 0 else Scores(games[..|games| - 1], i) + Score(games[|games| - 1], i)
  }

  lemma {:induction false} HistoryScores(ids: seq<int>, history: seq<R.Record>, games: seq<Game>, i: nat)
    requires R.Seated(ids) && Holds(ids, history, games) && i < S.MAX_PLAYER_COUNT
    ensures forall g <- games :: PlayedBy(ids, g)
    ensures R.Total(history, ids[i]) == Scores(games, i)
  {
    hide Score, R.ScoreIn, S.FinalScore;
    HoldsLast(ids, history, games);
    if games != [] {
      var n := |games| - 1;
      R.ScoreOfEntry(history[n], i, ids[i]);
      HistoryScores(ids, history[..n], games[..n], i);
      assert games == games[..n] + [games[n]] && history == history[..n] + [history[n]];
    }
  }

  lemma FinalTotals(t: R.Table, games: seq<Game>, winner: int)
    requires R.Seated(t.ids) && Holds(t.ids, t.history, games)
    ensures var totals := R.Totals(R.Rotated(t, winner));
            && (forall g <- games :: PlayedBy(t.ids, g)) && |totals| == S.MAX_PLAYER_COUNT
            && R.Sum(totals) == CreatedBy(games) && (R.Sum(totals) == 0 <==> forall g <- games :: Fed(g))
            && forall i :: 0 <= i < S.MAX_PLAYER_COUNT ==> totals[i] == Scores(games, i)
  {
    hide Fed, R.Sum, R.Total, Holds, CreatedBy, Scores, R.HistorySum, R.Among;
    HistoryCreated(t.ids, t.history, games);
    R.TotalsShare(R.Rotated(t, winner));
    forall i | 0 <= i < S.MAX_PLAYER_COUNT ensures R.Total(t.history, t.ids[i]) == Scores(games, i) {
      HistoryScores(t.ids, t.history, games, i);
    }
  }

  /** Points over a whole match: whatever games are played and settled among the players, won or drawn, each
      player's total in the final settlement is the sum of his own scores in those games. Together the totals
      are the points those games created, which is nothing exactly when in every one of them the open kongs
      that scored were fed by a player. */
  lemma MatchConservesPoints(ids: seq<int>, openRands: int, jianPing: bool, plays: seq<Play>, winner: int)
    requires R.Seated(ids) && Plays(ids, plays) && R.LegalRun(R.NewRoom(ids, openRands, jianPing), Steps(ids, plays))
    ensures var t0 := R.NewRoom(ids, openRands, jianPing);
            var games := Recorded(t0, [], plays); var t := R.Run(t0, Steps(ids, plays));
            && 0 <= t.bankerIndex < |t.ids| && (forall g <- games :: PlayedBy(ids, g))
            && R.Sum(R.Totals(R.Rotated(t, winner))) == CreatedBy(games)
            && (R.Sum(R.Totals(R.Rotated(t, winner))) == 0 <==> forall g <- games :: Fed(g))
            && t.ids == ids && (forall i :: 0 <= i < S.MAX_PLAYER_COUNT ==> R.Totals(R.Rotated(t, winner))[i] == Scores(games, i))
  {
    hide Fed, PlayedBy, Plays, Steps, R.Run, R.LegalRun, R.Sum, R.Totals, Recorded, CreatedBy, Scores, R.Rotated;
    var t0 := R.NewRoom(ids, openRands, jianPing);
    R.RunKeeps(t0, Steps(ids, plays), 0);
    RunHolds(t0, [], plays);
    FinalTotals(R.Run(t0, Steps(ids, plays)), Recorded(t0, [], plays), winner);
  }
}
