/** Room cards of a clan: rooms are admitted against the cards that the rooms not yet played will
    still need, and the cards are taken when a room starts. */
module Clan {
  import opened Fans
  import opened Tiles

  const ERROR_SUCCESS: int := 0
  const ERROR_INNER: int := 1
  const ERROR_CLAN_ROOM_COUNT_LIMIT: int := 2
  const ERROR_CLAN_ROOM_CARD_NOT_ENOUGH: int := 3
  const ERROR_CLAN_NOT_FOUND: int := 4

  /** A room as the clan knows it: rounds opened for, and games played so far. */
  datatype Room = Room(openRands: nat, currCount: nat)

  /** Balance, rooms, and the list of room ids shown to clients. */
  datatype Account = Account(cards: int, rooms: map<int, Room>, list: seq<int>)

  /** Asset data: rounds per card and the limit on open rooms. */
  datatype Limits = Limits(rounds: int, createRoomLimit: int)

  /** One card for every full `rounds` of the rounds opened. */
  function Cost(openRands: nat, rounds: int): (cards: nat)
    requires rounds > 0
    ensures cards * rounds <= openRands < cards * rounds + rounds
  {
    openRands / rounds
  }

  // ------------------------------------------------------------------- cards reserved

  /** Cards the rooms in `keys` still need: those of rooms not played yet. */
  ghost function Reserved(rooms: map<int, Room>, keys: set<int>, rounds: int): nat
    requires rounds > 0 && keys <= rooms.Keys
    decreases |keys|
  {
    if keys == {} then 0
    else
      HasElement(keys);
      var k :| k in keys;
      Due(rooms[k], rounds) + Reserved(rooms, keys - {k}, rounds)
  }

  /** A room that has played a game needs no more cards. */
  function Due(room: Room, rounds: int): (cards: nat)
    requires rounds > 0
    ensures room.currCount > 0 ==> cards == 0
    ensures room.currCount == 0 ==> cards * rounds <= room.openRands < cards * rounds + rounds
  {
    if room.currCount == 0 then Cost(room.openRands, rounds) else 0
  }

  /** The sum does not depend on the order of the rooms. */
  lemma {:induction false} ReservedStep(rooms: map<int, Room>, keys: set<int>, rounds: int, k: int)
    requires rounds > 0 && keys <= rooms.Keys && k in keys
    ensures Reserved(rooms, keys, rounds) == Due(rooms[k], rounds) + Reserved(rooms, keys - {k}, rounds)
    decreases |keys|
  {
    hide Due;
    var g :| g in keys && Reserved(rooms, keys, rounds) == Due(rooms[g], rounds) + Reserved(rooms, keys - {g}, rounds);
    if g != k {
      ReservedStep(rooms, keys - {g}, rounds, k);
      ReservedStep(rooms, keys - {k}, rounds, g);
      assert keys - {g} - {k} == keys - {k} - {g};
    }
  }

  /** Only the rooms counted matter. */
  lemma {:induction false} ReservedSame(rooms: map<int, Room>, other: map<int, Room>, keys: set<int>, rounds: int)
    requires rounds > 0 && keys <= rooms.Keys && keys <= other.Keys && forall k <- keys :: rooms[k] == other[k]
    ensures Reserved(rooms, keys, rounds) == Reserved(other, keys, rounds)
    decreases |keys|
  {
    if keys != {} {
      HasElement(keys);
      var k :| k in keys;
      ReservedStep(rooms, keys, rounds, k);
      ReservedStep(other, keys, rounds, k);
      ReservedSame(rooms, other, keys - {k}, rounds);
    }
  }

  ghost function Owed(rooms: map<int, Room>, rounds: int): nat
    requires rounds > 0
  {
    Reserved(rooms, rooms.Keys, rounds)
  }

  /** Setting a room changes the sum by that room only. */
  lemma OwedSet(rooms: map<int, Room>, id: int, room: Room, rounds: int)
    requires rounds > 0
    ensures Owed(rooms[id := room], rounds)
         == Owed(rooms, rounds) - (if id in rooms then Due(rooms[id], rounds) else 0) + Due(room, rounds)
  {
    var next := rooms[id := room];
    ReservedStep(next, next.Keys, rounds, id);
    assert next.Keys - {id} == rooms.Keys - {id};
    ReservedSame(rooms, next, rooms.Keys - {id}, rounds);
    if id in rooms {
      ReservedStep(rooms, rooms.Keys, rounds, id);
    } else {
      assert rooms.Keys - {id} == rooms.Keys;
    }
  }

  lemma OwedErase(rooms: map<int, Room>, id: int, rounds: int)
    requires rounds > 0
    ensures Owed(rooms - {id}, rounds) <= Owed(rooms, rounds)
  {
    var next := rooms - {id};
    assert next.Keys == rooms.Keys - {id};
    ReservedSame(rooms, next, next.Keys, rounds);
    if id in rooms {
      ReservedStep(rooms, rooms.Keys, rounds, id);
    } else {
      assert next == rooms;
    }
  }

  // --------------------------------------------------------------------- the operations

  /** `CheckCreateRoom` for a clan room, outside a free-play activity. */
  ghost function CheckCreate(a: Account, openRands: nat, limits: Limits): int {
    if limits.createRoomLimit < |a.list| then ERROR_CLAN_ROOM_COUNT_LIMIT
    else if limits.rounds <= 0 then ERROR_INNER
    else if a.cards < Cost(openRands, limits.rounds) + Owed(a.rooms, limits.rounds) then ERROR_CLAN_ROOM_CARD_NOT_ENOUGH
    else ERROR_SUCCESS
  }

  /** What the START message does to the balance; `Unpaid` is the branch that logs a started room
      whose cards cannot be taken. */
  datatype Outcome = Free | Paid | Unpaid

  function StartOutcome(cards: int, openRands: nat, rounds: int): Outcome {
    if rounds <= 0 || Cost(openRands, rounds) == 0 then Free
    else if cards >= Cost(openRands, rounds) then Paid
    else Unpaid
  }

  function AfterStart(cards: int, openRands: nat, rounds: int): int {
    if StartOutcome(cards, openRands, rounds).Paid? then cards - Cost(openRands, rounds) else cards
  }

  function AfterSync(a: Account, id: int, room: Room): Account {
    a.(rooms := a.rooms[id := room], list := if id in a.list then a.list else a.list + [id])
  }

  /** The list without its first `id`. */
  function EraseId(list: seq<int>, id: int): seq<int> {
    if list == [] then [] else if list[0] == id then list[1..] else [list[0]] + EraseId(list[1..], id)
  }

  function AfterOver(a: Account, id: int): Account {
    a.(rooms := a.rooms - {id}, list := EraseId(a.list, id))
  }

  function AfterRecharge(cards: int, count: int): int {
    if count <= 0 then cards else cards + count
  }

  // ------------------------------------------------------------------------------- runs

  /** Admission with the first sync, START with its sync, later syncs, OVER, the syncs that leaving players
      send from a finished room after its OVER, and card purchases. */
  datatype Step = Create(id: int, openRands: nat) | Start(id: int, count: nat) | Resync(id: int, count: nat)
                | Over(id: int) | Late(id: int, openRands: nat, count: nat) | Recharge(added: int)

  /** A room id is new when a room is created, only listed rooms start, and a room that has started stays
      started; a room that is not listed reports only when it has been played. */
  predicate Legal(a: Account, s: Step) {
    match s
    case Create(id, _) => id !in a.rooms
    case Start(id, count) => id in a.rooms && a.rooms[id].currCount == 0 && count > 0
    case Resync(id, count) => id in a.rooms && (count == 0 <==> a.rooms[id].currCount == 0)
    case Over(_) => true
    case Late(id, _, count) => id !in a.rooms && count > 0
    case Recharge(_) => true
  }

  ghost function Apply(a: Account, s: Step, limits: Limits): Account
    requires Legal(a, s)
  {
    match s
    case Create(id, openRands) =>
      if CheckCreate(a, openRands, limits) == ERROR_SUCCESS then AfterSync(a, id, Room(openRands, 0)) else a
    case Start(id, count) =>
      var open := a.rooms[id].openRands;
      AfterSync(a.(cards := AfterStart(a.cards, open, limits.rounds)), id, Room(open, count))
    case Resync(id, count) => AfterSync(a, id, Room(a.rooms[id].openRands, count))
    case Over(id) => AfterOver(a, id)
    case Late(id, openRands, count) => AfterSync(a, id, Room(openRands, count))
    case Recharge(count) => a.(cards := AfterRecharge(a.cards, count))
  }

  ghost predicate LegalRun(a: Account, steps: seq<Step>, limits: Limits)
    decreases |steps|
  {
    steps != [] ==> Legal(a, steps[0]) && LegalRun(Apply(a, steps[0], limits), steps[1..], limits)
  }

  ghost function Run(a: Account, steps: seq<Step>, limits: Limits): Account
    requires LegalRun(a, steps, limits)
    decreases |steps|
  {
    if steps == [] then a else Run(Apply(a, steps[0], limits), steps[1..], limits)
  }

  /** The rooms that a late sync listed again and no OVER has taken off since. */
  function Relisted(late: set<int>, s: Step): set<int> {
    match s
    case Late(id, _, _) => late + {id}
    case Over(id) => late - {id}
    case _ => late
  }

  function RelistedBy(late: set<int>, steps: seq<Step>): set<int>
    decreases |steps|
  {
    if steps == [] then late else RelistedBy(Relisted(late, steps[0]), steps[1..])
  }

  ghost predicate Distinct(s: seq<int>) {
    forall i, j :: 0 <= i < j < |s| ==> s[i] != s[j]
  }

  /** The list shows every room once. */
  ghost predicate Indexed(a: Account) {
    Distinct(a.list) && forall id :: id in a.list <==> id in a.rooms
  }

  /** The cards of all rooms still to be played are there. */
  ghost predicate Covered(a: Account, rounds: int)
    requires rounds > 0
  {
    0 <= Owed(a.rooms, rounds) <= a.cards
  }

  lemma SyncIndexed(a: Account, id: int, room: Room)
    requires Indexed(a)
    ensures Indexed(AfterSync(a, id, room))
    ensures |AfterSync(a, id, room).list| == |a.list| + if id in a.rooms then 0 else 1
  {
    var b := AfterSync(a, id, room);
    forall x ensures x in b.list <==> x in b.rooms {
    }
  }

  lemma {:induction false} EraseIdIs(list: seq<int>, id: int)
    requires Distinct(list)
    ensures Distinct(EraseId(list, id)) && forall x :: x in EraseId(list, id) <==> x in list && x != id
    ensures |EraseId(list, id)| == |list| - if id in list then 1 else 0
  {
    if list != [] {
      var head, tail := list[0], list[1..];
      assert list == [head] + tail;
      assert forall x :: x in list <==> x == head || x in tail;
      assert head !in tail;
      if head != id {
        EraseIdIs(tail, id);
        var r := EraseId(tail, id);
        assert forall x :: x in [head] + r <==> x == head || x in r;
      }
    }
  }

  lemma OverIndexed(a: Account, id: int)
    requires Indexed(a)
    ensures Indexed(AfterOver(a, id))
    ensures |AfterOver(a, id).list| == |a.list| - if id in a.rooms then 1 else 0
  {
    EraseIdIs(a.list, id);
  }

  lemma StepKeeps(a: Account, s: Step, limits: Limits)
    requires limits.rounds > 0 && Indexed(a) && Covered(a, limits.rounds) && Legal(a, s)
    ensures Indexed(Apply(a, s, limits)) && Covered(Apply(a, s, limits), limits.rounds)
    ensures s.Start? ==> !StartOutcome(a.cards, a.rooms[s.id].openRands, limits.rounds).Unpaid?
  {
    var rounds := limits.rounds;
    hide Owed, Indexed, Cost;
    match s {
      case Create(id, openRands) =>
        OwedSet(a.rooms, id, Room(openRands, 0), rounds);
        SyncIndexed(a, id, Room(openRands, 0));
      case Start(id, count) =>
        var open := a.rooms[id].openRands;
        OwedSet(a.rooms, id, Room(open, count), rounds);
        CardsApart(a, AfterStart(a.cards, open, rounds));
        SyncIndexed(a.(cards := AfterStart(a.cards, open, rounds)), id, Room(open, count));
      case Resync(id, count) =>
        OwedSet(a.rooms, id, Room(a.rooms[id].openRands, count), rounds);
        SyncIndexed(a, id, Room(a.rooms[id].openRands, count));
      case Over(id) =>
        OwedErase(a.rooms, id, rounds);
        OverIndexed(a, id);
      case Late(id, openRands, count) =>
        OwedSet(a.rooms, id, Room(openRands, count), rounds);
        SyncIndexed(a, id, Room(openRands, count));
      case Recharge(count) =>
        CardsApart(a, AfterRecharge(a.cards, count));
    }
  }

  /** The list goes past the limit by one room, and by those that late syncs listed again. */
  ghost predicate Limited(a: Account, late: set<int>, limits: Limits) {
    late <= a.rooms.Keys && |a.list| <= limits.createRoomLimit + 1 + |late|
  }

  lemma StepLimited(a: Account, late: set<int>, s: Step, limits: Limits)
    requires Indexed(a) && Limited(a, late, limits) && Legal(a, s)
    ensures Limited(Apply(a, s, limits), Relisted(late, s), limits)
  {
    var next := Relisted(late, s);
    hide Indexed, CheckCreate;
    match s {
      case Create(id, openRands) =>
        if CheckCreate(a, openRands, limits) == ERROR_SUCCESS {
          AdmittedBelow(a, openRands, limits);
          SyncIndexed(a, id, Room(openRands, 0));
        }
      case Start(id, count) =>
        CardsApart(a, AfterStart(a.cards, a.rooms[id].openRands, limits.rounds));
        SyncIndexed(a.(cards := AfterStart(a.cards, a.rooms[id].openRands, limits.rounds)), id, Room(a.rooms[id].openRands, count));
      case Resync(id, count) =>
        SyncIndexed(a, id, Room(a.rooms[id].openRands, count));
      case Over(id) =>
        OverIndexed(a, id);
        assert |next| == |late| - if id in late then 1 else 0;
      case Late(id, openRands, count) =>
        SyncIndexed(a, id, Room(openRands, count));
        assert |next| == |late| + 1;
      case Recharge(count) =>
    }
  }

  lemma AdmittedBelow(a: Account, openRands: nat, limits: Limits)
    requires CheckCreate(a, openRands, limits) == ERROR_SUCCESS
    ensures |a.list| <= limits.createRoomLimit
  {
  }

  lemma CardsApart(a: Account, cards: int)
    requires Indexed(a)
    ensures Indexed(a.(cards := cards))
  {
  }

  lemma {:induction false} RunKeeps(a: Account, late: set<int>, steps: seq<Step>, limits: Limits)
    requires limits.rounds > 0 && Indexed(a) && Covered(a, limits.rounds) && LegalRun(a, steps, limits)
    ensures Indexed(Run(a, steps, limits)) && Covered(Run(a, steps, limits), limits.rounds)
    ensures Limited(a, late, limits) ==> Limited(Run(a, steps, limits), RelistedBy(late, steps), limits)
    decreases |steps|
  {
    if steps != [] {
      StepKeeps(a, steps[0], limits);
      if Limited(a, late, limits) {
        StepLimited(a, late, steps[0], limits);
      }
      hide Indexed, Covered, Legal, Apply, Limited, Relisted;
      RunKeeps(Apply(a, steps[0], limits), Relisted(late, steps[0]), steps[1..], limits);
    }
  }

  const NOTHING: map<int, Room> := map[]

  /** Over every run of a clan that starts without rooms: the rooms still to be played are paid for, the
      balance is never negative, the list shows each room once, and it never shows more than one room over
      the limit, not counting finished rooms that late syncs listed again. */
  lemma CardsAlwaysSuffice(cards: nat, steps: seq<Step>, limits: Limits)
    requires limits.rounds > 0 && limits.createRoomLimit >= 0 && LegalRun(Account(cards, NOTHING, []), steps, limits)
    ensures var b, late := Run(Account(cards, NOTHING, []), steps, limits), RelistedBy({}, steps);
            && Owed(b.rooms, limits.rounds) <= b.cards && b.cards >= 0
            && Distinct(b.list) && (forall id :: id in b.list <==> id in b.rooms)
            && late <= b.rooms.Keys && |b.list| <= limits.createRoomLimit + 1 + |late|
  {
    RunKeeps(Account(cards, NOTHING, []), {}, steps, limits);
  }

  /** No START in any such run meets the branch that cannot take the cards. */
  lemma {:induction false} NeverUnpaid(cards: nat, before: seq<Step>, id: int, count: nat, limits: Limits)
    requires limits.rounds > 0 && LegalRun(Account(cards, NOTHING, []), before, limits)
    requires var a := Run(Account(cards, NOTHING, []), before, limits); Legal(a, Start(id, count))
    ensures var a := Run(Account(cards, NOTHING, []), before, limits);
            && !StartOutcome(a.cards, a.rooms[id].openRands, limits.rounds).Unpaid?
            && Apply(a, Start(id, count), limits).cards == a.cards - Cost(a.rooms[id].openRands, limits.rounds)
  {
    var a0 := Account(cards, NOTHING, []);
    RunKeeps(a0, {}, before, limits);
    StepKeeps(Run(a0, before, limits), Start(id, count), limits);
  }

  /** Cards bought, and cards of the rooms started, along a run. */
  ghost function Flow(a: Account, steps: seq<Step>, limits: Limits): int
    requires limits.rounds > 0 && LegalRun(a, steps, limits)
    decreases |steps|
  {
    if steps == [] then 0
    else (match steps[0]
          case Start(id, _) => 0 - Cost(a.rooms[id].openRands, limits.rounds)
          case Recharge(n) => if n > 0 then n else 0
          case _ => 0)
         + Flow(Apply(a, steps[0], limits), steps[1..], limits)
  }

  /** Every room started is charged its cost once, and nothing else moves the balance. */
  lemma {:induction false} Ledger(a: Account, steps: seq<Step>, limits: Limits)
    requires limits.rounds > 0 && Indexed(a) && Covered(a, limits.rounds) && LegalRun(a, steps, limits)
    ensures Run(a, steps, limits).cards == a.cards + Flow(a, steps, limits)
    decreases |steps|
  {
    if steps != [] {
      StepKeeps(a, steps[0], limits);
      hide Indexed, Covered, Cost, Owed, CheckCreate;
      Ledger(Apply(a, steps[0], limits), steps[1..], limits);
    }
  }

  /** A new room is admitted exactly when the list is not past its limit, there is card data, and the balance
      would still cover every room to be played with this one among them; each refusal has its own code,
      in that order. */
  lemma AdmittedWhenCovered(a: Account, id: int, openRands: nat, limits: Limits)
    requires id !in a.rooms
    ensures var code := CheckCreate(a, openRands, limits);
            && (code == ERROR_CLAN_ROOM_COUNT_LIMIT <==> |a.list| > limits.createRoomLimit)
            && (code == ERROR_INNER <==> |a.list| <= limits.createRoomLimit && limits.rounds <= 0)
            && (code == ERROR_SUCCESS <==>
                  |a.list| <= limits.createRoomLimit && limits.rounds > 0
                  && Covered(AfterSync(a, id, Room(openRands, 0)), limits.rounds))
            && (code == ERROR_CLAN_ROOM_CARD_NOT_ENOUGH <==>
                  |a.list| <= limits.createRoomLimit && limits.rounds > 0
                  && !Covered(AfterSync(a, id, Room(openRands, 0)), limits.rounds))
  {
    hide Owed, Cost;
    if limits.rounds > 0 {
      OwedSet(a.rooms, id, Room(openRands, 0), limits.rounds);
    }
  }

  /** Admission tests the number of listed rooms with `<`: a new room goes past the limit exactly when the
      list already holds as many rooms as the limit allows. */
  lemma AdmissionPassesLimit(a: Account, id: int, openRands: nat, limits: Limits)
    requires Indexed(a) && Legal(a, Create(id, openRands)) && CheckCreate(a, openRands, limits) == ERROR_SUCCESS
    ensures |Apply(a, Create(id, openRands), limits).list| > limits.createRoomLimit <==> |a.list| == limits.createRoomLimit
  {
    AdmittedBelow(a, openRands, limits);
    SyncIndexed(a, id, Room(openRands, 0));
  }

  /** The first room does so when the limit is 0. */
  lemma LimitIsPassedByOne(limits: Limits, cards: nat, openRands: nat)
    requires limits.rounds > 0 && limits.createRoomLimit == 0 && cards >= Cost(openRands, limits.rounds)
    ensures Apply(Account(cards, NOTHING, []), Create(1, openRands), limits).list == [1]
  {
    assert Owed(NOTHING, limits.rounds) == 0;
  }

  const LIMITS: Limits := Limits(1, 0)

  /** A finished room that reports once more stands beside the next room: two rooms at limit 0. */
  lemma LateSyncPassesLimit()
    ensures var steps := [Create(1, 1), Start(1, 1), Over(1), Create(2, 1), Late(1, 1, 1)];
            && LegalRun(Account(2, NOTHING, []), steps, LIMITS)
            && Run(Account(2, NOTHING, []), steps, LIMITS).list == [2, 1]
  {
    var a0 := Account(2, NOTHING, []);
    assert Owed(NOTHING, 1) == 0;
    var a1, a2, a3 := AfterSync(a0, 1, Room(1, 0)), Account(1, map[1 := Room(1, 1)], [1]), Account(1, NOTHING, []);
    var a4 := AfterSync(a3, 2, Room(1, 0));
    assert Apply(a0, Create(1, 1), LIMITS) == a1;
    assert Apply(a1, Start(1, 1), LIMITS) == a2;
    assert Apply(a2, Over(1), LIMITS) == a3;
    assert Apply(a3, Create(2, 1), LIMITS) == a4;
    hide CheckCreate;
    RunOf(a0, a1, Create(1, 1), [Start(1, 1), Over(1), Create(2, 1), Late(1, 1, 1)]);
    RunOf(a1, a2, Start(1, 1), [Over(1), Create(2, 1), Late(1, 1, 1)]);
    RunOf(a2, a3, Over(1), [Create(2, 1), Late(1, 1, 1)]);
    RunOf(a3, a4, Create(2, 1), [Late(1, 1, 1)]);
    RunOf(a4, AfterSync(a4, 1, Room(1, 1)), Late(1, 1, 1), []);
  }

  lemma RunOf(a: Account, b: Account, s: Step, rest: seq<Step>)
    requires Legal(a, s) && Apply(a, s, LIMITS) == b
    ensures LegalRun(a, [s] + rest, LIMITS) <==> LegalRun(b, rest, LIMITS)
    ensures LegalRun(b, rest, LIMITS) ==> Run(a, [s] + rest, LIMITS) == Run(b, rest, LIMITS)
  {
    assert ([s] + rest)[1..] == rest;
  }

  // ------------------------------------------------------------------------- the clan

  /** The rooms among `ids` that have been played. */
  ghost function PlayedOf(rooms: map<int, Room>, ids: set<int>): set<int> {
    set id | id in ids && id in rooms && rooms[id].currCount != 0
  }

  ghost function Played(rooms: map<int, Room>): set<int> {
    PlayedOf(rooms, rooms.Keys)
  }

  lemma PlayedStep(rooms: map<int, Room>, seen: set<int>, id: int)
    requires id in rooms && id !in seen
    ensures |PlayedOf(rooms, seen + {id})| == |PlayedOf(rooms, seen)| + if rooms[id].currCount != 0 then 1 else 0
  {
    var before := PlayedOf(rooms, seen);
    assert PlayedOf(rooms, seen + {id}) == if rooms[id].currCount != 0 then before + {id} else before;
  }

  /** Those with at least one game, and the others those with none. */
  lemma PlayedAre(rooms: map<int, Room>)
    ensures Played(rooms) == set id | id in rooms && rooms[id].currCount > 0
    ensures |Played(rooms)| + |set id | id in rooms && rooms[id].currCount == 0| == |rooms|
  {
    var played, others := Played(rooms), set id | id in rooms && rooms[id].currCount == 0;
    assert played == set id | id in rooms && rooms[id].currCount > 0;
    assert played !! others && played + others == rooms.Keys;
    assert |played + others| == |played| + |others|;
  }

  class Clan {
    var roomCardCount: int
    var rooms: map<int, Room>
    var gamingRoomList: seq<int>
    var dirty: bool

    constructor (cards: int)
      ensures State() == Account(cards, NOTHING, [])
    {
      roomCardCount, rooms, gamingRoomList, dirty := cards, map[], [], false;
    }

    function State(): Account
      reads this
    {
      Account(roomCardCount, rooms, gamingRoomList)
    }

    method CheckRoomCard(count: int) returns (enough: bool)
      ensures enough == (roomCardCount >= count)
    {
      return roomCardCount >= count;
    }

    method ConsumeRoomCard(count: int)
      modifies this
      ensures State() == old(State()).(cards := if count > 0 then old(roomCardCount) - count else old(roomCardCount))
      ensures dirty == (old(dirty) || count > 0)
    {
      if count <= 0 {
        return;
      }
      roomCardCount := roomCardCount - count;
      dirty := true;
    }

    method AddRoomCard(count: int)
      modifies this
      ensures State() == old(State()).(cards := AfterRecharge(old(roomCardCount), count))
      ensures dirty == (old(dirty) || count > 0)
    {
      if count <= 0 {
        return;
      }
      roomCardCount := roomCardCount + count;
      dirty := true;
    }

    /** The START case of `OnRoomChanged`. */
    method OnRoomStart(openRands: nat, rounds: int) returns (outcome: Outcome)
      modifies this
      ensures State() == old(State()).(cards := AfterStart(old(roomCardCount), openRands, rounds))
      ensures outcome == StartOutcome(old(roomCardCount), openRands, rounds)
      ensures outcome.Free? <==> rounds <= 0 || Cost(openRands, rounds) == 0
      ensures outcome.Unpaid? ==> old(roomCardCount) < Cost(openRands, rounds)
      ensures outcome.Paid? ==> roomCardCount == old(roomCardCount) - Cost(openRands, rounds) && 0 <= roomCardCount < old(roomCardCount)
      ensures !outcome.Paid? ==> roomCardCount == old(roomCardCount)
    {
      if rounds <= 0 {
        return Free;
      }
      var consume := openRands / rounds;
      assert consume == Cost(openRands, rounds);
      if consume <= 0 {
        return Free;
      }
      var enough := CheckRoomCard(consume);
      if !enough {
        return Unpaid;
      }
      ConsumeRoomCard(consume);
      dirty := true;
      return Paid;
    }

    method OnRoomOver(roomId: int)
      modifies this
      ensures State() == AfterOver(old(State()), roomId)
      ensures roomCardCount == old(roomCardCount) && rooms.Keys == old(rooms.Keys) - {roomId}
      ensures forall id :: id in rooms ==> rooms[id] == old(rooms)[id]
    {
      rooms := rooms - {roomId};
      EraseFromList(roomId);
      dirty := true;
    }

    /** `std::find` and `erase` on the list. */
    method EraseFromList(roomId: int)
      modifies this`gamingRoomList
      ensures gamingRoomList == EraseId(old(gamingRoomList), roomId)
    {
      var i: nat := 0;
      while i < |gamingRoomList| && gamingRoomList[i] != roomId
        invariant i <= |gamingRoomList| && roomId !in gamingRoomList[..i]
      {
        i := i + 1;
      }
      EraseIdAt(gamingRoomList, i, roomId);
      if i < |gamingRoomList| {
        gamingRoomList := gamingRoomList[..i] + gamingRoomList[i + 1..];
      }
    }

    method OnRoomSync(roomId: int, room: Room)
      modifies this
      ensures State() == AfterSync(old(State()), roomId, room)
      ensures roomCardCount == old(roomCardCount) && rooms.Keys == old(rooms.Keys) + {roomId} && rooms[roomId] == room
      ensures forall id :: id in rooms && id != roomId ==> rooms[id] == old(rooms)[id]
      ensures roomId in gamingRoomList && old(gamingRoomList) <= gamingRoomList
      ensures roomId in old(gamingRoomList) <==> gamingRoomList == old(gamingRoomList)
    {
      rooms := rooms[roomId := room];
      if roomId !in gamingRoomList {
        gamingRoomList := gamingRoomList + [roomId];
      }
      dirty := true;
    }

    /** Rooms being played. */
    method GetRoomGamingCount() returns (count: nat)
      ensures count == |Played(rooms)| == |set id | id in rooms && rooms[id].currCount > 0|
    {
      count := 0;
      var rest := rooms.Keys;
      ghost var seen: set<int> := {};
      assert PlayedOf(rooms, {}) == {};
      hide PlayedOf;
      while rest != {}
        invariant rest <= rooms.Keys && seen == rooms.Keys - rest
        invariant count == |PlayedOf(rooms, seen)|
        decreases |rest|
      {
        HasElement(rest);
        var id: int :| id in rest;
        PlayedStep(rooms, seen, id);
        if rooms[id].currCount != 0 {
          count := count + 1;
        }
        rest, seen := rest - {id}, seen + {id};
      }
      assert seen == rooms.Keys;
      PlayedAre(rooms);
    }

    /** Rooms not played yet: all the others. */
    method GetRoomNoPlayedCount() returns (count: nat)
      ensures count + |Played(rooms)| == |rooms|
      ensures count == |set id | id in rooms && rooms[id].currCount == 0|
    {
      count := 0;
      var rest := rooms.Keys;
      ghost var seen: set<int> := {};
      assert PlayedOf(rooms, {}) == {};
      hide PlayedOf;
      while rest != {}
        invariant rest <= rooms.Keys && seen == rooms.Keys - rest
        invariant count + |PlayedOf(rooms, seen)| == |seen|
        decreases |rest|
      {
        HasElement(rest);
        var id: int :| id in rest;
        PlayedStep(rooms, seen, id);
        if rooms[id].currCount == 0 {
          count := count + 1;
        }
        rest, seen := rest - {id}, seen + {id};
      }
      assert seen == rooms.Keys;
      PlayedAre(rooms);
    }
  }

  lemma {:induction false} EraseIdAt(list: seq<int>, i: nat, id: int)
    requires i <= |list| && id !in list[..i] && (i < |list| ==> list[i] == id)
    ensures EraseId(list, id) == if i < |list| then list[..i] + list[i + 1..] else list
  {
    if i > 0 {
      assert list[..i][0] != id;
      assert list[1..][..i - 1] == list[..i][1..];
      EraseIdAt(list[1..], i - 1, id);
      if i < |list| {
        assert list[..i] + list[i + 1..] == [list[0]] + (list[1..][..i - 1] + list[1..][i..]);
      }
    }
  }

  class Player {
    /** `CheckCreateRoom`: `free` while rooms are free, `clanId` 0 when the room is not a clan's, `clan` and
        `limit` as far as they are found, and rounds per card not positive when there is no card data. */
    method CheckCreateRoom(free: bool, clanId: int, clan: Clan?, limit: Option<int>, openRands: nat, rounds: int)
      returns (code: int)
      ensures code == if free || clanId == 0 then ERROR_SUCCESS
                      else if clan == null || limit.None? then ERROR_CLAN_NOT_FOUND
                      else CheckCreate(clan.State(), openRands, Limits(rounds, limit.value))
    {
      if free || clanId == 0 {
        return ERROR_SUCCESS;
      }
      if clan == null || limit.None? {
        return ERROR_CLAN_NOT_FOUND;
      }
      if limit.value < |clan.gamingRoomList| {
        return ERROR_CLAN_ROOM_COUNT_LIMIT;
      }
      if rounds <= 0 {
        return ERROR_INNER;
      }
      var total := NeededCards(clan.rooms, openRands, rounds);
      if clan.roomCardCount < total {
        return ERROR_CLAN_ROOM_CARD_NOT_ENOUGH;
      }
      return ERROR_SUCCESS;
    }

    /** The loop over the rooms: those already played are skipped. */
    method NeededCards(rooms: map<int, Room>, openRands: nat, rounds: int) returns (total: nat)
      requires rounds > 0
      ensures total == Cost(openRands, rounds) + Owed(rooms, rounds)
    {
      total := openRands / rounds;
      var rest := rooms.Keys;
      while rest != {}
        invariant rest <= rooms.Keys
        invariant total + Reserved(rooms, rest, rounds) == Cost(openRands, rounds) + Owed(rooms, rounds)
        decreases |rest|
      {
        HasElement(rest);
        var id: int :| id in rest;
        ReservedStep(rooms, rest, rounds, id);
        rest := rest - {id};
        if rooms[id].currCount == 0 {
          var consume := rooms[id].openRands / rounds;
          total := total + consume;
        }
      }
    }
  }
}
