/** The task scheduler of GameServer/TaskScheduler.h and .cpp: a queue ordered by end time,
    a dispatch loop whose handlers put work back, and repetition that does not drift. */
module TaskScheduler {
  import opened Tiles

  /** A task.  `start` is the time it was scheduled at; `ticket` numbers the insertions into the
      queue, which is how the multiset keeps tasks of one end time apart. */
  datatype Task = Task(id: nat, start: int, end: int, duration: int, group: Option<int>, repeated: int,
                       handler: int, ticket: nat)

  /** What a handler does with its context: nothing, repeat its task, or schedule a new one. */
  datatype Reaction = Done | Repeat(duration: int) | Spawn(time: int, group: Option<int>, handler: int)

  /** A handler is known by its number; it may look at the repeat counter of its task. */
  type Handlers = (int, int) -> Reaction

  predicate DelaysBy(r: Reaction, d: int) {
    match r
    case Done => true
    case Repeat(t) => t >= d
    case Spawn(t, _, _) => t >= d
  }

  /** Every task a handler puts back ends at least `d` after the task that ran. */
  ghost predicate Delays(handlers: Handlers, d: int) {
    forall h, k :: DelaysBy(handlers(h, k), d)
  }

  /** `a` runs before `b`: it ends earlier, or at the same time and was inserted first. */
  predicate Before(a: Task, b: Task) {
    a.end < b.end || (a.end == b.end && a.ticket < b.ticket)
  }

  predicate Ordered(s: seq<Task>) {
    forall i, j :: 0 <= i < j < |s| ==> Before(s[i], s[j])
  }

  predicate Older(s: seq<Task>, ticket: nat) {
    forall i :: 0 <= i < |s| ==> s[i].ticket < ticket
  }

  // ------------------------------------------------------------------ ordered insertion

  /** Where a task ending at `end` goes: behind everything that does not end later. */
  function Place(s: seq<Task>, end: int): (k: nat)
    ensures k <= |s| && (forall i :: 0 <= i < k ==> s[i].end <= end) && (k < |s| ==> s[k].end > end)
  {
    if s == [] || s[0].end > end then 0 else 1 + Place(s[1..], end)
  }

  function Inserted(s: seq<Task>, t: Task): seq<Task> {
    s[..Place(s, t.end)] + [t] + s[Place(s, t.end)..]
  }

  lemma InsertedIsOrdered(s: seq<Task>, t: Task)
    requires Ordered(s) && Older(s, t.ticket)
    ensures Ordered(Inserted(s, t)) && Older(Inserted(s, t), t.ticket + 1)
    ensures |Inserted(s, t)| == |s| + 1
  {
    var k, r := Place(s, t.end), Inserted(s, t);
    hide Place;
    assert forall i :: 0 <= i < |r| ==> r[i] == if i < k then s[i] else if i == k then t else s[i - 1];
    hide Inserted;
    forall i, j | 0 <= i < j < |r| ensures Before(r[i], r[j]) {
      if i < k && j == k {
        assert s[i].end <= t.end && s[i].ticket < t.ticket;
      } else if i == k {
        assert t.end < s[j - 1].end;
      } else {
        var a, b := if i < k then i else i - 1, if j < k then j else j - 1;
        assert Before(s[a], s[b]);
      }
    }
  }

  /** The members after an insertion: the new task and the old ones. */
  lemma InsertedMembers(s: seq<Task>, t: Task)
    ensures forall x :: x in Inserted(s, t) <==> x == t || x in s
  {
    var k := Place(s, t.end);
    assert s == s[..k] + s[k..];
  }

  // ------------------------------------------------------- taking out and putting back

  predicate Selects(group: Option<int>, t: Task) {
    group.None? || t.group == group
  }

  function Kept(s: seq<Task>, group: Option<int>): seq<Task> {
    if s == [] then []
    else Kept(s[..|s| - 1], group) + if Selects(group, s[|s| - 1]) then [] else [s[|s| - 1]]
  }

  /** The two ways a queued task is moved in time. */
  datatype Change = Delay(amount: int) | Reschedule(point: int) {
    function Apply(t: Task): Task {
      t.(end := match this
                case Delay(d) => t.end + d
                case Reschedule(e) => e)
    }
  }

  function Moved(s: seq<Task>, group: Option<int>, change: Change): seq<Task> {
    if s == [] then []
    else Moved(s[..|s| - 1], group, change) + if Selects(group, s[|s| - 1]) then [change.Apply(s[|s| - 1])] else []
  }

  /** Puts `moved` back one after the other, each with a new ticket. */
  function PutBack(s: seq<Task>, moved: seq<Task>, ticket: nat): seq<Task> {
    if moved == [] then s
    else
      var n := |moved| - 1;
      Inserted(PutBack(s, moved[..n], ticket), moved[n].(ticket := ticket + n))
  }

  /** What stays the same of a task while it is moved in time and repeated. */
  datatype Key = Key(id: nat, start: int, duration: int, group: Option<int>, handler: int)

  function KeyOf(t: Task): Key {
    Key(t.id, t.start, t.duration, t.group, t.handler)
  }

  /** How often a task occurs in a list. */
  function Count(s: seq<Task>, k: Key): nat {
    if s == [] then 0 else Count(s[..|s| - 1], k) + if KeyOf(s[|s| - 1]) == k then 1 else 0
  }

  lemma SplitSnoc(s: seq<Task>, n: nat, group: Option<int>, change: Change)
    requires n < |s|
    ensures Kept(s[..n + 1], group) == Kept(s[..n], group) + if Selects(group, s[n]) then [] else [s[n]]
    ensures Moved(s[..n + 1], group, change) ==
            Moved(s[..n], group, change) + if Selects(group, s[n]) then [change.Apply(s[n])] else []
  {
    assert s[..n + 1][..n] == s[..n];
  }

  lemma {:induction false} KeptIsOrdered(s: seq<Task>, group: Option<int>, ticket: nat)
    requires Ordered(s) && Older(s, ticket)
    ensures Ordered(Kept(s, group)) && Older(Kept(s, group), ticket)
    ensures forall t :: t in Kept(s, group) <==> t in s && !Selects(group, t)
  {
    if s != [] {
      var n := |s| - 1;
      KeptIsOrdered(s[..n], group, ticket);
      assert s == s[..n] + [s[n]];
      assert forall t :: t in s[..n] ==> Before(t, s[n]);
    }
  }

  lemma CountSnoc(s: seq<Task>, t: Task, key: Key)
    ensures Count(s + [t], key) == Count(s, key) + if KeyOf(t) == key then 1 else 0
  {
    assert (s + [t])[..|s|] == s;
  }

  lemma {:induction false} CountConcat(a: seq<Task>, b: seq<Task>, key: Key)
    ensures Count(a + b, key) == Count(a, key) + Count(b, key)
    decreases |b|
  {
    if b == [] {
      assert a + b == a;
    } else {
      var n := |b| - 1;
      assert a + b == (a + b[..n]) + [b[n]];
      CountSnoc(a + b[..n], b[n], key);
      CountConcat(a, b[..n], key);
    }
  }

  lemma InsertedCount(s: seq<Task>, t: Task, key: Key)
    ensures Count(Inserted(s, t), key) == Count(s, key) + if KeyOf(t) == key then 1 else 0
  {
    hide Count, Place;
    var k := Place(s, t.end);
    CountConcat(s[..k] + [t], s[k..], key);
    CountSnoc(s[..k], t, key);
    CountConcat(s[..k], s[k..], key);
    assert s == s[..k] + s[k..];
  }

  lemma SplitLast(s: seq<Task>, group: Option<int>, change: Change)
    requires s != []
    ensures var n := |s| - 1;
            if Selects(group, s[n])
            then Kept(s, group) == Kept(s[..n], group) && Moved(s, group, change) == Moved(s[..n], group, change) + [change.Apply(s[n])]
            else Kept(s, group) == Kept(s[..n], group) + [s[n]] && Moved(s, group, change) == Moved(s[..n], group, change)
  {
  }

  /** No task is lost and none is doubled when the selected ones are moved ... */
  lemma {:induction false} MoveKeepsTasks(s: seq<Task>, group: Option<int>, change: Change, key: Key)
    ensures Count(Kept(s, group), key) + Count(Moved(s, group, change), key) == Count(s, key)
    decreases |s|
  {
    if s != [] {
      hide Kept, Moved, Count;
      var n := |s| - 1;
      MoveKeepsTasks(s[..n], group, change, key);
      SplitLast(s, group, change);
      if Selects(group, s[n]) {
        CountSnoc(Moved(s[..n], group, change), change.Apply(s[n]), key);
      } else {
        CountSnoc(Kept(s[..n], group), s[n], key);
      }
    }
  }

  lemma PutBackLast(s: seq<Task>, moved: seq<Task>, n: nat, ticket: nat)
    requires n < |moved|
    ensures PutBack(s, moved[..n + 1], ticket) ==
            Inserted(PutBack(s, moved[..n], ticket), moved[n].(ticket := ticket + n))
  {
    assert moved[..n + 1][..n] == moved[..n];
  }

  /** ... and put back. */
  lemma {:induction false} PutBackKeepsTasks(s: seq<Task>, moved: seq<Task>, ticket: nat, key: Key)
    ensures Count(PutBack(s, moved, ticket), key) == Count(s, key) + Count(moved, key)
    decreases |moved|
  {
    if moved != [] {
      hide PutBack, Inserted, Count;
      var n := |moved| - 1;
      PutBackKeepsTasks(s, moved[..n], ticket, key);
      assert moved[..n + 1] == moved;
      PutBackLast(s, moved, n, ticket);
      InsertedCount(PutBack(s, moved[..n], ticket), moved[n].(ticket := ticket + n), key);
    }
  }

  /** The tasks of a list, whenever they were inserted. */
  function Bag(s: seq<Task>): multiset<Task> {
    if s == [] then multiset{} else Bag(s[..|s| - 1]) + multiset{s[|s| - 1].(ticket := 0)}
  }

  lemma {:induction false} BagJoin(a: seq<Task>, b: seq<Task>)
    ensures Bag(a + b) == Bag(a) + Bag(b)
  {
    if b == [] {
      assert a + b == a;
    } else {
      var n := |b| - 1;
      assert (a + b)[..|a + b| - 1] == a + b[..n];
      BagJoin(a, b[..n]);
    }
  }

  lemma BagOne(t: Task)
    ensures Bag([t]) == multiset{t.(ticket := 0)}
  {
    assert [t][..0] == [];
  }

  lemma BagInserted(s: seq<Task>, t: Task)
    ensures Bag(Inserted(s, t)) == Bag(s) + multiset{t.(ticket := 0)}
  {
    hide Bag, Place;
    var k := Place(s, t.end);
    BagJoin(s[..k] + [t], s[k..]);
    BagJoin(s[..k], [t]);
    BagJoin(s[..k], s[k..]);
    BagOne(t);
    assert s == s[..k] + s[k..];
  }

  lemma {:induction false} BagPutBack(s: seq<Task>, moved: seq<Task>, ticket: nat)
    ensures Bag(PutBack(s, moved, ticket)) == Bag(s) + Bag(moved)
    decreases |moved|
  {
    hide Bag, PutBack, Inserted;
    if moved == [] {
      BagNone();
      PutBackNone(s, ticket);
      assert Bag(s) + multiset{} == Bag(s);
    } else {
      var n := |moved| - 1;
      BagPutBack(s, moved[..n], ticket);
      BagInserted(PutBack(s, moved[..n], ticket), moved[n].(ticket := ticket + n));
      assert moved[..n + 1] == moved;
      PutBackLast(s, moved, n, ticket);
      BagLast(moved);
    }
  }

  lemma BagNone()
    ensures Bag([]) == multiset{}
  {
  }

  lemma PutBackNone(s: seq<Task>, ticket: nat)
    ensures PutBack(s, [], ticket) == s
  {
  }

  lemma BagLast(s: seq<Task>)
    requires s != []
    ensures Bag(s) == Bag(s[..|s| - 1]) + multiset{s[|s| - 1].(ticket := 0)}
  {
  }

  /** A task that is delayed ends later by the amount, one that is rescheduled ends at the point; all tasks
      are meant when no group is named, and else those of the group. */
  function ChangedInTime(t: Task, group: Option<int>, change: Change): Task {
    if group != None && t.group != group then t
    else match change
         case Delay(amount) => t.(end := t.end + amount)
         case Reschedule(point) => t.(end := point)
  }

  function AllChanged(s: seq<Task>, group: Option<int>, change: Change): (r: seq<Task>)
    ensures |r| == |s| && forall i :: 0 <= i < |s| ==> r[i] == ChangedInTime(s[i], group, change)
  {
    seq(|s|, i requires 0 <= i < |s| => ChangedInTime(s[i], group, change))
  }

  lemma {:induction false} BagSplit(s: seq<Task>, group: Option<int>, change: Change)
    ensures Bag(Kept(s, group)) + Bag(Moved(s, group, change)) == Bag(AllChanged(s, group, change))
  {
    hide Bag, Kept, Moved, ChangedInTime, Selects;
    if s == [] {
      SplitNone(group, change);
      BagNone();
      assert AllChanged(s, group, change) == [];
    } else {
      var n := |s| - 1;
      var changed := AllChanged(s, group, change);
      BagSplit(s[..n], group, change);
      assert changed[..n] == AllChanged(s[..n], group, change);
      BagLast(changed);
      SplitLast(s, group, change);
      BagJoin(Kept(s[..n], group), [s[n]]);
      BagJoin(Moved(s[..n], group, change), [change.Apply(s[n])]);
      BagOne(s[n]);
      BagOne(change.Apply(s[n]));
      ChangedIs(s[n], group, change);
    }
  }

  lemma ChangedIs(t: Task, group: Option<int>, change: Change)
    ensures ChangedInTime(t, group, change) == if Selects(group, t) then change.Apply(t) else t
  {
  }

  lemma SplitNone(group: Option<int>, change: Change)
    ensures Kept([], group) == [] && Moved([], group, change) == []
  {
  }

  /** After a change every task is there as it was changed, and no other. */
  lemma ModifyChanges(s: seq<Task>, group: Option<int>, change: Change, ticket: nat)
    ensures Bag(PutBack(Kept(s, group), Moved(s, group, change), ticket)) == Bag(AllChanged(s, group, change))
  {
    hide *;
    BagSplit(s, group, change);
    BagPutBack(Kept(s, group), Moved(s, group, change), ticket);
  }

  lemma ModifyKeepsTasks(s: seq<Task>, group: Option<int>, change: Change, ticket: nat)
    ensures forall key :: Count(PutBack(Kept(s, group), Moved(s, group, change), ticket), key) == Count(s, key)
  {
    hide *;
    forall key ensures Count(PutBack(Kept(s, group), Moved(s, group, change), ticket), key) == Count(s, key) {
      MoveKeepsTasks(s, group, change, key);
      PutBackKeepsTasks(Kept(s, group), Moved(s, group, change), ticket, key);
    }
  }

  class TaskQueue {
    var container: seq<Task>
    var tickets: nat

    ghost predicate Valid()
      reads this
    {
      Ordered(container) && Older(container, tickets)
    }

    constructor ()
      ensures Valid() && container == []
    {
      container, tickets := [], 0;
    }

    /** `multiset::insert`: behind every task that does not end later. */
    method Push(task: Task)
      requires Valid()
      modifies this
      ensures Valid() && tickets == old(tickets) + 1
      ensures container == Inserted(old(container), task.(ticket := old(tickets)))
    {
      var t := task.(ticket := tickets);
      InsertedIsOrdered(container, t);
      hide Ordered, Older;
      var k := 0;
      while k < |container| && container[k].end <= task.end
        invariant 0 <= k <= |container|
        invariant k + Place(container[k..], task.end) == Place(container, task.end)
      {
        assert container[k..][1..] == container[k + 1..];
        k := k + 1;
      }
      container, tickets := container[..k] + [t] + container[k..], tickets + 1;
    }

    method Pop() returns (task: Task)
      requires Valid() && container != []
      modifies this
      ensures Valid() && tickets == old(tickets)
      ensures task == old(container)[0] && container == old(container)[1..]
    {
      task := container[0];
      container := container[1..];
    }

    /** Drops the tasks of a group (or all) and keeps the others in order. */
    method RemoveIf(group: Option<int>)
      requires Valid()
      modifies this
      ensures Valid() && container == Kept(old(container), group) && tickets == old(tickets)
      ensures forall t :: t in container <==> t in old(container) && group != None && t.group != group
    {
      KeptIsOrdered(container, group, tickets);
      ghost var cache := Split(group, Delay(0));
    }

    /** Moves the selected tasks in time and puts them back behind the others of their new end time. */
    method ModifyIf(group: Option<int>, change: Change)
      requires Valid()
      modifies this
      ensures Valid() && forall key :: Count(container, key) == Count(old(container), key)
      ensures Bag(container) == Bag(AllChanged(old(container), group, change))
      ensures container == PutBack(Kept(old(container), group), Moved(old(container), group, change), old(tickets))
    {
      hide Ordered, Older, Inserted, Kept, Moved, Count, Place, Selects, Bag, ChangedInTime, AllChanged;
      ghost var c := container;
      ModifyKeepsTasks(c, group, change, tickets);
      ModifyChanges(c, group, change, tickets);
      var cache := Split(group, change);
      ghost var kept := container;
      assert PutBack(kept, [], tickets) == kept;
      hide PutBack;
      for j := 0 to |cache|
        invariant Valid() && tickets == old(tickets) + j
        invariant container == PutBack(kept, cache[..j], old(tickets))
      {
        PutBackLast(kept, cache, j, old(tickets));
        Push(cache[j]);
      }
      assert cache[..|cache|] == cache;
    }

    /** Walks through the queue once, taking the selected tasks out. */
    method Split(group: Option<int>, change: Change) returns (cache: seq<Task>)
      requires Valid()
      modifies this`container
      ensures Ordered(container) && Older(container, tickets)
      ensures container == Kept(old(container), group)
      ensures cache == Moved(old(container), group, change)
    {
      hide Ordered, Older, Kept, Moved, Selects;
      ghost var c := container;
      KeptIsOrdered(c, group, tickets);
      SplitNone(group, change);
      var i := 0;
      ghost var n := 0;
      cache := [];
      assert c[..0] == [] && c[0..] == c;
      while i < |container|
        invariant 0 <= n <= |c| && |container| - i == |c| - n
        invariant container[i..] == c[n..] && i == |container[..i]|
        invariant container[..i] == Kept(c[..n], group)
        invariant cache == Moved(c[..n], group, change)
        decreases |container| - i
      {
        SplitSnoc(c, n, group, change);
        SplitAt(container, i);
        SplitAt(c, n);
        if Selects(group, container[i]) {
          cache := cache + [change.Apply(container[i])];
          container := container[..i] + container[i + 1..];
        } else {
          i := i + 1;
        }
        n := n + 1;
      }
      assert c[..|c|] == c && container[..|container|] == container;
    }
  }

  lemma SplitAt(s: seq<Task>, i: nat)
    requires i < |s|
    ensures s[i..][0] == s[i] && s[i..][1..] == s[i + 1..] && s[..i + 1] == s[..i] + [s[i]]
    ensures var r := s[..i] + s[i + 1..]; |r| == |s| - 1 && r[..i] == s[..i] && r[i..] == s[i + 1..]
  {
  }

  // ----------------------------------------------------------- termination of dispatch

  /** How many times a task that is `late` behind can run when each run puts it off by `d`. */
  function Steps(late: int, d: int): nat
    requires d > 0
    decreases if late < 0 then 0 else late + 1
  {
    if late < 0 then 0 else 1 + Steps(late - d, d)
  }

  lemma {:induction false} StepsMonotone(a: int, b: int, d: int)
    requires d > 0 && a <= b
    ensures Steps(a, d) <= Steps(b, d)
    decreases if b < 0 then 0 else b + 1
  {
    if a >= 0 {
      StepsMonotone(a - d, b - d, d);
    }
  }

  /** The runs still owed to the queued tasks. */
  function Work(s: seq<Task>, now: int, d: int): nat
    requires d > 0
  {
    if s == [] then 0 else Work(s[..|s| - 1], now, d) + Steps(now - s[|s| - 1].end, d)
  }

  lemma {:induction false} WorkConcat(a: seq<Task>, b: seq<Task>, now: int, d: int)
    requires d > 0
    ensures Work(a + b, now, d) == Work(a, now, d) + Work(b, now, d)
    decreases |b|
  {
    if b == [] {
      assert a + b == a;
    } else {
      var n := |b| - 1;
      assert (a + b)[..|a + b| - 1] == a + b[..n];
      WorkConcat(a, b[..n], now, d);
    }
  }

  lemma WorkOne(t: Task, now: int, d: int)
    requires d > 0
    ensures Work([t], now, d) == Steps(now - t.end, d)
  {
    assert [t][..0] == [];
  }

  lemma WorkInserted(s: seq<Task>, t: Task, now: int, d: int)
    requires d > 0
    ensures Work(Inserted(s, t), now, d) == Work(s, now, d) + Steps(now - t.end, d)
  {
    hide Work, Place;
    var k := Place(s, t.end);
    WorkConcat(s[..k] + [t], s[k..], now, d);
    WorkConcat(s[..k], [t], now, d);
    WorkOne(t, now, d);
    WorkConcat(s[..k], s[k..], now, d);
    assert s == s[..k] + s[k..];
  }

  lemma WorkPopped(s: seq<Task>, now: int, d: int)
    requires d > 0 && s != []
    ensures Work(s, now, d) == Steps(now - s[0].end, d) + Work(s[1..], now, d)
  {
    WorkConcat([s[0]], s[1..], now, d);
    WorkOne(s[0], now, d);
    assert s == [s[0]] + s[1..];
  }

  // ------------------------------------------------------------------------ repetition

  /** The task repeats itself with its own period, whatever its counter. */
  ghost predicate Repeats(handlers: Handlers, t: Task) {
    t.duration > 0 && forall k :: handlers(t.handler, k) == Repeat(t.duration)
  }

  /** `repeated` runs are done and the next one is due a whole number of periods after the start. */
  ghost predicate InPhase(t: Task) {
    t.repeated >= 0 && t.end == t.start + (t.repeated + 1) * t.duration
  }

  ghost predicate AllRepeat(handlers: Handlers, s: seq<Task>, now: int) {
    forall t :: t in s ==> Repeats(handlers, t) && InPhase(t) && t.end - t.duration <= now
  }

  ghost predicate SameTasks(a: seq<Task>, b: seq<Task>) {
    forall key :: Count(a, key) == Count(b, key)
  }

  function Again(t: Task, duration: int): Task {
    t.(duration := duration, end := t.end + duration, repeated := t.repeated + 1)
  }

  lemma RunAgain(handlers: Handlers, t: Task, now: int)
    requires Repeats(handlers, t) && InPhase(t) && t.end <= now
    ensures var u := Again(t, t.duration);
            Repeats(handlers, u) && InPhase(u) && u.end - u.duration <= now && KeyOf(u) == KeyOf(t)
  {
    var r, p := t.repeated + 1, t.duration;
    Distribute(r, 1, p);
  }

  /** A task in phase that is due but not overdue has run exactly once per full period. */
  lemma RanOncePerPeriod(t: Task, now: int)
    requires t.duration > 0 && InPhase(t) && t.end - t.duration <= now < t.end
    ensures t.repeated == (now - t.start) / t.duration
  {
    var r, p, x := t.repeated, t.duration, now - t.start;
    Distribute(r, 1, p);
    assert r * p <= x < r * p + p;
    Quotient(x, r, p);
  }

  lemma Quotient(x: int, r: int, p: int)
    requires p > 0 && r * p <= x < r * p + p
    ensures x / p == r
  {
    var q := x / p;
    assert q * p <= x < q * p + p;
    if q < r {
      Apart(q, r, p);
    } else if q > r {
      Apart(r, q, p);
    }
  }

  lemma Apart(a: int, b: int, p: int)
    requires a < b && p > 0
    ensures a * p + p <= b * p
  {
    var k := b - a - 1;
    Distribute(a + 1, k, p);
    Distribute(a, 1, p);
  }

  lemma Distribute(a: int, b: int, p: int)
    ensures (a + b) * p == a * p + b * p
  {
  }

  // ---------------------------------------------------------------------- the scheduler

  /** The tasks run so far, in running order. */
  predicate RunOrder(log: seq<Task>) {
    forall i, j :: 0 <= i < j < |log| ==> Before(log[i], log[j])
  }

  /** The queue after a handler reacted to `task`. */
  function PutBackBy(rest: seq<Task>, task: Task, r: Reaction, id: nat, ticket: nat): seq<Task> {
    match r
    case Done => rest
    case Repeat(t) => Inserted(rest, Again(task, t).(ticket := ticket))
    case Spawn(t, g, h) => Inserted(rest, Task(id, task.end, task.end + t, t, g, 0, h, ticket))
  }

  /** One round keeps the running order, even when a handler puts work back without any delay. */
  lemma OrderStep(handlers: Handlers, c: seq<Task>, q: seq<Task>, log: seq<Task>, id: nat, ticket: nat, now: int)
    requires Delays(handlers, 0) && Ordered(q) && Older(q, ticket)
    requires q != [] && q[0].end <= now && Progress(c, q, log, now)
    ensures Progress(c, PutBackBy(q[1..], q[0], handlers(q[0].handler, q[0].repeated), id, ticket), log + [q[0]], now)
  {
    ProgressRun(c, q, log, now);
    var task, r := q[0], handlers(q[0].handler, q[0].repeated);
    assert DelaysBy(r, 0);
    hide Progress, Inserted, Delays, Ordered;
    match r {
      case Done =>
      case Repeat(t) =>
        ProgressPut(c, q[1..], log + [task], now, Again(task, t).(ticket := ticket));
      case Spawn(t, g, h) =>
        ProgressPut(c, q[1..], log + [task], now, Task(id, task.end, task.end + t, t, g, 0, h, ticket));
    }
  }

  /** One round of the dispatch loop: with a delay of at least `d` there is less work left. */
  lemma RunStep(handlers: Handlers, c: seq<Task>, q: seq<Task>, log: seq<Task>, id: nat, ticket: nat, now: int, d: int)
    requires d > 0 && Delays(handlers, d) && Ordered(q) && Older(q, ticket)
    requires q != [] && q[0].end <= now && Progress(c, q, log, now)
    ensures var next := PutBackBy(q[1..], q[0], handlers(q[0].handler, q[0].repeated), id, ticket);
            && Progress(c, next, log + [q[0]], now)
            && Work(next, now, d) < Work(q, now, d)
            && (AllRepeat(handlers, q, now) ==> AllRepeat(handlers, next, now) && SameTasks(q, next))
  {
    DelaysMonotone(handlers, d, 0);
    OrderStep(handlers, c, q, log, id, ticket, now);
    var task, r := q[0], handlers(q[0].handler, q[0].repeated);
    assert DelaysBy(r, d);
    if AllRepeat(handlers, q, now) {
      RepeatStep(handlers, q, ticket, now);
    }
    hide AllRepeat, SameTasks, Progress, Work, Inserted, Delays, Ordered, Older;
    match r {
      case Done =>
        WorkPopped(q, now, d);
      case Repeat(t) =>
        PutBackStep(q, Again(task, t).(ticket := ticket), now, d);
      case Spawn(t, g, h) =>
        PutBackStep(q, Task(id, task.end, task.end + t, t, g, 0, h, ticket), now, d);
    }
  }

  lemma DelaysMonotone(handlers: Handlers, d: int, e: int)
    requires Delays(handlers, d) && e <= d
    ensures Delays(handlers, e)
  {
    forall h, k ensures DelaysBy(handlers(h, k), e) {
      assert DelaysBy(handlers(h, k), d);
    }
  }

  /** Running the first task and putting one back at least `d` later leaves less work. */
  lemma PutBackStep(q: seq<Task>, u: Task, now: int, d: int)
    requires q != [] && d > 0 && q[0].end <= now && u.end >= q[0].end + d
    ensures Work(Inserted(q[1..], u), now, d) < Work(q, now, d)
    ensures forall x :: x in Inserted(q[1..], u) <==> x == u || x in q[1..]
    ensures forall x :: x in q <==> x == q[0] || x in q[1..]
  {
    assert q == [q[0]] + q[1..];
    WorkPopped(q, now, d);
    WorkInserted(q[1..], u, now, d);
    StepsMonotone(now - u.end, now - q[0].end - d, d);
    InsertedMembers(q[1..], u);
  }

  lemma RepeatStep(handlers: Handlers, q: seq<Task>, ticket: nat, now: int)
    requires q != [] && q[0].end <= now && AllRepeat(handlers, q, now)
    ensures handlers(q[0].handler, q[0].repeated) == Repeat(q[0].duration)
    ensures AllRepeat(handlers, Inserted(q[1..], Again(q[0], q[0].duration).(ticket := ticket)), now)
    ensures SameTasks(q, Inserted(q[1..], Again(q[0], q[0].duration).(ticket := ticket)))
  {
    var u := Again(q[0], q[0].duration).(ticket := ticket);
    assert q == [q[0]] + q[1..] && q[0] in q;
    RunAgain(handlers, q[0], now);
    InsertedMembers(q[1..], u);
    forall key ensures Count(Inserted(q[1..], u), key) == Count(q, key) {
      hide *;
      InsertedCount(q[1..], u, key);
      CountConcat([q[0]], q[1..], key);
      CountOne(q[0], key);
    }
    hide Inserted, Place, InPhase, Repeats, Count;
  }

  lemma CountOne(t: Task, key: Key)
    ensures Count([t], key) == if KeyOf(t) == key then 1 else 0
  {
    assert [t][..0] == [];
  }

  /** Where a dispatch stands: what ran, in order, and that nothing got lost. */
  ghost predicate Progress(c: seq<Task>, q: seq<Task>, log: seq<Task>, now: int) {
    && RunOrder(log) && (forall t :: t in log ==> t.end <= now)
    && (log != [] ==> forall t :: t in q ==> Before(log[|log| - 1], t))
    && (forall t :: t in c ==> t in log || t in q)
  }

  lemma NoProgress(c: seq<Task>, now: int)
    ensures Progress(c, c, [], now)
  {
  }

  lemma ProgressRun(c: seq<Task>, q: seq<Task>, log: seq<Task>, now: int)
    requires Progress(c, q, log, now) && q != [] && Ordered(q) && q[0].end <= now
    ensures Progress(c, q[1..], log + [q[0]], now)
  {
    assert q == [q[0]] + q[1..] && q[0] in q;
    var r := log + [q[0]];
    forall i, j | 0 <= i < j < |r| ensures Before(r[i], r[j]) {
      if j == |log| && i < j - 1 {
        assert Before(log[i], log[j - 1]);
      }
    }
  }

  lemma ProgressPut(c: seq<Task>, q: seq<Task>, log: seq<Task>, now: int, u: Task)
    requires Progress(c, q, log, now) && log != [] && Before(log[|log| - 1], u)
    ensures Progress(c, Inserted(q, u), log, now)
  {
    InsertedMembers(q, u);
  }

  // ------------------------------------------------------------------- rounds of a dispatch

  /** The queue, and the numbers the next new task and the next insertion get. */
  datatype State = State(queue: seq<Task>, ids: nat, tickets: nat)

  predicate Due(st: State, now: int) {
    st.queue != [] && st.queue[0].end <= now
  }

  function Reacts(handlers: Handlers, task: Task): Reaction {
    handlers(task.handler, task.repeated)
  }

  /** One round: the first task leaves the queue, and its handler may put work back. */
  function Round(handlers: Handlers, st: State): State
    requires st.queue != []
  {
    var task, r := st.queue[0], Reacts(handlers, st.queue[0]);
    State(PutBackBy(st.queue[1..], task, r, st.ids, st.tickets),
          st.ids + (if r.Spawn? then 1 else 0), st.tickets + (if r.Done? then 0 else 1))
  }

  /** At most `n` rounds, as long as something is due, and the tasks they run. */
  function Rounds(handlers: Handlers, st: State, now: int, n: nat): State
    decreases n
  {
    if n == 0 || !Due(st, now) then st else Rounds(handlers, Round(handlers, st), now, n - 1)
  }

  function Ran(handlers: Handlers, st: State, now: int, n: nat): seq<Task>
    decreases n
  {
    if n == 0 || !Due(st, now) then [] else [st.queue[0]] + Ran(handlers, Round(handlers, st), now, n - 1)
  }

  /** The dispatch is over after `n` rounds. */
  predicate Ends(handlers: Handlers, st: State, now: int, n: nat) {
    !Due(Rounds(handlers, st, now, n), now)
  }

  ghost predicate Sound(st: State) {
    Ordered(st.queue) && Older(st.queue, st.tickets)
  }

  lemma RoundSound(handlers: Handlers, st: State)
    requires Sound(st) && st.queue != []
    ensures Sound(Round(handlers, st))
  {
    hide Older, Inserted;
    var q, task := st.queue[1..], st.queue[0];
    RestSound(st);
    hide Ordered;
    match Reacts(handlers, task) {
      case Done =>
      case Repeat(t) => InsertedIsOrdered(q, Again(task, t).(ticket := st.tickets));
      case Spawn(t, g, h) => InsertedIsOrdered(q, Task(st.ids, task.end, task.end + t, t, g, 0, h, st.tickets));
    }
  }

  lemma RestSound(st: State)
    requires Sound(st) && st.queue != []
    ensures Ordered(st.queue[1..]) && Older(st.queue[1..], st.tickets)
  {
  }

  lemma RoundsAre(handlers: Handlers, st: State, now: int, n: nat, log: seq<Task>)
    requires n > 0 && Due(st, now)
    ensures Rounds(handlers, st, now, n) == Rounds(handlers, Round(handlers, st), now, n - 1)
    ensures log + Ran(handlers, st, now, n) == log + [st.queue[0]] + Ran(handlers, Round(handlers, st), now, n - 1)
  {
    hide Round;
    assert log + ([st.queue[0]] + Ran(handlers, Round(handlers, st), now, n - 1))
        == log + [st.queue[0]] + Ran(handlers, Round(handlers, st), now, n - 1);
  }

  lemma RoundsStep(handlers: Handlers, st: State, now: int, n: nat, log: seq<Task>)
    requires Due(st, now) && Ends(handlers, st, now, n)
    ensures n > 0 && Ends(handlers, Round(handlers, st), now, n - 1)
    ensures Rounds(handlers, st, now, n) == Rounds(handlers, Round(handlers, st), now, n - 1)
    ensures log + Ran(handlers, st, now, n) == log + [st.queue[0]] + Ran(handlers, Round(handlers, st), now, n - 1)
  {
    RoundsAre(handlers, st, now, if n > 0 then n else 1, log);
  }

  /** Any number of rounds, with handlers that put work back at or after the end of the task that ran:
      tasks run in order, and none is lost. */
  lemma {:induction false} RoundsOrder(handlers: Handlers, c: seq<Task>, st: State, log: seq<Task>, now: int, n: nat)
    requires Delays(handlers, 0) && Sound(st) && Progress(c, st.queue, log, now)
    ensures Sound(Rounds(handlers, st, now, n))
    ensures Progress(c, Rounds(handlers, st, now, n).queue, log + Ran(handlers, st, now, n), now)
    decreases n
  {
    if n == 0 || !Due(st, now) {
      assert log + [] == log;
    } else {
      var next := Round(handlers, st);
      OrderStep(handlers, c, st.queue, log, st.ids, st.tickets, now);
      RoundSound(handlers, st);
      hide *;
      RoundsOrder(handlers, c, next, log + [st.queue[0]], now, n - 1);
      RoundsAre(handlers, st, now, n, log);
    }
  }

  predicate NoneDue(s: seq<Task>, now: int) {
    forall t :: t in s ==> t.end > now
  }

  /** Nothing due is left, the tasks ran in order of end time (first inserted first on ties), and every
      task queued before ran if it was due and is still queued if not. */
  ghost predicate Dispatched(before: seq<Task>, after: seq<Task>, log: seq<Task>, now: int) {
    && NoneDue(after, now)
    && RunOrder(log) && (forall t :: t in log ==> t.end <= now)
    && (forall t :: t in before ==> if t.end <= now then t in log else t in after)
  }

  /** A dispatch that is over keeps the order, with handlers that delay or do not. */
  lemma DispatchOrder(handlers: Handlers, st: State, now: int, n: nat)
    requires Delays(handlers, 0) && Sound(st) && Ends(handlers, st, now, n)
    ensures Dispatched(st.queue, Rounds(handlers, st, now, n).queue, Ran(handlers, st, now, n), now)
  {
    NoProgress(st.queue, now);
    RoundsOrder(handlers, st.queue, st, [], now, n);
    var q, log := Rounds(handlers, st, now, n).queue, Ran(handlers, st, now, n);
    assert [] + log == log;
    hide Delays, Progress, Rounds, Ran;
  }

  lemma RoundsOver(handlers: Handlers, st: State, rounds: nat, cur: State, left: nat, log: seq<Task>, now: int)
    requires Delays(handlers, 0) && Sound(st) && Ends(handlers, st, now, rounds) && !Due(cur, now)
    requires Rounds(handlers, cur, now, left) == Rounds(handlers, st, now, rounds)
    requires log + Ran(handlers, cur, now, left) == Ran(handlers, st, now, rounds)
    ensures cur == Rounds(handlers, st, now, rounds) && log == Ran(handlers, st, now, rounds)
    ensures Dispatched(st.queue, cur.queue, log, now)
  {
    assert log + [] == log;
    DispatchOrder(handlers, st, now, rounds);
  }

  /** With a delay of at least `d` > 0 there are no more rounds than there is work. */
  lemma {:induction false} DelayEnds(handlers: Handlers, st: State, now: int, d: int)
    requires d > 0 && Delays(handlers, d) && Sound(st)
    ensures Ends(handlers, st, now, Work(st.queue, now, d))
    decreases Work(st.queue, now, d)
  {
    if Due(st, now) {
      var next, work := Round(handlers, st), Work(st.queue, now, d);
      LessWork(handlers, st, now, d);
      RoundSound(handlers, st);
      hide Delays, Sound, Work, Round;
      DelayEnds(handlers, next, now, d);
      MoreRounds(handlers, next, now, Work(next.queue, now, d), work - 1);
    }
  }

  lemma {:induction false} MoreRounds(handlers: Handlers, st: State, now: int, n: nat, m: nat)
    requires Ends(handlers, st, now, n) && n <= m
    ensures Ends(handlers, st, now, m) && Rounds(handlers, st, now, m) == Rounds(handlers, st, now, n)
    decreases n
  {
    if Due(st, now) {
      hide Round;
      MoreRounds(handlers, Round(handlers, st), now, n - 1, m - 1);
    }
  }

  lemma LessWork(handlers: Handlers, st: State, now: int, d: int)
    requires d > 0 && Delays(handlers, d) && Sound(st) && Due(st, now)
    ensures Work(Round(handlers, st).queue, now, d) < Work(st.queue, now, d)
  {
    NoProgress(st.queue, now);
    hide Work, Progress, Delays;
    RunStep(handlers, st.queue, st.queue, [], st.ids, st.tickets, now, d);
  }

  /** A due task whose handler always repeats it without any delay. */
  ghost predicate Spins(handlers: Handlers, s: seq<Task>, now: int) {
    exists u :: u in s && u.end <= now && forall k :: handlers(u.handler, k) == Repeat(0)
  }

  /** With such a task the dispatch never ends, whatever else is queued. */
  lemma {:induction false} SpinningNeverEnds(handlers: Handlers, st: State, now: int, n: nat)
    requires Sound(st) && Spins(handlers, st.queue, now)
    ensures !Ends(handlers, st, now, n)
    decreases n
  {
    hide Sound, Spins, Round;
    FirstIsDue(handlers, st, now);
    if n > 0 {
      RoundSpins(handlers, st, now);
      RoundSound(handlers, st);
      SpinningNeverEnds(handlers, Round(handlers, st), now, n - 1);
    }
  }

  lemma FirstIsDue(handlers: Handlers, st: State, now: int)
    requires Sound(st) && Spins(handlers, st.queue, now)
    ensures Due(st, now)
  {
    var u :| u in st.queue && u.end <= now;
    var i :| 0 <= i < |st.queue| && st.queue[i] == u;
    assert i == 0 || Before(st.queue[0], st.queue[i]);
  }

  /** The others stay queued, and so does the task that ran when it repeats itself. */
  lemma RoundMembers(handlers: Handlers, st: State, u: Task)
    requires st.queue != [] && u in st.queue
    ensures u == st.queue[0] || u in Round(handlers, st).queue
    ensures Reacts(handlers, u).Repeat? && u == st.queue[0] ==>
              Again(u, Reacts(handlers, u).duration).(ticket := st.tickets) in Round(handlers, st).queue
  {
    hide Inserted;
    var q, task := st.queue[1..], st.queue[0];
    assert st.queue == [task] + q;
    match Reacts(handlers, task) {
      case Done =>
      case Repeat(d) => InsertedMembers(q, Again(task, d).(ticket := st.tickets));
      case Spawn(d, g, h) => InsertedMembers(q, Task(st.ids, task.end, task.end + d, d, g, 0, h, st.tickets));
    }
  }

  lemma RoundSpins(handlers: Handlers, st: State, now: int)
    requires Due(st, now) && Spins(handlers, st.queue, now)
    ensures Spins(handlers, Round(handlers, st).queue, now)
  {
    hide Round;
    var u :| u in st.queue && u.end <= now && forall k :: handlers(u.handler, k) == Repeat(0);
    RoundMembers(handlers, st, u);
    var v := if u == st.queue[0] then Again(u, 0).(ticket := st.tickets) else u;
    assert v in Round(handlers, st).queue;
  }

  // ------------------------------------------------------- one repeating task among others

  /** `u` is task `t`, repeating itself in phase and not overdue by a whole period. */
  ghost predicate Continues(handlers: Handlers, u: Task, t: Task, now: int) {
    KeyOf(u) == KeyOf(t) && Repeats(handlers, u) && InPhase(u) && u.end - u.duration <= now
  }

  /** Task `t` lives on in the queue. */
  ghost predicate Alive(handlers: Handlers, s: seq<Task>, t: Task, now: int) {
    exists u :: u in s && Continues(handlers, u, t, now)
  }

  /** A round keeps every such task alive, whatever the others do. */
  lemma RoundAlive(handlers: Handlers, st: State, t: Task, now: int)
    requires Due(st, now) && Alive(handlers, st.queue, t, now)
    ensures Alive(handlers, Round(handlers, st).queue, t, now)
  {
    hide Round;
    var u :| u in st.queue && Continues(handlers, u, t, now);
    RoundMembers(handlers, st, u);
    if u == st.queue[0] {
      RunAgain(handlers, u, now);
      hide Repeats, InPhase;
      var v := Again(u, u.duration).(ticket := st.tickets);
      assert v in Round(handlers, st).queue && Continues(handlers, v, t, now);
    }
  }

  lemma {:induction false} RoundsAlive(handlers: Handlers, st: State, t: Task, now: int, n: nat)
    requires Alive(handlers, st.queue, t, now)
    ensures Alive(handlers, Rounds(handlers, st, now, n).queue, t, now)
    decreases n
  {
    if n > 0 && Due(st, now) {
      RoundAlive(handlers, st, t, now);
      hide Round, Alive;
      RoundsAlive(handlers, Round(handlers, st), t, now, n - 1);
    }
  }

  lemma AliveLater(handlers: Handlers, s: seq<Task>, t: Task, now: int, later: int)
    requires Alive(handlers, s, t, now) && now <= later
    ensures Alive(handlers, s, t, later)
  {
    var u :| u in s && Continues(handlers, u, t, now);
    assert Continues(handlers, u, t, later);
  }

  /** It has run once per full period since it was scheduled. */
  ghost predicate OncePerPeriod(s: seq<Task>, t: Task, now: int)
    requires t.duration > 0
  {
    exists u :: u in s && KeyOf(u) == KeyOf(t) && u.repeated == (now - t.start) / t.duration
  }

  lemma AliveRuns(handlers: Handlers, s: seq<Task>, t: Task, now: int)
    requires t.duration > 0 && Alive(handlers, s, t, now) && NoneDue(s, now)
    ensures OncePerPeriod(s, t, now)
  {
    var u :| u in s && Continues(handlers, u, t, now);
    RanOncePerPeriod(u, now);
  }

  /** When all queued tasks repeat themselves, a dispatch neither loses nor adds any. */
  lemma {:induction false} RoundsRepeat(handlers: Handlers, st: State, now: int, n: nat)
    requires AllRepeat(handlers, st.queue, now)
    ensures AllRepeat(handlers, Rounds(handlers, st, now, n).queue, now)
    ensures SameTasks(st.queue, Rounds(handlers, st, now, n).queue)
    decreases n
  {
    hide AllRepeat, Inserted, Count;
    if n > 0 && Due(st, now) {
      RepeatStep(handlers, st.queue, st.tickets, now);
      assert Round(handlers, st).queue == Inserted(st.queue[1..], Again(st.queue[0], st.queue[0].duration).(ticket := st.tickets));
      hide Round;
      RoundsRepeat(handlers, Round(handlers, st), now, n - 1);
    }
  }

  class TaskScheduler {
    const handlers: Handlers
    const queue: TaskQueue
    var now: int
    var ids: nat

    constructor (handlers: Handlers, now: int)
      ensures this.handlers == handlers && this.now == now && fresh(queue)
      ensures queue.Valid() && queue.container == []
    {
      this.handlers, this.now, ids := handlers, now, 0;
      queue := new TaskQueue();
    }

    ghost function Now(): State
      reads this, queue
    {
      State(queue.container, ids, queue.tickets)
    }

    method ScheduleAt(end: int, time: int, group: Option<int>, handler: int)
      requires queue.Valid()
      modifies this`ids, queue
      ensures queue.Valid() && queue.tickets == old(queue.tickets) + 1 && ids == old(ids) + 1
      ensures queue.container == Inserted(old(queue.container),
                Task(old(ids), end, end + time, time, group, 0, handler, old(queue.tickets)))
    {
      queue.Push(Task(ids, end, end + time, time, group, 0, handler, 0));
      ids := ids + 1;
    }

    /** Runs a task: the handler may repeat it or schedule another one, counted from its end time. */
    method Invoke(task: Task)
      requires queue.Valid()
      modifies this`ids, queue
      ensures queue.Valid()
      ensures queue.container ==
              PutBackBy(old(queue.container), task, Reacts(handlers, task), old(ids), old(queue.tickets))
      ensures queue.tickets == old(queue.tickets) + if Reacts(handlers, task).Done? then 0 else 1
      ensures ids == old(ids) + if Reacts(handlers, task).Spawn? then 1 else 0
      ensures match handlers(task.handler, task.repeated)
              case Done => queue.container == old(queue.container)
              case Repeat(d) =>
                queue.container == Inserted(old(queue.container),
                  Task(task.id, task.start, task.end + d, d, task.group, task.repeated + 1, task.handler, old(queue.tickets)))
              case Spawn(d, g, h) =>
                queue.container == Inserted(old(queue.container), Task(old(ids), task.end, task.end + d, d, g, 0, h, old(queue.tickets)))
    {
      hide Inserted, Ordered, Older;
      match handlers(task.handler, task.repeated)
      case Done =>
      case Repeat(t) =>
        queue.Push(Again(task, t));
      case Spawn(t, g, h) =>
        ScheduleAt(task.end, t, g, h);
    }

    /** Takes the first task and runs it. */
    method RunFirst()
      requires queue.Valid() && queue.container != []
      modifies this`ids, queue
      ensures queue.Valid() && Now() == Round(handlers, old(Now()))
    {
      hide Ordered, Older, PutBackBy;
      var task := queue.Pop();
      Invoke(task);
    }

    /** Runs everything that is due.  Nothing due is left, tasks run in order of end time (the
        one inserted first on ties), also those the handlers put back, with or without a delay, and
        no task is lost.  It is called where it ends: after `rounds` rounds, however many. */
    method Dispatch(ghost rounds: nat) returns (ghost log: seq<Task>)
      requires queue.Valid() && Delays(handlers, 0) && Ends(handlers, Now(), now, rounds)
      modifies this`ids, queue
      ensures queue.Valid()
      ensures Now() == Rounds(handlers, old(Now()), now, rounds) && log == Ran(handlers, old(Now()), now, rounds)
      ensures Dispatched(old(queue.container), queue.container, log, now)
    {
      hide Delays, Ordered, Older, Round, Dispatched, Rounds, Ran, Ends;
      ghost var st, cur, left := Now(), Now(), rounds;
      log := [];
      assert [] + Ran(handlers, st, now, rounds) == Ran(handlers, st, now, rounds);
      assert Sound(st);
      while queue.container != [] && queue.container[0].end <= now
        invariant queue.Valid() && cur == Now() && Ends(handlers, cur, now, left)
        invariant Rounds(handlers, cur, now, left) == Rounds(handlers, st, now, rounds)
        invariant log + Ran(handlers, cur, now, left) == Ran(handlers, st, now, rounds)
        decreases left
      {
        RoundsStep(handlers, cur, now, left, log);
        log := log + [queue.container[0]];
        RunFirst();
        cur, left := Round(handlers, cur), left - 1;
      }
      RoundsOver(handlers, st, rounds, cur, left, log, now);
    }

    method Update(difftime: nat, ghost rounds: nat) returns (ghost log: seq<Task>)
      requires queue.Valid() && Delays(handlers, 0) && Ends(handlers, Now(), now + difftime, rounds)
      modifies this`now, this`ids, queue
      ensures queue.Valid() && now == old(now) + difftime
      ensures Now() == Rounds(handlers, old(Now()), now, rounds) && log == Ran(handlers, old(Now()), now, rounds)
      ensures Dispatched(old(queue.container), queue.container, log, now)
    {
      now := now + difftime;
      log := Dispatch(rounds);
    }

    /** Any sequence of updates: a task that repeats itself has run once per full period of the time
        that passed, however that time is cut into updates and whatever else is queued. */
    method RunFor(diffs: seq<nat>, ghost d: int)
      requires queue.Valid() && d > 0 && Delays(handlers, d)
      requires NoneDue(queue.container, now)
      modifies this`now, this`ids, queue
      ensures queue.Valid() && now == old(now) + Total(diffs)
      ensures KeptTime(handlers, old(queue.container), old(now), queue.container, now)
    {
      hide Delays, Ordered, Older, Alive, AllRepeat, SameTasks, LivesOn, Rounds, Ran, Ends, Work, KeptTime, NoneDue, RunOrder;
      ghost var c, now0 := queue.container, now;
      DelaysMonotone(handlers, d, 0);
      LivesOnFirst(handlers, c, now);
      for i := 0 to |diffs|
        invariant queue.Valid() && now == now0 + Total(diffs[..i]) && now >= now0
        invariant LivesOn(handlers, c, now0, queue.container, now)
        invariant NoneDue(queue.container, now)
      {
        assert diffs[..i + 1][..i] == diffs[..i];
        ghost var st, later := Now(), now + diffs[i];
        ghost var rounds := Work(st.queue, later, d);
        UpdateEnds(handlers, st, c, now0, now, later, d);
        ghost var log := Update(diffs[i], rounds);
      }
      assert diffs[..|diffs|] == diffs;
      LivedOn(handlers, c, now0, queue.container, now);
    }
  }

  /** What an update keeps, from the queue `c` at time `now0` on: the tasks that repeat themselves live
      on, and when all did there are no others. */
  ghost predicate LivesOn(handlers: Handlers, c: seq<Task>, now0: int, s: seq<Task>, now: int) {
    && (forall t :: t in c && Alive(handlers, [t], t, now0) ==> Alive(handlers, s, t, now))
    && (AllRepeat(handlers, c, now0) ==> AllRepeat(handlers, s, now) && SameTasks(c, s))
  }

  /** Each task of `c` that repeated itself at time `now0` has run once per full period of its own since
      it was scheduled; when all tasks did, the queue holds the same tasks. */
  ghost predicate KeptTime(handlers: Handlers, c: seq<Task>, now0: int, s: seq<Task>, now: int) {
    && (forall t: Task :: t.duration > 0 && t in c && Alive(handlers, [t], t, now0) ==> OncePerPeriod(s, t, now))
    && (AllRepeat(handlers, c, now0) ==> SameTasks(c, s))
  }

  lemma LivesOnBy(handlers: Handlers, st: State, c: seq<Task>, now0: int, now: int, later: int, rounds: nat)
    requires now <= later && LivesOn(handlers, c, now0, st.queue, now)
    ensures LivesOn(handlers, c, now0, Rounds(handlers, st, later, rounds).queue, later)
  {
    hide Alive, AllRepeat, Count, Rounds;
    forall t | t in c && Alive(handlers, [t], t, now0)
      ensures Alive(handlers, Rounds(handlers, st, later, rounds).queue, t, later) {
      AliveLater(handlers, st.queue, t, now, later);
      RoundsAlive(handlers, st, t, later, rounds);
    }
    if AllRepeat(handlers, c, now0) {
      RepeatLater(handlers, st.queue, now, later);
      RoundsRepeat(handlers, st, later, rounds);
    }
  }

  lemma UpdateEnds(handlers: Handlers, st: State, c: seq<Task>, now0: int, now: int, later: int, d: int)
    requires d > 0 && Delays(handlers, d) && Sound(st) && now <= later && LivesOn(handlers, c, now0, st.queue, now)
    ensures Ends(handlers, st, later, Work(st.queue, later, d))
    ensures LivesOn(handlers, c, now0, Rounds(handlers, st, later, Work(st.queue, later, d)).queue, later)
  {
    DelayEnds(handlers, st, later, d);
    LivesOnBy(handlers, st, c, now0, now, later, Work(st.queue, later, d));
  }

  lemma LivesOnFirst(handlers: Handlers, c: seq<Task>, now: int)
    ensures LivesOn(handlers, c, now, c, now)
  {
    forall t | t in c && Alive(handlers, [t], t, now) ensures Alive(handlers, c, t, now) {
      var u :| u in [t] && Continues(handlers, u, t, now);
      assert u in c;
    }
  }

  lemma LivedOn(handlers: Handlers, c: seq<Task>, now0: int, s: seq<Task>, now: int)
    requires LivesOn(handlers, c, now0, s, now) && NoneDue(s, now)
    ensures KeptTime(handlers, c, now0, s, now)
  {
    hide Alive, AllRepeat, Count, OncePerPeriod;
    forall t: Task | t.duration > 0 && t in c && Alive(handlers, [t], t, now0) ensures OncePerPeriod(s, t, now) {
      AliveRuns(handlers, s, t, now);
    }
  }

  lemma RepeatLater(handlers: Handlers, s: seq<Task>, now: int, later: int)
    requires AllRepeat(handlers, s, now) && now <= later
    ensures AllRepeat(handlers, s, later)
  {
  }

  function Total(diffs: seq<nat>): nat {
    if diffs == [] then 0 else Total(diffs[..|diffs| - 1]) + diffs[|diffs| - 1]
  }

  const MATCH_PERIOD: int := 500
  const MATCH_HANDLER: int := 0

  /** `PlayerMatch::DoMatch`: the matching round is scheduled every 500 ms and repeats itself;
      after any updates it has run once per 500 ms passed. */
  method DoMatch(diffs: seq<nat>) returns (rounds: int)
    ensures rounds == Total(diffs) / 500
  {
    var handlers: Handlers := (h, k) => Repeat(MATCH_PERIOD);
    var scheduler := new TaskScheduler(handlers, 0);
    scheduler.ScheduleAt(0, MATCH_PERIOD, None, MATCH_HANDLER);
    ghost var c := scheduler.queue.container;
    assert |c| == 1 && c[..0] == [];
    assert Continues(handlers, c[0], c[0], 0) && c[0] in [c[0]];
    scheduler.RunFor(diffs, MATCH_PERIOD);
    OnlyTask(c, scheduler.queue.container);
    assert c[0] in c;
    assert OncePerPeriod(scheduler.queue.container, c[0], scheduler.now);
    rounds := scheduler.queue.container[0].repeated;
  }

  lemma OnlyTask(a: seq<Task>, b: seq<Task>)
    requires |a| == 1 && SameTasks(a, b)
    ensures |b| == 1
  {
    assert a == [a[0]];
    CountOne(a[0], KeyOf(a[0]));
    if |b| >= 2 {
      CountOne(a[0], KeyOf(b[0]));
      CountOne(a[0], KeyOf(b[1]));
      assert b == [b[0]] + ([b[1]] + b[2..]);
      CountConcat([b[0]], [b[1]] + b[2..], KeyOf(b[0]));
      CountConcat([b[1]], b[2..], KeyOf(b[0]));
      CountConcat([b[0]], [b[1]] + b[2..], KeyOf(b[1]));
      CountConcat([b[1]], b[2..], KeyOf(b[1]));
      CountOne(b[0], KeyOf(b[0]));
      CountOne(b[1], KeyOf(b[1]));
    }
    assert Count(b, KeyOf(a[0])) == 1;
  }
}
