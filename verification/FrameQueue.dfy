/** Length-prefixed frames over a socket that may take any part of a write: the send queue of
    NetWork/Socket.h and the receive loop of CenterServer/WorldSession.cpp. */
module FrameQueue {
  import Codec = ByteBuffer

  type byte = Codec.byte

  const MAX_DATA_SIZE: nat := 65536

  // ------------------------------------------------------------------------------ frames

  /** Two bytes of length, the high one first, and the body. */
  function Frame(body: seq<byte>): (f: seq<byte>)
    requires |body| < 65536
    ensures |f| == |body| + 2 && f[2..] == body && f[0] as int * 256 + f[1] as int == |body|
  {
    [|body| / 256, |body| % 256] + body
  }

  function Flat(frames: seq<seq<byte>>): seq<byte> {
    if frames == [] then [] else frames[0] + Flat(frames[1..])
  }

  lemma {:induction false} FlatAppend(frames: seq<seq<byte>>, last: seq<byte>)
    ensures Flat(frames + [last]) == Flat(frames) + last
  {
    if frames == [] {
      assert [last][1..] == [] && [] + last == last + [];
    } else {
      assert (frames + [last])[1..] == frames[1..] + [last];
      FlatAppend(frames[1..], last);
    }
  }

  /** What `EnterQueue` queues: the size is kept in sixteen bits, so the body is cut to the size
      modulo 65536, and nothing is queued when that is zero. */
  function Queued(content: seq<byte>): (frames: seq<seq<byte>>)
    ensures |frames| <= 1
  {
    var size := |content| % 65536;
    if size == 0 then [] else [Frame(content[..size])]
  }

  // --------------------------------------------------------------------------- the link

  /** What is on the wire, what is queued, the flag of a pending write notification, a requested
      close, and whether the socket is open. */
  datatype Link = Link(wire: seq<byte>, queue: seq<seq<byte>>, writing: bool, closing: bool, open: bool)

  /** The result of one `write_some`: would block, or the bytes it took (at most those offered). */
  datatype Write = WouldBlock | Sent(count: nat)

  function Taken(w: Write, frame: seq<byte>): (n: nat)
    requires w.Sent?
    ensures n <= |frame|
  {
    if w.count < |frame| then w.count else |frame|
  }

  function Popped(l: Link, wire: seq<byte>): Link
    requires l.queue != []
  {
    Link(wire, l.queue[1..], l.writing, l.closing, l.open && !(l.closing && |l.queue| == 1))
  }

  predicate CanWrite(l: Link) {
    l.open && l.queue != [] && 0 < |l.queue[0]| < MAX_DATA_SIZE
  }

  /** `HandleQueue`: the link after one write, and whether the loop goes on. */
  function Handle(l: Link, w: Write): (Link, bool) {
    if !CanWrite(l) then (l, false)
    else if w.WouldBlock? then (l.(writing := true), false)
    else
      var n := Taken(w, l.queue[0]);
      if n == 0 then (Popped(l, l.wire), false)
      else if n < |l.queue[0]| then
        (l.(wire := l.wire + l.queue[0][..n], queue := [l.queue[0][n..]] + l.queue[1..], writing := true), false)
      else (Popped(l, l.wire + l.queue[0]), |l.queue| > 1)
  }

  /** What one write does.  Nothing, when the socket is closed, nothing is queued, or the front frame is empty
      or too long.  A write that would block asks for a notification, and so does one that takes part of the
      front frame; those bytes go to the wire and the rest stays in front.  A frame taken whole leaves for the
      wire, and only then the loop goes on, while frames are left; one of which nothing is taken just leaves.
      The socket closes exactly when that empties the queue of a socket that is to be closed. */
  lemma HandleMeans(l: Link, w: Write)
    ensures var (m, again) := Handle(l, w);
            if !l.open || l.queue == [] || l.queue[0] == [] || |l.queue[0]| >= 65536 then m == l && !again
            else if w.WouldBlock? then m == Link(l.wire, l.queue, true, l.closing, true) && !again
            else if 0 < w.count < |l.queue[0]| then
              && m == Link(m.wire, m.queue, true, l.closing, true) && !again
              && m.wire == l.wire + l.queue[0][..w.count] && |m.queue| == |l.queue|
              && l.queue[0] == l.queue[0][..w.count] + m.queue[0] && m.queue[1..] == l.queue[1..]
            else
              && m == Link(if w.count == 0 then l.wire else l.wire + l.queue[0], l.queue[1..], l.writing, l.closing,
                           !l.closing || |l.queue| > 1)
              && (again <==> w.count > 0 && |l.queue| > 1)
  {
  }

  /** Bytes that leave the queue without reaching the wire: a write of no bytes drops the frame. */
  function Dropped(l: Link, w: Write): nat {
    if CanWrite(l) && w.Sent? && Taken(w, l.queue[0]) == 0 then |l.queue[0]| else 0
  }

  // -------------------------------------------------------------------------------- runs

  /** A message entered, a write tried, or the notification that writing is possible again. */
  datatype Step = Enter(content: seq<byte>) | Try(write: Write) | Wake(write: Write)

  function Apply(l: Link, s: Step): Link {
    match s
    case Enter(content) => l.(queue := l.queue + Queued(content))
    case Try(w) => Handle(l, w).0
    case Wake(w) => Handle(l.(writing := false), w).0
  }

  function Run(l: Link, steps: seq<Step>): Link
    decreases |steps|
  {
    if steps == [] then l else Run(Apply(l, steps[0]), steps[1..])
  }

  /** The frames entered along a run, in order. */
  function Entered(steps: seq<Step>): seq<seq<byte>> {
    if steps == [] then []
    else (if steps[0].Enter? then Queued(steps[0].content) else []) + Entered(steps[1..])
  }

  function DroppedBy(l: Link, s: Step): nat {
    match s
    case Enter(_) => 0
    case Try(w) => Dropped(l, w)
    case Wake(w) => Dropped(l.(writing := false), w)
  }

  function AllDropped(l: Link, steps: seq<Step>): nat
    decreases |steps|
  {
    if steps == [] then 0 else DroppedBy(l, steps[0]) + AllDropped(Apply(l, steps[0]), steps[1..])
  }

  /** Bytes written followed by bytes queued. */
  function Stream(l: Link): seq<byte> {
    l.wire + Flat(l.queue)
  }

  lemma EnterStream(l: Link, content: seq<byte>)
    ensures Stream(Apply(l, Enter(content))) == Stream(l) + Flat(Queued(content))
  {
    var frames := Queued(content);
    if frames == [] {
      assert l.queue + [] == l.queue;
      assert Stream(l) + [] == Stream(l);
    } else {
      FlatAppend(l.queue, frames[0]);
      assert frames == [] + [frames[0]];
      FlatAppend([], frames[0]);
      assert [] + frames[0] == frames[0];
      assert l.wire + (Flat(l.queue) + frames[0]) == Stream(l) + frames[0];
    }
  }

  /** One write moves bytes from the front of the queue to the end of the wire, or drops a frame. */
  lemma HandleStream(l: Link, w: Write)
    ensures var m := Handle(l, w).0;
            && |Stream(m)| == |Stream(l)| - Dropped(l, w)
            && (Dropped(l, w) == 0 ==> Stream(m) == Stream(l))
  {
    if CanWrite(l) && w.Sent? {
      var front, rest, n := l.queue[0], l.queue[1..], Taken(w, l.queue[0]);
      assert Flat(l.queue) == front + Flat(rest);
      if 0 < n < |front| {
        assert ([front[n..]] + rest)[1..] == rest;
        assert l.wire + front[..n] + (front[n..] + Flat(rest)) == l.wire + (front[..n] + front[n..]) + Flat(rest);
        assert front[..n] + front[n..] == front;
        assert l.wire + front + Flat(rest) == l.wire + (front + Flat(rest));
      } else if n == |front| {
        assert l.wire + front + Flat(rest) == l.wire + (front + Flat(rest));
      }
    }
  }

  lemma StepStream(l: Link, s: Step)
    ensures |Stream(Apply(l, s))| == |Stream(l)| + |Flat(Entered([s]))| - DroppedBy(l, s)
    ensures DroppedBy(l, s) == 0 ==> Stream(Apply(l, s)) == Stream(l) + Flat(Entered([s]))
  {
    assert [s][1..] == [];
    assert Entered([s]) == if s.Enter? then Queued(s.content) else [] by {
      if s.Enter? {
        assert Queued(s.content) + [] == Queued(s.content);
      }
    }
    hide Entered, Flat, Handle, Dropped, Queued;
    assert Stream(l) + [] == Stream(l);
    match s {
      case Enter(content) => EnterStream(l, content);
      case Try(w) => HandleStream(l, w);
      case Wake(w) => HandleStream(l.(writing := false), w);
    }
  }

  lemma {:induction false} FlatJoin(a: seq<seq<byte>>, b: seq<seq<byte>>)
    ensures Flat(a + b) == Flat(a) + Flat(b)
  {
    if a == [] {
      assert a + b == b && Flat(a) + Flat(b) == Flat(b);
    } else {
      assert (a + b)[1..] == a[1..] + b;
      FlatJoin(a[1..], b);
      assert a[0] + (Flat(a[1..]) + Flat(b)) == a[0] + Flat(a[1..]) + Flat(b);
    }
  }

  lemma {:induction false} RunStream(l: Link, steps: seq<Step>)
    ensures |Stream(Run(l, steps))| == |Stream(l)| + |Flat(Entered(steps))| - AllDropped(l, steps)
    ensures AllDropped(l, steps) == 0 ==> Stream(Run(l, steps)) == Stream(l) + Flat(Entered(steps))
    decreases |steps|
  {
    if steps == [] {
      assert Stream(l) + [] == Stream(l);
    } else {
      hide Stream, Flat, Apply, Entered, DroppedBy;
      var s, rest := steps[0], steps[1..];
      StepStream(l, s);
      RunStream(Apply(l, s), rest);
      EnteredStep(s, rest);
      assert [s] + rest == steps;
      FlatJoin(Entered([s]), Entered(rest));
    }
  }

  lemma EnteredStep(s: Step, rest: seq<Step>)
    ensures Entered([s] + rest) == Entered([s]) + Entered(rest)
  {
    assert ([s] + rest)[1..] == rest && [s][1..] == [];
    var first := if s.Enter? then Queued(s.content) else [];
    assert first + [] == first;
  }

  const FRESH: Link := Link([], [], false, false, true)

  /** Whatever the writes did: the bytes on the wire followed by those queued are the frames entered, in
      order, exactly when no write took zero bytes. */
  lemma WireAndQueue(steps: seq<Step>)
    ensures Stream(Run(FRESH, steps)) == Flat(Entered(steps)) <==> AllDropped(FRESH, steps) == 0
  {
    RunStream(FRESH, steps);
    assert [] + Flat(Entered(steps)) == Flat(Entered(steps));
  }

  /** One message and a write of no bytes: the message is gone. */
  lemma ZeroWriteLosesMessage(body: seq<byte>)
    requires 1 <= |body| <= 65533
    ensures var steps := [Enter(body), Try(Sent(0))];
            Stream(Run(FRESH, steps)) == [] && Flat(Entered(steps)) == Frame(body)
  {
    var steps := [Enter(body), Try(Sent(0))];
    assert body[..|body|] == body;
    assert steps[1..] == [Try(Sent(0))] && steps[1..][1..] == [];
    assert Queued(body) == [Frame(body)] && [Frame(body)] + [] == [Frame(body)];
    assert Entered(steps[1..][1..]) == [] && Entered(steps[1..]) == [] + [];
    assert Entered(steps) == Queued(body) + Entered(steps[1..]);
    assert [Frame(body)][1..] == [] && Frame(body) + [] == Frame(body);
    var l := Apply(FRESH, steps[0]);
    assert l.queue == [Frame(body)] && l.queue[1..] == [];
    assert Run(l, steps[1..]) == Apply(l, Try(Sent(0)));
  }

  /** A frame of 65536 bytes or more, from a body of 65534 or 65535, is never written, over any run, and
      nothing queued behind it is either. */
  lemma {:induction false} NeverWritten(l: Link, steps: seq<Step>)
    requires l.queue != [] && |l.queue[0]| >= MAX_DATA_SIZE
    ensures var m := Run(l, steps); m.wire == l.wire && l.queue <= m.queue
    decreases |steps|
  {
    if steps != [] {
      hide Queued;
      NeverWritten(Apply(l, steps[0]), steps[1..]);
    }
  }

  // ----------------------------------------------------------------------------- receiving

  function Framed(bodies: seq<seq<byte>>): (frames: seq<seq<byte>>)
    requires forall b <- bodies :: |b| < 65536
    ensures |frames| == |bodies| && forall i :: 0 <= i < |bodies| ==> frames[i] == Frame(bodies[i])
  {
    seq(|bodies|, i requires 0 <= i < |bodies| => Frame(bodies[i]))
  }

  function Size(high: nat, low: nat): nat {
    high * 256 + low
  }

  /** The bodies of a chunk, by the length in front of each; what is left of a cut frame is ignored. */
  function Bodies(chunk: seq<byte>): seq<seq<byte>> {
    if |chunk| < 2 then []
    else
      var size := Size(chunk[0], chunk[1]);
      if |chunk| < 2 + size then [] else [chunk[2..2 + size]] + Bodies(chunk[2 + size..])
  }

  /** Frame `f` on its way: what was written of it, and what is still queued. */
  predicate OneFrame(l: Link, f: seq<byte>) {
    |l.queue| <= 1 && l.wire <= f && (l.queue != [] ==> l.queue[0] != [] && l.wire + l.queue[0] == f)
  }

  predicate WritesOnly(steps: seq<Step>) {
    forall s <- steps :: !s.Enter?
  }

  lemma {:induction false} OneFrameRun(l: Link, steps: seq<Step>, f: seq<byte>)
    requires OneFrame(l, f) && WritesOnly(steps)
    ensures OneFrame(Run(l, steps), f)
    decreases |steps|
  {
    if steps != [] {
      assert steps[0] in steps;
      hide OneFrame, Apply;
      OneFrameRun(Apply(l, steps[0]), steps[1..], f);
    }
  }

  /** Part of a frame reads as nothing. */
  lemma BodiesOfPart(part: seq<byte>, body: seq<byte>)
    requires |body| < 65536 && part <= Frame(body)
    ensures Bodies(part) == if part == Frame(body) then [body] else []
  {
    if part == Frame(body) {
      assert Frame(body) + [] == part;
    } else if |part| >= 2 {
      assert Size(part[0], part[1]) == |body|;
    }
  }

  /** One message, from end to end.  After it was entered and whatever writes were then tried, the wire reads
      back as this message exactly when it has 1 to 65533 bytes, its frame has left the queue, and no write
      took zero bytes: the sixteen-bit size cuts longer messages, and frames of 65536 bytes and more are
      never written. */
  lemma MessageArrives(content: seq<byte>, steps: seq<Step>)
    requires WritesOnly(steps)
    ensures var all := [Enter(content)] + steps;
            Bodies(Run(FRESH, all).wire) == [content]
            <==> 1 <= |content| <= 65533 && Run(FRESH, all).queue == [] && AllDropped(FRESH, all) == 0
  {
    var all, l := [Enter(content)] + steps, Apply(FRESH, Enter(content));
    assert all[1..] == steps;
    assert Run(FRESH, all) == Run(l, steps) && AllDropped(FRESH, all) == AllDropped(l, steps);
    assert l == FRESH.(queue := Queued(content)) by {
      assert [] + Queued(content) == Queued(content);
    }
    hide Run, AllDropped, Apply, Bodies, Frame;
    if |content| % 65536 == 0 {
      OneFrameRun(l, steps, []);
      assert |[content]| == 1;
    } else {
      var body := content[..|content| % 65536];
      FrameArrives(l, body, steps);
      assert [body][0] == body && [content][0] == content;
      assert |content| < 65536 ==> body == content;
    }
  }

  lemma FrameArrives(l: Link, body: seq<byte>, steps: seq<Step>)
    requires WritesOnly(steps) && 1 <= |body| < 65536 && l == FRESH.(queue := [Frame(body)])
    ensures var m := Run(l, steps);
            Bodies(m.wire) == if |body| <= 65533 && m.queue == [] && AllDropped(l, steps) == 0 then [body] else []
  {
    var m, f := Run(l, steps), Frame(body);
    assert [] + f == f;
    OneFrameRun(l, steps, f);
    RunStream(l, steps);
    WritesEnterNothing(steps);
    if |f| >= MAX_DATA_SIZE {
      NeverWritten(l, steps);
    }
    hide Run, AllDropped, Frame, Bodies, Stream, WritesOnly, Entered, Flat;
    OneFrameDone(l, f);
    OneFrameDone(m, f);
    BodiesOfPart(m.wire, body);
  }

  lemma OneFrameDone(m: Link, f: seq<byte>)
    requires OneFrame(m, f) && f != []
    ensures m.queue == [] ==> |Stream(m)| == |m.wire|
    ensures m.queue != [] ==> |Stream(m)| == |f| && m.wire != f
  {
    if m.queue != [] {
      assert m.queue[1..] == [];
      assert Flat(m.queue) == m.queue[0] + Flat(m.queue[1..]);
      assert m.queue[0] + [] == m.queue[0];
      assert Stream(m) == m.wire + m.queue[0];
    }
  }

  lemma {:induction false} WritesEnterNothing(steps: seq<Step>)
    requires WritesOnly(steps)
    ensures Flat(Entered(steps)) == []
  {
    if steps != [] {
      assert steps[0] in steps;
      WritesEnterNothing(steps[1..]);
      assert [] + Entered(steps[1..]) == Entered(steps[1..]);
    }
  }

  /** With writes that take all they are offered, the message arrives exactly when it has 1 to 65533 bytes. */
  lemma FullWritesSend(content: seq<byte>, writes: seq<Write>)
    requires writes != [] && forall w <- writes :: w.Sent? && w.count >= MAX_DATA_SIZE
    ensures Bodies(Run(FRESH, [Enter(content)] + Tries(writes)).wire) == [content] <==> 1 <= |content| <= 65533
  {
    var all, steps, l := [Enter(content)] + Tries(writes), Tries(writes), Apply(FRESH, Enter(content));
    MessageArrives(content, steps);
    if 1 <= |content| <= 65533 {
      QueuedWhole(content);
      assert all[1..] == steps && writes[0] in writes && [] + Queued(content) == Queued(content);
      assert l.queue == [Frame(content)] && l.queue[1..] == [];
      assert Run(FRESH, all) == Run(l, steps) && AllDropped(FRESH, all) == AllDropped(l, steps);
      var next := Apply(l, steps[0]);
      assert next.queue == [] && DroppedBy(l, steps[0]) == 0;
      NothingLeft(next, steps[1..]);
    }
  }

  lemma {:induction false} NothingLeft(l: Link, steps: seq<Step>)
    requires l.queue == [] && WritesOnly(steps)
    ensures Run(l, steps).queue == [] && AllDropped(l, steps) == 0
    decreases |steps|
  {
    if steps != [] {
      assert steps[0] in steps;
      NothingLeft(Apply(l, steps[0]), steps[1..]);
    }
  }

  /** Whole frames are read back as exactly their bodies. */
  lemma {:induction false} BodiesOfFrames(bodies: seq<seq<byte>>)
    requires forall b <- bodies :: |b| < 65536
    ensures Bodies(Flat(Framed(bodies))) == bodies
  {
    if bodies != [] {
      assert bodies[0] in bodies;
      assert Framed(bodies)[1..] == Framed(bodies[1..]);
      BodiesOfFrames(bodies[1..]);
    }
  }

  /** The messages entered along a run. */
  function Messages(steps: seq<Step>): seq<seq<byte>> {
    if steps == [] then []
    else (if steps[0].Enter? then [steps[0].content] else []) + Messages(steps[1..])
  }

  lemma {:induction false} MessagesFramed(steps: seq<Step>)
    requires forall s <- steps :: s.Enter? ==> 1 <= |s.content| <= 65533
    ensures forall m <- Messages(steps) :: |m| < 65536
    ensures Entered(steps) == Framed(Messages(steps))
  {
    hide Queued, Frame;
    if steps != [] {
      var s, rest := steps[0], steps[1..];
      assert s in steps;
      MessagesFramed(rest);
      if s.Enter? {
        QueuedWhole(s.content);
        assert Messages(steps) == [s.content] + Messages(rest);
        assert Entered(steps) == [Frame(s.content)] + Entered(rest);
      }
    }
  }

  lemma QueuedWhole(content: seq<byte>)
    requires 1 <= |content| < 65536
    ensures Queued(content) == [Frame(content)]
  {
    assert content[..|content|] == content;
  }

  /** Send and receive together: for messages of 1 to 65533 bytes, when nothing was dropped and the
      queue has drained, reading the wire gives the messages, all of them and in order. */
  lemma MessagesArrive(steps: seq<Step>)
    requires forall s <- steps :: s.Enter? ==> 1 <= |s.content| <= 65533
    requires AllDropped(FRESH, steps) == 0 && Run(FRESH, steps).queue == []
    ensures Bodies(Run(FRESH, steps).wire) == Messages(steps)
  {
    WireAndQueue(steps);
    MessagesFramed(steps);
    BodiesOfFrames(Messages(steps));
    var l := Run(FRESH, steps);
    assert l.wire + Flat([]) == l.wire;
  }

  /** The receive loop stops at the first body that is not a message; `bad` are the bodies that do not parse. */
  function UpToBad(bodies: seq<seq<byte>>, bad: set<seq<byte>>): seq<seq<byte>> {
    if bodies == [] || bodies[0] in bad then [] else [bodies[0]] + UpToBad(bodies[1..], bad)
  }

  /** The part of a chunk from `index` on is whole frames. */
  predicate Whole(chunk: seq<byte>)
    decreases |chunk|
  {
    chunk == [] ||
    (|chunk| >= 2 && |chunk| >= 2 + Size(chunk[0], chunk[1]) && Whole(chunk[2 + Size(chunk[0], chunk[1])..]))
  }

  lemma {:induction false} FramesAreWhole(bodies: seq<seq<byte>>)
    requires forall b <- bodies :: |b| < 65536
    ensures Whole(Flat(Framed(bodies)))
  {
    if bodies != [] {
      assert bodies[0] in bodies;
      assert Framed(bodies)[1..] == Framed(bodies[1..]);
      FramesAreWhole(bodies[1..]);
      var rest := Flat(Framed(bodies[1..]));
      var chunk := Frame(bodies[0]) + rest;
      assert Size(chunk[0], chunk[1]) == |bodies[0]|;
      assert chunk[2 + |bodies[0]|..] == rest;
    }
  }

  // ----------------------------------------------------------------------------- the socket

  class Socket {
    /** Every byte the network has taken, kept for the proof only. */
    ghost var wire: seq<byte>
    var writeQueue: seq<seq<byte>>
    var isWritingAsync: bool
    var closing: bool
    var open: bool
    /** Write notifications requested that have not arrived yet. */
    ghost var pending: nat

    /** The flag stands for a pending notification, and there is never a second one. */
    ghost predicate Valid()
      reads this
    {
      pending == if isWritingAsync then 1 else 0
    }

    ghost function State(): Link
      reads this
    {
      Link(wire, writeQueue, isWritingAsync, closing, open)
    }

    constructor ()
      ensures Valid() && State() == FRESH
    {
      pending := 0;
      wire, writeQueue, isWritingAsync, closing, open := [], [], false, false, true;
    }

    /** Queues the frame of the body cut to its sixteen-bit size.  The send buffer holds 65536 bytes, header
        included: with a body of 65535 the last byte is written, and read again, behind it. */
    method EnterQueue(content: seq<byte>) returns (fits: bool)
      modifies this`writeQueue
      ensures fits <==> |content| % 65536 != 65535
      ensures State() == Apply(old(State()), Enter(content))
    {
      hide Frame;
      var bodySize := |content| % 65536;
      if bodySize == 0 {
        assert writeQueue + [] == writeQueue;
        return true;
      }
      var frame := Build(content[..bodySize]);
      writeQueue := writeQueue + [frame];
      return bodySize + 2 <= MAX_DATA_SIZE;
    }

    /** The header and the body put together in a buffer on the stack, and the byte behind it. */
    static method Build(body: seq<byte>) returns (frame: seq<byte>)
      requires |body| < 65536
      ensures frame == Frame(body)
    {
      var buffer := new byte[MAX_DATA_SIZE + 1](i => 0);
      buffer[0], buffer[1] := |body| / 256, |body| % 256;
      for i := 0 to |body|
        invariant buffer[0] == |body| / 256 && buffer[1] == |body| % 256
        invariant buffer[2..2 + i] == body[..i]
      {
        buffer[i + 2] := body[i];
        assert buffer[2..2 + i + 1] == buffer[2..2 + i] + [body[i]];
      }
      frame := buffer[..|body| + 2];
      assert frame == [buffer[0], buffer[1]] + buffer[2..2 + |body|];
    }

    /** Requests a notification, unless one is pending. */
    method AsyncProcessQueue() returns (again: bool)
      requires Valid()
      modifies this`isWritingAsync, this`pending
      ensures Valid() && isWritingAsync && !again
      ensures pending == 1 && (old(isWritingAsync) ==> pending == old(pending))
    {
      if isWritingAsync {
        return false;
      }
      isWritingAsync := true;
      pending := pending + 1;
      return false;
    }

    /** Takes the front frame off; a requested close happens when that empties the queue. */
    method Pop()
      requires writeQueue != []
      modifies this`writeQueue, this`open
      ensures State() == Popped(old(State()), wire)
    {
      writeQueue := writeQueue[1..];
      if closing && |writeQueue| == 0 {
        open := false;
      }
    }

    /** `write` is what `write_some` does when it is called. */
    method HandleQueue(write: Write) returns (again: bool)
      requires Valid()
      modifies this
      ensures Valid() && (State(), again) == Handle(old(State()), write)
    {
      if !open || |writeQueue| == 0 {
        return false;
      }
      var meta := writeQueue[0];
      if |meta| <= 0 || |meta| >= MAX_DATA_SIZE {
        return false;
      }
      if write.WouldBlock? {
        again := AsyncProcessQueue();
        return;
      }
      var sent := Taken(write, meta);
      wire := wire + meta[..sent];
      assert meta[..|meta|] == meta;
      if sent == 0 {
        assert wire == old(wire);
        Pop();
        return false;
      }
      if sent < |meta| {
        writeQueue := [meta[sent..]] + writeQueue[1..];
        again := AsyncProcessQueue();
        return;
      }
      Pop();
      return |writeQueue| > 0;
    }

    /** The notification has arrived. */
    method WriteHandlerWrapper(write: Write) returns (again: bool)
      requires Valid() && pending > 0
      modifies this
      ensures Valid() && State() == Apply(old(State()), Wake(write))
    {
      isWritingAsync := false;
      pending := pending - 1;
      again := HandleQueue(write);
    }

    /** `Update`, with the results its writes will get: at most one a frame. */
    method Update(writes: seq<Write>)
      requires Valid() && |writes| >= |writeQueue|
      modifies this
      ensures Valid() && State() == if old(isWritingAsync) || old(writeQueue) == [] then old(State()) else Loop(old(State()), writes)
    {
      if isWritingAsync || |writeQueue| == 0 {
        return;
      }
      ghost var l := State();
      var i: nat, again := 0, true;
      assert writes[0..] == writes;
      hide Handle;
      while again
        invariant Valid() && i <= |writes| && (again ==> 0 < |writeQueue| <= |writes| - i)
        invariant Loop(l, writes) == if again then Loop(State(), writes[i..]) else State()
        decreases |writes| - i
      {
        assert writes[i..][1..] == writes[i + 1..];
        again := HandleQueue(writes[i]);
        i := i + 1;
      }
    }
  }

  /** Writes one after the other as long as the queue says to go on. */
  function Loop(l: Link, writes: seq<Write>): Link
    decreases |writes|
  {
    if writes == [] then l
    else if Handle(l, writes[0]).1 then Loop(Handle(l, writes[0]).0, writes[1..])
    else Handle(l, writes[0]).0
  }

  function Tries(writes: seq<Write>): (steps: seq<Step>)
    ensures |steps| == |writes|
  {
    seq(|writes|, i requires 0 <= i < |writes| => Try(writes[i]))
  }

  /** That loop is a run of single writes, so what holds of every run holds of it. */
  lemma {:induction false} LoopIsRun(l: Link, writes: seq<Write>)
    ensures exists n :: 0 <= n <= |writes| && Loop(l, writes) == Run(l, Tries(writes[..n]))
    decreases |writes|
  {
    hide Handle;
    if writes == [] {
      assert Tries(writes[..0]) == [];
    } else {
      var n: nat := 0;
      if Handle(l, writes[0]).1 {
        LoopIsRun(Handle(l, writes[0]).0, writes[1..]);
        n :| 0 <= n <= |writes| - 1 && Loop(Handle(l, writes[0]).0, writes[1..]) == Run(Handle(l, writes[0]).0, Tries(writes[1..][..n]));
      }
      var tries := Tries(writes[..n + 1]);
      assert tries[0] == Try(writes[0]) && tries[1..] == Tries(writes[1..][..n]);
      assert Run(l, tries) == Run(Apply(l, tries[0]), tries[1..]);
    }
  }

  /** With writes that take all they are offered, the loop puts every queued frame on the wire. */
  lemma {:induction false} LoopDrains(l: Link, writes: seq<Write>)
    requires l.open && |writes| >= |l.queue| && (forall w <- writes :: w.Sent? && w.count >= MAX_DATA_SIZE)
    requires forall f <- l.queue :: 0 < |f| < MAX_DATA_SIZE
    ensures var m := Loop(l, writes); m.queue == [] && m.wire == l.wire + Flat(l.queue) && m.writing == l.writing
    decreases |l.queue|
  {
    if l.queue == [] {
      assert l.wire + Flat([]) == l.wire;
    } else {
      var front, rest := l.queue[0], l.queue[1..];
      assert writes[0] in writes && front in l.queue;
      assert Handle(l, writes[0]) == (Popped(l, l.wire + front), |l.queue| > 1);
      assert l.wire + front + Flat(rest) == l.wire + (front + Flat(rest));
      if |l.queue| > 1 {
        LoopDrains(Popped(l, l.wire + front), writes[1..]);
      } else {
        assert l.wire + front + Flat([]) == l.wire + front;
      }
    }
  }

  /** What is processed is the beginning of the bodies; all of it parses, and the next body, if any, does not. */
  lemma {:induction false} UpToBadIs(bodies: seq<seq<byte>>, bad: set<seq<byte>>)
    ensures var r := UpToBad(bodies, bad);
            && r <= bodies && (forall b <- r :: b !in bad) && (|r| < |bodies| ==> bodies[|r|] in bad)
  {
    if bodies != [] && bodies[0] !in bad {
      UpToBadIs(bodies[1..], bad);
    }
  }

  /** The frames before `index` have been processed, and whole frames follow. */
  ghost predicate Received(chunk: seq<byte>, bad: set<seq<byte>>, processed: seq<seq<byte>>, index: nat) {
    && index <= |chunk| && Whole(chunk[index..])
    && processed + UpToBad(Bodies(chunk[index..]), bad) == UpToBad(Bodies(chunk), bad)
  }

  lemma ReceiveStep(chunk: seq<byte>, bad: set<seq<byte>>, processed: seq<seq<byte>>, index: nat)
    requires index < |chunk| && Received(chunk, bad, processed, index)
    ensures index + 2 <= |chunk| && index + 2 + Size(chunk[index], chunk[index + 1]) <= |chunk|
    ensures var next := index + 2 + Size(chunk[index], chunk[index + 1]); var body := chunk[index + 2..next];
            if body !in bad then Received(chunk, bad, processed + [body], next)
            else processed == UpToBad(Bodies(chunk), bad)
  {
    hide Size, Bodies, Whole, UpToBad;
    var rest := chunk[index..];
    ReceiveOne(rest, processed, UpToBad(Bodies(chunk), bad), bad);
    SliceOfRest(chunk, index, Size(rest[0], rest[1]));
  }

  lemma ReceiveOne(rest: seq<byte>, processed: seq<seq<byte>>, whole: seq<seq<byte>>, bad: set<seq<byte>>)
    requires rest != [] && Whole(rest) && processed + UpToBad(Bodies(rest), bad) == whole
    ensures |rest| >= 2 && |rest| >= 2 + Size(rest[0], rest[1])
    ensures var next := 2 + Size(rest[0], rest[1]); var body := rest[2..next];
            && Whole(rest[next..])
            && if body !in bad then processed + [body] + UpToBad(Bodies(rest[next..]), bad) == whole else processed == whole
  {
    hide Size, Bodies, Whole, UpToBad;
    ChunkStep(rest);
    var size := Size(rest[0], rest[1]);
    Advance(processed, rest[2..2 + size], Bodies(rest[2 + size..]), bad);
  }

  lemma SliceOfPrefix(all: seq<byte>, n: nat, from: nat, to: nat)
    requires from <= to <= n <= |all|
    ensures all[..n][from..to] == all[from..to]
  {
  }

  lemma SliceOfRest(chunk: seq<byte>, index: nat, size: nat)
    requires index + 2 + size <= |chunk|
    ensures var rest := chunk[index..];
            && rest[0] == chunk[index] && rest[1] == chunk[index + 1]
            && rest[2..2 + size] == chunk[index + 2..index + 2 + size] && rest[2 + size..] == chunk[index + 2 + size..]
  {
  }

  lemma Advance(processed: seq<seq<byte>>, body: seq<byte>, after: seq<seq<byte>>, bad: set<seq<byte>>)
    ensures processed + UpToBad([body] + after, bad)
         == if body !in bad then processed + [body] + UpToBad(after, bad) else processed
  {
    NextBody(body, after, bad);
    hide UpToBad;
    assert processed + [] == processed;
    assert processed + ([body] + UpToBad(after, bad)) == processed + [body] + UpToBad(after, bad);
  }

  lemma ChunkStep(chunk: seq<byte>)
    requires chunk != [] && Whole(chunk)
    ensures |chunk| >= 2 && |chunk| >= 2 + Size(chunk[0], chunk[1])
    ensures var next := 2 + Size(chunk[0], chunk[1]);
            Bodies(chunk) == [chunk[2..next]] + Bodies(chunk[next..]) && Whole(chunk[next..])
  {
    hide Size;
  }

  class WorldSession {
    var buffer: array<byte>

    constructor ()
      ensures fresh(buffer) && buffer.Length == MAX_DATA_SIZE
    {
      buffer := new byte[MAX_DATA_SIZE](i => 0);
    }

    /** The receive loop on a chunk of whole frames: it ends, and processes exactly the bodies up to the
        first that does not parse.  A length above `MAX_DATA_SIZE` cannot be written in two bytes. */
    method InitializeHandler(transferred: nat, bad: set<seq<byte>>) returns (processed: seq<seq<byte>>)
      requires transferred <= buffer.Length && buffer.Length == MAX_DATA_SIZE && Whole(buffer[..transferred])
      ensures processed == UpToBad(Bodies(buffer[..transferred]), bad)
    {
      processed := [];
      ghost var chunk := buffer[..transferred];
      hide Whole, Bodies, UpToBad, Size;
      var index: nat := 0;
      while index < transferred
        invariant index <= transferred && buffer[..transferred] == chunk && Received(chunk, bad, processed, index)
        decreases transferred - index
      {
        ReceiveStep(chunk, bad, processed, index);
        assert buffer[index] == chunk[index] && buffer[index + 1] == chunk[index + 1];
        var bodySize := Size(buffer[index], buffer[index + 1]);
        var body := CopyBody(index + 2, bodySize);
        SliceOfPrefix(buffer[..], transferred, index + 2, index + 2 + bodySize);
        if body in bad {
          return;
        }
        processed := processed + [body];
        index := index + bodySize + 2;
      }
    }

    /** The inner loop: bytes copied into a local buffer. */
    method CopyBody(start: nat, size: nat) returns (body: seq<byte>)
      requires start + size <= buffer.Length == MAX_DATA_SIZE
      ensures body == buffer[start..start + size]
    {
      var local := new byte[MAX_DATA_SIZE](i => 0);
      for i := 0 to size
        invariant local[..i] == buffer[start..start + i]
      {
        local[i] := buffer[start + i];
        assert local[..i + 1] == local[..i] + [buffer[start + i]];
      }
      return local[..size];
    }
  }

  lemma NextBody(body: seq<byte>, rest: seq<seq<byte>>, bad: set<seq<byte>>)
    ensures UpToBad([body] + rest, bad) == if body !in bad then [body] + UpToBad(rest, bad) else []
  {
    assert ([body] + rest)[1..] == rest;
  }
}
