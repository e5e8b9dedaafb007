/**
 What one connection's capture sends, over any commands, device failures and recoveries, with callbacks and commands
 interleaved at every shared access, is a stream as the receiver's verdict assumes it.
 */
module TaskStream {
  import opened Options
  import opened MediaClock
  import opened PreRoll
  import opened JitterBuffer
  import opened JitterRuns
  import opened Verdict
  import opened CaptureGate
  import T = CaptureTask
  import C = CaptureThreads

  // ---- One captured frame

  /** Consecutive whole frames. */
  ghost predicate RingOk(run: seq<Slot>) {
    |run| <= PRE_ROLL_FRAMES && Contiguous(run) && forall i :: 0 <= i < |run| ==> run[i].timestampUs % FRAME_US == 0
  }

  /** Every voice frame sent lies before media frame `bound`. */
  ghost predicate Before(ms: seq<Message>, bound: nat) {
    forall i :: 0 <= i < |ms| && ms[i].EncodedFrame? ==> FrameNumber(ms[i]) < bound
  }

  /** What was sent ascends, up to the clock, and lies before what the ring still holds. */
  ghost predicate Forward(ms: seq<Message>, ring: seq<Slot>, clock: nat) {
    && Ascending(ms) && Before(ms, clock)
    && forall i :: 0 <= i < |ring| ==> Before(ms, ring[i].timestampUs / FRAME_US)
  }

  lemma {:induction false} MarkForward(ms: seq<Message>, ring: seq<Slot>, clock: nat, m: Message)
    requires Forward(ms, ring, clock) && m.EndOfStream?
    ensures Forward(ms + [m], ring, clock)
  {
    hide FrameNumber;
    forall b: nat | Before(ms, b) ensures Before(ms + [m], b) {
    }
  }

  lemma {:induction false} RunAscends(run: seq<Slot>, i: nat, j: nat)
    requires RingOk(run) && i <= j < |run|
    ensures run[j].timestampUs / FRAME_US == run[i].timestampUs / FRAME_US + (j - i)
    decreases j
  {
    if i < j {
      RunAscends(run, i, j - 1);
    }
  }

  /** A flushed run and the frame behind it follow what was sent. */
  lemma {:induction false} BurstForward(ms: seq<Message>, run: seq<Slot>, clock: nat, f: nat, samples: Pcm)
    requires RingOk(run) && Forward(ms, run, clock) && clock <= f && (run == [] || Follows(run, f * FRAME_US))
    ensures var out := Encoded(run) + [EncodedFrame(f * FRAME_US, samples)];
            Ascending(ms + out) && Before(ms + out, f + 1)
  {
    var burst := Encoded(run) + [EncodedFrame(f * FRAME_US, samples)];
    var all := ms + burst;
    assert FrameNumber(burst[|run|]) == f;
    forall i | 0 <= i < |run| ensures FrameNumber(burst[i]) == f - (|run| - i) {
      RunAscends(run, i, |run| - 1);
    }
    assert forall i :: 0 <= i < |burst| ==> FrameNumber(burst[i]) == f - (|run| - i);
    forall i | 0 <= i < |ms| && ms[i].EncodedFrame? ensures FrameNumber(ms[i]) < f - |run| {
      if run != [] {
        assert Before(ms, run[0].timestampUs / FRAME_US);
        assert FrameNumber(burst[0]) == run[0].timestampUs / FRAME_US;
      }
    }
    hide FrameNumber, Forward, RingOk, Follows, Encoded;
    forall i, j | 0 <= i < j < |all| && all[i].EncodedFrame? && all[j].EncodedFrame?
      ensures FrameNumber(all[i]) < FrameNumber(all[j])
    {
      if j < |ms| {
        assert all[i] == ms[i] && all[j] == ms[j];
      } else if i < |ms| {
        assert all[i] == ms[i] && all[j] == burst[j - |ms|];
      } else {
        assert all[i] == burst[i - |ms|] && all[j] == burst[j - |ms|];
      }
    }
  }

  lemma {:induction false} PushedOk(run: seq<Slot>, s: Slot)
    requires RingOk(run) && s.timestampUs % FRAME_US == 0
    ensures RingOk(Pushed(run, PRE_ROLL_FRAMES, s))
    ensures forall x :: x in Pushed(run, PRE_ROLL_FRAMES, s) ==> x in run || x == s
  {
    PushedContiguous(run, PRE_ROLL_FRAMES, s);
  }

  lemma {:induction false} StashForward(ms: seq<Message>, run: seq<Slot>, clock: nat, c: Capture)
    requires RingOk(run) && Forward(ms, run, clock) && clock <= c.index
    ensures var ring := Pushed(run, PRE_ROLL_FRAMES, SlotOf(c)); RingOk(ring) && Forward(ms, ring, c.index + 1)
  {
    PushedOk(run, SlotOf(c));
    var ring := Pushed(run, PRE_ROLL_FRAMES, SlotOf(c));
    hide Pushed, FrameNumber, RingOk, Ascending;
    assert Before(ms, c.index);
    forall i | 0 <= i < |ring| ensures Before(ms, ring[i].timestampUs / FRAME_US) {
      assert ring[i] in run || ring[i] == SlotOf(c);
    }
  }

  /** The gate keeps the stream going forward. */
  lemma {:induction false} GateForward(ms: seq<Message>, st: GateState, clock: nat, c: Capture)
    requires RingOk(st.run) && Forward(ms, st.run, clock) && clock <= c.index && c.stopped.None?
    ensures var (st', out) := OnFrame(st, c); RingOk(st'.run) && Forward(ms + out, st'.run, c.index + 1)
  {
    var ts := c.index * FRAME_US;
    var ring := Pushed(st.run, PRE_ROLL_FRAMES, SlotOf(c));
    if c.suppress {
      StashForward(ms, st.run, clock, c);
      hide Pushed, RingOk, Forward;
      MarkForward(ms, ring, c.index + 1, EndOfStream(ts));
      assert ms + [] == ms;
      assert Stopped(c) + [] == [] && Stopped(c) + [EndOfStream(ts)] == [EndOfStream(ts)];
    } else {
      var run := Flushed(st.run, ts);
      FlushedForward(ms, st.run, clock, c);
      assert Stopped(c) + Encoded(run) + [EncodedFrame(ts, c.samples)] == Encoded(run) + [EncodedFrame(ts, c.samples)];
      hide Pushed, Forward, Flushed, Encoded;
    }
  }

  lemma {:induction false} FlushedForward(ms: seq<Message>, run: seq<Slot>, clock: nat, c: Capture)
    requires RingOk(run) && Forward(ms, run, clock) && clock <= c.index
    ensures var ts := c.index * FRAME_US;
            RingOk([]) && Forward(ms + (Encoded(Flushed(run, ts)) + [EncodedFrame(ts, c.samples)]), [], c.index + 1)
  {
    BurstForward(ms, Flushed(run, c.index * FRAME_US), clock, c.index, c.samples);
    hide FrameNumber, Encoded;
  }

  /** A mark may also come in the middle of what a callback enqueues. */
  lemma {:induction false} MarkBetween(ms: seq<Message>, out: seq<Message>, ring: seq<Slot>, clock: nat, m: Message)
    requires Forward(ms + out, ring, clock) && m.EndOfStream?
    ensures Forward(ms + [m] + out, ring, clock)
  {
    hide FrameNumber;
    var a, b, n := ms + out, ms + [m] + out, |ms|;
    assert forall i :: 0 <= i < |b| && i != n ==> b[i] == a[if i < n then i else i - 1];
    forall bound: nat | Before(a, bound) ensures Before(b, bound) {
      assert forall i :: 0 <= i < |b| && i != n ==> b[i] == a[if i < n then i else i - 1];
    }
    assert Ascending(b);
    forall i | 0 <= i < |ring| ensures Before(b, ring[i].timestampUs / FRAME_US) {
      assert Before(a, ring[i].timestampUs / FRAME_US);
    }
  }

  lemma {:induction false} LaterClock(ms: seq<Message>, ring: seq<Slot>, clock: nat, ring': seq<Slot>, clock': nat)
    requires Forward(ms, ring, clock) && clock <= clock' && (ring' == ring || ring' == [])
    ensures Forward(ms, ring', clock')
  {
    hide FrameNumber;
  }

  // ---- One access

  /** The place on the media clock that a callback has taken and not used yet. */
  function Held(cb: C.Callback): Option<nat> {
    match cb
    case Fetched(frame, _, _) => Some(frame)
    case Judged(frame, _, _) => Some(frame)
    case Looked(frame, _, _, _) => Some(frame)
    case _ => None
  }

  /** The messages from `base` on, with what is about to be enqueued, go forward. */
  ghost predicate Streams(m: C.Threads, base: nat) {
    && base <= |m.s.sent| && RingOk(m.s.ring)
    && match Held(m.cb)
       case None => Forward(m.s.sent[base..] + C.Outgoing(m.cb), m.s.ring, m.s.frameIndex)
       case Some(frame) => frame < m.s.frameIndex && Forward(m.s.sent[base..], m.s.ring, frame)
  }

  lemma {:induction false} OpClock(s: T.State, op: C.Op)
    ensures op.ClockForward? ==> C.Do(s, op).frameIndex >= s.frameIndex
    ensures !op.ClockForward? && !op.ZeroClock? ==> C.Do(s, op).frameIndex == s.frameIndex
  {
    hide T.Gated, C.Own;
    if op.Become? {
      C.OwnKeeps(s, op.own);
    }
  }

  lemma {:induction false} WorkStreams(m: C.Threads, base: nat)
    requires Streams(m, base) && m.todo != [] && !m.todo[0].ZeroClock?
    ensures Streams(C.Step(m, C.Work), base)
  {
    hide C.Do, Forward, RingOk;
    var op := m.todo[0];
    var t := C.Do(m.s, op);
    OpClock(m.s, op);
    C.OpSent(m.s, op);
    C.OpRing(m.s, op);
    RingEmpty();
    var ms, out := m.s.sent[base..], C.Outgoing(m.cb);
    if Held(m.cb).Some? {
      LaterClock(ms, m.s.ring, Held(m.cb).value, t.ring, Held(m.cb).value);
    } else {
      LaterClock(ms + out, m.s.ring, m.s.frameIndex, t.ring, t.frameIndex);
    }
    if op.MarkEnd? {
      var mark := EndOfStream(m.s.frameIndex * FRAME_US);
      assert (m.s.sent + [mark])[base..] == ms + [mark];
      if Held(m.cb).Some? {
        MarkForward(ms, m.s.ring, Held(m.cb).value, mark);
      } else {
        MarkBetween(ms, out, m.s.ring, m.s.frameIndex, mark);
      }
    }
  }

  lemma {:induction false} RingEmpty()
    ensures RingOk([])
  {
  }

  lemma {:induction false} ClockTicks(s: T.State)
    ensures T.Ticked(s).frameIndex == s.frameIndex + 1
    ensures s.input.Some? && s.input.value.warmup > 0 ==>
              T.Warmed(s).frameIndex == s.frameIndex + 1 && T.Warmed(s).ring == s.ring && T.Warmed(s).sent == s.sent
  {
  }

  lemma {:induction false} PassedStreams(m: C.Threads, base: nat)
    requires Streams(m, base) && m.cb.Passed?
    ensures Streams(C.Step(m, C.Proceeds), base)
  {
    ClockTicks(m.s);
    C.TickedIs(m.s);
    hide Forward, RingOk, T.Ticked, T.Warmed;
    var ms := m.s.sent[base..];
    assert ms + [] == ms;
    LaterClock(ms, m.s.ring, m.s.frameIndex, m.s.ring, m.s.frameIndex + 1);
  }

  lemma {:induction false} StoredStreams(m: C.Threads, base: nat)
    requires Streams(m, base) && m.cb.Looked?
    ensures Streams(C.Step(m, C.Proceeds), base)
  {
    var frame, samples, suppress, was := m.cb.frame, m.cb.samples, m.cb.suppress, m.cb.was;
    var ms, st := m.s.sent[base..], GateState(m.s.ring, was);
    var c := Capture(frame, samples, suppress, None);
    GateForward(ms, st, frame, c);
    StoredFields(m.s, frame, samples, suppress, was);
    hide OnFrame, Forward, RingOk, C.Stored, C.Gated;
    var (gate, out) := OnFrame(st, c);
    LaterClock(ms + out, gate.run, frame + 1, gate.run, m.s.frameIndex);
  }

  lemma {:induction false} StoredFields(s: T.State, frame: nat, samples: Pcm, suppress: bool, was: bool)
    ensures var (gate, out) := OnFrame(GateState(s.ring, was), Capture(frame, samples, suppress, None));
            var t := C.Stored(s, frame, samples, suppress, was);
            && C.Gated(s, frame, samples, suppress, was).1 == out && t.ring == gate.run && t.sent == s.sent
            && t.frameIndex == s.frameIndex
  {
    hide OnFrame;
  }

  lemma {:induction false} SentStreams(m: C.Threads, base: nat)
    requires Streams(m, base) && m.cb.Sending?
    ensures Streams(C.Step(m, C.Proceeds), base)
  {
    hide Forward, RingOk;
    var out := m.cb.out;
    if out != [] {
      assert (m.s.sent + [out[0]])[base..] + out[1..] == m.s.sent[base..] + out;
    }
  }

  lemma {:induction false} ProceedStreams(m: C.Threads, base: nat)
    requires Streams(m, base)
    ensures Streams(C.Step(m, C.Proceeds), base)
  {
    hide Forward, RingOk, Suppresses;
    match m.cb
    case Passed(_, _) => PassedStreams(m, base);
    case Looked(_, _, _, _) => StoredStreams(m, base);
    case Sending(_) => SentStreams(m, base);
    case _ =>
  }

  /** The event restarts the media clock. */
  predicate Restarts(m: C.Threads, ev: C.Event) {
    ev.Work? && m.todo != [] && m.todo[0].ZeroClock?
  }

  lemma {:induction false} StepStreams(m: C.Threads, base: nat, ev: C.Event)
    requires Streams(m, base) && !Restarts(m, ev)
    ensures Streams(C.Step(m, ev), base)
  {
    hide Forward, RingOk, C.Plan, T.Step, C.Do, C.Proceed;
    match ev
    case Work =>
      if m.todo != [] {
        WorkStreams(m, base);
      }
    case Proceeds => ProceedStreams(m, base);
    case Environment(e) =>
      if C.Accepts(m, ev) {
        C.OutsideSent(m.s, e);
      }
    case Command(_) =>
    case Fires(_, _) =>
    case Dequeues =>
  }

  // ---- The queue

  /** `a` is `b` with messages left out. */
  ghost predicate PartOf(a: seq<Message>, b: seq<Message>)
    decreases |b|
  {
    if b == [] then a == []
    else
      var n := |b| - 1;
      PartOf(a, b[..n]) || (a != [] && a[|a| - 1] == b[n] && PartOf(a[..|a| - 1], b[..n]))
  }

  lemma {:induction false} PartMember(a: seq<Message>, b: seq<Message>, i: nat)
    requires PartOf(a, b) && i < |a|
    ensures a[i] in b
    decreases |b|
  {
    var n := |b| - 1;
    if PartOf(a, b[..n]) {
      PartMember(a, b[..n], i);
    } else if i < |a| - 1 {
      PartMember(a[..|a| - 1], b[..n], i);
    }
  }

  lemma {:induction false} PartAscends(a: seq<Message>, b: seq<Message>)
    requires PartOf(a, b) && Ascending(b)
    ensures Ascending(a)
    decreases |b|
  {
    hide FrameNumber;
    if b != [] {
      var n := |b| - 1;
      if PartOf(a, b[..n]) {
        PartAscends(a, b[..n]);
      } else {
        PartAscends(a[..|a| - 1], b[..n]);
        forall i | 0 <= i < |a| - 1 && a[i].EncodedFrame? && a[|a| - 1].EncodedFrame?
          ensures FrameNumber(a[i]) < FrameNumber(a[|a| - 1])
        {
          PartMember(a[..|a| - 1], b[..n], i);
          var k :| 0 <= k < n && b[k] == a[i];
        }
      }
    }
  }

  /** The datagrams from `first` on are messages that were dequeued since the queue stood at `base`. */
  ghost predicate FromQueue(m: C.Threads, base: nat, first: nat) {
    && base <= m.taken <= |m.s.sent| && first <= |m.wire|
    && PartOf(m.wire[first..], m.s.sent[base..m.taken])
  }

  lemma {:induction false} StepSent(m: C.Threads, ev: C.Event)
    ensures m.s.sent <= C.Step(m, ev).s.sent
  {
    hide C.Do, C.Plan, T.Step, C.Proceed;
    match ev
    case Work =>
      if m.todo != [] {
        C.OpSent(m.s, m.todo[0]);
      }
    case Proceeds => C.ProceedSent(m.s, m.cb);
    case Environment(e) =>
      if C.Accepts(m, ev) {
        C.OutsideSent(m.s, e);
      }
    case _ =>
  }

  lemma {:induction false} StepQueue(m: C.Threads, base: nat, first: nat, ev: C.Event)
    requires FromQueue(m, base, first)
    ensures FromQueue(C.Step(m, ev), base, first)
  {
    StepSent(m, ev);
    hide C.Do, C.Plan, T.Step, C.Proceed, PartOf;
    var n := C.Step(m, ev);
    assert n.s.sent[base..m.taken] == m.s.sent[base..m.taken];
    if ev.Dequeues? && n != m {
      TakesOne(m.wire[first..], m.s.sent[base..m.taken], m.s.sent[m.taken]);
      assert m.s.sent[base..m.taken + 1] == m.s.sent[base..m.taken] + [m.s.sent[m.taken]];
      assert (m.wire + [m.s.sent[m.taken]])[first..] == m.wire[first..] + [m.s.sent[m.taken]];
    }
  }

  lemma {:induction false} TakesOne(a: seq<Message>, b: seq<Message>, x: Message)
    requires PartOf(a, b)
    ensures PartOf(a, b + [x]) && PartOf(a + [x], b + [x])
  {
    assert (b + [x])[..|b|] == b && (a + [x])[..|a|] == a;
  }

  // ---- What reaches the wire

  /** There is a connection (or there is none) before every event of the run. */
  ghost predicate Throughout(m: C.Threads, es: seq<C.Event>, connected: bool) {
    forall k :: 0 <= k < |es| ==> C.Run(m, es[..k]).s.connected == connected
  }

  lemma {:induction false} StepWire(m: C.Threads, ev: C.Event)
    requires m.taken <= |m.s.sent|
    ensures var n := C.Step(m, ev);
      && m.taken <= n.taken <= |n.s.sent| && m.s.sent <= n.s.sent
      && n.wire == if m.s.connected then m.wire + n.s.sent[m.taken..n.taken] else m.wire
  {
    StepSent(m, ev);
    hide C.Do, C.Plan, T.Step, C.Proceed;
    var n := C.Step(m, ev);
    assert n.s.sent[m.taken..m.taken] == [];
    if ev.Dequeues? && m.todo == [] && m.taken < |m.s.sent| {
      assert n.s.sent[m.taken..n.taken] == [m.s.sent[m.taken]];
    } else {
      assert m.wire + [] == m.wire;
    }
  }

  lemma {:induction false} ThroughoutPrefix(m: C.Threads, es: seq<C.Event>, connected: bool)
    requires es != [] && Throughout(m, es, connected)
    ensures Throughout(m, es[..|es| - 1], connected) && C.Run(m, es[..|es| - 1]).s.connected == connected
  {
    var n := |es| - 1;
    hide C.Run;
    assert forall k :: 0 <= k < n ==> es[..n][..k] == es[..k];
  }

  lemma {:induction false} WireGrows(m: C.Threads, q: C.Threads, n: C.Threads, connected: bool)
    requires m.taken <= q.taken <= |q.s.sent| && q.taken <= n.taken <= |n.s.sent|
    requires m.s.sent <= q.s.sent && q.s.sent <= n.s.sent
    requires q.wire == if connected then m.wire + q.s.sent[m.taken..q.taken] else m.wire
    requires n.wire == if connected then q.wire + n.s.sent[q.taken..n.taken] else q.wire
    ensures m.s.sent <= n.s.sent && n.wire == if connected then m.wire + n.s.sent[m.taken..n.taken] else m.wire
  {
    var a, b := n.s.sent[m.taken..q.taken], n.s.sent[q.taken..n.taken];
    assert q.s.sent[m.taken..q.taken] == a;
    assert a + b == n.s.sent[m.taken..n.taken];
    assert m.wire + a + b == m.wire + (a + b);
  }

  /** In every interleaving: with a connection all that is dequeued is sent, in order and once; without one nothing is. */
  lemma {:induction false} WireFollowsConnection(m: C.Threads, es: seq<C.Event>, connected: bool)
    requires m.taken <= |m.s.sent| && Throughout(m, es, connected)
    ensures var n := C.Run(m, es);
      && m.taken <= n.taken <= |n.s.sent| && m.s.sent <= n.s.sent
      && n.wire == if connected then m.wire + n.s.sent[m.taken..n.taken] else m.wire
    decreases |es|
  {
    hide C.Step, Throughout;
    if es == [] {
      assert m.wire + m.s.sent[m.taken..m.taken] == m.wire;
    } else {
      var k := |es| - 1;
      ThroughoutPrefix(m, es, connected);
      WireFollowsConnection(m, es[..k], connected);
      StepWire(C.Run(m, es[..k]), es[k]);
      WireGrows(m, C.Run(m, es[..k]), C.Run(m, es), connected);
    }
  }

  /** Between commands, as many turns of the loop as messages wait empty the queue. */
  lemma {:induction false} QueueDrains(m: C.Threads, k: nat)
    requires m.todo == [] && m.taken + k <= |m.s.sent|
    ensures var n := C.Run(m, seq(k, _ => C.Dequeues));
      n.s == m.s && n.todo == [] && n.taken == m.taken + k
      && n.wire == if m.s.connected then m.wire + m.s.sent[m.taken..m.taken + k] else m.wire
    decreases k
  {
    var es := seq(k, _ => C.Dequeues);
    if k == 0 {
      assert m.wire + m.s.sent[m.taken..m.taken] == m.wire;
    } else {
      assert es[..k - 1] == seq(k - 1, _ => C.Dequeues);
      QueueDrains(m, k - 1);
      StepWire(C.Run(m, es[..k - 1]), C.Dequeues);
      assert C.Run(m, es) == C.Step(C.Run(m, es[..k - 1]), C.Dequeues);
      hide C.Run;
      assert m.s.sent[m.taken..m.taken + k - 1] + m.s.sent[m.taken + k - 1..m.taken + k] == m.s.sent[m.taken..m.taken + k];
      if m.s.connected {
        assert m.wire + m.s.sent[m.taken..m.taken + k - 1] + m.s.sent[m.taken + k - 1..m.taken + k]
            == m.wire + m.s.sent[m.taken..m.taken + k];
      }
    }
  }

  // ---- Whole runs

  predicate NoRestart(m: C.Threads, es: seq<C.Event>)
    decreases |es|
  {
    es == [] || (NoRestart(m, es[..|es| - 1]) && !Restarts(C.Run(m, es[..|es| - 1]), es[|es| - 1]))
  }

  lemma {:induction false} RunStreams(m: C.Threads, base: nat, first: nat, es: seq<C.Event>)
    requires Streams(m, base) && FromQueue(m, base, first) && NoRestart(m, es)
    ensures Streams(C.Run(m, es), base) && FromQueue(C.Run(m, es), base, first)
    decreases |es|
  {
    hide Streams, FromQueue, C.Step, Restarts;
    if es != [] {
      var n := |es| - 1;
      RunStreams(m, base, first, es[..n]);
      StepStreams(C.Run(m, es[..n]), base, es[n]);
      StepQueue(C.Run(m, es[..n]), base, first, es[n]);
    }
  }

  /** The ring holds consecutive whole frames, and no more is dequeued than was enqueued, in every run. */
  ghost predicate Sound(m: C.Threads) {
    RingOk(m.s.ring) && m.taken <= |m.s.sent|
  }

  lemma {:induction false} StepSound(m: C.Threads, ev: C.Event)
    requires Sound(m)
    ensures Sound(C.Step(m, ev))
  {
    StepSent(m, ev);
    hide C.Do, C.Plan, T.Step, RingOk, C.Gated, C.Stored;
    match ev
    case Work =>
      RingEmpty();
      if m.todo != [] {
        C.OpRing(m.s, m.todo[0]);
      }
    case Proceeds => ProceedRing(m.s, m.cb);
    case Environment(e) =>
      if C.Accepts(m, ev) {
        C.OutsideSent(m.s, e);
      }
    case _ =>
  }

  lemma {:induction false} ProceedRing(s: T.State, cb: C.Callback)
    requires RingOk(s.ring)
    ensures RingOk(C.Proceed(s, cb).0.ring)
  {
    hide RingOk, C.Gated, C.Stored, T.Ticked, T.Warmed, Suppresses;
    ClockTicks(s);
    C.TickedIs(s);
    if cb.Looked? {
      StoredFields(s, cb.frame, cb.samples, cb.suppress, cb.was);
      GateRing(s.ring, cb.was, Capture(cb.frame, cb.samples, cb.suppress, None));
    }
  }

  lemma {:induction false} GateRing(run: seq<Slot>, was: bool, c: Capture)
    requires RingOk(run)
    ensures RingOk(OnFrame(GateState(run, was), c).0.run)
  {
    PushedOk(run, SlotOf(c));
    RingEmpty();
    hide RingOk, Pushed;
  }

  lemma {:induction false} RunSound(config: T.Config, es: seq<C.Event>)
    ensures Sound(C.Run(C.Start(config), es))
    decreases |es|
  {
    hide Sound, C.Step;
    if es == [] {
      StartSound(config);
    } else {
      RunSound(config, es[..|es| - 1]);
      StepSound(C.Run(C.Start(config), es[..|es| - 1]), es[|es| - 1]);
    }
  }

  lemma {:induction false} StartSound(config: T.Config)
    ensures Sound(C.Start(config))
  {
  }

  /**
   A new connection restarts the clock cleanly: no callback holds a place on the old clock or is in the middle of its
   messages, and no voice of an earlier connection waits in the queue.
   */
  ghost predicate RestartsClean(m: C.Threads) {
    && Restarts(m, C.Work) && (m.cb.Idle? || m.cb.Passed?)
    && m.taken <= |m.s.sent| && forall i :: m.taken <= i < |m.s.sent| ==> m.s.sent[i].EndOfStream?
  }

  lemma {:induction false} RestartStreams(m: C.Threads)
    requires RestartsClean(m) && RingOk(m.s.ring)
    ensures var n := C.Step(m, C.Work); Streams(n, m.taken) && FromQueue(n, m.taken, |m.wire|)
  {
    hide RingOk, FrameNumber;
    RestartIs(m.s);
    hide C.Do;
    var ms := m.s.sent[m.taken..];
    assert forall i :: 0 <= i < |ms| ==> ms[i] == m.s.sent[m.taken + i];
    assert m.wire[|m.wire|..] == [] && m.s.sent[m.taken..m.taken] == [];
  }

  lemma {:induction false} RestartIs(s: T.State)
    ensures var t := C.Do(s, C.ZeroClock); t.frameIndex == 0 && t.sent == s.sent && t.ring == s.ring
  {
  }

  /** The datagrams a connection that began at `m` has sent by `n`. */
  function Datagrams(m: C.Threads, n: C.Threads): seq<Sent> {
    if |m.wire| <= |n.wire| then Numbered(n.wire[|m.wire|..]) else []
  }

  /**
   Over any run of commands, failed opens, device deaths, rebuilds and callbacks, interleaved at every shared access, with
   messages dropped while there is no connection: what a connection that began cleanly sends is a stream, in which voice
   strictly ascends on the media clock, retroactive frames included.
   */
  lemma {:induction false} ConnectionIsStream(config: T.Config, before: seq<C.Event>, after: seq<C.Event>)
    requires var m := C.Run(C.Start(config), before); RestartsClean(m) && NoRestart(C.Step(m, C.Work), after)
    ensures var m := C.Run(C.Start(config), before); var n := C.Run(C.Step(m, C.Work), after);
            |m.wire| <= |n.wire| && Stream(Datagrams(m, n))
  {
    var m := C.Run(C.Start(config), before);
    RunSound(config, before);
    RestartStreams(m);
    hide C.Step, NoRestart, Streams, FromQueue, RestartsClean, C.Run;
    RunStreams(C.Step(m, C.Work), m.taken, |m.wire|, after);
    WireStreams(C.Run(C.Step(m, C.Work), after), m.taken, |m.wire|);
  }

  lemma {:induction false} WireStreams(n: C.Threads, base: nat, first: nat)
    requires Streams(n, base) && FromQueue(n, base, first)
    ensures first <= |n.wire| && Stream(Numbered(n.wire[first..]))
  {
    hide FrameNumber, RingOk, PartOf;
    var ms := n.s.sent[base..];
    assert Ascending(ms) by {
      assert forall i :: 0 <= i < |ms| ==> (ms + C.Outgoing(n.cb))[i] == ms[i];
    }
    var taken := n.s.sent[base..n.taken];
    assert forall i :: 0 <= i < |taken| ==> taken[i] == ms[i];
    PartAscends(n.wire[first..], taken);
  }

  /** So the receiver's verdicts on what is really sent are exact, over any lossy, reordering run. */
  lemma {:induction false} TaskToListener(config: T.Config, before: seq<C.Event>, after: seq<C.Event>, baseDelay: nat,
                                          start: real, first: nat, lo: nat, net: seq<NetEvent>, now: real, decodeOk: bool,
                                          fecOk: bool)
    requires var m := C.Run(C.Start(config), before); RestartsClean(m) && NoRestart(C.Step(m, C.Work), after)
    requires AllInWindow(net, lo)
    ensures var m := C.Run(C.Start(config), before);
            var s := Datagrams(m, C.Run(C.Step(m, C.Work), after));
            var r := NetRun(Fresh(baseDelay, start), s, first, net);
            var o := Decode(r, now, decodeOk, fecOk).1;
            o.Reanchored? || o.Concealed? || o.Recovered? ==>
              Ahead(r) != map[] && Truthful(r, s, first, o, MinKey(Ahead(r)))
  {
    hide NetRun, Decode, Fresh, Good, Tracks, Stream, AllInWindow, Truthful, C.Run, C.Step, NoRestart, RestartsClean;
    hide Datagrams;
    ConnectionIsStream(config, before, after);
    var m := C.Run(C.Start(config), before);
    var s, rx := Datagrams(m, C.Run(C.Step(m, C.Work), after)), Fresh(baseDelay, start);
    FreshTracks(baseDelay, start, s, first, lo);
    VerdictsAreTruthful(rx, s, first, lo, net, now, decodeOk, fecOk);
  }

  /** Speaks, reconnects before the frame is dequeued, speaks again, and only then dequeues. */
  function LeftoverRun(config: T.Config): seq<C.Event> {
    var m := C.Run(C.Start(config), C.Ready(config));
    var s := C.Run(m, C.Speaks([])).s;
    C.Ready(config) + (C.Speaks([]) + C.Through(s, T.ConnectionEstablished(true, true)) + C.Speaks([])
                       + [C.Dequeues, C.Dequeues])
  }

  /** The condition on the queue is needed: what this run sends is no stream, for the old frame is not before the new. */
  lemma {:induction false} LeftoverBreaksStream(config: T.Config)
    ensures var n := C.Run(C.Start(config), LeftoverRun(config)); !Stream(Numbered(n.wire))
  {
    hide C.Run, C.Ready, C.Speaks, C.Through, C.Plan, C.Talking, T.Step, FrameNumber;
    var m0, e := C.Start(config), T.ConnectionEstablished(true, true);
    C.ReadyHolds(config);
    var m1 := C.Run(m0, C.Ready(config));
    C.Spoken(m1, []);
    var m2 := C.Run(m1, C.Speaks([]));
    C.TalkingFacts(m2.s);
    C.Reconnected(m2.s);
    C.CommandThrough(m2, e);
    var m3 := m2.(s := T.Step(m2.s, e));
    C.Spoken(m3, []);
    var m4 := C.Run(m3, C.Speaks([]));
    TalkingConnected(m4.s);
    TwoDequeued(m4, m1.s.frameIndex);
    C.RunBoth(m1, C.Speaks([]), C.Through(m2.s, e));
    C.RunBoth(m1, C.Speaks([]) + C.Through(m2.s, e), C.Speaks([]));
    C.RunBoth(m1, C.Speaks([]) + C.Through(m2.s, e) + C.Speaks([]), [C.Dequeues, C.Dequeues]);
    C.RunBoth(m0, C.Ready(config), C.Speaks([]) + C.Through(m2.s, e) + C.Speaks([]) + [C.Dequeues, C.Dequeues]);
  }

  /** Begins a frame, reconnects, finishes it, and speaks again. */
  function StraddlingRun(config: T.Config): seq<C.Event> {
    var s := T.Ticked(C.Run(C.Start(config), C.Ready(config)).s);
    C.Ready(config) + (C.Looks([]) + C.Through(s, T.ConnectionEstablished(true, true)) + [C.Proceeds, C.Proceeds]
                       + C.Speaks([]) + [C.Dequeues, C.Dequeues])
  }

  /** So is the condition on the callback, with nothing left in the queue. */
  lemma {:induction false} StraddlerBreaksStream(config: T.Config)
    ensures var n := C.Run(C.Start(config), StraddlingRun(config)); !Stream(Numbered(n.wire))
  {
    hide C.Run, C.Ready, C.Speaks, C.Looks, C.Through, C.Plan, C.Talking, T.Step, T.Ticked, FrameNumber;
    var m0, e := C.Start(config), T.ConnectionEstablished(true, true);
    var finish := [C.Proceeds, C.Proceeds];
    C.ReadyHolds(config);
    var m1 := C.Run(m0, C.Ready(config));
    var s, f := T.Ticked(m1.s), m1.s.frameIndex;
    C.TalkingFacts(m1.s);
    C.TickedIs(m1.s);
    C.LooksAt(m1, []);
    var m2 := m1.(s := s, cb := C.Looked(f, [], false, m1.s.wasTransmitting));
    C.Reconnected(s);
    C.ReconnectsAtOnce(s);
    C.CommandThrough(m2, e);
    var m3 := m2.(s := T.Step(s, e));
    C.SpeaksOn(m3, f, []);
    var m4 := C.Run(m3, finish);
    C.Spoken(m4, []);
    var m5 := C.Run(m4, C.Speaks([]));
    TalkingConnected(m5.s);
    TwoDequeued(m5, f);
    C.RunBoth(m1, C.Looks([]), C.Through(s, e));
    C.RunBoth(m1, C.Looks([]) + C.Through(s, e), finish);
    C.RunBoth(m1, C.Looks([]) + C.Through(s, e) + finish, C.Speaks([]));
    C.RunBoth(m1, C.Looks([]) + C.Through(s, e) + finish + C.Speaks([]), [C.Dequeues, C.Dequeues]);
    C.RunBoth(m0, C.Ready(config), C.Looks([]) + C.Through(s, e) + finish + C.Speaks([]) + [C.Dequeues, C.Dequeues]);
  }

  lemma {:induction false} TalkingConnected(s: T.State)
    requires C.Talking(s, 0)
    ensures s.connected
  {
  }

  lemma {:induction false} TwoDequeued(m: C.Threads, f: nat)
    requires m.todo == [] && m.s.connected && m.taken == 0 && m.wire == []
    requires m.s.sent == [EncodedFrame(f * FRAME_US, []), EncodedFrame(0 * FRAME_US, [])]
    ensures !Stream(Numbered(C.Run(m, [C.Dequeues, C.Dequeues]).wire))
  {
    C.FourSteps(m, C.Dequeues, C.Dequeues, C.Dequeues, C.Dequeues);
    hide C.Run;
    var n := C.Run(m, [C.Dequeues, C.Dequeues]);
    assert m.s.sent[0] == EncodedFrame(f * FRAME_US, []) && m.s.sent[1] == EncodedFrame(0 * FRAME_US, []);
    assert n.wire == [m.s.sent[0], m.s.sent[1]];
    assert Numbered(n.wire)[0] == Voice(f) && Numbered(n.wire)[1] == Voice(0);
  }
}
