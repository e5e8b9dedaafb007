/**
 The transmit gate of the capture callback: suppressed frames are stashed in the pre-roll ring and sent retroactively,
 ahead of the frame that opens the gate. Samples are the processed frames; every encode succeeds.
 */
module CaptureGate {
  import opened Options
  import opened MediaClock
  import opened PreRoll
  import V = Verdict

  // One captured frame: its place on the media clock, its samples and the gate's verdict. `stopped` tells that capture
  // was deactivated since the frame before, with an end-of-stream stamped as given.
  datatype Capture = Capture(index: nat, samples: Pcm, suppress: bool, stopped: Option<nat>)

  datatype Message = EncodedFrame(timestampUs: nat, samples: Pcm) | EndOfStream(timestampUs: nat)

  datatype GateState = GateState(run: seq<Slot>, wasTransmitting: bool)

  const CLOSED := GateState([], false)

  function Encoded(run: seq<Slot>): seq<Message> {
    seq(|run|, i requires 0 <= i < |run| => EncodedFrame(run[i].timestampUs, run[i].samples))
  }

  function SlotOf(c: Capture): Slot {
    Slot(c.index * FRAME_US, c.samples)
  }

  /** PushToTalk overrides the pipeline's verdict. */
  predicate Suppresses(pipelineSuppress: bool, vadGateBypass: bool) {
    pipelineSuppress && !vadGateBypass
  }

  function Stopped(c: Capture): seq<Message> {
    if c.stopped.Some? then [EndOfStream(c.stopped.value)] else []
  }

  /** One captured frame: what is sent, and the state it leaves. */
  function OnFrame(st: GateState, c: Capture): (GateState, seq<Message>) {
    var ts := c.index * FRAME_US;
    var was := st.wasTransmitting && c.stopped.None?;
    if c.suppress then
      (GateState(Pushed(st.run, PRE_ROLL_FRAMES, SlotOf(c)), false),
       Stopped(c) + (if was then [EndOfStream(ts)] else []))
    else
      (GateState([], true), Stopped(c) + Encoded(Flushed(st.run, ts)) + [EncodedFrame(ts, c.samples)])
  }

  function Run(cs: seq<Capture>): (GateState, seq<Message>) {
    if cs == [] then (CLOSED, [])
    else
      var n := |cs| - 1;
      var (st, out) := Run(cs[..n]);
      var (st', more) := OnFrame(st, cs[n]);
      (st', out + more)
  }

  // ---- The declarative form

  /** The media clock only moves forward; it may jump. */
  ghost predicate ClockAdvances(cs: seq<Capture>) {
    forall i, j :: 0 <= i < j < |cs| ==> cs[i].index < cs[j].index
  }

  /** A gate opening at `j` is within reach of frame `k`: at most five frames later, on a clock that did not jump. */
  ghost predicate OpensSoon(cs: seq<Capture>, k: nat, j: nat)
    requires k < |cs| && j < |cs|
  {
    k < j <= k + PRE_ROLL_FRAMES && !cs[j].suppress && cs[j].index - cs[k].index == j - k
  }

  /** The frames to be sent among the first `n`: the unsuppressed ones and those shortly before a gate opening. */
  ghost predicate IsSent(cs: seq<Capture>, n: nat, k: nat)
    requires k < n <= |cs|
  {
    !cs[k].suppress || exists j: nat :: j < n && OpensSoon(cs, k, j)
  }

  ghost function FrameOf(c: Capture): Message {
    EncodedFrame(c.index * FRAME_US, c.samples)
  }

  /** The frames to be sent among the first `n`, up to position `m`, each once, in capture order. */
  ghost function Expected(cs: seq<Capture>, n: nat, m: nat): seq<Message>
    requires m <= n <= |cs|
  {
    if m == 0 then [] else Expected(cs, n, m - 1) + (if IsSent(cs, n, m - 1) then [FrameOf(cs[m - 1])] else [])
  }

  function Voices(ms: seq<Message>): seq<Message> {
    if ms == [] then []
    else Voices(ms[..|ms| - 1]) + (if ms[|ms| - 1].EncodedFrame? then [ms[|ms| - 1]] else [])
  }

  lemma {:induction false} VoicesConcat(a: seq<Message>, b: seq<Message>)
    ensures Voices(a + b) == Voices(a) + Voices(b)
    decreases |b|
  {
    if b == [] {
      assert a + b == a;
    } else {
      var n := |b| - 1;
      VoicesConcat(a, b[..n]);
      assert (a + b)[..|a + b| - 1] == a + b[..n];
    }
  }

  lemma {:induction false} AllVoices(run: seq<Slot>)
    ensures Voices(Encoded(run)) == Encoded(run)
    decreases |run|
  {
    if run != [] {
      var n := |run| - 1;
      AllVoices(run[..n]);
      assert Encoded(run)[..n] == Encoded(run[..n]);
    }
  }

  // ---- The ring as a tail of the input

  /** How many of the first `n` frames the ring holds. */
  ghost function TailLen(cs: seq<Capture>, n: nat): (r: nat)
    requires n <= |cs|
    ensures r <= n && r <= PRE_ROLL_FRAMES
  {
    if n == 0 || !cs[n - 1].suppress then 0
    else
      var r := TailLen(cs, n - 1);
      if r > 0 && cs[n - 2].index + 1 != cs[n - 1].index then 1
      else if r == PRE_ROLL_FRAMES then r else r + 1
  }

  ghost function SlotsOf(cs: seq<Capture>): seq<Slot> {
    seq(|cs|, i requires 0 <= i < |cs| => SlotOf(cs[i]))
  }

  /** Frame `k` of the first `n` is in the ring: at most five back, all suppressed since, on an unbroken clock. */
  ghost predicate InTail(cs: seq<Capture>, n: nat, k: nat)
    requires k < n <= |cs|
  {
    && n - k <= PRE_ROLL_FRAMES && (forall i :: k <= i < n ==> cs[i].suppress)
    && cs[n - 1].index - cs[k].index == n - 1 - k
  }

  lemma {:induction false} TailIs(cs: seq<Capture>, n: nat, k: nat)
    requires ClockAdvances(cs) && k < n <= |cs|
    ensures k >= n - TailLen(cs, n) <==> InTail(cs, n, k)
    decreases n
  {
    if cs[n - 1].suppress && k < n - 1 {
      TailIs(cs, n - 1, k);
      ClockGap(cs, k, n - 2);
      if TailLen(cs, n - 1) == PRE_ROLL_FRAMES && k == n - 1 - PRE_ROLL_FRAMES {
        assert n - k == PRE_ROLL_FRAMES + 1;
      }
    }
  }

  /** The clock advances by at least one per frame. */
  lemma {:induction false} ClockGap(cs: seq<Capture>, i: nat, j: nat)
    requires ClockAdvances(cs) && i <= j < |cs|
    ensures cs[j].index - cs[i].index >= j - i
    decreases j
  {
    if i < j {
      ClockGap(cs, i, j - 1);
    }
  }

  lemma {:induction false} RunStep(cs: seq<Capture>, n: nat)
    requires n < |cs|
    ensures Run(cs[..n + 1]).0 == OnFrame(Run(cs[..n]).0, cs[n]).0
    ensures Run(cs[..n + 1]).1 == Run(cs[..n]).1 + OnFrame(Run(cs[..n]).0, cs[n]).1
  {
    hide OnFrame;
    assert cs[..n + 1][..n] == cs[..n];
  }

  /** How many of the ring's `r` frames survive the next suppressed one. */
  ghost function Kept(cs: seq<Capture>, n: nat, r: nat): (kept: nat)
    requires n < |cs| && r <= n
    ensures kept <= r
  {
    if r > 0 && cs[n - 1].index + 1 != cs[n].index then 0 else if r == PRE_ROLL_FRAMES then r - 1 else r
  }

  lemma {:induction false} PushKeepsTail(cs: seq<Capture>, n: nat)
    requires n < |cs| && cs[n].suppress
    ensures Pushed(SlotsOf(cs[n - TailLen(cs, n)..n]), PRE_ROLL_FRAMES, SlotOf(cs[n]))
         == SlotsOf(cs[n + 1 - TailLen(cs, n + 1)..n + 1])
  {
    var r := TailLen(cs, n);
    var kept := Kept(cs, n, r);
    TailGrows(cs, n);
    PushedKeeps(cs, n, r);
    hide TailLen, Pushed, Kept;
    assert SlotsOf(cs[n - kept..n + 1]) == SlotsOf(cs[n - kept..n]) + [SlotOf(cs[n])];
  }

  lemma {:induction false} PushedKeeps(cs: seq<Capture>, n: nat, r: nat)
    requires n < |cs| && r <= n && r <= PRE_ROLL_FRAMES
    ensures Pushed(SlotsOf(cs[n - r..n]), PRE_ROLL_FRAMES, SlotOf(cs[n]))
         == SlotsOf(cs[n - Kept(cs, n, r)..n]) + [SlotOf(cs[n])]
  {
    var run := SlotsOf(cs[n - r..n]);
    assert r > 0 ==> run[r - 1] == SlotOf(cs[n - 1]);
    assert SlotsOf(cs[n - Kept(cs, n, r)..n]) == run[r - Kept(cs, n, r)..];
  }

  lemma {:induction false} TailGrows(cs: seq<Capture>, n: nat)
    requires n < |cs| && cs[n].suppress
    ensures TailLen(cs, n + 1) == Kept(cs, n, TailLen(cs, n)) + 1
  {
  }

  ghost predicate HoldsTail(st: GateState, cs: seq<Capture>, n: nat)
    requires n <= |cs|
  {
    && st.run == SlotsOf(cs[n - TailLen(cs, n)..n])
    && (st.wasTransmitting <==> n > 0 && !cs[n - 1].suppress)
  }

  lemma {:induction false} TailStep(st: GateState, cs: seq<Capture>, n: nat)
    requires n < |cs| && HoldsTail(st, cs, n)
    ensures HoldsTail(OnFrame(st, cs[n]).0, cs, n + 1)
  {
    hide Pushed, SlotsOf, Flushed, Encoded, TailLen;
    if cs[n].suppress {
      PushKeepsTail(cs, n);
    } else {
      EmptyTail(cs, n + 1);
    }
  }

  lemma {:induction false} RingIsTail(cs: seq<Capture>, n: nat)
    requires n <= |cs|
    ensures HoldsTail(Run(cs[..n]).0, cs, n)
    decreases n
  {
    if n > 0 {
      hide Run, HoldsTail, OnFrame;
      RingIsTail(cs, n - 1);
      RunStep(cs, n - 1);
      TailStep(Run(cs[..n - 1]).0, cs, n - 1);
    } else {
      EmptyTail(cs, 0);
    }
  }

  lemma {:induction false} EmptyTail(cs: seq<Capture>, n: nat)
    requires n <= |cs| && (n == 0 || !cs[n - 1].suppress)
    ensures TailLen(cs, n) == 0 && SlotsOf(cs[n..n]) == []
  {
  }

  // ---- What is sent is what should be

  lemma {:induction false} ExpectedSame(cs: seq<Capture>, n: nat, m: nat)
    requires m <= n < |cs|
    requires forall k: nat :: k < m ==> (IsSent(cs, n + 1, k) <==> IsSent(cs, n, k))
    ensures Expected(cs, n + 1, m) == Expected(cs, n, m)
    decreases m
  {
    hide IsSent;
    if m > 0 {
      ExpectedSame(cs, n, m - 1);
    }
  }

  /** A suppressed frame changes nothing yet. */
  lemma {:induction false} SuppressedSendsNothing(cs: seq<Capture>, n: nat)
    requires n < |cs| && cs[n].suppress
    ensures Expected(cs, n + 1, n + 1) == Expected(cs, n, n)
  {
    forall k: nat | k < n ensures IsSent(cs, n + 1, k) <==> IsSent(cs, n, k) {
      if j: nat :| j < n + 1 && OpensSoon(cs, k, j) {
        assert j < n;
      }
    }
    ExpectedSame(cs, n, n);
  }

  /** How many stashed frames the gate opening at frame `n` sends. */
  ghost function FlushLen(cs: seq<Capture>, n: nat): (r: nat)
    requires n < |cs|
    ensures r <= TailLen(cs, n)
  {
    var r := TailLen(cs, n);
    if r > 0 && cs[n - 1].index + 1 == cs[n].index then r else 0
  }

  lemma {:induction false} FlushedTail(cs: seq<Capture>, n: nat)
    requires n < |cs|
    ensures Flushed(SlotsOf(cs[n - TailLen(cs, n)..n]), cs[n].index * FRAME_US) == SlotsOf(cs[n - FlushLen(cs, n)..n])
  {
    var r := TailLen(cs, n);
    hide TailLen;
    var run := SlotsOf(cs[n - r..n]);
    if r > 0 {
      assert run[r - 1] == SlotOf(cs[n - 1]);
    }
    assert SlotsOf(cs[n..n]) == [];
  }

  /** A frame in reach of the opening but no longer in the ring has an open gate behind it. */
  lemma {:induction false} SentBefore(cs: seq<Capture>, n: nat, k: nat) returns (i: nat)
    requires ClockAdvances(cs) && k < n < |cs| && k < n - FlushLen(cs, n) && OpensSoon(cs, k, n)
    ensures k <= i < n && !cs[i].suppress
  {
    ClockGap(cs, k, n - 1);
    TailIs(cs, n, k);
    assert !InTail(cs, n, k);
    i :| k <= i < n && !cs[i].suppress;
  }

  /** Further back than the ring reaches, the opening at frame `n` decides nothing that was not decided before. */
  lemma {:induction false} OutOfReach(cs: seq<Capture>, n: nat, k: nat)
    requires ClockAdvances(cs) && k < n < |cs| && k < n - FlushLen(cs, n)
    ensures IsSent(cs, n + 1, k) <==> IsSent(cs, n, k)
  {
    if OpensSoon(cs, k, n) {
      var i := SentBefore(cs, n, k);
      ClockGap(cs, k, i);
      ClockGap(cs, i, n);
      assert k == i || OpensSoon(cs, k, i);
    } else if j: nat :| j < n + 1 && OpensSoon(cs, k, j) {
      assert j < n;
    }
  }

  /** What the ring holds is due exactly when the gate opens right behind it. */
  lemma {:induction false} WithinReach(cs: seq<Capture>, n: nat, k: nat)
    requires ClockAdvances(cs) && n < |cs| && n - FlushLen(cs, n) <= k < n
    ensures !cs[n].suppress ==> IsSent(cs, n + 1, k)
    ensures !IsSent(cs, n, k)
  {
    TailIs(cs, n, k);
    hide TailLen;
    assert InTail(cs, n, k);
    if !cs[n].suppress {
      assert OpensSoon(cs, k, n);
    }
  }

  lemma {:induction false} NothingDue(cs: seq<Capture>, n: nat, m: nat)
    requires ClockAdvances(cs) && n < |cs| && n - FlushLen(cs, n) <= m <= n
    ensures Expected(cs, n, m) == Expected(cs, n, n - FlushLen(cs, n))
    decreases m
  {
    if m > n - FlushLen(cs, n) {
      NothingDue(cs, n, m - 1);
      WithinReach(cs, n, m - 1);
    }
  }

  lemma {:induction false} AllDue(cs: seq<Capture>, n: nat, m: nat)
    requires ClockAdvances(cs) && n < |cs| && n - FlushLen(cs, n) <= m <= n && !cs[n].suppress
    ensures Expected(cs, n + 1, m)
         == Expected(cs, n + 1, n - FlushLen(cs, n)) + Encoded(SlotsOf(cs[n - FlushLen(cs, n)..m]))
    decreases m
  {
    hide IsSent, FlushLen;
    var b := n - FlushLen(cs, n);
    if m > b {
      AllDue(cs, n, m - 1);
      WithinReach(cs, n, m - 1);
      assert Encoded(SlotsOf(cs[b..m])) == Encoded(SlotsOf(cs[b..m - 1])) + [FrameOf(cs[m - 1])];
    }
  }

  lemma {:induction false} OpeningSends(cs: seq<Capture>, n: nat)
    requires ClockAdvances(cs) && n < |cs| && !cs[n].suppress
    ensures Expected(cs, n + 1, n + 1)
         == Expected(cs, n, n) + Encoded(SlotsOf(cs[n - FlushLen(cs, n)..n])) + [FrameOf(cs[n])]
  {
    var b := n - FlushLen(cs, n);
    forall k: nat | k < b ensures IsSent(cs, n + 1, k) <==> IsSent(cs, n, k) {
      OutOfReach(cs, n, k);
    }
    ExpectedSame(cs, n, b);
    NothingDue(cs, n, n);
    AllDue(cs, n, n);
    assert IsSent(cs, n + 1, n);
  }

  lemma {:induction false} VoicesOfFrame(st: GateState, c: Capture)
    ensures Voices(OnFrame(st, c).1) == if c.suppress then [] else
              Encoded(Flushed(st.run, c.index * FRAME_US)) + [FrameOf(c)]
  {
    var ts := c.index * FRAME_US;
    assert Voices(Stopped(c)) == [];
    if c.suppress {
      VoicesConcat(Stopped(c), OnFrame(st, c).1[|Stopped(c)|..]);
      assert OnFrame(st, c).1 == Stopped(c) + OnFrame(st, c).1[|Stopped(c)|..];
    } else {
      var run := Flushed(st.run, ts);
      AllVoices(run);
      VoicesConcat(Stopped(c), Encoded(run));
      VoicesConcat(Stopped(c) + Encoded(run), [FrameOf(c)]);
    }
  }

  /**
   Of any captured frames on a forward clock, the voice sent is exactly the unsuppressed frames and those at most five
   frames ahead of a gate opening, each once and in capture order.
   */
  lemma {:induction false} SendsExactly(cs: seq<Capture>, n: nat)
    requires ClockAdvances(cs) && n <= |cs|
    ensures Voices(Run(cs[..n]).1) == Expected(cs, n, n)
    decreases n
  {
    if n > 0 {
      SendsExactly(cs, n - 1);
      SendsStep(cs, n - 1);
    }
  }

  lemma {:induction false} SendsStep(cs: seq<Capture>, n: nat)
    requires ClockAdvances(cs) && n < |cs|
    requires Voices(Run(cs[..n]).1) == Expected(cs, n, n)
    ensures Voices(Run(cs[..n + 1]).1) == Expected(cs, n + 1, n + 1)
  {
    hide Run, OnFrame, Expected, Voices, Flushed, Encoded, SlotsOf;
    var (st, c) := (Run(cs[..n]).0, cs[n]);
    RunStep(cs, n);
    VoicesConcat(Run(cs[..n]).1, OnFrame(st, c).1);
    VoicesOfFrame(st, c);
    RingIsTail(cs, n);
    if c.suppress {
      SuppressedSendsNothing(cs, n);
    } else {
      FlushedTail(cs, n);
      OpeningSends(cs, n);
    }
  }

  // ---- In what order, and with how many end-of-stream marks

  function FrameNumber(m: Message): nat {
    m.timestampUs / FRAME_US
  }

  ghost predicate Ascending(ms: seq<Message>) {
    forall i, j :: 0 <= i < j < |ms| && ms[i].EncodedFrame? && ms[j].EncodedFrame? ==> FrameNumber(ms[i]) < FrameNumber(ms[j])
  }

  lemma {:induction false} ExpectedAscends(cs: seq<Capture>, n: nat, m: nat)
    requires ClockAdvances(cs) && m <= n <= |cs|
    ensures Ascending(Expected(cs, n, m))
    ensures forall i :: 0 <= i < |Expected(cs, n, m)| ==>
              m > 0 && Expected(cs, n, m)[i].EncodedFrame? && FrameNumber(Expected(cs, n, m)[i]) <= cs[m - 1].index
    decreases m
  {
    if m > 0 {
      ExpectedAscends(cs, n, m - 1);
      hide IsSent;
      assert FrameNumber(FrameOf(cs[m - 1])) == cs[m - 1].index;
    }
  }

  lemma {:induction false} VoicesAscend(ms: seq<Message>)
    requires Ascending(Voices(ms))
    ensures Ascending(ms)
    ensures forall i :: 0 <= i < |ms| && ms[i].EncodedFrame? ==> ms[i] in Voices(ms)
    decreases |ms|
  {
    if ms != [] {
      var n := |ms| - 1;
      var rest := Voices(ms[..n]);
      assert rest <= Voices(ms);
      assert forall i, j :: 0 <= i < j < |rest| ==> rest[i] == Voices(ms)[i] && rest[j] == Voices(ms)[j];
      VoicesAscend(ms[..n]);
      hide FrameNumber;
      assert forall i :: 0 <= i < n ==> ms[i] == ms[..n][i];
      if ms[n].EncodedFrame? {
        AllEncoded(ms);
        assert Voices(ms)[|rest|] == ms[n];
      }
    }
  }

  lemma {:induction false} AllEncoded(ms: seq<Message>)
    ensures forall i :: 0 <= i < |Voices(ms)| ==> Voices(ms)[i].EncodedFrame?
    decreases |ms|
  {
    if ms != [] {
      AllEncoded(ms[..|ms| - 1]);
    }
  }

  /** The sender numbers its messages in the order they leave the gate. */
  function Numbered(ms: seq<Message>): seq<V.Sent> {
    seq(|ms|, i requires 0 <= i < |ms| => if ms[i].EncodedFrame? then V.Voice(FrameNumber(ms[i])) else V.EosMark)
  }

  /** What the gate emits is a stream as the receiver's verdict assumes it. */
  lemma {:induction false} GateFeedsVerdict(cs: seq<Capture>)
    requires ClockAdvances(cs)
    ensures Ascending(Run(cs).1) && V.Stream(Numbered(Run(cs).1))
  {
    assert cs[..|cs|] == cs;
    SendsExactly(cs, |cs|);
    ExpectedAscends(cs, |cs|, |cs|);
    VoicesAscend(Run(cs).1);
    hide Run, FrameNumber;
  }

  function Ends(ms: seq<Message>): seq<Message> {
    if ms == [] then []
    else Ends(ms[..|ms| - 1]) + (if ms[|ms| - 1].EndOfStream? then [ms[|ms| - 1]] else [])
  }

  lemma {:induction false} EndsConcat(a: seq<Message>, b: seq<Message>)
    ensures Ends(a + b) == Ends(a) + Ends(b)
    decreases |b|
  {
    if b == [] {
      assert a + b == a;
    } else {
      var n := |b| - 1;
      EndsConcat(a, b[..n]);
      assert (a + b)[..|a + b| - 1] == a + b[..n];
    }
  }

  lemma {:induction false} NoEnds(ms: seq<Message>)
    requires forall i :: 0 <= i < |ms| ==> ms[i].EncodedFrame?
    ensures Ends(ms) == []
    decreases |ms|
  {
    if ms != [] {
      NoEnds(ms[..|ms| - 1]);
    }
  }

  /** Frame `n` closes an open gate; a deactivation in between has already ended the stream. */
  ghost predicate Closes(cs: seq<Capture>, n: nat)
    requires n < |cs|
  {
    n > 0 && !cs[n - 1].suppress && cs[n].suppress && cs[n].stopped.None?
  }

  /** One mark per deactivation and one per frame that closes the gate, in order. */
  ghost function ExpectedEnds(cs: seq<Capture>, n: nat): seq<Message>
    requires n <= |cs|
  {
    if n == 0 then []
    else ExpectedEnds(cs, n - 1) + Stopped(cs[n - 1]) +
         (if Closes(cs, n - 1) then [EndOfStream(cs[n - 1].index * FRAME_US)] else [])
  }

  lemma {:induction false} EndsExactly(cs: seq<Capture>, n: nat)
    requires n <= |cs|
    ensures Ends(Run(cs[..n]).1) == ExpectedEnds(cs, n)
    decreases n
  {
    hide OnFrame, Stopped, Closes, HoldsTail;
    if n > 0 {
      hide Run, ExpectedEnds, Ends;
      EndsExactly(cs, n - 1);
      RunStep(cs, n - 1);
      RingIsTail(cs, n - 1);
      var st, c := Run(cs[..n - 1]).0, cs[n - 1];
      EndsConcat(Run(cs[..n - 1]).1, OnFrame(st, c).1);
      EndsStep(st, cs, n - 1);
      ExpectedEndsStep(cs, n - 1);
    }
  }

  lemma {:induction false} EndsStep(st: GateState, cs: seq<Capture>, n: nat)
    requires n < |cs| && HoldsTail(st, cs, n)
    ensures Ends(OnFrame(st, cs[n]).1)
         == Stopped(cs[n]) + (if Closes(cs, n) then [EndOfStream(cs[n].index * FRAME_US)] else [])
  {
    hide OnFrame, Ends, TailLen, SlotsOf;
    EndsOfFrame(st, cs[n]);
  }

  lemma {:induction false} ExpectedEndsStep(cs: seq<Capture>, n: nat)
    requires n < |cs|
    ensures ExpectedEnds(cs, n + 1)
         == ExpectedEnds(cs, n) + (Stopped(cs[n]) + (if Closes(cs, n) then [EndOfStream(cs[n].index * FRAME_US)] else []))
  {
    hide Closes, Stopped;
  }

  lemma {:induction false} EndsOfFrame(st: GateState, c: Capture)
    ensures Ends(OnFrame(st, c).1) == Stopped(c) +
              (if c.suppress && st.wasTransmitting && c.stopped.None? then [EndOfStream(c.index * FRAME_US)] else [])
  {
    var ms := OnFrame(st, c).1;
    var rest := ms[|Stopped(c)|..];
    assert ms == Stopped(c) + rest;
    EndsConcat(Stopped(c), rest);
    assert Ends(Stopped(c)) == Stopped(c);
    if c.suppress {
      assert Ends(rest) == rest;
    } else {
      NoEnds(rest);
    }
  }

  // ---- The callback

  /** Deactivation ends the stream and resets the baseline; the ring stays. */
  function Deactivated(st: GateState, timestampUs: nat): (GateState, seq<Message>) {
    (GateState(st.run, false), [EndOfStream(timestampUs)])
  }

  lemma {:induction false} StopThenFrame(st: GateState, c: Capture)
    requires c.stopped.Some?
    ensures var (st1, out1) := Deactivated(st, c.stopped.value);
            var (st2, out2) := OnFrame(st1, c.(stopped := None));
            OnFrame(st, c) == (st2, out1 + out2)
  {
    var ts := c.index * FRAME_US;
    if !c.suppress {
      var e := Encoded(Flushed(st.run, ts));
      assert Stopped(c) + e + [EncodedFrame(ts, c.samples)]
          == Stopped(c) + (Stopped(c.(stopped := None)) + e + [EncodedFrame(ts, c.samples)]);
    } else {
      assert Stopped(c) + [] == Stopped(c) + (Stopped(c.(stopped := None)) + []);
    }
  }

  class CaptureCallback {
    const preroll: PreRollRing
    var captureFrameIndex: nat
    var wasTransmitting: bool
    var vadGateBypass: bool
    var sent: seq<Message>

    ghost predicate Valid()
      reads this, preroll
    {
      preroll.Valid() && preroll.slots.Length == PRE_ROLL_FRAMES
    }

    ghost function State(): GateState
      reads this, preroll, preroll.slots
      requires Valid()
    {
      GateState(preroll.Contents(), wasTransmitting)
    }

    constructor ()
      ensures Valid() && fresh(preroll) && fresh(preroll.slots) && State() == CLOSED && sent == [] && captureFrameIndex == 0
    {
      preroll := new PreRollRing(PRE_ROLL_FRAMES);
      captureFrameIndex, wasTransmitting, vadGateBypass, sent := 0, false, false, [];
    }

    /** One captured frame, after the warm-up frames; the clock has advanced past it on return. */
    method OnSamples(samples: Pcm, pipelineSuppress: bool)
      requires Valid()
      modifies this`captureFrameIndex, this`wasTransmitting, this`sent, preroll, preroll.slots
      ensures Valid() && preroll.slots == old(preroll.slots) && captureFrameIndex == old(captureFrameIndex) + 1
      ensures var c := Capture(old(captureFrameIndex), samples, Suppresses(pipelineSuppress, vadGateBypass), None);
              var (st, out) := OnFrame(old(State()), c);
              State() == st && sent == old(sent) + out
    {
      hide Pushed, Flushed;
      var timestampUs := captureFrameIndex * FRAME_US;
      captureFrameIndex := captureFrameIndex + 1;
      if Suppresses(pipelineSuppress, vadGateBypass) {
        if wasTransmitting {
          wasTransmitting := false;
          sent := sent + [EndOfStream(timestampUs)];
        }
        preroll.Push(timestampUs, samples);
        return;
      }
      wasTransmitting := true;
      var flushed := preroll.FlushInto(timestampUs);
      sent := sent + Encoded(flushed);
      sent := sent + [EncodedFrame(timestampUs, samples)];
    }

    method Deactivate()
      requires Valid()
      modifies this`wasTransmitting, this`sent
      ensures Valid()
      ensures var (st, out) := Deactivated(old(State()), captureFrameIndex * FRAME_US);
              State() == st && sent == old(sent) + out
    {
      sent := sent + [EndOfStream(captureFrameIndex * FRAME_US)];
      wasTransmitting := false;
    }
  }
}
