/**
 The playback ring between the mixer and the device callback: a single producer and a single consumer that interleave at
 every shared access. Mixed frames are opaque; the ring hands its samples over in order.
 */
module PlaybackRing {
  import opened Options

  type Sample = real

  const FRAME_SIZE := 960
  const CAPACITY := 9600
  const PRIME := 2 * FRAME_SIZE
  const TARGET := PRIME

  type Frame = f: seq<Sample> | |f| == FRAME_SIZE witness seq(FRAME_SIZE, _ => 0.0)

  // Where the producer is in a poll: about to compare the depth, about to mix, or about to push a mixed frame.
  datatype Producer = Asleep | Topping | Wanting | Holding(frame: Frame)

  // Where the consumer is in a callback for `len` samples.
  datatype Consumer =
    | Waiting
    | Called(len: nat)
    | Short(len: nat)
    | Sizing(len: nat)
    | Taking(len: nat, n: nat)
    | Dry

  datatype State = State(
    ring: seq<Sample>,
    producerActive: bool,
    producer: Producer,
    consumer: Consumer,
    priming: bool,
    underruns: nat,
    overflows: nat,
    mixed: seq<Sample>,
    played: seq<Sample>)

  const FRESH := State([], false, Asleep, Waiting, true, 0, 0, [], [])

  // One shared access. A poll publishes whether a stream is live; `mix` is what the mixer yields if it is asked now.
  datatype Event = Poll(active: bool) | Produce(mix: Option<Frame>) | Callback(len: nat) | Consume

  function Min(a: nat, b: nat): nat {
    if a < b then a else b
  }

  function PushFrame(s: State, f: Frame): State {
    var n := Min(FRAME_SIZE, if |s.ring| <= CAPACITY then CAPACITY - |s.ring| else 0);
    s.(ring := s.ring + f[..n], producer := Topping,
       overflows := s.overflows + if n < FRAME_SIZE then 1 else 0)
  }

  function ProducerStep(s: State, mix: Option<Frame>): State {
    match s.producer
    case Asleep => s
    case Topping => s.(producer := if |s.ring| < TARGET then Wanting else Asleep)
    case Wanting => (match mix
                     case None => s.(producer := Asleep)
                     case Some(f) => s.(producer := Holding(f), mixed := s.mixed + f))
    case Holding(f) => PushFrame(s, f)
  }

  function Take(s: State, len: nat, n: nat): State {
    var k := Min(n, |s.ring|);
    s.(ring := s.ring[k..], played := s.played + s.ring[..k],
       priming := n < len, consumer := if n < len then Dry else Waiting)
  }

  function ConsumerStep(s: State): State {
    match s.consumer
    case Waiting => s
    case Called(len) => s.(consumer := if s.priming && |s.ring| < PRIME then Short(len) else Sizing(len),
                           priming := s.priming && |s.ring| < PRIME)
    case Short(len) => s.(consumer := if s.producerActive then Waiting else Sizing(len), priming := s.producerActive)
    case Sizing(len) => s.(consumer := Taking(len, Min(|s.ring|, len)))
    case Taking(len, n) => Take(s, len, n)
    case Dry => s.(consumer := Waiting, underruns := s.underruns + if s.producerActive then 1 else 0)
  }

  function Step(s: State, e: Event): State {
    match e
    case Poll(active) => if s.producer.Asleep? then s.(producer := Topping, producerActive := active) else s
    case Produce(mix) => ProducerStep(s, mix)
    case Callback(len) => if s.consumer.Waiting? then s.(consumer := Called(len)) else s
    case Consume => ConsumerStep(s)
  }

  function Run(s: State, es: seq<Event>): State
    decreases |es|
  {
    if es == [] then s else Step(Run(s, es[..|es| - 1]), es[|es| - 1])
  }

  // ---- Every interleaving

  /** What a producer about to push carries. */
  function InHand(s: State): seq<Sample> {
    if s.producer.Holding? then s.producer.frame else []
  }

  ghost predicate Sound(s: State) {
    && |s.ring| <= TARGET - 1 + FRAME_SIZE
    && (s.producer.Wanting? || s.producer.Holding? ==> |s.ring| < TARGET)
    && (s.consumer.Taking? ==> s.consumer.n <= |s.ring| && s.consumer.n <= s.consumer.len)
    && (s.consumer.Sizing? || s.consumer.Taking? ==> !s.priming)
    && (s.consumer.Short? || s.consumer.Dry? ==> s.priming)
    && s.overflows == 0
    && s.mixed == s.played + s.ring + InHand(s)
  }

  lemma {:induction false} StepSound(s: State, e: Event)
    requires Sound(s)
    ensures Sound(Step(s, e))
  {
    if e.Produce? && s.producer.Holding? {
      var f := s.producer.frame;
      assert f[..FRAME_SIZE] == f;
      assert s.played + (s.ring + f) == s.played + s.ring + f;
    }
    if e.Consume? && s.consumer.Taking? {
      var n := s.consumer.n;
      assert s.ring[..n] + s.ring[n..] == s.ring;
      assert (s.played + s.ring[..n]) + s.ring[n..] == s.played + s.ring;
    }
  }

  /**
   In every interleaving: what was mixed is what was played followed by what is still on its way, in order; the ring holds
   at most 2879 of its 9600 samples, so a push never overflows; and production stays within 2879 samples of the device.
   */
  lemma {:induction false} RunSound(s: State, es: seq<Event>)
    requires Sound(s)
    ensures var t := Run(s, es);
            && t.mixed == t.played + t.ring + InHand(t) && |t.ring| <= 2879 && t.overflows == 0
            && |t.mixed| <= |t.played| + 2879 && Sound(t)
    decreases |es|
  {
    if es != [] {
      RunSound(s, es[..|es| - 1]);
      StepSound(Run(s, es[..|es| - 1]), es[|es| - 1]);
    }
  }

  // ---- Priming

  ghost predicate AlwaysPriming(s: State, es: seq<Event>) {
    forall k :: 0 <= k <= |es| ==> Run(s, es[..k]).priming
  }

  /** The mixer has a frame whenever it is asked. */
  ghost predicate Yields(es: seq<Event>) {
    forall k :: 0 <= k < |es| && es[k].Produce? ==> es[k].mix.Some?
  }

  lemma {:induction false} RunPrefix(s: State, es: seq<Event>, k: nat)
    requires k < |es|
    ensures Run(s, es[..k + 1]) == Step(Run(s, es[..k]), es[k])
  {
    assert es[..k + 1][..k] == es[..k];
  }

  lemma {:induction false} PrimingHolds(s: State, es: seq<Event>)
    requires Sound(s) && AlwaysPriming(s, es) && Yields(es)
    requires s.producer.Topping? || (s.producer.Asleep? && |s.ring| >= PRIME)
    ensures Run(s, es).producer.Asleep? ==> |Run(s, es).ring| >= PRIME
    decreases |es|
  {
    if es != [] {
      var n := |es| - 1;
      var t := Run(s, es[..n]);
      assert forall k :: 0 <= k <= n ==> es[..n][..k] == es[..k];
      assert es[..|es|] == es;
      PrimingHolds(s, es[..n]);
      RunSound(s, es[..n]);
      assert t.priming && Run(s, es).priming;
    }
  }

  /**
   A producer that keeps yielding frames lets the filler out of priming: once a poll begun while priming has finished, the
   next callback leaves priming, whatever the consumer did in between.
   */
  lemma {:induction false} YieldingProducerEndsPriming(s: State, es: seq<Event>, len: nat)
    requires Sound(s) && s.producer.Topping? && AlwaysPriming(s, es) && Yields(es)
    requires Run(s, es).producer.Asleep? && Run(s, es).consumer.Waiting?
    ensures !Run(s, es + [Callback(len), Consume]).priming
  {
    PrimingHolds(s, es);
    var t := Run(s, es);
    var more := es + [Callback(len), Consume];
    assert more[..|es| + 1] == es + [Callback(len)];
    assert more[..|es| + 1][..|es|] == es;
  }

  ghost predicate AlwaysShort(s: State, es: seq<Event>) {
    forall k :: 0 <= k <= |es| ==> Run(s, es[..k]).producerActive && |Run(s, es[..k]).ring| < PRIME
  }

  /**
   After running dry the filler stays silent until the cushion is rebuilt: while the stream is live and the ring below the
   cushion, nothing is played and no further underrun is counted.
   */
  lemma {:induction false} OneUnderrunPerGap(s: State, es: seq<Event>)
    requires s.priming && s.consumer.Waiting? && AlwaysShort(s, es)
    ensures Run(s, es).played == s.played && Run(s, es).underruns == s.underruns && Run(s, es).priming
    ensures Run(s, es).consumer.Waiting? || Run(s, es).consumer.Called? || Run(s, es).consumer.Short?
    decreases |es|
  {
    if es != [] {
      var n := |es| - 1;
      assert forall k :: 0 <= k <= n ==> es[..n][..k] == es[..k];
      OneUnderrunPerGap(s, es[..n]);
      assert Run(s, es[..n]).producerActive && |Run(s, es[..n]).ring| < PRIME;
    }
  }

  // ---- After the stream

  /** The stream is over: polls publish that none is live, and the mixer has nothing. */
  ghost predicate Quiet(es: seq<Event>) {
    forall k :: 0 <= k < |es| ==> (es[k].Poll? ==> !es[k].active) && (es[k].Produce? ==> es[k].mix.None?)
  }

  /** The samples asked for by the callbacks that have been served. */
  ghost function Served(s: State, es: seq<Event>): nat
    decreases |es|
  {
    if es == [] then 0
    else
      var t, e := Run(s, es[..|es| - 1]), es[|es| - 1];
      Served(s, es[..|es| - 1]) + if e.Consume? && t.consumer.Taking? then t.consumer.len else 0
  }

  /** What `served` samples asked for have left of the tail `s` holds. */
  ghost predicate Draining(s: State, t: State, served: nat) {
    var k := Min(served, |s.ring|);
    && !t.producerActive && !t.producer.Holding?
    && t.played == s.played + s.ring[..k] && t.ring == s.ring[k..] && t.mixed == s.mixed
    && t.underruns == s.underruns && t.overflows == s.overflows
    && (t.consumer.Taking? ==> t.consumer.n == Min(|t.ring|, t.consumer.len))
  }

  lemma {:induction false} DrainingStep(s: State, t: State, served: nat, e: Event)
    requires Draining(s, t, served) && Quiet([e])
    ensures Draining(s, Step(t, e), served + if e.Consume? && t.consumer.Taking? then t.consumer.len else 0)
  {
    assert Quiet([e]) ==> [e][0] == e;
    if e.Consume? && t.consumer.Taking? {
      TailTaken(s, t, served);
    } else {
      hide Take;
    }
  }

  lemma {:induction false} TailTaken(s: State, t: State, served: nat)
    requires Draining(s, t, served) && t.consumer.Taking?
    ensures Draining(s, Take(t, t.consumer.len, t.consumer.n), served + t.consumer.len)
  {
    var k, n := Min(served, |s.ring|), t.consumer.n;
    assert s.ring[k..][..n] == s.ring[k..k + n];
    assert s.ring[..k] + s.ring[k..k + n] == s.ring[..k + n];
    assert s.played + s.ring[..k] + s.ring[k..k + n] == s.played + s.ring[..k + n];
    assert s.ring[k..][n..] == s.ring[k + n..];
  }

  /** In every interleaving after the stream, callbacks play the tail in order, without an underrun. */
  lemma {:induction false} QuietRunDrains(s: State, es: seq<Event>)
    requires !s.producer.Holding? && s.consumer.Waiting? && !s.producerActive && Quiet(es)
    ensures Draining(s, Run(s, es), Served(s, es))
    decreases |es|
  {
    if es == [] {
      assert s.played + s.ring[..0] == s.played;
    } else {
      var n := |es| - 1;
      QuietRunDrains(s, es[..n]);
      assert Quiet([es[n]]);
      hide Draining, Step;
      DrainingStep(s, Run(s, es[..n]), Served(s, es[..n]), es[n]);
    }
  }

  /**
   A burst too short for the cushion is played out, not stranded, once the stream is over: when the callbacks served have
   asked for as many samples as are left, whatever their lengths, all of them have been played.
   */
  lemma {:induction false} IdleProducerPlaysTail(s: State, es: seq<Event>)
    requires Sound(s) && !s.producer.Holding? && s.consumer.Waiting? && !s.producerActive
    requires Quiet(es) && Served(s, es) >= |s.ring|
    ensures var t := Run(s, es); t.ring == [] && t.played == s.mixed && t.underruns == s.underruns
  {
    QuietRunDrains(s, es);
    assert s.ring[..|s.ring|] == s.ring && s.ring[|s.ring|..] == [];
    assert s.mixed == s.played + s.ring + [];
    hide Run, Served;
  }

  function Blocks(lens: seq<nat>): seq<Event> {
    if lens == [] then [] else Blocks(lens[..|lens| - 1]) + CallbackEvents(lens[|lens| - 1])
  }

  function Sum(lens: seq<nat>): nat {
    if lens == [] then 0 else Sum(lens[..|lens| - 1]) + lens[|lens| - 1]
  }

  // ---- One callback and one poll, undisturbed

  /** A callback takes at most five shared accesses. */
  function CallbackEvents(len: nat): seq<Event> {
    [Callback(len), Consume, Consume, Consume, Consume, Consume]
  }

  lemma {:induction false} CallbackRuns(s: State, len: nat)
    ensures Run(s, CallbackEvents(len))
         == ConsumerStep(ConsumerStep(ConsumerStep(ConsumerStep(ConsumerStep(Step(s, Callback(len)))))))
  {
    hide ConsumerStep;
    var es := CallbackEvents(len);
    RunPrefix(s, es, 0);
    RunPrefix(s, es, 1);
    RunPrefix(s, es, 2);
    RunPrefix(s, es, 3);
    RunPrefix(s, es, 4);
    RunPrefix(s, es, 5);
    assert es[..6] == es;
  }

  /** From a fresh stream, whatever the mixer and the device do. */
  lemma {:induction false} EveryRunSound(es: seq<Event>)
    ensures var t := Run(FRESH, es);
            && t.mixed == t.played + t.ring + InHand(t) && |t.ring| <= 2879 && t.overflows == 0
            && |t.mixed| <= |t.played| + 2879
  {
    RunSound(FRESH, es);
  }

  // ---- The code, one call at a time

  lemma {:induction false} RunStart(s: State)
    ensures Run(s, []) == s
  {
  }

  lemma {:induction false} RunMore(s: State, es: seq<Event>, e: Event)
    ensures Run(s, es + [e]) == Step(Run(s, es), e)
  {
    assert (es + [e])[..|es|] == es;
  }

  function Joined(frames: seq<Frame>): seq<Sample> {
    if frames == [] then [] else Joined(frames[..|frames| - 1]) + frames[|frames| - 1]
  }

  lemma {:induction false} PushedWhole(s: State, f: Frame)
    requires Sound(s) && s.producer == Holding(f)
    ensures PushFrame(s, f) == s.(ring := s.ring + f, producer := Topping)
  {
    assert f[..FRAME_SIZE] == f;
  }

  /** A poll after `taken` frames of `supply`. */
  ghost predicate Progress(start: State, es: seq<Event>, now: State, supply: seq<Frame>, taken: nat) {
    && now == Run(start, es) && Sound(now) && now.producer.Topping?
    && taken <= |supply| && |now.ring| == |start.ring| + taken * FRAME_SIZE
    && now.mixed == start.mixed + Joined(supply[..taken])
    && taken <= 2 && (|start.ring| >= TARGET ==> taken == 0)
  }

  lemma {:induction false} PollBegins(start: State, active: bool, supply: seq<Frame>)
    requires Sound(start) && start.producer.Asleep?
    ensures Progress(start, [Poll(active)], start.(producer := Topping, producerActive := active), supply, 0)
  {
    RunStart(start);
    RunMore(start, [], Poll(active));
    assert [] + [Poll(active)] == [Poll(active)];
    assert supply[..0] == [];
    assert start.mixed + [] == start.mixed;
  }

  lemma {:induction false} FrameRuns(start: State, es: seq<Event>, f: Frame)
    ensures Run(start, es + [Produce(None), Produce(Some(f)), Produce(None)])
         == Step(Step(Step(Run(start, es), Produce(None)), Produce(Some(f))), Produce(None))
  {
    hide Step;
    var es1 := es + [Produce(None)];
    var es2 := es1 + [Produce(Some(f))];
    RunMore(start, es, Produce(None));
    RunMore(start, es1, Produce(Some(f)));
    RunMore(start, es2, Produce(None));
    assert es + [Produce(None), Produce(Some(f)), Produce(None)] == es2 + [Produce(None)];
  }

  /** One turn of the loop: the depth is short of the target, a frame is mixed and pushed. */
  lemma {:induction false} FrameTaken(now: State, f: Frame)
    requires Sound(now) && now.producer.Topping? && |now.ring| < TARGET
    ensures var held := now.(producer := Holding(f), mixed := now.mixed + f);
      && Step(Step(Step(now, Produce(None)), Produce(Some(f))), Produce(None)) == PushFrame(held, f)
      && PushFrame(held, f) == now.(ring := now.ring + f, mixed := now.mixed + f) && Sound(PushFrame(held, f))
  {
    var held := now.(producer := Holding(f), mixed := now.mixed + f);
    assert Step(now, Produce(None)) == now.(producer := Wanting);
    assert Step(now.(producer := Wanting), Produce(Some(f))) == held;
    assert Step(held, Produce(None)) == PushFrame(held, f);
    hide PushFrame;
    StepSound(now, Produce(None));
    StepSound(now.(producer := Wanting), Produce(Some(f)));
    StepSound(held, Produce(None));
    hide Step;
    PushedWhole(held, f);
    hide Sound;
  }

  lemma {:induction false} ProgressStep(start: State, es: seq<Event>, now: State, supply: seq<Frame>, taken: nat)
    requires Progress(start, es, now, supply, taken) && taken < |supply| && |now.ring| < TARGET
    ensures var f := supply[taken];
            var pushed := PushFrame(now.(producer := Holding(f), mixed := now.mixed + f), f);
            Progress(start, es + [Produce(None), Produce(Some(f)), Produce(None)], pushed, supply, taken + 1)
  {
    hide Run, PushFrame, Step, Sound;
    var f := supply[taken];
    FrameRuns(start, es, f);
    FrameTaken(now, f);
    assert supply[..taken + 1][..taken] == supply[..taken];
    assert now.mixed + f == start.mixed + (Joined(supply[..taken]) + f);
  }

  lemma {:induction false} PollRunsOut(start: State, es: seq<Event>, now: State, supply: seq<Frame>)
    requires Progress(start, es, now, supply, |supply|) && |now.ring| < TARGET
    ensures Run(start, es + [Produce(None), Produce(None)]) == now.(producer := Asleep)
    ensures now.mixed == start.mixed + Joined(supply[..|supply|]) && |supply| <= 2
    ensures |start.ring| >= TARGET ==> |supply| == 0
  {
    var es1 := es + [Produce(None)];
    RunMore(start, es, Produce(None));
    RunMore(start, es1, Produce(None));
    assert es + [Produce(None), Produce(None)] == es1 + [Produce(None)];
  }

  lemma {:induction false} PollEnds(start: State, es: seq<Event>, now: State, supply: seq<Frame>, taken: nat)
    requires Progress(start, es, now, supply, taken) && |now.ring| >= TARGET
    ensures Run(start, es + [Produce(None)]) == now.(producer := Asleep)
    ensures now.mixed == start.mixed + Joined(supply[..taken]) && taken <= 2
    ensures |start.ring| >= TARGET ==> taken == 0
  {
    RunMore(start, es, Produce(None));
  }

  /** The shared ring and flags; `mixed` and `played` record the traffic. */
  class Shared {
    var ring: seq<Sample>
    var producerActive: bool
    var underruns: nat
    var overflows: nat
    ghost var mixed: seq<Sample>
    ghost var played: seq<Sample>

    ghost function At(priming: bool, producer: Producer): State
      reads this
    {
      State(ring, producerActive, producer, Waiting, priming, underruns, overflows, mixed, played)
    }

    constructor ()
      ensures At(true, Asleep) == FRESH
    {
      ring, producerActive, underruns, overflows := [], false, 0, 0;
      mixed, played := [], [];
    }

    function Slots(): nat
      reads this
    {
      if |ring| <= CAPACITY then CAPACITY - |ring| else 0
    }

    method Push(frame: Frame)
      modifies this`ring, this`overflows
      ensures forall priming :: At(priming, Topping) == PushFrame(old(At(priming, Holding(frame))), frame)
      ensures var free := if old(|ring|) <= 9600 then 9600 - old(|ring|) else 0;
              var n := if free < 960 then free else 960;
              ring == old(ring) + frame[..n] && overflows == old(overflows) + if n < 960 then 1 else 0
    {
      var n := Min(|frame|, Slots());
      if n > 0 {
        ring := ring + frame[..n];
      }
      if n < |frame| {
        overflows := overflows + 1;
      }
      assert n == 0 ==> ring + frame[..0] == ring;
    }

    /** One poll; `supply` are the frames the mixer has, and it has nothing more after them. */
    method FillPlaybackRing(supply: seq<Frame>, streamActive: bool, ghost priming: bool)
      returns (taken: nat, ghost es: seq<Event>)
      requires Sound(At(priming, Asleep))
      modifies this
      ensures At(priming, Asleep) == Run(old(At(priming, Asleep)), es)
      ensures taken <= |supply| && (|ring| >= TARGET || taken == |supply|)
      ensures mixed == old(mixed) + Joined(supply[..taken])
      ensures taken <= 2 && (old(|ring|) >= TARGET ==> taken == 0)
      ensures producerActive == streamActive
    {
      hide Progress, PushFrame, Run, Sound, Joined;
      ghost var start := At(priming, Asleep);
      PollBegins(start, streamActive, supply);
      producerActive := streamActive;
      es := [Poll(streamActive)];
      taken := 0;
      while CAPACITY - Slots() < TARGET
        invariant Progress(start, es, At(priming, Topping), supply, taken)
        invariant taken <= |supply| && producerActive == streamActive
        decreases |supply| - taken
      {
        ghost var now := At(priming, Topping);
        if taken == |supply| {
          PollRunsOut(start, es, now, supply);
          es := es + [Produce(None), Produce(None)];
          return;
        }
        var frame := supply[taken];
        ProgressStep(start, es, now, supply, taken);
        mixed := mixed + frame;
        Push(frame);
        taken := taken + 1;
        es := es + [Produce(None), Produce(Some(frame)), Produce(None)];
      }
      PollEnds(start, es, At(priming, Topping), supply, taken);
      es := es + [Produce(None)];
    }
  }

  /** A callback with nothing in between. */
  function Filled(s: State, len: nat): State {
    if s.priming && |s.ring| < PRIME && s.producerActive then s
    else
      var n := Min(|s.ring|, len);
      s.(ring := s.ring[n..], played := s.played + s.ring[..n], priming := n < len,
         underruns := s.underruns + if n < len && s.producerActive then 1 else 0)
  }

  lemma {:induction false} WaitingStays(s: State)
    requires s.consumer.Waiting?
    ensures ConsumerStep(s) == s
  {
  }

  /** From the point where a callback goes on to play, undisturbed: it takes, and counts an underrun if it ran dry. */
  lemma {:induction false} SizingFills(s: State, len: nat)
    requires s.consumer == Sizing(len)
    ensures var n := Min(|s.ring|, len);
            ConsumerStep(ConsumerStep(ConsumerStep(s)))
            == s.(ring := s.ring[n..], played := s.played + s.ring[..n], priming := n < len, consumer := Waiting,
                  underruns := s.underruns + if n < len && s.producerActive then 1 else 0)
  {
    var n := Min(|s.ring|, len);
    var taking := s.(consumer := Taking(len, n));
    assert ConsumerStep(s) == taking;
    assert ConsumerStep(taking) == Take(taking, len, n);
    if n >= len {
      WaitingStays(Take(taking, len, n));
    }
  }

  /** Up to there, it takes one access or two. */
  lemma {:induction false} CallbackGates(s: State, len: nat)
    requires s.consumer == Called(len)
    ensures var t := ConsumerStep(s); var u := ConsumerStep(t);
      if s.priming && |s.ring| < PRIME && s.producerActive then u == s.(consumer := Waiting)
      else if s.priming && |s.ring| < PRIME then u == s.(consumer := Sizing(len), priming := false)
      else t == s.(consumer := Sizing(len), priming := false)
  {
    hide Take;
  }

  lemma {:induction false} CallbackFills(s: State, len: nat)
    requires s.consumer.Waiting?
    ensures Run(s, CallbackEvents(len)) == Filled(s, len)
  {
    hide Run, ConsumerStep;
    CallbackRuns(s, len);
    var c := s.(consumer := Called(len));
    assert Step(s, Callback(len)) == c;
    CallbackGates(c, len);
    var t := ConsumerStep(c);
    if s.priming && |s.ring| < PRIME {
      if s.producerActive {
        WaitingStays(s);
      } else {
        SizingFills(ConsumerStep(t), len);
      }
    } else {
      SizingFills(t, len);
      WaitingStays(Filled(s, len));
    }
  }

  /** `n` samples are handed over: all that was asked for, or all there are. */
  predicate Fits(ring: seq<Sample>, len: nat, n: nat) {
    n <= len && n <= |ring| && (n == len || n == |ring|)
  }

  /** The callback holds the output silent: the cushion is not there yet and the stream is live. */
  predicate Withholds(s: State) {
    s.priming && |s.ring| < 1920 && s.producerActive
  }

  /**
   A callback with nothing in between, whether the stream is live or not: unless it withholds, it plays what was asked for
   or all there is; it primes again exactly if that is too little, and counts an underrun exactly if the stream is live too.
   */
  lemma {:induction false} CallbackPlays(s: State, len: nat, n: nat)
    requires s.consumer.Waiting? && (if Withholds(s) then n == 0 else Fits(s.ring, len, n))
    ensures Run(s, CallbackEvents(len)) ==
            s.(ring := s.ring[n..], played := s.played + s.ring[..n], priming := Withholds(s) || n < len,
               underruns := s.underruns + if !Withholds(s) && n < len && s.producerActive then 1 else 0)
  {
    CallbackFills(s, len);
    hide Run;
    if Withholds(s) {
      assert s.ring[0..] == s.ring && s.played + s.ring[..0] == s.played;
    }
  }

  lemma {:induction false} RunJoin(s: State, a: seq<Event>, b: seq<Event>)
    ensures Run(s, a + b) == Run(Run(s, a), b) && Served(s, a + b) == Served(s, a) + Served(Run(s, a), b)
    decreases |b|
  {
    hide Step;
    if b == [] {
      assert a + b == a;
    } else {
      var n := |b| - 1;
      RunJoin(s, a, b[..n]);
      assert (a + b)[..|a + b| - 1] == a + b[..n];
    }
  }

  lemma {:induction false} ServedPrefix(s: State, es: seq<Event>, k: nat)
    requires k < |es|
    ensures var t := Run(s, es[..k]);
            && Run(s, es[..k + 1]) == Step(t, es[k])
            && Served(s, es[..k + 1]) == Served(s, es[..k]) + if es[k].Consume? && t.consumer.Taking? then t.consumer.len else 0
  {
    assert es[..k + 1][..k] == es[..k];
  }

  /** How many accesses a callback has left at most. */
  function Left(c: Consumer): nat {
    match c
    case Called(_) => 5
    case Short(_) => 4
    case Sizing(_) => 3
    case Taking(_, _) => 2
    case Dry => 1
    case Waiting => 0
  }

  /** A callback for `len` samples after the stream, served already or not yet. */
  ghost predicate Serving(s: State, t: State, len: nat, served: nat) {
    && !t.producerActive && t.producer == s.producer
    && (match t.consumer
        case Waiting => served == len
        case Dry => served == len
        case Called(l) => l == len && served == 0
        case Short(l) => l == len && served == 0
        case Sizing(l) => l == len && served == 0
        case Taking(l, _) => l == len && served == 0)
  }

  lemma {:induction false} ServingStep(s: State, t: State, len: nat, served: nat)
    requires Serving(s, t, len, served)
    ensures Serving(s, ConsumerStep(t), len, served + if t.consumer.Taking? then t.consumer.len else 0)
    ensures Left(ConsumerStep(t).consumer) <= if Left(t.consumer) == 0 then 0 else Left(t.consumer) - 1
  {
  }

  lemma {:induction false} ServingAfter(s: State, len: nat, k: nat)
    requires s.consumer.Waiting? && !s.producerActive && 0 < k <= 6
    ensures var es := CallbackEvents(len)[..k];
            Serving(s, Run(s, es), len, Served(s, es)) && Left(Run(s, es).consumer) <= 6 - k
    decreases k
  {
    var es := CallbackEvents(len);
    ServedPrefix(s, es, k - 1);
    if k > 1 {
      ServingAfter(s, len, k - 1);
      hide Run, Served, Serving, ConsumerStep;
      assert es[k - 1] == Consume;
      ServingStep(s, Run(s, es[..k - 1]), len, Served(s, es[..k - 1]));
    }
  }

  /** After the stream every callback is served. */
  lemma {:induction false} CallbackServed(s: State, len: nat)
    requires s.consumer.Waiting? && !s.producerActive
    ensures var t := Run(s, CallbackEvents(len));
            t.consumer.Waiting? && !t.producerActive && t.producer == s.producer && Served(s, CallbackEvents(len)) == len
  {
    ServingAfter(s, len, 6);
    assert CallbackEvents(len)[..6] == CallbackEvents(len);
    hide Run, Served;
  }

  /** Undisturbed callbacks for blocks of any lengths: the tail is gone as soon as they add up to it. */
  lemma {:induction false} BlocksPlayTail(s: State, lens: seq<nat>)
    requires Sound(s) && s.producer.Asleep? && s.consumer.Waiting? && !s.producerActive && Sum(lens) >= |s.ring|
    ensures var t := Run(s, Blocks(lens)); t.ring == [] && t.played == s.mixed && t.underruns == s.underruns
  {
    BlocksServed(s, lens);
    hide Run, Served, Sound, Blocks;
    IdleProducerPlaysTail(s, Blocks(lens));
  }

  lemma {:induction false} BlocksServed(s: State, lens: seq<nat>)
    requires s.consumer.Waiting? && !s.producerActive
    ensures var t := Run(s, Blocks(lens)); t.consumer.Waiting? && !t.producerActive && t.producer == s.producer
    ensures Served(s, Blocks(lens)) == Sum(lens) && Quiet(Blocks(lens))
    decreases |lens|
  {
    if lens != [] {
      var n := |lens| - 1;
      BlocksServed(s, lens[..n]);
      hide Run, Served;
      RunJoin(s, Blocks(lens[..n]), CallbackEvents(lens[n]));
      CallbackServed(Run(s, Blocks(lens[..n])), lens[n]);
    }
  }

  // ---- One callback in every interleaving

  /** Whatever else happens, the consumer makes no access. */
  ghost predicate Meanwhile(es: seq<Event>) {
    forall k :: 0 <= k < |es| ==> !es[k].Consume?
  }

  /** While the consumer makes no access the ring only grows at its end. */
  ghost predicate OnlyGrew(s: State, t: State) {
    && t.consumer == s.consumer && t.priming == s.priming && t.played == s.played && t.underruns == s.underruns
    && s.ring <= t.ring
  }

  lemma {:induction false} MeanwhileGrows(s: State, es: seq<Event>)
    requires Meanwhile(es) && !s.consumer.Waiting?
    ensures OnlyGrew(s, Run(s, es))
    decreases |es|
  {
    if es != [] {
      assert Meanwhile(es[..|es| - 1]);
      MeanwhileGrows(s, es[..|es| - 1]);
    }
  }

  /** A callback begins: with the cushion there, or not priming, it goes on to play; else it looks for a live stream. */
  lemma {:induction false} GateDecides(s: State, len: nat)
    requires s.consumer == Called(len)
    ensures Run(s, [Consume]) ==
            if !s.priming || |s.ring| >= 1920 then s.(consumer := Sizing(len), priming := false)
            else s.(consumer := Short(len))
  {
    RunStart(s);
    RunMore(s, [], Consume);
    assert [] + [Consume] == [Consume];
  }

  /** Below the cushion: silence while a stream is live, and on to play when none is. */
  lemma {:induction false} ShortDecides(s: State, len: nat, a: seq<Event>)
    requires s.consumer == Short(len) && s.priming && Meanwhile(a)
    ensures var t := Run(s, a);
      Run(s, a + [Consume]) == if t.producerActive then t.(consumer := Waiting)
                               else t.(consumer := Sizing(len), priming := false)
  {
    MeanwhileGrows(s, a);
    RunMore(s, a, Consume);
    hide Run;
  }

  /**
   In every interleaving, stream live or not: a callback that goes on to play takes, when it looks, what was asked for or
   all there is, at least what was there before, and plays exactly that; it primes again exactly if it was too little.
   */
  lemma {:induction false} SizedPlays(s: State, len: nat, a: seq<Event>, b: seq<Event>, n: nat)
    requires s.consumer == Sizing(len) && !s.priming && Meanwhile(a) && Meanwhile(b) && Fits(Run(s, a).ring, len, n)
    ensures s.ring <= Run(s, a).ring
    ensures var u := Run(s, a + [Consume] + b + [Consume]);
      && u.played == s.played + Run(s, a).ring[..n] && u.priming == (n < len) && u.underruns == s.underruns
      && u.consumer == if n < len then Dry else Waiting
  {
    var t := Run(s, a);
    MeanwhileGrows(s, a);
    RunMore(s, a, Consume);
    var v := Run(s, a + [Consume]);
    hide Run;
    assert v == t.(consumer := Taking(len, n));
    MeanwhileGrows(v, b);
    RunJoin(s, a + [Consume], b);
    var w := Run(v, b);
    RunMore(s, a + [Consume] + b, Consume);
    assert w.ring[..n] == t.ring[..n];
  }

  /** A callback that ran dry counts an underrun exactly if the stream is live when it looks. */
  lemma {:induction false} DryCounts(s: State, a: seq<Event>)
    requires s.consumer.Dry? && Meanwhile(a)
    ensures var t, u := Run(s, a), Run(s, a + [Consume]);
      u.consumer.Waiting? && u.played == s.played && u.priming == s.priming
      && u.underruns == s.underruns + if t.producerActive then 1 else 0
  {
    MeanwhileGrows(s, a);
    RunMore(s, a, Consume);
    hide Run;
  }

  /** So over every run from the start: a callback that finds the cushion, or is not priming, plays at least what it finds. */
  lemma {:induction false} EveryCallbackPlays(es: seq<Event>, len: nat, a: seq<Event>, b: seq<Event>)
    requires var s := Run(FRESH, es); s.consumer == Called(len) && (!s.priming || |s.ring| >= 1920)
    requires Meanwhile(a) && Meanwhile(b)
    ensures var s, u := Run(FRESH, es), Run(FRESH, es + [Consume] + a + [Consume] + b + [Consume]);
      var least := if |s.ring| < len then |s.ring| else len;
      s.played + s.ring[..least] <= u.played && (|s.ring| >= len ==> u.played == s.played + s.ring[..len])
  {
    var s := Run(FRESH, es);
    GateDecides(s, len);
    var q := s.(consumer := Sizing(len), priming := false);
    RunJoin(FRESH, es, [Consume]);
    var more := a + [Consume] + b + [Consume];
    RunJoin(FRESH, es + [Consume], more);
    assert es + [Consume] + a + [Consume] + b + [Consume] == es + [Consume] + more;
    hide Run;
    var n := if |Run(q, a).ring| < len then |Run(q, a).ring| else len;
    SizedPlays(q, len, a, b, n);
    var least := if |s.ring| < len then |s.ring| else len;
    assert Run(q, a).ring[..n][..least] == s.ring[..least];
    assert s.played + s.ring[..least] <= s.played + Run(q, a).ring[..n];
  }

  class PlaybackFiller {
    const shared: Shared
    var priming: bool

    constructor (shared: Shared)
      ensures this.shared == shared && priming
    {
      this.shared := shared;
      priming := true;
    }

    /** The device callback: what the ring has, then silence. */
    method Fill(output: array<Sample>)
      modifies this`priming, shared`ring, shared`played, shared`underruns, output
      ensures shared.At(priming, Asleep) == Run(old(shared.At(priming, Asleep)), CallbackEvents(output.Length))
      ensures var silent := old(priming) && old(|shared.ring|) < 1920 && old(shared.producerActive);
              var n := if silent then 0 else if old(|shared.ring|) < output.Length then old(|shared.ring|) else output.Length;
              && output[..n] == old(shared.ring)[..n] && (forall k :: n <= k < output.Length ==> output[k] == 0.0)
              && shared.ring == old(shared.ring)[n..] && shared.played == old(shared.played) + output[..n]
              && priming == (silent || n < output.Length)
              && shared.underruns
                 == old(shared.underruns) + (if !silent && n < output.Length && old(shared.producerActive) then 1 else 0)
    {
      ghost var s := shared.At(priming, Asleep);
      CallbackFills(s, output.Length);
      hide Run;
      if priming {
        if |shared.ring| < PRIME && shared.producerActive {
          forall k | 0 <= k < output.Length {
            output[k] := 0.0;
          }
          assert shared.played == s.played + output[..0];
          return;
        }
        priming := false;
      }
      var n := Min(|shared.ring|, output.Length);
      forall k | 0 <= k < output.Length {
        output[k] := if k < n then shared.ring[k] else 0.0;
      }
      assert output[..n] == shared.ring[..n];
      shared.played := shared.played + shared.ring[..n];
      shared.ring := shared.ring[n..];
      if n < output.Length {
        priming := true;
        if shared.producerActive {
          shared.underruns := shared.underruns + 1;
        }
      }
    }
  }
}
