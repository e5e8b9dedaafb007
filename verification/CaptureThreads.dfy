/**
 The capture callback runs on the device's thread, the commands on the audio task's, with no lock between them. Here they
 interleave at every shared access: the gate flag, the media clock, the bypass flag, the transmitting flag and the queue.
 What the callback cannot touch comes out as if commands and callbacks took turns; what it can is stated with its condition.
 */
module CaptureThreads {
  import opened Options
  import opened MediaClock
  import opened PreRoll
  import G = CaptureGate
  import O = CaptureOrders
  import T = CaptureTask

  type State = T.State
  type Message = G.Message

  // ---- The audio task, one access at a time

  // A stop is MarkEnd, GateOff, ResetBaseline. Dropping a stream waits for its callback to return; a new stream is gated
  // off before its first callback. `Become` is the audio task's bookkeeping, with at most one flag the callback reads.
  datatype Op =
    | MarkEnd
    | GateOff
    | ResetBaseline
    | ClockForward
    | GateOn
    | JoinStream
    | OpenStream
    | ZeroClock
    | Become(own: State)

  /** The bookkeeping of `own`; what callbacks and ops deal with stays. */
  function Own(s: State, own: State): State {
    own.(input := s.input, active := s.active, ring := s.ring, wasTransmitting := s.wasTransmitting,
         frameIndex := s.frameIndex, elapsed := s.elapsed, sent := s.sent)
  }

  function Do(s: State, op: Op): State {
    match op
    case MarkEnd => s.(sent := s.sent + [G.EndOfStream(s.frameIndex * FRAME_US)])
    case GateOff => s.(active := false, input := T.Gated(s.input, false))
    case ResetBaseline => s.(wasTransmitting := false)
    case ClockForward => s.(frameIndex := T.Max(s.frameIndex, s.elapsed))
    case GateOn => s.(active := true, input := T.Gated(s.input, true))
    case JoinStream => s.(input := None)
    case OpenStream => s.(input := Some(T.Stream(false, true, T.WARMUP_FRAMES)), ring := [])
    case ZeroClock => s.(frameIndex := 0, elapsed := 0)
    case Become(own) => Own(s, own)
  }

  function DoAll(s: State, ops: seq<Op>): State
    decreases |ops|
  {
    if ops == [] then s else DoAll(Do(s, ops[0]), ops[1..])
  }

  lemma {:induction false} DoBoth(s: State, a: seq<Op>, b: seq<Op>)
    ensures DoAll(s, a + b) == DoAll(DoAll(s, a), b)
    decreases |a|
  {
    hide Do;
    if a == [] {
      assert a + b == b;
    } else {
      assert (a + b)[1..] == a[1..] + b;
      DoBoth(Do(s, a[0]), a[1..], b);
    }
  }

  lemma {:induction false} DoOne(s: State, op: Op)
    ensures DoAll(s, [op]) == Do(s, op)
  {
    hide Do;
  }

  lemma {:induction false} DoSome(s: State, a: Op, b: Op, c: Op)
    ensures DoAll(s, [a, b]) == Do(Do(s, a), b) && DoAll(s, [a, b, c]) == Do(Do(Do(s, a), b), c)
  {
    hide Do;
    DoOne(s, a);
    DoBoth(s, [a], [b]);
    DoOne(Do(s, a), b);
    assert [a] + [b] == [a, b] && [a, b] + [c] == [a, b, c];
    DoBoth(s, [a, b], [c]);
    DoOne(Do(Do(s, a), b), c);
  }

  function StopPlan(s: State): seq<Op> {
    if s.active then [MarkEnd, GateOff, ResetBaseline] else []
  }

  function ArmPlan(s: State): seq<Op> {
    if T.Wants(s) && !s.active && s.input.Some? then [ClockForward, GateOn]
    else if !T.Wants(s) then StopPlan(s)
    else []
  }

  function SyncPlan(s: State): seq<Op> {
    [Become(s.(dropped := false))] + ArmPlan(s)
  }

  function TeardownPlan(s: State): seq<Op> {
    if s.input.Some? then StopPlan(s) + [JoinStream] else []
  }

  function StartPlan(s: State, opens: bool): seq<Op> {
    if s.input.None? && s.encoder && opens then [OpenStream] else []
  }

  function ReopenPlan(s: State, opens: bool): seq<Op> {
    var t := T.Teardown(s);
    if s.connected then TeardownPlan(s) + StartPlan(t, opens) + SyncPlan(T.Start(t, opens))
    else TeardownPlan(s) + SyncPlan(t)
  }

  function RetryPlan(s: State, opens: bool): seq<Op> {
    var u := T.Start(s, opens);
    if !s.connected then [Become(s.(recovering := false))]
    else if u.input.Some? then
      StartPlan(s, opens) + [Become(u.(recovering := false))] + SyncPlan(u.(recovering := false))
    else StartPlan(s, opens)
  }

  function HealthPlan(s: State, opens: bool): seq<Op> {
    var dead := s.input.Some? && !s.input.value.healthy;
    if dead || (s.input.None? && s.recovering) then
      TeardownPlan(s) + [Become(T.Teardown(s).(recovering := true))]
      + RetryPlan(T.Teardown(s).(recovering := true), opens)
    else []
  }

  /** First its own bookkeeping `t`, then a sync. */
  function PolicyPlan(t: State): seq<Op> {
    [Become(t)] + SyncPlan(t)
  }

  predicate IsCommand(e: T.Event) {
    !e.Captured? && !e.DeviceDies? && !e.TimePasses?
  }

  function EstablishPlan(s: State, encoderOk: bool, opens: bool): seq<Op> {
    var t := T.Connecting(s, encoderOk);
    [Become(t), ZeroClock] + StartPlan(t, opens) + SyncPlan(T.Start(t, opens))
  }

  function ClosePlan(s: State): seq<Op> {
    var v := T.Sync(s.(connected := false));
    PolicyPlan(s.(connected := false)) + (if v.input.Some? then [JoinStream] else []) + [Become(T.ClosedOut(v))]
  }

  predicate IsPolicy(e: T.Event) {
    e.StartTransmit? || e.StopTransmit? || e.SetVoiceMode? || e.SetMuted? || e.SetDeafened? || e.SetServerMuted?
  }

  /** What a change of policy comes to before the sync. */
  function Policy(s: State, e: T.Event): State {
    match e
    case SetVoiceMode(mode) => s.(mode := mode, vadGateBypass := mode.PushToTalk?)
    case SetMuted(muted) => s.(selfMuted := muted)
    case SetDeafened(deafened) => s.(selfDeafened := deafened, selfMuted := s.selfMuted || deafened)
    case SetServerMuted(muted) => s.(serverMuted := muted)
    case _ => s.(ptt := e.StartTransmit?)
  }

  predicate Unchanged(s: State, e: T.Event) {
    (e.SetServerMuted? && e.serverMuted == s.serverMuted) || (e.UpdateSettings? && e.settings == s.config.settings)
    || (e.UpdateTxPipeline? && e.txPipeline == s.config.txPipeline)
  }

  predicate IsRebuild(e: T.Event) {
    e.SetInputDevice? || e.UpdateSettings? || e.UpdateTxPipeline?
  }

  function NewConfig(c: T.Config, e: T.Event): T.Config {
    match e
    case SetInputDevice(device, _) => c.(device := device)
    case UpdateSettings(settings, _) => c.(settings := settings)
    case UpdateTxPipeline(txPipeline, _) => c.(txPipeline := txPipeline)
    case _ => c
  }

  /** The new selection, before the rebuild; a new device ends the recovery. */
  function Selected(s: State, e: T.Event): State {
    s.(config := NewConfig(s.config, e), recovering := s.recovering && !e.SetInputDevice?)
  }

  function Lost(s: State): State {
    s.(connected := false, dropped := s.dropped || s.connected)
  }

  /** What is done about a command, in order. */
  function Plan(s: State, e: T.Event): seq<Op> {
    if Unchanged(s, e) then []
    else if e.ConnectionEstablished? then EstablishPlan(s, e.encoderOk, e.opens)
    else if e.ConnectionClosed? then ClosePlan(s)
    else if e.SetInputDevice? && e.device == s.config.device && s.input.Some? then SyncPlan(s)
    else if IsRebuild(e) then [Become(Selected(s, e))] + ReopenPlan(Selected(s, e), e.opens)
    else if IsPolicy(e) then PolicyPlan(Policy(s, e))
    else if e.DatagramEnd? then [Become(Lost(s))]
    else if e.HealthTick? then HealthPlan(s, e.opens)
    else []
  }

  // ---- Undisturbed, a plan is the command

  lemma {:induction false} StopPlanIs(s: State)
    ensures DoAll(s, StopPlan(s)) == T.Deactivate(s)
  {
    hide T.Gated;
    DoSome(s, MarkEnd, GateOff, ResetBaseline);
  }

  lemma {:induction false} ArmPlanIs(s: State)
    ensures DoAll(s.(dropped := false), ArmPlan(s)) == T.Sync(s)
  {
    hide T.Gated, T.Deactivate, T.Max;
    var t := s.(dropped := false);
    SameWants(s, t);
    StopPlanIs(t);
    hide T.Wants;
    DoSome(t, ClockForward, GateOn, GateOn);
  }

  lemma {:induction false} SameWants(s: State, t: State)
    requires t == s.(dropped := t.dropped)
    ensures T.Wants(t) == T.Wants(s)
  {
  }

  lemma {:induction false} BecomeIs(s: State, own: State)
    requires own == s.(connected := own.connected, encoder := own.encoder, mode := own.mode,
                       vadGateBypass := own.vadGateBypass, selfMuted := own.selfMuted, selfDeafened := own.selfDeafened,
                       serverMuted := own.serverMuted, ptt := own.ptt, recovering := own.recovering,
                       config := own.config, dropped := own.dropped)
    ensures Do(s, Become(own)) == own
  {
  }

  lemma {:induction false} SyncPlanIs(s: State)
    ensures DoAll(s, SyncPlan(s)) == T.Sync(s)
  {
    hide Do, ArmPlan, T.Sync;
    BecomeIs(s, s.(dropped := false));
    DoBoth(s, [Become(s.(dropped := false))], ArmPlan(s));
    DoOne(s, Become(s.(dropped := false)));
    ArmPlanIs(s);
  }

  lemma {:induction false} TeardownPlanIs(s: State)
    ensures DoAll(s, TeardownPlan(s)) == T.Teardown(s)
  {
    hide T.Deactivate, StopPlan;
    StopPlanIs(s);
    DoBoth(s, StopPlan(s), [JoinStream]);
    DoOne(DoAll(s, StopPlan(s)), JoinStream);
  }

  lemma {:induction false} StartPlanIs(s: State, opens: bool)
    ensures DoAll(s, StartPlan(s, opens)) == T.Start(s, opens)
  {
    DoOne(s, OpenStream);
  }

  lemma {:induction false} ReopenPlanIs(s: State, opens: bool)
    requires s.active ==> s.input.Some?
    ensures DoAll(s, ReopenPlan(s, opens)) == T.Reopen(s, opens)
  {
    hide DoAll, TeardownPlan, StartPlan, SyncPlan, T.Start, T.Sync;
    var t := T.Teardown(s);
    var u := T.Start(t, opens);
    TeardownPlanIs(s);
    StartPlanIs(t, opens);
    SyncPlanIs(u);
    SyncPlanIs(t);
    Torn(s, opens);
    hide T.Teardown;
    DoBoth(s, TeardownPlan(s), StartPlan(t, opens));
    DoBoth(s, TeardownPlan(s) + StartPlan(t, opens), SyncPlan(u));
    DoBoth(s, TeardownPlan(s), SyncPlan(t));
  }

  /** The direct write of the flag after a failed open finds it cleared already. */
  lemma {:induction false} Torn(s: State, opens: bool)
    requires s.active ==> s.input.Some?
    ensures T.StartOrFail(T.Teardown(s), opens) == T.Start(T.Teardown(s), opens)
  {
    hide T.Gated;
  }

  lemma {:induction false} RetryPlanIs(s: State, opens: bool)
    ensures DoAll(s, RetryPlan(s, opens)) == T.Retry(s, opens)
  {
    hide DoAll, StartPlan, SyncPlan, T.Sync, Do;
    var u := T.Start(s, opens);
    var v := u.(recovering := false);
    DoOne(s, Become(s.(recovering := false)));
    BecomeIs(s, s.(recovering := false));
    StartPlanIs(s, opens);
    hide T.Start;
    DoBoth(s, StartPlan(s, opens), [Become(v)]);
    DoOne(u, Become(v));
    BecomeIs(u, v);
    DoBoth(s, StartPlan(s, opens) + [Become(v)], SyncPlan(v));
    SyncPlanIs(v);
  }

  lemma {:induction false} HealthPlanIs(s: State, opens: bool)
    ensures DoAll(s, HealthPlan(s, opens)) == T.HealthCheck(s, opens)
  {
    hide DoAll, TeardownPlan, RetryPlan, T.Teardown, T.Retry, Do;
    var t := T.Teardown(s);
    var r := t.(recovering := true);
    TeardownPlanIs(s);
    DoBoth(s, TeardownPlan(s), [Become(r)]);
    DoOne(t, Become(r));
    BecomeIs(t, r);
    DoBoth(s, TeardownPlan(s) + [Become(r)], RetryPlan(r, opens));
    RetryPlanIs(r, opens);
    NothingToDo(s);
  }

  lemma {:induction false} NothingToDo(s: State)
    ensures DoAll(s, []) == s
  {
  }

  lemma {:induction false} PolicyPlanIs(s: State, t: State)
    requires Do(s, Become(t)) == t
    ensures DoAll(s, PolicyPlan(t)) == T.Sync(t)
  {
    hide DoAll, SyncPlan, T.Sync, Do;
    DoOne(s, Become(t));
    DoBoth(s, [Become(t)], SyncPlan(t));
    SyncPlanIs(t);
  }

  lemma {:induction false} AfterBecome(s: State, t: State, ops: seq<Op>)
    requires Do(s, Become(t)) == t
    ensures DoAll(s, [Become(t)] + ops) == DoAll(t, ops)
  {
    hide DoAll, Do;
    DoOne(s, Become(t));
    DoBoth(s, [Become(t)], ops);
  }

  lemma {:induction false} ConnectingIs(s: State, encoderOk: bool, opens: bool)
    requires s.active ==> s.input.Some?
    ensures var t := T.Connecting(s, encoderOk);
            && Do(Do(s, Become(t)), ZeroClock) == t
            && (if s.input.None? then T.StartOrFail(t, opens) else t) == T.Start(t, opens)
  {
  }

  lemma {:induction false} EstablishPlanIs(s: State, encoderOk: bool, opens: bool)
    requires s.active ==> s.input.Some?
    ensures DoAll(s, EstablishPlan(s, encoderOk, opens)) == T.Sync(T.Start(T.Connecting(s, encoderOk), opens))
  {
    hide DoAll, StartPlan, SyncPlan, T.Start, T.Sync, Do, T.Connecting, T.StartOrFail;
    var t := T.Connecting(s, encoderOk);
    var u := T.Start(t, opens);
    ConnectingIs(s, encoderOk, opens);
    DoSome(s, Become(t), ZeroClock, ZeroClock);
    DoBoth(s, [Become(t), ZeroClock], StartPlan(t, opens));
    StartPlanIs(t, opens);
    DoBoth(s, [Become(t), ZeroClock] + StartPlan(t, opens), SyncPlan(u));
    SyncPlanIs(u);
  }

  lemma {:induction false} ClosedOutIs(v: State)
    ensures Do(if v.input.Some? then Do(v, JoinStream) else v, Become(T.ClosedOut(v))) == T.ClosedOut(v)
  {
  }

  lemma {:induction false} ClosePlanIs(s: State)
    ensures DoAll(s, ClosePlan(s)) == T.ClosedOut(T.Sync(s.(connected := false)))
  {
    hide DoAll, SyncPlan, T.Sync, PolicyPlan, Do, T.ClosedOut;
    var t := s.(connected := false);
    var v := T.Sync(t);
    BecomeIs(s, t);
    PolicyPlanIs(s, t);
    var w := if v.input.Some? then Do(v, JoinStream) else v;
    DoOne(v, JoinStream);
    NothingToDo(v);
    DoOne(w, Become(T.ClosedOut(v)));
    ClosedOutIs(v);
    var more := if v.input.Some? then [JoinStream] else [];
    DoBoth(s, PolicyPlan(t), more);
    DoBoth(s, PolicyPlan(t) + more, [Become(T.ClosedOut(v))]);
  }

  lemma {:induction false} PttOwn(s: State, flag: bool)
    ensures Do(s, Become(s.(ptt := flag))) == s.(ptt := flag)
  {
  }

  lemma {:induction false} SelfMutedOwn(s: State, flag: bool)
    ensures Do(s, Become(s.(selfMuted := flag))) == s.(selfMuted := flag)
  {
  }

  lemma {:induction false} ServerMutedOwn(s: State, flag: bool)
    ensures Do(s, Become(s.(serverMuted := flag))) == s.(serverMuted := flag)
  {
  }

  lemma {:induction false} ModeOwn(s: State, mode: T.VoiceMode, bypass: bool)
    ensures Do(s, Become(s.(mode := mode, vadGateBypass := bypass))) == s.(mode := mode, vadGateBypass := bypass)
  {
  }

  lemma {:induction false} DeafOwn(s: State, deaf: bool, mute: bool)
    ensures Do(s, Become(s.(selfDeafened := deaf, selfMuted := mute))) == s.(selfDeafened := deaf, selfMuted := mute)
  {
  }

  lemma {:induction false} PolicyBy(s: State, e: T.Event)
    ensures e.SetVoiceMode? ==> Policy(s, e) == s.(mode := e.mode, vadGateBypass := e.mode.PushToTalk?)
    ensures e.SetMuted? ==> Policy(s, e) == s.(selfMuted := e.muted)
    ensures e.SetDeafened? ==> Policy(s, e) == s.(selfDeafened := e.deafened, selfMuted := s.selfMuted || e.deafened)
    ensures e.SetServerMuted? ==> Policy(s, e) == s.(serverMuted := e.serverMuted)
    ensures e.StartTransmit? || e.StopTransmit? ==> Policy(s, e) == s.(ptt := e.StartTransmit?)
  {
  }

  lemma {:induction false} PolicyOwn(s: State, e: T.Event)
    requires IsPolicy(e)
    ensures Do(s, Become(Policy(s, e))) == Policy(s, e)
  {
    hide Do, Policy;
    PolicyBy(s, e);
    match e
    case SetVoiceMode(mode) => ModeOwn(s, mode, mode.PushToTalk?);
    case SetMuted(muted) => SelfMutedOwn(s, muted);
    case SetDeafened(deafened) => DeafOwn(s, deafened, s.selfMuted || deafened);
    case SetServerMuted(muted) => ServerMutedOwn(s, muted);
    case _ => PttOwn(s, e.StartTransmit?);
  }

  lemma {:induction false} PolicyIs(s: State, e: T.Event)
    requires IsPolicy(e)
    ensures T.Step(s, e) == if Unchanged(s, e) then s else T.Sync(Policy(s, e))
  {
    hide T.Sync;
  }

  lemma {:induction false} ConfiguredOwn(s: State, config: T.Config, recovering: bool)
    ensures var t := s.(config := config, recovering := recovering);
            Do(s, Become(t)) == t && t.active == s.active && t.input == s.input
  {
    hide Do;
    BecomeIs(s, s.(config := config, recovering := recovering));
  }

  lemma {:induction false} SelectedOwn(s: State, e: T.Event)
    requires IsRebuild(e)
    ensures Do(s, Become(Selected(s, e))) == Selected(s, e)
    ensures Selected(s, e).active == s.active && Selected(s, e).input == s.input
  {
    hide Do, NewConfig;
    ConfiguredOwn(s, NewConfig(s.config, e), s.recovering && !e.SetInputDevice?);
  }

  lemma {:induction false} SelectedIs(s: State, e: T.Event)
    requires IsRebuild(e)
    ensures T.Step(s, e)
         == if Unchanged(s, e) then s
            else if e.SetInputDevice? && e.device == s.config.device && s.input.Some? then T.Sync(s)
            else T.Reopen(Selected(s, e), e.opens)
  {
    hide T.Sync, T.Reopen;
  }

  lemma {:induction false} LostIs(s: State)
    ensures Do(s, Become(Lost(s))) == Lost(s) && T.Step(s, T.DatagramEnd) == Lost(s)
  {
  }

  lemma {:induction false} ConnectionIs(s: State, encoderOk: bool, opens: bool)
    ensures T.Step(s, T.ConnectionEstablished(encoderOk, opens))
         == T.Sync(if s.input.None? then T.StartOrFail(T.Connecting(s, encoderOk), opens) else T.Connecting(s, encoderOk))
    ensures T.Step(s, T.ConnectionClosed) == T.ClosedOut(T.Sync(s.(connected := false)))
    ensures T.Step(s, T.HealthTick(opens)) == T.HealthCheck(s, opens)
  {
    hide T.Sync, T.HealthCheck, T.ClosedOut, T.StartOrFail, T.Connecting;
  }

  /** Undisturbed, the plan for a command comes to exactly the command's step. */
  lemma {:induction false} PlanIsStep(s: State, e: T.Event)
    requires IsCommand(e) && (s.active ==> s.input.Some?)
    ensures DoAll(s, Plan(s, e)) == T.Step(s, e)
  {
    hide DoAll, Do, T.Step, T.Sync, T.Reopen, T.HealthCheck, Policy, Selected, T.Start, T.StartOrFail, T.Connecting, Lost;
    hide SyncPlan, PolicyPlan, ReopenPlan, HealthPlan, EstablishPlan, ClosePlan, T.ClosedOut;
    NothingToDo(s);
    if IsPolicy(e) {
      PolicyIs(s, e);
      PolicyOwn(s, e);
      PolicyPlanIs(s, Policy(s, e));
    } else if IsRebuild(e) {
      SelectedIs(s, e);
      SelectedOwn(s, e);
      SyncPlanIs(s);
      ReopenPlanIs(Selected(s, e), e.opens);
      AfterBecome(s, Selected(s, e), ReopenPlan(Selected(s, e), e.opens));
    } else if e.ConnectionEstablished? {
      ConnectionIs(s, e.encoderOk, e.opens);
      ConnectingIs(s, e.encoderOk, e.opens);
      EstablishPlanIs(s, e.encoderOk, e.opens);
    } else if e.ConnectionClosed? {
      ConnectionIs(s, false, false);
      ClosePlanIs(s);
    } else if e.HealthTick? {
      ConnectionIs(s, false, e.opens);
      HealthPlanIs(s, e.opens);
    } else {
      LostIs(s);
      DoOne(s, Become(Lost(s)));
    }
  }

  // ---- The callback, one access at a time

  // Where a callback is: past the gate flag, with its place on the media clock, with its verdict, with what it read of the
  // transmitting flag, and with what it still has to enqueue. The verdict of the pipeline is an input.
  datatype Callback =
    | Idle
    | Passed(samples: Pcm, verdict: bool)
    | Fetched(frame: nat, samples: Pcm, verdict: bool)
    | Judged(frame: nat, samples: Pcm, suppress: bool)
    | Looked(frame: nat, samples: Pcm, suppress: bool, was: bool)
    | Sending(out: seq<Message>)

  function After(out: seq<Message>): Callback {
    if out == [] then Idle else Sending(out)
  }

  /** What the gate makes of a frame, by the ring and what was read of the transmitting flag. */
  function Gated(s: State, frame: nat, samples: Pcm, suppress: bool, was: bool): (G.GateState, seq<Message>) {
    G.OnFrame(G.GateState(s.ring, was), G.Capture(frame, samples, suppress, None))
  }

  /** A suppressed frame clears the flag if it was seen set, and leaves it alone otherwise. */
  function Stored(s: State, frame: nat, samples: Pcm, suppress: bool, was: bool): State {
    s.(ring := Gated(s, frame, samples, suppress, was).0.run,
       wasTransmitting := !suppress || (s.wasTransmitting && !was))
  }

  function Proceed(s: State, cb: Callback): (State, Callback) {
    match cb
    case Idle => (s, Idle)
    case Passed(samples, verdict) =>
      if s.input.Some? && s.input.value.warmup > 0 then (T.Warmed(s), Idle)
      else (T.Ticked(s), Fetched(s.frameIndex, samples, verdict))
    case Fetched(frame, samples, verdict) => (s, Judged(frame, samples, G.Suppresses(verdict, s.vadGateBypass)))
    case Judged(frame, samples, suppress) => (s, Looked(frame, samples, suppress, s.wasTransmitting))
    case Looked(frame, samples, suppress, was) =>
      (Stored(s, frame, samples, suppress, was), After(Gated(s, frame, samples, suppress, was).1))
    case Sending(out) =>
      if out == [] then (s, Idle) else (s.(sent := s.sent + [out[0]]), After(out[1..]))
  }

  function Stage(cb: Callback): nat {
    match cb
    case Idle => 0
    case Sending(_) => 1
    case Looked(_, _, _, _) => 2
    case Judged(_, _, _) => 3
    case Fetched(_, _, _) => 4
    case Passed(_, _) => 5
  }

  function Left(cb: Callback): nat {
    if cb.Sending? then |cb.out| else 0
  }

  /** The callback runs to its end with nothing in between. */
  function Finish(s: State, cb: Callback): State
    decreases Stage(cb), Left(cb)
  {
    if cb.Idle? then s
    else
      var (s', cb') := Proceed(s, cb);
      Finish(s', cb')
  }

  lemma {:induction false} SendsAll(s: State, out: seq<Message>)
    ensures Finish(s, After(out)) == s.(sent := s.sent + out)
    decreases |out|
  {
    if out != [] {
      var s' := s.(sent := s.sent + [out[0]]);
      SendsAll(s', out[1..]);
      assert s.sent + [out[0]] + out[1..] == s.sent + out;
    } else {
      assert s.sent + [] == s.sent;
    }
  }

  lemma {:induction false} FinishLooked(s: State, frame: nat, samples: Pcm, suppress: bool, was: bool)
    ensures Finish(s, Looked(frame, samples, suppress, was))
         == Stored(s, frame, samples, suppress, was).(sent := s.sent + Gated(s, frame, samples, suppress, was).1)
  {
    hide Stored, Gated, After;
    SendsAll(Stored(s, frame, samples, suppress, was), Gated(s, frame, samples, suppress, was).1);
    StoredSent(s, frame, samples, suppress, was);
  }

  lemma {:induction false} StoredSent(s: State, frame: nat, samples: Pcm, suppress: bool, was: bool)
    ensures Stored(s, frame, samples, suppress, was).sent == s.sent
  {
  }

  lemma {:induction false} FinishFetched(s: State, frame: nat, samples: Pcm, verdict: bool)
    ensures Finish(s, Fetched(frame, samples, verdict))
         == Finish(s, Looked(frame, samples, G.Suppresses(verdict, s.vadGateBypass), s.wasTransmitting))
  {
    hide Gated, Stored, After;
  }

  /** Undisturbed, a callback past the gate is one captured frame. */
  lemma {:induction false} AloneIsCaptured(s: State, samples: Pcm, verdict: bool)
    requires s.input.Some? && s.input.value.active
    ensures Finish(s, Passed(samples, verdict)) == T.Step(s, T.Captured(samples, verdict))
  {
    hide Gated, Stored, After, G.OnFrame;
    T.StepCaptured(s, samples, verdict);
    if s.input.value.warmup == 0 {
      var suppress := G.Suppresses(verdict, s.vadGateBypass);
      var t := T.Ticked(s);
      assert t.vadGateBypass == s.vadGateBypass && t.wasTransmitting == s.wasTransmitting;
      FinishFetched(t, s.frameIndex, samples, verdict);
      FinishLooked(t, s.frameIndex, samples, suppress, t.wasTransmitting);
      GatedIsGate(t, s.frameIndex, samples, suppress);
      hide T.Ticked, T.Gate, T.Step;
    }
  }

  lemma {:induction false} GatedIsGate(s: State, frame: nat, samples: Pcm, suppress: bool)
    ensures Stored(s, frame, samples, suppress, s.wasTransmitting)
            .(sent := s.sent + Gated(s, frame, samples, suppress, s.wasTransmitting).1)
         == T.Gate(s, frame, samples, suppress)
  {
  }

  // ---- Both together

  // `taken` counts the queue's messages that were dequeued, `wire` holds those it sent as datagrams.
  datatype Threads = Threads(s: State, todo: seq<Op>, cb: Callback, taken: nat, wire: seq<Message>)

  datatype Event =
    | Command(e: T.Event)
    | Work
    | Environment(e: T.Event)
    | Fires(samples: Pcm, verdict: bool)
    | Proceeds
    | Dequeues

  function Start(config: T.Config): Threads {
    Threads(T.Initial(config), [], Idle, 0, [])
  }

  predicate Accepts(m: Threads, ev: Event) {
    match ev
    case Command(e) => m.todo == [] && IsCommand(e)
    case Environment(e) => e.TimePasses? || (e.DeviceDies? && m.todo == [])
    case _ => false
  }

  /** Dequeued messages are numbered and sent while there is a connection, and dropped otherwise. */
  function Dequeue(m: Threads): Threads {
    if m.todo != [] || m.taken >= |m.s.sent| then m
    else m.(taken := m.taken + 1, wire := if m.s.connected then m.wire + [m.s.sent[m.taken]] else m.wire)
  }

  /** Dropping the stream waits for the callback; a device that dies is noticed between commands. */
  function Step(m: Threads, ev: Event): Threads {
    match ev
    case Command(e) => if Accepts(m, ev) then m.(todo := Plan(m.s, e)) else m
    case Work =>
      if m.todo == [] || (m.todo[0].JoinStream? && !m.cb.Idle?) then m else m.(s := Do(m.s, m.todo[0]), todo := m.todo[1..])
    case Environment(e) => if Accepts(m, ev) then m.(s := T.Step(m.s, e)) else m
    case Fires(samples, verdict) =>
      if m.cb.Idle? && m.s.input.Some? && m.s.input.value.active then m.(cb := Passed(samples, verdict)) else m
    case Proceeds =>
      (var (s', cb') := Proceed(m.s, m.cb);
       m.(s := s', cb := cb'))
    case Dequeues => Dequeue(m)
  }

  function Run(m: Threads, es: seq<Event>): Threads
    decreases |es|
  {
    if es == [] then m else Step(Run(m, es[..|es| - 1]), es[|es| - 1])
  }

  /** The commands and outside events of a run, in the order in which they were taken up. */
  function Taken(m: Threads, es: seq<Event>): seq<T.Event>
    decreases |es|
  {
    if es == [] then []
    else
      var n := |es| - 1;
      Taken(m, es[..n]) + if Accepts(Run(m, es[..n]), es[n]) then [es[n].e] else []
  }

  // ---- What callbacks cannot touch

  /** All but the media clock, the transmitting flag, the queue, the ring and the warm-up count. */
  function Core(s: State): State {
    s.(frameIndex := 0, elapsed := 0, wasTransmitting := false, sent := [], ring := [],
       input := if s.input.Some? then Some(s.input.value.(warmup := 0)) else None)
  }

  lemma {:induction false} MarkUnseen(s: State)
    ensures Core(Do(s, MarkEnd)) == Core(s)
  {
  }

  lemma {:induction false} BaselineUnseen(s: State)
    ensures Core(Do(s, ResetBaseline)) == Core(s)
  {
  }

  lemma {:induction false} ForwardUnseen(s: State)
    ensures Core(Do(s, ClockForward)) == Core(s)
  {
  }

  lemma {:induction false} ZeroUnseen(s: State)
    ensures Core(Do(s, ZeroClock)) == Core(s)
  {
  }

  lemma {:induction false} GateOffCore(s: State, t: State)
    requires Core(s) == Core(t)
    ensures Core(Do(s, GateOff)) == Core(Do(t, GateOff))
  {
  }

  lemma {:induction false} GateOnCore(s: State, t: State)
    requires Core(s) == Core(t)
    ensures Core(Do(s, GateOn)) == Core(Do(t, GateOn))
  {
  }

  lemma {:induction false} JoinCore(s: State, t: State)
    requires Core(s) == Core(t)
    ensures Core(Do(s, JoinStream)) == Core(Do(t, JoinStream))
  {
  }

  lemma {:induction false} OpenCore(s: State, t: State)
    requires Core(s) == Core(t)
    ensures Core(Do(s, OpenStream)) == Core(Do(t, OpenStream))
  {
  }

  lemma {:induction false} OwnCore(s: State, t: State, own: State)
    requires Core(s) == Core(t)
    ensures Core(Do(s, Become(own))) == Core(Do(t, Become(own)))
  {
  }

  lemma {:induction false} DoCore(s: State, t: State, op: Op)
    requires Core(s) == Core(t)
    ensures Core(Do(s, op)) == Core(Do(t, op))
  {
    hide Core, Do;
    match op
    case MarkEnd =>
      MarkUnseen(s);
      MarkUnseen(t);
    case ResetBaseline =>
      BaselineUnseen(s);
      BaselineUnseen(t);
    case ClockForward =>
      ForwardUnseen(s);
      ForwardUnseen(t);
    case ZeroClock =>
      ZeroUnseen(s);
      ZeroUnseen(t);
    case GateOff => GateOffCore(s, t);
    case GateOn => GateOnCore(s, t);
    case JoinStream => JoinCore(s, t);
    case OpenStream => OpenCore(s, t);
    case Become(own) => OwnCore(s, t, own);
  }

  lemma {:induction false} DoAllCore(s: State, t: State, ops: seq<Op>)
    requires Core(s) == Core(t)
    ensures Core(DoAll(s, ops)) == Core(DoAll(t, ops))
    decreases |ops|
  {
    hide Core, Do;
    if ops != [] {
      DoCore(s, t, ops[0]);
      DoAllCore(Do(s, ops[0]), Do(t, ops[0]), ops[1..]);
    }
  }

  lemma {:induction false} TickedUnseen(s: State)
    ensures Core(T.Ticked(s)) == Core(s)
  {
  }

  lemma {:induction false} WarmedUnseen(s: State)
    requires s.input.Some? && s.input.value.warmup > 0
    ensures Core(T.Warmed(s)) == Core(s)
  {
  }

  lemma {:induction false} StoredUnseen(s: State, frame: nat, samples: Pcm, suppress: bool, was: bool)
    ensures Core(Stored(s, frame, samples, suppress, was)) == Core(s)
  {
    hide Gated;
  }

  lemma {:induction false} SentUnseen(s: State, sent: seq<Message>)
    ensures Core(s.(sent := sent)) == Core(s)
  {
  }

  lemma {:induction false} ProceedCore(s: State, cb: Callback)
    ensures Core(Proceed(s, cb).0) == Core(s)
  {
    hide Gated, Core, G.Suppresses, T.Warmed, T.Ticked, Stored;
    match cb
    case Idle =>
    case Passed(_, _) =>
      TickedUnseen(s);
      if s.input.Some? && s.input.value.warmup > 0 {
        WarmedUnseen(s);
      }
    case Fetched(_, _, _) =>
    case Judged(_, _, _) =>
    case Looked(frame, samples, suppress, was) => StoredUnseen(s, frame, samples, suppress, was);
    case Sending(out) =>
      if out != [] {
        SentUnseen(s, s.sent + [out[0]]);
      }
  }

  // ---- Commands do not depend on what callbacks touch

  lemma {:induction false} CoreFacts(s: State, t: State)
    requires Core(s) == Core(t)
    ensures s.active == t.active && s.input.Some? == t.input.Some? && s.connected == t.connected && s.encoder == t.encoder
    ensures s.recovering == t.recovering && s.config == t.config && s.serverMuted == t.serverMuted
    ensures s.input.Some? ==> s.input.value.healthy == t.input.value.healthy
  {
  }

  lemma {:induction false} CoreWants(s: State, t: State)
    requires Core(s) == Core(t)
    ensures T.Wants(s) == T.Wants(t)
  {
  }

  lemma {:induction false} SyncedCore(s: State, t: State)
    requires Core(s) == Core(t)
    ensures Core(T.Sync(s)) == Core(T.Sync(t))
  {
    hide Core, T.Wants, DoAll, T.Sync, StopPlan;
    CoreFacts(s, t);
    CoreWants(s, t);
    UndroppedCore(s, t);
    ArmPlanIs(s);
    ArmPlanIs(t);
    SameStopPlan(s, t);
    DoAllCore(s.(dropped := false), t.(dropped := false), ArmPlan(s));
  }

  lemma {:induction false} SameStopPlan(s: State, t: State)
    requires s.active == t.active
    ensures StopPlan(s) == StopPlan(t)
  {
  }

  lemma {:induction false} UndroppedCore(s: State, t: State)
    requires Core(s) == Core(t)
    ensures Core(s.(dropped := false)) == Core(t.(dropped := false))
  {
  }

  lemma {:induction false} RecoveringCore(s: State, t: State, recovering: bool)
    requires Core(s) == Core(t)
    ensures Core(s.(recovering := recovering)) == Core(t.(recovering := recovering))
  {
  }

  lemma {:induction false} TeardownCore(s: State, t: State)
    requires Core(s) == Core(t)
    ensures Core(T.Teardown(s)) == Core(T.Teardown(t))
  {
    hide Core, DoAll, T.Teardown, StopPlan;
    CoreFacts(s, t);
    SameStopPlan(s, t);
    TeardownPlanIs(s);
    TeardownPlanIs(t);
    DoAllCore(s, t, TeardownPlan(s));
  }

  lemma {:induction false} StartedCore(s: State, t: State, opens: bool)
    requires Core(s) == Core(t)
    ensures Core(T.Start(s, opens)) == Core(T.Start(t, opens))
  {
    hide Core, DoAll, T.Start;
    CoreFacts(s, t);
    StartPlanIs(s, opens);
    StartPlanIs(t, opens);
    DoAllCore(s, t, StartPlan(s, opens));
  }

  lemma {:induction false} StartOrFailIs(s: State, opens: bool)
    requires s.active ==> s.input.Some?
    ensures T.StartOrFail(s, opens) == T.Start(s, opens)
  {
  }

  lemma {:induction false} TornFacts(s: State)
    requires s.active ==> s.input.Some?
    ensures !T.Teardown(s).active && T.Teardown(s).input.None?
  {
    hide T.Gated;
  }

  lemma {:induction false} ReopenedCore(s: State, t: State, opens: bool)
    requires Core(s) == Core(t) && (s.active ==> s.input.Some?)
    ensures Core(T.Reopen(s, opens)) == Core(T.Reopen(t, opens))
  {
    hide Core, T.Teardown, T.Start, T.StartOrFail, T.Sync;
    CoreFacts(s, t);
    TeardownCore(s, t);
    TornFacts(s);
    TornFacts(t);
    StartOrFailIs(T.Teardown(s), opens);
    StartOrFailIs(T.Teardown(t), opens);
    StartedCore(T.Teardown(s), T.Teardown(t), opens);
    SyncedCore(T.Start(T.Teardown(s), opens), T.Start(T.Teardown(t), opens));
    SyncedCore(T.Teardown(s), T.Teardown(t));
  }

  lemma {:induction false} RetriedCore(s: State, t: State, opens: bool)
    requires Core(s) == Core(t)
    ensures Core(T.Retry(s, opens)) == Core(T.Retry(t, opens))
  {
    hide Core, T.Start, T.Sync;
    CoreFacts(s, t);
    RecoveringCore(s, t, false);
    StartedCore(s, t, opens);
    var u, w := T.Start(s, opens), T.Start(t, opens);
    CoreFacts(u, w);
    RecoveringCore(u, w, false);
    SyncedCore(u.(recovering := false), w.(recovering := false));
  }

  lemma {:induction false} HealthCore(s: State, t: State, opens: bool)
    requires Core(s) == Core(t)
    ensures Core(T.HealthCheck(s, opens)) == Core(T.HealthCheck(t, opens))
  {
    hide Core, T.Teardown, T.Retry;
    CoreFacts(s, t);
    TeardownCore(s, t);
    RecoveringCore(T.Teardown(s), T.Teardown(t), true);
    RetriedCore(T.Teardown(s).(recovering := true), T.Teardown(t).(recovering := true), opens);
  }

  lemma {:induction false} ModeCore(s: State, t: State, mode: T.VoiceMode, bypass: bool)
    requires Core(s) == Core(t)
    ensures Core(s.(mode := mode, vadGateBypass := bypass)) == Core(t.(mode := mode, vadGateBypass := bypass))
  {
  }

  lemma {:induction false} DeafCore(s: State, t: State, deaf: bool, mute: bool)
    requires Core(s) == Core(t)
    ensures Core(s.(selfDeafened := deaf, selfMuted := mute)) == Core(t.(selfDeafened := deaf, selfMuted := mute))
  {
  }

  lemma {:induction false} PttCore(s: State, t: State, flag: bool)
    requires Core(s) == Core(t)
    ensures Core(s.(ptt := flag)) == Core(t.(ptt := flag))
  {
  }

  lemma {:induction false} SelfMutedCore(s: State, t: State, flag: bool)
    requires Core(s) == Core(t)
    ensures Core(s.(selfMuted := flag)) == Core(t.(selfMuted := flag))
  {
  }

  lemma {:induction false} ServerMutedCore(s: State, t: State, flag: bool)
    requires Core(s) == Core(t)
    ensures Core(s.(serverMuted := flag)) == Core(t.(serverMuted := flag))
  {
  }

  lemma {:induction false} MuteCore(s: State, t: State)
    requires Core(s) == Core(t)
    ensures s.selfMuted == t.selfMuted
  {
  }

  lemma {:induction false} PolicyCore(s: State, t: State, e: T.Event)
    requires Core(s) == Core(t) && IsPolicy(e)
    ensures Core(Policy(s, e)) == Core(Policy(t, e))
  {
    hide Core, Policy;
    PolicyBy(s, e);
    PolicyBy(t, e);
    match e
    case SetVoiceMode(mode) => ModeCore(s, t, mode, mode.PushToTalk?);
    case SetMuted(muted) => SelfMutedCore(s, t, muted);
    case SetDeafened(deafened) =>
      MuteCore(s, t);
      DeafCore(s, t, deafened, s.selfMuted || deafened);
    case SetServerMuted(muted) => ServerMutedCore(s, t, muted);
    case _ => PttCore(s, t, e.StartTransmit?);
  }

  lemma {:induction false} ConfigCore(s: State, t: State, config: T.Config, recovering: bool)
    requires Core(s) == Core(t)
    ensures Core(s.(config := config, recovering := recovering)) == Core(t.(config := config, recovering := recovering))
  {
  }

  lemma {:induction false} SameConfig(s: State, t: State)
    requires Core(s) == Core(t)
    ensures s.config == t.config && s.recovering == t.recovering
  {
  }

  lemma {:induction false} SelectedCore(s: State, t: State, e: T.Event)
    requires Core(s) == Core(t) && IsRebuild(e)
    ensures Core(Selected(s, e)) == Core(Selected(t, e))
  {
    hide Core, NewConfig;
    SameConfig(s, t);
    ConfigCore(s, t, NewConfig(s.config, e), s.recovering && !e.SetInputDevice?);
  }

  lemma {:induction false} ConnectingCore(s: State, t: State, encoderOk: bool)
    requires Core(s) == Core(t)
    ensures Core(T.Connecting(s, encoderOk)) == Core(T.Connecting(t, encoderOk))
  {
  }

  lemma {:induction false} DisconnectedCore(s: State, t: State)
    requires Core(s) == Core(t)
    ensures Core(s.(connected := false)) == Core(t.(connected := false))
  {
  }

  lemma {:induction false} LostCore(s: State, t: State)
    requires Core(s) == Core(t)
    ensures Core(Lost(s)) == Core(Lost(t))
  {
  }

  lemma {:induction false} ClosedOutCore(s: State, t: State)
    requires Core(s) == Core(t)
    ensures Core(T.ClosedOut(s)) == Core(T.ClosedOut(t))
  {
  }

  lemma {:induction false} EstablishedCore(s: State, t: State, encoderOk: bool, opens: bool)
    requires Core(s) == Core(t) && (s.active ==> s.input.Some?)
    ensures Core(T.Step(s, T.ConnectionEstablished(encoderOk, opens)))
         == Core(T.Step(t, T.ConnectionEstablished(encoderOk, opens)))
  {
    hide Core, T.Step, T.Connecting, T.Start, T.StartOrFail, T.Sync, Do;
    CoreFacts(s, t);
    ConnectionIs(s, encoderOk, opens);
    ConnectionIs(t, encoderOk, opens);
    ConnectingIs(s, encoderOk, opens);
    ConnectingIs(t, encoderOk, opens);
    ConnectingCore(s, t, encoderOk);
    StartedCore(T.Connecting(s, encoderOk), T.Connecting(t, encoderOk), opens);
    SyncedCore(T.Start(T.Connecting(s, encoderOk), opens), T.Start(T.Connecting(t, encoderOk), opens));
  }

  /** What a command does to the core depends on the core alone. */
  lemma {:induction false} StepCore(s: State, t: State, e: T.Event)
    requires IsCommand(e) && Core(s) == Core(t) && (s.active ==> s.input.Some?)
    ensures Core(T.Step(s, e)) == Core(T.Step(t, e))
  {
    hide Core, T.Step, T.Sync, T.Reopen, T.HealthCheck, Policy, Selected, T.ClosedOut, Lost, T.StartOrFail, T.Connecting;
    CoreFacts(s, t);
    if IsPolicy(e) {
      PolicyIs(s, e);
      PolicyIs(t, e);
      PolicyCore(s, t, e);
      SyncedCore(Policy(s, e), Policy(t, e));
    } else if IsRebuild(e) {
      SelectedIs(s, e);
      SelectedIs(t, e);
      SelectedOwn(s, e);
      SelectedCore(s, t, e);
      SyncedCore(s, t);
      ReopenedCore(Selected(s, e), Selected(t, e), e.opens);
    } else if e.ConnectionEstablished? {
      EstablishedCore(s, t, e.encoderOk, e.opens);
    } else if e.ConnectionClosed? {
      ConnectionIs(s, false, false);
      ConnectionIs(t, false, false);
      DisconnectedCore(s, t);
      SyncedCore(s.(connected := false), t.(connected := false));
      ClosedOutCore(T.Sync(s.(connected := false)), T.Sync(t.(connected := false)));
    } else if e.HealthTick? {
      ConnectionIs(s, false, e.opens);
      ConnectionIs(t, false, e.opens);
      HealthCore(s, t, e.opens);
    } else {
      LostIs(s);
      LostIs(t);
      LostCore(s, t);
    }
  }

  function Dead(input: Option<T.Stream>): Option<T.Stream> {
    if input.Some? then Some(input.value.(healthy := false)) else None
  }

  lemma {:induction false} DeathIs(s: State)
    ensures T.Step(s, T.DeviceDies) == s.(input := Dead(s.input))
  {
  }

  lemma {:induction false} DeadCore(s: State, t: State)
    requires Core(s) == Core(t)
    ensures Core(s.(input := Dead(s.input))) == Core(t.(input := Dead(t.input)))
  {
  }

  lemma {:induction false} DeathCore(s: State, t: State)
    requires Core(s) == Core(t)
    ensures Core(T.Step(s, T.DeviceDies)) == Core(T.Step(t, T.DeviceDies))
  {
    hide Core, T.Step, Dead;
    DeathIs(s);
    DeathIs(t);
    DeadCore(s, t);
  }

  lemma {:induction false} TimeUnseen(s: State, frames: nat)
    ensures Core(T.Step(s, T.TimePasses(frames))) == Core(s)
  {
  }

  /** What callbacks cannot touch is, with the pending ops done, as in the run of the commands alone. */
  ghost predicate Parallel(m: Threads, a: State) {
    Core(DoAll(m.s, m.todo)) == Core(a)
  }

  lemma {:induction false} StepParallel(m: Threads, a: State, ev: Event)
    requires Parallel(m, a) && T.Valid(a)
    ensures Parallel(Step(m, ev), if Accepts(m, ev) then T.Step(a, ev.e) else a)
  {
    hide Core, Do, T.Step, Plan, T.Valid, Proceed;
    match ev
    case Command(e) => CommandParallel(m, a, e);
    case Work =>
    case Environment(e) => EnvironmentParallel(m, a, e);
    case Fires(_, _) =>
    case Proceeds =>
      ProceedCore(m.s, m.cb);
      DoAllCore(Proceed(m.s, m.cb).0, m.s, m.todo);
    case Dequeues =>
  }

  lemma {:induction false} ActiveHasStream(s: State, a: State)
    requires Core(s) == Core(a) && T.Valid(a)
    ensures s.active ==> s.input.Some?
  {
    CoreFacts(s, a);
    hide Core;
  }

  lemma {:induction false} CommandParallel(m: Threads, a: State, e: T.Event)
    requires Parallel(m, a) && T.Valid(a)
    ensures Parallel(Step(m, Command(e)), if Accepts(m, Command(e)) then T.Step(a, e) else a)
  {
    hide Core, Do, T.Step, Plan, T.Valid;
    if Accepts(m, Command(e)) {
      ActiveHasStream(m.s, a);
      PlanIsStep(m.s, e);
      StepCore(m.s, a, e);
    }
  }

  lemma {:induction false} EnvironmentParallel(m: Threads, a: State, e: T.Event)
    requires Parallel(m, a)
    ensures Parallel(Step(m, Environment(e)), if Accepts(m, Environment(e)) then T.Step(a, e) else a)
  {
    hide Core, Do, T.Step;
    if e.TimePasses? {
      TimeUnseen(m.s, e.frames);
      TimeUnseen(a, e.frames);
      DoAllCore(T.Step(m.s, e), m.s, m.todo);
    } else if Accepts(m, Environment(e)) {
      DeathCore(m.s, a);
    }
  }

  /**
   Callbacks do not interfere: however they interleave with the commands, what they cannot touch comes out as in the
   commands' own run.
   */
  lemma {:induction false} CallbacksUnseen(config: T.Config, es: seq<Event>)
    ensures Parallel(Run(Start(config), es), T.Run(T.Initial(config), Taken(Start(config), es)))
    decreases |es|
  {
    hide Parallel, T.Step, T.Valid, T.SettledUnlessDropped;
    var m0 := Start(config);
    if es == [] {
      StartParallel(config);
    } else {
      var n := |es| - 1;
      var before := Taken(m0, es[..n]);
      CallbacksUnseen(config, es[..n]);
      T.RunKeeps(config, before);
      StepParallel(Run(m0, es[..n]), T.Run(T.Initial(config), before), es[n]);
      if Accepts(Run(m0, es[..n]), es[n]) {
        OneMoreTaken(T.Initial(config), before, es[n].e);
      } else {
        assert before + [] == before;
      }
    }
  }

  lemma {:induction false} OneMoreTaken(s: State, before: seq<T.Event>, e: T.Event)
    ensures T.Run(s, before + [e]) == T.Step(T.Run(s, before), e)
  {
    hide T.Step;
    assert (before + [e])[..|before|] == before;
  }

  lemma {:induction false} StartParallel(config: T.Config)
    ensures Parallel(Start(config), T.Initial(config))
  {
  }

  /** Whatever callbacks are under way: a stream behind active capture, one gate, and capture as it is wanted. */
  ghost predicate Sturdy(s: State) {
    && (s.active ==> s.input.Some?)
    && (s.input.Some? ==> s.input.value.active == s.active && s.encoder)
    && (s.vadGateBypass <==> s.mode.PushToTalk?)
    && T.SettledUnlessDropped(s)
  }

  lemma {:induction false} SturdyCore(s: State, a: State)
    requires Core(s) == Core(a) && T.Valid(a) && T.SettledUnlessDropped(a)
    ensures Sturdy(s)
  {
  }

  /** Unless the handle was lost under it, capture is active exactly when the fields ask for it and it can be. */
  ghost predicate RunsAsAsked(s: State) {
    !(s.dropped && s.active && !s.connected) ==>
      (s.active <==> s.input.Some? && s.connected && !s.selfMuted && !s.serverMuted && (s.mode.Continuous? || s.ptt))
  }

  lemma {:induction false} SturdyRuns(s: State)
    requires Sturdy(s)
    ensures RunsAsAsked(s)
  {
  }

  /** Between commands, in every interleaving. */
  lemma {:induction false} EveryRunSturdy(config: T.Config, es: seq<Event>)
    requires Run(Start(config), es).todo == []
    ensures Sturdy(Run(Start(config), es).s) && RunsAsAsked(Run(Start(config), es).s)
  {
    hide Run, Taken, T.Run, T.Valid, T.SettledUnlessDropped, Core, Sturdy, RunsAsAsked;
    CallbacksUnseen(config, es);
    var events := Taken(Start(config), es);
    T.RunKeeps(config, events);
    SturdyCore(Run(Start(config), es).s, T.Run(T.Initial(config), events));
    SturdyRuns(Run(Start(config), es).s);
  }

  lemma {:induction false} ToldCore(s: State, a: State)
    requires Core(s) == Core(a)
    ensures O.Told(s) == O.Told(a)
  {
  }

  /** And what its fields ask for is what the commands taken so far said last, whatever the callbacks did in between. */
  lemma {:induction false} EveryRunAsOrdered(config: T.Config, es: seq<Event>)
    requires Run(Start(config), es).todo == []
    ensures O.AsOrdered(O.Told(Run(Start(config), es).s), Taken(Start(config), es))
  {
    hide Run, Taken, T.Run, Core, O.Told, O.AsOrdered;
    CallbacksUnseen(config, es);
    var events := Taken(Start(config), es);
    ToldCore(Run(Start(config), es).s, T.Run(T.Initial(config), events));
    O.EveryRunAsOrdered(config, events);
  }

  // ---- Every stop enqueues a mark

  /** A gate is closed right after a mark, and the baseline reset right after that. */
  ghost predicate Stops(ops: seq<Op>) {
    && (forall i :: 0 < i < |ops| && ops[i].GateOff? ==> ops[i - 1].MarkEnd?)
    && (forall i :: 0 < i < |ops| && ops[i].ResetBaseline? ==> ops[i - 1].GateOff?)
    && (forall i :: 0 <= i < |ops| && ops[i].GateOff? ==> i + 1 < |ops| && ops[i + 1].ResetBaseline?)
  }

  ghost predicate BeginsCalm(ops: seq<Op>) {
    ops != [] ==> !ops[0].GateOff? && !ops[0].ResetBaseline?
  }

  lemma {:induction false} StopsJoin(a: seq<Op>, b: seq<Op>)
    requires Stops(a) && BeginsCalm(a) && Stops(b) && BeginsCalm(b)
    ensures Stops(a + b) && BeginsCalm(a + b)
  {
    var ops := a + b;
    forall i | 0 < i < |ops| && (ops[i].GateOff? || ops[i].ResetBaseline?)
      ensures if ops[i].GateOff? then ops[i - 1].MarkEnd? else ops[i - 1].GateOff?
    {
      if i >= |a| {
        assert ops[i] == b[i - |a|];
      }
    }
    forall i | 0 <= i < |ops| && ops[i].GateOff? ensures i + 1 < |ops| && ops[i + 1].ResetBaseline? {
      if i >= |a| {
        assert b[i - |a|].GateOff?;
      } else {
        assert a[i].GateOff?;
      }
    }
  }

  lemma {:induction false} PartsStop(s: State, opens: bool)
    ensures Stops(StopPlan(s)) && BeginsCalm(StopPlan(s)) && Stops(ArmPlan(s)) && BeginsCalm(ArmPlan(s))
    ensures Stops(StartPlan(s, opens)) && BeginsCalm(StartPlan(s, opens))
    ensures forall own: State :: Stops([Become(own)]) && BeginsCalm([Become(own)])
    ensures Stops([JoinStream]) && BeginsCalm([JoinStream]) && Stops([]) && BeginsCalm([])
  {
  }

  lemma {:induction false} SyncStops(s: State)
    ensures Stops(SyncPlan(s)) && BeginsCalm(SyncPlan(s)) && Stops(TeardownPlan(s)) && BeginsCalm(TeardownPlan(s))
    ensures Stops(PolicyPlan(s)) && BeginsCalm(PolicyPlan(s))
  {
    hide Stops, BeginsCalm, ArmPlan, StopPlan;
    PartsStop(s, false);
    StopsJoin([Become(s.(dropped := false))], ArmPlan(s));
    StopsJoin(StopPlan(s), [JoinStream]);
    StopsJoin([Become(s)], SyncPlan(s));
  }

  lemma {:induction false} ReopenStops(s: State, opens: bool)
    ensures Stops(ReopenPlan(s, opens)) && BeginsCalm(ReopenPlan(s, opens))
  {
    hide Stops, BeginsCalm, SyncPlan, TeardownPlan, StartPlan, T.Teardown, T.Start;
    var t := T.Teardown(s);
    var u := T.Start(t, opens);
    SyncStops(s);
    SyncStops(t);
    SyncStops(u);
    PartsStop(t, opens);
    StopsJoin(TeardownPlan(s), StartPlan(t, opens));
    StopsJoin(TeardownPlan(s) + StartPlan(t, opens), SyncPlan(u));
    StopsJoin(TeardownPlan(s), SyncPlan(t));
  }

  lemma {:induction false} RetryStops(s: State, opens: bool)
    ensures Stops(RetryPlan(s, opens)) && BeginsCalm(RetryPlan(s, opens))
  {
    hide Stops, BeginsCalm, SyncPlan, StartPlan, T.Start;
    var v := T.Start(s, opens).(recovering := false);
    SyncStops(v);
    PartsStop(s, opens);
    StopsJoin(StartPlan(s, opens), [Become(v)]);
    StopsJoin(StartPlan(s, opens) + [Become(v)], SyncPlan(v));
  }

  lemma {:induction false} EstablishStops(s: State, encoderOk: bool, opens: bool)
    ensures Stops(EstablishPlan(s, encoderOk, opens)) && BeginsCalm(EstablishPlan(s, encoderOk, opens))
  {
    var t := T.Connecting(s, encoderOk);
    assert Stops([Become(t), ZeroClock]) && BeginsCalm([Become(t), ZeroClock]);
    hide Stops, BeginsCalm, SyncPlan, StartPlan, T.Start;
    SyncStops(T.Start(t, opens));
    PartsStop(t, opens);
    StopsJoin([Become(t), ZeroClock], StartPlan(t, opens));
    StopsJoin([Become(t), ZeroClock] + StartPlan(t, opens), SyncPlan(T.Start(t, opens)));
  }

  lemma {:induction false} CloseStops(s: State)
    ensures Stops(ClosePlan(s)) && BeginsCalm(ClosePlan(s))
  {
    hide Stops, BeginsCalm, PolicyPlan, T.Sync, T.ClosedOut;
    var v := T.Sync(s.(connected := false));
    var more := if v.input.Some? then [JoinStream] else [];
    SyncStops(s.(connected := false));
    PartsStop(s, false);
    StopsJoin(PolicyPlan(s.(connected := false)), more);
    StopsJoin(PolicyPlan(s.(connected := false)) + more, [Become(T.ClosedOut(v))]);
  }

  lemma {:induction false} HealthStops(s: State, opens: bool)
    ensures Stops(HealthPlan(s, opens)) && BeginsCalm(HealthPlan(s, opens))
  {
    hide Stops, BeginsCalm, TeardownPlan, RetryPlan, T.Teardown;
    var r := T.Teardown(s).(recovering := true);
    SyncStops(s);
    PartsStop(s, opens);
    RetryStops(r, opens);
    StopsJoin(TeardownPlan(s), [Become(r)]);
    StopsJoin(TeardownPlan(s) + [Become(r)], RetryPlan(r, opens));
  }

  lemma {:induction false} PlanStops(s: State, e: T.Event)
    ensures Stops(Plan(s, e)) && BeginsCalm(Plan(s, e))
  {
    hide Stops, BeginsCalm, SyncPlan, PolicyPlan, ReopenPlan, HealthPlan, EstablishPlan, ClosePlan, Policy, Selected, Lost;
    PartsStop(s, false);
    SyncStops(s);
    if IsPolicy(e) {
      SyncStops(Policy(s, e));
    } else if IsRebuild(e) {
      ReopenStops(Selected(s, e), e.opens);
      StopsJoin([Become(Selected(s, e))], ReopenPlan(Selected(s, e), e.opens));
    } else if e.ConnectionEstablished? {
      EstablishStops(s, e.encoderOk, e.opens);
    } else if e.ConnectionClosed? {
      CloseStops(s);
    } else if e.HealthTick? {
      HealthStops(s, e.opens);
    }
  }

  ghost predicate MarkSince(sent: seq<Message>, n: nat) {
    exists i :: n <= i < |sent| && sent[i].EndOfStream?
  }

  ghost predicate GateClosing(m: Threads) {
    m.todo != [] && m.todo[0].GateOff?
  }

  /** Since the state `a`, nothing enqueued was lost, and a stop of its capture has enqueued a mark. */
  ghost predicate MarkedSince(a: State, m: Threads) {
    && a.sent <= m.s.sent && Stops(m.todo)
    && (a.active && (!m.s.active || GateClosing(m)) ==> MarkSince(m.s.sent, |a.sent|))
  }

  lemma {:induction false} MarkStays(sent: seq<Message>, more: seq<Message>, n: nat)
    requires MarkSince(sent, n)
    ensures MarkSince(sent + more, n)
  {
    var i :| n <= i < |sent| && sent[i].EndOfStream?;
    assert (sent + more)[i] == sent[i];
  }

  lemma {:induction false} OpSent(s: State, op: Op)
    ensures op.MarkEnd? ==> Do(s, op).sent == s.sent + [G.EndOfStream(s.frameIndex * FRAME_US)]
    ensures !op.MarkEnd? ==> Do(s, op).sent == s.sent
    ensures op.GateOff? || op.GateOn? || Do(s, op).active == s.active
    ensures op.GateOff? ==> !Do(s, op).active
    ensures op.GateOn? ==> Do(s, op).active
  {
  }

  lemma {:induction false} ProceedSent(s: State, cb: Callback)
    ensures Proceed(s, cb).0.sent == s.sent + (if cb.Sending? && cb.out != [] then [cb.out[0]] else [])
    ensures Proceed(s, cb).0.active == s.active
  {
    ProceedCore(s, cb);
    CoreFacts(Proceed(s, cb).0, s);
    hide Core;
    ProceedQueue(s, cb);
  }

  lemma {:induction false} ProceedQueue(s: State, cb: Callback)
    ensures Proceed(s, cb).0.sent == s.sent + (if cb.Sending? && cb.out != [] then [cb.out[0]] else [])
  {
    hide Gated, Stored, T.Ticked, T.Warmed, G.Suppresses;
    T.TickedSent(s);
    if cb.Looked? {
      StoredSent(s, cb.frame, cb.samples, cb.suppress, cb.was);
    }
  }

  lemma {:induction false} TailStops(ops: seq<Op>)
    requires Stops(ops) && ops != []
    ensures Stops(ops[1..])
    ensures ops[1..] != [] && ops[1].GateOff? ==> ops[0].MarkEnd?
    ensures ops[1..] != [] && ops[1].ResetBaseline? ==> ops[0].GateOff?
    ensures ops[0].GateOff? ==> ops[1..] != [] && ops[1].ResetBaseline?
  {
    var rest := ops[1..];
    assert forall i :: 0 <= i < |rest| ==> rest[i] == ops[i + 1];
    forall i | 0 <= i < |rest| && rest[i].GateOff? ensures i + 1 < |rest| && rest[i + 1].ResetBaseline? {
      assert ops[i + 1].GateOff?;
    }
  }

  lemma {:induction false} WorkMarked(a: State, m: Threads)
    requires MarkedSince(a, m)
    ensures MarkedSince(a, Step(m, Work))
  {
    hide Do, Stops, MarkSince;
    if m.todo != [] && !(m.todo[0].JoinStream? && !m.cb.Idle?) {
      var op := m.todo[0];
      OpSent(m.s, op);
      TailStops(m.todo);
      if op.MarkEnd? {
        MarkMade(m.s.sent, G.EndOfStream(m.s.frameIndex * FRAME_US), |a.sent|);
      }
    }
  }

  lemma {:induction false} MarkMade(sent: seq<Message>, mark: Message, n: nat)
    requires n <= |sent| && mark.EndOfStream?
    ensures MarkSince(sent + [mark], n)
  {
    assert (sent + [mark])[|sent|] == mark;
  }

  lemma {:induction false} StepMarked(a: State, m: Threads, ev: Event)
    requires MarkedSince(a, m)
    ensures MarkedSince(a, Step(m, ev))
  {
    hide Stops, MarkSince, Do, Plan, Proceed, T.Step;
    match ev
    case Work => WorkMarked(a, m);
    case Command(e) => PlanStops(m.s, e);
    case Environment(e) =>
      if Accepts(m, ev) {
        OutsideSent(m.s, e);
      }
    case Fires(_, _) =>
    case Proceeds =>
      ProceedSent(m.s, m.cb);
      if MarkSince(m.s.sent, |a.sent|) {
        MarkStays(m.s.sent, if m.cb.Sending? && m.cb.out != [] then [m.cb.out[0]] else [], |a.sent|);
      }
    case Dequeues =>
  }

  lemma {:induction false} OutsideSent(s: State, e: T.Event)
    requires e.TimePasses? || e.DeviceDies?
    ensures T.Step(s, e).sent == s.sent && T.Step(s, e).active == s.active && T.Step(s, e).ring == s.ring
    ensures T.Step(s, e).frameIndex == s.frameIndex && T.Step(s, e).wasTransmitting == s.wasTransmitting
    ensures T.Step(s, e).input.Some? == s.input.Some?
    ensures s.input.Some? ==> T.Step(s, e).input.value.active == s.input.value.active
  {
  }

  lemma {:induction false} RunMarked(a: State, m: Threads, es: seq<Event>)
    requires MarkedSince(a, m)
    ensures MarkedSince(a, Run(m, es))
    decreases |es|
  {
    hide MarkedSince, Step;
    if es != [] {
      RunMarked(a, m, es[..|es| - 1]);
      StepMarked(a, Run(m, es[..|es| - 1]), es[|es| - 1]);
    }
  }

  lemma {:induction false} RunBoth(m: Threads, a: seq<Event>, b: seq<Event>)
    ensures Run(m, a + b) == Run(Run(m, a), b)
    decreases |b|
  {
    hide Step;
    if b == [] {
      assert a + b == a;
    } else {
      var n := |b| - 1;
      RunBoth(m, a, b[..n]);
      assert (a + b)[..|a + b| - 1] == a + b[..n];
    }
  }

  /**
   Between two moments at which no command is under way, in every interleaving: everything enqueued stays, and if capture
   was active and then is not, a mark was enqueued in between.
   */
  lemma {:induction false} EveryStopEnqueuesMark(m: Threads, es: seq<Event>)
    requires m.todo == []
    ensures var n := Run(m, es);
            && m.s.sent <= n.s.sent
            && (m.s.active && !n.s.active ==> MarkSince(n.s.sent, |m.s.sent|))
  {
    RunMarked(m.s, m, es);
    hide Run, MarkSince;
  }

  // ---- When the mark is also the last word

  function Outgoing(cb: Callback): seq<Message> {
    if cb.Sending? then cb.out else []
  }

  /** No callback is under way while capture stops. */
  predicate Undisturbed(m: Threads, ev: Event) {
    && (ev.Work? && m.todo != [] && (m.todo[0].MarkEnd? || m.todo[0].GateOff? || m.todo[0].ResetBaseline?) ==> m.cb.Idle?)
    && (ev.Fires? && m.todo != [] ==> !m.todo[0].GateOff?)
  }

  predicate AllUndisturbed(m: Threads, es: seq<Event>)
    decreases |es|
  {
    es == [] || (AllUndisturbed(m, es[..|es| - 1]) && Undisturbed(Run(m, es[..|es| - 1]), es[|es| - 1]))
  }

  ghost predicate Stopping(m: Threads) {
    m.todo != [] && (m.todo[0].GateOff? || m.todo[0].ResetBaseline?)
  }

  /** What holds between any two accesses of an undisturbed run. */
  ghost predicate Orderly(m: Threads) {
    && Stops(m.todo)
    && (m.s.input.Some? && m.s.input.value.active ==> m.s.active)
    && (!m.cb.Idle? ==> m.s.active)
    && (m.cb.Looked? ==> m.cb.was == m.s.wasTransmitting)
    && (!m.s.wasTransmitting ==> T.Ended(m.s.sent + Outgoing(m.cb)))
    && (m.s.wasTransmitting ==> m.s.active || (m.todo != [] && m.todo[0].ResetBaseline?))
    && (Stopping(m) ==> m.cb.Idle? && T.Ended(m.s.sent))
    && (m.todo != [] && m.todo[0].ResetBaseline? ==> !m.s.active)
    && |m.s.ring| <= PRE_ROLL_FRAMES
  }

  lemma {:induction false} OpRing(s: State, op: Op)
    ensures Do(s, op).ring == if op.OpenStream? then [] else s.ring
    ensures Do(s, op).wasTransmitting == (s.wasTransmitting && !op.ResetBaseline?)
  {
  }

  lemma {:induction false} OwnKeeps(s: State, own: State)
    ensures var t := Own(s, own);
            && t.input == s.input && t.active == s.active && t.sent == s.sent && t.ring == s.ring
            && t.wasTransmitting == s.wasTransmitting && t.frameIndex == s.frameIndex
  {
  }

  lemma {:induction false} OpKeepsGate(s: State, op: Op)
    requires !op.GateOff? && !op.GateOn? && !op.JoinStream? && !op.OpenStream?
    ensures Do(s, op).input == s.input && Do(s, op).active == s.active
  {
    hide Own, T.Max;
    if op.Become? {
      OwnKeeps(s, op.own);
    }
  }

  lemma {:induction false} OpGate(s: State, op: Op)
    requires s.input.Some? && s.input.value.active ==> s.active
    ensures var t := Do(s, op); t.input.Some? && t.input.value.active ==> t.active
  {
    if !op.GateOff? && !op.GateOn? && !op.JoinStream? && !op.OpenStream? {
      OpKeepsGate(s, op);
      hide Do;
    }
  }

  lemma {:induction false} WorkOrderly(m: Threads)
    requires Orderly(m) && Undisturbed(m, Work)
    ensures Orderly(Step(m, Work))
  {
    hide Do, Stops, T.Ended;
    if m.todo != [] && !(m.todo[0].JoinStream? && !m.cb.Idle?) {
      var op := m.todo[0];
      OpSent(m.s, op);
      OpRing(m.s, op);
      OpGate(m.s, op);
      TailStops(m.todo);
      MarkEnds(m.s.sent, m.s.frameIndex * FRAME_US);
      assert m.s.sent + [] == m.s.sent && Do(m.s, op).sent + [] == Do(m.s, op).sent;
    }
  }

  lemma {:induction false} MarkEnds(sent: seq<Message>, timestampUs: nat)
    ensures T.Ended(sent + [G.EndOfStream(timestampUs)])
  {
  }

  lemma {:induction false} SendOrderly(m: Threads)
    requires Orderly(m) && m.cb.Sending?
    ensures Orderly(Step(m, Proceeds))
  {
    hide Stops, T.Ended;
    var out := m.cb.out;
    if out != [] {
      assert m.s.sent + [out[0]] + out[1..] == m.s.sent + out;
      assert m.s.sent + [out[0]] + [] == m.s.sent + [out[0]];
    }
  }

  lemma {:induction false} StoredIs(s: State, frame: nat, samples: Pcm, suppress: bool, was: bool)
    requires |s.ring| <= PRE_ROLL_FRAMES
    ensures var t := Stored(s, frame, samples, suppress, was); var out := Gated(s, frame, samples, suppress, was).1;
            && t.sent == s.sent && t.active == s.active && t.input == s.input && |t.ring| <= PRE_ROLL_FRAMES
            && (suppress ==> out == if was then [G.EndOfStream(frame * FRAME_US)] else [])
            && (!suppress ==> out != [] && out[|out| - 1].EncodedFrame?)
  {
  }

  lemma {:induction false} StoreOrderly(m: Threads)
    requires Orderly(m) && m.cb.Looked?
    ensures Orderly(Step(m, Proceeds))
  {
    hide Stops, Gated, T.Ended;
    var Looked(frame, samples, suppress, was) := m.cb;
    StoredIs(m.s, frame, samples, suppress, was);
    MarkEnds(m.s.sent, frame * FRAME_US);
    assert m.s.sent + [] == m.s.sent;
  }

  lemma {:induction false} PassOrderly(m: Threads)
    requires Orderly(m) && m.cb.Passed?
    ensures Orderly(Step(m, Proceeds))
  {
    TickedIs(m.s);
    if m.s.input.Some? && m.s.input.value.warmup > 0 {
      WarmedIs(m.s);
    }
    hide Stops, T.Ended, T.Ticked, T.Warmed;
  }

  lemma {:induction false} LookOrderly(m: Threads)
    requires Orderly(m) && (m.cb.Idle? || m.cb.Fetched? || m.cb.Judged?)
    ensures Orderly(Step(m, Proceeds))
  {
    hide Stops, T.Ended, G.Suppresses;
  }

  lemma {:induction false} ProceedOrderly(m: Threads)
    requires Orderly(m)
    ensures Orderly(Step(m, Proceeds))
  {
    hide Orderly, Step;
    match m.cb
    case Sending(_) => SendOrderly(m);
    case Looked(_, _, _, _) => StoreOrderly(m);
    case Passed(_, _) => PassOrderly(m);
    case _ => LookOrderly(m);
  }

  lemma {:induction false} StepOrderly(m: Threads, ev: Event)
    requires Orderly(m) && Undisturbed(m, ev)
    ensures Orderly(Step(m, ev))
  {
    match ev
    case Work => WorkOrderly(m);
    case Proceeds => ProceedOrderly(m);
    case Command(e) =>
      PlanStops(m.s, e);
      hide Stops, Plan, T.Ended;
    case Environment(e) =>
      hide Stops, T.Step, T.Ended;
      if Accepts(m, ev) {
        OutsideSent(m.s, e);
      }
    case Fires(_, _) => hide Stops, T.Ended;
    case Dequeues => hide Stops, T.Ended;
  }

  lemma {:induction false} StartOrderly(config: T.Config)
    ensures Orderly(Start(config))
  {
  }

  lemma {:induction false} RunOrderly(config: T.Config, es: seq<Event>)
    requires AllUndisturbed(Start(config), es)
    ensures Orderly(Run(Start(config), es))
    decreases |es|
  {
    hide Orderly, Step, Undisturbed;
    if es == [] {
      StartOrderly(config);
    } else {
      RunOrderly(config, es[..|es| - 1]);
      StepOrderly(Run(Start(config), es[..|es| - 1]), es[|es| - 1]);
    }
  }

  /**
   If no callback is ever under way while capture stops, then, whatever else interleaves, at every moment at rest the whole
   invariant of the turn-taking task holds: in particular, when nothing is being transmitted, a mark came last.
   */
  lemma {:induction false} UndisturbedRunValid(config: T.Config, es: seq<Event>)
    requires AllUndisturbed(Start(config), es)
    requires var m := Run(Start(config), es); m.todo == [] && m.cb.Idle?
    ensures var s := Run(Start(config), es).s; T.Valid(s) && T.SettledUnlessDropped(s)
  {
    hide Run, AllUndisturbed, T.SettledUnlessDropped;
    EveryRunSturdy(config, es);
    RunOrderly(config, es);
    var s := Run(Start(config), es).s;
    assert s.sent + [] == s.sent;
  }

  // ---- A stop in the middle of a callback

  /** The callback still has voice to enqueue, and it will be the last thing it enqueues. */
  ghost predicate VoiceLeft(s: State, cb: Callback) {
    match cb
    case Idle => false
    case Passed(_, verdict) =>
      !(s.input.Some? && s.input.value.warmup > 0) && !G.Suppresses(verdict, s.vadGateBypass)
    case Fetched(_, _, verdict) => !G.Suppresses(verdict, s.vadGateBypass)
    case Judged(_, _, suppress) => !suppress
    case Looked(_, _, suppress, _) => !suppress
    case Sending(out) => out != [] && out[|out| - 1].EncodedFrame?
  }

  /** The marks it will enqueue though the stop has its own: it saw the gate open, and has not enqueued its own yet. */
  ghost function MarksLeft(cb: Callback): seq<Message> {
    match cb
    case Looked(frame, _, suppress, was) => if suppress && was then [G.EndOfStream(frame * FRAME_US)] else []
    case Sending(out) => G.Ends(out)
    case _ => []
  }

  /** The receivers were told, and the baseline is clean. */
  ghost predicate Told(s: State) {
    !s.wasTransmitting && T.Ended(s.sent)
  }

  lemma {:induction false} DeactivateIs(s: State)
    requires s.active
    ensures var t := T.Deactivate(s);
            && t.sent == s.sent + [G.EndOfStream(s.frameIndex * FRAME_US)] && !t.wasTransmitting && t.ring == s.ring
            && t.vadGateBypass == s.vadGateBypass && t.frameIndex == s.frameIndex
            && t.input.Some? == s.input.Some? && (s.input.Some? ==> t.input.value.warmup == s.input.value.warmup)
  {
  }

  lemma {:induction false} SuppressedFinish(s: State, frame: nat, samples: Pcm, was: bool)
    requires !s.wasTransmitting && T.Ended(s.sent) && |s.ring| <= PRE_ROLL_FRAMES
    ensures var t := Finish(s, Looked(frame, samples, true, was));
            Told(t) && G.Ends(t.sent) == G.Ends(s.sent) + if was then [G.EndOfStream(frame * FRAME_US)] else []
  {
    hide Finish, Gated, T.Ended, G.Ends, G.OnFrame;
    FinishLooked(s, frame, samples, true, was);
    StoredIs(s, frame, samples, true, was);
    var out := Gated(s, frame, samples, true, was).1;
    G.EndsConcat(s.sent, out);
    MarkEnds(s.sent, frame * FRAME_US);
    assert s.sent + [] == s.sent;
    OneEnd(G.EndOfStream(frame * FRAME_US));
  }

  lemma {:induction false} VoicedFinish(s: State, frame: nat, samples: Pcm, was: bool)
    requires !s.wasTransmitting && |s.ring| <= PRE_ROLL_FRAMES
    ensures var t := Finish(s, Looked(frame, samples, false, was)); !Told(t) && G.Ends(t.sent) == G.Ends(s.sent)
  {
    hide Finish, Gated, T.Ended, G.Ends, G.OnFrame;
    FinishLooked(s, frame, samples, false, was);
    StoredIs(s, frame, samples, false, was);
    var out := Gated(s, frame, samples, false, was).1;
    G.EndsConcat(s.sent, out);
    VoiceLast(s.sent, out);
    NoEnds(s, frame, samples, was);
    assert G.Ends(s.sent) + [] == G.Ends(s.sent);
    hide Stored;
  }

  /** What the rest of a callback leaves, from its look at the transmitting flag on. */
  lemma {:induction false} FinishedLook(s: State, frame: nat, samples: Pcm, suppress: bool, was: bool)
    requires !s.wasTransmitting && T.Ended(s.sent) && |s.ring| <= PRE_ROLL_FRAMES
    ensures var t := Finish(s, Looked(frame, samples, suppress, was));
            && (Told(t) <==> suppress)
            && G.Ends(t.sent) == G.Ends(s.sent) + MarksLeft(Looked(frame, samples, suppress, was))
  {
    hide Finish, T.Ended, G.Ends, Told;
    assert G.Ends(s.sent) + [] == G.Ends(s.sent);
    if suppress {
      SuppressedFinish(s, frame, samples, was);
    } else {
      VoicedFinish(s, frame, samples, was);
    }
  }

  lemma {:induction false} OneEnd(m: Message)
    requires m.EndOfStream?
    ensures G.Ends([m]) == [m] && G.Ends([]) == []
  {
    assert [m][..0] == [];
  }

  lemma {:induction false} VoiceLast(sent: seq<Message>, out: seq<Message>)
    requires out != [] && out[|out| - 1].EncodedFrame?
    ensures !T.Ended(sent + out)
  {
    var all := sent + out;
    assert all[|all| - 1] == out[|out| - 1];
  }

  lemma {:induction false} NoEnds(s: State, frame: nat, samples: Pcm, was: bool)
    ensures G.Ends(Gated(s, frame, samples, false, was).1) == []
  {
    var out := Gated(s, frame, samples, false, was).1;
    G.NoEnds(out);
  }

  /**
   A stop that finds a callback anywhere in its course, and the callback's end: the receivers are told and the baseline is
   clean exactly if the callback had no voice left to enqueue, and one stop is marked more than once exactly by what the
   callback had left to mark.
   */
  lemma {:induction false} StopMidCallback(s: State, cb: Callback)
    requires s.active && |s.ring| <= PRE_ROLL_FRAMES
    ensures var t := Finish(DoAll(s, StopPlan(s)), cb);
            && (Told(t) <==> !VoiceLeft(s, cb))
            && G.Ends(t.sent) == G.Ends(s.sent) + [G.EndOfStream(s.frameIndex * FRAME_US)] + MarksLeft(cb)
  {
    StopPlanIs(s);
    DeactivateIs(s);
    var u := T.Deactivate(s);
    hide T.Deactivate, DoAll, StopPlan, Gated, G.OnFrame, T.Ended;
    MarkEnds(s.sent, s.frameIndex * FRAME_US);
    G.EndsConcat(s.sent, [G.EndOfStream(s.frameIndex * FRAME_US)]);
    OneEnd(G.EndOfStream(s.frameIndex * FRAME_US));
    if cb.Sending? {
      StopMidSend(u, cb.out);
    } else if !cb.Idle? {
      StopMidGate(u, cb);
    }
  }

  lemma {:induction false} StopMidSend(u: State, out: seq<Message>)
    requires !u.wasTransmitting && T.Ended(u.sent)
    ensures var t := Finish(u, Sending(out));
            && (Told(t) <==> !(out != [] && out[|out| - 1].EncodedFrame?)) && G.Ends(t.sent) == G.Ends(u.sent) + G.Ends(out)
  {
    G.EndsConcat(u.sent, out);
    if out == [] {
      assert u.sent + [] == u.sent;
    } else {
      hide Finish;
      SendsAll(u, out);
      var all := u.sent + out;
      assert all[|all| - 1] == out[|out| - 1];
    }
  }

  lemma {:induction false} StopMidGate(u: State, cb: Callback)
    requires !u.wasTransmitting && T.Ended(u.sent) && |u.ring| <= PRE_ROLL_FRAMES && !cb.Idle? && !cb.Sending?
    ensures var t := Finish(u, cb);
            && (Told(t) <==> !VoiceLeft(u, cb)) && G.Ends(t.sent) == G.Ends(u.sent) + MarksLeft(cb)
  {
    hide Gated, Stored, T.Ended, G.Ends;
    assert G.Ends(u.sent) + [] == G.Ends(u.sent);
    match cb
    case Looked(frame, samples, suppress, was) => FinishedLook(u, frame, samples, suppress, was);
    case Judged(frame, samples, suppress) => FinishedLook(u, frame, samples, suppress, false);
    case Fetched(frame, samples, verdict) =>
      FinishFetched(u, frame, samples, verdict);
      FinishedLook(u, frame, samples, G.Suppresses(verdict, u.vadGateBypass), false);
    case Passed(samples, verdict) => StopMidPass(u, samples, verdict);
  }

  lemma {:induction false} StopMidPass(u: State, samples: Pcm, verdict: bool)
    requires !u.wasTransmitting && T.Ended(u.sent) && |u.ring| <= PRE_ROLL_FRAMES
    ensures var t := Finish(u, Passed(samples, verdict));
            (Told(t) <==> !VoiceLeft(u, Passed(samples, verdict))) && G.Ends(t.sent) == G.Ends(u.sent)
  {
    hide Gated, Stored, T.Ended, G.Ends, G.Suppresses;
    assert G.Ends(u.sent) + [] == G.Ends(u.sent);
    var t := T.Ticked(u);
    TickedIs(u);
    hide T.Ticked, T.Warmed;
    if u.input.Some? && u.input.value.warmup > 0 {
      WarmedIs(u);
    }
    if !(u.input.Some? && u.input.value.warmup > 0) {
      FinishFetched(t, u.frameIndex, samples, verdict);
      FinishedLook(t, u.frameIndex, samples, G.Suppresses(verdict, u.vadGateBypass), false);
    }
  }

  lemma {:induction false} TickedIs(s: State)
    ensures var t := T.Ticked(s);
            && t.sent == s.sent && t.wasTransmitting == s.wasTransmitting && t.ring == s.ring
            && t.vadGateBypass == s.vadGateBypass && t.active == s.active && t.input == s.input
  {
  }

  lemma {:induction false} WarmedIs(s: State)
    requires s.input.Some? && s.input.value.warmup > 0
    ensures T.Warmed(s).sent == s.sent && T.Warmed(s).wasTransmitting == s.wasTransmitting && T.Warmed(s).ring == s.ring
    ensures T.Warmed(s).input == Some(s.input.value.(warmup := s.input.value.warmup - 1))
    ensures T.Warmed(s).active == s.active
  {
  }

  // ---- A run in which a frame comes late

  function Works(n: nat): seq<Event> {
    seq(n, _ => Work)
  }

  /** With no callback under way a plan is worked off in as many steps as it has ops. */
  lemma {:induction false} WorkedOff(m: Threads, n: nat)
    requires n == |m.todo| && (m.cb.Idle? || forall op :: op in m.todo ==> !op.JoinStream?)
    ensures Run(m, Works(n)) == m.(s := DoAll(m.s, m.todo), todo := [])
    decreases n
  {
    hide Do;
    if n == 0 {
      assert Works(0) == [];
    } else {
      var m' := m.(s := Do(m.s, m.todo[0]), todo := m.todo[1..]);
      assert m.todo[0] in m.todo && forall op :: op in m.todo[1..] ==> op in m.todo;
      assert Works(n) == [Work] + Works(n - 1);
      RunBoth(m, [Work], Works(n - 1));
      RunOne(m, Work);
      WorkedOff(m', n - 1);
    }
  }

  lemma {:induction false} RunOne(m: Threads, ev: Event)
    ensures Run(m, [ev]) == Step(m, ev)
  {
    hide Step;
    assert [ev][..0] == [];
  }

  /** The events that carry out command `e` at `s` from start to end. */
  function Through(s: State, e: T.Event): seq<Event> {
    [Command(e)] + Works(|Plan(s, e)|)
  }

  lemma {:induction false} CommandThrough(m: Threads, e: T.Event)
    requires m.todo == [] && IsCommand(e) && (m.s.active ==> m.s.input.Some?)
    requires m.cb.Idle? || forall op :: op in Plan(m.s, e) ==> !op.JoinStream?
    ensures Run(m, Through(m.s, e)) == m.(s := T.Step(m.s, e))
  {
    hide T.Step, Plan;
    var m' := m.(todo := Plan(m.s, e));
    RunBoth(m, [Command(e)], Works(|Plan(m.s, e)|));
    RunOne(m, Command(e));
    WorkedOff(m', |Plan(m.s, e)|);
    PlanIsStep(m.s, e);
  }

  /** One turn after the other: a frame that is fetched, judged and looked at. */
  function Looks(samples: Pcm): seq<Event> {
    [Fires(samples, false), Proceeds, Proceeds, Proceeds]
  }

  lemma {:induction false} LooksAt(m: Threads, samples: Pcm)
    requires m.cb.Idle? && m.s.input.Some? && m.s.input.value.active && m.s.input.value.warmup == 0
    ensures Run(m, Looks(samples))
         == m.(s := T.Ticked(m.s), cb := Looked(m.s.frameIndex, samples, false, m.s.wasTransmitting))
  {
    hide T.Ticked, Run;
    TickedIs(m.s);
    var m1 := m.(cb := Passed(samples, false));
    var m2 := m.(s := T.Ticked(m.s), cb := Fetched(m.s.frameIndex, samples, false));
    var m3 := m2.(cb := Judged(m.s.frameIndex, samples, false));
    FourSteps(m, Fires(samples, false), Proceeds, Proceeds, Proceeds);
    assert Step(m, Fires(samples, false)) == m1 && Step(m1, Proceeds) == m2 && Step(m2, Proceeds) == m3;
  }

  lemma {:induction false} FourSteps(m: Threads, a: Event, b: Event, c: Event, d: Event)
    ensures Run(m, [a, b, c, d]) == Step(Step(Step(Step(m, a), b), c), d)
    ensures Run(m, [a, b]) == Step(Step(m, a), b)
  {
    hide Step;
    RunOne(m, a);
    RunBoth(m, [a], [b]);
    RunOne(Step(m, a), b);
    RunBoth(m, [a, b], [c]);
    RunOne(Step(Step(m, a), b), c);
    RunBoth(m, [a, b, c], [d]);
    RunOne(Step(Step(Step(m, a), b), c), d);
    assert [a] + [b] == [a, b] && [a, b] + [c] == [a, b, c] && [a, b, c] + [d] == [a, b, c, d];
  }

  /** Capture is on and push-to-talk held. */
  ghost predicate Talking(s: State, warmup: nat) {
    && s.active && s.connected && s.ptt && s.mode.PushToTalk? && !s.selfMuted && !s.serverMuted
    && s.input == Some(T.Stream(true, true, warmup)) && s.ring == []
  }

  /** And nothing has been said yet. */
  ghost predicate Holding(s: State, warmup: nat) {
    Talking(s, warmup) && !s.wasTransmitting && s.sent == []
  }

  lemma {:induction false} StreamOpened(config: T.Config)
    ensures var s := T.Step(T.Initial(config), T.ConnectionEstablished(true, true));
            && !s.active && s.connected && s.mode.PushToTalk? && s.input == Some(T.Stream(false, true, T.WARMUP_FRAMES))
            && s.ring == [] && !s.wasTransmitting && !s.selfMuted && !s.serverMuted && s.sent == []
  {
    hide T.Deactivate, T.Activated;
  }

  lemma {:induction false} KeyHeld(s: State)
    requires !s.active && s.connected && s.mode.PushToTalk? && s.input == Some(T.Stream(false, true, T.WARMUP_FRAMES))
    requires s.ring == [] && !s.wasTransmitting && !s.selfMuted && !s.serverMuted && s.sent == []
    ensures Holding(T.Step(s, T.StartTransmit), T.WARMUP_FRAMES)
  {
    hide T.Deactivate;
  }

  lemma {:induction false} WarmsUp(m: Threads, warmup: nat)
    requires m.cb.Idle? && Holding(m.s, warmup) && warmup > 0
    ensures var n := Run(m, [Fires([], false), Proceeds]);
            n == m.(s := n.s) && Holding(n.s, warmup - 1)
  {
    FourSteps(m, Fires([], false), Proceeds, Proceeds, Proceeds);
    hide Run, T.Ticked;
    StillHolding(m.s, warmup);
    hide T.Warmed, Holding;
  }

  lemma {:induction false} StillHolding(s: State, warmup: nat)
    requires Holding(s, warmup)
    ensures s.input == Some(T.Stream(true, true, warmup))
    ensures warmup > 0 ==> Holding(T.Warmed(s), warmup - 1)
    ensures Holding(T.Ticked(s), warmup)
  {
  }

  /** Three warm-up frames. */
  function Warmup(): seq<Event> {
    [Fires([], false), Proceeds] + [Fires([], false), Proceeds] + [Fires([], false), Proceeds]
  }

  lemma {:induction false} WarmedUp(m: Threads)
    requires m.cb.Idle? && Holding(m.s, T.WARMUP_FRAMES)
    ensures var n := Run(m, Warmup()); n == m.(s := n.s) && Holding(n.s, 0)
  {
    hide Holding, Run;
    var es := [Fires([], false), Proceeds];
    var m1 := Run(m, es);
    WarmsUp(m, 3);
    var m2 := Run(m1, es);
    WarmsUp(m1, 2);
    WarmsUp(m2, 1);
    RunBoth(m, es, es);
    RunBoth(m, es + es, es);
  }

  /** The key is released in the middle of a frame. */
  lemma {:induction false} KeyReleased(s: State)
    requires Holding(s, 0)
    ensures var t := T.Step(s, T.StopTransmit); !t.active && t.ring == [] && !t.wasTransmitting
    ensures forall op :: op in Plan(s, T.StopTransmit) ==> !op.JoinStream?
  {
    hide T.Activated;
  }

  /** A frame that was looked at before the key was released goes out after the mark. */
  lemma {:induction false} LooksThenStops(m: Threads, samples: Pcm)
    requires m.todo == [] && m.cb.Idle? && Holding(m.s, 0)
    ensures var t := T.Ticked(m.s);
            var n := Run(m, Looks(samples) + Through(t, T.StopTransmit) + [Proceeds, Proceeds]);
            && n.todo == [] && n.cb.Idle? && !n.s.active && n.s.wasTransmitting
            && n.s.sent != [] && n.s.sent[|n.s.sent| - 1].EncodedFrame?
  {
    hide Holding, Run, T.Ticked, T.Step, Plan, Looks, Through;
    var t := T.Ticked(m.s);
    StillHolding(m.s, 0);
    LooksAt(m, samples);
    var f := m.s.frameIndex;
    var m1 := m.(s := t, cb := Looked(f, samples, false, m.s.wasTransmitting));
    HoldingFacts(t);
    HoldingFacts(m.s);
    KeyReleased(t);
    CommandThrough(m1, T.StopTransmit);
    var m2 := m1.(s := T.Step(t, T.StopTransmit));
    LateSend(m2, f, samples);
    RunBoth(m, Looks(samples), Through(t, T.StopTransmit));
    RunBoth(m, Looks(samples) + Through(t, T.StopTransmit), [Proceeds, Proceeds]);
  }

  lemma {:induction false} HoldingFacts(s: State)
    requires Holding(s, 0)
    ensures s.active && s.input.Some? && !s.wasTransmitting && s.input.value.active && s.input.value.warmup == 0
    ensures Talking(s, 0) && s.sent == []
  {
  }

  lemma {:induction false} LateSend(m: Threads, frame: nat, samples: Pcm)
    requires m.cb == Looked(frame, samples, false, false) && m.s.ring == [] && !m.s.active
    ensures var n := Run(m, [Proceeds, Proceeds]);
            && n.todo == m.todo && n.cb.Idle? && !n.s.active && n.s.wasTransmitting
            && n.s.sent == m.s.sent + [G.EncodedFrame(frame * FRAME_US, samples)]
  {
    FourSteps(m, Proceeds, Proceeds, Proceeds, Proceeds);
    hide Run;
    LateStore(m.s, frame, samples);
    hide Stored, Gated;
  }

  lemma {:induction false} LateStore(s: State, frame: nat, samples: Pcm)
    requires s.ring == []
    ensures Gated(s, frame, samples, false, false).1 == [G.EncodedFrame(frame * FRAME_US, samples)]
    ensures var t := Stored(s, frame, samples, false, false); t.wasTransmitting && t.active == s.active && t.sent == s.sent
  {
  }

  /** A connection is there, the key is held, and the device has warmed up. */
  function Ready(config: T.Config): seq<Event> {
    var s0 := T.Initial(config);
    var s1 := T.Step(s0, T.ConnectionEstablished(true, true));
    Through(s0, T.ConnectionEstablished(true, true)) + Through(s1, T.StartTransmit) + Warmup()
  }

  lemma {:induction false} ReadyHolds(config: T.Config)
    ensures var m := Run(Start(config), Ready(config));
            m == Start(config).(s := m.s) && Holding(m.s, 0) && Talking(m.s, 0) && m.s.sent == []
  {
    hide Run, T.Step, Holding, Through, Warmup, Plan;
    var m0, s0 := Start(config), T.Initial(config);
    var e1 := T.ConnectionEstablished(true, true);
    var s1 := T.Step(s0, e1);
    StreamOpened(config);
    KeyHeld(s1);
    CommandThrough(m0, e1);
    var m1 := m0.(s := s1);
    CommandThrough(m1, T.StartTransmit);
    var m2 := m1.(s := T.Step(s1, T.StartTransmit));
    WarmedUp(m2);
    HoldingFacts(Run(m2, Warmup()).s);
    RunBoth(m0, Through(s0, e1), Through(s1, T.StartTransmit));
    RunBoth(m0, Through(s0, e1) + Through(s1, T.StartTransmit), Warmup());
  }

  function LateRun(config: T.Config, samples: Pcm): seq<Event> {
    var s := Run(Start(config), Ready(config)).s;
    Ready(config) + (Looks(samples) + Through(T.Ticked(s), T.StopTransmit) + [Proceeds, Proceeds])
  }

  /** The condition is needed: at the end of this run nothing is under way and capture is off, yet voice came last. */
  lemma {:induction false} FrameComesLate(config: T.Config, samples: Pcm)
    ensures var m := Run(Start(config), LateRun(config, samples));
            && m.todo == [] && m.cb.Idle? && !m.s.active && m.s.wasTransmitting && !T.Ended(m.s.sent) && !T.Valid(m.s)
  {
    hide Run, T.Step, Holding, Looks, Through, Ready, Plan, T.Ticked;
    ReadyHolds(config);
    var m := Run(Start(config), Ready(config));
    LooksThenStops(m, samples);
    RunBoth(Start(config), Ready(config),
            Looks(samples) + Through(T.Ticked(m.s), T.StopTransmit) + [Proceeds, Proceeds]);
  }

  // ---- A frame said from start to end

  function Speaks(samples: Pcm): seq<Event> {
    Looks(samples) + [Proceeds, Proceeds]
  }

  lemma {:induction false} Spoken(m: Threads, samples: Pcm)
    requires m.cb.Idle? && Talking(m.s, 0)
    ensures var n := Run(m, Speaks(samples));
            && n == m.(s := n.s) && Talking(n.s, 0)
            && n.s.sent == m.s.sent + [G.EncodedFrame(m.s.frameIndex * FRAME_US, samples)]
  {
    hide Run, Looks, T.Ticked, Talking;
    TalkingFacts(m.s);
    LooksAt(m, samples);
    TickedIs(m.s);
    var m1 := m.(s := T.Ticked(m.s), cb := Looked(m.s.frameIndex, samples, false, m.s.wasTransmitting));
    SpeaksOn(m1, m.s.frameIndex, samples);
    RunBoth(m, Looks(samples), [Proceeds, Proceeds]);
  }

  lemma {:induction false} TalkingFacts(s: State)
    requires Talking(s, 0)
    ensures s.input.Some? && s.input.value.active && s.input.value.warmup == 0 && s.active && Talking(T.Ticked(s), 0)
  {
  }

  lemma {:induction false} SpokenStore(s: State, frame: nat, samples: Pcm, was: bool)
    requires Talking(s, 0)
    ensures Gated(s, frame, samples, false, was).1 == [G.EncodedFrame(frame * FRAME_US, samples)]
    ensures Talking(Stored(s, frame, samples, false, was), 0) && Stored(s, frame, samples, false, was).sent == s.sent
  {
  }

  lemma {:induction false} SentTalking(s: State, out: seq<Message>)
    requires Talking(s, 0)
    ensures Talking(s.(sent := s.sent + out), 0)
  {
  }

  /** A new connection, with the stream of the old one: the clock starts over, and capture goes on. */
  lemma {:induction false} Reconnected(s: State)
    requires Talking(s, 0)
    ensures var t := T.Step(s, T.ConnectionEstablished(true, true));
            Talking(t, 0) && t.frameIndex == 0 && t.sent == s.sent
  {
    hide T.Activated, T.Deactivate;
  }

  lemma {:induction false} ReconnectsAtOnce(s: State)
    requires Talking(s, 0)
    ensures forall op :: op in Plan(s, T.ConnectionEstablished(true, true)) ==> !op.JoinStream?
  {
    hide T.Activated, T.Deactivate;
  }

  /** A callback that has looked sends its frame. */
  lemma {:induction false} SpeaksOn(m: Threads, frame: nat, samples: Pcm)
    requires m.cb.Looked? && m.cb == Looked(frame, samples, false, m.cb.was) && Talking(m.s, 0)
    ensures var n := Run(m, [Proceeds, Proceeds]);
            && n == m.(s := n.s, cb := Idle) && Talking(n.s, 0)
            && n.s.sent == m.s.sent + [G.EncodedFrame(frame * FRAME_US, samples)]
            && n.s.frameIndex == m.s.frameIndex
  {
    hide Run, Talking;
    FourSteps(m, Proceeds, Proceeds, Proceeds, Proceeds);
    SpokenStore(m.s, frame, samples, m.cb.was);
    StoredClock(m.s, frame, samples, false, m.cb.was);
    hide Stored, Gated;
    SentTalking(Stored(m.s, frame, samples, false, m.cb.was), [G.EncodedFrame(frame * FRAME_US, samples)]);
  }

  lemma {:induction false} StoredClock(s: State, frame: nat, samples: Pcm, suppress: bool, was: bool)
    ensures Stored(s, frame, samples, suppress, was).frameIndex == s.frameIndex
  {
  }
}
