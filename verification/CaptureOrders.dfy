/** Capture runs as ordered: what it has been told so far, by the last word on each matter, decides whether it runs. */
module CaptureOrders {
  import opened CaptureTask
  import opened Options

  /** Some event says so, and none after it takes it back. */
  ghost predicate LastWord(es: seq<Event>, says: Event -> bool, unsays: Event -> bool) {
    exists i :: SaidAt(es, says, unsays, i)
  }

  ghost predicate SaidAt(es: seq<Event>, says: Event -> bool, unsays: Event -> bool, i: nat) {
    i < |es| && says(es[i]) && forall j :: i < j < |es| ==> !unsays(es[j])
  }

  predicate Connects(e: Event) {
    e.ConnectionEstablished?
  }

  predicate Disconnects(e: Event) {
    e.ConnectionClosed? || e.DatagramEnd?
  }

  predicate GivesEncoder(e: Event) {
    e.ConnectionEstablished? && e.encoderOk
  }

  /** What is scoped to a connection goes with it. */
  predicate Closes(e: Event) {
    e.ConnectionClosed?
  }

  predicate MutesSelf(e: Event) {
    e == SetMuted(true) || e == SetDeafened(true)
  }

  predicate UnmutesSelf(e: Event) {
    e == SetMuted(false)
  }

  predicate MutesByServer(e: Event) {
    e == SetServerMuted(true)
  }

  predicate UnmutesByServer(e: Event) {
    e == SetServerMuted(false) || e.ConnectionClosed?
  }

  predicate PressesToTalk(e: Event) {
    e.StartTransmit?
  }

  predicate ReleasesTalk(e: Event) {
    e.StopTransmit? || e.ConnectionClosed?
  }

  predicate GoesContinuous(e: Event) {
    e == SetVoiceMode(Continuous)
  }

  predicate LeavesContinuous(e: Event) {
    e == SetVoiceMode(PushToTalk)
  }

  // What is decided by orders alone.
  datatype Orders = Orders(connected: bool, encoder: bool, selfMuted: bool, serverMuted: bool, ptt: bool, mode: VoiceMode)

  function Told(s: State): Orders {
    Orders(s.connected, s.encoder, s.selfMuted, s.serverMuted, s.ptt, s.mode)
  }

  ghost predicate SameOrders(s: State, t: State) {
    Told(t) == Told(s)
  }

  lemma {:induction false} OrdersKept(s: State, t: State)
    requires t.connected == s.connected && t.encoder == s.encoder && t.selfMuted == s.selfMuted
    requires t.serverMuted == s.serverMuted && t.ptt == s.ptt && t.mode == s.mode
    ensures SameOrders(s, t)
  {
  }

  lemma {:induction false} SameTrans(s: State, t: State, u: State)
    requires SameOrders(s, t) && SameOrders(t, u)
    ensures SameOrders(s, u)
  {
  }

  lemma {:induction false} DeactivateSame(s: State)
    ensures SameOrders(s, Deactivate(s))
  {
    hide SameOrders, Gated;
    OrdersKept(s, Deactivate(s));
  }

  lemma {:induction false} ActivatedSame(s: State)
    requires s.input.Some?
    ensures SameOrders(s, Activated(s))
  {
    hide SameOrders, Gated, Max;
    OrdersKept(s, Activated(s));
  }

  lemma {:induction false} UndroppedSame(s: State)
    ensures SameOrders(s, s.(dropped := false))
  {
    hide SameOrders;
    OrdersKept(s, s.(dropped := false));
  }

  lemma {:induction false} SyncSame(s: State)
    ensures SameOrders(s, Sync(s))
  {
    hide SameOrders, Wants, Deactivate, Activated;
    var t := s.(dropped := false);
    UndroppedSame(s);
    DeactivateSame(t);
    SameTrans(s, t, Deactivate(t));
    if t.input.Some? {
      ActivatedSame(t);
      SameTrans(s, t, Activated(t));
    }
  }

  lemma {:induction false} ClosedInputSame(s: State)
    ensures SameOrders(s, s.(input := None)) && SameOrders(s, s)
  {
    hide SameOrders;
    OrdersKept(s, s.(input := None));
    OrdersKept(s, s);
  }

  lemma {:induction false} TeardownSame(s: State)
    ensures SameOrders(s, Teardown(s))
  {
    hide SameOrders, Deactivate;
    DeactivateSame(s);
    ClosedInputSame(s);
    ClosedInputSame(Deactivate(s));
    SameTrans(s, Deactivate(s), Deactivate(s).(input := None));
  }

  lemma {:induction false} JustStartSame(s: State, opens: bool)
    ensures SameOrders(s, Start(s, opens))
  {
    hide SameOrders;
    OrdersKept(s, Start(s, opens));
  }

  lemma {:induction false} InactiveSame(s: State)
    ensures SameOrders(s, s.(active := false))
  {
    hide SameOrders;
    OrdersKept(s, s.(active := false));
  }

  lemma {:induction false} StartSame(s: State, opens: bool)
    ensures SameOrders(s, Start(s, opens)) && SameOrders(s, StartOrFail(s, opens))
  {
    hide SameOrders, Start;
    JustStartSame(s, opens);
    InactiveSame(Start(s, opens));
    SameTrans(s, Start(s, opens), Start(s, opens).(active := false));
  }

  lemma {:induction false} ReopenSame(s: State, opens: bool)
    ensures SameOrders(s, Reopen(s, opens))
  {
    hide Sync, Teardown, StartOrFail, SameOrders;
    var t := Teardown(s);
    var u := if s.connected then StartOrFail(t, opens) else t;
    TeardownSame(s);
    StartSame(t, opens);
    SyncSame(u);
    if s.connected {
      SameTrans(s, t, u);
    }
    SameTrans(s, u, Sync(u));
  }

  lemma {:induction false} RecoveringSame(s: State, r: bool)
    ensures SameOrders(s, s.(recovering := r))
  {
  }

  lemma {:induction false} RetrySame(s: State, opens: bool)
    ensures SameOrders(s, Retry(s, opens))
  {
    hide Sync, Start, SameOrders;
    var u := Start(s, opens);
    var v := u.(recovering := false);
    StartSame(s, opens);
    RecoveringSame(s, false);
    RecoveringSame(u, false);
    SyncSame(v);
    SameTrans(s, u, v);
    SameTrans(s, v, Sync(v));
  }

  lemma {:induction false} HealthSame(s: State, opens: bool)
    ensures SameOrders(s, HealthCheck(s, opens))
  {
    hide Teardown, Retry;
    assert SameOrders(s, s);
    hide SameOrders;
    var t := Teardown(s);
    var r := t.(recovering := true);
    TeardownSame(s);
    RecoveringSame(t, true);
    RetrySame(r, opens);
    SameTrans(s, t, r);
    SameTrans(s, r, Retry(r, opens));
  }

  lemma {:induction false} WarmedSame(s: State)
    requires s.input.Some? && s.input.value.warmup > 0
    ensures SameOrders(s, Warmed(s))
  {
    hide SameOrders;
    OrdersKept(s, Warmed(s));
  }

  lemma {:induction false} TickedSame(s: State)
    ensures SameOrders(s, Ticked(s))
  {
    hide SameOrders;
    OrdersKept(s, Ticked(s));
  }

  lemma {:induction false} GateSame(s: State, frame: nat, samples: PreRoll.Pcm, suppress: bool)
    ensures SameOrders(s, Gate(s, frame, samples, suppress))
  {
    hide SameOrders, G.OnFrame;
    OrdersKept(s, Gate(s, frame, samples, suppress));
  }

  lemma {:induction false} GatedSame(s: State, frame: nat, samples: PreRoll.Pcm, suppress: bool)
    ensures SameOrders(s, Gate(Ticked(s), frame, samples, suppress))
  {
    hide SameOrders, Ticked, Gate;
    TickedSame(s);
    GateSame(Ticked(s), frame, samples, suppress);
    SameTrans(s, Ticked(s), Gate(Ticked(s), frame, samples, suppress));
  }

  lemma {:induction false} CapturedSame(s: State, samples: PreRoll.Pcm, suppress: bool)
    ensures SameOrders(s, OnCaptured(s, samples, suppress))
  {
    hide SameOrders, Warmed, Ticked, Gate;
    ClosedInputSame(s);
    if s.input.Some? && s.input.value.warmup > 0 {
      WarmedSame(s);
    }
    GatedSame(s, s.frameIndex, samples, G.Suppresses(suppress, s.vadGateBypass));
  }

  /** What one event says about each matter. */
  ghost predicate Obeys(s: Orders, e: Event, t: Orders) {
    && (t.connected <==> Connects(e) || (s.connected && !Disconnects(e)))
    && (t.encoder <==> GivesEncoder(e) || (s.encoder && !Closes(e)))
    && (t.selfMuted <==> MutesSelf(e) || (s.selfMuted && !UnmutesSelf(e)))
    && (t.serverMuted <==> MutesByServer(e) || (s.serverMuted && !UnmutesByServer(e)))
    && (t.ptt <==> PressesToTalk(e) || (s.ptt && !ReleasesTalk(e)))
    && (t.mode.Continuous? <==> GoesContinuous(e) || (s.mode.Continuous? && !LeavesContinuous(e)))
  }

  /** What an event orders. */
  function Ordered(s: Orders, e: Event): Orders {
    match e
    case ConnectionEstablished(encoderOk, _) => s.(connected := true, encoder := s.encoder || encoderOk)
    case ConnectionClosed => s.(connected := false, encoder := false, ptt := false, serverMuted := false)
    case StartTransmit => s.(ptt := true)
    case StopTransmit => s.(ptt := false)
    case SetVoiceMode(mode) => s.(mode := mode)
    case SetMuted(muted) => s.(selfMuted := muted)
    case SetDeafened(deafened) => s.(selfMuted := s.selfMuted || deafened)
    case SetServerMuted(muted) => s.(serverMuted := muted)
    case DatagramEnd => s.(connected := false)
    case _ => s
  }

  lemma {:induction false} EstablishedSame(s: State, encoderOk: bool, opens: bool)
    ensures Told(Step(s, ConnectionEstablished(encoderOk, opens)))
         == Ordered(Told(s), ConnectionEstablished(encoderOk, opens))
  {
    hide Sync, StartOrFail;
    var t := Connecting(s, encoderOk);
    var u := if s.input.None? then StartOrFail(t, opens) else t;
    assert Told(t) == Ordered(Told(s), ConnectionEstablished(encoderOk, opens));
    hide Connecting, Told;
    StartSame(t, opens);
    SyncSame(u);
  }

  lemma {:induction false} ConnectedObeys(s: Orders, e: Event)
    ensures Ordered(s, e).connected <==> Connects(e) || (s.connected && !Disconnects(e))
  {
  }

  lemma {:induction false} EncoderObeys(s: Orders, e: Event)
    ensures Ordered(s, e).encoder <==> GivesEncoder(e) || (s.encoder && !Closes(e))
  {
  }

  lemma {:induction false} SelfMuteObeys(s: Orders, e: Event)
    ensures Ordered(s, e).selfMuted <==> MutesSelf(e) || (s.selfMuted && !UnmutesSelf(e))
  {
  }

  lemma {:induction false} ServerMuteObeys(s: Orders, e: Event)
    ensures Ordered(s, e).serverMuted <==> MutesByServer(e) || (s.serverMuted && !UnmutesByServer(e))
  {
  }

  lemma {:induction false} KeyObeys(s: Orders, e: Event)
    ensures Ordered(s, e).ptt <==> PressesToTalk(e) || (s.ptt && !ReleasesTalk(e))
  {
  }

  lemma {:induction false} ModeObeys(s: Orders, e: Event)
    ensures Ordered(s, e).mode.Continuous? <==> GoesContinuous(e) || (s.mode.Continuous? && !LeavesContinuous(e))
  {
  }

  lemma {:induction false} OrderedObeys(s: Orders, e: Event)
    ensures Obeys(s, e, Ordered(s, e))
  {
    hide Ordered, Connects, Disconnects, GivesEncoder, Closes, MutesSelf, UnmutesSelf, MutesByServer, UnmutesByServer,
      PressesToTalk, ReleasesTalk, GoesContinuous, LeavesContinuous;
    ConnectedObeys(s, e);
    EncoderObeys(s, e);
    SelfMuteObeys(s, e);
    ServerMuteObeys(s, e);
    KeyObeys(s, e);
    ModeObeys(s, e);
  }

  lemma {:induction false} StepConfigures(s: State, e: Event)
    requires e.SetInputDevice? || e.UpdateSettings? || e.UpdateTxPipeline?
    ensures SameOrders(s, Step(s, e))
  {
    hide SameOrders, Sync, Reopen;
    var config := match e
                  case SetInputDevice(device, _) => s.config.(device := device)
                  case UpdateSettings(settings, _) => s.config.(settings := settings)
                  case UpdateTxPipeline(tx, _) => s.config.(txPipeline := tx)
                  case _ => s.config;
    var t := s.(config := config, recovering := s.recovering && !e.SetInputDevice?);
    OrdersKept(s, t);
    OrdersKept(s, s);
    SyncSame(s);
    ReopenSame(t, e.opens);
    SameTrans(s, t, Reopen(t, e.opens));
  }

  lemma {:induction false} StepClosing(s: State)
    ensures Told(Step(s, ConnectionClosed)) == Ordered(Told(s), ConnectionClosed)
  {
    hide Sync;
    SyncSame(s.(connected := false));
  }

  lemma {:induction false} StepDeafening(s: State, deafened: bool)
    ensures Told(Step(s, SetDeafened(deafened))) == Ordered(Told(s), SetDeafened(deafened))
  {
    hide Sync;
    SyncSame(s.(selfDeafened := deafened, selfMuted := s.selfMuted || deafened));
  }

  lemma {:induction false} StepModes(s: State, mode: VoiceMode)
    ensures Told(Step(s, SetVoiceMode(mode))) == Ordered(Told(s), SetVoiceMode(mode))
  {
    hide Sync;
    SyncSame(s.(mode := mode, vadGateBypass := mode.PushToTalk?));
  }

  lemma {:induction false} StepPresses(s: State)
    ensures Told(Step(s, StartTransmit)) == Ordered(Told(s), StartTransmit)
  {
    hide Sync;
    SyncSame(s.(ptt := true));
  }

  lemma {:induction false} StepReleases(s: State)
    ensures Told(Step(s, StopTransmit)) == Ordered(Told(s), StopTransmit)
  {
    hide Sync;
    SyncSame(s.(ptt := false));
  }

  lemma {:induction false} StepMutes(s: State, muted: bool)
    ensures Told(Step(s, SetMuted(muted))) == Ordered(Told(s), SetMuted(muted))
  {
    hide Sync;
    SyncSame(s.(selfMuted := muted));
  }

  lemma {:induction false} StepServerMutes(s: State, muted: bool)
    ensures Told(Step(s, SetServerMuted(muted))) == Ordered(Told(s), SetServerMuted(muted))
  {
    hide Sync;
    SyncSame(s.(serverMuted := muted));
  }

  lemma {:induction false} StepLosesHandle(s: State)
    ensures Told(Step(s, DatagramEnd)) == Ordered(Told(s), DatagramEnd)
  {
    hide Sync;
  }

  lemma {:induction false} StepDies(s: State)
    ensures Told(Step(s, DeviceDies)) == Ordered(Told(s), DeviceDies)
  {
    hide Sync;
  }

  lemma {:induction false} StepWaits(s: State, frames: nat)
    ensures Told(Step(s, TimePasses(frames))) == Ordered(Told(s), TimePasses(frames))
  {
    hide Sync;
  }

  lemma {:induction false} StepDevice(s: State, e: Event)
    requires e.SetInputDevice? || e.UpdateSettings? || e.UpdateTxPipeline? || e.HealthTick? || e.Captured?
    ensures SameOrders(s, Step(s, e))
  {
    if e.HealthTick? {
      hide SameOrders, HealthCheck;
      HealthSame(s, e.opens);
    } else if e.Captured? {
      hide SameOrders, Step;
      StepCaptured(s, e.samples, e.suppress);
      CapturedSame(s, e.samples, e.suppress);
    } else {
      hide SameOrders, Step;
      StepConfigures(s, e);
    }
  }

  lemma {:induction false} StepObeys(s: State, e: Event)
    ensures Obeys(Told(s), e, Told(Step(s, e)))
  {
    hide Step, Obeys, Told;
    OrderedObeys(Told(s), e);
    match e
    case ConnectionEstablished(encoderOk, opens) => EstablishedSame(s, encoderOk, opens);
    case ConnectionClosed => StepClosing(s);
    case StartTransmit => StepPresses(s);
    case StopTransmit => StepReleases(s);
    case SetMuted(muted) => StepMutes(s, muted);
    case SetServerMuted(muted) => StepServerMutes(s, muted);
    case SetDeafened(deafened) => StepDeafening(s, deafened);
    case SetVoiceMode(mode) => StepModes(s, mode);
    case DatagramEnd => StepLosesHandle(s);
    case DeviceDies => StepDies(s);
    case TimePasses(frames) => StepWaits(s, frames);
    case _ => StepDevice(s, e);
  }

  // ---- Over a run

  lemma {:induction false} WordNext(es: seq<Event>, e: Event, says: Event -> bool, unsays: Event -> bool)
    ensures LastWord(es + [e], says, unsays) <==> says(e) || (LastWord(es, says, unsays) && !unsays(e))
  {
    var more := es + [e];
    if says(e) {
      assert SaidAt(more, says, unsays, |es|);
    }
    if i: nat :| SaidAt(es, says, unsays, i) {
      assert !unsays(e) ==> SaidAt(more, says, unsays, i);
    }
    if i: nat :| SaidAt(more, says, unsays, i) {
      if i < |es| {
        assert more[|es|] == e;
        assert forall j :: i < j < |es| ==> more[j] == es[j];
        assert SaidAt(es, says, unsays, i);
      }
    }
  }

  /** Each matter stands as it was last ordered. */
  ghost predicate AsOrdered(s: Orders, es: seq<Event>) {
    && (s.connected <==> LastWord(es, Connects, Disconnects))
    && (s.encoder <==> LastWord(es, GivesEncoder, Closes))
    && (s.selfMuted <==> LastWord(es, MutesSelf, UnmutesSelf))
    && (s.serverMuted <==> LastWord(es, MutesByServer, UnmutesByServer))
    && (s.ptt <==> LastWord(es, PressesToTalk, ReleasesTalk))
    && (s.mode.Continuous? <==> LastWord(es, GoesContinuous, LeavesContinuous))
  }

  lemma {:induction false} NothingOrdered(config: Config)
    ensures AsOrdered(Told(Initial(config)), [])
  {
  }

  lemma {:induction false} OrderedNext(s: Orders, es: seq<Event>, e: Event, t: Orders)
    requires AsOrdered(s, es) && Obeys(s, e, t)
    ensures AsOrdered(t, es + [e])
  {
    hide LastWord, Connects, Disconnects, GivesEncoder, Closes, MutesSelf, UnmutesSelf, MutesByServer, UnmutesByServer,
      PressesToTalk, ReleasesTalk, GoesContinuous, LeavesContinuous;
    WordNext(es, e, Connects, Disconnects);
    WordNext(es, e, GivesEncoder, Closes);
    WordNext(es, e, MutesSelf, UnmutesSelf);
    WordNext(es, e, MutesByServer, UnmutesByServer);
    WordNext(es, e, PressesToTalk, ReleasesTalk);
    WordNext(es, e, GoesContinuous, LeavesContinuous);
  }

  lemma {:induction false} EveryRunAsOrdered(config: Config, es: seq<Event>)
    ensures AsOrdered(Told(Run(Initial(config), es)), es)
    decreases |es|
  {
    hide AsOrdered, Step, Obeys, Told;
    if es == [] {
      NothingOrdered(config);
    } else {
      var n := |es| - 1;
      EveryRunAsOrdered(config, es[..n]);
      StepObeys(Run(Initial(config), es[..n]), es[n]);
      OrderedNext(Told(Run(Initial(config), es[..n])), es[..n], es[n], Told(Run(Initial(config), es)));
      assert es[..n] + [es[n]] == es;
    }
  }

  /**
   Over every run, unless the datagram handle was lost under active capture: there is active capture exactly if there is a
   stream, the last word on the connection is that it stands, nobody's last word mutes the user, and the last word on the
   mode is continuous or push-to-talk was last pressed. Muting is undone by unmuting only, deafening mutes, and what the
   server muted and what was held down end with the connection.
   */
  lemma {:induction false} CaptureObeys(config: Config, es: seq<Event>)
    ensures var s := Run(Initial(config), es);
      !(s.dropped && s.active && !s.connected) ==>
        (s.active <==>
           && s.input.Some?
           && LastWord(es, Connects, Disconnects)
           && !LastWord(es, MutesSelf, UnmutesSelf)
           && !LastWord(es, MutesByServer, UnmutesByServer)
           && (LastWord(es, GoesContinuous, LeavesContinuous) || LastWord(es, PressesToTalk, ReleasesTalk)))
  {
    hide Run, Valid, LastWord, Initial;
    EveryRunAsOrdered(config, es);
    RunKeeps(config, es);
  }

  // ---- What a captured frame does

  /** The voice a frame brings out: what is stashed, if it leads right up to the frame, and the frame itself. */
  function VoiceOf(ring: seq<PreRoll.Slot>, timestampUs: nat, samples: PreRoll.Pcm): seq<Message> {
    (if ring != [] && ring[|ring| - 1].timestampUs + 20_000 == timestampUs
     then seq(|ring|, i requires 0 <= i < |ring| => G.EncodedFrame(ring[i].timestampUs, ring[i].samples)) else [])
    + [G.EncodedFrame(timestampUs, samples)]
  }

  /** A frame past the warm-up, captured at `clock`: the pipeline's verdict counts in continuous mode only. */
  ghost predicate Heeds(s: State, samples: PreRoll.Pcm, suppress: bool, t: State) {
    var ts := s.frameIndex * 20_000;
    && t.frameIndex == s.frameIndex + 1
    && if s.mode.Continuous? && suppress then
         !t.wasTransmitting && t.sent == s.sent + if s.wasTransmitting then [G.EndOfStream(ts)] else []
       else t.wasTransmitting && t.ring == [] && t.sent == s.sent + VoiceOf(s.ring, ts, samples)
  }

  lemma {:induction false} SuppressedGate(s: State, frame: nat, samples: PreRoll.Pcm)
    ensures var t := Gate(s, frame, samples, true);
      && !t.wasTransmitting && t.frameIndex == s.frameIndex
      && t.sent == s.sent + if s.wasTransmitting then [G.EndOfStream(frame * MediaClock.FRAME_US)] else []
  {
    assert G.Stopped(G.Capture(frame, samples, true, None)) == [];
    hide PreRoll.Pushed;
    assert [] + (if s.wasTransmitting then [G.EndOfStream(frame * MediaClock.FRAME_US)] else [])
        == if s.wasTransmitting then [G.EndOfStream(frame * MediaClock.FRAME_US)] else [];
  }

  lemma {:induction false} OpenGate(s: State, frame: nat, samples: PreRoll.Pcm)
    ensures var t := Gate(s, frame, samples, false);
      && t.wasTransmitting && t.frameIndex == s.frameIndex && t.ring == []
      && t.sent == s.sent + VoiceOf(s.ring, frame * 20_000, samples)
  {
    GateSends(s, frame, samples);
    assert G.Encoded(PreRoll.Flushed(s.ring, frame * 20_000)) + [G.EncodedFrame(frame * 20_000, samples)]
        == VoiceOf(s.ring, frame * 20_000, samples);
    hide G.Encoded, PreRoll.Flushed, VoiceOf;
  }

  lemma {:induction false} TickedIs(s: State)
    ensures var t := Ticked(s);
      && t.sent == s.sent && t.ring == s.ring && t.wasTransmitting == s.wasTransmitting && t.frameIndex == s.frameIndex + 1
  {
  }

  lemma {:induction false} GateHeeds(s: State, samples: PreRoll.Pcm, suppress: bool)
    requires s.vadGateBypass == s.mode.PushToTalk?
    ensures Heeds(s, samples, suppress, Gate(Ticked(s), s.frameIndex, samples, G.Suppresses(suppress, s.vadGateBypass)))
  {
    TickedIs(s);
    hide Ticked, Gate, VoiceOf;
    SuppressedGate(Ticked(s), s.frameIndex, samples);
    OpenGate(Ticked(s), s.frameIndex, samples);
  }

  /**
   What a captured frame does: nothing while capture is off; during warm-up it only counts; after that it is sent, with
   what leads up to it, unless the mode is continuous and the pipeline suppressed it: push-to-talk sends every frame.
   */
  lemma {:induction false} CapturedDoes(s: State, samples: PreRoll.Pcm, suppress: bool)
    requires Valid(s)
    ensures var t := Step(s, Captured(samples, suppress));
      if !s.active then t == s
      else if s.input.value.warmup > 0 then
        t == s.(input := Some(s.input.value.(warmup := s.input.value.warmup - 1)), frameIndex := s.frameIndex + 1)
      else Heeds(s, samples, suppress, t)
  {
    BypassFollowsMode(s);
    StepCaptured(s, samples, suppress);
    assert s.input.Some? ==> s.input.value.active == s.active;
    assert s.active ==> s.input.Some?;
    hide Valid, Step, Gate, Ticked, Heeds;
    if s.active && s.input.value.warmup == 0 {
      GateHeeds(s, samples, suppress);
    }
  }

  // ---- What becomes of the stream

  /** A stream just opened: alive, not warmed up, with nothing stashed. */
  ghost predicate NewStream(t: State) {
    t.input.Some? ==> t.input.value.healthy && t.input.value.warmup == 3 && t.ring == []
  }

  /** The stream is the one there was, but for the gate. */
  ghost predicate KeptStream(s: State, t: State) {
    && t.input.Some? == s.input.Some? && t.ring == s.ring && t.config == s.config && t.recovering == s.recovering
    && (s.input.Some? ==> t.input.value.healthy == s.input.value.healthy && t.input.value.warmup == s.input.value.warmup)
  }

  lemma {:induction false} DeactivateStream(s: State)
    ensures KeptStream(s, Deactivate(s))
  {
  }

  lemma {:induction false} ActivatedStream(s: State)
    requires s.input.Some?
    ensures KeptStream(s, Activated(s))
  {
    hide Max;
  }

  lemma {:induction false} KeptTrans(s: State, t: State, u: State)
    requires KeptStream(s, t) && KeptStream(t, u)
    ensures KeptStream(s, u)
  {
  }

  lemma {:induction false} UndroppedStream(s: State)
    ensures KeptStream(s, s.(dropped := false))
  {
  }

  lemma {:induction false} SyncStream(s: State)
    ensures KeptStream(s, Sync(s))
  {
    hide KeptStream, Wants, Deactivate, Activated;
    var t := s.(dropped := false);
    UndroppedStream(s);
    DeactivateStream(t);
    KeptTrans(s, t, Deactivate(t));
    if t.input.Some? {
      ActivatedStream(t);
      KeptTrans(s, t, Activated(t));
    }
  }

  lemma {:induction false} TornDown(s: State)
    ensures var t := Teardown(s);
      && t.input.None? && t.config == s.config && t.recovering == s.recovering
      && t.encoder == s.encoder && t.connected == s.connected
  {
    DeactivateStream(s);
    DeactivateSame(s);
    hide Deactivate;
  }

  lemma {:induction false} JustOpens(s: State, opens: bool)
    requires s.input.None?
    ensures var t := Start(s, opens);
      (t.input.Some? <==> s.encoder && opens) && NewStream(t) && t.config == s.config && t.recovering == s.recovering
  {
  }

  lemma {:induction false} InactiveStream(t: State)
    ensures var u := t.(active := false);
      u.input == t.input && NewStream(u) == NewStream(t) && u.config == t.config && u.recovering == t.recovering
  {
  }

  lemma {:induction false} StartOpens(s: State, opens: bool)
    requires s.input.None?
    ensures var t := StartOrFail(s, opens);
      (t.input.Some? <==> s.encoder && opens) && NewStream(t) && t.config == s.config && t.recovering == s.recovering
  {
    hide Start, NewStream;
    JustOpens(s, opens);
    InactiveStream(Start(s, opens));
  }

  lemma {:induction false} NewStreamKept(t: State, u: State)
    requires NewStream(t) && KeptStream(t, u)
    ensures NewStream(u)
  {
  }

  /** A rebuild leaves a fresh stream exactly if there are a connection, an encoder and a device that opens. */
  lemma {:induction false} RebuildOpens(s: State, opens: bool)
    ensures var t := Reopen(s, opens);
      && (t.input.Some? <==> s.connected && s.encoder && opens) && NewStream(t)
      && t.config == s.config && t.recovering == s.recovering
  {
    hide Teardown, StartOrFail, Sync;
    TornDown(s);
    var t := Teardown(s);
    StartOpens(t, opens);
    var u := if s.connected then StartOrFail(t, opens) else t;
    SyncStream(u);
    NewStreamKept(u, Sync(u));
    hide NewStream;
  }

  /** A new connection opens a stream if there is none and it can, and keeps the one there is. */
  lemma {:induction false} ConnectionOpens(s: State, encoderOk: bool, opens: bool)
    ensures var t := Step(s, ConnectionEstablished(encoderOk, opens));
      && t.config == s.config && t.recovering == s.recovering
      && if s.input.Some? then KeptStream(s, t)
         else (t.input.Some? <==> (s.encoder || encoderOk) && opens) && NewStream(t)
  {
    hide StartOrFail, Sync;
    var c := Connecting(s, encoderOk);
    assert KeptStream(s, c) && c.encoder == (s.encoder || encoderOk);
    var u := if s.input.None? then StartOrFail(c, opens) else c;
    SyncStream(u);
    hide Connecting;
    if s.input.None? {
      StartOpens(c, opens);
      NewStreamKept(u, Sync(u));
    } else {
      KeptTrans(s, c, Sync(c));
    }
  }

  lemma {:induction false} SyncConfigured(s: State, t: State)
    requires t.config == s.config
    ensures Sync(t).config == s.config
  {
    SyncStream(t);
    hide Sync;
  }

  lemma {:induction false} OrderConfigured(s: State, e: Event)
    requires e.StartTransmit? || e.StopTransmit? || e.SetVoiceMode? || e.SetMuted? || e.SetDeafened? || e.SetServerMuted?
    ensures Step(s, e).config == s.config
  {
    hide Sync;
    match e
    case StartTransmit => SyncConfigured(s, s.(ptt := true));
    case StopTransmit => SyncConfigured(s, s.(ptt := false));
    case SetVoiceMode(mode) => SyncConfigured(s, s.(mode := mode, vadGateBypass := mode.PushToTalk?));
    case SetMuted(muted) => SyncConfigured(s, s.(selfMuted := muted));
    case SetDeafened(deafened) =>
      SyncConfigured(s, s.(selfDeafened := deafened, selfMuted := s.selfMuted || deafened));
    case SetServerMuted(muted) => SyncConfigured(s, s.(serverMuted := muted));
  }

  lemma {:induction false} RebuildConfigured(s: State, e: Event)
    requires e.SetInputDevice? || e.UpdateSettings? || e.UpdateTxPipeline?
    ensures Step(s, e).config == (match e
                                  case SetInputDevice(device, _) => s.config.(device := device)
                                  case UpdateSettings(settings, _) => s.config.(settings := settings)
                                  case _ => s.config.(txPipeline := e.txPipeline))
  {
    hide Sync, Reopen, NewStream;
    match e
    case SetInputDevice(device, opens) =>
      SyncConfigured(s, s);
      RebuildOpens(s.(config := s.config.(device := device), recovering := false), opens);
    case UpdateSettings(settings, opens) => RebuildOpens(s.(config := s.config.(settings := settings)), opens);
    case UpdateTxPipeline(tx, opens) => RebuildOpens(s.(config := s.config.(txPipeline := tx)), opens);
  }

  lemma {:induction false} ClosingConfigured(s: State)
    ensures Step(s, ConnectionClosed).config == s.config
  {
    hide Sync;
    SyncConfigured(s, s.(connected := false));
  }

  lemma {:induction false} OutsideConfigured(s: State, e: Event)
    requires e.DatagramEnd? || e.DeviceDies? || e.TimePasses?
    ensures Step(s, e).config == s.config
  {
    hide Sync, Reopen, HealthCheck, OnCaptured, StartOrFail;
    match e
    case DatagramEnd =>
    case DeviceDies =>
    case TimePasses(_) =>
  }

  /** The device, the settings and the pipeline in use are those last ordered. */
  lemma {:induction false} StepConfigured(s: State, e: Event)
    ensures Step(s, e).config == (match e
                                  case SetInputDevice(device, _) => s.config.(device := device)
                                  case UpdateSettings(settings, _) => s.config.(settings := settings)
                                  case UpdateTxPipeline(txPipeline, _) => s.config.(txPipeline := txPipeline)
                                  case _ => s.config)
  {
    if e.HealthTick? {
      hide HealthCheck;
      HealthConfigured(s, e.opens);
    } else {
      hide Step, NewStream, KeptStream;
      match e
      case SetInputDevice(_, _) => RebuildConfigured(s, e);
      case UpdateSettings(_, _) => RebuildConfigured(s, e);
      case UpdateTxPipeline(_, _) => RebuildConfigured(s, e);
      case ConnectionEstablished(encoderOk, opens) => ConnectionOpens(s, encoderOk, opens);
      case Captured(samples, suppress) =>
        StepCaptured(s, samples, suppress);
        CapturedConfigured(s, samples, suppress);
      case ConnectionClosed => ClosingConfigured(s);
      case DatagramEnd => OutsideConfigured(s, e);
      case DeviceDies => OutsideConfigured(s, e);
      case TimePasses(_) => OutsideConfigured(s, e);
      case _ => OrderConfigured(s, e);
    }
  }

  lemma {:induction false} StartConfigured(s: State, opens: bool)
    ensures Start(s, opens).config == s.config
  {
  }

  lemma {:induction false} HealthConfigured(s: State, opens: bool)
    ensures HealthCheck(s, opens).config == s.config
  {
    hide Teardown, Start, Sync;
    TornDown(s);
    var r := Teardown(s).(recovering := true);
    StartConfigured(r, opens);
    SyncStream(Start(r, opens).(recovering := false));
  }

  lemma {:induction false} GateConfigured(s: State, frame: nat, samples: PreRoll.Pcm, suppress: bool)
    ensures Gate(s, frame, samples, suppress).config == s.config
  {
    hide G.OnFrame;
  }

  lemma {:induction false} CountConfigured(s: State)
    ensures Ticked(s).config == s.config
    ensures s.input.Some? && s.input.value.warmup > 0 ==> Warmed(s).config == s.config
  {
  }

  lemma {:induction false} CapturedConfigured(s: State, samples: PreRoll.Pcm, suppress: bool)
    ensures OnCaptured(s, samples, suppress).config == s.config
  {
    hide Gate, Ticked, Warmed;
    CountConfigured(s);
    GateConfigured(Ticked(s), s.frameIndex, samples, G.Suppresses(suppress, s.vadGateBypass));
  }

  /** The event changes what the stream is built from, or asks for a device while there is no stream. */
  predicate Rebuilds(s: State, e: Event) {
    match e
    case SetInputDevice(device, _) => device != s.config.device || s.input.None?
    case UpdateSettings(settings, _) => settings != s.config.settings
    case UpdateTxPipeline(txPipeline, _) => txPipeline != s.config.txPipeline
    case _ => false
  }

  lemma {:induction false} DeviceRebuilds(s: State, device: nat, opens: bool)
    requires device != s.config.device || s.input.None?
    ensures var t := Step(s, SetInputDevice(device, opens));
      && (t.input.Some? <==> s.connected && s.encoder && opens) && NewStream(t) && !t.recovering
  {
    hide Sync, Reopen, NewStream;
    RebuildOpens(s.(config := s.config.(device := device), recovering := false), opens);
  }

  lemma {:induction false} SettingsRebuild(s: State, settings: nat, opens: bool)
    requires settings != s.config.settings
    ensures var t := Step(s, UpdateSettings(settings, opens));
      && (t.input.Some? <==> s.connected && s.encoder && opens) && NewStream(t) && t.recovering == s.recovering
  {
    hide Sync, Reopen, NewStream;
    RebuildOpens(s.(config := s.config.(settings := settings)), opens);
  }

  lemma {:induction false} PipelineRebuilds(s: State, txPipeline: nat, opens: bool)
    requires txPipeline != s.config.txPipeline
    ensures var t := Step(s, UpdateTxPipeline(txPipeline, opens));
      && (t.input.Some? <==> s.connected && s.encoder && opens) && NewStream(t) && t.recovering == s.recovering
  {
    hide Sync, Reopen, NewStream;
    RebuildOpens(s.(config := s.config.(txPipeline := txPipeline)), opens);
  }

  /** Then the stream is rebuilt; choosing a device also ends a recovery under way. */
  lemma {:induction false} ChangeRebuilds(s: State, e: Event)
    requires Rebuilds(s, e)
    ensures var t := Step(s, e);
      && (t.input.Some? <==> s.connected && s.encoder && e.opens) && NewStream(t)
      && t.recovering == (s.recovering && !e.SetInputDevice?)
  {
    hide Step, NewStream;
    match e
    case SetInputDevice(device, opens) => DeviceRebuilds(s, device, opens);
    case UpdateSettings(settings, opens) => SettingsRebuild(s, settings, opens);
    case UpdateTxPipeline(txPipeline, opens) => PipelineRebuilds(s, txPipeline, opens);
  }

  /** An update that changes nothing does nothing, and asking for the device in use keeps the stream. */
  lemma {:induction false} NoChangeKeeps(s: State, e: Event)
    requires e.SetInputDevice? || e.UpdateSettings? || e.UpdateTxPipeline?
             || (e.SetServerMuted? && e.serverMuted == s.serverMuted)
    requires !Rebuilds(s, e)
    ensures if e.SetInputDevice? then KeptStream(s, Step(s, e)) else Step(s, e) == s
  {
    hide Sync, Reopen, KeptStream;
    SyncStream(s);
  }

  lemma {:induction false} RecoveredStream(u: State)
    ensures var v := u.(recovering := false);
      v.input == u.input && NewStream(v) == NewStream(u) && !v.recovering
  {
  }

  lemma {:induction false} RetryOpens(s: State, opens: bool)
    requires s.input.None? && s.recovering
    ensures var t := Retry(s, opens);
      && NewStream(t) && (t.input.Some? <==> s.connected && s.encoder && opens)
      && (t.recovering <==> s.connected && !(s.encoder && opens))
  {
    hide Start, Sync, NewStream;
    JustOpens(s, opens);
    var u := Start(s, opens);
    var v := u.(recovering := false);
    RecoveredStream(s);
    RecoveredStream(u);
    StreamlessIsNew(s.(recovering := false));
    SyncStream(v);
    NewStreamKept(v, Sync(v));
  }

  lemma {:induction false} StreamlessIsNew(t: State)
    requires t.input.None?
    ensures NewStream(t)
  {
  }

  /**
   The periodic check: a stream that is alive, or none that anyone waits for, is left alone; otherwise one attempt is made,
   which leaves a fresh stream exactly if there is a connection, its encoder and a device that opens, and goes on recovering
   exactly if only the latter two are missing.
   */
  lemma {:induction false} HealthDoes(s: State, opens: bool)
    ensures var t := Step(s, HealthTick(opens));
      if (s.input.Some? && !s.input.value.healthy) || (s.input.None? && s.recovering) then
        && NewStream(t) && (t.input.Some? <==> s.connected && s.encoder && opens)
        && (t.recovering <==> s.connected && !(s.encoder && opens))
      else t == s
  {
    hide Teardown, Retry, NewStream;
    TornDown(s);
    RetryOpens(Teardown(s).(recovering := true), opens);
  }

  lemma {:induction false} DeactivateMarks(s: State)
    ensures Deactivate(s).frameIndex == s.frameIndex
    ensures Deactivate(s).sent == if s.active then s.sent + [G.EndOfStream(s.frameIndex * 20_000)] else s.sent
  {
    hide Gated;
  }

  lemma {:induction false} ActivatedMoves(s: State)
    requires s.input.Some?
    ensures Activated(s).sent == s.sent
    ensures Activated(s).frameIndex == if s.frameIndex < s.elapsed then s.elapsed else s.frameIndex
  {
    hide Gated;
  }

  lemma {:induction false} SyncBy(s: State)
    ensures var t := s.(dropped := false);
      Sync(s) == if Wants(s) && !s.active then (if s.input.Some? then Activated(t) else t)
                 else if !Wants(s) && s.active then Deactivate(t) else t
  {
    hide Wants, Activated, Deactivate;
  }

  /** A stop enqueues one mark, stamped with the clock; a start moves the clock past the time not captured. */
  lemma {:induction false} SyncDoes(s: State)
    ensures var t := Sync(s); var wanted := s.connected && !s.selfMuted && !s.serverMuted && (s.mode.Continuous? || s.ptt);
      && t.sent == (if s.active && !wanted then s.sent + [G.EndOfStream(s.frameIndex * 20_000)] else s.sent)
      && t.frameIndex == (if !s.active && wanted && s.input.Some? && s.frameIndex < s.elapsed then s.elapsed
                          else s.frameIndex)
  {
    hide Sync, Activated, Deactivate;
    SyncBy(s);
    DeactivateMarks(s.(dropped := false));
    if s.input.Some? {
      ActivatedMoves(s.(dropped := false));
    }
  }
}
