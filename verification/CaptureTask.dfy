/**
 The capture side of the audio task: commands, device failures and recovery around one capture stream, whose callback runs
 the transmit gate. Devices, settings and pipeline configurations are opaque numbers.
 */
module CaptureTask {
  import opened Options
  import opened MediaClock
  import opened PreRoll
  import G = CaptureGate

  datatype VoiceMode = PushToTalk | Continuous

  datatype Stream = Stream(active: bool, healthy: bool, warmup: nat)

  const WARMUP_FRAMES := 3

  type Message = G.Message

  datatype Config = Config(device: nat, settings: nat, txPipeline: nat)

  datatype State = State(
    connected: bool,
    encoder: bool,
    mode: VoiceMode,
    vadGateBypass: bool,
    selfMuted: bool,
    selfDeafened: bool,
    serverMuted: bool,
    ptt: bool,
    input: Option<Stream>,
    active: bool,
    recovering: bool,
    config: Config,
    ring: seq<Slot>,         // the capture stream's pre-roll
    wasTransmitting: bool,
    frameIndex: nat,         // the media clock, in frames
    elapsed: nat,            // whole frames since the connection's epoch
    sent: seq<Message>,      // enqueued for the sender
    dropped: bool)           // the datagram handle was lost and capture has not been synced since

  // `opens` tells whether the device would open if it is tried now.
  datatype Event =
    | ConnectionEstablished(encoderOk: bool, opens: bool)
    | ConnectionClosed
    | SetInputDevice(device: nat, opens: bool)
    | StartTransmit
    | StopTransmit
    | SetVoiceMode(mode: VoiceMode)
    | SetMuted(muted: bool)
    | SetDeafened(deafened: bool)
    | SetServerMuted(serverMuted: bool)
    | UpdateSettings(settings: nat, opens: bool)
    | UpdateTxPipeline(txPipeline: nat, opens: bool)
    | DatagramEnd
    | HealthTick(opens: bool)
    | DeviceDies
    | Captured(samples: Pcm, suppress: bool)
    | TimePasses(frames: nat)

  function Initial(config: Config): State {
    State(false, false, PushToTalk, true, false, false, false, false, None, false, false, config, [], false, 0, 0, [], false)
  }

  // ---- Building blocks

  predicate ShouldCapture(mode: VoiceMode, selfMuted: bool, serverMuted: bool, ptt: bool, connected: bool) {
    connected && !selfMuted && !serverMuted && (mode.Continuous? || ptt)
  }

  predicate Wants(s: State) {
    ShouldCapture(s.mode, s.selfMuted, s.serverMuted, s.ptt, s.connected)
  }

  function Gated(input: Option<Stream>, active: bool): Option<Stream> {
    match input
    case None => None
    case Some(stream) => Some(stream.(active := active))
  }

  function Deactivate(s: State): State {
    if s.active then
      s.(sent := s.sent + [G.EndOfStream(s.frameIndex * FRAME_US)], active := false, input := Gated(s.input, false),
         wasTransmitting := false)
    else s
  }

  function Max(a: nat, b: nat): nat {
    if a < b then b else a
  }

  /** The media clock is moved past the time that was not captured. */
  function Activated(s: State): State
    requires s.input.Some?
  {
    s.(active := true, frameIndex := Max(s.frameIndex, s.elapsed), input := Gated(s.input, true))
  }

  function Sync(s: State): State {
    var want := Wants(s);
    var t := s.(dropped := false);
    if want && !s.active then
      (if s.input.Some? then Activated(t) else t)
    else if !want && s.active then Deactivate(t)
    else t
  }

  /** Opens a stream, gated off; it needs the connection's encoder. */
  function Start(s: State, opens: bool): State {
    if s.input.None? && s.encoder && opens then s.(input := Some(Stream(false, true, WARMUP_FRAMES)), ring := [])
    else s
  }

  /** Opening, with the failure arm that writes the flag directly. */
  function StartOrFail(s: State, opens: bool): State {
    var t := Start(s, opens);
    if t.input.None? then t.(active := false) else t
  }

  function Teardown(s: State): State {
    if s.input.Some? then Deactivate(s).(input := None) else s
  }

  /** Rebuilds the stream after a change of device, settings or pipeline. */
  function Reopen(s: State, opens: bool): State {
    var t := Teardown(s);
    Sync(if s.connected then StartOrFail(t, opens) else t)
  }

  /** One attempt to get the stream back; a failed one leaves the recovery going. */
  function Retry(s: State, opens: bool): State {
    if !s.connected then s.(recovering := false)
    else
      var u := Start(s, opens);
      if u.input.Some? then Sync(u.(recovering := false)) else u
  }

  function HealthCheck(s: State, opens: bool): State {
    var dead := s.input.Some? && !s.input.value.healthy;
    if dead || (s.input.None? && s.recovering) then Retry(Teardown(s).(recovering := true), opens) else s
  }

  /** The transmit gate on media frame `frame`. */
  function Gate(s: State, frame: nat, samples: Pcm, suppress: bool): State {
    var (gate, out) := G.OnFrame(G.GateState(s.ring, s.wasTransmitting), G.Capture(frame, samples, suppress, None));
    s.(ring := gate.run, wasTransmitting := gate.wasTransmitting, sent := s.sent + out)
  }

  /** A warm-up frame is discarded; the media clock still counts it. */
  function Warmed(s: State): State
    requires s.input.Some? && s.input.value.warmup > 0
  {
    s.(input := Some(s.input.value.(warmup := s.input.value.warmup - 1)), frameIndex := s.frameIndex + 1)
  }

  function Ticked(s: State): State {
    s.(frameIndex := s.frameIndex + 1)
  }

  function OnCaptured(s: State, samples: Pcm, suppress: bool): State {
    if s.input.None? || !s.input.value.active then s
    else if s.input.value.warmup > 0 then Warmed(s)
    else Gate(Ticked(s), s.frameIndex, samples, G.Suppresses(suppress, s.vadGateBypass))
  }

  /** A new connection restarts the media clock. */
  function Connecting(s: State, encoderOk: bool): State {
    s.(connected := true, elapsed := 0, frameIndex := 0, encoder := s.encoder || encoderOk)
  }

  /** What is connection-scoped goes with the connection; the next one starts clean. */
  function ClosedOut(s: State): State {
    s.(input := None, recovering := false, encoder := false, ptt := false, serverMuted := false)
  }

  function Step(s: State, e: Event): State {
    match e
    case ConnectionEstablished(encoderOk, opens) =>
      (var t := Connecting(s, encoderOk);
       Sync(if s.input.None? then StartOrFail(t, opens) else t))
    case ConnectionClosed =>
      ClosedOut(Sync(s.(connected := false)))
    case SetInputDevice(device, opens) =>
      if device == s.config.device && s.input.Some? then Sync(s)
      else Reopen(s.(config := s.config.(device := device), recovering := false), opens)
    case StartTransmit => Sync(s.(ptt := true))
    case StopTransmit => Sync(s.(ptt := false))
    case SetVoiceMode(mode) => Sync(s.(mode := mode, vadGateBypass := mode.PushToTalk?))
    case SetMuted(muted) => Sync(s.(selfMuted := muted))
    case SetDeafened(deafened) => Sync(s.(selfDeafened := deafened, selfMuted := s.selfMuted || deafened))
    case SetServerMuted(muted) => if muted == s.serverMuted then s else Sync(s.(serverMuted := muted))
    case UpdateSettings(settings, opens) =>
      if settings == s.config.settings then s
      else Reopen(s.(config := s.config.(settings := settings)), opens)
    case UpdateTxPipeline(txPipeline, opens) =>
      if txPipeline == s.config.txPipeline then s
      else Reopen(s.(config := s.config.(txPipeline := txPipeline)), opens)
    case DatagramEnd => s.(connected := false, dropped := s.dropped || s.connected)
    case HealthTick(opens) => HealthCheck(s, opens)
    case DeviceDies => if s.input.Some? then s.(input := Some(s.input.value.(healthy := false))) else s
    case Captured(samples, suppress) => OnCaptured(s, samples, suppress)
    case TimePasses(frames) => s.(elapsed := s.elapsed + frames)
  }

  function Run(s: State, es: seq<Event>): State
    decreases |es|
  {
    if es == [] then s else Step(Run(s, es[..|es| - 1]), es[|es| - 1])
  }

  // ---- The invariant

  /** Nothing was enqueued, or the last thing enqueued told the receivers to stop. */
  predicate Ended(sent: seq<Message>) {
    sent == [] || sent[|sent| - 1].EndOfStream?
  }

  predicate Valid(s: State) {
    && (s.active ==> s.input.Some?)
    && (s.input.Some? ==> s.input.value.active == s.active && s.encoder)
    && (s.wasTransmitting ==> s.active)
    && (!s.wasTransmitting ==> Ended(s.sent))
    && (s.vadGateBypass <==> s.mode.PushToTalk?)
    && |s.ring| <= PRE_ROLL_FRAMES
  }

  /**
   Capture runs exactly when there are a stream and a connection, neither the user nor the server mutes it, and
   the mode is continuous or push-to-talk is held.
   */
  predicate Settled(s: State) {
    s.active <==> s.input.Some? && s.connected && !s.selfMuted && !s.serverMuted && (s.mode.Continuous? || s.ptt)
  }

  /** Exactly when it does not: the handle went away under active capture, and nothing has synced it since. */
  predicate SettledUnlessDropped(s: State) {
    && (s.dropped ==> !s.connected)
    && (Settled(s) <==> !(s.dropped && s.active))
  }

  /** Between two states: everything enqueued stays, and a capture that stopped enqueued a mark. */
  predicate StopsAreMarked(s: State, t: State) {
    s.sent <= t.sent && (s.active && !t.active ==> |t.sent| > |s.sent| && t.sent[|t.sent| - 1].EndOfStream?)
  }

  lemma {:induction false} DeactivateKeeps(s: State)
    requires Valid(s)
    ensures Valid(Deactivate(s)) && StopsAreMarked(s, Deactivate(s)) && !Deactivate(s).active
    ensures Wants(Deactivate(s)) == Wants(s) && Deactivate(s).input.Some? == s.input.Some?
    ensures Deactivate(s).connected == s.connected && Deactivate(s).dropped == s.dropped
    ensures s.active ==> |Deactivate(s).sent| > |s.sent|
  {
  }

  lemma {:induction false} ActivateKeeps(s: State)
    requires Valid(s) && s.input.Some?
    ensures Valid(Activated(s)) && StopsAreMarked(s, Activated(s)) && Activated(s).active
    ensures Wants(Activated(s)) == Wants(s) && Activated(s).input.Some?
    ensures Activated(s).connected == s.connected && Activated(s).dropped == s.dropped
  {
  }

  /** After a sync capture runs exactly when it should, and a stop has been marked. */
  lemma {:induction false} SyncKeeps(s: State)
    requires Valid(s)
    ensures Valid(Sync(s)) && Settled(Sync(s)) && !Sync(s).dropped && StopsAreMarked(s, Sync(s))
    ensures Sync(s).input.Some? == s.input.Some? && Sync(s).connected == s.connected
  {
    var t := s.(dropped := false);
    assert Valid(t) && Wants(t) == Wants(s);
    if Wants(s) && !s.active {
      if s.input.Some? {
        ActivateKeeps(t);
        hide Valid, Wants, StopsAreMarked;
      }
    } else if !Wants(s) && s.active {
      DeactivateKeeps(t);
      hide Valid, Wants, Deactivate;
    }
  }

  lemma {:induction false} TeardownKeeps(s: State)
    requires Valid(s)
    ensures var t := Teardown(s);
            && Valid(t) && StopsAreMarked(s, t) && t.input.None? && !t.active
            && t == s.(sent := t.sent, active := false, input := None, wasTransmitting := false)
  {
  }

  /** The direct write of the flag in a failure arm changes nothing: capture was already inactive. */
  lemma {:induction false} FailureArmLosesNothing(s: State, opens: bool)
    requires Valid(s) && s.input.None?
    ensures Valid(StartOrFail(s, opens)) && StartOrFail(s, opens) == Start(s, opens)
    ensures !s.active && StartOrFail(s, opens).sent == s.sent && !StartOrFail(s, opens).active
  {
  }

  lemma {:induction false} MarkedAcross(s: State, t: State, u: State)
    requires StopsAreMarked(s, t) && StopsAreMarked(t, u) && Valid(u)
    ensures StopsAreMarked(s, u)
  {
  }

  lemma {:induction false} StartKeeps(s: State, opens: bool)
    requires Valid(s) && s.input.None?
    ensures var t := Start(s, opens);
            Valid(t) && t == s.(input := t.input, ring := t.ring) && StopsAreMarked(s, t) && Wants(t) == Wants(s)
    ensures !s.active && StartOrFail(s, opens) == Start(s, opens)
  {
    FailureArmLosesNothing(s, opens);
  }

  /** A rebuild marks the end of a running capture even when capture resumes right away. */
  lemma {:induction false} ReopenKeeps(s: State, opens: bool)
    requires Valid(s)
    ensures Valid(Reopen(s, opens)) && Settled(Reopen(s, opens)) && !Reopen(s, opens).dropped
    ensures StopsAreMarked(s, Reopen(s, opens))
    ensures s.active ==> |Reopen(s, opens).sent| > |s.sent|
  {
    var t := Teardown(s);
    TeardownKeeps(s);
    StartKeeps(t, opens);
    var u := if s.connected then StartOrFail(t, opens) else t;
    hide Teardown, StartOrFail, Start, Settled, Valid;
    SyncKeeps(u);
    hide Sync;
    MarkedAcross(t, u, Sync(u));
    MarkedAcross(s, t, Sync(u));
  }

  lemma {:induction false} HealthKeeps(s: State, opens: bool)
    requires Valid(s) && SettledUnlessDropped(s)
    ensures Valid(HealthCheck(s, opens)) && SettledUnlessDropped(HealthCheck(s, opens))
    ensures StopsAreMarked(s, HealthCheck(s, opens))
  {
    var dead := s.input.Some? && !s.input.value.healthy;
    if dead || (s.input.None? && s.recovering) {
      TeardownKeeps(s);
      HealthRetry(s, Teardown(s), opens);
    }
  }

  lemma {:induction false} Recovering(s: State, r: bool)
    requires Valid(s)
    ensures var t := s.(recovering := r); Valid(t) && StopsAreMarked(s, t)
  {
  }

  lemma {:induction false} HealthRetry(s: State, t: State, opens: bool)
    requires Valid(t) && StopsAreMarked(s, t) && t.input.None? && !t.active && (t.dropped ==> !t.connected)
    ensures var r := t.(recovering := true);
            && Valid(r.(recovering := false)) && SettledUnlessDropped(r.(recovering := false))
            && StopsAreMarked(s, r.(recovering := false))
    ensures var u := Start(t.(recovering := true), opens);
            && Valid(u) && StopsAreMarked(s, u) && (u.input.None? ==> SettledUnlessDropped(u))
            && Valid(Sync(u.(recovering := false))) && SettledUnlessDropped(Sync(u.(recovering := false)))
            && StopsAreMarked(s, Sync(u.(recovering := false)))
  {
    var r := t.(recovering := true);
    Recovering(t, true);
    Recovering(r, false);
    StartKeeps(r, opens);
    var u := Start(r, opens);
    Recovering(u, false);
    var v := u.(recovering := false);
    SyncKeeps(v);
    MarkedAcross(s, t, r);
    MarkedAcross(s, r, r.(recovering := false));
    MarkedAcross(s, r, u);
    MarkedAcross(s, u, v);
    MarkedAcross(s, v, Sync(v));
    hide Sync, Start, Valid, StopsAreMarked;
  }

  // ---- Every command

  ghost predicate Keeps(s: State, t: State) {
    Valid(t) && SettledUnlessDropped(t) && StopsAreMarked(s, t)
  }

  lemma {:induction false} SettledIs(t: State)
    requires Settled(t) && !t.dropped
    ensures SettledUnlessDropped(t)
  {
  }

  /** A change of what is wanted, followed by a sync. */
  lemma {:induction false} PolicyKeeps(s: State, t: State)
    requires Valid(s) && Valid(t) && t.active == s.active && t.sent == s.sent
    ensures Keeps(s, Sync(t))
  {
    SyncKeeps(t);
    SettledIs(Sync(t));
    hide Sync, Valid, Settled, SettledUnlessDropped;
    assert StopsAreMarked(s, t);
    MarkedAcross(s, t, Sync(t));
  }

  lemma {:induction false} ReopenedKeeps(s: State, t: State, opens: bool)
    requires Valid(s) && Valid(t) && t.active == s.active && t.sent == s.sent
    ensures Keeps(s, Reopen(t, opens))
  {
    ReopenKeeps(t, opens);
    SettledIs(Reopen(t, opens));
    hide Reopen, Valid, Settled, SettledUnlessDropped;
    assert StopsAreMarked(s, t);
    MarkedAcross(s, t, Reopen(t, opens));
  }

  lemma {:induction false} ConnectingValid(s: State, encoderOk: bool)
    requires Valid(s)
    ensures Valid(Connecting(s, encoderOk))
  {
  }

  lemma {:induction false} ConfigValid(s: State, config: Config, recovering: bool)
    requires Valid(s)
    ensures Valid(s.(config := config)) && Valid(s.(config := config, recovering := recovering))
  {
  }

  lemma {:induction false} EstablishedKeeps(s: State, encoderOk: bool, opens: bool)
    requires Valid(s)
    ensures Keeps(s, Step(s, ConnectionEstablished(encoderOk, opens)))
  {
    var t := Connecting(s, encoderOk);
    ConnectingValid(s, encoderOk);
    hide Sync, Start, StartOrFail, Valid, Keeps;
    if s.input.None? {
      StartKeeps(t, opens);
      PolicyKeeps(s, Start(t, opens));
    } else {
      PolicyKeeps(s, t);
    }
  }

  lemma {:induction false} SameValid(s: State, t: State)
    requires Valid(s) && t.active == s.active && t.input == s.input && t.encoder == s.encoder && t.sent == s.sent
    requires t.wasTransmitting == s.wasTransmitting && t.ring == s.ring && t.vadGateBypass == t.mode.PushToTalk?
    ensures Valid(t)
  {
  }

  lemma {:induction false} BypassFollowsMode(s: State)
    requires Valid(s)
    ensures s.vadGateBypass == s.mode.PushToTalk?
  {
  }

  lemma {:induction false} SettledWithout(t: State)
    requires Settled(t) && !t.connected
    ensures !t.active
  {
  }

  lemma {:induction false} ClosedFinish(s: State, t: State)
    requires Valid(t) && !t.active && !t.connected
    requires StopsAreMarked(s.(connected := false), t)
    ensures Keeps(s, ClosedOut(t))
  {
    hide Ended;
  }

  lemma {:induction false} ClosedKeeps(s: State)
    requires Valid(s)
    ensures Keeps(s, Step(s, ConnectionClosed))
  {
    var t := s.(connected := false);
    BypassFollowsMode(s);
    hide Sync, Valid, StopsAreMarked;
    SameValid(s, t);
    SyncKeeps(t);
    SettledWithout(Sync(t));
    ClosedFinish(s, Sync(t));
  }

  lemma {:induction false} WarmedKeeps(s: State)
    requires Valid(s) && SettledUnlessDropped(s) && s.input.Some? && s.input.value.warmup > 0
    ensures Keeps(s, Warmed(s)) && Warmed(s).sent == s.sent
  {
  }

  lemma {:induction false} TickedKeeps(s: State)
    requires Valid(s) && SettledUnlessDropped(s)
    ensures Keeps(s, Ticked(s)) && Ticked(s).sent == s.sent && Ticked(s).active == s.active
    ensures Valid(Ticked(s)) && SettledUnlessDropped(Ticked(s))
  {
  }

  lemma {:induction false} GateKeeps(s: State, t: State, frame: nat, samples: Pcm, suppress: bool)
    requires Valid(t) && SettledUnlessDropped(t) && t.active && s.sent == t.sent
    ensures Keeps(s, Gate(t, frame, samples, suppress))
  {
  }

  lemma {:induction false} CapturedKeeps(s: State, samples: Pcm, suppress: bool)
    requires Valid(s) && SettledUnlessDropped(s)
    ensures Keeps(s, OnCaptured(s, samples, suppress))
  {
    if s.input.Some? && s.input.value.active {
      assert s.active;
      hide Gate, Ticked, Warmed, Keeps;
      if s.input.value.warmup > 0 {
        WarmedKeeps(s);
      } else {
        TickedKeeps(s);
        hide Valid, SettledUnlessDropped;
        GateKeeps(s, Ticked(s), s.frameIndex, samples, G.Suppresses(suppress, s.vadGateBypass));
      }
    } else {
      assert Keeps(s, s);
    }
  }

  lemma {:induction false} StepKeeps(s: State, e: Event)
    requires Valid(s) && SettledUnlessDropped(s)
    ensures Keeps(s, Step(s, e))
  {
    if e.StartTransmit? || e.StopTransmit? || e.SetVoiceMode? || e.SetMuted? || e.SetDeafened? || e.SetServerMuted? {
      PolicyStepKeeps(s, e);
    } else {
      DeviceStepKeeps(s, e);
    }
  }

  lemma {:induction false} PolicyStepKeeps(s: State, e: Event)
    requires Valid(s) && SettledUnlessDropped(s)
    requires e.StartTransmit? || e.StopTransmit? || e.SetVoiceMode? || e.SetMuted? || e.SetDeafened? || e.SetServerMuted?
    ensures Keeps(s, Step(s, e))
  {
    BypassFollowsMode(s);
    var t := match e
             case SetVoiceMode(mode) => s.(mode := mode, vadGateBypass := mode.PushToTalk?)
             case SetMuted(muted) => s.(selfMuted := muted)
             case SetDeafened(deafened) => s.(selfDeafened := deafened, selfMuted := s.selfMuted || deafened)
             case SetServerMuted(muted) => s.(serverMuted := muted)
             case _ => s.(ptt := e.StartTransmit?);
    assert Keeps(s, s);
    hide Sync, Valid, Keeps;
    SameValid(s, t);
    PolicyKeeps(s, t);
  }

  lemma {:induction false} DeviceChosenKeeps(s: State, device: nat, opens: bool)
    requires Valid(s)
    ensures Keeps(s, Step(s, SetInputDevice(device, opens)))
  {
    hide Sync, Reopen, Valid, Keeps;
    PolicyKeeps(s, s);
    ConfigValid(s, s.config.(device := device), false);
    ReopenedKeeps(s, s.(config := s.config.(device := device), recovering := false), opens);
  }

  lemma {:induction false} SettingsKeeps(s: State, settings: nat, opens: bool)
    requires Valid(s) && SettledUnlessDropped(s)
    ensures Keeps(s, Step(s, UpdateSettings(settings, opens)))
  {
    assert Keeps(s, s);
    hide Sync, Reopen, Valid, Keeps;
    ConfigValid(s, s.config.(settings := settings), false);
    ReopenedKeeps(s, s.(config := s.config.(settings := settings)), opens);
  }

  lemma {:induction false} PipelineKeeps(s: State, txPipeline: nat, opens: bool)
    requires Valid(s) && SettledUnlessDropped(s)
    ensures Keeps(s, Step(s, UpdateTxPipeline(txPipeline, opens)))
  {
    assert Keeps(s, s);
    hide Sync, Reopen, Valid, Keeps;
    ConfigValid(s, s.config.(txPipeline := txPipeline), false);
    ReopenedKeeps(s, s.(config := s.config.(txPipeline := txPipeline)), opens);
  }

  lemma {:induction false} HandleLostKeeps(s: State)
    requires Valid(s) && SettledUnlessDropped(s)
    ensures Keeps(s, Step(s, DatagramEnd))
  {
    hide Sync, Ended;
  }

  lemma {:induction false} DeathKeeps(s: State)
    requires Valid(s) && SettledUnlessDropped(s)
    ensures Keeps(s, Step(s, DeviceDies))
  {
    hide Sync, Ended;
  }

  lemma {:induction false} TimeKeeps(s: State, frames: nat)
    requires Valid(s) && SettledUnlessDropped(s)
    ensures Keeps(s, Step(s, TimePasses(frames)))
  {
    hide Sync, Ended;
  }

  lemma {:induction false} HealthStepKeeps(s: State, opens: bool)
    requires Valid(s) && SettledUnlessDropped(s)
    ensures Keeps(s, Step(s, HealthTick(opens)))
  {
    hide HealthCheck, Valid, SettledUnlessDropped, StopsAreMarked;
    HealthKeeps(s, opens);
  }

  lemma {:induction false} DeviceStepKeeps(s: State, e: Event)
    requires Valid(s) && SettledUnlessDropped(s)
    requires !e.StartTransmit? && !e.StopTransmit? && !e.SetVoiceMode?
             && !e.SetMuted? && !e.SetDeafened? && !e.SetServerMuted?
    ensures Keeps(s, Step(s, e))
  {
    hide Step, Keeps, Valid, SettledUnlessDropped;
    match e
    case ConnectionEstablished(encoderOk, opens) => EstablishedKeeps(s, encoderOk, opens);
    case ConnectionClosed => ClosedKeeps(s);
    case SetInputDevice(device, opens) => DeviceChosenKeeps(s, device, opens);
    case UpdateSettings(settings, opens) => SettingsKeeps(s, settings, opens);
    case UpdateTxPipeline(txPipeline, opens) => PipelineKeeps(s, txPipeline, opens);
    case HealthTick(opens) => HealthStepKeeps(s, opens);
    case Captured(samples, suppress) =>
      StepCaptured(s, samples, suppress);
      CapturedKeeps(s, samples, suppress);
    case DatagramEnd => HandleLostKeeps(s);
    case DeviceDies => DeathKeeps(s);
    case TimePasses(frames) => TimeKeeps(s, frames);
  }

  /**
   Over every run of commands, failed opens and device deaths: active capture has a stream, the stream's flag is the
   task's, whenever nothing is being transmitted the receivers were told, and capture runs exactly when it is wanted and
   possible, except after the datagram handle was lost under it.
   */
  lemma {:induction false} RunKeeps(config: Config, es: seq<Event>)
    ensures Valid(Run(Initial(config), es)) && SettledUnlessDropped(Run(Initial(config), es))
    decreases |es|
  {
    hide Step, Valid, SettledUnlessDropped;
    if es != [] {
      RunKeeps(config, es[..|es| - 1]);
      StepKeeps(Run(Initial(config), es[..|es| - 1]), es[|es| - 1]);
    } else {
      InitialValid(config);
    }
  }

  lemma {:induction false} InitialValid(config: Config)
    ensures Valid(Initial(config)) && SettledUnlessDropped(Initial(config))
  {
  }

  lemma {:induction false} RunMore(s: State, es: seq<Event>, n: nat)
    requires n < |es|
    ensures Run(s, es[..n + 1]) == Step(Run(s, es[..n]), es[n])
  {
    assert es[..n + 1][..n] == es[..n];
  }

  lemma {:induction false} StopsStep(config: Config, es: seq<Event>, n: nat)
    requires n < |es|
    ensures StopsAreMarked(Run(Initial(config), es[..n]), Run(Initial(config), es[..n + 1]))
    ensures Valid(Run(Initial(config), es[..n + 1]))
  {
    hide Step, Valid, SettledUnlessDropped, StopsAreMarked, Run;
    RunKeeps(config, es[..n]);
    StepKeeps(Run(Initial(config), es[..n]), es[n]);
    RunMore(Initial(config), es, n);
  }

  lemma {:induction false} NothingMarked(s: State)
    ensures StopsAreMarked(s, s)
  {
  }

  /** Between any two moments of a run, nothing enqueued is lost, and capture that has stopped is marked. */
  lemma {:induction false} EveryStopIsMarked(config: Config, es: seq<Event>, k: nat, n: nat)
    requires k <= n <= |es|
    ensures StopsAreMarked(Run(Initial(config), es[..k]), Run(Initial(config), es[..n]))
    decreases n
  {
    if k < n {
      hide Step, Valid, SettledUnlessDropped, StopsAreMarked, Run, Keeps;
      EveryStopIsMarked(config, es, k, n - 1);
      StopsStep(config, es, n - 1);
      MarkedAcross(Run(Initial(config), es[..k]), Run(Initial(config), es[..n - 1]), Run(Initial(config), es[..n]));
    } else {
      NothingMarked(Run(Initial(config), es[..k]));
    }
  }

  // ---- What a step enqueues

  /** At most an end-of-stream mark more. */
  predicate AtMostOneMark(before: seq<Message>, after: seq<Message>) {
    after == before
    || (|after| == |before| + 1 && after[..|before|] == before && after[|before|].EndOfStream?)
  }

  /** No voice was enqueued, the ring was left alone or emptied, and the clock did not go back. */
  ghost predicate Calm(s: State, t: State) {
    AtMostOneMark(s.sent, t.sent) && (t.ring == s.ring || t.ring == []) && s.frameIndex <= t.frameIndex
  }

  /** A gate opening flushes the ring ahead of its own frame. */
  ghost predicate AtMostOneBurst(s: State, t: State) {
    |s.sent| <= |t.sent| <= |s.sent| + PRE_ROLL_FRAMES + 1
  }

  lemma {:induction false} CalmSame(s: State, t: State)
    requires t.sent == s.sent && (t.ring == s.ring || t.ring == []) && t.frameIndex == s.frameIndex
    ensures Calm(s, t)
  {
  }

  lemma {:induction false} DeactivateCalm(s: State)
    ensures Calm(s, Deactivate(s))
  {
    hide Gated;
  }

  lemma {:induction false} ActivatedCalm(s: State)
    requires s.input.Some?
    ensures Calm(s, Activated(s)) && Activated(s).sent == s.sent
  {
    hide Gated;
  }

  lemma {:induction false} SyncCalm(s: State)
    ensures Calm(s, Sync(s)) && (!s.active ==> Sync(s).sent == s.sent)
  {
    var t := s.(dropped := false);
    CalmSame(s, t);
    if s.input.Some? {
      ActivatedCalm(t);
    }
    DeactivateCalm(t);
    CalmTrans(s, t, Deactivate(t));
    hide Wants, Deactivate, Activated, Calm;
    if s.input.Some? {
      CalmTrans(s, t, Activated(t));
    }
  }

  lemma {:induction false} TeardownCalm(s: State)
    requires Valid(s)
    ensures Calm(s, Teardown(s)) && !Teardown(s).active
  {
    hide Calm, Gated;
    DeactivateCalm(s);
    CalmSame(s, s);
    CalmSame(Deactivate(s), Deactivate(s).(input := None));
    CalmTrans(s, Deactivate(s), Deactivate(s).(input := None));
  }

  /** Nothing was enqueued at all, and capture was not activated. */
  ghost predicate Still(s: State, t: State) {
    Calm(s, t) && t.sent == s.sent && (t.active ==> s.active)
  }

  lemma {:induction false} StartStill(s: State, opens: bool)
    ensures Still(s, Start(s, opens))
  {
    CalmSame(s, Start(s, opens));
    hide Calm;
  }

  lemma {:induction false} StartCalm(s: State, opens: bool)
    ensures Still(s, Start(s, opens)) && Still(s, StartOrFail(s, opens))
  {
    StartStill(s, opens);
    var t := Start(s, opens);
    hide Start;
    CalmSame(t, t.(active := false));
    CalmTrans(s, t, t.(active := false));
    hide Calm;
  }

  lemma {:induction false} CalmTrans(s: State, t: State, u: State)
    requires Calm(s, t) && Calm(t, u) && (t.sent == s.sent || u.sent == t.sent)
    ensures Calm(s, u)
  {
  }

  lemma {:induction false} ReopenCalm(s: State, opens: bool)
    requires Valid(s)
    ensures Calm(s, Reopen(s, opens))
  {
    var t := Teardown(s);
    var u := if s.connected then StartOrFail(t, opens) else t;
    hide Teardown, Sync, StartOrFail, Valid, Calm;
    TeardownCalm(s);
    StartCalm(t, opens);
    CalmSame(t, t);
    SyncCalm(u);
    CalmTrans(t, u, Sync(u));
    CalmTrans(s, t, Sync(u));
  }

  lemma {:induction false} HealthCalm(s: State, opens: bool)
    requires Valid(s)
    ensures Calm(s, HealthCheck(s, opens))
  {
    var t := Teardown(s);
    var r := t.(recovering := true);
    hide Teardown, Sync, Start, Valid, Calm;
    CalmSame(s, s);
    TeardownCalm(s);
    RetryCalm(r, opens);
    CalmSame(t, r);
    CalmTrans(t, r, Retry(r, opens));
    hide Retry;
    CalmTrans(s, t, Retry(r, opens));
  }

  lemma {:induction false} RetryCalm(r: State, opens: bool)
    requires !r.active
    ensures Calm(r, Retry(r, opens)) && Retry(r, opens).sent == r.sent
  {
    hide Start, Calm;
    CalmSame(r, r.(recovering := false));
    StartCalm(r, opens);
    ResyncCalm(r, Start(r, opens));
    hide Sync;
  }

  lemma {:induction false} ResyncCalm(r: State, u: State)
    requires Calm(r, u) && u.sent == r.sent && !u.active
    ensures Calm(r, Sync(u.(recovering := false))) && Sync(u.(recovering := false)).sent == r.sent
  {
    var v := u.(recovering := false);
    hide Sync, Calm;
    CalmSame(u, v);
    CalmTrans(r, u, v);
    SyncCalm(v);
    CalmTrans(r, v, Sync(v));
  }

  /** Everything but a captured frame and the restart of the clock is calm. */
  lemma {:induction false} StepCalm(s: State, e: Event)
    requires Valid(s) && !e.Captured? && !e.ConnectionEstablished?
    ensures Calm(s, Step(s, e))
  {
    if e.SetInputDevice? || e.UpdateSettings? || e.UpdateTxPipeline? {
      RebuildCalm(s, e);
    } else if e.HealthTick? {
      hide Calm, HealthCheck, Valid;
      HealthCalm(s, e.opens);
    } else if e.ConnectionClosed? || e.DatagramEnd? || e.DeviceDies? || e.TimePasses? {
      OutsideCalm(s, e);
    } else {
      PolicyCalm(s, e);
    }
  }

  lemma {:induction false} RebuildCalm(s: State, e: Event)
    requires Valid(s) && (e.SetInputDevice? || e.UpdateSettings? || e.UpdateTxPipeline?)
    ensures Calm(s, Step(s, e))
  {
    var config := match e
                  case SetInputDevice(device, _) => s.config.(device := device)
                  case UpdateSettings(settings, _) => s.config.(settings := settings)
                  case UpdateTxPipeline(tx, _) => s.config.(txPipeline := tx)
                  case _ => s.config;
    var t := s.(config := config, recovering := s.recovering && !e.SetInputDevice?);
    ConfigValid(s, config, false);
    assert Valid(t);
    hide Sync, Reopen, Valid, Calm;
    CalmSame(s, s);
    SyncCalm(s);
    CalmSame(s, t);
    ReopenCalm(t, e.opens);
    CalmTrans(s, t, Reopen(t, e.opens));
  }

  lemma {:induction false} OutsideCalm(s: State, e: Event)
    requires e.ConnectionClosed? || e.DatagramEnd? || e.DeviceDies? || e.TimePasses?
    ensures Calm(s, Step(s, e))
  {
    match e
    case ConnectionClosed => ClosedCalm(s);
    case DatagramEnd => CalmSame(s, s.(connected := false, dropped := s.dropped || s.connected));
    case DeviceDies => DyingCalm(s);
    case TimePasses(frames) => CalmSame(s, s.(elapsed := s.elapsed + frames));
    hide Sync, Calm, ClosedOut;
  }

  lemma {:induction false} ClosedCalm(s: State)
    ensures Calm(s, ClosedOut(Sync(s.(connected := false))))
  {
    var t := s.(connected := false);
    hide Sync, Calm;
    SyncedCalm(s, t);
    CalmSame(Sync(t), ClosedOut(Sync(t)));
    CalmTrans(s, Sync(t), ClosedOut(Sync(t)));
  }

  lemma {:induction false} DyingCalm(s: State)
    ensures Calm(s, Step(s, DeviceDies))
  {
    CalmSame(s, s);
    if s.input.Some? {
      CalmSame(s, s.(input := Some(s.input.value.(healthy := false))));
    }
    hide Calm;
  }

  lemma {:induction false} PolicyCalm(s: State, e: Event)
    requires e.StartTransmit? || e.StopTransmit? || e.SetVoiceMode? || e.SetMuted? || e.SetDeafened? || e.SetServerMuted?
    ensures Calm(s, Step(s, e))
  {
    hide Sync, Calm;
    match e
    case StartTransmit => SyncedCalm(s, s.(ptt := true));
    case StopTransmit => SyncedCalm(s, s.(ptt := false));
    case SetVoiceMode(mode) => SyncedCalm(s, s.(mode := mode, vadGateBypass := mode.PushToTalk?));
    case SetMuted(muted) => SyncedCalm(s, s.(selfMuted := muted));
    case SetDeafened(deafened) =>
      SyncedCalm(s, s.(selfDeafened := deafened, selfMuted := s.selfMuted || deafened));
    case SetServerMuted(muted) =>
      CalmSame(s, s);
      SyncedCalm(s, s.(serverMuted := muted));
  }

  lemma {:induction false} SyncedCalm(s: State, t: State)
    requires t.sent == s.sent && t.ring == s.ring && t.frameIndex == s.frameIndex
    ensures Calm(s, Sync(t))
  {
    CalmSame(s, t);
    SyncCalm(t);
    hide Sync, Calm;
    CalmTrans(s, t, Sync(t));
  }

  /** A new connection restarts the clock, and is calm besides. */
  lemma {:induction false} EstablishedCalm(s: State, encoderOk: bool, opens: bool)
    ensures Calm(s.(frameIndex := 0), Step(s, ConnectionEstablished(encoderOk, opens)))
  {
    var t := Connecting(s, encoderOk);
    var u := if s.input.None? then StartOrFail(t, opens) else t;
    CalmSame(s.(frameIndex := 0), t);
    CalmSame(t, t);
    hide Connecting, StartOrFail, Sync, Calm;
    StartCalm(t, opens);
    CalmTrans(s.(frameIndex := 0), t, u);
    SyncCalm(u);
    CalmTrans(s.(frameIndex := 0), u, Sync(u));
  }

  lemma {:induction false} GateOne(s: State, frame: nat, samples: Pcm, suppress: bool)
    requires |s.ring| <= PRE_ROLL_FRAMES
    ensures AtMostOneBurst(s, Gate(s, frame, samples, suppress))
  {
  }

  lemma {:induction false} TickedSent(s: State)
    ensures Ticked(s).sent == s.sent && Ticked(s).ring == s.ring
    ensures s.input.Some? && s.input.value.warmup > 0 ==> Warmed(s).sent == s.sent
  {
  }

  lemma {:induction false} CapturedOne(s: State, samples: Pcm, suppress: bool)
    requires Valid(s)
    ensures AtMostOneBurst(s, OnCaptured(s, samples, suppress))
  {
    TickedSent(s);
    hide Gate, Ticked;
    if s.input.Some? && s.input.value.active && s.input.value.warmup == 0 {
      GateOne(Ticked(s), s.frameIndex, samples, G.Suppresses(suppress, s.vadGateBypass));
    }
  }

  /** No command enqueues more than one end-of-stream mark, and a captured frame no more than the ring and itself. */
  lemma {:induction false} AtMostOneMessage(s: State, e: Event)
    requires Valid(s)
    ensures if e.Captured? then AtMostOneBurst(s, Step(s, e)) else AtMostOneMark(s.sent, Step(s, e).sent)
  {
    hide Valid, Step, AtMostOneMark;
    match e
    case Captured(samples, suppress) =>
      StepCaptured(s, samples, suppress);
      CapturedOne(s, samples, suppress);
    case ConnectionEstablished(encoderOk, opens) => EstablishedCalm(s, encoderOk, opens);
    case _ => StepCalm(s, e);
  }

  lemma {:induction false} StepCaptured(s: State, samples: Pcm, suppress: bool)
    ensures Step(s, Captured(samples, suppress)) == OnCaptured(s, samples, suppress)
  {
    hide OnCaptured;
  }

  lemma {:induction false} ContinuousStarts(s: State)
    requires s.mode.Continuous? && !s.selfMuted && !s.serverMuted && s.input.None? && !s.active
    ensures var t := Step(s, ConnectionEstablished(true, true)); t.active && t.input.Some?
  {
  }

  /** The exception is real: after this run capture is active although nothing wants it. */
  lemma {:induction false} LostHandleLeavesCaptureActive(config: Config)
    ensures var s := Run(Initial(config), [SetVoiceMode(Continuous), ConnectionEstablished(true, true), DatagramEnd]);
            s.active && !Wants(s) && !Settled(s)
  {
    hide Step, Run, Wants, Settled;
    var es := [SetVoiceMode(Continuous), ConnectionEstablished(true, true), DatagramEnd];
    var s0 := Initial(config);
    RunMore(s0, es, 0);
    RunMore(s0, es, 1);
    RunMore(s0, es, 2);
    assert es[..0] == [] && es[..3] == es;
    RunNothing(s0);
    ContinuousChosen(config);
    ContinuousStarts(Step(s0, es[0]));
    HandleLost(Step(Step(s0, es[0]), es[1]));
  }

  lemma {:induction false} RunNothing(s: State)
    ensures Run(s, []) == s
  {
  }

  lemma {:induction false} ContinuousChosen(config: Config)
    ensures var s := Step(Initial(config), SetVoiceMode(Continuous));
            s.mode.Continuous? && !s.selfMuted && !s.serverMuted && s.input.None? && !s.active
  {
    hide Deactivate, Activated;
  }

  lemma {:induction false} HandleLost(s: State)
    requires s.active
    ensures var t := Step(s, DatagramEnd); t.active && !Wants(t) && !Settled(t)
  {
  }

  /** A dead device is reopened by the first health check that finds it openable, and capture resumes if it is wanted. */
  lemma {:induction false} HealthRecovers(s: State)
    requires Valid(s) && s.connected && s.encoder
    requires (s.input.Some? && !s.input.value.healthy) || (s.input.None? && s.recovering)
    ensures var t := HealthCheck(s, true);
            && t.input.Some? && t.input.value.healthy && !t.recovering
            && (t.active <==> !s.selfMuted && !s.serverMuted && (s.mode.Continuous? || s.ptt))
    ensures var t := HealthCheck(s, false); t.input.None? && t.recovering && !t.active
  {
    hide Teardown, Sync, StopsAreMarked, Ended;
    TeardownKeeps(s);
    var t := Teardown(s).(recovering := true);
    var u := Start(t, true).(recovering := false);
    assert Valid(u);
    assert Wants(u) == Wants(s);
    SyncHealth(u);
  }

  /** The device is as it was, and so is what is wanted of it. */
  ghost predicate SameDevice(s: State, t: State) {
    && s.input.Some? && t.input.Some? && t.input.value.healthy == s.input.value.healthy
    && t.recovering == s.recovering && Wants(t) == Wants(s)
  }

  lemma {:induction false} DeactivatedDevice(s: State)
    requires s.input.Some?
    ensures SameDevice(s, Deactivate(s))
  {
    hide Wants;
    WantsSame(s, Deactivate(s));
  }

  lemma {:induction false} ActivatedDevice(s: State)
    requires s.input.Some?
    ensures SameDevice(s, Activated(s))
  {
    hide Wants;
    WantsSame(s, Activated(s));
  }

  lemma {:induction false} ClearedDevice(s: State)
    requires s.input.Some?
    ensures SameDevice(s, s.(dropped := false))
  {
    hide Wants;
    WantsSame(s, s.(dropped := false));
  }

  lemma {:induction false} SyncDevice(s: State)
    requires s.input.Some?
    ensures SameDevice(s, Sync(s))
  {
    hide Wants, Deactivate, Activated;
    var t := s.(dropped := false);
    ClearedDevice(s);
    DeactivatedDevice(t);
    ActivatedDevice(t);
  }

  lemma {:induction false} SyncHealth(s: State)
    requires Valid(s) && s.input.Some? && s.input.value.healthy
    ensures var t := Sync(s);
            t.input.Some? && t.input.value.healthy && t.recovering == s.recovering && Wants(t) == Wants(s)
    ensures Sync(s).active <==> Wants(s)
  {
    hide Sync, Valid, StopsAreMarked;
    SyncKeeps(s);
    SyncDevice(s);
  }

  lemma {:induction false} WantsSame(s: State, t: State)
    requires t.mode == s.mode && t.selfMuted == s.selfMuted && t.serverMuted == s.serverMuted && t.ptt == s.ptt
    requires t.connected == s.connected
    ensures Wants(t) == Wants(s)
  {
  }

  // ---- Frames stashed before a stop

  /** The media clock when capture resumes. */
  function Resumed(s: State): nat {
    Max(s.frameIndex, s.elapsed)
  }

  /** What goes out with the first unsuppressed frame after capture resumes on the same stream. */
  lemma {:induction false} ResumesWith(s: State, samples: Pcm)
    requires !s.active && Wants(s) && s.input.Some? && s.input.value.warmup == 0
    ensures OnCaptured(Sync(s), samples, false).sent
         == s.sent + (G.Encoded(Flushed(s.ring, Resumed(s) * FRAME_US)) + [G.EncodedFrame(Resumed(s) * FRAME_US, samples)])
  {
    var t := Sync(s);
    ResumedIs(s);
    GateSends(Ticked(t), t.frameIndex, samples);
    TickedSent(t);
    hide Sync, Gate, Ticked, Wants;
  }

  lemma {:induction false} ResumedIs(s: State)
    requires !s.active && Wants(s) && s.input.Some?
    ensures var t := Sync(s);
            && t.input == Some(s.input.value.(active := true)) && t.frameIndex == Resumed(s) && t.ring == s.ring
            && t.sent == s.sent
  {
    hide Wants, Deactivate;
  }

  lemma {:induction false} GateSends(s: State, frame: nat, samples: Pcm)
    ensures Gate(s, frame, samples, false).sent
         == s.sent + (G.Encoded(Flushed(s.ring, frame * FRAME_US)) + [G.EncodedFrame(frame * FRAME_US, samples)])
  {
    var e := G.Encoded(Flushed(s.ring, frame * FRAME_US));
    assert [] + e + [G.EncodedFrame(frame * FRAME_US, samples)] == e + [G.EncodedFrame(frame * FRAME_US, samples)];
  }

  /**
   So audio stashed before the stop goes out exactly if there is some that leads right up to the clock: the clock was not
   moved, no time having passed that was not captured, and the last frame before the stop was suppressed.
   */
  lemma {:induction false} StaleExactlyIf(s: State)
    requires s.ring != [] ==> s.ring[|s.ring| - 1].timestampUs + FRAME_US <= s.frameIndex * FRAME_US
    ensures Flushed(s.ring, Resumed(s) * FRAME_US) != []
       <==> s.elapsed <= s.frameIndex && s.ring != []
            && s.ring[|s.ring| - 1].timestampUs + FRAME_US == s.frameIndex * FRAME_US
  {
  }

  /** Capture is on in continuous mode, with the given clock and ring. */
  ghost predicate Listening(s: State, warmup: nat, clock: nat, ring: seq<Slot>) {
    && s.active && s.connected && s.mode.Continuous? && !s.vadGateBypass && !s.selfMuted && !s.serverMuted
    && s.input == Some(Stream(true, true, warmup)) && s.frameIndex == clock && s.elapsed == 0 && s.ring == ring
    && !s.wasTransmitting
  }

  lemma {:induction false} ListeningStarts(config: Config)
    ensures Listening(Step(Step(Initial(config), SetVoiceMode(Continuous)), ConnectionEstablished(true, true)),
                      WARMUP_FRAMES, 0, [])
  {
    hide Deactivate;
    var s := Initial(config).(mode := Continuous, vadGateBypass := false);
    assert Step(Initial(config), SetVoiceMode(Continuous)) == s by {
      hide Activated;
    }
    hide Initial;
  }

  lemma {:induction false} ListeningWarms(s: State, warmup: nat, clock: nat)
    requires Listening(s, warmup, clock, []) && warmup > 0
    ensures Listening(Step(s, Captured([], true)), warmup - 1, clock + 1, [])
  {
    StepCaptured(s, [], true);
    hide Gate, Ticked, Step;
  }

  lemma {:induction false} ListeningStashes(s: State, clock: nat, samples: Pcm)
    requires Listening(s, 0, clock, [])
    ensures Listening(Step(s, Captured(samples, true)), 0, clock + 1, [Slot(clock * FRAME_US, samples)])
  {
    StepCaptured(s, samples, true);
    hide Warmed, Step;
  }

  lemma {:induction false} ListeningMutes(s: State, clock: nat, ring: seq<Slot>)
    requires Listening(s, 0, clock, ring)
    ensures Listening(Step(Step(s, SetMuted(true)), SetMuted(false)), 0, clock, ring)
  {
    var t := Step(s, SetMuted(true));
    assert !t.active && t.connected && t.mode.Continuous? && !t.vadGateBypass && t.selfMuted && !t.serverMuted
        && t.input == Some(Stream(false, true, 0)) && t.frameIndex == clock && t.elapsed == 0 && t.ring == ring
        && !t.wasTransmitting by {
      hide Activated;
    }
    hide Deactivate;
  }

  lemma {:induction false} ListeningSays(s: State, clock: nat, stashed: Pcm, samples: Pcm)
    requires clock > 0 && Listening(s, 0, clock, [Slot((clock - 1) * FRAME_US, stashed)])
    ensures Step(s, Captured(samples, false)).sent
         == s.sent + [G.EncodedFrame((clock - 1) * FRAME_US, stashed), G.EncodedFrame(clock * FRAME_US, samples)]
  {
    StepCaptured(s, samples, false);
    GateSends(Ticked(s), clock, samples);
    TickedSent(s);
    assert G.Encoded([Slot((clock - 1) * FRAME_US, stashed)]) == [G.EncodedFrame((clock - 1) * FRAME_US, stashed)];
    hide Warmed, Step, Gate, Ticked;
  }

  /** Muted and unmuted within a frame: what was stashed before goes out after. */
  lemma {:induction false} StaleOnset(config: Config, stashed: Pcm, samples: Pcm)
    ensures var es := [SetVoiceMode(Continuous), ConnectionEstablished(true, true), Captured([], true), Captured([], true),
                       Captured([], true), Captured(stashed, true), SetMuted(true), SetMuted(false)];
            var s := Run(Initial(config), es);
            Step(s, Captured(samples, false)).sent ==
            s.sent + [G.EncodedFrame(3 * FRAME_US, stashed), G.EncodedFrame(4 * FRAME_US, samples)]
  {
    hide Step, Listening, Run;
    var es := [SetVoiceMode(Continuous), ConnectionEstablished(true, true), Captured([], true), Captured([], true),
               Captured([], true), Captured(stashed, true), SetMuted(true), SetMuted(false)];
    var s0 := Initial(config);
    RunNothing(s0);
    RunMore(s0, es, 0);
    RunMore(s0, es, 1);
    RunMore(s0, es, 2);
    RunMore(s0, es, 3);
    RunMore(s0, es, 4);
    RunMore(s0, es, 5);
    RunMore(s0, es, 6);
    RunMore(s0, es, 7);
    assert es[..0] == [] && es[..8] == es;
    ListeningStarts(config);
    ListeningWarms(Run(s0, es[..2]), 3, 0);
    ListeningWarms(Run(s0, es[..3]), 2, 1);
    ListeningWarms(Run(s0, es[..4]), 1, 2);
    ListeningStashes(Run(s0, es[..5]), 3, stashed);
    ListeningMutes(Run(s0, es[..6]), 4, [Slot(3 * FRAME_US, stashed)]);
    ListeningSays(Run(s0, es), 4, stashed, samples);
  }

  // ---- The code

  lemma {:induction false} TeardownConnected(s: State)
    ensures Teardown(s).connected == s.connected
  {
  }

  lemma {:induction false} ConnectingInput(s: State, encoderOk: bool)
    ensures Connecting(s, encoderOk).input == s.input
  {
  }

  class AudioTask {
    var connected: bool
    var encoder: bool
    var mode: VoiceMode
    var vadGateBypass: bool
    var selfMuted: bool
    var selfDeafened: bool
    var serverMuted: bool
    var ptt: bool
    var input: Option<Stream>
    var captureIsActive: bool
    var inputRecovering: bool
    var config: Config
    var ring: seq<Slot>
    var wasTransmitting: bool
    var frameIndex: nat
    var elapsed: nat
    var sent: seq<Message>
    ghost var dropped: bool

    ghost function Now(): State
      reads this
    {
      State(connected, encoder, mode, vadGateBypass, selfMuted, selfDeafened, serverMuted, ptt, input, captureIsActive,
            inputRecovering, config, ring, wasTransmitting, frameIndex, elapsed, sent, dropped)
    }

    constructor (config: Config)
      ensures Now() == Initial(config)
    {
      connected, encoder, mode, vadGateBypass := false, false, PushToTalk, true;
      selfMuted, selfDeafened, serverMuted, ptt := false, false, false, false;
      input, captureIsActive, inputRecovering := None, false, false;
      this.config, ring, wasTransmitting, frameIndex, elapsed, sent, dropped := config, [], false, 0, 0, [], false;
    }

    method DeactivateCapture()
      modifies this`sent, this`captureIsActive, this`input, this`wasTransmitting
      ensures Now() == Deactivate(old(Now()))
    {
      if captureIsActive {
        sent := sent + [G.EndOfStream(frameIndex * FRAME_US)];
        captureIsActive := false;
        if input.Some? {
          input := Some(input.value.(active := false));
        }
        wasTransmitting := false;
      }
    }

    /** The media clock catches up with the time that was not captured. */
    method AdvanceClock()
      modifies this`frameIndex
      ensures Now() == old(Now()).(frameIndex := Max(old(frameIndex), elapsed))
    {
      frameIndex := Max(frameIndex, elapsed);
    }

    method ActivateCapture()
      requires input.Some?
      modifies this`captureIsActive, this`frameIndex, this`input
      ensures Now() == Activated(old(Now()))
    {
      AdvanceClock();
      captureIsActive := true;
      input := Some(input.value.(active := true));
    }

    method SyncTransmission()
      modifies this
      ensures Now() == Sync(old(Now()))
    {
      hide Activated, Deactivate;
      var want := ShouldCapture(mode, selfMuted, serverMuted, ptt, connected);
      dropped := false;
      if want && !captureIsActive {
        if input.Some? {
          ActivateCapture();
        }
      } else if !want && captureIsActive {
        DeactivateCapture();
      }
    }

    method StartTransmission(opens: bool) returns (ok: bool)
      modifies this`input, this`ring
      ensures Now() == Start(old(Now()), opens) && (ok <==> input.Some?)
    {
      if input.Some? {
        return true;
      }
      if !encoder || !opens {
        return false;
      }
      input, ring := Some(Stream(false, true, WARMUP_FRAMES)), [];
      ok := true;
    }

    method StartOrGiveUp(opens: bool)
      modifies this`input, this`ring, this`captureIsActive
      ensures Now() == StartOrFail(old(Now()), opens)
    {
      var ok := StartTransmission(opens);
      if !ok {
        captureIsActive := false;
      }
    }

    method StopStream()
      modifies this
      ensures Now() == Teardown(old(Now()))
    {
      if input.Some? {
        DeactivateCapture();
        input := None;
      }
    }

    method Rebuild(opens: bool)
      modifies this
      ensures Now() == Reopen(old(Now()), opens)
    {
      TeardownConnected(Now());
      hide Teardown, StartOrFail, Sync;
      StopStream();
      if connected {
        StartOrGiveUp(opens);
      }
      SyncTransmission();
    }

    method Connect(encoderOk: bool)
      modifies this`connected, this`frameIndex, this`elapsed, this`encoder
      ensures Now() == Connecting(old(Now()), encoderOk)
    {
      connected, frameIndex, elapsed := true, 0, 0;
      if encoderOk {
        encoder := true;
      }
    }

    method OnConnectionEstablished(encoderOk: bool, opens: bool)
      modifies this
      ensures Now() == Step(old(Now()), ConnectionEstablished(encoderOk, opens))
    {
      ConnectingInput(Now(), encoderOk);
      hide StartOrFail, Sync, Connecting;
      Connect(encoderOk);
      if input.None? {
        StartOrGiveUp(opens);
      }
      SyncTransmission();
    }

    method DropInput()
      modifies this`input, this`inputRecovering
      ensures Now() == old(Now()).(input := None, recovering := false)
    {
      input, inputRecovering := None, false;
    }

    method CloseOut()
      modifies this`input, this`inputRecovering, this`encoder, this`ptt, this`serverMuted
      ensures Now() == ClosedOut(old(Now()))
    {
      DropInput();
      encoder, ptt, serverMuted := false, false, false;
    }

    method OnConnectionClosed()
      modifies this
      ensures Now() == Step(old(Now()), ConnectionClosed)
    {
      hide Sync, ClosedOut;
      connected := false;
      SyncTransmission();
      CloseOut();
    }

    method OnSetInputDevice(device: nat, opens: bool)
      modifies this
      ensures Now() == Step(old(Now()), SetInputDevice(device, opens))
    {
      hide Reopen, Sync;
      if device == config.device && input.Some? {
        SyncTransmission();
      } else {
        config := config.(device := device);
        inputRecovering := false;
        Rebuild(opens);
      }
    }

    method OnTransmit(held: bool)
      modifies this
      ensures Now() == Step(old(Now()), if held then StartTransmit else StopTransmit)
    {
      hide Sync;
      ptt := held;
      SyncTransmission();
    }

    method OnSetVoiceMode(mode: VoiceMode)
      modifies this
      ensures Now() == Step(old(Now()), SetVoiceMode(mode))
    {
      hide Sync;
      this.mode := mode;
      vadGateBypass := mode.PushToTalk?;
      SyncTransmission();
    }

    method OnSetMuted(muted: bool)
      modifies this
      ensures Now() == Step(old(Now()), SetMuted(muted))
    {
      hide Sync;
      selfMuted := muted;
      SyncTransmission();
    }

    method OnSetDeafened(deafened: bool)
      modifies this
      ensures Now() == Step(old(Now()), SetDeafened(deafened))
    {
      hide Sync;
      selfDeafened := deafened;
      if deafened && !selfMuted {
        selfMuted := true;
      }
      SyncTransmission();
    }

    method OnSetServerMuted(muted: bool)
      modifies this
      ensures Now() == Step(old(Now()), SetServerMuted(muted))
    {
      hide Sync;
      if serverMuted != muted {
        serverMuted := muted;
        SyncTransmission();
      }
    }

    method OnUpdateSettings(settings: nat, opens: bool)
      modifies this
      ensures Now() == Step(old(Now()), UpdateSettings(settings, opens))
    {
      hide Reopen;
      if settings != config.settings {
        config := config.(settings := settings);
        Rebuild(opens);
      }
    }

    method OnUpdateTxPipeline(txPipeline: nat, opens: bool)
      modifies this
      ensures Now() == Step(old(Now()), UpdateTxPipeline(txPipeline, opens))
    {
      hide Reopen;
      if txPipeline != config.txPipeline {
        config := config.(txPipeline := txPipeline);
        Rebuild(opens);
      }
    }

    method OnDatagramEnd()
      modifies this
      ensures Now() == Step(old(Now()), DatagramEnd)
    {
      dropped := dropped || connected;
      connected := false;
    }

    method TryAgain(opens: bool)
      modifies this
      ensures Now() == Retry(old(Now()), opens)
    {
      hide Start, Sync;
      if !connected {
        inputRecovering := false;
        return;
      }
      var ok := StartTransmission(opens);
      if ok {
        inputRecovering := false;
        SyncTransmission();
      }
    }

    method OnHealthTick(opens: bool)
      modifies this
      ensures Now() == Step(old(Now()), HealthTick(opens))
    {
      hide Teardown, Retry;
      var dead := input.Some? && !input.value.healthy;
      if dead || (input.None? && inputRecovering) {
        StopStream();
        inputRecovering := true;
        TryAgain(opens);
      }
    }

    method GateFrame(frame: nat, samples: Pcm, suppress: bool)
      modifies this`ring, this`wasTransmitting, this`sent
      ensures Now() == Gate(old(Now()), frame, samples, suppress)
    {
      var (gate, out) := G.OnFrame(G.GateState(ring, wasTransmitting), G.Capture(frame, samples, suppress, None));
      ring, wasTransmitting, sent := gate.run, gate.wasTransmitting, sent + out;
    }

    method WarmUp()
      requires input.Some? && input.value.warmup > 0
      modifies this`input, this`frameIndex
      ensures Now() == Warmed(old(Now()))
    {
      frameIndex := frameIndex + 1;
      input := Some(input.value.(warmup := input.value.warmup - 1));
    }

    method Tick()
      modifies this`frameIndex
      ensures Now() == Ticked(old(Now()))
    {
      frameIndex := frameIndex + 1;
    }

    /** The capture callback; the stream does not call it while it is gated off. */
    method OnFrame(samples: Pcm, suppressed: bool)
      modifies this
      ensures Now() == Step(old(Now()), Captured(samples, suppressed))
    {
      hide Gate, Ticked, Warmed;
      if input.None? || !input.value.active {
        return;
      }
      var frame := frameIndex;
      if input.value.warmup > 0 {
        WarmUp();
        return;
      }
      var bypass := vadGateBypass;
      Tick();
      GateFrame(frame, samples, G.Suppresses(suppressed, bypass));
    }

    // The environment: a device dies, time passes.

    method OnDeviceDeath()
      modifies this`input
      ensures Now() == Step(old(Now()), DeviceDies)
    {
      if input.Some? {
        input := Some(input.value.(healthy := false));
      }
    }

    method OnTime(frames: nat)
      modifies this`elapsed
      ensures Now() == Step(old(Now()), TimePasses(frames))
    {
      elapsed := elapsed + frames;
    }

    /** One turn of the loop. */
    method Handle(e: Event)
      modifies this
      ensures Now() == Step(old(Now()), e)
    {
      hide Step;
      match e
      case ConnectionEstablished(encoderOk, opens) => OnConnectionEstablished(encoderOk, opens);
      case ConnectionClosed => OnConnectionClosed();
      case SetInputDevice(device, opens) => OnSetInputDevice(device, opens);
      case StartTransmit => OnTransmit(true);
      case StopTransmit => OnTransmit(false);
      case SetVoiceMode(mode) => OnSetVoiceMode(mode);
      case SetMuted(muted) => OnSetMuted(muted);
      case SetDeafened(deafened) => OnSetDeafened(deafened);
      case SetServerMuted(muted) => OnSetServerMuted(muted);
      case UpdateSettings(settings, opens) => OnUpdateSettings(settings, opens);
      case UpdateTxPipeline(txPipeline, opens) => OnUpdateTxPipeline(txPipeline, opens);
      case DatagramEnd => OnDatagramEnd();
      case HealthTick(opens) => OnHealthTick(opens);
      case Captured(samples, suppress) => OnFrame(samples, suppress);
      case DeviceDies => OnDeviceDeath();
      case TimePasses(frames) => OnTime(frames);
    }
  }

  /** Whatever arrives over the audio task's life, it is the specified run, so what holds of every run holds of it. */
  method RunAudioTask(config: Config, events: seq<Event>) returns (task: AudioTask)
    ensures fresh(task) && task.Now() == Run(Initial(config), events)
    ensures Valid(task.Now()) && SettledUnlessDropped(task.Now())
  {
    hide Step, Valid, SettledUnlessDropped;
    task := new AudioTask(config);
    for k := 0 to |events|
      invariant fresh(task) && task.Now() == Run(Initial(config), events[..k])
    {
      hide Run;
      RunMore(Initial(config), events, k);
      task.Handle(events[k]);
    }
    assert events[..|events|] == events;
    RunKeeps(config, events);
  }
}
