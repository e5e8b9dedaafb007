/** Whole runs of one peer's jitter buffer, and what becomes of the burst a pre-roll flush sends. */
module Playout {
  import opened MediaClock
  import opened JitterBuffer
  import opened JitterRuns
  import PreRoll

  datatype Event =
    | Arrives(seqNo: nat, timestampUs: nat, opus: Opus, now: real)
    | EosArrives(seqNo: nat)
    | Tick(now: real, decodeOk: bool, fecOk: bool)
    | StatsReset

  ghost function Step(rx: Rx, e: Event): Rx {
    match e
    case Arrives(n, t, opus, now) => Insert(rx, n, t, opus, now)
    case EosArrives(n) => MarkEos(rx, n)
    case Tick(now, decodeOk, fecOk) => Decode(rx, now, decodeOk, fecOk).0
    case StatsReset => ResetStats(rx)
  }

  ghost function Run(rx: Rx, es: seq<Event>): Rx {
    if es == [] then rx else Step(Run(rx, es[..|es| - 1]), es[|es| - 1])
  }

  lemma {:induction false} StepKeeps(rx: Rx, e: Event)
    requires Good(rx)
    ensures Good(Step(rx, e)) && KeepsFates(rx.book, Step(rx, e).book)
  {
    hide Insert, Decode, Received, Kept;
    match e
    case Arrives(n, t, opus, now) =>
      InsertKeeps(rx, n, t, opus, now);
      ReceivedGood(rx, t / FRAME_US, Insert(rx, n, t, opus, now));
    case Tick(now, decodeOk, fecOk) =>
      DecodeKeeps(rx, now, decodeOk, fecOk);
      KeptGood(rx, Decode(rx, now, decodeOk, fecOk).0);
    case EosArrives(n) =>
      hide Ledger;
    case StatsReset =>
      hide Ledger;
  }

  lemma {:induction false} ReceivedGood(rx: Rx, frame: nat, r: Rx)
    requires Received(rx, frame, r)
    ensures Good(r) && KeepsFates(rx.book, r.book)
  {
    hide Good, KeepsFates, DropsLate;
  }

  lemma {:induction false} KeptGood(rx: Rx, r: Rx)
    requires Kept(rx, r)
    ensures Good(r) && KeepsFates(rx.book, r.book)
  {
    hide Good, KeepsFates;
  }

  /**
   Over every run from a fresh state: no buffered frame is behind the cursor, at most 20 are held, the target stays in
   2..12, every packet received is buffered or has exactly one fate, and the concealment counters balance.
   */
  lemma {:induction false} RunKeeps(rx: Rx, es: seq<Event>)
    requires Good(rx)
    ensures Good(Run(rx, es)) && KeepsFates(rx.book, Run(rx, es).book)
    decreases |es|
  {
    hide Good, Step, KeepsFates;
    if es == [] {
      SameFates(rx.book);
    } else {
      var n := |es| - 1;
      RunKeeps(rx, es[..n]);
      StepKeeps(Run(rx, es[..n]), es[n]);
      KeepsFatesTrans(rx.book, Run(rx, es[..n]).book, Run(rx, es).book);
    }
  }

  lemma {:induction false} SameFates(k: Book)
    ensures KeepsFates(k, k)
  {
  }

  lemma {:induction false} FreshRunsWell(baseDelay: nat, now: real, es: seq<Event>)
    ensures Good(Run(Fresh(baseDelay, now), es))
  {
    FreshGood(baseDelay, now);
    RunKeeps(Fresh(baseDelay, now), es);
  }

  function Packets(es: seq<Event>): nat {
    if es == [] then 0 else Packets(es[..|es| - 1]) + (if es[|es| - 1].Arrives? then 1 else 0)
  }

  /** Every packet of the run was dropped for arriving behind the cursor. */
  ghost predicate AllLate(rx: Rx, es: seq<Event>) {
    forall k {:trigger es[k]} :: 0 <= k < |es| && es[k].Arrives? ==>
      DropsLate(Run(rx, es[..k]), es[k].timestampUs / FRAME_US)
  }

  lemma {:induction false} LateCounted(rx: Rx, es: seq<Event>)
    requires Good(rx) && AllLate(rx, es)
    ensures Run(rx, es).late == rx.late + Packets(es)
    decreases |es|
  {
    if es != [] {
      var n := |es| - 1;
      var before, e := Run(rx, es[..n]), es[n];
      assert AllLate(rx, es[..n]) by {
        hide Run, DropsLate;
        assert forall k :: 0 <= k < n ==> es[..n][k] == es[k] && es[..n][..k] == es[..k];
      }
      hide AllLate, DropsLate;
      LateCounted(rx, es[..n]);
      RunKeeps(rx, es[..n]);
      hide Good, Insert, Decode;
      LateStep(before, e);
    }
  }

  lemma {:induction false} LateStep(rx: Rx, e: Event)
    requires Good(rx) && (e.Arrives? ==> DropsLate(rx, e.timestampUs / FRAME_US))
    ensures Step(rx, e).late == rx.late + (if e.Arrives? then 1 else 0)
  {
    hide Insert, Decode, DropsLate, KeepsFates, Good;
    match e
    case Arrives(n, t, opus, now) => InsertKeeps(rx, n, t, opus, now);
    case Tick(now, decodeOk, fecOk) => DecodeKeeps(rx, now, decodeOk, fecOk);
    case EosArrives(n) =>
    case StatsReset =>
  }

  /** However ticks, EOS marks and packets interleave, at most 10 packets in a row are ever dropped as late. */
  lemma {:induction false} AtMostTenLate(rx: Rx, es: seq<Event>)
    requires Good(rx) && AllLate(rx, es)
    ensures Packets(es) <= LATE_RESYNC_FRAMES
  {
    LateCounted(rx, es);
    RunKeeps(rx, es);
    hide Ledger, AllLate, Run;
  }

  /** FEC is taken only from the immediate successor, which stays buffered to be played itself. */
  lemma {:induction false} FecKeepsDonor(rx: Rx, now: real, decodeOk: bool, fecOk: bool)
    requires Good(rx) && Decode(rx, now, decodeOk, fecOk).1.Recovered?
    ensures var (r, o) := Decode(rx, now, decodeOk, fecOk);
      && o.frame == rx.nextPlay && r.nextPlay == o.frame + 1
      && r.nextPlay in r.buffer && r.buffer[r.nextPlay] == o.donor && r.buffer == rx.buffer
  {
    hide Ledger, ReadyToPlay, ReadsAsSilence, Stale;
  }

  /** While playout runs, each frame played lies beyond the last one. */
  lemma {:induction false} PlaysForward(rx: Rx, now: real, decodeOk: bool, fecOk: bool)
    requires Good(rx) && rx.started && Decode(rx, now, decodeOk, fecOk).1.Played?
    ensures var (r, o) := Decode(rx, now, decodeOk, fecOk);
      rx.lastFrame < o.frame == r.lastFrame && r.book.fates[o.packet.arrival] == Decoded
  {
    hide Ledger, ReadyToPlay, ReadsAsSilence, Stale;
  }

  // ---- The pre-roll burst

  /** Within a spurt sequence and frame advance together: frame `f` carries number `f + shift`. */
  function SeqFor(shift: int, f: nat): nat {
    (f + shift) % SEQ_SPACE
  }

  /** `datas` sent back to back as consecutive frames from `frame` on, with consecutive sequence numbers. */
  ghost function InsertBurst(rx: Rx, frame: nat, shift: int, datas: seq<(Opus, real)>): Rx {
    if datas == [] then rx
    else
      var n := |datas| - 1;
      Insert(InsertBurst(rx, frame, shift, datas[..n]),
             SeqFor(shift, frame + n), (frame + n) * FRAME_US, datas[n].0, datas[n].1)
  }

  /** Exactly the `n` frames from `frame` on are buffered, in sequence. */
  ghost predicate HoldsRun(rx: Rx, frame: nat, shift: int, n: nat) {
    && (forall f :: f in rx.buffer <==> frame <= f < frame + n)
    && (forall f :: f in rx.buffer ==> rx.buffer[f].seqNo == SeqFor(shift, f))
  }

  lemma {:induction false} RunSize(rx: Rx, frame: nat, shift: int, n: nat)
    requires HoldsRun(rx, frame, shift, n)
    ensures |rx.buffer| == n
    decreases n
  {
    hide SeqFor;
    if n > 0 {
      var last := frame + n - 1;
      var r := rx.(buffer := rx.buffer - {last});
      assert rx.buffer.Keys == r.buffer.Keys + {last};
      RunSize(r, frame, shift, n - 1);
    } else {
      assert rx.buffer.Keys == {};
    }
  }

  /** An insert that moves forward and fits under the trim depth just adds its frame. */
  lemma {:induction false} PlainInsert(rx: Rx, seqNo: nat, frame: nat, opus: Opus, now: real)
    requires Good(rx) && rx.started && rx.nextPlay <= frame && frame !in rx.buffer
    requires |rx.buffer| < MIN_TARGET_FRAMES + DRIFT_DROP_SLACK
    ensures var r := Insert(rx, seqNo, frame * FRAME_US, opus, now);
      && r.buffer == rx.buffer[frame := Packet(seqNo, opus, rx.book.received)] && r.started
      && r.nextPlay == rx.nextPlay && r.lastSeq == rx.lastSeq && r.lastFrame == rx.lastFrame && r.eos == rx.eos
      && Good(r)
  {
    InsertKeeps(rx, seqNo, frame * FRAME_US, opus, now);
    ReceivedGood(rx, frame * FRAME_US / FRAME_US, Insert(rx, seqNo, frame * FRAME_US, opus, now));
    var u := UpdateJitter(rx.(book := rx.book.(received := rx.book.received + 1)), frame, now);
    UpdatedSame(rx, frame, now);
    FrameOfTimestamp(frame);
    var p := Packet(seqNo, opus, rx.book.received);
    hide Ledger, NextJitter, TargetFor, Depth, Received, Good;
    StoredAnchored(u, frame, p);
    DepthIsAll(Stored(u, frame, p));
  }

  lemma {:induction false} FrameOfTimestamp(frame: nat)
    ensures (frame * FRAME_US) / FRAME_US == frame
  {
  }

  /** The state `n` frames into the burst: all of them held, the cursor and the gap bookkeeping untouched. */
  ghost predicate Absorbed(rx: Rx, r: Rx, frame: nat, shift: int, n: nat) {
    && Good(r) && HoldsRun(r, frame, shift, n) && r.started
    && r.nextPlay == rx.nextPlay && r.lastSeq == rx.lastSeq && r.lastFrame == rx.lastFrame && r.eos == rx.eos
  }

  lemma {:induction false} AbsorbOne(rx: Rx, r: Rx, frame: nat, shift: int, n: nat, opus: Opus, now: real)
    requires Absorbed(rx, r, frame, shift, n) && rx.nextPlay <= frame && n <= PreRoll.PRE_ROLL_FRAMES
    ensures Absorbed(rx, Insert(r, SeqFor(shift, frame + n), (frame + n) * FRAME_US, opus, now), frame, shift, n + 1)
  {
    hide Good, Insert, SeqFor, HoldsRun;
    var f := frame + n;
    RunSize(r, frame, shift, n);
    BeyondRun(r, frame, shift, n);
    PlainInsert(r, SeqFor(shift, f), f, opus, now);
    RunGrows(r, Insert(r, SeqFor(shift, f), f * FRAME_US, opus, now), frame, shift, n);
  }

  lemma {:induction false} BeyondRun(r: Rx, frame: nat, shift: int, n: nat)
    requires HoldsRun(r, frame, shift, n)
    ensures frame + n !in r.buffer
  {
  }

  lemma {:induction false} RunGrows(r: Rx, r': Rx, frame: nat, shift: int, n: nat)
    requires HoldsRun(r, frame, shift, n) && frame + n in r'.buffer
    requires r'.buffer == r.buffer[frame + n := r'.buffer[frame + n]]
    requires r'.buffer[frame + n].seqNo == SeqFor(shift, frame + n)
    ensures HoldsRun(r', frame, shift, n + 1)
  {
    hide SeqFor;
  }

  /**
   Burst absorption: from a started, drained buffer whose cursor is not past the burst, the five ring frames and the
   frame that opened the gate are all held, the cursor does not move, and no frame is trimmed, whatever the target.
   */
  lemma {:induction false} BurstAbsorbed(rx: Rx, frame: nat, shift: int, datas: seq<(Opus, real)>)
    requires Good(rx) && rx.started && rx.buffer == map[] && rx.nextPlay <= frame
    requires |datas| <= PreRoll.PRE_ROLL_FRAMES + 1
    ensures Absorbed(rx, InsertBurst(rx, frame, shift, datas), frame, shift, |datas|)
    decreases |datas|
  {
    hide Good, Insert, SeqFor;
    if datas != [] {
      hide Absorbed;
      var n := |datas| - 1;
      BurstAbsorbed(rx, frame, shift, datas[..n]);
      AbsorbOne(rx, InsertBurst(rx, frame, shift, datas[..n]), frame, shift, n, datas[n].0, datas[n].1);
    }
  }

  /** Decoding on several ticks in a row. */
  ghost function DecodeAll(rx: Rx, ticks: seq<(real, bool, bool)>): (Rx, seq<Outcome>) {
    if ticks == [] then (rx, [])
    else
      var n := |ticks| - 1;
      var (r, os) := DecodeAll(rx, ticks[..n]);
      var (r', o) := Decode(r, ticks[n].0, ticks[n].1, ticks[n].2);
      (r', os + [o])
  }

  /** The outcome at frame `f` came from decoding that frame's own packet. */
  predicate FromFrame(o: Outcome, f: nat, decodeOk: bool) {
    if decodeOk then o.Played? && o.frame == f else o == DecodeFailed(f)
  }

  /** A run of `m` frames stands at the cursor and may be played. */
  ghost predicate RunAtCursor(rx: Rx, shift: int, m: nat) {
    Good(rx) && HoldsRun(rx, rx.nextPlay, shift, m) && ReadyToPlay(rx)
  }

  /** The outcomes are those of the frames from `from` on, one a tick, each from the packet buffered for it. */
  ghost predicate InTurn(os: seq<Outcome>, from: nat, b: map<nat, Packet>, ticks: seq<(real, bool, bool)>) {
    && |os| == |ticks|
    && (forall i :: 0 <= i < |os| ==> FromFrame(os[i], from + i, ticks[i].1))
    && (forall i :: 0 <= i < |os| && os[i].Played? ==> from + i in b && os[i].packet == b[from + i])
  }

  /** With a run at the cursor, playout is straight: each tick decodes the next frame of the run. */
  lemma {:induction false} PlaysThrough(rx: Rx, shift: int, m: nat, ticks: seq<(real, bool, bool)>)
    requires RunAtCursor(rx, shift, m) && |ticks| <= m
    ensures var (r, os) := DecodeAll(rx, ticks);
      && InTurn(os, rx.nextPlay, rx.buffer, ticks)
      && (forall f :: f in r.buffer ==> f in rx.buffer && r.buffer[f] == rx.buffer[f])
      && r.nextPlay == rx.nextPlay + |ticks| && RunAtCursor(r, shift, m - |ticks|)
    decreases |ticks|
  {
    hide RunAtCursor, Decode, FromFrame;
    if ticks != [] {
      var n := |ticks| - 1;
      PlaysThrough(rx, shift, m, ticks[..n]);
      PlaysOne(DecodeAll(rx, ticks[..n]).0, shift, m - n, ticks[n].0, ticks[n].1, ticks[n].2);
    }
  }

  lemma {:induction false} PlaysOne(rx: Rx, shift: int, m: nat, now: real, decodeOk: bool, fecOk: bool)
    requires RunAtCursor(rx, shift, m) && m > 0
    ensures var (r, o) := Decode(rx, now, decodeOk, fecOk);
      && FromFrame(o, rx.nextPlay, decodeOk) && r.nextPlay == rx.nextPlay + 1 && RunAtCursor(r, shift, m - 1)
      && rx.nextPlay in rx.buffer && (o.Played? ==> o.packet == rx.buffer[rx.nextPlay])
      && r.buffer == rx.buffer - {rx.nextPlay}
  {
    hide Good, SeqFor, Decode, Depth, FromFrame;
    assert rx.nextPlay in rx.buffer;
    hide HoldsRun;
    var r := Decode(rx, now, decodeOk, fecOk).0;
    DecodeAtCursor(rx, now, decodeOk, fecOk);
    RunShrinks(rx, r, rx.nextPlay, shift, m);
    hide Kept;
    DecodeKeeps(rx, now, decodeOk, fecOk);
    KeptGood(rx, r);
  }

  lemma {:induction false} DecodeAtCursor(rx: Rx, now: real, decodeOk: bool, fecOk: bool)
    requires ReadyToPlay(rx) && rx.nextPlay in rx.buffer
    ensures var (r, o) := Decode(rx, now, decodeOk, fecOk);
      && FromFrame(o, rx.nextPlay, decodeOk) && (o.Played? ==> o.packet == rx.buffer[rx.nextPlay])
      && r.buffer == rx.buffer - {rx.nextPlay} && r.started && r.nextPlay == rx.nextPlay + 1
  {
    hide Stale, AtGap, StillAhead, Depth;
  }

  lemma {:induction false} RunShrinks(r: Rx, r': Rx, frame: nat, shift: int, n: nat)
    requires HoldsRun(r, frame, shift, n) && n > 0 && r'.buffer == r.buffer - {frame}
    ensures HoldsRun(r', frame + 1, shift, n - 1)
  {
    hide SeqFor;
  }

  /** A burst that starts ahead of the cursor leaves a gap whose far end is its first frame. */
  lemma {:induction false} GapBeforeRun(r: Rx, frame: nat, shift: int, n: nat)
    requires Good(r) && HoldsRun(r, frame, shift, n) && 0 < n && r.nextPlay < frame
    ensures r.nextPlay !in r.buffer && r.buffer != map[] && Ahead(r) == r.buffer && MinKey(r.buffer) == frame
    ensures r.buffer[frame].seqNo == SeqFor(shift, frame) && |r.buffer| == n
    ensures (set f | f in r.buffer && f >= frame) == r.buffer.Keys
  {
    assert frame in r.buffer;
    AheadIsAll(r);
    RunSize(r, frame, shift, n);
  }

  /**
   The tick after the burst, when it starts ahead of the cursor: playout re-anchors at exactly the first flushed frame
   if and only if the gap reads as silence, and then starts as soon as the target allows. (When it starts at the cursor,
   PlaysThrough applies.)
   */
  lemma {:induction false} AfterBurst(rx: Rx, r: Rx, frame: nat, shift: int, n: nat, now: real, decodeOk: bool, fecOk: bool)
    requires Absorbed(rx, r, frame, shift, n) && 0 < n && rx.nextPlay < frame
    ensures var (r', o) := Decode(r, now, decodeOk, fecOk);
      && (o == Reanchored(frame) <==> ReadsAsSilence(rx, frame, SeqFor(shift, frame)))
      && (o == Reanchored(frame) ==> r'.nextPlay == frame && HoldsRun(r', frame, shift, n)
                                       && (ReadyToPlay(r') <==> r'.target <= n))
  {
    GapBeforeRun(r, frame, shift, n);
    hide Good, Stale, StillAhead, HoldsRun, SeqFor, EosInSpan, WrappingSub;
    var q := r.(ended := r.ended || Stale(r, now), prime := false);
    assert Ahead(q) == Ahead(r);
    assert Decode(r, now, decodeOk, fecOk) == AtGap(q, fecOk);
    RunKept(r, Reanchor(q, frame), frame, shift, n);
  }

  lemma {:induction false} RunKept(r: Rx, r': Rx, frame: nat, shift: int, n: nat)
    requires HoldsRun(r, frame, shift, n) && r'.buffer == r.buffer
    ensures HoldsRun(r', frame, shift, n)
  {
  }
}
