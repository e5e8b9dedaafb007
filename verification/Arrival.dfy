/** What an arriving packet does to the buffer and to the delay it is given, and a fresh spurt from its first packet on. */
module Arrival {
  import opened MediaClock
  import opened JitterBuffer
  import opened JitterRuns
  import opened Playout

  // ---- The buffer

  /** Of the frames of `b` the newest `room` stay, with their packets. */
  ghost predicate NewestStay(b: map<nat, Packet>, kept: map<nat, Packet>, room: nat) {
    && (forall f :: f in kept ==> f in b && kept[f] == b[f])
    && |kept| == (if |b| <= room then |b| else room)
    && (forall f, g :: f in b && f !in kept && g in kept ==> f < g)
  }

  /** While playing the cursor stays, or is pushed just past the newest frame that went. */
  ghost predicate CursorPushed(b: map<nat, Packet>, kept: map<nat, Packet>, before: nat, after: nat) {
    && before <= after && (forall f :: f in b && f !in kept ==> f < after)
    && (after == before || (after - 1 in b && after - 1 !in kept))
  }

  /** The frame joins the others, as far as the depth allows: near the target while playing, 20 while buffering. */
  ghost predicate Joins(rx: Rx, frame: nat, p: Packet, r: Rx) {
    var b := rx.buffer[frame := p];
    && NewestStay(b, r.buffer, if rx.started then r.target + DRIFT_DROP_SLACK else JITTER_BUFFER_MAX_PACKETS)
    && r.started == rx.started && !r.ended && r.late == 0 && r.prime == rx.prime && r.eos == rx.eos
    && r.lastSeq == rx.lastSeq && r.lastFrame == rx.lastFrame && r.stats == rx.stats
    && (if rx.started then CursorPushed(b, r.buffer, rx.nextPlay, r.nextPlay)
        else r.nextPlay in r.buffer && forall f :: f in r.buffer ==> r.nextPlay <= f)
  }

  /** The stream starts over: this packet is all there is, and playout waits for more. */
  ghost predicate StartsOver(rx: Rx, frame: nat, p: Packet, r: Rx) {
    && r.buffer == map[frame := p] && r.nextPlay == frame && !r.started && r.prime && r.eos == []
    && !r.ended && r.late == 0 && r.stats == rx.stats
  }

  /** The packet is dropped and counted; nothing else of the playout moves. */
  ghost predicate PassedOver(rx: Rx, r: Rx) {
    && r.buffer == rx.buffer && r.nextPlay == rx.nextPlay && r.started && r.late == rx.late + 1 && r.ended == rx.ended
    && r.prime == rx.prime && r.eos == rx.eos && r.lastSeq == rx.lastSeq && r.lastFrame == rx.lastFrame && r.stats == rx.stats
  }

  lemma {:induction false} PushedTrans(a: map<nat, Packet>, b: map<nat, Packet>, c: map<nat, Packet>, x: nat, y: nat, z: nat)
    requires CursorPushed(a, b, x, y) && CursorPushed(b, c, y, z)
    requires forall f :: f in b ==> f in a
    requires forall f :: f in c ==> f in b
    ensures CursorPushed(a, c, x, z)
  {
  }

  lemma {:induction false} DropPushes(rx: Rx)
    requires Anchored(rx) && rx.started && rx.buffer != map[]
    ensures var d := DropOldest(rx);
      && d.started && CursorPushed(rx.buffer, d.buffer, rx.nextPlay, d.nextPlay)
      && forall f :: f in d.buffer ==> f in rx.buffer
  {
  }

  lemma {:induction false} TrimPushes(rx: Rx)
    requires Anchored(rx) && Ledger(rx.buffer, rx.book) && rx.started
    ensures CursorPushed(rx.buffer, Trim(rx).buffer, rx.nextPlay, Trim(rx).nextPlay)
    decreases |rx.buffer|
  {
    if TooDeep(rx) {
      hide Anchored, Ledger, KeepsFates, CursorPushed, MinKey;
      TooDeepHasOldest(rx);
      DropPushes(rx);
      DropOldestKeeps(rx);
      hide DropOldest, TooDeep;
      TrimPushes(DropOldest(rx));
      TrimKeeps(DropOldest(rx));
      hide OldestWent;
      PushedTrans(rx.buffer, DropOldest(rx).buffer, Trim(rx).buffer, rx.nextPlay, DropOldest(rx).nextPlay, Trim(rx).nextPlay);
    } else {
      hide Anchored, Ledger, TooDeep;
    }
  }

  /** The state ready to take packet `p` in at `frame`, ahead of the cursor or while buffering. */
  ghost predicate Ready(rx: Rx, frame: nat, p: Packet) {
    Limits(rx) && Anchored(rx) && (rx.started ==> rx.nextPlay <= frame) && Arriving(rx, p)
  }

  lemma {:induction false} TrimmedStays(s: Rx)
    requires Anchored(s) && Ledger(s.buffer, s.book)
    ensures NewestStay(s.buffer, Trim(s).buffer, Room(s)) && OnlyTrimmed(s, Trim(s)) && Anchored(Trim(s))
    ensures |s.buffer| > 0 && Room(s) > 0 ==> Trim(s).buffer != map[]
  {
    hide Anchored, Ledger, Room, Trim;
    TrimKeeps(s);
    TooDeepIs(s);
    hide TooDeep, KeepsFates, MaxDepth;
  }

  lemma {:induction false} StoredIs(rx: Rx, frame: nat, p: Packet)
    ensures var s := Stored(rx, frame, p);
      && s == rx.(buffer := rx.buffer[frame := p], nextPlay := s.nextPlay, late := 0, ended := false, book := s.book)
      && (rx.started ==> s.nextPlay == rx.nextPlay)
  {
    hide MinKey;
  }

  lemma {:induction false} RoomIs(rx: Rx)
    requires Limits(rx)
    ensures Room(rx) == if rx.started then rx.target + DRIFT_DROP_SLACK else JITTER_BUFFER_MAX_PACKETS
  {
  }

  /** `s` is `rx` with the packet taken in, and the depth allows `room` frames. */
  ghost predicate TookIn(rx: Rx, frame: nat, p: Packet, s: Rx, room: nat) {
    && s == rx.(buffer := rx.buffer[frame := p], nextPlay := s.nextPlay, late := 0, ended := false, book := s.book)
    && (rx.started ==> s.nextPlay == rx.nextPlay)
    && room == if rx.started then rx.target + DRIFT_DROP_SLACK else JITTER_BUFFER_MAX_PACKETS
  }

  /** `r` is `s` trimmed. */
  ghost predicate Shortened(s: Rx, r: Rx, room: nat) {
    && r == s.(buffer := r.buffer, nextPlay := r.nextPlay, book := r.book) && NewestStay(s.buffer, r.buffer, room)
    && (if s.started then CursorPushed(s.buffer, r.buffer, s.nextPlay, r.nextPlay)
        else r.nextPlay in r.buffer && forall f :: f in r.buffer ==> r.nextPlay <= f)
  }

  lemma {:induction false} TrimShortens(s: Rx)
    requires Anchored(s) && Ledger(s.buffer, s.book) && s.buffer != map[] && Room(s) > 0
    ensures Shortened(s, Trim(s), Room(s))
  {
    hide Ledger, Room, NewestStay, CursorPushed, Trim, KeepsFates;
    assert |s.buffer| > 0;
    TrimmedStays(s);
    if s.started {
      TrimPushes(s);
    }
  }

  lemma {:induction false} TakenInAs(rx: Rx, frame: nat, p: Packet)
    requires Ready(rx, frame, p)
    ensures var s := Stored(rx, frame, p);
      TookIn(rx, frame, p, s, Room(s)) && Anchored(s) && Ledger(s.buffer, s.book) && s.buffer != map[] && Room(s) > 0
  {
    var s := Stored(rx, frame, p);
    StoredAnchored(rx, frame, p);
    StoredLedger(rx, frame, p);
    StoredIs(rx, frame, p);
    hide Stored, Arriving, Ledger, Room, Anchored, KeepsFates;
    assert Limits(s);
    RoomIs(s);
    hide Limits;
    assert frame in s.buffer;
  }

  lemma {:induction false} JoinsFrom(rx: Rx, frame: nat, p: Packet, s: Rx, r: Rx, room: nat)
    requires TookIn(rx, frame, p, s, room) && Shortened(s, r, room)
    ensures Joins(rx, frame, p, r) && r.estimate == rx.estimate && r.target == rx.target && r.base == rx.base
  {
    hide NewestStay, CursorPushed;
  }

  lemma {:induction false} AcceptJoins(rx: Rx, frame: nat, p: Packet)
    requires Ready(rx, frame, p)
    ensures Joins(rx, frame, p, Accept(rx, frame, p))
    ensures var r := Accept(rx, frame, p); r.estimate == rx.estimate && r.target == rx.target && r.base == rx.base
  {
    hide Ready, Stored, Ledger, Trim, Room, Anchored, TookIn, Shortened, Joins;
    var s := Stored(rx, frame, p);
    TakenInAs(rx, frame, p);
    TrimShortens(s);
    JoinsFrom(rx, frame, p, s, Trim(s), Room(s));
  }

  lemma {:induction false} AcceptAlone(rx: Rx, frame: nat, p: Packet)
    requires Ready(rx, frame, p) && rx.buffer == map[] && !rx.started
    ensures Accept(rx, frame, p).buffer == map[frame := p] && Accept(rx, frame, p).nextPlay == frame
  {
    AcceptJoins(rx, frame, p);
    hide Ready, Accept;
    var kept := Accept(rx, frame, p).buffer;
    var b := rx.buffer[frame := p];
    assert b == map[frame := p] && |b| == 1;
    assert kept.Keys <= b.Keys;
    Sets.SubsetSize(kept.Keys, b.Keys);
    assert kept == b;
  }

  // ---- The delay

  /** How far the gap between two arrivals is off the media time between their frames, in microseconds. */
  function Deviation(elapsedUs: real, frames: nat): (d: real)
    ensures d >= 0.0
  {
    var elapsed := if elapsedUs < 0.0 then 0 else elapsedUs.Floor;
    (if elapsed < frames * FRAME_US then frames * FRAME_US - elapsed else elapsed - frames * FRAME_US) as real
  }

  /** The target is the least whole number of frames that covers the base delay and twice the jitter, if that is 2..12. */
  ghost predicate Covers(target: nat, base: nat, jitterUs: real) {
    var needed := base as real + 2.0 * jitterUs / (FRAME_US as real);
    && MIN_TARGET_FRAMES <= target <= MAX_TARGET_FRAMES
    && (target < MAX_TARGET_FRAMES ==> needed <= target as real)
    && (target > MIN_TARGET_FRAMES ==> (target - 1) as real < needed)
  }

  /** The estimate moves a sixteenth of the way to the deviation just seen. */
  ghost predicate Approaches(before: real, after: real, deviation: real) {
    16.0 * (after - deviation) == 15.0 * (before - deviation)
  }

  /** Only an arrival ahead of the one before it is measured; every arrival is remembered. */
  ghost predicate Measured(rx: Rx, frame: nat, now: real, r: Rx) {
    var e, e' := rx.estimate, r.estimate;
    && r.base == rx.base && e'.haveArrival && e'.lastArrival == now && e'.lastArrivalFrame == frame
    && (if e.haveArrival && e.lastArrivalFrame < frame
        then Approaches(e.jitterUs, e'.jitterUs, Deviation(now - e.lastArrival, frame - e.lastArrivalFrame))
             && Covers(r.target, rx.base, e'.jitterUs)
        else e'.jitterUs == e.jitterUs && r.target == rx.target)
  }

  lemma {:induction false} JitterApproaches(jitterUs: real, elapsedUs: real, frames: nat)
    ensures Approaches(jitterUs, NextJitter(jitterUs, elapsedUs, frames), Deviation(elapsedUs, frames))
  {
    var d := Deviation(elapsedUs, frames);
    assert NextJitter(jitterUs, elapsedUs, frames) == jitterUs + (d - jitterUs) / 16.0;
  }

  lemma {:induction false} TargetCovers(base: nat, jitterUs: real)
    ensures Covers(TargetFor(base, jitterUs), base, jitterUs)
  {
    var extra := 2.0 * jitterUs / (FRAME_US as real);
    var up := -(-extra).Floor;
    assert (up - 1) as real < extra <= up as real;
  }

  lemma {:induction false} UpdateMeasures(rx: Rx, frame: nat, now: real)
    ensures var u := UpdateJitter(rx, frame, now);
      && Measured(rx, frame, now, u) && u == rx.(estimate := u.estimate, target := u.target)
  {
    var e := rx.estimate;
    if e.haveArrival && e.lastArrivalFrame < frame {
      JitterApproaches(e.jitterUs, now - e.lastArrival, frame - e.lastArrivalFrame);
      TargetCovers(rx.base, UpdateJitter(rx, frame, now).estimate.jitterUs);
    }
    hide NextJitter, TargetFor, Approaches, Covers, Deviation;
  }

  // ---- One packet

  /** The state as it is when a packet is placed: counted and measured. */
  ghost predicate Counted(rx: Rx, u: Rx) {
    u == rx.(book := rx.book.(received := rx.book.received + 1), estimate := u.estimate, target := u.target)
  }

  lemma {:induction false} PlacedDoes(rx: Rx, frame: nat, p: Packet)
    requires Inv(rx) && Arriving(rx, p)
    ensures var r := Placed(rx, frame, p);
      && r.estimate == rx.estimate && r.target == rx.target && r.base == rx.base
      && (if !rx.started || rx.nextPlay <= frame then Joins(rx, frame, p, r)
          else if rx.nextPlay <= frame + RESTART_BACKWARD_FRAMES && rx.late < LATE_RESYNC_FRAMES then PassedOver(rx, r)
          else StartsOver(rx, frame, p, r))
  {
    assert !rx.started || rx.nextPlay <= frame ==> Ready(rx, frame, p);
    hide Accept, Ledger, Limits, Anchored, Joins, Ready, ClearedBuffer;
    if !rx.started || rx.nextPlay <= frame {
      AcceptJoins(rx, frame, p);
    } else if !(rx.nextPlay <= frame + RESTART_BACKWARD_FRAMES && rx.late < LATE_RESYNC_FRAMES) {
      OverAgain(rx, frame, p);
    }
  }

  lemma {:induction false} OverAgain(rx: Rx, frame: nat, p: Packet)
    requires Inv(rx) && Arriving(rx, p)
    ensures var r := Accept(Reanchor(ClearedBuffer(rx), frame), frame, p);
      StartsOver(rx, frame, p, r) && r.estimate == rx.estimate && r.target == rx.target && r.base == rx.base
  {
    var c := Reanchor(ClearedBuffer(rx), frame);
    AllCleared(rx.buffer, rx.book.(received := p.arrival));
    assert Ready(c, frame, p);
    hide Ready, Accept, Ledger, FatesOf, NewestStay;
    AcceptAlone(c, frame, p);
    AcceptJoins(c, frame, p);
  }

  lemma {:induction false} CountedSame(rx: Rx, u: Rx, frame: nat, p: Packet, r: Rx)
    requires Counted(rx, u) && r.target == u.target
    ensures Joins(u, frame, p, r) == Joins(rx, frame, p, r) && PassedOver(u, r) == PassedOver(rx, r)
    ensures StartsOver(u, frame, p, r) == StartsOver(rx, frame, p, r)
  {
    hide NewestStay, CursorPushed;
  }

  /**
   What one packet does, by where its frame lies: ahead of the cursor, or while playout waits, it joins the others, the
   newest of which stay; a little behind it is passed over; far behind, or as the eleventh behind in a row, it starts the
   stream over.
   */
  ghost predicate TakesPacket(rx: Rx, seqNo: nat, timestampUs: nat, opus: Opus, now: real, r: Rx) {
    var frame, p := timestampUs / FRAME_US, Packet(seqNo, opus, rx.book.received);
    && Measured(rx, frame, now, r)
    && (if !rx.started || rx.nextPlay <= frame then Joins(rx, frame, p, r)
        else if rx.nextPlay <= frame + RESTART_BACKWARD_FRAMES && rx.late < LATE_RESYNC_FRAMES then PassedOver(rx, r)
        else StartsOver(rx, frame, p, r))
  }

  lemma {:induction false} InsertDoes(rx: Rx, seqNo: nat, timestampUs: nat, opus: Opus, now: real)
    requires Good(rx)
    ensures TakesPacket(rx, seqNo, timestampUs, opus, now, Insert(rx, seqNo, timestampUs, opus, now))
  {
    hide UpdateJitter, Placed, Ledger, Inv, Balanced, Joins, PassedOver, StartsOver, Approaches, Covers, Deviation;
    var frame, p := timestampUs / FRAME_US, Packet(seqNo, opus, rx.book.received);
    var c := rx.(book := rx.book.(received := rx.book.received + 1));
    var u := UpdateJitter(c, frame, now);
    UpdatedSame(rx, frame, now);
    UpdateMeasures(c, frame, now);
    assert u.book.(received := p.arrival) == rx.book;
    PlacedDoes(u, frame, p);
    CountedSame(rx, u, frame, p, Placed(u, frame, p));
  }

  // ---- A fresh spurt

  /** `n` frames from `frame` on are held and playout waits on the first, each with the payload sent for it. */
  ghost predicate Gathered(r: Rx, frame: nat, shift: int, datas: seq<(Opus, real)>) {
    && Good(r) && !r.started && HoldsRun(r, frame, shift, |datas|) && (datas != [] ==> r.nextPlay == frame && !r.ended)
    && (forall i :: 0 <= i < |datas| && frame + i in r.buffer ==> r.buffer[frame + i].opus == datas[i].0)
  }

  lemma {:induction false} AllStay(b: map<nat, Packet>, kept: map<nat, Packet>, room: nat)
    requires NewestStay(b, kept, room) && |b| <= room
    ensures kept == b
  {
    assert kept.Keys <= b.Keys;
    Sets.SubsetSize(kept.Keys, b.Keys);
  }

  lemma {:induction false} RunUpdated(rx: Rx, r: Rx, frame: nat, shift: int, n: nat, p: Packet)
    requires HoldsRun(rx, frame, shift, n) && p.seqNo == SeqFor(shift, frame + n)
    requires r.buffer == rx.buffer[frame + n := p]
    ensures HoldsRun(r, frame, shift, n + 1) && |rx.buffer[frame + n := p]| == n + 1
  {
    hide SeqFor;
    RunGrows(rx, r, frame, shift, n);
    RunSize(r, frame, shift, n + 1);
  }

  lemma {:induction false} GatherOne(rx: Rx, frame: nat, shift: int, datas: seq<(Opus, real)>)
    requires datas != [] && |datas| <= JITTER_BUFFER_MAX_PACKETS
    requires Gathered(rx, frame, shift, datas[..|datas| - 1])
    ensures var n := |datas| - 1;
      Gathered(Insert(rx, SeqFor(shift, frame + n), (frame + n) * FRAME_US, datas[n].0, datas[n].1), frame, shift, datas)
  {
    hide Good, Insert, SeqFor, HoldsRun, Measured, NewestStay, Received;
    var n := |datas| - 1;
    var seqNo, t := SeqFor(shift, frame + n), (frame + n) * FRAME_US;
    var p := Packet(seqNo, datas[n].0, rx.book.received);
    var r := Insert(rx, seqNo, t, datas[n].0, datas[n].1);
    InsertDoes(rx, seqNo, t, datas[n].0, datas[n].1);
    InsertKeeps(rx, seqNo, t, datas[n].0, datas[n].1);
    ReceivedGood(rx, t / FRAME_US, r);
    FrameOfTimestamp(frame + n);
    var grown := rx.(buffer := rx.buffer[frame + n := p]);
    RunUpdated(rx, grown, frame, shift, n, p);
    AllStay(grown.buffer, r.buffer, JITTER_BUFFER_MAX_PACKETS);
    RunKept(grown, r, frame, shift, n + 1);
    FirstOfRun(r, frame, shift, n + 1);
  }

  lemma {:induction false} FirstOfRun(r: Rx, frame: nat, shift: int, n: nat)
    requires HoldsRun(r, frame, shift, n) && n > 0
    ensures frame in r.buffer && forall f :: f in r.buffer ==> frame <= f
  {
  }

  /** While playout waits on an empty buffer, up to twenty consecutive frames are all held, on whatever clock they start. */
  lemma {:induction false} SpurtGathers(rx: Rx, frame: nat, shift: int, datas: seq<(Opus, real)>)
    requires Good(rx) && !rx.started && rx.buffer == map[] && |datas| <= JITTER_BUFFER_MAX_PACKETS
    ensures Gathered(InsertBurst(rx, frame, shift, datas), frame, shift, datas)
    decreases |datas|
  {
    hide Good, Insert, SeqFor;
    if datas != [] {
      hide Gathered;
      SpurtGathers(rx, frame, shift, datas[..|datas| - 1]);
      GatherOne(InsertBurst(rx, frame, shift, datas[..|datas| - 1]), frame, shift, datas);
    }
  }

  /** Frame `i` of the spurt is heard on tick `i`, or its decoder failed on it. */
  ghost predicate Heard(os: seq<Outcome>, frame: nat, datas: seq<(Opus, real)>, ticks: seq<(real, bool, bool)>) {
    && |os| == |ticks| <= |datas|
    && forall i :: 0 <= i < |os| ==>
         (if ticks[i].1 then os[i].Played? && os[i].frame == frame + i && os[i].packet.opus == datas[i].0
          else os[i] == DecodeFailed(frame + i))
  }

  lemma {:induction false} TurnIsHeard(r: Rx, os: seq<Outcome>, frame: nat, shift: int, datas: seq<(Opus, real)>,
                                       ticks: seq<(real, bool, bool)>)
    requires Gathered(r, frame, shift, datas) && InTurn(os, frame, r.buffer, ticks) && |ticks| <= |datas|
    ensures Heard(os, frame, datas, ticks)
  {
    hide Good, HoldsRun;
    forall i | 0 <= i < |os|
      ensures if ticks[i].1 then os[i].Played? && os[i].frame == frame + i && os[i].packet.opus == datas[i].0
              else os[i] == DecodeFailed(frame + i)
    {
      assert FromFrame(os[i], frame + i, ticks[i].1);
    }
  }

  lemma {:induction false} GatheredPlays(r: Rx, frame: nat, shift: int, datas: seq<(Opus, real)>,
                                         ticks: seq<(real, bool, bool)>)
    requires Gathered(r, frame, shift, datas) && datas != [] && |ticks| <= |datas| && r.target <= |datas|
    ensures Heard(DecodeAll(r, ticks).1, frame, datas, ticks)
  {
    hide Good, HoldsRun, DecodeAll, Depth, InTurn, Heard;
    DepthOfRun(r, frame, shift, |datas|);
    PlaysThrough(r, shift, |datas|, ticks);
    TurnIsHeard(r, DecodeAll(r, ticks).1, frame, shift, datas, ticks);
  }

  lemma {:induction false} DepthOfRun(r: Rx, frame: nat, shift: int, n: nat)
    requires Good(r) && HoldsRun(r, frame, shift, n)
    ensures Depth(r) == n
  {
    DepthIsAll(r);
    RunSize(r, frame, shift, n);
    hide Good, HoldsRun, Depth;
  }

  /**
   A fresh spurt, from its first packet to the ear: as soon as as many consecutive frames have come as the target asks
   for, the ticks play them from the first one on, each from its own packet; until then a tick is silent and changes nothing.
   */
  lemma {:induction false} SpurtIsHeard(rx: Rx, frame: nat, shift: int, datas: seq<(Opus, real)>,
                                        ticks: seq<(real, bool, bool)>)
    requires Good(rx) && !rx.started && rx.buffer == map[] && datas != [] && |datas| <= JITTER_BUFFER_MAX_PACKETS
    requires |ticks| <= |datas|
    ensures var r := InsertBurst(rx, frame, shift, datas);
      if r.target <= |datas| then Heard(DecodeAll(r, ticks).1, frame, datas, ticks)
      else forall now, decodeOk, fecOk :: Decode(r, now, decodeOk, fecOk) == (r, Silent)
  {
    hide Good, InsertBurst, Heard, DecodeAll, Depth, Stale, PlayFrame, AtGap;
    var r := InsertBurst(rx, frame, shift, datas);
    SpurtGathers(rx, frame, shift, datas);
    if r.target <= |datas| {
      GatheredPlays(r, frame, shift, datas, ticks);
    } else {
      hide HoldsRun;
      DepthOfRun(r, frame, shift, |datas|);
    }
  }

  // ---- Pacing

  function Pow(x: real, n: nat): real {
    if n == 0 then 1.0 else x * Pow(x, n - 1)
  }

  /** One frame after the other, each `gapUs` after the one before, the first after an arrival of the frame before it. */
  ghost predicate Paced(e: Estimate, frame: nat, datas: seq<(Opus, real)>, gapUs: nat) {
    && e.haveArrival && e.lastArrivalFrame + 1 == frame
    && forall i {:trigger datas[i]} :: 0 <= i < |datas| ==>
         datas[i].1 == (if i == 0 then e.lastArrival else datas[i - 1].1) + gapUs as real
  }

  /** The last arrival was the frame before `frame`, at the time of the last of `datas`. */
  ghost predicate LastWas(rx: Rx, r: Rx, frame: nat, datas: seq<(Opus, real)>) {
    && r.estimate.haveArrival && r.estimate.lastArrivalFrame + 1 == frame + |datas| && r.base == rx.base
    && r.estimate.lastArrival == if datas == [] then rx.estimate.lastArrival else datas[|datas| - 1].1
  }

  function OffBy(gapUs: nat): real {
    (if gapUs < FRAME_US then FRAME_US - gapUs else gapUs - FRAME_US) as real
  }

  lemma {:induction false} OffIsDeviation(a: real, gapUs: nat)
    ensures Deviation(a + gapUs as real - a, 1) == OffBy(gapUs)
  {
    assert a + gapUs as real - a == gapUs as real;
    assert (gapUs as real).Floor == gapUs;
  }

  lemma {:induction false} PacedOne(rx: Rx, frame: nat, shift: int, datas: seq<(Opus, real)>, gapUs: nat, r: Rx)
    requires Good(r) && datas != [] && Paced(rx.estimate, frame, datas, gapUs) && LastWas(rx, r, frame, datas[..|datas| - 1])
    ensures var n := |datas| - 1;
      var r' := Insert(r, SeqFor(shift, frame + n), (frame + n) * FRAME_US, datas[n].0, datas[n].1);
      && Good(r') && LastWas(rx, r', frame, datas)
      && Approaches(r.estimate.jitterUs, r'.estimate.jitterUs, OffBy(gapUs))
      && Covers(r'.target, rx.base, r'.estimate.jitterUs)
  {
    hide Good, Insert, SeqFor, Joins, PassedOver, StartsOver, Received, Covers, Approaches, Deviation, OffBy;
    var n := |datas| - 1;
    var seqNo, t := SeqFor(shift, frame + n), (frame + n) * FRAME_US;
    InsertDoes(r, seqNo, t, datas[n].0, datas[n].1);
    InsertKeeps(r, seqNo, t, datas[n].0, datas[n].1);
    ReceivedGood(r, t / FRAME_US, Insert(r, seqNo, t, datas[n].0, datas[n].1));
    FrameOfTimestamp(frame + n);
    OffIsDeviation(r.estimate.lastArrival, gapUs);
    assert datas[n].1 == r.estimate.lastArrival + gapUs as real;
  }

  /** The estimate after `n` arrivals that all deviate by `off`: each leaves fifteen sixteenths of what was missing. */
  ghost predicate Drawn(before: real, after: real, off: real, n: nat) {
    after - off == Pow(15.0 / 16.0, n) * (before - off)
  }

  lemma {:induction false} DrawnOnce(before: real, mid: real, after: real, off: real, n: nat)
    requires Drawn(before, mid, off, n) && Approaches(mid, after, off)
    ensures Drawn(before, after, off, n + 1)
  {
    var x, q := before - off, Pow(15.0 / 16.0, n);
    assert after - off == 15.0 / 16.0 * (mid - off);
    assert Pow(15.0 / 16.0, n + 1) == 15.0 / 16.0 * q;
    hide Pow;
    Reassociate(15.0 / 16.0, q, x);
  }

  lemma {:induction false} Reassociate(a: real, b: real, c: real)
    ensures a * (b * c) == (a * b) * c
  {
  }

  /**
   Arrivals at a constant pace, right or wrong, draw the estimate to their deviation from the media clock, and the target
   to the frames that cover it.
   */
  lemma {:induction false} PaceDraws(rx: Rx, frame: nat, shift: int, datas: seq<(Opus, real)>, gapUs: nat)
    requires Good(rx) && Paced(rx.estimate, frame, datas, gapUs)
    ensures var r := InsertBurst(rx, frame, shift, datas);
      && Good(r) && LastWas(rx, r, frame, datas)
      && Drawn(rx.estimate.jitterUs, r.estimate.jitterUs, OffBy(gapUs), |datas|)
      && (datas != [] ==> Covers(r.target, rx.base, r.estimate.jitterUs))
    decreases |datas|
  {
    hide Good, Insert, SeqFor, Covers, Approaches, OffBy;
    if datas != [] {
      var n := |datas| - 1;
      assert Paced(rx.estimate, frame, datas[..n], gapUs);
      hide Drawn, Paced, LastWas;
      PaceDraws(rx, frame, shift, datas[..n], gapUs);
      var r := InsertBurst(rx, frame, shift, datas[..n]);
      PacedOne(rx, frame, shift, datas, gapUs, r);
      DrawnOnce(rx.estimate.jitterUs, r.estimate.jitterUs, InsertBurst(rx, frame, shift, datas).estimate.jitterUs,
                OffBy(gapUs), n);
    }
  }

  /** No jitter measured, and the target at the base delay. */
  ghost predicate Calm(rx: Rx) {
    rx.estimate.jitterUs == 0.0 && rx.target == rx.base
  }

  lemma {:induction false} BaseCovers(target: nat, base: nat)
    requires Covers(target, base, 0.0) && MIN_TARGET_FRAMES <= base <= MAX_TARGET_FRAMES
    ensures target == base
  {
  }

  /** Consecutive frames that keep the pace of the media clock, also with what came before them, if anything did. */
  ghost predicate OnBeat(e: Estimate, frame: nat, datas: seq<(Opus, real)>) {
    && (e.haveArrival && datas != [] ==>
          e.lastArrivalFrame < frame && datas[0].1 == e.lastArrival + ((frame - e.lastArrivalFrame) * FRAME_US) as real)
    && forall i {:trigger datas[i]} :: 0 < i < |datas| ==> datas[i].1 == datas[i - 1].1 + FRAME_US as real
  }

  /** Where the run of arrivals stands before frame `frame + n`. */
  ghost predicate AtBeat(rx: Rx, r: Rx, frame: nat, datas: seq<(Opus, real)>, n: nat) {
    && n <= |datas| && r.base == rx.base
    && (if n == 0 then r.estimate == rx.estimate
        else r.estimate.haveArrival && r.estimate.lastArrivalFrame + 1 == frame + n
             && r.estimate.lastArrival == datas[n - 1].1)
  }

  lemma {:induction false} NoDeviation(a: real, frames: nat)
    ensures Deviation(a + (frames * FRAME_US) as real - a, frames) == 0.0
  {
    var x := frames * FRAME_US;
    assert a + x as real - a == x as real;
    assert (x as real).Floor == x;
  }

  lemma {:induction false} CalmMeasure(rx: Rx, frame: nat, now: real, r: Rx)
    requires Calm(rx) && MIN_TARGET_FRAMES <= rx.base <= MAX_TARGET_FRAMES && Measured(rx, frame, now, r)
    requires rx.estimate.haveArrival && rx.estimate.lastArrivalFrame < frame ==>
               Deviation(now - rx.estimate.lastArrival, frame - rx.estimate.lastArrivalFrame) == 0.0
    ensures Calm(r) && r.base == rx.base
  {
    hide Deviation, Covers;
    if rx.estimate.haveArrival && rx.estimate.lastArrivalFrame < frame {
      BaseCovers(r.target, rx.base);
    }
  }

  lemma {:induction false} BeatOne(rx: Rx, r: Rx, frame: nat, shift: int, datas: seq<(Opus, real)>, n: nat)
    requires Good(r) && Calm(r) && OnBeat(rx.estimate, frame, datas) && n < |datas| && AtBeat(rx, r, frame, datas, n)
    ensures var r' := Insert(r, SeqFor(shift, frame + n), (frame + n) * FRAME_US, datas[n].0, datas[n].1);
      Good(r') && Calm(r') && AtBeat(rx, r', frame, datas, n + 1)
  {
    hide Ledger, Balanced, Insert, SeqFor, Joins, PassedOver, StartsOver, Received, Covers, Approaches, Deviation, Calm;
    var seqNo, t, e := SeqFor(shift, frame + n), (frame + n) * FRAME_US, r.estimate;
    InsertDoes(r, seqNo, t, datas[n].0, datas[n].1);
    InsertKeeps(r, seqNo, t, datas[n].0, datas[n].1);
    ReceivedGood(r, t / FRAME_US, Insert(r, seqNo, t, datas[n].0, datas[n].1));
    FrameOfTimestamp(frame + n);
    assert MIN_TARGET_FRAMES <= r.base <= MAX_TARGET_FRAMES;
    hide Good;
    if e.haveArrival && e.lastArrivalFrame < frame + n {
      NoDeviation(e.lastArrival, frame + n - e.lastArrivalFrame);
    }
    CalmMeasure(r, frame + n, datas[n].1, Insert(r, seqNo, t, datas[n].0, datas[n].1));
  }

  lemma {:induction false} SteadyRun(rx: Rx, frame: nat, shift: int, datas: seq<(Opus, real)>, n: nat)
    requires Good(rx) && Calm(rx) && OnBeat(rx.estimate, frame, datas) && n <= |datas|
    ensures var r := InsertBurst(rx, frame, shift, datas[..n]); Good(r) && Calm(r) && AtBeat(rx, r, frame, datas, n)
    decreases n
  {
    hide Good, Insert, SeqFor, OnBeat, Calm;
    if n > 0 {
      SteadyRun(rx, frame, shift, datas, n - 1);
      assert datas[..n][..n - 1] == datas[..n - 1];
      hide AtBeat;
      BeatOne(rx, InsertBurst(rx, frame, shift, datas[..n - 1]), frame, shift, datas, n - 1);
    }
  }

  /** Frames that arrive on the beat of the media clock keep the target at the base delay. */
  lemma {:induction false} SteadyPaceIsCalm(rx: Rx, frame: nat, shift: int, datas: seq<(Opus, real)>)
    requires Good(rx) && Calm(rx) && OnBeat(rx.estimate, frame, datas)
    ensures var r := InsertBurst(rx, frame, shift, datas);
      r.target == rx.base && r.estimate.jitterUs == 0.0 && r.base == rx.base
  {
    SteadyRun(rx, frame, shift, datas, |datas|);
    hide Good, InsertBurst, OnBeat;
    assert datas[..|datas|] == datas;
  }

  /**
   A new peer whose frames arrive on the beat is heard from its first frame on, and that from exactly the moment its base
   delay is buffered.
   */
  lemma {:induction false} NewPeerIsHeard(baseDelay: nat, start: real, frame: nat, shift: int, datas: seq<(Opus, real)>,
                                          ticks: seq<(real, bool, bool)>)
    requires datas != [] && |datas| <= JITTER_BUFFER_MAX_PACKETS && |ticks| <= |datas|
    requires forall i {:trigger datas[i]} :: 0 < i < |datas| ==> datas[i].1 == datas[i - 1].1 + FRAME_US as real
    ensures var r := InsertBurst(Fresh(baseDelay, start), frame, shift, datas);
      if Clamp(baseDelay) <= |datas| then Heard(DecodeAll(r, ticks).1, frame, datas, ticks)
      else forall now, decodeOk, fecOk :: Decode(r, now, decodeOk, fecOk) == (r, Silent)
  {
    hide Good, InsertBurst, Heard, DecodeAll, Decode;
    FreshGood(baseDelay, start);
    SteadyPaceIsCalm(Fresh(baseDelay, start), frame, shift, datas);
    SpurtIsHeard(Fresh(baseDelay, start), frame, shift, datas, ticks);
  }
}
