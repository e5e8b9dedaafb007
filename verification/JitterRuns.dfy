/** What the jitter buffer keeps over every run: its invariant, the fate of every packet, and the late-drop bound. */
module JitterRuns {
  import opened MediaClock
  import opened JitterBuffer

  // ---- The invariant

  ghost predicate Limits(rx: Rx) {
    && MIN_TARGET_FRAMES <= rx.base <= MAX_TARGET_FRAMES && MIN_TARGET_FRAMES <= rx.target <= MAX_TARGET_FRAMES
    && rx.late <= LATE_RESYNC_FRAMES && |rx.eos| <= MAX_PENDING_EOS
  }

  /** No frame is behind the cursor; while buffering, the cursor stands on the first one. */
  ghost predicate Anchored(rx: Rx) {
    && (forall f :: f in rx.buffer ==> rx.nextPlay <= f)
    && (rx.started ==> rx.lastFrame < rx.nextPlay)
    && (!rx.started && rx.buffer != map[] ==> rx.nextPlay in rx.buffer)
  }

  ghost predicate Inv(rx: Rx) {
    Limits(rx) && Anchored(rx) && |rx.buffer| <= JITTER_BUFFER_MAX_PACKETS
  }

  /** Every packet received is either buffered under one frame or has one fate, never both. */
  ghost predicate Ledger(b: map<nat, Packet>, k: Book) {
    && (forall f :: f in b ==> b[f].arrival < k.received && b[f].arrival !in k.fates)
    && (forall f, g :: f in b && g in b && f != g ==> b[f].arrival != b[g].arrival)
    && (forall a :: a in k.fates ==> a < k.received)
    && (forall a: nat :: a < k.received ==> a in k.fates || a in Arrivals(b))
  }

  /** Every lost or starved frame and every decode error is concealed, unless FEC recovered it. */
  ghost predicate Balanced(s: Stats) {
    s.concealed + s.recovered == s.lost + s.starved + s.decodeErrors && s.recovered <= s.lost
  }

  ghost predicate Good(rx: Rx) {
    Inv(rx) && Ledger(rx.buffer, rx.book) && Balanced(rx.stats)
  }

  /** Fates are final. */
  ghost predicate KeepsFates(k: Book, k': Book) {
    k.received <= k'.received && forall a :: a in k.fates ==> a in k'.fates && k'.fates[a] == k.fates[a]
  }

  lemma {:induction false} KeepsFatesTrans(a: Book, b: Book, c: Book)
    requires KeepsFates(a, b) && KeepsFates(b, c)
    ensures KeepsFates(a, c)
  {
  }

  lemma {:induction false} FreshGood(baseDelay: nat, now: real)
    ensures Good(Fresh(baseDelay, now))
  {
  }

  // ---- The ledger

  lemma {:induction false} DroppedFrame(b: map<nat, Packet>, f: nat)
    requires f in b
    ensures Arrivals(b) <= Arrivals(b - {f}) + {b[f].arrival}
  {
    forall a | a in Arrivals(b) ensures a in Arrivals(b - {f}) + {b[f].arrival} {
      var g :| g in b && b[g].arrival == a;
      assert g != f ==> g in b - {f} && (b - {f})[g].arrival == a;
    }
  }

  /** Taking a packet out of the buffer and giving it a fate keeps the ledger. */
  lemma {:induction false} FateGiven(b: map<nat, Packet>, k: Book, f: nat, fate: Fate)
    requires Ledger(b, k) && f in b
    ensures Ledger(b - {f}, Judged(k, b[f], fate)) && KeepsFates(k, Judged(k, b[f], fate))
  {
    DroppedFrame(b, f);
    hide Arrivals;
  }

  /** The packet received last, neither buffered nor judged yet, goes in under a free frame. */
  lemma {:induction false} PacketIn(b: map<nat, Packet>, k: Book, f: nat, p: Packet)
    requires Ledger(b, k) && p.arrival == k.received && f !in b
    ensures Ledger(b[f := p], k.(received := k.received + 1))
  {
    var b', k' := b[f := p], k.(received := k.received + 1);
    assert b'[f] == p;
    forall a: nat | a < k'.received ensures a in k'.fates || a in Arrivals(b') {
      if a in Arrivals(b) {
        var g :| g in b && b[g].arrival == a;
        assert b'[g].arrival == a;
      }
    }
    hide Arrivals;
  }

  lemma {:induction false} PacketReplaces(b: map<nat, Packet>, k: Book, f: nat, p: Packet)
    requires Ledger(b, k) && p.arrival == k.received && f in b
    ensures Ledger(b[f := p], Judged(k, b[f], Replaced).(received := k.received + 1))
  {
    FateGiven(b, k, f, Replaced);
    hide Ledger;
    PacketIn(b - {f}, Judged(k, b[f], Replaced), f, p);
    assert (b - {f})[f := p] == b[f := p];
  }

  lemma {:induction false} AllCleared(b: map<nat, Packet>, k: Book)
    requires Ledger(b, k)
    ensures var k' := k.(fates := k.fates + FatesOf(b, Cleared)); Ledger(map[], k') && KeepsFates(k, k')
  {
    forall a | a in Arrivals(b) ensures a !in k.fates && a < k.received {
      var f :| f in b && b[f].arrival == a;
    }
  }

  lemma {:induction false} LateJudged(b: map<nat, Packet>, k: Book, p: Packet)
    requires Ledger(b, k) && p.arrival == k.received
    ensures Ledger(b, Judged(k, p, DroppedLate).(received := k.received + 1))
    ensures KeepsFates(k, Judged(k, p, DroppedLate).(received := k.received + 1))
  {
    hide Arrivals;
  }

  // ---- Trimming

  lemma {:induction false} DepthIsAll(rx: Rx)
    requires Anchored(rx)
    ensures Depth(rx) == |rx.buffer|
  {
    assert (set f | f in rx.buffer && f >= rx.nextPlay) == rx.buffer.Keys;
  }

  lemma {:induction false} DropOldestKeeps(rx: Rx)
    requires Anchored(rx) && Ledger(rx.buffer, rx.book) && rx.buffer != map[]
    ensures var r := DropOldest(rx);
      && Anchored(r) && Ledger(r.buffer, r.book) && KeepsFates(rx.book, r.book)
      && |r.buffer| == |rx.buffer| - 1 && r.buffer.Keys < rx.buffer.Keys
  {
    assert DropOldest(rx).buffer.Keys == rx.buffer.Keys - {MinKey(rx.buffer)};
    FateGiven(rx.buffer, rx.book, MinKey(rx.buffer), Trimmed);
    hide Ledger, KeepsFates;
  }

  /** What trimming leaves alone. */
  ghost predicate OnlyTrimmed(rx: Rx, r: Rx) {
    && r == rx.(buffer := r.buffer, nextPlay := r.nextPlay, book := r.book)
    && (forall f :: f in r.buffer ==> f in rx.buffer && r.buffer[f] == rx.buffer[f])
    && KeepsFates(rx.book, r.book) && r.book.received == rx.book.received
  }

  /** The oldest frames went, and only they: each dropped frame is below each kept one, and its packet is trimmed. */
  ghost predicate OldestWent(rx: Rx, r: Rx) {
    && (forall f, g :: f in rx.buffer && f !in r.buffer && g in r.buffer ==> f < g)
    && (forall f :: f in rx.buffer && f !in r.buffer ==>
          rx.buffer[f].arrival in r.book.fates && r.book.fates[rx.buffer[f].arrival] == Trimmed)
  }

  /** After the loop the depth is within bounds, and only buffered frames, the cursor and the book were touched. */
  ghost predicate TrimmedTo(rx: Rx, r: Rx) {
    && Anchored(r) && Ledger(r.buffer, r.book) && OnlyTrimmed(rx, r)
    && |r.buffer| <= MaxDepth(r) && |r.buffer| <= JITTER_BUFFER_MAX_PACKETS
  }

  /** The frames that may stay. */
  ghost function Room(rx: Rx): nat {
    if MaxDepth(rx) < JITTER_BUFFER_MAX_PACKETS then MaxDepth(rx) else JITTER_BUFFER_MAX_PACKETS
  }

  lemma {:induction false} TooDeepIs(rx: Rx)
    requires Anchored(rx)
    ensures TooDeep(rx) <==> |rx.buffer| > Room(rx)
    ensures rx.buffer != map[] ==> Room(DropOldest(rx)) == Room(rx)
  {
    DepthIsAll(rx);
    hide Anchored, Depth, MinKey;
  }

  lemma {:induction false} OneDropped(rx: Rx)
    requires Anchored(rx) && Ledger(rx.buffer, rx.book) && rx.buffer != map[]
    ensures OnlyTrimmed(rx, DropOldest(rx))
  {
    DropOldestKeeps(rx);
    hide Anchored, Ledger, MinKey, KeepsFates;
  }

  lemma {:induction false} OldestDropped(rx: Rx)
    requires rx.buffer != map[]
    ensures OldestWent(rx, DropOldest(rx))
  {
  }

  lemma {:induction false} OldestTrans(a: Rx, b: Rx, c: Rx)
    requires OnlyTrimmed(a, b) && OnlyTrimmed(b, c) && OldestWent(a, b) && OldestWent(b, c)
    ensures OldestWent(a, c)
  {
  }

  lemma {:induction false} TrimmedTrans(a: Rx, b: Rx, c: Rx)
    requires OnlyTrimmed(a, b) && TrimmedTo(b, c)
    ensures TrimmedTo(a, c)
  {
    hide Anchored, Ledger, MaxDepth;
    KeepsFatesTrans(a.book, b.book, c.book);
    hide KeepsFates;
  }

  lemma {:induction false} TrimSize(rx: Rx)
    requires Anchored(rx) && Ledger(rx.buffer, rx.book)
    ensures |Trim(rx).buffer| == if TooDeep(rx) then Room(rx) else |rx.buffer|
    decreases |rx.buffer|
  {
    if TooDeep(rx) {
      hide Ledger, Anchored, KeepsFates, Room, MinKey, Depth;
      TooDeepHasOldest(rx);
      TooDeepIs(rx);
      DropOldestKeeps(rx);
      TooDeepIs(DropOldest(rx));
      hide DropOldest, TooDeep;
      TrimSize(DropOldest(rx));
    }
  }

  /** Trimming keeps as many frames as may stay, the newest ones, and judges what it drops as trimmed. */
  lemma {:induction false} TrimKeeps(rx: Rx)
    requires Anchored(rx) && Ledger(rx.buffer, rx.book)
    ensures TrimmedTo(rx, Trim(rx)) && OldestWent(rx, Trim(rx))
    ensures Trim(rx) == rx <==> !TooDeep(rx)
    ensures |Trim(rx).buffer| == if TooDeep(rx) then Room(rx) else |rx.buffer|
    decreases |rx.buffer|
  {
    TrimSize(rx);
    hide Room;
    if TooDeep(rx) {
      hide Ledger, Anchored, OnlyTrimmed, TrimmedTo, KeepsFates, OldestWent;
      TooDeepHasOldest(rx);
      DropOldestKeeps(rx);
      OneDropped(rx);
      OldestDropped(rx);
      TrimKeeps(DropOldest(rx));
      TrimmedOnce(rx, Trim(DropOldest(rx)));
      hide DropOldest, TooDeep;
      OnlyTrimmedTo(DropOldest(rx), Trim(DropOldest(rx)));
      OldestTrans(rx, DropOldest(rx), Trim(DropOldest(rx)));
      TrimmedTrans(rx, DropOldest(rx), Trim(DropOldest(rx)));
    } else {
      DepthIsAll(rx);
      hide Ledger, Anchored, Depth;
    }
  }

  lemma {:induction false} OnlyTrimmedTo(rx: Rx, r: Rx)
    requires TrimmedTo(rx, r)
    ensures OnlyTrimmed(rx, r)
  {
  }

  /** A state trimmed after a drop is not the one before it. */
  lemma {:induction false} TrimmedOnce(rx: Rx, r: Rx)
    requires rx.buffer != map[] && TrimmedTo(DropOldest(rx), r)
    ensures r != rx
  {
    hide Anchored, Ledger, KeepsFates, MaxDepth;
    assert MinKey(rx.buffer) in rx.buffer && MinKey(rx.buffer) !in r.buffer;
  }

  // ---- Inserting

  lemma {:induction false} StoredAnchored(rx: Rx, frame: nat, p: Packet)
    requires Anchored(rx) && (rx.started ==> rx.nextPlay <= frame)
    ensures Anchored(Stored(rx, frame, p))
  {
    assert frame in rx.buffer[frame := p];
  }

  /** The book of `rx` already counts the packet being inserted. */
  ghost predicate Arriving(rx: Rx, p: Packet) {
    rx.book.received == p.arrival + 1 && Ledger(rx.buffer, rx.book.(received := p.arrival))
  }

  lemma {:induction false} TakenBook(rx: Rx, frame: nat, p: Packet)
    ensures var r := Stored(rx, frame, p);
            r.buffer == rx.buffer[frame := p] &&
            r.book == if frame in rx.buffer then Judged(rx.book, rx.buffer[frame], Replaced) else rx.book
  {
  }

  lemma {:induction false} Unjudged(b: map<nat, Packet>, k: Book, f: nat)
    requires Ledger(b, k) && f in b
    ensures b[f].arrival !in k.fates
  {
  }

  lemma {:induction false} StoredLedger(rx: Rx, frame: nat, p: Packet)
    requires Arriving(rx, p)
    ensures var r := Stored(rx, frame, p); Ledger(r.buffer, r.book) && KeepsFates(rx.book, r.book)
    ensures Stored(rx, frame, p).book.received == rx.book.received
  {
    var k := rx.book.(received := p.arrival);
    TakenBook(rx, frame, p);
    hide Stored, TakenIn, Ledger;
    if frame in rx.buffer {
      PacketReplaces(rx.buffer, k, frame, p);
      assert rx.buffer[frame].arrival !in rx.book.fates by {
        Unjudged(rx.buffer, k, frame);
      }
    } else {
      PacketIn(rx.buffer, k, frame, p);
    }
  }

  /** What one accepted packet leaves behind. */
  ghost predicate Accepted(rx: Rx, r: Rx) {
    && Good(r) && KeepsFates(rx.book, r.book) && r.book.received == rx.book.received
    && |r.buffer| <= MaxDepth(r) && r.late == 0
  }

  lemma {:induction false} AcceptKeeps(rx: Rx, frame: nat, p: Packet)
    requires Limits(rx) && Anchored(rx) && (rx.started ==> rx.nextPlay <= frame)
    requires Arriving(rx, p) && Balanced(rx.stats)
    ensures Accepted(rx, Accept(rx, frame, p))
  {
    StoredAnchored(rx, frame, p);
    StoredLedger(rx, frame, p);
    var s := Stored(rx, frame, p);
    assert Limits(s) && s.stats == rx.stats && s.late == 0;
    hide Ledger, Anchored, Stored, Arriving, Limits, Balanced, KeepsFates, OnlyTrimmed;
    TrimKeeps(s);
    hide Trim;
    LimitsKept(s, Trim(s));
    KeepsFatesTrans(rx.book, s.book, Trim(s).book);
  }

  lemma {:induction false} LimitsKept(s: Rx, r: Rx)
    requires OnlyTrimmed(s, r)
    ensures Limits(s) ==> Limits(r)
    ensures r.stats == s.stats && r.late == s.late && KeepsFates(s.book, r.book) && r.book.received == s.book.received
  {
    hide KeepsFates;
  }

  /** The frame is dropped for arriving behind the cursor. */
  ghost predicate DropsLate(rx: Rx, frame: nat) {
    rx.started && rx.nextPlay <= frame + RESTART_BACKWARD_FRAMES && frame < rx.nextPlay && rx.late < LATE_RESYNC_FRAMES
  }

  /** What one insert promises about the state before (`rx`) and after (`r`). */
  ghost predicate Inserted(rx: Rx, frame: nat, r: Rx) {
    && Good(r) && KeepsFates(rx.book, r.book)
    && (r.started && !DropsLate(rx, frame) ==> |r.buffer| <= r.target + DRIFT_DROP_SLACK)
    && r.late == (if DropsLate(rx, frame) then rx.late + 1 else 0)
    && (DropsLate(rx, frame) ==> r.buffer == rx.buffer && r.nextPlay == rx.nextPlay && r.started)
  }

  lemma {:induction false} LateKeeps(rx: Rx, frame: nat, p: Packet)
    requires Inv(rx) && Arriving(rx, p) && Balanced(rx.stats) && DropsLate(rx, frame)
    ensures Inserted(rx, frame, Placed(rx, frame, p))
    ensures Placed(rx, frame, p).book == Judged(rx.book, p, DroppedLate)
  {
    LateJudged(rx.buffer, rx.book.(received := p.arrival), p);
    hide Ledger, Balanced, Accept;
  }

  lemma {:induction false} ClearedReady(rx: Rx, frame: nat, p: Packet)
    requires Inv(rx) && Arriving(rx, p) && Balanced(rx.stats)
    ensures var c := Reanchor(ClearedBuffer(rx), frame);
            && Limits(c) && Anchored(c) && Arriving(c, p) && Balanced(c.stats) && KeepsFates(rx.book, c.book)
            && c.book.received == rx.book.received
  {
    AllCleared(rx.buffer, rx.book.(received := p.arrival));
    hide Ledger, FatesOf;
  }

  lemma {:induction false} RestartKeeps(rx: Rx, frame: nat, p: Packet)
    requires Inv(rx) && Arriving(rx, p) && Balanced(rx.stats)
    ensures Accepted(rx, Accept(Reanchor(ClearedBuffer(rx), frame), frame, p))
  {
    var c := Reanchor(ClearedBuffer(rx), frame);
    ClearedReady(rx, frame, p);
    hide Ledger, Inv, Arriving, ClearedBuffer, Reanchor, Accept, Limits, Anchored, Balanced, Good, KeepsFates;
    AcceptKeeps(c, frame, p);
    KeepsFatesTrans(rx.book, c.book, Accept(c, frame, p).book);
  }

  lemma {:induction false} AcceptedInserts(rx: Rx, frame: nat, r: Rx)
    requires Accepted(rx, r) && !DropsLate(rx, frame)
    ensures Inserted(rx, frame, r)
  {
    hide Good, KeepsFates, DropsLate;
  }

  lemma {:induction false} PlacedKeeps(rx: Rx, frame: nat, p: Packet)
    requires Inv(rx) && Arriving(rx, p) && Balanced(rx.stats)
    ensures Inserted(rx, frame, Placed(rx, frame, p)) && Placed(rx, frame, p).book.received == p.arrival + 1
    ensures DropsLate(rx, frame) ==> Placed(rx, frame, p).book == Judged(rx.book, p, DroppedLate)
  {
    if DropsLate(rx, frame) {
      hide Ledger, Balanced, Accept, Inserted, Inv;
      LateKeeps(rx, frame, p);
    } else {
      if rx.started && frame < rx.nextPlay {
        RestartKeeps(rx, frame, p);
      } else {
        AcceptKeeps(rx, frame, p);
      }
      hide Good, KeepsFates, Accept, Inv, Balanced, Ledger, Inserted, Reanchor, ClearedBuffer;
      AcceptedInserts(rx, frame, Placed(rx, frame, p));
    }
  }

  lemma {:induction false} UpdatedSame(rx: Rx, frame: nat, now: real)
    requires Good(rx)
    ensures var u := UpdateJitter(rx.(book := rx.book.(received := rx.book.received + 1)), frame, now);
      && Inv(u) && Balanced(u.stats) && u.book == rx.book.(received := rx.book.received + 1)
      && u.buffer == rx.buffer && u.nextPlay == rx.nextPlay && u.started == rx.started && u.late == rx.late
  {
    hide NextJitter, TargetFor, Ledger;
  }

  /** What one received packet promises. */
  ghost predicate Received(rx: Rx, frame: nat, r: Rx) {
    && Inserted(rx, frame, r) && r.book.received == rx.book.received + 1
    && (DropsLate(rx, frame) ==> r.book.fates == rx.book.fates[rx.book.received := DroppedLate])
  }

  lemma {:induction false} ReceivedFrom(rx: Rx, u: Rx, frame: nat, r: Rx)
    requires Inserted(u, frame, r) && r.book.received == rx.book.received + 1
    requires DropsLate(u, frame) ==> r.book.fates == rx.book.fates[rx.book.received := DroppedLate]
    requires u.book == rx.book.(received := rx.book.received + 1)
    requires u.buffer == rx.buffer && u.nextPlay == rx.nextPlay && u.started == rx.started && u.late == rx.late
    ensures Received(rx, frame, r)
  {
    hide Good;
  }

  /** Every insert keeps the invariant, the ledger and the balance; only a late packet leaves the buffer alone. */
  lemma {:induction false} InsertKeeps(rx: Rx, seqNo: nat, timestampUs: nat, opus: Opus, now: real)
    requires Good(rx)
    ensures Received(rx, timestampUs / FRAME_US, Insert(rx, seqNo, timestampUs, opus, now))
  {
    var frame := timestampUs / FRAME_US;
    var u := UpdateJitter(rx.(book := rx.book.(received := rx.book.received + 1)), frame, now);
    var p := Packet(seqNo, opus, rx.book.received);
    UpdatedSame(rx, frame, now);
    hide UpdateJitter, Inv, Balanced, Received, Placed;
    ArrivedKeeps(rx, u, frame, p);
  }

  lemma {:induction false} ArrivedKeeps(rx: Rx, u: Rx, frame: nat, p: Packet)
    requires Good(rx) && Inv(u) && Balanced(u.stats)
    requires p.arrival == rx.book.received && u.book == rx.book.(received := rx.book.received + 1)
    requires u.buffer == rx.buffer && u.nextPlay == rx.nextPlay && u.started == rx.started && u.late == rx.late
    ensures Received(rx, frame, Placed(u, frame, p))
  {
    hide Placed, Ledger, Inv, Balanced, DropsLate, Inserted, Received, KeepsFates;
    assert u.book.(received := p.arrival) == rx.book;
    PlacedKeeps(u, frame, p);
    hide Good;
    ReceivedFrom(rx, u, frame, Placed(u, frame, p));
  }

  // ---- Playing

  lemma {:induction false} StillAheadShorter(eos: seq<nat>, played: nat)
    ensures |StillAhead(eos, played)| <= |eos|
    ensures forall s :: s in StillAhead(eos, played) ==> s in eos
    decreases |eos|
  {
    if eos != [] {
      StillAheadShorter(eos[..|eos| - 1], played);
    }
  }

  /** What one decode leaves behind. */
  ghost predicate Kept(rx: Rx, r: Rx) {
    Good(r) && KeepsFates(rx.book, r.book) && r.book.received == rx.book.received && r.late == rx.late
  }

  lemma {:induction false} PlayedKeeps(rx: Rx, r: Rx)
    requires Good(rx) && rx.nextPlay in rx.buffer
    requires r.buffer == rx.buffer - {rx.nextPlay} && r.book == Judged(rx.book, rx.buffer[rx.nextPlay], Decoded)
    requires r.started && r.lastFrame == rx.nextPlay && r.nextPlay == rx.nextPlay + 1
    requires r.target == rx.target && r.base == rx.base && r.late == rx.late && |r.eos| <= |rx.eos| && Balanced(r.stats)
    ensures Kept(rx, r)
  {
    FateGiven(rx.buffer, rx.book, rx.nextPlay, Decoded);
    JudgedReceived(rx.book, rx.buffer[rx.nextPlay], Decoded);
    assert r.buffer.Keys == rx.buffer.Keys - {rx.nextPlay};
    hide Ledger, KeepsFates, Judged, Balanced;
  }

  lemma {:induction false} PlayKeeps(rx: Rx, decodeOk: bool)
    requires Good(rx) && rx.nextPlay in rx.buffer
    ensures Kept(rx, PlayFrame(rx, decodeOk).0)
  {
    hide StillAhead, Judged, Inv, Ledger, Kept;
    StillAheadShorter(rx.eos, rx.buffer[rx.nextPlay].seqNo);
    PlayedKeeps(rx, PlayFrame(rx, decodeOk).0);
  }

  lemma {:induction false} JudgedReceived(k: Book, p: Packet, fate: Fate)
    ensures Judged(k, p, fate).received == k.received
  {
  }

  /** A gap at the cursor only ever shows while playing: a fresh spurt starts at a buffered frame. */
  lemma {:induction false} GapMeansStarted(rx: Rx)
    requires Inv(rx) && ReadyToPlay(rx) && rx.nextPlay !in rx.buffer
    ensures rx.started
  {
    assert rx.buffer == map[] ==> (set f | f in rx.buffer && f >= rx.nextPlay) == {};
  }

  lemma {:induction false} AheadIsAll(rx: Rx)
    requires Anchored(rx) && rx.nextPlay !in rx.buffer
    ensures Ahead(rx) == rx.buffer
  {
  }

  lemma {:induction false} GapKeeps(rx: Rx, fecOk: bool)
    requires Good(rx) && rx.nextPlay !in rx.buffer && rx.started
    ensures Kept(rx, AtGap(rx, fecOk).0)
  {
    hide Ledger, ReadsAsSilence, KeepsFates;
    AheadIsAll(rx);
    hide Ahead;
    FatesKept(rx.book);
    var r := AtGap(rx, fecOk).0;
    assert r.buffer == rx.buffer && r.book == rx.book && r.late == rx.late by { hide Anchored; }
    if rx.buffer != map[] {
      GapEnd(rx);
    }
    hide MinKey;
  }

  lemma {:induction false} FatesKept(k: Book)
    ensures KeepsFates(k, k)
  {
  }

  lemma {:induction false} GapEnd(rx: Rx)
    requires Anchored(rx) && rx.nextPlay !in rx.buffer && rx.buffer != map[]
    ensures var next := MinKey(rx.buffer);
      && next in rx.buffer && rx.nextPlay < next && forall f :: f in rx.buffer ==> next <= f
  {
  }

  lemma {:induction false} FlagsGood(rx: Rx, ended: bool)
    requires Good(rx)
    ensures Good(rx.(ended := ended, prime := false)) && Kept(rx, rx) && Kept(rx, rx.(ended := ended)) && Inv(rx)
    ensures forall r :: Kept(rx.(ended := ended, prime := false), r) ==> Kept(rx, r)
  {
    hide Ledger, Balanced;
  }

  lemma {:induction false} DecodeKeeps(rx: Rx, now: real, decodeOk: bool, fecOk: bool)
    requires Good(rx)
    ensures Kept(rx, Decode(rx, now, decodeOk, fecOk).0)
  {
    hide Ledger, Good, Kept, Stale, Depth;
    var ended := rx.ended || Stale(rx, now);
    var q := rx.(ended := ended, prime := false);
    FlagsGood(rx, ended);
    if ReadyToPlay(rx) && q.nextPlay !in q.buffer {
      GapMeansStarted(rx);
    }
    hide ReadyToPlay, AtGap, Inv, PlayFrame;
    if q.nextPlay in q.buffer {
      PlayKeeps(q, decodeOk);
    } else if q.started {
      GapKeeps(q, fecOk);
    }
  }
}
