/**
 Loss or silence? The receiver's verdict on a gap, judged against what the sender really sent, over a network that may
 drop, repeat, delay and reorder datagrams, across wrap-around of the 32-bit sequence number.
 */
module Verdict {
  import opened MediaClock
  import opened JitterBuffer
  import opened JitterRuns
  import Playout

  // ---- The sender

  // One sequence number each; only voice occupies the media clock, and the clock alone advances through silence.
  datatype Sent = Voice(frame: nat) | EosMark

  ghost predicate Stream(s: seq<Sent>) {
    forall i, j :: 0 <= i < j < |s| && s[i].Voice? && s[j].Voice? ==> s[i].frame < s[j].frame
  }

  ghost predicate SentFrame(s: seq<Sent>, f: nat) {
    exists k :: 0 <= k < |s| && s[k] == Voice(f)
  }

  ghost function IndexOf(s: seq<Sent>, f: nat): (k: nat)
    requires SentFrame(s, f)
    ensures k < |s| && s[k] == Voice(f)
  {
    var k :| 0 <= k < |s| && s[k] == Voice(f);
    k
  }

  /** The `k`-th datagram of a connection whose first number is `first`. */
  function SeqAt(first: nat, k: nat): (n: nat)
    ensures n < SEQ_SPACE
  {
    (first + k) % SEQ_SPACE
  }

  // Datagrams the receiver still refers to span less than half the sequence space.
  const WINDOW := 0x8000_0000

  lemma {:induction false} SubMod(a: int, b: int)
    ensures (a % SEQ_SPACE - b % SEQ_SPACE) % SEQ_SPACE == (a - b) % SEQ_SPACE
  {
    var qa, qb := a / SEQ_SPACE, b / SEQ_SPACE;
    assert a == qa * SEQ_SPACE + a % SEQ_SPACE && b == qb * SEQ_SPACE + b % SEQ_SPACE;
    ModShift(a % SEQ_SPACE - b % SEQ_SPACE, qa - qb);
  }

  lemma {:induction false} ModShift(x: int, q: int)
    ensures (x + q * SEQ_SPACE) % SEQ_SPACE == x % SEQ_SPACE
  {
  }

  /** The wrapped distance between two datagrams of a window is their true distance, or its complement when negative. */
  lemma {:induction false} SeqDistance(first: nat, i: nat, j: nat)
    requires -WINDOW < j - i < WINDOW
    ensures WrappingSub(SeqAt(first, j), SeqAt(first, i)) == if i <= j then j - i else SEQ_SPACE - (i - j)
  {
    SubMod(first + j, first + i);
  }

  // ---- What lies between two voice datagrams

  ghost function FramesIn(s: seq<Sent>, i: nat, j: nat): set<nat>
    requires i <= j < |s|
    decreases j
  {
    if i == j then {} else FramesIn(s, i, j - 1) + (if s[j].Voice? then {s[j].frame} else {})
  }

  ghost function EosIn(s: seq<Sent>, first: nat, i: nat, j: nat): set<nat>
    requires i <= j < |s|
    decreases j
  {
    if i == j then {} else EosIn(s, first, i, j - 1) + (if s[j].EosMark? then {SeqAt(first, j)} else {})
  }

  lemma {:induction false} FramesInAre(s: seq<Sent>, i: nat, j: nat)
    requires i <= j < |s|
    ensures forall g :: g in FramesIn(s, i, j) <==> exists k :: i < k <= j && s[k] == Voice(g)
    decreases j
  {
    if i < j {
      FramesInAre(s, i, j - 1);
      forall g ensures g in FramesIn(s, i, j) <==> exists k :: i < k <= j && s[k] == Voice(g) {
        if s[j] == Voice(g) {
        } else if k :| i < k <= j && s[k] == Voice(g) {
          assert k <= j - 1;
        }
      }
    }
  }

  lemma {:induction false} EosInAre(s: seq<Sent>, first: nat, i: nat, j: nat)
    requires i <= j < |s|
    ensures forall n :: n in EosIn(s, first, i, j) <==> exists k :: i < k <= j && s[k].EosMark? && n == SeqAt(first, k)
    decreases j
  {
    if i < j {
      hide SeqAt;
      EosInAre(s, first, i, j - 1);
      forall n ensures n in EosIn(s, first, i, j) <==> exists k :: i < k <= j && s[k].EosMark? && n == SeqAt(first, k) {
        if s[j].EosMark? && n == SeqAt(first, j) {
        } else if k :| i < k <= j && s[k].EosMark? && n == SeqAt(first, k) {
          assert k <= j - 1;
        }
      }
    }
  }

  lemma {:induction false} FrameIsNew(s: seq<Sent>, i: nat, j: nat)
    requires Stream(s) && i < j < |s| && s[j].Voice?
    ensures s[j].frame !in FramesIn(s, i, j - 1)
  {
    FramesInAre(s, i, j - 1);
  }

  lemma {:induction false} EosIsNew(s: seq<Sent>, first: nat, i: nat, j: nat)
    requires i < j < |s| && j - i < WINDOW
    ensures SeqAt(first, j) !in EosIn(s, first, i, j - 1)
  {
    EosInAre(s, first, i, j - 1);
    forall k | i < k <= j - 1 ensures SeqAt(first, j) != SeqAt(first, k) {
      SeqDistance(first, k, j);
    }
    hide SeqAt;
  }

  /** Every step of the sequence space is a voice frame of its own or an EOS of its own. */
  lemma {:induction false} StepsSplit(s: seq<Sent>, first: nat, i: nat, j: nat)
    requires Stream(s) && i <= j < |s| && j - i < WINDOW
    ensures |FramesIn(s, i, j)| + |EosIn(s, first, i, j)| == j - i
    decreases j
  {
    hide SeqAt, Stream;
    if i < j {
      StepsSplit(s, first, i, j - 1);
      if s[j].Voice? {
        FrameIsNew(s, i, j);
      } else {
        EosIsNew(s, first, i, j);
      }
    }
  }

  function Between(a: nat, b: nat): (r: set<nat>)
    ensures forall g: nat :: g in r <==> a < g <= b
    ensures |r| == if a <= b then b - a else 0
  {
    if b <= a then {} else Between(a, b - 1) + {b}
  }

  /** The media frames strictly between `a` and `b` that the sender never sent. */
  ghost function UnsentIn(s: seq<Sent>, a: nat, b: nat): set<nat> {
    set g: nat | a < g < b && !SentFrame(s, g)
  }

  /** The frames between two voice datagrams are the sent ones beyond the first and up to the last. */
  lemma {:induction false} FramesInside(s: seq<Sent>, i: nat, j: nat)
    requires Stream(s) && i < j < |s| && s[i].Voice? && s[j].Voice?
    ensures forall g :: g in FramesIn(s, i, j) <==> s[i].frame < g <= s[j].frame && SentFrame(s, g)
  {
    FramesInAre(s, i, j);
    hide FramesIn;
    forall g ensures g in FramesIn(s, i, j) <==> s[i].frame < g <= s[j].frame && SentFrame(s, g) {
      if s[i].frame < g <= s[j].frame && SentFrame(s, g) {
        var k :| 0 <= k < |s| && s[k] == Voice(g);
        assert i < k <= j;
      }
    }
  }

  /** The voice frames between two datagrams and the frames left unsent there fill the media span. */
  lemma {:induction false} FramesFill(s: seq<Sent>, i: nat, j: nat)
    requires Stream(s) && i < j < |s| && s[i].Voice? && s[j].Voice?
    ensures var a, b := s[i].frame, s[j].frame; |FramesIn(s, i, j)| + |UnsentIn(s, a, b)| == b - a
  {
    var a, b := s[i].frame, s[j].frame;
    FramesInside(s, i, j);
    var sent, unsent := FramesIn(s, i, j), UnsentIn(s, a, b);
    assert SentFrame(s, b) && a < b;
    hide FramesIn, SentFrame, Stream;
    assert sent !! unsent;
    assert sent + unsent == Between(a, b);
  }

  // ---- What the receiver refers to

  ghost predicate InWindow(k: nat, lo: nat) {
    lo <= k < lo + WINDOW
  }

  /** Frame `f` was sent inside the window, under number `n`. */
  ghost predicate SentAs(s: seq<Sent>, first: nat, lo: nat, f: nat, n: nat) {
    SentFrame(s, f) && InWindow(IndexOf(s, f), lo) && n == SeqAt(first, IndexOf(s, f))
  }

  ghost predicate EosSentAs(s: seq<Sent>, first: nat, lo: nat, n: nat) {
    exists k :: 0 <= k < |s| && InWindow(k, lo) && s[k].EosMark? && n == SeqAt(first, k)
  }

  ghost predicate Distinct(eos: seq<nat>) {
    forall i, j :: 0 <= i < j < |eos| ==> eos[i] != eos[j]
  }

  /** Everything the receiver holds was sent by this sender, inside one window. */
  ghost predicate Tracks(rx: Rx, s: seq<Sent>, first: nat, lo: nat) {
    && (forall f :: f in rx.buffer ==> SentAs(s, first, lo, f, rx.buffer[f].seqNo))
    && (rx.started ==> SentAs(s, first, lo, rx.lastFrame, rx.lastSeq))
    && (forall n :: n in rx.eos ==> EosSentAs(s, first, lo, n))
    && Distinct(rx.eos)
  }

  // ---- The verdict

  /** The recorded marks inside the span. */
  ghost function Marks(eos: seq<nat>, last: nat, span: nat): set<nat> {
    set n | n in eos && 0 < WrappingSub(n, last) < span
  }

  lemma {:induction false} MarksCounted(eos: seq<nat>, last: nat, span: nat)
    requires Distinct(eos)
    ensures EosInSpan(eos, last, span) == |Marks(eos, last, span)|
    decreases |eos|
  {
    hide WrappingSub;
    if eos == [] {
      assert Marks(eos, last, span) == {};
    } else {
      var k := |eos| - 1;
      var e, rest := eos[k], eos[..k];
      MarksCounted(rest, last, span);
      assert eos == rest + [e];
      assert e !in rest;
      assert Marks(eos, last, span)
          == Marks(rest, last, span) + (if 0 < WrappingSub(e, last) < span then {e} else {});
    }
  }

  /** Every EOS sent between the two datagrams is on record. */
  ghost predicate AllRecorded(s: seq<Sent>, first: nat, i: nat, j: nat, eos: seq<nat>) {
    forall k :: i < k < j && k < |s| && s[k].EosMark? ==> SeqAt(first, k) in eos
  }

  /** The marks in the span are exactly the recorded ones among the EOS datagrams of the span. */
  lemma {:induction false} MarksAreEos(s: seq<Sent>, first: nat, lo: nat, i: nat, j: nat, eos: seq<nat>)
    requires Stream(s) && i < j < |s| && InWindow(i, lo) && InWindow(j, lo) && s[j].Voice?
    requires forall n :: n in eos ==> EosSentAs(s, first, lo, n)
    ensures Marks(eos, SeqAt(first, i), j - i) == set n | n in EosIn(s, first, i, j) && n in eos
  {
    var last := SeqAt(first, i);
    EosInAre(s, first, i, j);
    forall n | n in Marks(eos, last, j - i) ensures n in EosIn(s, first, i, j) {
      var k :| 0 <= k < |s| && InWindow(k, lo) && s[k].EosMark? && n == SeqAt(first, k);
      SeqDistance(first, i, k);
    }
    forall n | n in EosIn(s, first, i, j) && n in eos ensures n in Marks(eos, last, j - i) {
      var k :| i < k <= j && s[k].EosMark? && n == SeqAt(first, k);
      SeqDistance(first, i, k);
    }
  }

  /** The two ends of a gap as the sender knows them. */
  lemma {:induction false} GapEnds(rx: Rx, s: seq<Sent>, first: nat, lo: nat, nextFrame: nat)
    requires Stream(s) && Tracks(rx, s, first, lo) && rx.started
    requires nextFrame in rx.buffer && rx.lastFrame < nextFrame
    ensures SentFrame(s, rx.lastFrame) && SentFrame(s, nextFrame) && Distinct(rx.eos)
    ensures var i, j := IndexOf(s, rx.lastFrame), IndexOf(s, nextFrame);
            && i < j && j - i < WINDOW && InWindow(i, lo) && InWindow(j, lo) && rx.lastSeq == SeqAt(first, i)
            && WrappingSub(rx.buffer[nextFrame].seqNo, rx.lastSeq) == j - i
    ensures forall n :: n in rx.eos ==> EosSentAs(s, first, lo, n)
  {
    hide SeqAt, WrappingSub;
    var i, j := IndexOf(s, rx.lastFrame), IndexOf(s, nextFrame);
    assert i < j;
    SeqDistance(first, i, j);
  }

  /** The end-of-stream datagrams of the gap that are not on record, by their sequence numbers. */
  ghost function Unrecorded(s: seq<Sent>, first: nat, i: nat, j: nat, eos: seq<nat>): set<nat>
    requires i <= j < |s|
  {
    set n | n in EosIn(s, first, i, j) && n !in eos
  }

  lemma {:induction false} NoneMissing(s: seq<Sent>, first: nat, i: nat, j: nat, eos: seq<nat>)
    requires i < j < |s| && s[j].Voice?
    ensures AllRecorded(s, first, i, j, eos) <==> Unrecorded(s, first, i, j, eos) == {}
  {
    EosInAre(s, first, i, j);
    hide SeqAt, EosIn;
    if Unrecorded(s, first, i, j, eos) == {} {
      forall k | i < k < j && k < |s| && s[k].EosMark? ensures SeqAt(first, k) in eos {
        assert SeqAt(first, k) !in Unrecorded(s, first, i, j, eos);
      }
    }
  }

  lemma {:induction false} MarksAndUnrecorded(s: seq<Sent>, first: nat, lo: nat, i: nat, j: nat, eos: seq<nat>)
    requires Stream(s) && i < j < |s| && InWindow(i, lo) && InWindow(j, lo) && s[j].Voice?
    requires forall n :: n in eos ==> EosSentAs(s, first, lo, n)
    ensures |Marks(eos, SeqAt(first, i), j - i)| + |Unrecorded(s, first, i, j, eos)| == |EosIn(s, first, i, j)|
  {
    var marks, missing := Marks(eos, SeqAt(first, i), j - i), Unrecorded(s, first, i, j, eos);
    MarksAreEos(s, first, lo, i, j, eos);
    hide Stream, InWindow, SeqAt, EosSentAs, EosIn, Marks;
    assert marks !! missing;
    assert marks + missing == EosIn(s, first, i, j);
  }

  /** More frames of the gap went unsent than end-of-stream marks of it went unrecorded. */
  ghost predicate MoreUnsent(s: seq<Sent>, first: nat, a: nat, b: nat, eos: seq<nat>)
    requires SentFrame(s, a) && SentFrame(s, b) && IndexOf(s, a) <= IndexOf(s, b)
  {
    |UnsentIn(s, a, b)| > |Unrecorded(s, first, IndexOf(s, a), IndexOf(s, b), eos)|
  }

  /** The verdict on a gap: it reads as silence exactly if more of it went unsent than marks of it went unrecorded. */
  lemma {:induction false} VerdictIsExact(rx: Rx, s: seq<Sent>, first: nat, lo: nat, nextFrame: nat)
    requires Stream(s) && Tracks(rx, s, first, lo) && rx.started
    requires nextFrame in rx.buffer && rx.lastFrame < nextFrame
    ensures SentFrame(s, rx.lastFrame) && SentFrame(s, nextFrame) && IndexOf(s, rx.lastFrame) < IndexOf(s, nextFrame)
    ensures ReadsAsSilence(rx, nextFrame, rx.buffer[nextFrame].seqNo)
       <==> MoreUnsent(s, first, rx.lastFrame, nextFrame, rx.eos)
  {
    var i, j := IndexOf(s, rx.lastFrame), IndexOf(s, nextFrame);
    GapEnds(rx, s, first, lo, nextFrame);
    hide SeqAt, WrappingSub, Tracks, Stream, InWindow, SentFrame, UnsentIn, FramesIn, EosIn, Marks, AllRecorded, EosInSpan,
      Unrecorded;
    StepsSplit(s, first, i, j);
    FramesFill(s, i, j);
    MarksCounted(rx.eos, rx.lastSeq, j - i);
    MarksAndUnrecorded(s, first, lo, i, j, rx.eos);
  }

  /**
   So silence is only ever read where some frame was never sent: pure loss is never called silence, whichever marks
   arrived. With every mark of the gap on record, any unsent frame suffices.
   */
  lemma {:induction false} VerdictIsSound(rx: Rx, s: seq<Sent>, first: nat, lo: nat, nextFrame: nat)
    requires Stream(s) && Tracks(rx, s, first, lo) && rx.started
    requires nextFrame in rx.buffer && rx.lastFrame < nextFrame
    ensures SentFrame(s, rx.lastFrame) && SentFrame(s, nextFrame)
    ensures ReadsAsSilence(rx, nextFrame, rx.buffer[nextFrame].seqNo) ==> UnsentIn(s, rx.lastFrame, nextFrame) != {}
    ensures AllRecorded(s, first, IndexOf(s, rx.lastFrame), IndexOf(s, nextFrame), rx.eos) ==>
      (ReadsAsSilence(rx, nextFrame, rx.buffer[nextFrame].seqNo) <==> UnsentIn(s, rx.lastFrame, nextFrame) != {})
  {
    VerdictIsExact(rx, s, first, lo, nextFrame);
    NoneMissing(s, first, IndexOf(s, rx.lastFrame), IndexOf(s, nextFrame), rx.eos);
    hide Tracks, Stream, SentFrame, UnsentIn, Unrecorded, AllRecorded, ReadsAsSilence;
  }

  // ---- Runs over a lossy, reordering network

  datatype NetEvent =
    | Deliver(k: nat, opus: Opus, now: real)
    | Tick(now: real, decodeOk: bool, fecOk: bool)

  /** A datagram arrives, any number of times and in any order, or playout ticks. */
  ghost function NetStep(rx: Rx, s: seq<Sent>, first: nat, e: NetEvent): Rx {
    match e
    case Deliver(k, opus, now) =>
      if k >= |s| then rx
      else if s[k].Voice? then Insert(rx, SeqAt(first, k), s[k].frame * FRAME_US, opus, now)
      else MarkEos(rx, SeqAt(first, k))
    case Tick(now, decodeOk, fecOk) => Decode(rx, now, decodeOk, fecOk).0
  }

  ghost function NetRun(rx: Rx, s: seq<Sent>, first: nat, es: seq<NetEvent>): Rx {
    if es == [] then rx else NetStep(NetRun(rx, s, first, es[..|es| - 1]), s, first, es[|es| - 1])
  }

  ghost predicate AllInWindow(es: seq<NetEvent>, lo: nat) {
    forall e :: e in es && e.Deliver? ==> InWindow(e.k, lo)
  }

  lemma {:induction false} SentHere(s: seq<Sent>, first: nat, lo: nat, k: nat)
    requires Stream(s) && k < |s| && s[k].Voice? && InWindow(k, lo)
    ensures SentAs(s, first, lo, s[k].frame, SeqAt(first, k))
  {
    hide SeqAt;
    assert SentFrame(s, s[k].frame);
    var i := IndexOf(s, s[k].frame);
    assert i == k;
  }

  /** What an insert may do to the parts of the state that refer to the sender. */
  ghost predicate RefersOnly(rx: Rx, r: Rx, frame: nat, seqNo: nat) {
    && (forall f :: f in r.buffer ==>
          (f in rx.buffer && r.buffer[f] == rx.buffer[f]) || (f == frame && r.buffer[f].seqNo == seqNo))
    && (r.started ==> rx.started) && r.lastSeq == rx.lastSeq && r.lastFrame == rx.lastFrame
    && (r.eos == rx.eos || r.eos == [])
  }

  lemma {:induction false} AcceptRefers(rx: Rx, frame: nat, p: Packet)
    requires Anchored(rx) && (rx.started ==> rx.nextPlay <= frame) && Arriving(rx, p)
    ensures RefersOnly(rx, Accept(rx, frame, p), frame, p.seqNo)
  {
    hide Ledger, Anchored, KeepsFates, Trim, MinKey, OldestWent, TooDeep, Room;
    StoredAnchored(rx, frame, p);
    StoredLedger(rx, frame, p);
    TrimKeeps(Stored(rx, frame, p));
  }

  lemma {:induction false} PlacedRefers(rx: Rx, frame: nat, p: Packet)
    requires Inv(rx) && Arriving(rx, p)
    ensures RefersOnly(rx, Placed(rx, frame, p), frame, p.seqNo)
  {
    hide Accept, Ledger, FatesOf, KeepsFates, Limits;
    if rx.started && frame < rx.nextPlay {
      AllCleared(rx.buffer, rx.book.(received := p.arrival));
      AcceptRefers(Reanchor(ClearedBuffer(rx), frame), frame, p);
    } else {
      AcceptRefers(rx, frame, p);
    }
  }

  lemma {:induction false} InsertRefers(rx: Rx, seqNo: nat, frame: nat, opus: Opus, now: real)
    requires Good(rx)
    ensures RefersOnly(rx, Insert(rx, seqNo, frame * FRAME_US, opus, now), frame, seqNo)
  {
    hide UpdateJitter, Inv, Balanced, RefersOnly, Placed, Good;
    var u := UpdateJitter(rx.(book := rx.book.(received := rx.book.received + 1)), frame, now);
    var p := Packet(seqNo, opus, rx.book.received);
    UpdatedSame(rx, frame, now);
    Playout.FrameOfTimestamp(frame);
    UpdateRefers(rx.(book := rx.book.(received := rx.book.received + 1)), frame, now);
    ArrivedRefers(rx, u, frame, p);
  }

  lemma {:induction false} UpdateRefers(rx: Rx, frame: nat, now: real)
    ensures var u := UpdateJitter(rx, frame, now); u.lastSeq == rx.lastSeq && u.lastFrame == rx.lastFrame && u.eos == rx.eos
  {
    hide NextJitter, TargetFor;
  }

  lemma {:induction false} ArrivedRefers(rx: Rx, u: Rx, frame: nat, p: Packet)
    requires Good(rx) && Inv(u) && p.arrival == rx.book.received && u.book == rx.book.(received := rx.book.received + 1)
    requires u.buffer == rx.buffer && u.started == rx.started
    requires u.lastSeq == rx.lastSeq && u.lastFrame == rx.lastFrame && u.eos == rx.eos
    ensures RefersOnly(rx, Placed(u, frame, p), frame, p.seqNo)
  {
    assert u.book.(received := p.arrival) == rx.book;
    hide Placed, Ledger, Inv, Balanced, RefersOnly;
    PlacedRefers(u, frame, p);
    hide Good, Arriving;
    RefersFrom(rx, u, Placed(u, frame, p), frame, p.seqNo);
  }

  lemma {:induction false} RefersFrom(rx: Rx, u: Rx, r: Rx, frame: nat, seqNo: nat)
    requires RefersOnly(u, r, frame, seqNo) && u.buffer == rx.buffer && u.started == rx.started
    requires u.lastSeq == rx.lastSeq && u.lastFrame == rx.lastFrame && u.eos == rx.eos
    ensures RefersOnly(rx, r, frame, seqNo)
  {
  }

  lemma {:induction false} RefersTracks(rx: Rx, r: Rx, s: seq<Sent>, first: nat, lo: nat, frame: nat, seqNo: nat)
    requires Tracks(rx, s, first, lo) && RefersOnly(rx, r, frame, seqNo) && SentAs(s, first, lo, frame, seqNo)
    ensures Tracks(r, s, first, lo)
  {
    hide SentAs, EosSentAs;
  }

  lemma {:induction false} MarkTracks(rx: Rx, s: seq<Sent>, first: nat, lo: nat, k: nat)
    requires Tracks(rx, s, first, lo) && k < |s| && s[k].EosMark? && InWindow(k, lo)
    ensures Tracks(MarkEos(rx, SeqAt(first, k)), s, first, lo)
  {
    assert EosSentAs(s, first, lo, SeqAt(first, k));
    hide SentAs, EosSentAs, SeqAt;
  }

  lemma {:induction false} StillAheadDistinct(eos: seq<nat>, played: nat)
    requires Distinct(eos)
    ensures Distinct(StillAhead(eos, played))
    decreases |eos|
  {
    hide WrappingSub;
    if eos != [] {
      var rest := eos[..|eos| - 1];
      StillAheadDistinct(rest, played);
      StillAheadShorter(rest, played);
      assert eos[|eos| - 1] !in rest;
    }
  }

  lemma {:induction false} SameTracks(rx: Rx, r: Rx, s: seq<Sent>, first: nat, lo: nat)
    requires Tracks(rx, s, first, lo) && r.buffer == rx.buffer && r.eos == rx.eos
    requires r.started == rx.started && r.lastFrame == rx.lastFrame && r.lastSeq == rx.lastSeq
    ensures Tracks(r, s, first, lo)
  {
  }

  lemma {:induction false} PlayTracks(rx: Rx, s: seq<Sent>, first: nat, lo: nat, decodeOk: bool)
    requires Tracks(rx, s, first, lo) && rx.nextPlay in rx.buffer
    ensures Tracks(PlayFrame(rx, decodeOk).0, s, first, lo)
  {
    hide SentAs, EosSentAs, StillAhead;
    StillAheadDistinct(rx.eos, rx.buffer[rx.nextPlay].seqNo);
    StillAheadShorter(rx.eos, rx.buffer[rx.nextPlay].seqNo);
    hide Distinct;
  }

  lemma {:induction false} GapTracks(rx: Rx, s: seq<Sent>, first: nat, lo: nat, fecOk: bool)
    requires Tracks(rx, s, first, lo) && rx.nextPlay !in rx.buffer
    ensures Tracks(AtGap(rx, fecOk).0, s, first, lo)
  {
    hide SentAs, EosSentAs, ReadsAsSilence, Ahead, MinKey;
  }

  lemma {:induction false} DecodeTracks(rx: Rx, s: seq<Sent>, first: nat, lo: nat, now: real, decodeOk: bool, fecOk: bool)
    requires Tracks(rx, s, first, lo)
    ensures Tracks(Decode(rx, now, decodeOk, fecOk).0, s, first, lo)
  {
    hide SentAs, EosSentAs, Stale, ReadsAsSilence, StillAhead, Depth, Distinct, PlayFrame, AtGap;
    var r := rx.(ended := rx.ended || Stale(rx, now), prime := false);
    SameTracks(rx, r, s, first, lo);
    SameTracks(rx, rx.(ended := rx.ended || Stale(rx, now)), s, first, lo);
    if r.nextPlay in r.buffer {
      PlayTracks(r, s, first, lo, decodeOk);
    } else {
      GapTracks(r, s, first, lo, fecOk);
    }
  }

  lemma {:induction false} NetStepTracks(rx: Rx, s: seq<Sent>, first: nat, lo: nat, e: NetEvent)
    requires Stream(s) && Good(rx) && Tracks(rx, s, first, lo) && (e.Deliver? ==> InWindow(e.k, lo))
    ensures Good(NetStep(rx, s, first, e)) && Tracks(NetStep(rx, s, first, e), s, first, lo)
  {
    hide Tracks, Insert, Decode, Received, Kept, SeqAt, KeepsFates, Good, Stream;
    match e
    case Deliver(k, opus, now) =>
      if k < |s| && s[k].Voice? {
        var n, f := SeqAt(first, k), s[k].frame;
        var r := Insert(rx, n, f * FRAME_US, opus, now);
        InsertKeeps(rx, n, f * FRAME_US, opus, now);
        Playout.ReceivedGood(rx, f * FRAME_US / FRAME_US, r);
        InsertRefers(rx, n, f, opus, now);
        SentHere(s, first, lo, k);
        hide RefersOnly, SentAs;
        RefersTracks(rx, r, s, first, lo, f, n);
      } else if k < |s| {
        Playout.StepKeeps(rx, Playout.EosArrives(SeqAt(first, k)));
        MarkTracks(rx, s, first, lo, k);
      }
    case Tick(now, decodeOk, fecOk) =>
      DecodeKeeps(rx, now, decodeOk, fecOk);
      Playout.KeptGood(rx, Decode(rx, now, decodeOk, fecOk).0);
      DecodeTracks(rx, s, first, lo, now, decodeOk, fecOk);
  }

  lemma {:induction false} NetRunTracks(rx: Rx, s: seq<Sent>, first: nat, lo: nat, es: seq<NetEvent>)
    requires Stream(s) && Good(rx) && Tracks(rx, s, first, lo) && AllInWindow(es, lo)
    ensures Good(NetRun(rx, s, first, es)) && Tracks(NetRun(rx, s, first, es), s, first, lo)
    decreases |es|
  {
    if es != [] {
      assert AllInWindow(es[..|es| - 1], lo);
      assert es[|es| - 1] in es;
      hide Tracks, Good, Stream, NetStep;
      NetRunTracks(rx, s, first, lo, es[..|es| - 1]);
      NetStepTracks(NetRun(rx, s, first, es[..|es| - 1]), s, first, lo, es[|es| - 1]);
    }
  }

  /** The outcome is a verdict on the gap at the cursor, which ends at `next`. */
  ghost predicate Judges(rx: Rx, o: Outcome, next: nat) {
    && rx.started && next in rx.buffer && rx.lastFrame < rx.nextPlay < next
    && (if o.Reanchored? then o.to == next && ReadsAsSilence(rx, next, rx.buffer[next].seqNo)
        else (o == Concealed(rx.nextPlay) || (o.Recovered? && o.frame == rx.nextPlay))
             && !ReadsAsSilence(rx, next, rx.buffer[next].seqNo))
  }

  lemma {:induction false} GapJudged(rx: Rx, now: real, decodeOk: bool, fecOk: bool)
    requires Good(rx)
    ensures var o := Decode(rx, now, decodeOk, fecOk).1;
      o.Reanchored? || o.Concealed? || o.Recovered? ==> Ahead(rx) != map[] && Judges(rx, o, MinKey(Ahead(rx)))
  {
    hide Ledger, Balanced, Limits, Stale, Depth, EosInSpan, WrappingSub, StillAhead;
    var q := rx.(ended := rx.ended || Stale(rx, now), prime := false);
    assert Ahead(q) == Ahead(rx);
    if ReadyToPlay(rx) && rx.nextPlay !in rx.buffer {
      GapMeansStarted(rx);
    }
  }

  /**
   What a tick concludes from a gap, in terms of what the sender did: it re-anchors exactly if more frames of the gap
   went unsent than marks went unrecorded; otherwise it counts a frame as lost, one that was sent if no mark is missing.
   */
  ghost predicate Truthful(rx: Rx, s: seq<Sent>, first: nat, o: Outcome, next: nat) {
    && SentFrame(s, rx.lastFrame) && SentFrame(s, next) && IndexOf(s, rx.lastFrame) < IndexOf(s, next)
    && rx.lastFrame < rx.nextPlay < next
    && (o.Reanchored? <==> MoreUnsent(s, first, rx.lastFrame, next, rx.eos))
    && (o.Reanchored? ==> o.to == next)
    && (!o.Reanchored? && AllRecorded(s, first, IndexOf(s, rx.lastFrame), IndexOf(s, next), rx.eos) ==>
          SentFrame(s, rx.nextPlay))
  }

  lemma {:induction false} JudgedTruthfully(rx: Rx, s: seq<Sent>, first: nat, lo: nat, o: Outcome, next: nat)
    requires Stream(s) && Tracks(rx, s, first, lo) && Judges(rx, o, next)
    ensures Truthful(rx, s, first, o, next)
  {
    VerdictIsExact(rx, s, first, lo, next);
    NoneMissing(s, first, IndexOf(s, rx.lastFrame), IndexOf(s, next), rx.eos);
    hide Tracks, Stream, AllRecorded, Unrecorded, EosInSpan, WrappingSub, SentFrame;
    if !SentFrame(s, rx.nextPlay) {
      assert rx.nextPlay in UnsentIn(s, rx.lastFrame, next);
    }
  }

  /**
   Over any run in which datagrams are lost, repeated and reordered, inside one window: playout is re-anchored exactly
   over the gaps of which more went unsent than marks went unrecorded, and what is counted as lost was really sent, if no
   mark of the gap is missing.
   */
  lemma {:induction false} VerdictsAreTruthful(rx: Rx, s: seq<Sent>, first: nat, lo: nat, es: seq<NetEvent>,
                                               now: real, decodeOk: bool, fecOk: bool)
    requires Stream(s) && Good(rx) && Tracks(rx, s, first, lo) && AllInWindow(es, lo)
    ensures var r := NetRun(rx, s, first, es); var o := Decode(r, now, decodeOk, fecOk).1;
      o.Reanchored? || o.Concealed? || o.Recovered? ==>
        Ahead(r) != map[] && Truthful(r, s, first, o, MinKey(Ahead(r)))
  {
    NetRunTracks(rx, s, first, lo, es);
    hide NetRun, Good, Tracks, Truthful, Decode, Judges, Stream, AllInWindow;
    var r := NetRun(rx, s, first, es);
    GapJudged(r, now, decodeOk, fecOk);
    var o := Decode(r, now, decodeOk, fecOk).1;
    if o.Reanchored? || o.Concealed? || o.Recovered? {
      JudgedTruthfully(r, s, first, lo, o, MinKey(Ahead(r)));
    }
  }

  /** A fresh peer refers to nothing yet, so every run from it is covered, for any window. */
  lemma {:induction false} FreshTracks(baseDelay: nat, now: real, s: seq<Sent>, first: nat, lo: nat)
    ensures Good(Fresh(baseDelay, now)) && Tracks(Fresh(baseDelay, now), s, first, lo)
  {
    FreshGood(baseDelay, now);
    hide SentAs, EosSentAs;
  }
}
