/** A gate opening heard from the other end: what the flushed burst does to playout, for gaps of every length. */
module Onset {
  import opened MediaClock
  import opened PreRoll
  import opened JitterBuffer
  import opened JitterRuns
  import opened Playout
  import opened Verdict
  import opened VoicePath
  import G = CaptureGate

  // ---- A burst off the network

  /** Datagrams `k` on are the frames from `frame` on. */
  ghost predicate BurstAt(s: seq<Sent>, k: nat, n: nat, frame: nat) {
    k + n <= |s| && forall m :: k <= m < k + n ==> s[m] == Voice(frame + (m - k))
  }

  /** They arrive back to back, with these contents and at these times. */
  ghost function Deliveries(k: nat, datas: seq<(Opus, real)>): seq<NetEvent> {
    seq(|datas|, m requires 0 <= m < |datas| => Deliver(k + m, datas[m].0, datas[m].1))
  }

  /** Within the burst sequence and frame advance together. */
  function Shift(first: nat, k: nat, frame: nat): int {
    first + k - frame
  }

  lemma {:induction false} DeliveryIs(r: Rx, s: seq<Sent>, first: nat, k: nat, frame: nat, m: nat, opus: Opus, now: real)
    requires k + m < |s| && s[k + m] == Voice(frame + m)
    ensures NetStep(r, s, first, Deliver(k + m, opus, now))
         == Insert(r, SeqFor(Shift(first, k, frame), frame + m), (frame + m) * FRAME_US, opus, now)
  {
    hide Insert;
  }

  lemma {:induction false} BurstIsRun(rx: Rx, s: seq<Sent>, first: nat, k: nat, frame: nat, datas: seq<(Opus, real)>)
    requires BurstAt(s, k, |datas|, frame)
    ensures NetRun(rx, s, first, Deliveries(k, datas)) == InsertBurst(rx, frame, Shift(first, k, frame), datas)
    decreases |datas|
  {
    if datas != [] {
      var n := |datas| - 1;
      BurstIsRun(rx, s, first, k, frame, datas[..n]);
      DeliveriesGrow(k, datas);
      BurstStep(rx, s, first, k, frame, datas, InsertBurst(rx, frame, Shift(first, k, frame), datas[..n]));
      hide Insert, Deliveries, NetStep, SeqFor, Shift, BurstAt;
    }
  }

  lemma {:induction false} DeliveriesGrow(k: nat, datas: seq<(Opus, real)>)
    requires datas != []
    ensures var n, es := |datas| - 1, Deliveries(k, datas);
            |es| == n + 1 && es[..n] == Deliveries(k, datas[..n]) && es[n] == Deliver(k + n, datas[n].0, datas[n].1)
  {
  }

  lemma {:induction false} BurstStep(rx: Rx, s: seq<Sent>, first: nat, k: nat, frame: nat, datas: seq<(Opus, real)>, r: Rx)
    requires BurstAt(s, k, |datas|, frame) && datas != []
    requires r == InsertBurst(rx, frame, Shift(first, k, frame), datas[..|datas| - 1])
    ensures NetStep(r, s, first, Deliver(k + |datas| - 1, datas[|datas| - 1].0, datas[|datas| - 1].1))
         == InsertBurst(rx, frame, Shift(first, k, frame), datas)
  {
    hide NetStep, Insert, SeqFor, Shift, InsertBurst;
    var n := |datas| - 1;
    BurstGrows(rx, frame, Shift(first, k, frame), datas);
    DeliveryIs(r, s, first, k, frame, n, datas[n].0, datas[n].1);
  }

  lemma {:induction false} BurstGrows(rx: Rx, frame: nat, shift: int, datas: seq<(Opus, real)>)
    requires datas != []
    ensures InsertBurst(rx, frame, shift, datas)
         == Insert(InsertBurst(rx, frame, shift, datas[..|datas| - 1]), SeqFor(shift, frame + |datas| - 1),
                   (frame + |datas| - 1) * FRAME_US, datas[|datas| - 1].0, datas[|datas| - 1].1)
  {
    hide Insert;
  }

  /** A receiver that has played frame `last` and holds nothing more. */
  ghost predicate Drained(rx: Rx, s: seq<Sent>, first: nat, lo: nat, last: nat) {
    Good(rx) && Tracks(rx, s, first, lo) && rx.started && rx.buffer == map[] && rx.lastFrame == last
  }

  lemma {:induction false} BurstTracks(rx: Rx, s: seq<Sent>, first: nat, lo: nat, k: nat, frame: nat, datas: seq<(Opus, real)>)
    requires Stream(s) && Good(rx) && Tracks(rx, s, first, lo) && BurstAt(s, k, |datas|, frame)
    requires lo <= k && k + |datas| <= lo + WINDOW
    ensures Tracks(InsertBurst(rx, frame, Shift(first, k, frame), datas), s, first, lo)
  {
    BurstIsRun(rx, s, first, k, frame, datas);
    NetRunTracks(rx, s, first, lo, Deliveries(k, datas));
    hide Tracks, Stream, Good, NetRun, InsertBurst;
  }

  /** With the burst ahead of the cursor, the next tick re-anchors at its first frame exactly if the gap reads as silence. */
  lemma {:induction false} BurstJudged(rx: Rx, s: seq<Sent>, first: nat, lo: nat, last: nat, k: nat, frame: nat,
                                       datas: seq<(Opus, real)>, now: real, decodeOk: bool, fecOk: bool)
    requires Stream(s) && Drained(rx, s, first, lo, last) && BurstAt(s, k, |datas|, frame)
    requires lo <= k && k + |datas| <= lo + WINDOW && 0 < |datas| <= PRE_ROLL_FRAMES + 1 && rx.nextPlay < frame
    ensures SentFrame(s, last) && SentFrame(s, frame) && IndexOf(s, last) < IndexOf(s, frame)
    ensures var r := NetRun(rx, s, first, Deliveries(k, datas)); var (r', o) := Decode(r, now, decodeOk, fecOk);
            && (o == Reanchored(frame) <==> MoreUnsent(s, first, last, frame, rx.eos))
            && (o == Reanchored(frame) ==> r'.nextPlay == frame && HoldsRun(r', frame, Shift(first, k, frame), |datas|))
  {
    var shift, n := Shift(first, k, frame), |datas|;
    var r := InsertBurst(rx, frame, shift, datas);
    BurstIsRun(rx, s, first, k, frame, datas);
    BurstTracks(rx, s, first, lo, k, frame, datas);
    BurstAbsorbed(rx, frame, shift, datas);
    AfterBurst(rx, r, frame, shift, n, now, decodeOk, fecOk);
    BurstGap(rx, r, s, first, lo, frame, shift, n);
    hide Tracks, Stream, Good, NetRun, InsertBurst, Decode, ReadsAsSilence, MoreUnsent, HoldsRun, BurstAt, SeqFor;
  }

  lemma {:induction false} BurstGap(rx: Rx, r: Rx, s: seq<Sent>, first: nat, lo: nat, frame: nat, shift: int, n: nat)
    requires Stream(s) && Good(rx) && Tracks(r, s, first, lo) && Absorbed(rx, r, frame, shift, n)
    requires rx.started && 0 < n && rx.nextPlay < frame
    ensures SentFrame(s, rx.lastFrame) && SentFrame(s, frame) && IndexOf(s, rx.lastFrame) < IndexOf(s, frame)
    ensures ReadsAsSilence(rx, frame, SeqFor(shift, frame)) <==> MoreUnsent(s, first, rx.lastFrame, frame, rx.eos)
  {
    assert frame in r.buffer && r.buffer[frame].seqNo == SeqFor(shift, frame);
    assert rx.lastFrame < frame;
    hide HoldsRun, Good, Tracks, Stream, SeqFor;
    VerdictIsExact(r, s, first, lo, frame);
    hide MoreUnsent, EosInSpan, WrappingSub;
  }

  /** With the burst at the cursor, playout is straight: each tick decodes the next frame of the burst. */
  lemma {:induction false} BurstPlays(rx: Rx, s: seq<Sent>, first: nat, k: nat, frame: nat, datas: seq<(Opus, real)>,
                                      ticks: seq<(real, bool, bool)>)
    requires Good(rx) && rx.started && rx.buffer == map[] && rx.nextPlay == frame && BurstAt(s, k, |datas|, frame)
    requires |ticks| <= |datas| <= PRE_ROLL_FRAMES + 1
    ensures var r := NetRun(rx, s, first, Deliveries(k, datas)); var (r', os) := DecodeAll(r, ticks);
            |os| == |ticks| && forall i :: 0 <= i < |os| ==> FromFrame(os[i], frame + i, ticks[i].1)
  {
    hide NetRun, InsertBurst, DecodeAll, FromFrame, RunAtCursor, Deliveries, BurstAt, Good, Shift;
    var shift := Shift(first, k, frame);
    BurstIsRun(rx, s, first, k, frame, datas);
    BurstPoised(rx, frame, shift, datas);
    PlaysThrough(InsertBurst(rx, frame, shift, datas), shift, |datas|, ticks);
  }

  lemma {:induction false} BurstPoised(rx: Rx, frame: nat, shift: int, datas: seq<(Opus, real)>)
    requires Good(rx) && rx.started && rx.buffer == map[] && rx.nextPlay == frame && |datas| <= PRE_ROLL_FRAMES + 1
    ensures var r := InsertBurst(rx, frame, shift, datas); RunAtCursor(r, shift, |datas|) && r.nextPlay == frame
  {
    BurstAbsorbed(rx, frame, shift, datas);
    hide Good, HoldsRun, InsertBurst, Depth;
  }

  // ---- A gate opening

  /** After unsuppressed frame `i` the gate was closed until frame `j`, the last one, on an unbroken clock. */
  ghost predicate Opens(cs: seq<G.Capture>, i: nat, j: nat) {
    && i < j && |cs| == j + 1 && !cs[i].suppress && !cs[j].suppress && (forall k :: i < k < j ==> cs[k].suppress)
    && cs[j].index - cs[i].index == j - i
  }

  /** How many stashed frames the opening sends: the whole gap, or as much of it as the ring holds. */
  function FlushOf(i: nat, j: nat): nat
    requires i < j
  {
    if j - i - 1 <= PRE_ROLL_FRAMES then j - i - 1 else PRE_ROLL_FRAMES
  }

  lemma {:induction false} ClockSteps(cs: seq<G.Capture>, i: nat, j: nat, k: nat)
    requires G.ClockAdvances(cs) && Opens(cs, i, j) && i <= k <= j
    ensures cs[k].index == cs[i].index + (k - i)
  {
    G.ClockGap(cs, i, k);
    G.ClockGap(cs, k, j);
  }

  lemma {:induction false} FlushLenIs(cs: seq<G.Capture>, i: nat, j: nat)
    requires G.ClockAdvances(cs) && Opens(cs, i, j)
    ensures G.FlushLen(cs, j) == FlushOf(i, j)
  {
    ClockSteps(cs, i, j, j - 1);
    var n := FlushOf(i, j);
    ClockSteps(cs, i, j, j - n - 1);
    ClockSteps(cs, i, j, j - n);
    G.TailIs(cs, j, j - n - 1);
    if n > 0 {
      G.TailIs(cs, j, j - n);
    }
    hide G.TailLen, G.ClockAdvances;
  }

  /** The first frame the opening sends. */
  function OnsetOf(cs: seq<G.Capture>, i: nat, j: nat): nat
    requires i < j < |cs|
  {
    cs[j - FlushOf(i, j)].index
  }

  lemma {:induction false} EndsInBurst(cs: seq<G.Capture>, i: nat, j: nat)
    requires G.ClockAdvances(cs) && Opens(cs, i, j)
    ensures var ms, n := G.Run(cs).1, FlushOf(i, j);
            |ms| > n && ms[|ms| - n - 1..] == G.Encoded(G.SlotsOf(cs[j - n..j])) + [G.FrameOf(cs[j])]
  {
    hide G.Run, G.FlushLen, G.TailLen, Flushed, G.SlotsOf, FlushOf, G.Encoded;
    var n := FlushOf(i, j);
    assert cs[..j + 1] == cs;
    FlushLenIs(cs, i, j);
    G.RingIsTail(cs, j);
    G.RunStep(cs, j);
    G.FlushedTail(cs, j);
    SlotsCount(cs[j - n..j]);
    LastPart(G.Run(cs[..j]).1, G.Stopped(cs[j]), G.Encoded(G.SlotsOf(cs[j - n..j])), G.FrameOf(cs[j]));
  }

  lemma {:induction false} LastPart(a: seq<G.Message>, b: seq<G.Message>, c: seq<G.Message>, x: G.Message)
    ensures var all := a + (b + c + [x]); all[|all| - |c| - 1..] == c + [x]
  {
  }

  lemma {:induction false} SlotsCount(cs: seq<G.Capture>)
    ensures |G.Encoded(G.SlotsOf(cs))| == |cs|
  {
  }

  /** The opening sends the burst as the last datagrams so far: consecutive frames up to the opening one. */
  lemma {:induction false} OpeningSendsBurst(cs: seq<G.Capture>, i: nat, j: nat)
    requires G.ClockAdvances(cs) && Opens(cs, i, j)
    ensures var s, n := Datagrams(cs), FlushOf(i, j) + 1;
            n <= |s| && BurstAt(s, |s| - n, n, OnsetOf(cs, i, j)) && OnsetOf(cs, i, j) == cs[i].index + (j - i - FlushOf(i, j))
  {
    hide G.Run, G.ClockAdvances;
    var s, ms, n := Datagrams(cs), G.Run(cs).1, FlushOf(i, j) + 1;
    EndsInBurst(cs, i, j);
    ClockSteps(cs, i, j, j - (n - 1));
    var burst := ms[|ms| - n..];
    forall m | |s| - n <= m < |s| ensures s[m] == Voice(OnsetOf(cs, i, j) + (m - (|s| - n))) {
      var k := m - (|s| - n);
      ClockSteps(cs, i, j, j - (n - 1) + k);
      assert ms[m] == burst[k];
    }
  }

  /** Nothing is sent between the frame that closed the gate and the first one the opening sends. */
  lemma {:induction false} GapIsUndue(cs: seq<G.Capture>, i: nat, j: nat)
    requires G.ClockAdvances(cs) && Opens(cs, i, j)
    ensures |UndueIn(cs, cs[i].index, OnsetOf(cs, i, j))| == j - i - 1 - FlushOf(i, j)
  {
    var a, b := cs[i].index, OnsetOf(cs, i, j);
    ClockSteps(cs, i, j, j - FlushOf(i, j));
    forall k: nat | i < k < j - FlushOf(i, j) ensures !G.IsSent(cs, |cs|, k) {
    }
    hide Due;
    assert UndueIn(cs, a, b) == Between(a, b - 1);
  }

  /**
   A gap longer than the ring: whatever the target, the tick after the flushed burst re-anchors playout at its first
   frame exactly if fewer marks of the gap are missing than the gap has frames beyond the ring. So it does if none is.
   */
  lemma {:induction false} LongGapReanchors(cs: seq<G.Capture>, i: nat, j: nat, rx: Rx, first: nat, lo: nat,
                                            datas: seq<(Opus, real)>, now: real, decodeOk: bool, fecOk: bool)
    requires G.ClockAdvances(cs) && Opens(cs, i, j) && j - i - 1 > PRE_ROLL_FRAMES
    requires Drained(rx, Datagrams(cs), first, lo, cs[i].index) && rx.nextPlay < OnsetOf(cs, i, j)
    requires |datas| == PRE_ROLL_FRAMES + 1 && lo + |datas| <= |Datagrams(cs)| <= lo + WINDOW
    ensures BothSent(cs, cs[i].index, OnsetOf(cs, i, j))
    ensures var s, frame := Datagrams(cs), OnsetOf(cs, i, j);
            var r := NetRun(rx, s, first, Deliveries(|s| - |datas|, datas));
            var (r', o) := Decode(r, now, decodeOk, fecOk);
            && (o == Reanchored(frame) <==>
                  j - i - 1 - PRE_ROLL_FRAMES > |MissingMarks(cs, first, cs[i].index, frame, rx.eos)|)
            && (o == Reanchored(frame) ==> r'.nextPlay == frame)
  {
    hide NetRun, Decode, Deliveries, Datagrams, Stream, BurstAt, UndueIn, UnsentIn, Unrecorded, HoldsRun, Good, Tracks;
    var s := Datagrams(cs);
    assert Stream(s) by {
      G.GateFeedsVerdict(cs);
      DatagramsAre(cs);
    }
    OpeningSendsBurst(cs, i, j);
    GapIsUndue(cs, i, j);
    UnsentIsUndue(cs, cs[i].index, OnsetOf(cs, i, j));
    BurstJudged(rx, s, first, lo, cs[i].index, |s| - |datas|, OnsetOf(cs, i, j), datas, now, decodeOk, fecOk);
  }

  lemma {:induction false} DatagramsAre(cs: seq<G.Capture>)
    ensures Datagrams(cs) == G.Numbered(G.Run(cs).1)
  {
  }

  /** A gap that fits the ring: playout continues with the frame after the last one, straight through the opening. */
  lemma {:induction false} ShortGapPlaysThrough(cs: seq<G.Capture>, i: nat, j: nat, rx: Rx, first: nat,
                                                datas: seq<(Opus, real)>, ticks: seq<(real, bool, bool)>)
    requires G.ClockAdvances(cs) && Opens(cs, i, j) && j - i - 1 <= PRE_ROLL_FRAMES
    requires Good(rx) && rx.started && rx.buffer == map[] && rx.nextPlay == cs[i].index + 1
    requires |datas| == j - i && |ticks| <= |datas|
    ensures var s := Datagrams(cs);
            |s| >= |datas| &&
            var (r, os) := DecodeAll(NetRun(rx, s, first, Deliveries(|s| - |datas|, datas)), ticks);
            |os| == |ticks| && forall k :: 0 <= k < |os| ==> FromFrame(os[k], cs[i + 1 + k].index, ticks[k].1)
  {
    hide NetRun, DecodeAll, Deliveries, Datagrams, BurstAt, FromFrame, Good;
    var s := Datagrams(cs);
    OpeningSendsBurst(cs, i, j);
    BurstPlays(rx, s, first, |s| - |datas|, OnsetOf(cs, i, j), datas, ticks);
    var os := DecodeAll(NetRun(rx, s, first, Deliveries(|s| - |datas|, datas)), ticks).1;
    forall k | 0 <= k < |os| ensures FromFrame(os[k], cs[i + 1 + k].index, ticks[k].1) {
      ClockSteps(cs, i, j, i + 1 + k);
    }
  }
}
