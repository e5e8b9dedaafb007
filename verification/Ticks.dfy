/** What one playout tick does, case by case on the buffer alone, and how the ticks cross a gap of lost frames. */
module Ticks {
  import opened JitterBuffer
  import opened JitterRuns
  import opened Playout
  import Arrival

  /** No packet for a fifth of a second, or the sender said that it stopped. */
  ghost predicate Over(rx: Rx, now: real) {
    rx.ended || (rx.estimate.haveArrival && now - rx.estimate.lastArrival > 200_000.0)
  }

  /** The frame at the cursor is played from its packet, which leaves the buffer; the marks now behind are struck off. */
  ghost predicate PlaysCursor(rx: Rx, now: real, decodeOk: bool, r: Rx, o: Outcome)
    requires rx.nextPlay in rx.buffer
  {
    var f, p := rx.nextPlay, rx.buffer[rx.nextPlay];
    var s := rx.stats;
    && r == rx.(buffer := rx.buffer - {f}, nextPlay := f + 1, started := true, lastSeq := p.seqNo, lastFrame := f,
                ended := Over(rx, now), prime := false, eos := r.eos, book := r.book,
                stats := if decodeOk then s else s.(concealed := s.concealed + 1, decodeErrors := s.decodeErrors + 1))
    && o == (if decodeOk then Played(f, p) else DecodeFailed(f))
    && (forall n :: n in r.eos <==> n in rx.eos && 0 < WrappingSub(n, p.seqNo) < HALF_SEQ_SPACE)
  }

  /** A frame is missed with nothing behind it: it is concealed and its time has passed. */
  ghost predicate Starves(rx: Rx, r: Rx, o: Outcome) {
    && r == rx.(nextPlay := rx.nextPlay + 1, prime := false,
                stats := rx.stats.(concealed := rx.stats.concealed + 1, starved := rx.stats.starved + 1))
    && o == Starved(rx.nextPlay)
  }

  /** The gap before `next` reads as silence: playout waits there for a fresh buffer. */
  ghost predicate SkipsTo(rx: Rx, next: nat, now: real, r: Rx, o: Outcome) {
    && r == rx.(nextPlay := next, started := false, eos := [], ended := Over(rx, now), prime := true)
    && o == Reanchored(next)
  }

  /** The frame at the cursor is lost: recovered if `next` comes right after it and carries a copy, else concealed. */
  ghost predicate LosesCursor(rx: Rx, next: nat, now: real, fecOk: bool, r: Rx, o: Outcome)
    requires next in rx.buffer
  {
    var s := rx.stats.(lost := rx.stats.lost + 1);
    var recovers := next == rx.nextPlay + 1 && fecOk;
    && r == rx.(nextPlay := rx.nextPlay + 1, ended := Over(rx, now), prime := false,
                stats := if recovers then s.(recovered := s.recovered + 1) else s.(concealed := s.concealed + 1))
    && o == if recovers then Recovered(rx.nextPlay, rx.buffer[next]) else Concealed(rx.nextPlay)
  }

  /** What the tick makes of a gap that ends at `next`. */
  ghost predicate MeetsGap(rx: Rx, next: nat, now: real, fecOk: bool, r: Rx, o: Outcome)
    requires next in rx.buffer
  {
    if ReadsAsSilence(rx, next, rx.buffer[next].seqNo) then SkipsTo(rx, next, now, r, o)
    else LosesCursor(rx, next, now, fecOk, r, o)
  }

  /** The whole of a tick. */
  ghost predicate Ticked(rx: Rx, now: real, decodeOk: bool, fecOk: bool, r: Rx, o: Outcome) {
    if !rx.started && |rx.buffer| < rx.target then r == rx && o == Silent
    else if rx.buffer == map[] then
      if Over(rx, now) then r == rx.(ended := true) && o == Silent else Starves(rx, r, o)
    else if rx.nextPlay in rx.buffer then PlaysCursor(rx, now, decodeOk, r, o)
    else
      && rx.started
      && forall next :: next in rx.buffer && (forall f :: f in rx.buffer ==> next <= f) ==>
                          MeetsGap(rx, next, now, fecOk, r, o)
  }

  lemma {:induction false} AheadIs(eos: seq<nat>, played: nat)
    ensures forall n :: n in StillAhead(eos, played) <==> n in eos && 0 < WrappingSub(n, played) < HALF_SEQ_SPACE
    decreases |eos|
  {
    hide WrappingSub;
    if eos != [] {
      var rest := eos[..|eos| - 1];
      AheadIs(rest, played);
      assert eos == rest + [eos[|eos| - 1]];
    }
  }

  lemma {:induction false} PlayTicks(rx: Rx, now: real, decodeOk: bool, fecOk: bool)
    requires ReadyToPlay(rx) && rx.nextPlay in rx.buffer
    ensures var (r, o) := Decode(rx, now, decodeOk, fecOk); PlaysCursor(rx, now, decodeOk, r, o)
  {
    hide Depth, AtGap, StillAhead, WrappingSub;
    AheadIs(rx.eos, rx.buffer[rx.nextPlay].seqNo);
  }

  lemma {:induction false} EmptyTicks(rx: Rx, now: real, decodeOk: bool, fecOk: bool)
    requires Good(rx) && ReadyToPlay(rx) && rx.buffer == map[]
    ensures var (r, o) := Decode(rx, now, decodeOk, fecOk);
      if Over(rx, now) then r == rx.(ended := true) && o == Silent else Starves(rx, r, o)
  {
    hide Good, Depth, ReadsAsSilence, MinKey, PlayFrame;
    var q := rx.(ended := rx.ended || Stale(rx, now), prime := false);
    assert Ahead(q) == map[];
  }

  /** The gap's two readings, with the flags already set. */
  lemma {:induction false} GapIs(q: Rx, next: nat, fecOk: bool)
    requires Anchored(q) && q.nextPlay !in q.buffer && q.started
    requires next in q.buffer && forall f :: f in q.buffer ==> next <= f
    ensures AtGap(q, fecOk)
         == if ReadsAsSilence(q, next, q.buffer[next].seqNo) then (Reanchor(q, next), Reanchored(next))
            else LoseFrame(q, next, fecOk)
  {
    AheadIsAll(q);
    hide Anchored, EosInSpan, WrappingSub, LoseFrame, Ahead;
    assert MinKey(q.buffer) == next;
  }

  lemma {:induction false} DecodeIsGap(rx: Rx, now: real, decodeOk: bool, fecOk: bool)
    requires ReadyToPlay(rx) && rx.nextPlay !in rx.buffer && rx.buffer != map[]
    ensures Decode(rx, now, decodeOk, fecOk) == AtGap(rx.(ended := Over(rx, now), prime := false), fecOk)
  {
    hide Depth, AtGap, PlayFrame;
  }

  lemma {:induction false} GapMet(rx: Rx, next: nat, now: real, fecOk: bool)
    requires next in rx.buffer
    ensures var q := rx.(ended := Over(rx, now), prime := false);
      var (r, o) := if ReadsAsSilence(q, next, q.buffer[next].seqNo) then (Reanchor(q, next), Reanchored(next))
                    else LoseFrame(q, next, fecOk);
      MeetsGap(rx, next, now, fecOk, r, o)
  {
    hide Over, EosInSpan, WrappingSub;
  }

  lemma {:induction false} GapTicks(rx: Rx, now: real, decodeOk: bool, fecOk: bool, next: nat)
    requires Good(rx) && ReadyToPlay(rx) && rx.nextPlay !in rx.buffer && rx.started
    requires next in rx.buffer && forall f :: f in rx.buffer ==> next <= f
    ensures var (r, o) := Decode(rx, now, decodeOk, fecOk); MeetsGap(rx, next, now, fecOk, r, o)
  {
    var q := rx.(ended := Over(rx, now), prime := false);
    assert Anchored(q);
    hide Good, Anchored, Decode, AtGap, ReadsAsSilence, LoseFrame, MeetsGap, Over, ReadyToPlay;
    DecodeIsGap(rx, now, decodeOk, fecOk);
    GapIs(q, next, fecOk);
    GapMet(rx, next, now, fecOk);
  }

  /** What a tick does, by whether playout may run, what is at the cursor and how the gap there reads. */
  lemma {:induction false} TickDoes(rx: Rx, now: real, decodeOk: bool, fecOk: bool)
    requires Good(rx)
    ensures var (r, o) := Decode(rx, now, decodeOk, fecOk); Ticked(rx, now, decodeOk, fecOk, r, o)
  {
    hide PlaysCursor, Starves, MeetsGap, Depth, Over, PlayFrame, AtGap, Stale;
    DepthIsAll(rx);
    if ReadyToPlay(rx) {
      if rx.buffer == map[] {
        hide Good;
        EmptyTicks(rx, now, decodeOk, fecOk);
      } else if rx.nextPlay in rx.buffer {
        hide Good;
        PlayTicks(rx, now, decodeOk, fecOk);
      } else {
        GapMeansStarted(rx);
        hide Good, Decode;
        forall next | next in rx.buffer && (forall f :: f in rx.buffer ==> next <= f)
          ensures var (r, o) := Decode(rx, now, decodeOk, fecOk); MeetsGap(rx, next, now, fecOk, r, o)
        {
          GapTicks(rx, now, decodeOk, fecOk, next);
        }
      }
    } else {
      hide Good;
    }
  }

  // ---- A gap of lost frames

  /** `next` is the first frame buffered, ahead of the cursor, and the gap before it does not read as silence. */
  ghost predicate LossUpTo(rx: Rx, next: nat) {
    && Good(rx) && rx.started && next in rx.buffer && (forall f :: f in rx.buffer ==> next <= f)
    && !ReadsAsSilence(rx, next, rx.buffer[next].seqNo)
  }

  /** Outcome `i` is the loss of frame `from + i`; only the frame right before `next` can be recovered. */
  ghost predicate LostInTurn(os: seq<Outcome>, from: nat, next: nat, donor: Packet, ticks: seq<(real, bool, bool)>) {
    && |os| == |ticks|
    && forall i :: 0 <= i < |os| ==>
         os[i] == if from + i + 1 == next && ticks[i].2 then Recovered(from + i, donor) else Concealed(from + i)
  }

  lemma {:induction false} OneLost(rx: Rx, next: nat, now: real, decodeOk: bool, fecOk: bool)
    requires LossUpTo(rx, next) && rx.nextPlay < next
    ensures var (r, o) := Decode(rx, now, decodeOk, fecOk);
      && LossUpTo(r, next) && r.buffer == rx.buffer && r.nextPlay == rx.nextPlay + 1 && r.stats.lost == rx.stats.lost + 1
      && o == if rx.nextPlay + 1 == next && fecOk then Recovered(rx.nextPlay, rx.buffer[next]) else Concealed(rx.nextPlay)
  {
    hide Good, Decode, EosInSpan, WrappingSub, Kept;
    TickDoes(rx, now, decodeOk, fecOk);
    DecodeKeeps(rx, now, decodeOk, fecOk);
    KeptGood(rx, Decode(rx, now, decodeOk, fecOk).0);
    assert MeetsGap(rx, next, now, fecOk, Decode(rx, now, decodeOk, fecOk).0, Decode(rx, now, decodeOk, fecOk).1);
  }

  /** Playout crosses a gap that reads as loss in as many ticks as frames are missing, and has then reached its end. */
  lemma {:induction false} LossIsCrossed(rx: Rx, next: nat, ticks: seq<(real, bool, bool)>)
    requires LossUpTo(rx, next) && rx.nextPlay + |ticks| <= next
    ensures var (r, os) := DecodeAll(rx, ticks);
      && LossUpTo(r, next) && r.buffer == rx.buffer && r.nextPlay == rx.nextPlay + |ticks|
      && r.stats.lost == rx.stats.lost + |ticks| && LostInTurn(os, rx.nextPlay, next, rx.buffer[next], ticks)
    decreases |ticks|
  {
    hide Good, Decode, ReadsAsSilence;
    if ticks != [] {
      var n := |ticks| - 1;
      LossIsCrossed(rx, next, ticks[..n]);
      OneLost(DecodeAll(rx, ticks[..n]).0, next, ticks[n].0, ticks[n].1, ticks[n].2);
    }
  }

  // ---- The counters

  /** What the tick at the end of the run counts for. */
  ghost function OutcomeOf(rx: Rx, e: Event): Outcome {
    if e.Tick? then Decode(rx, e.now, e.decodeOk, e.fecOk).1 else Silent
  }

  /** How many ticks since the counters were last reset came out like this. */
  ghost function Tally(rx: Rx, es: seq<Event>, like: Outcome -> bool): nat
    decreases |es|
  {
    if es == [] || es[|es| - 1].StatsReset? then 0
    else
      var n := |es| - 1;
      Tally(rx, es[..n], like) + if es[n].Tick? && like(OutcomeOf(Run(rx, es[..n]), es[n])) then 1 else 0
  }

  predicate IsLost(o: Outcome) {
    o.Recovered? || o.Concealed?
  }

  predicate IsRecovered(o: Outcome) {
    o.Recovered?
  }

  predicate IsStarved(o: Outcome) {
    o.Starved?
  }

  predicate IsFailed(o: Outcome) {
    o.DecodeFailed?
  }

  /** Each counter after one event. */
  ghost predicate CountsOn(s: Stats, e: Event, o: Outcome, t: Stats) {
    if e.StatsReset? then t == Stats(0, 0, 0, 0, 0)
    else if e.Tick? then
      && t.lost == s.lost + (if IsLost(o) then 1 else 0) && t.recovered == s.recovered + (if IsRecovered(o) then 1 else 0)
      && t.starved == s.starved + (if IsStarved(o) then 1 else 0)
      && t.decodeErrors == s.decodeErrors + (if IsFailed(o) then 1 else 0)
      && t.concealed == s.concealed + (if o.Concealed? || IsStarved(o) || IsFailed(o) then 1 else 0)
    else t == s
  }

  lemma {:induction false} TickCounts(rx: Rx, now: real, decodeOk: bool, fecOk: bool, r: Rx, o: Outcome)
    requires Ticked(rx, now, decodeOk, fecOk, r, o)
    ensures CountsOn(rx.stats, Tick(now, decodeOk, fecOk), o, r.stats)
  {
    hide Over, ReadsAsSilence, WrappingSub, MinKey;
    if rx.buffer != map[] && rx.nextPlay !in rx.buffer && rx.started {
      assert MinKey(rx.buffer) in rx.buffer && forall f :: f in rx.buffer ==> MinKey(rx.buffer) <= f;
    }
  }

  lemma {:induction false} StepCounts(rx: Rx, e: Event)
    requires Good(rx)
    ensures CountsOn(rx.stats, e, OutcomeOf(rx, e), Step(rx, e).stats)
  {
    hide Decode, Insert, Ticked, Arrival.Measured, Arrival.NewestStay, Arrival.CursorPushed;
    match e
    case Arrives(n, t, opus, now) => Arrival.InsertDoes(rx, n, t, opus, now);
    case Tick(now, decodeOk, fecOk) =>
      TickDoes(rx, now, decodeOk, fecOk);
      hide Good, CountsOn;
      TickCounts(rx, now, decodeOk, fecOk, Decode(rx, now, decodeOk, fecOk).0, Decode(rx, now, decodeOk, fecOk).1);
    case EosArrives(n) =>
    case StatsReset =>
  }

  /**
   Over every run of a new peer the counters tell what the ticks since the last reset came to: frames lost, those of them
   recovered, starved ticks and failed decodes; and every one of them that FEC did not recover was concealed.
   */
  lemma {:induction false} CountersTell(baseDelay: nat, start: real, es: seq<Event>)
    ensures var rx := Fresh(baseDelay, start); var s := Run(rx, es).stats;
      && s.lost == Tally(rx, es, IsLost) && s.recovered == Tally(rx, es, IsRecovered)
      && s.starved == Tally(rx, es, IsStarved) && s.decodeErrors == Tally(rx, es, IsFailed)
      && s.concealed == s.lost - s.recovered + s.starved + s.decodeErrors
    decreases |es|
  {
    hide Good, Step, OutcomeOf;
    if es != [] {
      hide Fresh;
      var n := |es| - 1;
      var rx := Fresh(baseDelay, start);
      CountersTell(baseDelay, start, es[..n]);
      FreshRunsWell(baseDelay, start, es[..n]);
      StepCounts(Run(rx, es[..n]), es[n]);
    }
  }
}
