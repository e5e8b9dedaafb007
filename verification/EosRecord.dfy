/**
 Which end-of-stream marks the receiver has on record, told by what was delivered, played and started over, and the
 verdict that follows for a gap all of whose marks came in.
 */
module EosRecord {
  import opened JitterBuffer
  import opened JitterRuns
  import opened MediaClock
  import opened Verdict
  import Arrival
  import Ticks

  /** The event delivers the end-of-stream datagram numbered `n`. */
  ghost predicate Brings(s: seq<Sent>, first: nat, e: NetEvent, n: nat) {
    e.Deliver? && e.k < |s| && s[e.k].EosMark? && SeqAt(first, e.k) == n
  }

  /** Playout went from playing to waiting: the stream started over, or a gap was read as silence. */
  ghost predicate StartsAnew(a: Rx, b: Rx) {
    a.started && !b.started
  }

  ghost predicate Plays(a: Rx, e: NetEvent) {
    e.Tick? && var o := Decode(a, e.now, e.decodeOk, e.fecOk).1; o.Played? || o.DecodeFailed?
  }

  /** The step settles what a mark `n` delivered before it was for. */
  ghost predicate Settles(a: Rx, e: NetEvent, b: Rx, n: nat) {
    StartsAnew(a, b) || (Plays(a, e) && !(0 < WrappingSub(n, b.lastSeq) < HALF_SEQ_SPACE))
  }

  /** A ninth mark comes while eight are on record, `n` longest. */
  ghost predicate PushesOut(a: Rx, s: seq<Sent>, first: nat, e: NetEvent, n: nat) {
    && |a.eos| == 8 && a.eos[0] == n
    && e.Deliver? && e.k < |s| && s[e.k].EosMark? && SeqAt(first, e.k) !in a.eos
  }

  /** What the step makes of the record. */
  ghost predicate RecordMoves(a: Rx, s: seq<Sent>, first: nat, e: NetEvent, b: Rx) {
    && Distinct(b.eos) && |b.eos| <= 8
    && forall n :: n in b.eos <==>
         Brings(s, first, e, n) || (n in a.eos && !Settles(a, e, b, n) && !PushesOut(a, s, first, e, n))
  }

  lemma {:induction false} MarkMoves(a: Rx, s: seq<Sent>, first: nat, e: NetEvent)
    requires Distinct(a.eos) && |a.eos| <= 8 && e.Deliver? && e.k < |s| && s[e.k].EosMark?
    ensures RecordMoves(a, s, first, e, NetStep(a, s, first, e))
  {
    hide SeqAt, WrappingSub;
    var m, b := SeqAt(first, e.k), NetStep(a, s, first, e);
    assert b == MarkEos(a, m);
    hide NetStep;
    if m !in a.eos {
      var kept := if |a.eos| >= 8 then a.eos[1..] else a.eos;
      assert b.eos == kept + [m];
    }
  }

  lemma {:induction false} VoiceMoves(a: Rx, s: seq<Sent>, first: nat, e: NetEvent)
    requires Good(a) && Distinct(a.eos) && e.Deliver? && e.k < |s| && s[e.k].Voice?
    ensures RecordMoves(a, s, first, e, NetStep(a, s, first, e))
  {
    assert |a.eos| <= 8 && Distinct([]) by { hide Ledger, Balanced; }
    hide SeqAt, WrappingSub, Arrival.Measured, Arrival.NewestStay, Arrival.CursorPushed, Distinct, Ledger, Balanced, Insert;
    hide Good;
    Arrival.InsertDoes(a, SeqAt(first, e.k), s[e.k].frame * FRAME_US, e.opus, e.now);
  }

  /** What a tick does to the record, by its outcome. */
  ghost predicate TickSettles(a: Rx, b: Rx, o: Outcome) {
    if o.Played? || o.DecodeFailed? then
      b.started && forall n :: n in b.eos <==> n in a.eos && 0 < WrappingSub(n, b.lastSeq) < HALF_SEQ_SPACE
    else if a.started && !b.started then b.eos == []
    else b.eos == a.eos
  }

  lemma {:induction false} TickedSettles(a: Rx, now: real, decodeOk: bool, fecOk: bool, b: Rx, o: Outcome)
    requires Ticks.Ticked(a, now, decodeOk, fecOk, b, o)
    ensures TickSettles(a, b, o)
  {
    hide WrappingSub, ReadsAsSilence, MinKey, Ticks.Over;
    if a.buffer != map[] && a.nextPlay !in a.buffer && a.started {
      assert MinKey(a.buffer) in a.buffer && forall f :: f in a.buffer ==> MinKey(a.buffer) <= f;
    }
  }

  lemma {:induction false} TickMoves(a: Rx, s: seq<Sent>, first: nat, e: NetEvent)
    requires Good(a) && Distinct(a.eos) && e.Tick?
    ensures RecordMoves(a, s, first, e, NetStep(a, s, first, e))
  {
    hide SeqAt, WrappingSub, Distinct, Ledger, Balanced, Decode, Ticks.Ticked;
    var (b, o) := Decode(a, e.now, e.decodeOk, e.fecOk);
    assert |a.eos| <= 8;
    Ticks.TickDoes(a, e.now, e.decodeOk, e.fecOk);
    TickDistinct(a, e.now, e.decodeOk, e.fecOk);
    hide Good;
    TickedSettles(a, e.now, e.decodeOk, e.fecOk, b, o);
  }

  lemma {:induction false} TickDistinct(a: Rx, now: real, decodeOk: bool, fecOk: bool)
    requires Distinct(a.eos)
    ensures Distinct(Decode(a, now, decodeOk, fecOk).0.eos)
    ensures |Decode(a, now, decodeOk, fecOk).0.eos| <= |a.eos|
  {
    hide Stale, ReadsAsSilence, StillAhead, Depth;
    if a.nextPlay in a.buffer {
      StillAheadDistinct(a.eos, a.buffer[a.nextPlay].seqNo);
      StillAheadShorter(a.eos, a.buffer[a.nextPlay].seqNo);
    }
  }

  /**
   One step: a mark is on record after it exactly if the step brings it, or it was on record and the step neither settles
   it nor pushes it out.
   */
  lemma {:induction false} StepMovesRecord(a: Rx, s: seq<Sent>, first: nat, e: NetEvent)
    requires Good(a) && Distinct(a.eos)
    ensures RecordMoves(a, s, first, e, NetStep(a, s, first, e))
  {
    assert |a.eos| <= 8 by { hide Ledger; }
    hide RecordMoves, NetStep, Good;
    if e.Tick? {
      TickMoves(a, s, first, e);
    } else if e.k < |s| && s[e.k].Voice? {
      VoiceMoves(a, s, first, e);
    } else if e.k < |s| {
      MarkMoves(a, s, first, e);
    } else {
      NothingMoves(a, s, first, e);
    }
  }

  lemma {:induction false} NothingMoves(a: Rx, s: seq<Sent>, first: nat, e: NetEvent)
    requires Distinct(a.eos) && |a.eos| <= 8 && e.Deliver? && e.k >= |s|
    ensures RecordMoves(a, s, first, e, NetStep(a, s, first, e))
  {
    hide SeqAt, WrappingSub, Distinct;
  }

  // ---- Over a run

  lemma {:induction false} StepSound(a: Rx, s: seq<Sent>, first: nat, e: NetEvent)
    requires Good(a)
    ensures Good(NetStep(a, s, first, e))
  {
    hide Good, Insert, Decode, Received, Kept, SeqAt, KeepsFates;
    match e
    case Deliver(k, opus, now) =>
      if k < |s| && s[k].Voice? {
        InsertKeeps(a, SeqAt(first, k), s[k].frame * FRAME_US, opus, now);
        Playout.ReceivedGood(a, s[k].frame * FRAME_US / FRAME_US,
                             Insert(a, SeqAt(first, k), s[k].frame * FRAME_US, opus, now));
      } else if k < |s| {
        Playout.StepKeeps(a, Playout.EosArrives(SeqAt(first, k)));
      }
    case Tick(now, decodeOk, fecOk) =>
      DecodeKeeps(a, now, decodeOk, fecOk);
      Playout.KeptGood(a, Decode(a, now, decodeOk, fecOk).0);
  }

  /** The state after the first `j` events. */
  ghost function After(rx: Rx, s: seq<Sent>, first: nat, es: seq<NetEvent>, j: nat): Rx
    requires j <= |es|
  {
    NetRun(rx, s, first, es[..j])
  }

  lemma {:induction false} AfterNext(rx: Rx, s: seq<Sent>, first: nat, es: seq<NetEvent>, j: nat)
    requires j < |es|
    ensures After(rx, s, first, es, j + 1) == NetStep(After(rx, s, first, es, j), s, first, es[j])
  {
    hide NetStep;
    assert es[..j + 1][..j] == es[..j];
  }

  lemma {:induction false} AfterSound(rx: Rx, s: seq<Sent>, first: nat, es: seq<NetEvent>, j: nat)
    requires Good(rx) && Distinct(rx.eos) && j <= |es|
    ensures Good(After(rx, s, first, es, j)) && Distinct(After(rx, s, first, es, j).eos)
    decreases j
  {
    hide Good, NetStep, Distinct, StartsAnew, Settles, PushesOut, Brings;
    if j == 0 {
      assert es[..0] == [];
    } else {
      AfterSound(rx, s, first, es, j - 1);
      AfterNext(rx, s, first, es, j - 1);
      hide After;
      StepSound(After(rx, s, first, es, j - 1), s, first, es[j - 1]);
      StepMovesRecord(After(rx, s, first, es, j - 1), s, first, es[j - 1]);
    }
  }

  ghost predicate SettledAt(rx: Rx, s: seq<Sent>, first: nat, es: seq<NetEvent>, j: nat, n: nat)
    requires j < |es|
  {
    Settles(After(rx, s, first, es, j), es[j], After(rx, s, first, es, j + 1), n)
  }

  ghost predicate PushedAt(rx: Rx, s: seq<Sent>, first: nat, es: seq<NetEvent>, j: nat, n: nat)
    requires j < |es|
  {
    PushesOut(After(rx, s, first, es, j), s, first, es[j], n)
  }

  /** Among the first `m` events, event `i` brought the mark, and nothing after it settled it. */
  ghost predicate StandsSince(rx: Rx, s: seq<Sent>, first: nat, es: seq<NetEvent>, m: nat, n: nat, i: nat)
    requires m <= |es|
  {
    i < m && Brings(s, first, es[i], n) && forall j :: i < j < m ==> !SettledAt(rx, s, first, es, j, n)
  }

  /** And nothing pushed it out. */
  ghost predicate HeldSince(rx: Rx, s: seq<Sent>, first: nat, es: seq<NetEvent>, m: nat, n: nat, i: nat)
    requires m <= |es|
  {
    StandsSince(rx, s, first, es, m, n, i) && forall j :: i < j < m ==> !PushedAt(rx, s, first, es, j, n)
  }

  /** A mark stands: it was delivered, and since then playout neither passed it nor started anew. */
  ghost predicate Stands(rx: Rx, s: seq<Sent>, first: nat, es: seq<NetEvent>, m: nat, n: nat)
    requires m <= |es|
  {
    exists i :: StandsSince(rx, s, first, es, m, n, i)
  }

  ghost predicate Holds(rx: Rx, s: seq<Sent>, first: nat, es: seq<NetEvent>, m: nat, n: nat)
    requires m <= |es|
  {
    exists i :: HeldSince(rx, s, first, es, m, n, i)
  }

  lemma {:induction false} StandsNext(rx: Rx, s: seq<Sent>, first: nat, es: seq<NetEvent>, m: nat, n: nat)
    requires m < |es|
    ensures Stands(rx, s, first, es, m + 1, n) <==>
              Brings(s, first, es[m], n) || (Stands(rx, s, first, es, m, n) && !SettledAt(rx, s, first, es, m, n))
  {
    hide Brings, SettledAt;
    var next := m + 1;
    if i :| StandsSince(rx, s, first, es, next, n, i) {
      assert i == m || StandsSince(rx, s, first, es, m, n, i);
    }
    if i :| StandsSince(rx, s, first, es, m, n, i) {
      assert !SettledAt(rx, s, first, es, m, n) ==> StandsSince(rx, s, first, es, m + 1, n, i);
    }
    if Brings(s, first, es[m], n) {
      assert StandsSince(rx, s, first, es, m + 1, n, m);
    }
  }

  lemma {:induction false} HoldsNext(rx: Rx, s: seq<Sent>, first: nat, es: seq<NetEvent>, m: nat, n: nat)
    requires m < |es|
    ensures Holds(rx, s, first, es, m + 1, n) <==>
              Brings(s, first, es[m], n) ||
              (Holds(rx, s, first, es, m, n) && !SettledAt(rx, s, first, es, m, n) && !PushedAt(rx, s, first, es, m, n))
  {
    hide Brings, SettledAt, PushedAt;
    var next := m + 1;
    if i :| HeldSince(rx, s, first, es, next, n, i) {
      assert i == m || HeldSince(rx, s, first, es, m, n, i);
    }
    if i :| HeldSince(rx, s, first, es, m, n, i) {
      assert !SettledAt(rx, s, first, es, m, n) && !PushedAt(rx, s, first, es, m, n) ==>
          HeldSince(rx, s, first, es, m + 1, n, i);
    }
    if Brings(s, first, es[m], n) {
      assert HeldSince(rx, s, first, es, m + 1, n, m);
    }
  }

  lemma {:induction false} MovesAt(rx: Rx, s: seq<Sent>, first: nat, es: seq<NetEvent>, j: nat)
    requires Good(rx) && Distinct(rx.eos) && j < |es|
    ensures forall n :: n in After(rx, s, first, es, j + 1).eos <==>
              Brings(s, first, es[j], n) ||
              (n in After(rx, s, first, es, j).eos && !SettledAt(rx, s, first, es, j, n) && !PushedAt(rx, s, first, es, j, n))
    ensures Distinct(After(rx, s, first, es, j).eos) && |After(rx, s, first, es, j).eos| <= 8
  {
    hide NetStep, NetRun, Ledger, Balanced, Distinct, Settles, PushesOut, Brings;
    AfterSound(rx, s, first, es, j);
    AfterNext(rx, s, first, es, j);
    StepMovesRecord(After(rx, s, first, es, j), s, first, es[j]);
  }

  /**
   Over every run from an empty record: a mark is on record exactly if some event delivered it and since then playout
   neither passed it nor started anew, and it was never the oldest of eight when a ninth came.
   */
  lemma {:induction false} OnRecordExactlyIf(rx: Rx, s: seq<Sent>, first: nat, es: seq<NetEvent>, m: nat, n: nat)
    requires Good(rx) && rx.eos == [] && m <= |es|
    ensures n in After(rx, s, first, es, m).eos <==> Holds(rx, s, first, es, m, n)
    decreases m
  {
    hide Good, NetStep, SettledAt, PushedAt, Brings;
    if m == 0 {
      assert es[..0] == [];
    } else {
      hide After, HeldSince;
      OnRecordExactlyIf(rx, s, first, es, m - 1, n);
      MovesAt(rx, s, first, es, m - 1);
      HoldsNext(rx, s, first, es, m - 1, n);
    }
  }

  // ---- Never more than eight

  /** The marks that stand after `m` events. */
  ghost function Standing(rx: Rx, s: seq<Sent>, first: nat, es: seq<NetEvent>, m: nat): set<nat>
    requires m <= |es|
    decreases m
  {
    if m == 0 then {}
    else
      Unsettled(rx, s, first, es, m - 1, Standing(rx, s, first, es, m - 1)) + Brought(s, first, es[m - 1])
  }

  ghost function Unsettled(rx: Rx, s: seq<Sent>, first: nat, es: seq<NetEvent>, j: nat, t: set<nat>): set<nat>
    requires j < |es|
  {
    set n | n in t && !SettledAt(rx, s, first, es, j, n)
  }

  ghost function Brought(s: seq<Sent>, first: nat, e: NetEvent): set<nat> {
    if e.Deliver? && e.k < |s| && s[e.k].EosMark? then {SeqAt(first, e.k)} else {}
  }

  lemma {:induction false} StandingNext(rx: Rx, s: seq<Sent>, first: nat, es: seq<NetEvent>, m: nat, n: nat)
    requires m < |es|
    ensures n in Standing(rx, s, first, es, m + 1) <==>
              Brings(s, first, es[m], n) || (n in Standing(rx, s, first, es, m) && !SettledAt(rx, s, first, es, m, n))
  {
    hide SettledAt, SeqAt;
  }

  lemma {:induction false} StandingAre(rx: Rx, s: seq<Sent>, first: nat, es: seq<NetEvent>, m: nat, n: nat)
    requires m <= |es|
    ensures n in Standing(rx, s, first, es, m) <==> Stands(rx, s, first, es, m, n)
    decreases m
  {
    assert m == 0 ==> !Stands(rx, s, first, es, m, n);
    hide StandsSince, SettledAt, Brings;
    if m > 0 {
      StandingAre(rx, s, first, es, m - 1, n);
      StandsNext(rx, s, first, es, m - 1, n);
      StandingNext(rx, s, first, es, m - 1, n);
    }
  }

  ghost predicate AnewAt(rx: Rx, s: seq<Sent>, first: nat, es: seq<NetEvent>, j: nat)
    requires j < |es|
  {
    StartsAnew(After(rx, s, first, es, j), After(rx, s, first, es, j + 1))
  }

  /** Since playout last started anew, never more than eight marks stood. */
  ghost predicate NeverNine(rx: Rx, s: seq<Sent>, first: nat, es: seq<NetEvent>, m: nat)
    requires m <= |es|
    decreases m
  {
    m == 0 || AnewAt(rx, s, first, es, m - 1)
    || (NeverNine(rx, s, first, es, m - 1) && |Standing(rx, s, first, es, m)| <= 8)
  }

  /** The record is complete: every mark that stands is on it, and no other. */
  ghost predicate Complete(rx: Rx, s: seq<Sent>, first: nat, es: seq<NetEvent>, m: nat)
    requires m <= |es|
  {
    forall n :: n in After(rx, s, first, es, m).eos <==> n in Standing(rx, s, first, es, m)
  }

  lemma {:induction false} DistinctSize(q: seq<nat>, t: set<nat>)
    requires Distinct(q) && forall n :: n in q <==> n in t
    ensures |t| == |q|
    decreases |q|
  {
    if q == [] {
      assert t == {};
    } else {
      var k := |q| - 1;
      assert q == q[..k] + [q[k]];
      assert q[k] !in q[..k];
      DistinctSize(q[..k], t - {q[k]});
    }
  }

  lemma {:induction false} MarkSettlesNone(rx: Rx, s: seq<Sent>, first: nat, es: seq<NetEvent>, m: nat, n: nat)
    requires m < |es| && es[m].Deliver? && es[m].k < |s| && s[es[m].k].EosMark?
    ensures !SettledAt(rx, s, first, es, m, n)
  {
    AfterNext(rx, s, first, es, m);
    hide After, SeqAt;
  }

  /** A mark pushed out of a complete record is one of nine that stand. */
  lemma {:induction false} PushedOfNine(rx: Rx, s: seq<Sent>, first: nat, es: seq<NetEvent>, m: nat, n: nat)
    requires Good(rx) && Distinct(rx.eos) && m < |es| && Complete(rx, s, first, es, m) && PushedAt(rx, s, first, es, m, n)
    ensures |Standing(rx, s, first, es, m + 1)| == 9
  {
    hide SeqAt, Distinct, Good, SettledAt, After, Standing;
    var a, e := After(rx, s, first, es, m), es[m];
    var mark := SeqAt(first, e.k);
    AfterSound(rx, s, first, es, m);
    var now, next := Standing(rx, s, first, es, m), Standing(rx, s, first, es, m + 1);
    forall x ensures x in next <==> x in now + {mark} {
      StandingNext(rx, s, first, es, m, x);
      MarkSettlesNone(rx, s, first, es, m, x);
    }
    assert next == now + {mark};
    DistinctSize(a.eos, now);
    assert mark !in now;
  }

  lemma {:induction false} CompleteFor(rx: Rx, s: seq<Sent>, first: nat, es: seq<NetEvent>, m: nat, n: nat)
    requires Good(rx) && Distinct(rx.eos) && m < |es|
    requires AnewAt(rx, s, first, es, m) || (Complete(rx, s, first, es, m) && |Standing(rx, s, first, es, m + 1)| <= 8)
    ensures n in After(rx, s, first, es, m + 1).eos <==> n in Standing(rx, s, first, es, m + 1)
  {
    hide Brings, SettledAt, PushedAt, Good, Distinct, Standing, AnewAt, After;
    MovesAt(rx, s, first, es, m);
    StandingNext(rx, s, first, es, m, n);
    if AnewAt(rx, s, first, es, m) {
      AnewSettles(rx, s, first, es, m, n);
    } else if PushedAt(rx, s, first, es, m, n) {
      PushedOfNine(rx, s, first, es, m, n);
    }
  }

  lemma {:induction false} AnewSettles(rx: Rx, s: seq<Sent>, first: nat, es: seq<NetEvent>, m: nat, n: nat)
    requires m < |es| && AnewAt(rx, s, first, es, m)
    ensures SettledAt(rx, s, first, es, m, n)
  {
    hide After;
  }

  lemma {:induction false} CompleteNext(rx: Rx, s: seq<Sent>, first: nat, es: seq<NetEvent>, m: nat)
    requires Good(rx) && Distinct(rx.eos) && m < |es|
    requires AnewAt(rx, s, first, es, m) || (Complete(rx, s, first, es, m) && |Standing(rx, s, first, es, m + 1)| <= 8)
    ensures Complete(rx, s, first, es, m + 1)
  {
    hide Good, Distinct, Standing, AnewAt, After;
    var next := m + 1;
    forall n ensures n in After(rx, s, first, es, next).eos <==> n in Standing(rx, s, first, es, next) {
      CompleteFor(rx, s, first, es, m, n);
    }
  }

  /** As long as never more than eight marks stand, since playout last started anew, exactly those are on record. */
  lemma {:induction false} RecordIsComplete(rx: Rx, s: seq<Sent>, first: nat, es: seq<NetEvent>, m: nat)
    requires Good(rx) && rx.eos == [] && m <= |es| && NeverNine(rx, s, first, es, m)
    ensures Complete(rx, s, first, es, m)
    decreases m
  {
    hide Good, NetStep, AnewAt, SettledAt, Brings;
    if m == 0 {
      assert es[..0] == [];
    } else {
      hide Complete, Standing;
      if NeverNine(rx, s, first, es, m - 1) {
        RecordIsComplete(rx, s, first, es, m - 1);
      }
      CompleteNext(rx, s, first, es, m - 1);
    }
  }

  ghost predicate AlwaysComplete(rx: Rx, s: seq<Sent>, first: nat, es: seq<NetEvent>) {
    forall m :: 0 <= m <= |es| ==> Complete(rx, s, first, es, m)
  }

  ghost predicate EightAtMost(rx: Rx, s: seq<Sent>, first: nat, es: seq<NetEvent>) {
    forall m :: 0 <= m <= |es| ==> |Standing(rx, s, first, es, m)| <= 8
  }

  /** The record is complete at every moment of a run exactly if at no moment more than eight marks stand. */
  lemma {:induction false} CompleteExactlyIf(rx: Rx, s: seq<Sent>, first: nat, es: seq<NetEvent>)
    requires Good(rx) && rx.eos == []
    ensures AlwaysComplete(rx, s, first, es) <==> EightAtMost(rx, s, first, es)
  {
    hide Good, Standing, Complete;
    if AlwaysComplete(rx, s, first, es) {
      forall m | 0 <= m <= |es| ensures |Standing(rx, s, first, es, m)| <= 8 {
        CompleteIsSmall(rx, s, first, es, m);
      }
    }
    if EightAtMost(rx, s, first, es) {
      forall m | 0 <= m <= |es| ensures Complete(rx, s, first, es, m) {
        AlwaysEight(rx, s, first, es, m);
        RecordIsComplete(rx, s, first, es, m);
      }
    }
  }

  lemma {:induction false} CompleteIsSmall(rx: Rx, s: seq<Sent>, first: nat, es: seq<NetEvent>, m: nat)
    requires Good(rx) && rx.eos == [] && m <= |es| && Complete(rx, s, first, es, m)
    ensures |Standing(rx, s, first, es, m)| <= 8
  {
    hide Standing, After, Ledger;
    AfterSound(rx, s, first, es, m);
    DistinctSize(After(rx, s, first, es, m).eos, Standing(rx, s, first, es, m));
  }

  lemma {:induction false} AlwaysEight(rx: Rx, s: seq<Sent>, first: nat, es: seq<NetEvent>, m: nat)
    requires m <= |es| && EightAtMost(rx, s, first, es)
    ensures NeverNine(rx, s, first, es, m)
    decreases m
  {
    hide Standing, AnewAt;
    if m > 0 {
      AlwaysEight(rx, s, first, es, m - 1);
    }
  }

  // ---- A gap whose marks all came in

  /** While playout does not start anew, it goes on playing and never goes back. */
  lemma {:induction false} StepGoesOn(a: Rx, s: seq<Sent>, first: nat, e: NetEvent)
    requires Good(a) && a.started && !StartsAnew(a, NetStep(a, s, first, e))
    ensures NetStep(a, s, first, e).started && a.lastFrame <= NetStep(a, s, first, e).lastFrame
  {
    hide SeqAt, WrappingSub, Arrival.Measured, Arrival.NewestStay, Arrival.CursorPushed, Ledger, Balanced, Insert, Decode,
      ReadsAsSilence, Ticks.Over, MinKey;
    if e.Tick? {
      Ticks.TickDoes(a, e.now, e.decodeOk, e.fecOk);
      if a.buffer != map[] && a.nextPlay !in a.buffer {
        assert MinKey(a.buffer) in a.buffer && forall f :: f in a.buffer ==> MinKey(a.buffer) <= f;
      }
    } else if e.k < |s| && s[e.k].Voice? {
      Arrival.InsertDoes(a, SeqAt(first, e.k), s[e.k].frame * FRAME_US, e.opus, e.now);
    }
  }

  /** From event `i` on playout never started anew. */
  ghost predicate GoesOnFrom(rx: Rx, s: seq<Sent>, first: nat, es: seq<NetEvent>, i: nat, m: nat)
    requires m <= |es|
  {
    forall j :: i <= j < m ==> !AnewAt(rx, s, first, es, j)
  }

  lemma {:induction false} RunGoesOn(rx: Rx, s: seq<Sent>, first: nat, es: seq<NetEvent>, i: nat, m: nat)
    requires Good(rx) && Distinct(rx.eos) && i <= m <= |es| && GoesOnFrom(rx, s, first, es, i, m)
    requires After(rx, s, first, es, i).started
    ensures After(rx, s, first, es, m).started
    ensures After(rx, s, first, es, i).lastFrame <= After(rx, s, first, es, m).lastFrame
    decreases m
  {
    hide Good, NetStep, NetRun, Distinct, StartsAnew;
    if i < m {
      assert !AnewAt(rx, s, first, es, m - 1);
      RunGoesOn(rx, s, first, es, i, m - 1);
      AfterSound(rx, s, first, es, m - 1);
      AfterNext(rx, s, first, es, m - 1);
      StepGoesOn(After(rx, s, first, es, m - 1), s, first, es[m - 1]);
    }
  }

  /** What a state at hand, or an earlier one of the same spurt, says about the sender: the last frame played was sent. */
  lemma {:induction false} AfterTracks(rx: Rx, s: seq<Sent>, first: nat, lo: nat, es: seq<NetEvent>, m: nat)
    requires Stream(s) && Good(rx) && Tracks(rx, s, first, lo) && AllInWindow(es, lo) && m <= |es|
    ensures Tracks(After(rx, s, first, es, m), s, first, lo)
  {
    assert AllInWindow(es[..m], lo);
    hide Tracks, Good, Stream, AllInWindow, NetRun;
    NetRunTracks(rx, s, first, lo, es[..m]);
  }

  /** A mark sent after frame `a` and before frame `b` lies ahead of every frame played up to `a`. */
  lemma {:induction false} MarkIsAhead(s: seq<Sent>, first: nat, lo: nat, q: Rx, a: nat, k: nat, b: nat, n: nat)
    requires Stream(s) && Tracks(q, s, first, lo) && q.started && q.lastFrame <= a
    requires SentFrame(s, a) && SentAs(s, first, lo, b, n) && IndexOf(s, a) < k < IndexOf(s, b)
    ensures 0 < WrappingSub(SeqAt(first, k), q.lastSeq) < HALF_SEQ_SPACE
  {
    hide WrappingSub, SeqAt;
    var i := IndexOf(s, q.lastFrame);
    assert i <= IndexOf(s, a);
    SeqDistance(first, i, k);
  }

  /** Event `i` delivered the mark, and playout has not started anew since. */
  ghost predicate CameAt(rx: Rx, s: seq<Sent>, first: nat, es: seq<NetEvent>, n: nat, i: nat) {
    i < |es| && Brings(s, first, es[i], n) && GoesOnFrom(rx, s, first, es, i, |es|)
  }

  ghost predicate Came(rx: Rx, s: seq<Sent>, first: nat, es: seq<NetEvent>, n: nat) {
    exists i :: CameAt(rx, s, first, es, n, i)
  }

  lemma {:induction false} PlayStarts(a: Rx, s: seq<Sent>, first: nat, e: NetEvent)
    requires Good(a) && Plays(a, e)
    ensures NetStep(a, s, first, e).started
  {
    hide Good, WrappingSub, Stale, Depth, ReadsAsSilence, MinKey, StillAhead;
  }

  /** Such a mark of the open gap has not been settled. */
  lemma {:induction false} OpenMarkUnsettled(rx: Rx, s: seq<Sent>, first: nat, lo: nat, es: seq<NetEvent>,
                                             k: nat, b: nat, n: nat, j: nat)
    requires Stream(s) && Good(rx) && Tracks(rx, s, first, lo) && AllInWindow(es, lo) && j < |es|
    requires GoesOnFrom(rx, s, first, es, j, |es|)
    requires var a := After(rx, s, first, es, |es|).lastFrame;
             SentFrame(s, a) && SentAs(s, first, lo, b, n) && IndexOf(s, a) < k < IndexOf(s, b)
    ensures !SettledAt(rx, s, first, es, j, SeqAt(first, k))
  {
    var p, q := After(rx, s, first, es, j), After(rx, s, first, es, j + 1);
    assert !AnewAt(rx, s, first, es, j);
    assert GoesOnFrom(rx, s, first, es, j + 1, |es|);
    assert Distinct(rx.eos);
    hide Good, After, GoesOnFrom, Tracks, WrappingSub, SeqAt, NetStep, Stream, AllInWindow, SentAs, SentFrame, Distinct;
    if Plays(p, es[j]) {
      AfterSound(rx, s, first, es, j);
      AfterNext(rx, s, first, es, j);
      PlayStarts(p, s, first, es[j]);
      RunGoesOn(rx, s, first, es, j + 1, |es|);
      AfterTracks(rx, s, first, lo, es, j + 1);
      MarkIsAhead(s, first, lo, q, After(rx, s, first, es, |es|).lastFrame, k, b, n);
    }
  }

  lemma {:induction false} OpenMarkStands(rx: Rx, s: seq<Sent>, first: nat, lo: nat, es: seq<NetEvent>,
                                          k: nat, b: nat, n: nat)
    requires Stream(s) && Good(rx) && Tracks(rx, s, first, lo) && AllInWindow(es, lo)
    requires Came(rx, s, first, es, SeqAt(first, k))
    requires var a := After(rx, s, first, es, |es|).lastFrame;
             SentFrame(s, a) && SentAs(s, first, lo, b, n) && IndexOf(s, a) < k < IndexOf(s, b)
    ensures Stands(rx, s, first, es, |es|, SeqAt(first, k))
  {
    hide Good, After, Tracks, SeqAt, Stream, AllInWindow, SentAs, SentFrame, SettledAt, Brings, AnewAt;
    var i: nat :| CameAt(rx, s, first, es, SeqAt(first, k), i);
    forall j | i < j < |es| ensures !SettledAt(rx, s, first, es, j, SeqAt(first, k)) {
      assert GoesOnFrom(rx, s, first, es, j, |es|);
      OpenMarkUnsettled(rx, s, first, lo, es, k, b, n, j);
    }
    assert StandsSince(rx, s, first, es, |es|, SeqAt(first, k), i);
  }

  /** Every end-of-stream datagram sent between frames `a` and `b` was delivered since playout last started anew. */
  ghost predicate MarksCame(rx: Rx, s: seq<Sent>, first: nat, es: seq<NetEvent>, a: nat, b: nat) {
    forall i, k, j {:trigger s[i], s[k], s[j]} ::
      0 <= i < k < j < |s| && s[i] == Voice(a) && s[k].EosMark? && s[j] == Voice(b) ==>
        Came(rx, s, first, es, SeqAt(first, k))
  }

  /** Then all of them are on record, if since then never more than eight stood. */
  lemma {:induction false} CameIsRecorded(rx: Rx, s: seq<Sent>, first: nat, lo: nat, es: seq<NetEvent>, next: nat)
    requires Stream(s) && Good(rx) && Tracks(rx, s, first, lo) && rx.eos == [] && AllInWindow(es, lo)
    requires NeverNine(rx, s, first, es, |es|)
    requires var r := NetRun(rx, s, first, es);
      && r.started && next in r.buffer && r.lastFrame < next && MarksCame(rx, s, first, es, r.lastFrame, next)
    ensures var r := NetRun(rx, s, first, es);
      && SentFrame(s, r.lastFrame) && SentFrame(s, next)
      && AllRecorded(s, first, IndexOf(s, r.lastFrame), IndexOf(s, next), r.eos)
  {
    hide Good, NetStep, NeverNine, SeqAt, Stream, AllInWindow, InWindow, SentFrame, Came, Standing;
    var r := NetRun(rx, s, first, es);
    assert es[..|es|] == es;
    AfterTracks(rx, s, first, lo, es, |es|);
    RecordIsComplete(rx, s, first, es, |es|);
    var i, j := IndexOf(s, r.lastFrame), IndexOf(s, next);
    forall k | i < k < j && k < |s| && s[k].EosMark? ensures SeqAt(first, k) in r.eos {
      assert s[i] == Voice(r.lastFrame) && s[j] == Voice(next);
      OpenMarkStands(rx, s, first, lo, es, k, next, r.buffer[next].seqNo);
      StandingAre(rx, s, first, es, |es|, SeqAt(first, k));
    }
  }

  /**
   Over every lossy, repeating, reordering run inside one window: a gap whose end-of-stream datagrams were all delivered
   since playout last started anew, while never more than eight stood, is judged exactly. The tick that meets it re-anchors
   if a frame of it was never sent, and otherwise counts the frame at the cursor as lost.
   */
  lemma {:induction false} WholeGapsJudgedExactly(rx: Rx, s: seq<Sent>, first: nat, lo: nat, es: seq<NetEvent>,
                                                  now: real, decodeOk: bool, fecOk: bool)
    requires Stream(s) && Good(rx) && Tracks(rx, s, first, lo) && rx.eos == [] && AllInWindow(es, lo)
    requires NeverNine(rx, s, first, es, |es|)
    ensures var r := NetRun(rx, s, first, es); var o := Decode(r, now, decodeOk, fecOk).1;
      o.Reanchored? || o.Concealed? || o.Recovered? ==>
        && Ahead(r) != map[]
        && (MarksCame(rx, s, first, es, r.lastFrame, MinKey(Ahead(r))) ==>
              (o.Reanchored? <==> UnsentIn(s, r.lastFrame, MinKey(Ahead(r))) != {}))
  {
    hide NetRun, Good, Tracks, Decode, Stream, AllInWindow, NeverNine, MarksCame, AllRecorded, SentFrame, UnsentIn,
      ReadsAsSilence;
    var r := NetRun(rx, s, first, es);
    var o := Decode(r, now, decodeOk, fecOk).1;
    NetRunTracks(rx, s, first, lo, es);
    GapJudged(r, now, decodeOk, fecOk);
    if o.Reanchored? || o.Concealed? || o.Recovered? {
      var next := MinKey(Ahead(r));
      if MarksCame(rx, s, first, es, r.lastFrame, next) {
        CameIsRecorded(rx, s, first, lo, es, next);
        VerdictIsSound(r, s, first, lo, next);
      }
    }
  }
}
