/** From the microphone's gate to the listener's jitter buffer: what the receiver concludes, told in captured frames. */
module VoicePath {
  import opened CaptureGate
  import opened JitterBuffer
  import opened JitterRuns
  import opened Verdict
  import E = EosRecord

  /** Media frame `g` was captured and is to be sent: unsuppressed, or at most five frames ahead of a gate opening. */
  ghost predicate Due(cs: seq<Capture>, g: nat) {
    exists k: nat :: k < |cs| && cs[k].index == g && IsSent(cs, |cs|, k)
  }

  function Datagrams(cs: seq<Capture>): seq<Sent> {
    Numbered(CaptureGate.Run(cs).1)
  }

  lemma {:induction false} ExpectedHolds(cs: seq<Capture>, n: nat, m: nat, x: Message)
    requires m <= n <= |cs|
    ensures x in Expected(cs, n, m) <==> exists k: nat :: k < m && IsSent(cs, n, k) && x == FrameOf(cs[k])
    decreases m
  {
    if m > 0 {
      ExpectedHolds(cs, n, m - 1, x);
      hide IsSent;
      if k: nat :| k < m && IsSent(cs, n, k) && x == FrameOf(cs[k]) {
        assert k == m - 1 || k < m - 1;
      }
    }
  }

  lemma {:induction false} VoicesHold(ms: seq<Message>, x: Message)
    ensures x in Voices(ms) <==> x in ms && x.EncodedFrame?
    decreases |ms|
  {
    if ms != [] {
      var n := |ms| - 1;
      VoicesHold(ms[..n], x);
      assert ms == ms[..n] + [ms[n]];
    }
  }

  lemma {:induction false} SentIsInOutput(ms: seq<Message>, g: nat)
    ensures SentFrame(Numbered(ms), g) <==> exists x :: x in ms && x.EncodedFrame? && FrameNumber(x) == g
  {
    hide FrameNumber;
    var s := Numbered(ms);
    if SentFrame(s, g) {
      var k :| 0 <= k < |s| && s[k] == Voice(g);
      assert ms[k] in ms && ms[k].EncodedFrame? && FrameNumber(ms[k]) == g;
    }
    if x :| x in ms && x.EncodedFrame? && FrameNumber(x) == g {
      var k :| 0 <= k < |ms| && ms[k] == x;
      assert s[k] == Voice(g);
    }
  }

  /** A media frame leaves the sender exactly if it is due. */
  lemma {:induction false} SentExactlyIfDue(cs: seq<Capture>, g: nat)
    requires ClockAdvances(cs)
    ensures SentFrame(Datagrams(cs), g) <==> Due(cs, g)
  {
    var ms, n := CaptureGate.Run(cs).1, |cs|;
    assert cs[..n] == cs;
    SendsExactly(cs, n);
    SentIsInOutput(ms, g);
    hide CaptureGate.Run, IsSent, Expected, Voices, SentFrame, Numbered;
    if x :| x in ms && x.EncodedFrame? && FrameNumber(x) == g {
      VoicesHold(ms, x);
      ExpectedHolds(cs, n, n, x);
    }
    if k: nat :| k < n && cs[k].index == g && IsSent(cs, n, k) {
      var x := FrameOf(cs[k]);
      ExpectedHolds(cs, n, n, x);
      VoicesHold(ms, x);
      assert FrameNumber(x) == g;
    }
  }

  /** The frames strictly between `a` and `b` that were not to be sent. */
  ghost function UndueIn(cs: seq<Capture>, a: nat, b: nat): set<nat> {
    set g: nat | a < g < b && !Due(cs, g)
  }

  lemma {:induction false} UnsentIsUndue(cs: seq<Capture>, a: nat, b: nat)
    requires ClockAdvances(cs)
    ensures UnsentIn(Datagrams(cs), a, b) == UndueIn(cs, a, b)
  {
    forall g: nat | a < g < b ensures SentFrame(Datagrams(cs), g) <==> Due(cs, g) {
      SentExactlyIfDue(cs, g);
    }
    hide SentFrame, Due, Datagrams;
  }

  /** Frames `a` and `b` both left the sender, in this order. */
  ghost predicate BothSent(cs: seq<Capture>, a: nat, b: nat) {
    var s := Datagrams(cs);
    SentFrame(s, a) && SentFrame(s, b) && IndexOf(s, a) < IndexOf(s, b)
  }

  /** The end-of-stream marks sent between the two frames and not among `eos`, by sequence number. */
  ghost function MissingMarks(cs: seq<Capture>, first: nat, a: nat, b: nat, eos: seq<nat>): set<nat>
    requires BothSent(cs, a, b)
  {
    Unrecorded(Datagrams(cs), first, IndexOf(Datagrams(cs), a), IndexOf(Datagrams(cs), b), eos)
  }

  /** What a tick concludes from a gap that ends at `next`. */
  ghost predicate JudgedRight(cs: seq<Capture>, first: nat, r: Rx, o: Outcome, next: nat) {
    && BothSent(cs, r.lastFrame, next) && r.lastFrame < r.nextPlay < next
    && (o.Reanchored? <==>
          |UndueIn(cs, r.lastFrame, next)| > |MissingMarks(cs, first, r.lastFrame, next, r.eos)|)
    && (o.Reanchored? ==> o.to == next)
    && (!o.Reanchored? && MissingMarks(cs, first, r.lastFrame, next, r.eos) == {} ==> Due(cs, r.nextPlay))
  }

  /** What a tick concludes, in terms of what was captured. */
  ghost predicate Faithful(cs: seq<Capture>, first: nat, r: Rx, o: Outcome) {
    && (o.Played? ==> Due(cs, o.frame))
    && (o.Reanchored? || o.Concealed? || o.Recovered? ==>
          Ahead(r) != map[] && JudgedRight(cs, first, r, o, MinKey(Ahead(r))))
  }

  /**
   End to end: over a network that drops, repeats, delays and reorders, across wrap-around of the sequence number, a
   listener only plays frames that were due, reads a gap as silence exactly if it holds more frames that were not due
   than marks that are missing, and, with no mark missing, counts as lost only a frame that was due.
   */
  lemma {:induction false} EndToEnd(cs: seq<Capture>, baseDelay: nat, start: real, first: nat, lo: nat, es: seq<NetEvent>,
                                    now: real, decodeOk: bool, fecOk: bool)
    requires ClockAdvances(cs) && AllInWindow(es, lo)
    ensures var r := NetRun(Fresh(baseDelay, start), Datagrams(cs), first, es);
            Faithful(cs, first, r, Decode(r, now, decodeOk, fecOk).1)
  {
    var s, rx := Datagrams(cs), Fresh(baseDelay, start);
    GateFeedsVerdict(cs);
    FreshTracks(baseDelay, start, s, first, lo);
    hide NetRun, Decode, Fresh, Datagrams, Good, Tracks, Stream, AllInWindow, Truthful, Faithful;
    VerdictsAreTruthful(rx, s, first, lo, es, now, decodeOk, fecOk);
    NetRunTracks(rx, s, first, lo, es);
    Concluded(cs, NetRun(rx, s, first, es), first, lo, now, decodeOk, fecOk);
  }

  lemma {:induction false} FreshRecord(baseDelay: nat, start: real)
    ensures Fresh(baseDelay, start).eos == []
  {
  }

  /**
   And a gap whose end-of-stream marks all came in since playout last started anew, while never more than eight stood, is
   skipped exactly if some frame of it was not to be sent.
   */
  lemma {:induction false} WholeGapsEndToEnd(cs: seq<Capture>, baseDelay: nat, start: real, first: nat, lo: nat,
                                             es: seq<NetEvent>, now: real, decodeOk: bool, fecOk: bool)
    requires ClockAdvances(cs) && AllInWindow(es, lo)
    requires E.NeverNine(Fresh(baseDelay, start), Datagrams(cs), first, es, |es|)
    ensures var rx := Fresh(baseDelay, start); var r := NetRun(rx, Datagrams(cs), first, es);
      var o := Decode(r, now, decodeOk, fecOk).1;
      o.Reanchored? || o.Concealed? || o.Recovered? ==>
        && Ahead(r) != map[]
        && (E.MarksCame(rx, Datagrams(cs), first, es, r.lastFrame, MinKey(Ahead(r))) ==>
              (o.Reanchored? <==> UndueIn(cs, r.lastFrame, MinKey(Ahead(r))) != {}))
  {
    GateFeedsVerdict(cs);
    var s, rx := Datagrams(cs), Fresh(baseDelay, start);
    hide NetRun, Decode, Fresh, Datagrams, Good, Tracks, Stream, AllInWindow, UndueIn, UnsentIn, E.NeverNine, E.MarksCame;
    var r := NetRun(rx, s, first, es);
    FreshTracks(baseDelay, start, s, first, lo);
    FreshRecord(baseDelay, start);
    E.WholeGapsJudgedExactly(rx, s, first, lo, es, now, decodeOk, fecOk);
    if Ahead(r) != map[] {
      UnsentIsUndue(cs, r.lastFrame, MinKey(Ahead(r)));
    }
  }

  lemma {:induction false} Concluded(cs: seq<Capture>, r: Rx, first: nat, lo: nat, now: real, decodeOk: bool, fecOk: bool)
    requires ClockAdvances(cs) && Tracks(r, Datagrams(cs), first, lo)
    requires var o := Decode(r, now, decodeOk, fecOk).1;
             o.Reanchored? || o.Concealed? || o.Recovered? ==>
               Ahead(r) != map[] && Truthful(r, Datagrams(cs), first, o, MinKey(Ahead(r)))
    ensures Faithful(cs, first, r, Decode(r, now, decodeOk, fecOk).1)
  {
    var o := Decode(r, now, decodeOk, fecOk).1;
    if o.Played? {
      PlayedIsSent(r, Datagrams(cs), first, lo, now, decodeOk, fecOk);
    }
    hide Decode, Datagrams, Tracks, Due, SentFrame, JudgedRight, Truthful;
    if o.Played? {
      SentExactlyIfDue(cs, o.frame);
    } else if o.Reanchored? || o.Concealed? || o.Recovered? {
      TruthAsCaptured(cs, r, first, o, MinKey(Ahead(r)));
    }
  }

  lemma {:induction false} TruthAsCaptured(cs: seq<Capture>, r: Rx, first: nat, o: Outcome, next: nat)
    requires ClockAdvances(cs) && Truthful(r, Datagrams(cs), first, o, next)
    ensures JudgedRight(cs, first, r, o, next)
  {
    var s := Datagrams(cs);
    NoneMissing(s, first, IndexOf(s, r.lastFrame), IndexOf(s, next), r.eos);
    UnsentIsUndue(cs, r.lastFrame, next);
    SentExactlyIfDue(cs, r.nextPlay);
    hide Datagrams, Due, SentFrame, UndueIn, UnsentIn, Unrecorded, AllRecorded;
  }

  lemma {:induction false} PlayedIsSent(r: Rx, s: seq<Sent>, first: nat, lo: nat, now: real, decodeOk: bool, fecOk: bool)
    requires Tracks(r, s, first, lo) && Decode(r, now, decodeOk, fecOk).1.Played?
    ensures SentFrame(s, Decode(r, now, decodeOk, fecOk).1.frame)
  {
    hide SentFrame, ReadsAsSilence;
    assert SentAs(s, first, lo, r.nextPlay, r.buffer[r.nextPlay].seqNo);
  }
}
