/** The playback state as the program holds it: an object whose methods update its fields, proved against JitterBuffer. */
module PeerAudio {
  import opened MediaClock
  import opened JitterBuffer
  import opened JitterRuns
  import opened Arrival
  import opened Ticks

  /** The first key of the ordered map. */
  method FirstKey(b: map<nat, Packet>) returns (first: nat)
    requires b != map[]
    ensures first == MinKey(b)
  {
    assert b.Keys != {};
    first :| first in b;
    var rest := b.Keys - {first};
    while rest != {}
      invariant first in b && rest <= b.Keys
      invariant forall k :: k in b && k !in rest ==> first <= k
    {
      var k :| k in rest;
      rest := rest - {k};
      if k < first {
        first := k;
      }
    }
    assert IsLeast(b.Keys, first);
  }

  lemma {:induction false} OneLess(b: map<nat, Packet>, k: nat)
    requires k in b
    ensures |b - {k}| < |b|
  {
    assert (b - {k}).Keys == b.Keys - {k};
  }

  lemma {:induction false} StoreForgetsLate(a: Rx, b: Rx, frame: nat, p: Packet)
    requires a == Reanchor(ClearedBuffer(b), frame).(late := a.late)
    ensures Stored(a, frame, p) == Stored(Reanchor(ClearedBuffer(b), frame), frame, p)
  {
    hide FatesOf, MinKey;
  }

  class UserAudioState {
    var jitterBuffer: map<nat, Packet>
    var nextPlayFrame: nat
    var started: bool
    var lastPlayedSeq: nat
    var lastPlayedFrame: nat
    var targetFrames: nat
    var baseFrames: nat
    var estimate: Estimate
    var streamEnded: bool
    var needsPrime: bool
    var pendingEosSeqs: seq<nat>
    var consecutiveLate: nat
    var packetsReceived: nat
    var packetsLost: nat
    var packetsRecoveredFec: nat
    var framesConcealed: nat
    ghost var starvedFrames: nat
    ghost var decodeErrors: nat
    ghost var fates: map<nat, Fate>

    ghost function Abs(): Rx
      reads this
    {
      Rx(jitterBuffer, nextPlayFrame, started, lastPlayedSeq, lastPlayedFrame, targetFrames, baseFrames, estimate,
         streamEnded, needsPrime, pendingEosSeqs, consecutiveLate,
         Stats(packetsLost, packetsRecoveredFec, framesConcealed, starvedFrames, decodeErrors),
         Book(packetsReceived, fates))
    }

    constructor (baseDelay: nat, now: real)
      ensures Abs() == Fresh(baseDelay, now)
    {
      jitterBuffer, nextPlayFrame, started, lastPlayedSeq, lastPlayedFrame := map[], 0, false, 0, 0;
      targetFrames, baseFrames, estimate := Clamp(baseDelay), Clamp(baseDelay), Estimate(0.0, now, 0, false);
      streamEnded, needsPrime, pendingEosSeqs, consecutiveLate := true, false, [], 0;
      packetsReceived, packetsLost, packetsRecoveredFec, framesConcealed := 0, 0, 0, 0;
      starvedFrames, decodeErrors, fates := 0, 0, map[];
    }

    function DepthNow(): (d: nat)
      reads this
      ensures d == Depth(Abs())
    {
      |set f | f in jitterBuffer && f >= nextPlayFrame|
    }

    method UpdateJitterEstimate(frame: nat, now: real)
      modifies this`estimate, this`targetFrames
      ensures Abs() == UpdateJitter(old(Abs()), frame, now)
    {
      if estimate.haveArrival && frame > estimate.lastArrivalFrame {
        var jitterUs := NextJitter(estimate.jitterUs, now - estimate.lastArrival, frame - estimate.lastArrivalFrame);
        estimate := estimate.(jitterUs := jitterUs);
        targetFrames := TargetFor(baseFrames, jitterUs);
      }
      estimate := Estimate(estimate.jitterUs, now, frame, true);
    }

    method ReanchorAt(frame: nat)
      modifies this`nextPlayFrame, this`started, this`needsPrime, this`pendingEosSeqs
      ensures Abs() == Reanchor(old(Abs()), frame)
    {
      nextPlayFrame := frame;
      started := false;
      needsPrime := true;
      pendingEosSeqs := [];
    }

    method ClearBuffer()
      modifies this`jitterBuffer, this`fates
      ensures Abs() == ClearedBuffer(old(Abs()))
    {
      fates := fates + FatesOf(jitterBuffer, Cleared);
      jitterBuffer := map[];
    }

    method DropOldestFrame()
      requires jitterBuffer != map[]
      modifies this`jitterBuffer, this`nextPlayFrame, this`fates
      ensures Abs() == DropOldest(old(Abs())) && |jitterBuffer| < |old(jitterBuffer)|
    {
      ghost var b := jitterBuffer;
      var oldest := FirstKey(jitterBuffer);
      OneLess(b, oldest);
      fates := fates[jitterBuffer[oldest].arrival := Trimmed];
      jitterBuffer := jitterBuffer - {oldest};
      if started {
        if oldest >= nextPlayFrame {
          nextPlayFrame := oldest + 1;
        }
      } else if jitterBuffer != map[] {
        nextPlayFrame := FirstKey(jitterBuffer);
      }
    }

    method TrimBuffer()
      modifies this`jitterBuffer, this`nextPlayFrame, this`fates
      ensures Abs() == Trim(old(Abs()))
    {
      var maxDepth := if started then targetFrames + DRIFT_DROP_SLACK else JITTER_BUFFER_MAX_PACKETS;
      hide Depth, MinKey;
      while |jitterBuffer| > JITTER_BUFFER_MAX_PACKETS || DepthNow() > maxDepth
        invariant Trim(Abs()) == Trim(old(Abs())) && maxDepth == MaxDepth(Abs())
        decreases |jitterBuffer|
      {
        TooDeepHasOldest(Abs());
        DropOldestFrame();
      }
    }

    method TakeIn(frame: nat, packet: Packet)
      modifies this`consecutiveLate, this`streamEnded, this`jitterBuffer, this`fates
      ensures Abs() == TakenIn(old(Abs()), frame, packet)
    {
      consecutiveLate := 0;
      streamEnded := false;
      if frame in jitterBuffer {
        fates := fates[jitterBuffer[frame].arrival := Replaced];
      }
      jitterBuffer := jitterBuffer[frame := packet];
    }

    method FollowFirst()
      requires jitterBuffer != map[]
      modifies this`nextPlayFrame
      ensures Abs() == old(Abs()).(nextPlay := MinKey(jitterBuffer))
    {
      hide MinKey;
      nextPlayFrame := FirstKey(jitterBuffer);
    }

    method Store(frame: nat, packet: Packet)
      modifies this`consecutiveLate, this`streamEnded, this`jitterBuffer, this`nextPlayFrame, this`fates
      ensures Abs() == Stored(old(Abs()), frame, packet)
    {
      TakeIn(frame, packet);
      hide MinKey;
      if !started {
        assert frame in Abs().buffer;
        hide TakenIn;
        FollowFirst();
      }
    }

    /** Decides what a packet at `frame` means and takes it in, unless it is late. */
    method Place(frame: nat, packet: Packet)
      modifies this
      ensures Abs() == Placed(old(Abs()), frame, packet)
    {
      hide MinKey, Depth, Trim, Stored, FatesOf;
      if started && frame + RESTART_BACKWARD_FRAMES < nextPlayFrame {
        ClearBuffer();
        ReanchorAt(frame);
      } else if started && frame < nextPlayFrame {
        consecutiveLate := consecutiveLate + 1;
        if consecutiveLate <= LATE_RESYNC_FRAMES {
          fates := fates[packet.arrival := DroppedLate];
          return;
        }
        ClearBuffer();
        ReanchorAt(frame);
        StoreForgetsLate(Abs(), old(Abs()), frame, packet);
      }
      Store(frame, packet);
      TrimBuffer();
    }

    method InsertPacketAt(sequence: nat, timestampUs: nat, opusData: Opus, arrival: real)
      modifies this
      ensures Abs() == Insert(old(Abs()), sequence, timestampUs, opusData, arrival)
      ensures Good(old(Abs())) ==> TakesPacket(old(Abs()), sequence, timestampUs, opusData, arrival, Abs())
    {
      hide Placed, NextJitter, TargetFor, TakesPacket, Good;
      if Good(Abs()) {
        InsertDoes(Abs(), sequence, timestampUs, opusData, arrival);
      }
      var frame := timestampUs / FRAME_US;
      var packet := Packet(sequence, opusData, packetsReceived);
      packetsReceived := packetsReceived + 1;
      UpdateJitterEstimate(frame, arrival);
      Place(frame, packet);
    }

    method MarkEndOfStream(sequence: nat)
      modifies this`streamEnded, this`pendingEosSeqs
      ensures Abs() == MarkEos(old(Abs()), sequence) && streamEnded
      ensures var before := old(pendingEosSeqs);
              pendingEosSeqs == if sequence in before then before
                                else (if |before| >= 8 then before[1..] else before) + [sequence]
    {
      streamEnded := true;
      if sequence !in pendingEosSeqs {
        if |pendingEosSeqs| >= MAX_PENDING_EOS {
          pendingEosSeqs := pendingEosSeqs[1..];
        }
        pendingEosSeqs := pendingEosSeqs + [sequence];
      }
    }

    method RetainAhead(played: nat)
      modifies this`pendingEosSeqs
      ensures Abs() == old(Abs()).(eos := StillAhead(old(pendingEosSeqs), played))
    {
      var kept: seq<nat> := [];
      for k := 0 to |pendingEosSeqs|
        invariant pendingEosSeqs == old(pendingEosSeqs) && kept == StillAhead(pendingEosSeqs[..k], played)
      {
        var d := WrappingSub(pendingEosSeqs[k], played);
        assert pendingEosSeqs[..k + 1][..k] == pendingEosSeqs[..k];
        if d != 0 && d < HALF_SEQ_SPACE {
          kept := kept + [pendingEosSeqs[k]];
        }
      }
      assert pendingEosSeqs[..|pendingEosSeqs|] == pendingEosSeqs;
      pendingEosSeqs := kept;
    }

    method CountEosInSpan(span: nat) returns (count: nat)
      ensures count == EosInSpan(pendingEosSeqs, lastPlayedSeq, span)
    {
      count := 0;
      for k := 0 to |pendingEosSeqs|
        invariant count == EosInSpan(pendingEosSeqs[..k], lastPlayedSeq, span)
      {
        assert pendingEosSeqs[..k + 1][..k] == pendingEosSeqs[..k];
        var d := WrappingSub(pendingEosSeqs[k], lastPlayedSeq);
        if 0 < d < span {
          count := count + 1;
        }
      }
      assert pendingEosSeqs[..|pendingEosSeqs|] == pendingEosSeqs;
    }

    method ConcealFailure()
      modifies this`framesConcealed, this`decodeErrors
      ensures Abs() == old(Abs()).(stats := old(Abs()).stats.(concealed := old(framesConcealed) + 1,
                                                              decodeErrors := old(decodeErrors) + 1))
    {
      framesConcealed := framesConcealed + 1;
      decodeErrors := decodeErrors + 1;
    }

    /** The frame at the cursor is present: decode it and move on. */
    method Play(decodeOk: bool) returns (outcome: Outcome)
      requires nextPlayFrame in jitterBuffer
      modifies this`jitterBuffer, this`fates, this`started, this`lastPlayedSeq, this`lastPlayedFrame, this`nextPlayFrame,
        this`pendingEosSeqs, this`framesConcealed, this`decodeErrors
      ensures (Abs(), outcome) == PlayFrame(old(Abs()), decodeOk)
    {
      hide StillAhead;
      var frame := nextPlayFrame;
      var p := jitterBuffer[frame];
      jitterBuffer := jitterBuffer - {frame};
      fates := fates[p.arrival := Decoded];
      started := true;
      lastPlayedSeq := p.seqNo;
      lastPlayedFrame := frame;
      nextPlayFrame := nextPlayFrame + 1;
      RetainAhead(p.seqNo);
      if decodeOk {
        return Played(frame, p);
      }
      ConcealFailure();
      return DecodeFailed(frame);
    }

    /** The frame at the cursor is missing. */
    method ResolveGap(fecOk: bool) returns (outcome: Outcome)
      requires nextPlayFrame !in jitterBuffer
      modifies this
      ensures (Abs(), outcome) == AtGap(old(Abs()), fecOk)
    {
      hide MinKey, LoseFrame;
      var frame := nextPlayFrame;
      var ahead := map f | f in jitterBuffer && f > frame :: jitterBuffer[f];
      if ahead == map[] {
        if streamEnded {
          return Silent;
        }
        framesConcealed := framesConcealed + 1;
        starvedFrames := starvedFrames + 1;
        nextPlayFrame := nextPlayFrame + 1;
        return Starved(frame);
      }
      assert ahead == Ahead(Abs());
      var nextFrame := FirstKey(ahead);
      assert nextFrame in jitterBuffer;
      var nextSeq := ahead[nextFrame].seqNo;
      if started {
        var seqSpan := WrappingSub(nextSeq, lastPlayedSeq);
        var eosInSpan := CountEosInSpan(seqSpan);
        if seqSpan - eosInSpan < nextFrame - lastPlayedFrame {
          ReanchorAt(nextFrame);
          return Reanchored(nextFrame);
        }
      }
      outcome := Lose(nextFrame, fecOk);
    }

    method Lose(nextFrame: nat, fecOk: bool) returns (outcome: Outcome)
      requires nextFrame in jitterBuffer
      modifies this`packetsLost, this`nextPlayFrame, this`packetsRecoveredFec, this`framesConcealed
      ensures (Abs(), outcome) == LoseFrame(old(Abs()), nextFrame, fecOk)
    {
      var frame := nextPlayFrame;
      packetsLost := packetsLost + 1;
      nextPlayFrame := nextPlayFrame + 1;
      if nextFrame == frame + 1 && fecOk {
        packetsRecoveredFec := packetsRecoveredFec + 1;
        return Recovered(frame, jitterBuffer[nextFrame]);
      }
      framesConcealed := framesConcealed + 1;
      return Concealed(frame);
    }

    method DecodeNext(now: real, decodeOk: bool, fecOk: bool) returns (outcome: Outcome)
      modifies this
      ensures (Abs(), outcome) == Decode(old(Abs()), now, decodeOk, fecOk)
      ensures Good(old(Abs())) ==> Ticked(old(Abs()), now, decodeOk, fecOk, Abs(), outcome)
    {
      hide MinKey, AtGap, StillAhead, Ticked, Good;
      if Good(Abs()) {
        TickDoes(Abs(), now, decodeOk, fecOk);
      }
      if !started && DepthNow() < targetFrames {
        return Silent;
      }
      if !streamEnded && estimate.haveArrival && now - estimate.lastArrival > STREAM_STALE_THRESHOLD_US {
        streamEnded := true;
      }
      if streamEnded && jitterBuffer == map[] {
        return Silent;
      }
      needsPrime := false;
      if nextPlayFrame in jitterBuffer {
        outcome := Play(decodeOk);
      } else {
        outcome := ResolveGap(fecOk);
      }
    }
  }
}
