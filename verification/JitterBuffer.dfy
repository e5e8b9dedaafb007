/**
 One peer's playback state: a jitter buffer keyed by media frame that tells packet loss from intended silence. Codec and
 samples are opaque: whether a decode succeeds is an input. `arrival` numbers packets as they are received and `fates`
 records what became of each; the program has neither, they only serve to state conservation.
 */
module JitterBuffer {
  import opened MediaClock
  import opened Sets

  const JITTER_BUFFER_MAX_PACKETS := 20
  const MIN_TARGET_FRAMES := 2
  const MAX_TARGET_FRAMES := 12
  const DRIFT_DROP_SLACK := 4
  const RESTART_BACKWARD_FRAMES := 100
  const LATE_RESYNC_FRAMES := 10
  const STREAM_STALE_THRESHOLD_US := 200_000.0
  const MAX_PENDING_EOS := 8
  const SEQ_SPACE := 0x1_0000_0000
  const HALF_SEQ_SPACE := 0x7fff_ffff // u32::MAX / 2

  type Opus = seq<bv8>

  datatype Packet = Packet(seqNo: nat, opus: Opus, arrival: nat)

  datatype Fate = Decoded | Replaced | DroppedLate | Trimmed | Cleared

  datatype Stats = Stats(lost: nat, recovered: nat, concealed: nat, starved: nat, decodeErrors: nat)

  const NO_STATS := Stats(0, 0, 0, 0, 0)

  // The smoothed jitter in microseconds, and the arrival it was last fed.
  datatype Estimate = Estimate(jitterUs: real, lastArrival: real, lastArrivalFrame: nat, haveArrival: bool)

  // Packets received so far and what became of them.
  datatype Book = Book(received: nat, fates: map<nat, Fate>)

  datatype Rx = Rx(
    buffer: map<nat, Packet>, nextPlay: nat, started: bool, lastSeq: nat, lastFrame: nat, target: nat, base: nat,
    estimate: Estimate, ended: bool, prime: bool, eos: seq<nat>, late: nat, stats: Stats, book: Book)

  function Clamp(x: int): (r: nat)
    ensures MIN_TARGET_FRAMES <= r <= MAX_TARGET_FRAMES && (MIN_TARGET_FRAMES <= x <= MAX_TARGET_FRAMES ==> r == x)
  {
    if x < MIN_TARGET_FRAMES then MIN_TARGET_FRAMES else if x > MAX_TARGET_FRAMES then MAX_TARGET_FRAMES else x
  }

  function Fresh(baseDelay: nat, now: real): Rx {
    var base := Clamp(baseDelay);
    Rx(map[], 0, false, 0, 0, base, base, Estimate(0.0, now, 0, false), true, false, [], 0, NO_STATS, Book(0, map[]))
  }

  /** Subtraction on 32-bit sequence numbers. */
  function WrappingSub(a: nat, b: nat): (r: nat)
    ensures r < SEQ_SPACE
  {
    (a - b) % SEQ_SPACE
  }

  // ---- The adaptive target

  /** One step of the smoothed interarrival jitter (section 6.4.1 of RFC 3550), in microseconds. */
  function NextJitter(jitterUs: real, elapsedUs: real, frames: nat): real {
    var arrivalDelta := if elapsedUs < 0.0 then 0.0 else elapsedUs.Floor as real;
    var mediaDelta := (frames * FRAME_US) as real;
    var transit := if arrivalDelta < mediaDelta then mediaDelta - arrivalDelta else arrivalDelta - mediaDelta;
    jitterUs + (transit - jitterUs) / 16.0
  }

  /** The base delay plus twice the jitter, rounded up to whole frames, within the fixed limits. */
  function TargetFor(base: nat, jitterUs: real): (r: nat)
    ensures MIN_TARGET_FRAMES <= r <= MAX_TARGET_FRAMES
  {
    var frames := 2.0 * jitterUs / (FRAME_US as real);
    Clamp(base - (-frames).Floor)
  }

  /** Only an arrival that moves the media clock forward feeds the estimate and the target. */
  function UpdateJitter(rx: Rx, frame: nat, now: real): Rx {
    var e := rx.estimate;
    var forward := e.haveArrival && frame > e.lastArrivalFrame;
    var jitterUs := if forward then NextJitter(e.jitterUs, now - e.lastArrival, frame - e.lastArrivalFrame) else e.jitterUs;
    rx.(estimate := Estimate(jitterUs, now, frame, true),
        target := if forward then TargetFor(rx.base, jitterUs) else rx.target)
  }

  // ---- The buffer

  ghost predicate IsLeast(s: set<nat>, k: nat) {
    k in s && forall j :: j in s ==> k <= j
  }

  ghost function MinKey(b: map<nat, Packet>): (k: nat)
    requires b != map[]
    ensures IsLeast(b.Keys, k)
  {
    HasEarliest(b.Keys);
    var k :| IsLeast(b.Keys, k);
    k
  }

  lemma {:induction false} HasEarliest(s: set<nat>)
    requires s != {}
    ensures exists k :: IsLeast(s, k)
  {
    var leq := (a: nat, b: nat) => a <= b;
    HasLeast(s, leq);
    var k :| Least(s, leq, k);
    assert IsLeast(s, k);
  }

  /** Frames buffered at or ahead of the cursor. */
  ghost function Depth(rx: Rx): nat {
    |set f | f in rx.buffer && f >= rx.nextPlay|
  }

  ghost function MaxDepth(rx: Rx): nat {
    if rx.started then rx.target + DRIFT_DROP_SLACK else JITTER_BUFFER_MAX_PACKETS
  }

  ghost function Arrivals(b: map<nat, Packet>): set<nat> {
    set f | f in b :: b[f].arrival
  }

  ghost function FatesOf(b: map<nat, Packet>, fate: Fate): map<nat, Fate> {
    map a | a in Arrivals(b) :: fate
  }

  /** Playout restarts at `frame`: buffer up again and prime the decoder; the gap's EOS marks are settled. */
  function Reanchor(rx: Rx, frame: nat): Rx {
    rx.(nextPlay := frame, started := false, prime := true, eos := [])
  }

  ghost function ClearedBuffer(rx: Rx): Rx {
    rx.(buffer := map[], book := rx.book.(fates := rx.book.fates + FatesOf(rx.buffer, Cleared)))
  }

  function Judged(b: Book, p: Packet, fate: Fate): Book {
    b.(fates := b.fates[p.arrival := fate])
  }

  /** Drops the oldest frame. While playing the cursor is pushed past it; while buffering it follows the first frame. */
  ghost function DropOldest(rx: Rx): Rx
    requires rx.buffer != map[]
  {
    var oldest := MinKey(rx.buffer);
    var rest := rx.buffer - {oldest};
    rx.(buffer := rest,
        nextPlay := if rx.started then (if oldest >= rx.nextPlay then oldest + 1 else rx.nextPlay)
                    else if rest != map[] then MinKey(rest) else rx.nextPlay,
        book := Judged(rx.book, rx.buffer[oldest], Trimmed))
  }

  ghost predicate TooDeep(rx: Rx) {
    |rx.buffer| > JITTER_BUFFER_MAX_PACKETS || Depth(rx) > MaxDepth(rx)
  }

  lemma {:induction false} TooDeepHasOldest(rx: Rx)
    requires TooDeep(rx)
    ensures rx.buffer != map[]
  {
    assert rx.buffer == map[] ==> (set f | f in rx.buffer && f >= rx.nextPlay) == {};
  }

  ghost function Trim(rx: Rx): Rx
    decreases |rx.buffer|
  {
    if TooDeep(rx) then
      TooDeepHasOldest(rx);
      Trim(DropOldest(rx))
    else rx
  }

  /** Takes the packet in, replacing one with the same frame: the stream is live again and no late run is pending. */
  ghost function TakenIn(rx: Rx, frame: nat, p: Packet): Rx {
    rx.(late := 0, ended := false, buffer := rx.buffer[frame := p],
        book := if frame in rx.buffer then Judged(rx.book, rx.buffer[frame], Replaced) else rx.book)
  }

  /** While buffering a fresh spurt, the cursor stays on the earliest frame. */
  ghost function Stored(rx: Rx, frame: nat, p: Packet): Rx {
    var r := TakenIn(rx, frame, p);
    assert frame in r.buffer;
    if r.started then r else r.(nextPlay := MinKey(r.buffer))
  }

  ghost function Accept(rx: Rx, frame: nat, p: Packet): Rx {
    Trim(Stored(rx, frame, p))
  }

  /**
   A media clock far behind the cursor is a restarted sender; one a little behind is a late packet, dropped unless too
   many came in a row, which means the clock was reset by less.
   */
  ghost function Placed(rx: Rx, frame: nat, p: Packet): Rx {
    if rx.started && frame + RESTART_BACKWARD_FRAMES < rx.nextPlay then
      Accept(Reanchor(ClearedBuffer(rx), frame), frame, p)
    else if rx.started && frame < rx.nextPlay then
      if rx.late + 1 <= LATE_RESYNC_FRAMES
      then rx.(late := rx.late + 1, book := Judged(rx.book, p, DroppedLate))
      else Accept(Reanchor(ClearedBuffer(rx), frame), frame, p)
    else
      Accept(rx, frame, p)
  }

  ghost function Insert(rx: Rx, seqNo: nat, timestampUs: nat, opus: Opus, now: real): Rx {
    var frame := timestampUs / FRAME_US;
    var n := rx.book.received;
    Placed(UpdateJitter(rx.(book := rx.book.(received := n + 1)), frame, now), frame, Packet(seqNo, opus, n))
  }

  function MarkEos(rx: Rx, seqNo: nat): Rx {
    var kept := if |rx.eos| >= MAX_PENDING_EOS then rx.eos[1..] else rx.eos;
    rx.(ended := true, eos := if seqNo in rx.eos then rx.eos else kept + [seqNo])
  }

  // ---- Playing

  ghost predicate ReadyToPlay(rx: Rx) {
    rx.started || Depth(rx) >= rx.target
  }

  /** EOS marks still ahead of the sequence number just played. */
  function StillAhead(eos: seq<nat>, played: nat): seq<nat> {
    if eos == [] then []
    else
      var s := eos[|eos| - 1];
      var rest := StillAhead(eos[..|eos| - 1], played);
      if WrappingSub(s, played) != 0 && WrappingSub(s, played) < HALF_SEQ_SPACE then rest + [s] else rest
  }

  /** EOS marks recorded strictly between the last played packet and the one `span` steps later. */
  function EosInSpan(eos: seq<nat>, lastSeq: nat, span: nat): nat {
    if eos == [] then 0
    else
      EosInSpan(eos[..|eos| - 1], lastSeq, span)
      + (if 0 < WrappingSub(eos[|eos| - 1], lastSeq) < span then 1 else 0)
  }

  /** The media clock moved further than the sequence, EOS discounted: the sender was silent. */
  predicate ReadsAsSilence(rx: Rx, nextFrame: nat, nextSeq: nat) {
    var seqSpan := WrappingSub(nextSeq, rx.lastSeq);
    seqSpan - EosInSpan(rx.eos, rx.lastSeq, seqSpan) < nextFrame - rx.lastFrame
  }

  ghost function Ahead(rx: Rx): map<nat, Packet> {
    map f | f in rx.buffer && f > rx.nextPlay :: rx.buffer[f]
  }

  datatype Outcome =
    | Silent
    | Reanchored(to: nat)
    | Played(frame: nat, packet: Packet)
    | DecodeFailed(frame: nat)
    | Starved(frame: nat)
    | Recovered(frame: nat, donor: Packet)
    | Concealed(frame: nat)

  function PlayFrame(rx: Rx, decodeOk: bool): (Rx, Outcome)
    requires rx.nextPlay in rx.buffer
  {
    var f := rx.nextPlay;
    var p := rx.buffer[f];
    var r := rx.(buffer := rx.buffer - {f}, started := true, lastSeq := p.seqNo, lastFrame := f, nextPlay := f + 1,
                 eos := StillAhead(rx.eos, p.seqNo), book := Judged(rx.book, p, Decoded));
    if decodeOk then (r, Played(f, p))
    else
      var s := r.stats;
      (r.(stats := s.(concealed := s.concealed + 1, decodeErrors := s.decodeErrors + 1)), DecodeFailed(f))
  }

  /** Loss at the cursor: take in-band FEC from the immediate successor, else conceal. */
  ghost function LoseFrame(rx: Rx, nextFrame: nat, fecOk: bool): (Rx, Outcome)
    requires nextFrame in rx.buffer
  {
    var f := rx.nextPlay;
    var s := rx.stats.(lost := rx.stats.lost + 1);
    var r := rx.(nextPlay := f + 1);
    if nextFrame == f + 1 && fecOk then (r.(stats := s.(recovered := s.recovered + 1)), Recovered(f, rx.buffer[nextFrame]))
    else (r.(stats := s.(concealed := s.concealed + 1)), Concealed(f))
  }

  ghost predicate Stale(rx: Rx, now: real) {
    rx.estimate.haveArrival && now - rx.estimate.lastArrival > STREAM_STALE_THRESHOLD_US
  }

  /** No frame at the cursor: stop, starve, read the gap as silence, or count a loss. */
  ghost function AtGap(rx: Rx, fecOk: bool): (Rx, Outcome) {
    if Ahead(rx) == map[] then
      if rx.ended then (rx, Silent)
      else
        var s := rx.stats;
        (rx.(nextPlay := rx.nextPlay + 1, stats := s.(concealed := s.concealed + 1, starved := s.starved + 1)),
         Starved(rx.nextPlay))
    else
      var nextFrame := MinKey(Ahead(rx));
      if rx.started && ReadsAsSilence(rx, nextFrame, rx.buffer[nextFrame].seqNo)
      then (Reanchor(rx, nextFrame), Reanchored(nextFrame))
      else LoseFrame(rx, nextFrame, fecOk)
  }

  ghost function Decode(rx: Rx, now: real, decodeOk: bool, fecOk: bool): (Rx, Outcome) {
    if !ReadyToPlay(rx) then (rx, Silent)
    else
      var ended := rx.ended || Stale(rx, now);
      if ended && rx.buffer == map[] then (rx.(ended := ended), Silent)
      else
        var r := rx.(ended := ended, prime := false);
        if r.nextPlay in r.buffer then PlayFrame(r, decodeOk) else AtGap(r, fecOk)
  }

  function ResetStats(rx: Rx): Rx {
    rx.(stats := NO_STATS)
  }
}
