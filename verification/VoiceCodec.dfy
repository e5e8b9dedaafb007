/**
 Mumble voice packets carried over TCP: the variable-length integer, the packet a client sends and the packet the bridge
 sends to a client. Bytes are numbers below 256; a bit mask is the range or remainder it selects.
 */
module VoiceCodec {
  import opened Options

  type Byte = b: int | 0 <= b < 256

  // The largest 64-bit value, plus one.
  const LIMIT := 0x1_0000_0000_0000_0000

  // ---- Big-endian numbers

  function Power(n: nat): (p: nat)
    ensures p > 0
  {
    if n == 0 then 1 else 256 * Power(n - 1)
  }

  function Number(bytes: seq<Byte>): nat {
    if bytes == [] then 0 else Number(bytes[..|bytes| - 1]) * 256 + bytes[|bytes| - 1]
  }

  /** The low `n` bytes, most significant first. */
  function Bytes(v: nat, n: nat): (s: seq<Byte>)
    ensures |s| == n
  {
    if n == 0 then [] else Bytes(v / 256, n - 1) + [v % 256]
  }

  lemma {:induction false} NumberBounded(bytes: seq<Byte>)
    ensures Number(bytes) < Power(|bytes|)
    decreases |bytes|
  {
    if bytes != [] {
      NumberBounded(bytes[..|bytes| - 1]);
    }
  }

  lemma {:induction false} NumberOfBytes(v: nat, n: nat)
    ensures Number(Bytes(v, n)) == v % Power(n)
    decreases n
  {
    if n > 0 {
      NumberOfBytes(v / 256, n - 1);
      assert Bytes(v, n)[..n - 1] == Bytes(v / 256, n - 1);
      SplitMod(v, Power(n - 1));
    }
  }

  lemma {:induction false} SplitMod(v: nat, p: nat)
    requires p > 0
    ensures v % (256 * p) == (v / 256) % p * 256 + v % 256
  {
    var q, r := (v / 256) / p, (v / 256) % p;
    assert v / 256 == q * p + r;
    assert v == 256 * (v / 256) + v % 256;
    var low := r * 256 + v % 256;
    assert v == q * (256 * p) + low by {
      assert 256 * (q * p + r) == q * (256 * p) + 256 * r;
    }
    assert 0 <= low < 256 * p;
    ModUnique(v, 256 * p, q, low);
  }

  lemma {:induction false} DivMod(v: nat, p: nat)
    requires p > 0
    ensures v == v / p * p + v % p
  {
  }

  lemma {:induction false} Multiples(a: int, b: int, m: nat)
    requires a > b
    ensures a * m >= b * m + m
  {
    assert a * m - b * m - m == (a - b - 1) * m;
  }

  lemma {:induction false} ModUnique(v: nat, m: nat, q: int, r: nat)
    requires m > 0 && v == q * m + r && r < m
    ensures v % m == r && v / m == q
  {
    if q > v / m {
      Multiples(q, v / m, m);
    } else if q < v / m {
      Multiples(v / m, q, m);
    }
  }

  lemma {:induction false} BytesOfNumber(bytes: seq<Byte>)
    ensures Bytes(Number(bytes), |bytes|) == bytes
    decreases |bytes|
  {
    if bytes != [] {
      var n := |bytes| - 1;
      BytesOfNumber(bytes[..n]);
      var rest := Number(bytes[..n]);
      assert (rest * 256 + bytes[n]) / 256 == rest && (rest * 256 + bytes[n]) % 256 == bytes[n];
    }
  }

  /** Higher bytes do not show in the low ones. */
  lemma {:induction false} BytesIgnoreHigh(high: nat, v: nat, n: nat)
    ensures Bytes(high * Power(n) + v, n) == Bytes(v, n)
    decreases n
  {
    if n > 0 {
      var p := Power(n - 1);
      assert high * (256 * p) == 256 * (high * p);
      var w := high * p;
      assert (256 * w + v) % 256 == v % 256;
      assert (256 * w + v) / 256 == w + v / 256;
      BytesIgnoreHigh(high, v / 256, n - 1);
    }
  }

  lemma {:induction false} Powers()
    ensures Power(1) == 0x100 && Power(2) == 0x1_0000 && Power(3) == 0x100_0000 && Power(4) == 0x1_0000_0000
    ensures Power(8) == LIMIT
  {
    assert Power(1) == 256 * Power(0);
    assert Power(2) == 256 * Power(1);
    assert Power(3) == 256 * Power(2);
    assert Power(4) == 256 * Power(3);
    assert Power(5) == 256 * Power(4);
    assert Power(6) == 256 * Power(5);
    assert Power(7) == 256 * Power(6);
    assert Power(8) == 256 * Power(7);
  }

  // ---- The variable-length integer

  /** How many bytes the first one announces; 0 for a form that is not read. */
  function Width(first: Byte): nat {
    if first < 0x80 then 1
    else if first < 0xC0 then 2
    else if first < 0xE0 then 3
    else if first < 0xF0 then 4
    else if first < 0xF4 then 5
    else if first < 0xF8 then 9
    else 0
  }

  function ReadVarint(data: seq<Byte>): Option<(nat, nat)> {
    if data == [] then None
    else if data[0] < 0x80 then Some((data[0], 1))
    else if data[0] < 0xC0 then
      if |data| < 2 then None else Some((data[0] % 0x40 * 0x100 + Number(data[1..2]), 2))
    else if data[0] < 0xE0 then
      if |data| < 3 then None else Some((data[0] % 0x20 * 0x1_0000 + Number(data[1..3]), 3))
    else if data[0] < 0xF0 then
      if |data| < 4 then None else Some((data[0] % 0x10 * 0x100_0000 + Number(data[1..4]), 4))
    else if data[0] / 4 % 4 == 0 then
      if |data| < 5 then None else Some((Number(data[1..5]), 5))
    else if data[0] / 4 % 4 == 1 then
      if |data| < 9 then None else Some((Number(data[1..9]), 9))
    else None
  }

  function EncodeVarint(v: nat): (s: seq<Byte>)
    requires v < LIMIT
    ensures s != []
  {
    if v < 0x80 then [v]
    else if v < 0x4000 then [v / 0x100 + 0x80] + Bytes(v, 1)
    else if v < 0x20_0000 then [v / 0x1_0000 + 0xC0] + Bytes(v, 2)
    else if v < 0x1000_0000 then [v / 0x100_0000 + 0xE0] + Bytes(v, 3)
    else if v <= 0xFFFF_FFFF then [0xF0] + Bytes(v, 4)
    else [0xF4] + Bytes(v, 8)
  }

  /** The value bits of a first byte. */
  function High(first: Byte): nat {
    if first < 0x80 then first
    else if first < 0xC0 then first % 0x40
    else if first < 0xE0 then first % 0x20
    else if first < 0xF0 then first % 0x10
    else 0
  }

  lemma {:induction false} ReadIs(data: seq<Byte>)
    requires data != [] && 0 < Width(data[0]) <= |data|
    ensures var n := Width(data[0]);
            ReadVarint(data) == Some((High(data[0]) * Power(n - 1) + Number(data[1..n]), n))
  {
    Powers();
    assert Power(0) == 1 && Number(data[1..1]) == 0;
    hide Number, Power;
  }

  /** The first byte announces the length and carries what the bytes after it do not hold. */
  lemma {:induction false} HeadOf(v: nat)
    requires v < LIMIT
    ensures var s := EncodeVarint(v);
            && Width(s[0]) == |s| && High(s[0]) == v / Power(|s| - 1) && s[1..] == Bytes(v, |s| - 1)
  {
    Powers();
    assert Power(0) == 1;
    EncodedTail(v);
    hide Power, Bytes;
    if 0x80 <= v < 0x4000 {
      assert (v / 0x100 + 0x80) % 0x40 == v / 0x100;
    } else if 0x4000 <= v < 0x20_0000 {
      assert (v / 0x1_0000 + 0xC0) % 0x20 == v / 0x1_0000;
    } else if 0x20_0000 <= v < 0x1000_0000 {
      assert (v / 0x100_0000 + 0xE0) % 0x10 == v / 0x100_0000;
    }
  }

  lemma {:induction false} EncodedTail(v: nat)
    requires v < LIMIT
    ensures EncodeVarint(v)[1..] == Bytes(v, |EncodeVarint(v)| - 1)
  {
  }

  /** Every 64-bit value, whatever follows it: reading gives it back and consumes exactly its encoding. */
  lemma {:induction false} VarintRoundTrip(v: nat, rest: seq<Byte>)
    requires v < LIMIT
    ensures ReadVarint(EncodeVarint(v) + rest) == Some((v, |EncodeVarint(v)|))
  {
    var s := EncodeVarint(v);
    var k := |s| - 1;
    HeadOf(v);
    hide ReadVarint, EncodeVarint, Bytes, Number, Power, Width, High;
    assert (s + rest)[1..k + 1] == s[1..];
    ReadIs(s + rest);
    NumberOfBytes(v, k);
    DivMod(v, Power(k));
  }

  /** A value is refused exactly when it is cut short or in one of the forms that are not read. */
  lemma {:induction false} VarintAccepted(data: seq<Byte>)
    ensures ReadVarint(data).Some? <==> data != [] && 0 < Width(data[0]) <= |data|
    ensures ReadVarint(data).Some? ==> ReadVarint(data).value.1 == Width(data[0])
  {
    hide Number;
  }

  /** What is read is the announced number of bytes and nothing else. */
  lemma {:induction false} VarintIsPrefixCode(data: seq<Byte>, rest: seq<Byte>)
    requires ReadVarint(data).Some?
    ensures ReadVarint(data).value.1 <= |data|
    ensures ReadVarint(data[..ReadVarint(data).value.1] + rest) == ReadVarint(data)
  {
    var n := ReadVarint(data).value.1;
    assert n > 1 ==> (data[..n] + rest)[1..n] == data[1..n];
    hide Number;
  }


  /** No accepted encoding of a value is shorter than the one produced. */
  lemma {:induction false} VarintIsMinimal(data: seq<Byte>)
    requires ReadVarint(data).Some?
    ensures var (v, n) := ReadVarint(data).value; v < LIMIT && |EncodeVarint(v)| <= n
  {
    var n := ReadVarint(data).value.1;
    if n > 1 {
      NumberBounded(data[1..n]);
      Powers();
      hide Number, Power, Bytes;
    }
  }

  /** The value's low bytes are the bytes after the first. */
  lemma {:induction false} TailBytes(data: seq<Byte>)
    requires ReadVarint(data).Some? && ReadVarint(data).value.1 > 1
    ensures var (v, n) := ReadVarint(data).value; n <= |data| && Bytes(v, n - 1) == data[1..n]
  {
    var (v, n) := ReadVarint(data).value;
    var tail := data[1..n];
    BytesOfNumber(tail);
    Powers();
    hide Bytes, Number, Power;
    if n < 5 {
      var high := data[0] % (if n == 2 then 0x40 else if n == 3 then 0x20 else 0x10);
      BytesIgnoreHigh(high, Number(tail), n - 1);
    }
  }

  lemma {:induction false} HighIs(b: Byte)
    ensures High(b) == if b < 0x80 then b else if b < 0xC0 then b - 0x80 else if b < 0xE0 then b - 0xC0
                       else if b < 0xF0 then b - 0xE0 else 0
  {
    if 0x80 <= b < 0xC0 {
      assert b == 0x40 * 2 + (b - 0x80);
    } else if 0xC0 <= b < 0xE0 {
      assert b == 0x20 * 6 + (b - 0xC0);
    } else if 0xE0 <= b < 0xF0 {
      assert b == 0x10 * 14 + (b - 0xE0);
    }
  }

  lemma {:induction false} SameHead(a: Byte, b: Byte)
    requires Width(a) == Width(b) > 0 && High(a) == High(b)
    ensures if a < 0xF0 then a == b else b >= 0xF0 && a / 4 == b / 4
  {
    HighIs(a);
    HighIs(b);
    hide High;
    if a >= 0xF0 {
      assert a / 4 == if a < 0xF4 then 0x3C else 0x3D;
    }
  }

  lemma {:induction false} NoIgnoredBits(v: nat)
    requires v < LIMIT
    ensures EncodeVarint(v)[0] >= 0xF0 ==> EncodeVarint(v)[0] % 4 == 0
  {
  }

  /** The first byte carries the value's high bits under its prefix. */
  lemma {:induction false} FirstByte(data: seq<Byte>)
    requires ReadVarint(data).Some?
    ensures var (v, n) := ReadVarint(data).value;
            v < LIMIT && (n == |EncodeVarint(v)| ==>
              EncodeVarint(v)[0] == if data[0] < 0xF0 then data[0] else data[0] / 4 * 4)
  {
    VarintAccepted(data);
    VarintIsMinimal(data);
    ReadIs(data);
    var (v, n) := ReadVarint(data).value;
    HeadOf(v);
    NumberBounded(data[1..n]);
    hide ReadVarint, EncodeVarint, Bytes, Number, Power;
    ModUnique(v, Power(n - 1), High(data[0]), Number(data[1..n]));
    if n == |EncodeVarint(v)| {
      SameHead(EncodeVarint(v)[0], data[0]);
      NoIgnoredBits(v);
    }
  }

  /** The produced encoding is the only accepted one of its length, but for two ignored bits of the longest forms. */
  lemma {:induction false} VarintIsCanonical(data: seq<Byte>)
    requires ReadVarint(data).Some?
    ensures var (v, n) := ReadVarint(data).value;
            v < LIMIT && n <= |data| &&
            (data[..n] == EncodeVarint(v) <==> n == |EncodeVarint(v)| && (data[0] >= 0xF0 ==> data[0] % 4 == 0))
  {
    VarintAccepted(data);
    FirstByte(data);
    var (v, n) := ReadVarint(data).value;
    assert data[..n] == [data[0]] + data[1..n];
    if n > 1 {
      TailBytes(data);
    }
    EncodedTail(v);
    hide ReadVarint, EncodeVarint, Bytes;
    assert n == |EncodeVarint(v)| ==> EncodeVarint(v) == [EncodeVarint(v)[0]] + data[1..n];
  }

  lemma {:induction false} BytesAre(v: nat, n: nat, i: nat)
    requires i < n
    ensures Bytes(v, n)[i] == v / Power(n - 1 - i) % 256
    decreases n
  {
    if i < n - 1 {
      BytesAre(v / 256, n - 1, i);
      Quotients(v, Power(n - 2 - i));
    } else {
      assert Power(0) == 1;
    }
  }

  lemma {:induction false} Quotients(v: nat, p: nat)
    requires p > 0
    ensures v / 256 / p == v / (256 * p)
  {
    var q, r := (v / 256) / p, (v / 256) % p;
    DivMod(v / 256, p);
    assert v == 256 * (q * p + r) + v % 256;
    assert 256 * (q * p + r) == q * (256 * p) + 256 * r by {
      assert 256 * (q * p) == q * (256 * p);
    }
    ModUnique(v, 256 * p, q, 256 * r + v % 256);
  }

  /** The format, byte by byte: a prefix for the length over the high bits, then the number, most significant byte first. */
  lemma {:induction false} VarintLayout(v: nat)
    requires v < LIMIT
    ensures var s := EncodeVarint(v);
      && |s| == (if v < 0x80 then 1 else if v < 0x4000 then 2 else if v < 0x20_0000 then 3 else if v < 0x1000_0000 then 4
                 else if v < 0x1_0000_0000 then 5 else 9)
      && s[0] == (match |s| case 1 => v
                            case 2 => 0x80 + v / 0x100
                            case 3 => 0xC0 + v / 0x1_0000
                            case 4 => 0xE0 + v / 0x100_0000
                            case 5 => 0xF0
                            case _ => 0xF4)
      && forall i :: 0 < i < |s| ==> s[i] == v / Power(|s| - 1 - i) % 256
  {
    var s := EncodeVarint(v);
    EncodedTail(v);
    hide Power, Bytes;
    forall i | 0 < i < |s| ensures s[i] == v / Power(|s| - 1 - i) % 256 {
      assert s[i] == s[1..][i - 1];
      BytesAre(v, |s| - 1, i - 1);
    }
  }

  // ---- Packets

  const OPUS_TYPE := 4

  // The length field: 13 bits of length, and the terminator bit above them.
  const LENGTH_SPAN := 0x2000

  datatype ClientPacket = ClientPacket(target: nat, sequence: nat, opus: seq<Byte>, isLast: bool)

  function ParseVoicePacket(data: seq<Byte>): Option<ClientPacket> {
    if data == [] || data[0] / 0x20 != OPUS_TYPE then None
    else
      var rest := data[1..];
      match ReadVarint(rest)
      case None => None
      case Some((sequence, n)) =>
        if n > |rest| then None
        else
          match ReadPayload(rest[n..])
          case None => None
          case Some((opus, isLast)) => Some(ClientPacket(data[0] % 0x20, sequence, opus, isLast))
  }

  /** The length field and as many bytes as it says; what follows is ignored. */
  function ReadPayload(data: seq<Byte>): Option<(seq<Byte>, bool)> {
    match ReadVarint(data)
    case None => None
    case Some((header, n)) =>
      if n > |data| || |data| - n < header % LENGTH_SPAN then None
      else Some((data[n..n + header % LENGTH_SPAN], header / LENGTH_SPAN % 2 != 0))
  }

  /** Setting the terminator bit. */
  function LengthField(len: nat, isLast: bool): nat {
    if isLast && len / LENGTH_SPAN % 2 == 0 then len + LENGTH_SPAN else len
  }

  /** Length field and payload. */
  function EncodePayload(opus: seq<Byte>, isLast: bool): seq<Byte>
    requires |opus| < LIMIT - LENGTH_SPAN
  {
    EncodeVarint(LengthField(|opus|, isLast)) + opus
  }

  /** What the bridge sends a client. */
  function EncodeVoicePacket(sessionId: nat, sequence: nat, opus: seq<Byte>, isLast: bool): seq<Byte>
    requires sessionId <= 0xFFFF_FFFF && sequence < LIMIT && |opus| < LIMIT - LENGTH_SPAN
  {
    [OPUS_TYPE * 0x20] + EncodeVarint(sessionId) + EncodeVarint(sequence) + EncodePayload(opus, isLast)
  }

  /** The client's side of the documented server-to-client format. */
  function DecodeServerPacket(data: seq<Byte>): Option<(nat, nat, seq<Byte>, bool)> {
    if data == [] || data[0] / 0x20 != OPUS_TYPE then None
    else
      var rest := data[1..];
      match ReadVarint(rest)
      case None => None
      case Some((session, n)) =>
        if n > |rest| then None
        else
          var rest2 := rest[n..];
          match ReadVarint(rest2)
          case None => None
          case Some((sequence, m)) =>
            if m > |rest2| then None
            else
              match ReadPayload(rest2[m..])
              case None => None
              case Some((opus, isLast)) => Some((session, sequence, opus, isLast))
  }

  /** What a client sends: the same without the session. */
  function EncodeClientPacket(p: ClientPacket): seq<Byte>
    requires p.target < 0x20 && p.sequence < LIMIT && |p.opus| < LIMIT - LENGTH_SPAN
  {
    [OPUS_TYPE * 0x20 + p.target] + EncodeVarint(p.sequence) + EncodePayload(p.opus, p.isLast)
  }

  lemma {:induction false} LengthFieldReads(len: nat, isLast: bool)
    ensures LengthField(len, isLast) % LENGTH_SPAN == len % LENGTH_SPAN
    ensures len < LENGTH_SPAN ==> (LengthField(len, isLast) / LENGTH_SPAN % 2 != 0 <==> isLast)
    ensures LengthField(len, isLast) <= len + LENGTH_SPAN
  {
  }

  lemma {:induction false} SmallLength(len: nat)
    ensures len % LENGTH_SPAN <= len && (len < LENGTH_SPAN ==> len % LENGTH_SPAN == len)
  {
  }

  lemma {:induction false} PayloadReads(h: nat, tail: seq<Byte>)
    requires h < LIMIT && h % LENGTH_SPAN <= |tail|
    ensures ReadPayload(EncodeVarint(h) + tail) == Some((tail[..h % LENGTH_SPAN], h / LENGTH_SPAN % 2 != 0))
  {
    var s, k := EncodeVarint(h), h % LENGTH_SPAN;
    VarintRoundTrip(h, tail);
    hide ReadVarint, EncodeVarint;
    assert (s + tail)[|s|..|s| + k] == tail[..k];
  }

  /** A payload and its terminator come back exactly if the length fits its 13 bits. */
  lemma {:induction false} PayloadRoundTrip(opus: seq<Byte>, isLast: bool, rest: seq<Byte>)
    requires |opus| < LIMIT - LENGTH_SPAN
    ensures |opus| < LENGTH_SPAN ==> ReadPayload(EncodePayload(opus, isLast) + rest) == Some((opus, isLast))
    ensures |opus| >= LENGTH_SPAN ==>
              ReadPayload(EncodePayload(opus, isLast) + rest).Some? &&
              ReadPayload(EncodePayload(opus, isLast) + rest).value.0 == opus[..|opus| % LENGTH_SPAN]
  {
    var h := LengthField(|opus|, isLast);
    LengthFieldReads(|opus|, isLast);
    assert EncodePayload(opus, isLast) + rest == EncodeVarint(h) + (opus + rest);
    PayloadReads(h, opus + rest);
    hide ReadVarint, EncodeVarint, LengthField, ReadPayload, EncodePayload;
    var k := |opus| % LENGTH_SPAN;
    SmallLength(|opus|);
    assert (opus + rest)[..k] == opus[..k];
    assert opus[..|opus|] == opus;
  }

  lemma {:induction false} Skip(first: Byte, v: nat, rest: seq<Byte>)
    requires v < LIMIT
    ensures var data := [first] + EncodeVarint(v) + rest;
            data[1..] == EncodeVarint(v) + rest && data[1..][|EncodeVarint(v)|..] == rest
            && ReadVarint(data[1..]) == Some((v, |EncodeVarint(v)|))
  {
    VarintRoundTrip(v, rest);
    hide ReadVarint, EncodeVarint;
    assert ([first] + EncodeVarint(v) + rest)[1..] == EncodeVarint(v) + rest;
  }

  /** The bridge's packet reads back as what was put in, exactly if the payload is under 8192 bytes. */
  lemma {:induction false} ServerPacketRoundTrip(sessionId: nat, sequence: nat, opus: seq<Byte>, isLast: bool)
    requires sessionId <= 0xFFFF_FFFF && sequence < LIMIT && |opus| < LIMIT - LENGTH_SPAN
    ensures DecodeServerPacket(EncodeVoicePacket(sessionId, sequence, opus, isLast)) == Some((sessionId, sequence, opus, isLast))
       <==> |opus| < LENGTH_SPAN
  {
    var payload := EncodePayload(opus, isLast);
    var tail := EncodeVarint(sequence) + payload;
    var data := EncodeVoicePacket(sessionId, sequence, opus, isLast);
    assert data == [OPUS_TYPE * 0x20] + EncodeVarint(sessionId) + tail;
    Skip(OPUS_TYPE * 0x20, sessionId, tail);
    VarintRoundTrip(sequence, payload);
    assert tail[|EncodeVarint(sequence)|..] == payload;
    PayloadRoundTrip(opus, isLast, []);
    assert payload + [] == payload;
    hide ReadVarint, EncodeVarint, ReadPayload, EncodePayload, EncodeVoicePacket;
  }

  /** What a client sends is read back, with anything after it ignored, exactly if the payload is under 8192 bytes. */
  lemma {:induction false} ClientPacketRoundTrip(p: ClientPacket, rest: seq<Byte>)
    requires p.target < 0x20 && p.sequence < LIMIT && |p.opus| < LIMIT - LENGTH_SPAN
    ensures ParseVoicePacket(EncodeClientPacket(p) + rest) == Some(p) <==> |p.opus| < LENGTH_SPAN
  {
    var payload := EncodePayload(p.opus, p.isLast);
    var first := OPUS_TYPE * 0x20 + p.target;
    var data := [first] + EncodeVarint(p.sequence) + (payload + rest);
    assert EncodeClientPacket(p) + rest == data;
    assert first / 0x20 == OPUS_TYPE && first % 0x20 == p.target;
    Skip(first, p.sequence, payload + rest);
    PayloadRoundTrip(p.opus, p.isLast, rest);
    hide ReadVarint, EncodeVarint, ReadPayload, EncodePayload, EncodeClientPacket;
    var n := |EncodeVarint(p.sequence)|;
    assert data[0] == first && data[1..][n..] == payload + rest;
  }

  lemma {:induction false} SliceOfTail(data: seq<Byte>, n: nat, i: nat, j: nat)
    requires n <= |data| && i <= j <= |data[n..]|
    ensures data[n..][i..j] == data[n + i..n + j]
  {
  }

  lemma {:induction false} SmallVarint(v: nat)
    requires v < 0x80
    ensures EncodeVarint(v) == [v]
  {
  }

  lemma {:induction false} MarkedLength(n: nat)
    requires n < 0x80
    ensures EncodeVarint(n + 0x2000) == [0xA0, n]
  {
    var v := n + 0x2000;
    assert v == 32 * 256 + n;
    assert v / 0x100 == 32 && v % 256 == n;
    assert Bytes(v, 1) == Bytes(v / 256, 0) + [v % 256];
    assert Bytes(v / 256, 0) == [];
    hide Bytes;
  }

  /** The two packets byte by byte, while every number in them is below 128. */
  lemma {:induction false} PacketLayout(sessionId: nat, p: ClientPacket)
    requires sessionId < 0x80 && p.target < 0x20 && p.sequence < 0x80 && |p.opus| < 0x80
    ensures var length := if p.isLast then [0xA0, |p.opus|] else [|p.opus|];
      && EncodeVoicePacket(sessionId, p.sequence, p.opus, p.isLast) == [0x80, sessionId, p.sequence] + length + p.opus
      && EncodeClientPacket(p) == [0x80 + p.target, p.sequence] + length + p.opus
  {
    hide EncodeVarint;
    SmallVarint(sessionId);
    SmallVarint(p.sequence);
    SmallVarint(|p.opus|);
    MarkedLength(|p.opus|);
  }

  /** An Opus packet that is all there: the sequence number in `n` bytes, the length field in `m`, and the payload. */
  predicate Framed(data: seq<Byte>, sequence: nat, n: nat, length: nat, m: nat) {
    && data != [] && 0x80 <= data[0] < 0xA0
    && ReadVarint(data[1..]) == Some((sequence, n)) && 1 + n <= |data|
    && ReadVarint(data[1 + n..]) == Some((length, m)) && 1 + n + m + length % 0x2000 <= |data|
  }

  /** Exactly such packets are accepted, and each field is read where the format has it. */
  lemma {:induction false} FramedIsParsed(data: seq<Byte>, sequence: nat, n: nat, length: nat, m: nat)
    requires Framed(data, sequence, n, length, m)
    ensures ParseVoicePacket(data)
         == Some(ClientPacket(data[0] - 0x80, sequence, data[1 + n + m..1 + n + m + length % 0x2000],
                              length / 0x2000 % 2 == 1))
  {
    hide ReadVarint;
    assert data[1..][n..] == data[1 + n..];
    SliceOfTail(data, 1 + n, m, m + length % 0x2000);
    assert data[0] % 0x20 == data[0] - 0x80;
  }

  lemma {:induction false} ParsedIsFramed(data: seq<Byte>)
    requires ParseVoicePacket(data).Some?
    ensures exists sequence, n, length, m :: Framed(data, sequence, n, length, m)
  {
    hide ReadVarint;
    var (sequence, n) := ReadVarint(data[1..]).value;
    assert data[1..][n..] == data[1 + n..];
    var (length, m) := ReadVarint(data[1 + n..]).value;
    assert Framed(data, sequence, n, length, m);
  }

  /** Whatever bytes arrive, an accepted packet is sound: its fields are in range and its payload was really there. */
  lemma {:induction false} ParsedIsSound(data: seq<Byte>)
    requires ParseVoicePacket(data).Some?
    ensures var p := ParseVoicePacket(data).value;
            && p.target < 0x20 && p.sequence < LIMIT && |p.opus| < LENGTH_SPAN
            && ParseVoicePacket(EncodeClientPacket(p)) == Some(p)
            && exists i, j :: 0 < i <= j <= |data| && data[i..j] == p.opus
  {
    var p, rest := ParseVoicePacket(data).value, data[1..];
    VarintIsMinimal(rest);
    VarintAccepted(rest);
    var n := ReadVarint(rest).value.1;
    PayloadIsThere(rest[n..]);
    hide ReadVarint, EncodeVarint, ReadPayload;
    var i, j :| 0 <= i <= j <= |rest[n..]| && rest[n..][i..j] == p.opus;
    assert data[1 + n..] == rest[n..];
    SliceOfTail(data, 1 + n, i, j);
    hide ParseVoicePacket;
    ClientPacketRoundTrip(p, []);
    assert EncodeClientPacket(p) + [] == EncodeClientPacket(p);
  }

  lemma {:induction false} PayloadIsThere(data: seq<Byte>)
    requires ReadPayload(data).Some?
    ensures |ReadPayload(data).value.0| < LENGTH_SPAN
    ensures exists i, j :: 0 <= i <= j <= |data| && data[i..j] == ReadPayload(data).value.0
  {
    var (header, n) := ReadVarint(data).value;
    assert data[n..n + header % LENGTH_SPAN] == ReadPayload(data).value.0;
  }

  method Encode(sessionId: nat, sequence: nat, opus: seq<Byte>, isLast: bool) returns (packet: seq<Byte>)
    requires sessionId <= 0xFFFF_FFFF && sequence < LIMIT && |opus| < LIMIT - LENGTH_SPAN
    ensures packet == EncodeVoicePacket(sessionId, sequence, opus, isLast)
  {
    hide EncodeVarint;
    var opusLen := |opus|;
    if isLast && opusLen / LENGTH_SPAN % 2 == 0 {
      opusLen := opusLen + LENGTH_SPAN;
    }
    LengthFieldReads(|opus|, isLast);
    packet := [OPUS_TYPE * 0x20];
    packet := packet + EncodeVarint(sessionId);
    packet := packet + EncodeVarint(sequence);
    packet := packet + EncodeVarint(opusLen);
    packet := packet + opus;
  }
}
