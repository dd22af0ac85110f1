/** The noise datagrams and the burst in which they are sent. */
module NoisePackets {
  import opened Basics
  import opened NoisePlan

  // ---------------------------------------------------------------------------
  // QUIC long headers (sections 16 and 17.2 of RFC 9000)
  // ---------------------------------------------------------------------------

  function BigEndian(s: seq<byte>): nat {
    if s == [] then 0 else 0x100 * BigEndian(s[..|s| - 1]) + s[|s| - 1]
  }

  function Power2(n: nat): (p: nat)
    ensures p >= 1
  {
    if n == 0 then 1 else 2 * Power2(n - 1)
  }

  /** A variable-length integer: its value and the bytes after it. */
  function Varint(s: seq<byte>): Option<(int, seq<byte>)> {
    if s == [] then None
    else
      var length := Power2(s[0] / 0x40);
      if |s| < length then None
      else Some((BigEndian([s[0] % 0x40] + s[1..length]), s[length..]))
  }

  /** A connection id behind a one-byte length. */
  function ConnectionId(s: seq<byte>): Option<(seq<byte>, seq<byte>)> {
    if s == [] then None
    else
      var n: int := s[0];
      if |s| < 1 + n then None else Some((s[1..1 + n], s[1 + n..]))
  }

  /** The fields of an Initial packet of the version-1 layout; `rest` is what Length counts and all after it. */
  datatype LongHeader = LongHeader(
    typeBits: int, version: seq<byte>, dcid: seq<byte>, scid: seq<byte>,
    tokenLength: int, length: int, rest: seq<byte>)

  function DecodeInitial(s: seq<byte>): Option<LongHeader> {
    if |s| < 5 || s[0] / 0x40 != 3 then None
    else
      var dcid := ConnectionId(s[5..]);
      if dcid.None? then None else
      var scid := ConnectionId(dcid.value.1);
      if scid.None? then None else
      var token := Varint(scid.value.1);
      if token.None? || |token.value.1| < token.value.0 || token.value.0 < 0 then None else
      var length := Varint(token.value.1[token.value.0..]);
      if length.None? || |length.value.1| < length.value.0 then None else
      Some(LongHeader(s[0] / 0x10 % 4, s[1..5], dcid.value.0, scid.value.0,
                      token.value.0, length.value.0, length.value.1))
  }

  const QUIC_V2: seq<byte> := [0x6B, 0x33, 0x43, 0xCF]
  const QUIC_V1: seq<byte> := [0x00, 0x00, 0x00, 0x01]
  const QUIC_INIT_SIZE := 1200

  // ---------------------------------------------------------------------------
  // Randomness: any value of the right kind, or a failure
  // ---------------------------------------------------------------------------

  /** `rand.Read`; `served` says whether it succeeds. */
  method RandomBytes(n: nat, served: bool) returns (bytes: Option<seq<byte>>)
    ensures bytes.Some? <==> served
    ensures bytes.Some? ==> |bytes.value| == n
  {
    var zeros: seq<byte> := seq(n, _ => 0);
    if !served {
      return None;
    }
    assert |zeros| == n;
    var drawn: seq<byte> :| |drawn| == n;
    return Some(drawn);
  }

  /** `noiseRand`: inclusive at both ends, in either order, and the smaller one when nothing can be drawn. */
  method NoiseRand(min: int, max: int) returns (n: int)
    ensures Min(min, max) <= n <= (if min <= max then max else min)
  {
    var lo, hi := min, max;
    if lo > hi {
      lo, hi := hi, lo;
    }
    if hi <= lo {
      return lo;
    }
    if * {
      return lo;
    }
    n :| lo <= n <= hi;
  }

  // ---------------------------------------------------------------------------
  // Packets
  // ---------------------------------------------------------------------------

  /** What a pseudo-header is: 18 bytes of a long header whose Length is 1232. */
  ghost predicate PseudoHeader(h: seq<byte>, version: seq<byte>) {
    && |h| == 18 && |version| == 4
    && h[0] in {0xDC, 0xDE, 0xD3, 0xD9, 0xD0, 0xEC, 0xEE, 0xE3}
    && h[1..5] == version
    && h[5] == 8
    && h[14..] == [0x00, 0x00, 0x44, 0xD0]
  }

  /** `quicNoiseHeader` */
  method QuicNoiseHeader(version: seq<byte>, served: bool) returns (h: Option<seq<byte>>)
    requires |version| == 4
    ensures h.Some? <==> served
    ensures h.Some? ==> PseudoHeader(h.value, version)
  {
    var firsts: seq<byte> := [0xDC, 0xDE, 0xD3, 0xD9, 0xD0, 0xEC, 0xEE, 0xE3];
    var dcid := RandomBytes(8, served);
    if dcid.None? {
      return None;
    }
    var i := NoiseRand(0, |firsts| - 1);
    var header: seq<byte> := [firsts[i]];
    header := header + version;
    header := header + [0x08];
    header := header + dcid.value;
    header := header + [0x00, 0x00, 0x44, 0xD0];
    assert header[1..5] == version;
    assert header[14..] == [0x00, 0x00, 0x44, 0xD0];
    return Some(header);
  }

  lemma VarintTwoBytes(s: seq<byte>)
    requires |s| >= 2 && s[0] / 0x40 == 1
    ensures var high: int, low: int := s[0] % 0x40, s[1];
      Varint(s) == Some((high * 0x100 + low, s[2..]))
  {
    assert Power2(1) == 2 * Power2(0);
    var high: int, low: int := s[0] % 0x40, s[1];
    var two: seq<byte> := [s[0] % 0x40] + s[1..2];
    assert two == [high, low];
    assert two[..1] == [high] && two[..1][..0] == [];
    assert BigEndian(two[..1]) == high;
  }

  lemma VarintZero(s: seq<byte>)
    requires s != [] && s[0] == 0
    ensures Varint(s) == Some((0, s[1..]))
  {
    assert [0 as byte] + s[1..1] == [0];
    assert [0][..0] == [];
  }

  /** A pseudo-header never passes for a packet: the 1232 bytes that its Length promises do not follow. */
  lemma PseudoHeaderIsNoPacket(h: seq<byte>, version: seq<byte>, payload: seq<byte>)
    requires PseudoHeader(h, version) && |payload| <= 100
    ensures DecodeInitial(h + payload).None?
    ensures Varint(h[16..] + payload) == Some((1232, payload))
  {
    var s := h + payload;
    var tail: seq<byte> := [0x00, 0x00, 0x44, 0xD0] + payload;
    assert s == h[..14] + (h[14..] + payload);
    assert s[14..] == tail;
    assert s[5..][9..] == s[14..];
    assert ConnectionId(s[5..]) == Some((s[5..][1..9], tail));
    assert ConnectionId(tail) == Some((tail[1..1], tail[1..]));
    VarintZero(tail[1..]);
    assert tail[1..][1..][0..] == tail[2..];
    VarintTwoBytes(tail[2..]);
    assert tail[2..] == h[16..] + payload && tail[2..][2..] == payload;
  }

  /** What a quicinit datagram is, to a decoder of the version-1 layout. */
  ghost predicate LooksLikeInitial(p: seq<byte>) {
    && |p| == 1200
    && DecodeInitial(p).Some?
    && var header := DecodeInitial(p).value;
       && header.typeBits == 0
       && header.version == [0x6B, 0x33, 0x43, 0xCF]
       && |header.dcid| == 8 && |header.scid| == 8
       && header.tokenLength == 0
       && header.length == 1024 && |header.rest| == 1174
  }

  lemma PatchedLooksLikeInitial(p: seq<byte>)
    requires |p| == 1200
    requires 0xC0 <= p[0] <= 0xCF && p[1..5] == [0x6B, 0x33, 0x43, 0xCF]
    requires p[5] == 8 && p[14] == 8 && p[23] == 0 && p[24] == 0x44 && p[25] == 0
    ensures LooksLikeInitial(p)
  {
    assert p[5..][9..] == p[14..];
    assert ConnectionId(p[5..]) == Some((p[5..][1..9], p[14..]));
    assert p[14..][9..] == p[23..];
    assert ConnectionId(p[14..]) == Some((p[14..][1..9], p[23..]));
    VarintZero(p[23..]);
    assert p[23..][1..] == p[24..];
    assert p[24..][0..] == p[24..];
    VarintTwoBytes(p[24..]);
    assert p[24..][2..] == p[26..];
  }

  /** `quicInitPacket` */
  method QuicInitPacket(served: bool) returns (packet: Option<seq<byte>>)
    ensures packet.Some? <==> served
    ensures packet.Some? ==> LooksLikeInitial(packet.value)
  {
    var random := RandomBytes(QUIC_INIT_SIZE, served);
    if random.None? {
      return None;
    }
    var drawn := random.value;
    var p := new byte[QUIC_INIT_SIZE](i requires 0 <= i < |drawn| => drawn[i]);
    p[0] := 0xC0 + p[0] % 0x10;
    p[1], p[2], p[3], p[4] := QUIC_V2[0], QUIC_V2[1], QUIC_V2[2], QUIC_V2[3];
    p[5] := 8;
    p[14] := 8;
    p[23] := 0x00;
    p[24], p[25] := 0x44, 0x00;
    assert p[..][1..5] == QUIC_V2;
    PatchedLooksLikeInitial(p[..]);
    return Some(p[..]);
  }

  /** What one datagram of a plan may be. */
  ghost predicate PacketOf(plan: Plan, packet: seq<byte>) {
    if plan.mode.QuicInit? then LooksLikeInitial(packet)
    else
      exists h: seq<byte>, payload: seq<byte> ::
        && packet == h + payload
        && plan.size.0 <= |payload| <= plan.size.1
        && match plan.mode
           case Quic => PseudoHeader(h, QUIC_V2)
           case QuicV1 => PseudoHeader(h, QUIC_V1)
           case Random => |h| == 18
           case Hex(header) => h == header
           case QuicInit => false
  }

  /** Its size, and where a header of the caller's goes. */
  lemma PacketSize(plan: Plan, packet: seq<byte>)
    requires PacketOf(plan, packet)
    ensures plan.mode.QuicInit? ==> |packet| == 1200
    ensures plan.mode.Hex? ==> plan.mode.header <= packet
    ensures !plan.mode.QuicInit? ==>
              var header := if plan.mode.Hex? then |plan.mode.header| else 18;
              header + plan.size.0 <= |packet| <= header + plan.size.1
  {
  }

  method NextHeader(plan: Plan, served: bool) returns (h: Option<seq<byte>>)
    requires !plan.mode.QuicInit?
    ensures h.Some? <==> served || plan.mode.Hex?
    ensures h.Some? ==> match plan.mode
                        case Quic => PseudoHeader(h.value, [0x6B, 0x33, 0x43, 0xCF])
                        case QuicV1 => PseudoHeader(h.value, [0x00, 0x00, 0x00, 0x01])
                        case Random => |h.value| == 18
                        case Hex(header) => h.value == header
                        case QuicInit => false
  {
    match plan.mode {
      case Quic => h := QuicNoiseHeader(QUIC_V2, served);
      case QuicV1 => h := QuicNoiseHeader(QUIC_V1, served);
      case Random => h := RandomBytes(18, served);
      case Hex(header) => h := Some(header);
    }
  }

  /** A quicinit datagram has the size of a client's Initial; any other is at most 150 bytes. */
  predicate Sized(plan: Plan, packet: seq<byte>) {
    if plan.mode.QuicInit? then |packet| == 1200 else |packet| <= 150
  }

  /** `nextPacket`; None exactly when random bytes are needed and cannot be read. */
  method NextPacket(plan: Plan, served: bool) returns (packet: Option<seq<byte>>)
    requires plan.Good()
    ensures served ==> packet.Some?
    ensures !served && packet.Some? ==> plan.mode.Hex? && plan.size.0 == 0 && packet.value == plan.mode.header
    ensures packet.None? ==> !plan.mode.Hex? || plan.size.1 > 0
    ensures packet.Some? ==> PacketOf(plan, packet.value) && Sized(plan, packet.value)
  {
    if plan.mode.QuicInit? {
      packet := QuicInitPacket(served);
      return;
    }
    var header := NextHeader(plan, served);
    if header.None? {
      return None;
    }
    var size := NoiseRand(plan.size.0, plan.size.1);
    var payload: seq<byte> := [];
    if size > 0 {
      var random := RandomBytes(size, served);
      if random.None? {
        return None;
      }
      payload := random.value;
    }
    return Some(header.value + payload);
  }

  // ---------------------------------------------------------------------------
  // The burst
  // ---------------------------------------------------------------------------

  function Sum(pauses: seq<nat>): nat {
    if pauses == [] then 0 else Sum(pauses[..|pauses| - 1]) + pauses[|pauses| - 1]
  }

  /** No pause was asked for after this datagram, or the context outlived it. */
  predicate GoesOn(pause: nat, end: bool) {
    pause == 0 || !end
  }

  /**
   Datagrams a plan may send, with the pause in milliseconds requested after each:
   every write succeeded, and no datagram follows a pause in which the context ended.
  */
  ghost predicate Burst(plan: Plan, writes: nat -> bool, ends: nat -> bool, sent: seq<seq<byte>>, pauses: seq<nat>)
    decreases |sent|
  {
    && |pauses| == |sent|
    && (sent == [] ||
        var n := |sent| - 1;
        && Burst(plan, writes, ends, sent[..n], pauses[..n])
        && PacketOf(plan, sent[n]) && Sized(plan, sent[n]) && writes(n)
        && plan.delay.0 <= pauses[n] <= plan.delay.1
        && (n > 0 ==> GoesOn(pauses[n - 1], ends(n - 1))))
  }

  lemma BurstGrows(plan: Plan, writes: nat -> bool, ends: nat -> bool,
                   sent: seq<seq<byte>>, pauses: seq<nat>, packet: seq<byte>, pause: nat)
    requires Burst(plan, writes, ends, sent, pauses) && writes(|sent|)
    requires PacketOf(plan, packet) && Sized(plan, packet) && plan.delay.0 <= pause <= plan.delay.1
    requires sent != [] ==> GoesOn(pauses[|sent| - 1], ends(|sent| - 1))
    ensures Burst(plan, writes, ends, sent + [packet], pauses + [pause])
  {
    assert (sent + [packet])[..|sent|] == sent && (pauses + [pause])[..|sent|] == pauses;
  }

  /** A burst of at most 50 datagrams asks for at most five seconds of pauses. */
  lemma {:induction false} BurstIsShort(plan: Plan, writes: nat -> bool, ends: nat -> bool,
                                        sent: seq<seq<byte>>, pauses: seq<nat>)
    requires plan.Good() && Burst(plan, writes, ends, sent, pauses)
    ensures Sum(pauses) <= |sent| * 100
    decreases |sent|
  {
    if sent != [] {
      BurstIsShort(plan, writes, ends, sent[..|sent| - 1], pauses[..|sent| - 1]);
    }
  }

  /** What a burst is, datagram by datagram. */
  lemma {:induction false} BurstSpelledOut(plan: Plan, writes: nat -> bool, ends: nat -> bool,
                                           sent: seq<seq<byte>>, pauses: seq<nat>, i: nat)
    requires Burst(plan, writes, ends, sent, pauses) && i < |sent|
    ensures writes(i) && plan.delay.0 <= pauses[i] <= plan.delay.1
    ensures i + 1 < |sent| ==> pauses[i] == 0 || !ends(i)
    decreases |sent|
  {
    var n := |sent| - 1;
    if i < n {
      BurstSpelledOut(plan, writes, ends, sent[..n], pauses[..n], i);
    }
  }

  datatype SendError = NoRandomness | WriteFailed | ContextDone

  /** Where a burst stands: what it sent so far, and what stopped it, if anything did. */
  ghost predicate Standing(plan: Plan, served: nat -> bool, writes: nat -> bool, ends: nat -> bool,
                           sent: seq<seq<byte>>, pauses: seq<nat>, err: Option<SendError>) {
    && Burst(plan, writes, ends, sent, pauses)
    && (err.None? && sent != [] ==> GoesOn(pauses[|sent| - 1], ends(|sent| - 1)))
    && (err == Some(NoRandomness) ==> !served(|sent|) && !(plan.mode.Hex? && plan.size.1 == 0))
    && (err == Some(WriteFailed) ==> !writes(|sent|))
    && (err == Some(ContextDone) ==> sent != [] && !GoesOn(pauses[|sent| - 1], ends(|sent| - 1)))
  }

  /** One round of the loop of `send`. */
  method SendOne(plan: Plan, ghost served: nat -> bool, ghost writes: nat -> bool, ghost ends: nat -> bool,
                 sent: seq<seq<byte>>, pauses: seq<nat>, random: bool, write: bool, end: bool)
    returns (sent': seq<seq<byte>>, pauses': seq<nat>, err: Option<SendError>)
    requires plan.Good() && Standing(plan, served, writes, ends, sent, pauses, None)
    requires random == served(|sent|) && write == writes(|sent|) && end == ends(|sent|)
    ensures Standing(plan, served, writes, ends, sent', pauses', err)
    ensures |sent'| == |sent| + if err == Some(NoRandomness) || err == Some(WriteFailed) then 0 else 1
  {
    var packet := NextPacket(plan, random);
    if packet.None? {
      return sent, pauses, Some(NoRandomness);
    }
    if !write {
      return sent, pauses, Some(WriteFailed);
    }
    var pause := NoiseRand(plan.delay.0, plan.delay.1);
    BurstGrows(plan, writes, ends, sent, pauses, packet.value, pause);
    err := if pause != 0 && end then Some(ContextDone) else None;
    return sent + [packet.value], pauses + [pause], err;
  }

  /**
   `send`. `served`, `writes` and `ends` say, for each datagram, whether random bytes
   can be read for it, whether the write succeeds, and whether the context ends during
   the pause after it.
  */
  method Send(plan: Plan, served: nat -> bool, writes: nat -> bool, ends: nat -> bool)
    returns (sent: seq<seq<byte>>, pauses: seq<nat>, err: Option<SendError>)
    requires plan.Good()
    ensures Standing(plan, served, writes, ends, sent, pauses, err)
    ensures |sent| <= plan.count.1 <= 50 && Sum(pauses) <= 5000
    ensures |pauses| == |sent|
    ensures err.None? ==> plan.count.0 <= |sent|
    ensures err == Some(NoRandomness) ==> !served(|sent|)
    ensures err == Some(WriteFailed) ==> !writes(|sent|)
    ensures err == Some(ContextDone) ==> sent != [] && pauses[|sent| - 1] > 0 && ends(|sent| - 1)
    ensures err.None? && sent != [] ==> pauses[|sent| - 1] == 0 || !ends(|sent| - 1)
  {
    var count := NoiseRand(plan.count.0, plan.count.1);
    sent, pauses, err := [], [], None;
    var i := 0;
    while i < count && err.None?
      invariant 0 <= |sent| <= i <= count
      invariant Standing(plan, served, writes, ends, sent, pauses, err)
      invariant err.None? ==> |sent| == i
    {
      sent, pauses, err := SendOne(plan, served, writes, ends, sent, pauses, served(i), writes(i), ends(i));
      i := i + 1;
    }
    BurstIsShort(plan, writes, ends, sent, pauses);
  }
}
