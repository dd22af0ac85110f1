/** The initiator half of the WireGuard handshake, statement by statement. */
module WireGuardHandshake {
  import opened Basics
  import opened Crypto
  import opened NoisePattern

  const INITIATION_TYPE: byte := 1
  const RESPONSE_TYPE: byte := 2

  /** The initiation message; `reserved` are bytes 1..3, the padding of the type. */
  datatype Initiation = Initiation(
    kind: byte, reserved: (byte, byte, byte), sender: uint32,
    ephemeral: Term, identity: Term, timestamp: Term, mac1: Term, mac2: Term)
  {
    function Fields(): seq<Term> {
      [ephemeral, identity, timestamp]
    }

    /** What mac1 covers: everything in front of it. */
    function Covered(): Term {
      Pair(Data(kind), Pair(Data(reserved.0), Pair(Data(reserved.1), Pair(Data(reserved.2), Pair(Data(sender),
      Pair(ephemeral, Pair(identity, timestamp)))))))
    }
  }

  datatype Response = Response(
    kind: byte, reserved: (byte, byte, byte), sender: uint32, receiver: uint32,
    ephemeral: Term, empty: Term, mac1: Term, mac2: Term)
  {
    function Fields(): seq<Term> {
      [ephemeral, empty]
    }
  }

  function Mac1Key(peerPublic: Term): Term {
    Hash(Label("mac1----"), peerPublic)
  }

  /** The mac1 of an initiation fixes whom it is addressed to and all it covers. */
  lemma Mac1Binds(a: Initiation, p: Term, b: Initiation, q: Term)
    requires Mac(Mac1Key(p), a.Covered()) == Mac(Mac1Key(q), b.Covered())
    ensures p == q
    ensures a.kind == b.kind && a.reserved == b.reserved && a.sender == b.sender
    ensures a.ephemeral == b.ephemeral && a.identity == b.identity && a.timestamp == b.timestamp
  {
    assert a.Covered() == b.Covered();
  }

  /** The running secrets of a handshake whose response is still to come. */
  class InitiatorState {
    var hash: Term
    var chainKey: Term
    var localEphemeral: Scalar
    var localIndex: uint32

    constructor ()
      ensures chainKey == Label("Noise_IKpsk2_25519_ChaChaPoly_BLAKE2s")
      ensures hash == Hash(chainKey, Label("WireGuard v1 zx2c4 Jason@zx2c4.com"))
    {
      chainKey := Label("Noise_IKpsk2_25519_ChaChaPoly_BLAKE2s");
      hash := Hash(Label("Noise_IKpsk2_25519_ChaChaPoly_BLAKE2s"), Label("WireGuard v1 zx2c4 Jason@zx2c4.com"));
      localEphemeral, localIndex := 0, 0;
    }
  }

  /** The initiator of the reference, and what it writes first. */
  function InitiatorWrites(ours: Scalar, e: Scalar, peerPublic: Term, psk: Term, timestamp: Term)
    : Option<(Party, seq<Term>)>
  {
    Write(FIRST, timestamp, Initiator(ours, e, peerPublic, psk))
  }

  /** The reference's initiator, unrolled: what the four tokens and the payload come to. */
  lemma InitiatorWritesUnrolled(ours: Scalar, e: Scalar, peerPublic: Term, psk: Term, timestamp: Term)
    ensures var es := SharedSecret(e, peerPublic);
      var ss := SharedSecret(ours, peerPublic);
      var written := InitiatorWrites(ours, e, peerPublic, psk, timestamp);
      if es.None? || ss.None? then written.None?
      else
        var s1 := Start(peerPublic).MixHash(PublicKey(e)).MixKey(PublicKey(e)).MixKey(es.value);
        var identity := s1.Encrypt(PublicKey(ours));
        var s2 := s1.MixHash(identity).MixKey(ss.value);
        var stamp := s2.Encrypt(timestamp);
        && written.Some?
        && written.value.1 == [PublicKey(e), identity, stamp]
        && written.value.0 == Initiator(ours, e, peerPublic, psk).(sym := s2.MixHash(stamp))
  {
    var p := Initiator(ours, e, peerPublic, psk);
    var p1 := WriteToken(E, p).value.0;
    assert FIRST[1..] == [ES, S, SS];
    assert [ES, S, SS][1..] == [S, SS];
    assert [S, SS][1..] == [SS];
    assert [SS][1..] == [];
    if SharedSecret(e, peerPublic).Some? {
      var p2 := WriteToken(ES, p1).value.0;
      var p3 := WriteToken(S, p2).value.0;
      var p4 := WriteToken(SS, p3).value.0;
      assert WriteTokens([], p4) == Some((p4, []));
      assert WriteTokens([SS], p3) == Some((p4, [] + []));
      assert WriteTokens([S, SS], p2).Some?;
      assert WriteTokens([ES, S, SS], p1).Some?;
      assert WriteTokens(FIRST, p).Some?;
      assert WriteTokens(FIRST, p).value.0 == p4;
    } else {
      assert WriteTokens([ES, S, SS], p1).None?;
    }
  }

  /** The same, down to the primitives: every hash, derivation and seal of the first message. */
  lemma InitiationSpelledOut(ours: Scalar, e: Scalar, peerPublic: Term, psk: Term, timestamp: Term)
    requires SharedSecret(e, peerPublic).Some? && SharedSecret(ours, peerPublic).Some?
    ensures var es, ss := SharedSecret(e, peerPublic).value, SharedSecret(ours, peerPublic).value;
      var ck0 := Label("Noise_IKpsk2_25519_ChaChaPoly_BLAKE2s");
      var h0 := Hash(Hash(ck0, Label("WireGuard v1 zx2c4 Jason@zx2c4.com")), peerPublic);
      var ck1, h1 := Kdf(ck0, PublicKey(e), 1), Hash(h0, PublicKey(e));
      var identity := Sealed(Kdf(ck1, es, 2), PublicKey(ours), h1);
      var ck2, h2 := Kdf(ck1, es, 1), Hash(h1, identity);
      var stamp := Sealed(Kdf(ck2, ss, 2), timestamp, h2);
      var written := InitiatorWrites(ours, e, peerPublic, psk, timestamp);
      && written.Some?
      && written.value.1 == [PublicKey(e), identity, stamp]
      && written.value.0.sym.ck == Kdf(ck2, ss, 1) && written.value.0.sym.h == Hash(h2, stamp)
  {
    InitiatorWritesUnrolled(ours, e, peerPublic, psk, timestamp);
  }

  /**
   `createInitiation`. The ephemeral key, the timestamp and the index are drawn by
   the caller of this model; everything else is computed here, in the code's order.
  */
  method CreateInitiation(ours: Scalar, peerPublic: Term, reserved: (byte, byte, byte),
                          ephemeral: Scalar, timestamp: Term, index: uint32, ghost psk: Term)
    returns (hs: InitiatorState, packet: Result<Initiation>)
    ensures fresh(hs)
    ensures packet.Ok? <==> InitiatorWrites(ours, ephemeral, peerPublic, psk, timestamp).Some?
    ensures packet.Ok? <==> SharedSecret(ephemeral, peerPublic).Some? && SharedSecret(ours, peerPublic).Some?
    ensures packet.Ok? ==>
              var (p, fields) := InitiatorWrites(ours, ephemeral, peerPublic, psk, timestamp).value;
              && hs.hash == p.sym.h && hs.chainKey == p.sym.ck
              && hs.localEphemeral == ephemeral && hs.localIndex == index
              && packet.value.Fields() == fields
              && packet.value.kind == 1 && packet.value.sender == index
              && packet.value.reserved == reserved
              && packet.value.mac1 ==
                 Mac(Hash(Label("mac1----"), peerPublic), packet.value.(reserved := (0, 0, 0)).Covered())
              && packet.value.mac2 == Nil
  {
    InitiatorWritesUnrolled(ours, ephemeral, peerPublic, psk, timestamp);
    hs := new InitiatorState();
    hs.localEphemeral := ephemeral;
    var ourPublic := PublicKey(ours);
    var ephemeralPublic := PublicKey(ephemeral);

    hs.hash := Hash(hs.hash, peerPublic);

    hs.chainKey := Kdf(hs.chainKey, ephemeralPublic, 1);
    hs.hash := Hash(hs.hash, ephemeralPublic);

    // token ES, then S
    var ss := SharedSecret(hs.localEphemeral, peerPublic);
    if ss.None? {
      return hs, Err("invalid key material");
    }
    var key := Kdf(hs.chainKey, ss.value, 2);
    hs.chainKey := Kdf(hs.chainKey, ss.value, 1);
    var identity := Sealed(key, ourPublic, hs.hash);
    hs.hash := Hash(hs.hash, identity);

    // token SS, then the payload
    var staticStatic := SharedSecret(ours, peerPublic);
    if staticStatic.None? {
      return hs, Err("invalid key material");
    }
    key := Kdf(hs.chainKey, staticStatic.value, 2);
    hs.chainKey := Kdf(hs.chainKey, staticStatic.value, 1);
    var stamp := Sealed(key, timestamp, hs.hash);

    hs.localIndex := index;
    hs.hash := Hash(hs.hash, stamp);

    var msg := Initiation(INITIATION_TYPE, (0, 0, 0), index, ephemeralPublic, identity, stamp, Nil, Nil);
    msg := msg.(mac1 := Mac(Mac1Key(peerPublic), msg.Covered()));

    // too late for mac1, which covers zeros here
    msg := msg.(reserved := reserved);
    return hs, Ok(msg);
  }

  /** The reference's verdict on a response, given the initiator's party state. */
  function Accepts(p: Party, response: Response): bool {
    Read(SECOND, response.Fields(), p).Some?
  }

  lemma AcceptsUnrolled(p: Party, response: Response)
    requires p.initiator
    ensures var eR := response.ephemeral;
      var ee := SharedSecret(p.e, eR);
      var se := SharedSecret(p.s, eR);
      Accepts(p, response) <==>
        && ee.Some? && se.Some?
        && var sym := p.sym.MixHash(eR).MixKey(eR).MixKey(ee.value).MixKey(se.value).MixKeyAndHash(p.psk);
           Open(sym.key, response.empty, sym.h).Some?
  {
    var fields := response.Fields();
    var eR := response.ephemeral;
    var p1 := ReadToken(E, fields, p).value.0;
    var left := [response.empty];
    assert fields[1..] == left;
    assert SECOND[1..] == [EE, SE, PSK];
    assert [EE, SE, PSK][1..] == [SE, PSK];
    assert [SE, PSK][1..] == [PSK];
    assert [PSK][1..] == [];
    assert ReadTokens(SECOND, fields, p) == ReadTokens([EE, SE, PSK], left, p1);
    if SharedSecret(p.e, eR).Some? {
      var p2 := ReadToken(EE, left, p1).value.0;
      assert ReadTokens([EE, SE, PSK], left, p1) == ReadTokens([SE, PSK], left, p2);
      if SharedSecret(p.s, eR).Some? {
        var p3 := ReadToken(SE, left, p2).value.0;
        var p4 := ReadToken(PSK, left, p3).value.0;
        assert ReadTokens([SE, PSK], left, p2) == ReadTokens([PSK], left, p3);
        assert ReadTokens([PSK], left, p3) == ReadTokens([], left, p4);
      }
    }
  }

  /** The same, down to the primitives: the one sealed empty payload that is accepted. */
  lemma ResponseSpelledOut(p: Party, response: Response)
    requires p.initiator
    ensures var ee, se := SharedSecret(p.e, response.ephemeral), SharedSecret(p.s, response.ephemeral);
      Accepts(p, response) <==>
        && ee.Some? && se.Some?
        && var ck := Kdf(Kdf(Kdf(p.sym.ck, response.ephemeral, 1), ee.value, 1), se.value, 1);
           && response.empty.Sealed?
           && response.empty.key == Kdf(ck, p.psk, 3)
           && response.empty.ad == Hash(Hash(p.sym.h, response.ephemeral), Kdf(ck, p.psk, 2))
  {
    AcceptsUnrolled(p, response);
  }

  /** `consumeResponse`: true when the empty payload opens; the error results of the source cannot occur. */
  method ConsumeResponse(hs: InitiatorState, packet: Response, ours: Scalar, psk: Term) returns (ok: bool)
    ensures forall p: Party |
              && p.initiator && p.s == ours && p.e == hs.localEphemeral && p.psk == psk
              && p.sym.h == hs.hash && p.sym.ck == hs.chainKey ::
              ok <==> packet.receiver == hs.localIndex && Accepts(p, packet)
  {
    forall p: Party | p.initiator {
      AcceptsUnrolled(p, packet);
    }
    var clean := packet.(reserved := (0, 0, 0));
    if clean.receiver != hs.localIndex {
      return false;
    }

    var hash := Hash(hs.hash, clean.ephemeral);
    var chainKey := Kdf(hs.chainKey, clean.ephemeral, 1);

    var ss := SharedSecret(hs.localEphemeral, clean.ephemeral);
    if ss.None? {
      return false;
    }
    chainKey := Kdf(chainKey, ss.value, 1);

    ss := SharedSecret(ours, clean.ephemeral);
    if ss.None? {
      return false;
    }
    chainKey := Kdf(chainKey, ss.value, 1);

    var tau := Kdf(chainKey, psk, 2);
    var key := Kdf(chainKey, psk, 3);
    chainKey := Kdf(chainKey, psk, 1);
    hash := Hash(hash, tau);

    var plain := Open(key, clean.empty, hash);
    return plain.Some?;
  }

  // ---------------------------------------------------------------------------
  // The peer, as the whitepaper describes it
  // ---------------------------------------------------------------------------

  /** What a responder learns from an initiation it accepts. */
  datatype Learned = Learned(initiatorPublic: Term, timestamp: Term, session: Party)

  /** Strips bytes 1..3, checks mac1 under its own public key, and reads the message. */
  function PeerReads(packet: Initiation, s: Scalar, e: Scalar, psk: Term): Option<Learned> {
    var clean := packet.(reserved := (0, 0, 0));
    if clean.kind != INITIATION_TYPE || clean.mac1 != Mac(Mac1Key(PublicKey(s)), clean.Covered()) then None
    else
      var r := Read(FIRST, clean.Fields(), Responder(s, e, psk));
      if r.None? then None else Some(Learned(r.value.0.rs, r.value.1, r.value.0))
  }

  /** Nothing is read that is not an initiation, addressed to this peer by its mac1. */
  lemma PeerChecks(packet: Initiation, s: Scalar, e: Scalar, psk: Term)
    requires PeerReads(packet, s, e, psk).Some?
    ensures packet.kind == 1
    ensures packet.mac1 == Mac(Hash(Label("mac1----"), PublicKey(s)), packet.(reserved := (0, 0, 0)).Covered())
  {
  }

  /** The response to an initiation it has accepted. */
  function PeerAnswers(packet: Initiation, s: Scalar, e: Scalar, psk: Term, index: uint32,
                       reserved: (byte, byte, byte)): Option<Response>
  {
    var learned := PeerReads(packet, s, e, psk);
    if learned.None? then None
    else
      var w := Write(SECOND, Nil, learned.value.session);
      if w.None? || |w.value.1| != 2 then None
      else
        Some(Response(RESPONSE_TYPE, reserved, index, packet.sender, w.value.1[0], w.value.1[1], Nil, Nil))
  }

  /** The state and packet that `CreateInitiation` leaves behind, as values. */
  ghost predicate Initiated(p: Party, packet: Initiation, ours: Scalar, e: Scalar, peerPublic: Term,
                            psk: Term, timestamp: Term)
  {
    var w := InitiatorWrites(ours, e, peerPublic, psk, timestamp);
    && w.Some?
    && p == w.value.0
    && packet.Fields() == w.value.1
    && packet.kind == 1
    && packet.mac1 == Mac(Hash(Label("mac1----"), peerPublic), packet.(reserved := (0, 0, 0)).Covered())
  }

  /**
   Completeness: whatever the keys, the psk, the timestamp and the reserved bytes
   of either message, the peer accepts the initiation, learns who sent it and
   when, and the initiator accepts the peer's answer.
  */
  lemma HonestHandshakeCompletes(p: Party, packet: Initiation, ours: Scalar, e: Scalar, peer: Scalar,
                                 peerE: Scalar, psk: Term, timestamp: Term, index: uint32,
                                 reserved: (byte, byte, byte))
    requires Initiated(p, packet, ours, e, PublicKey(peer), psk, timestamp)
    ensures var learned := PeerReads(packet, peer, peerE, psk);
      && learned.Some?
      && learned.value.initiatorPublic == PublicKey(ours)
      && learned.value.timestamp == timestamp
    ensures var answer := PeerAnswers(packet, peer, peerE, psk, index, reserved);
      answer.Some? && answer.value.receiver == packet.sender && Accepts(p, answer.value)
  {
    var r1 := InitiationArrives(p, packet, ours, e, peer, peerE, psk, timestamp);
    AnswerArrives(p, r1);
    var answer := PeerAnswers(packet, peer, peerE, psk, index, reserved).value;
    assert answer.Fields() == Write(SECOND, Nil, r1).value.1;
  }

  /** The first message: the peer ends where the initiator is. */
  lemma InitiationArrives(p: Party, packet: Initiation, ours: Scalar, e: Scalar, peer: Scalar, peerE: Scalar,
                          psk: Term, timestamp: Term)
    returns (r1: Party)
    requires Initiated(p, packet, ours, e, PublicKey(peer), psk, timestamp)
    ensures Read(FIRST, packet.Fields(), Responder(peer, peerE, psk)) == Some((r1, timestamp))
    ensures Mirror(r1, p) && !r1.initiator && KnowsE(r1, p) && KnowsS(r1, p) && p.s == ours
  {
    var w := Initiator(ours, e, PublicKey(peer), psk);
    var r := Responder(peer, peerE, psk);
    FirstFits(w, r);
    MessageMirrored(FIRST, timestamp, w, r);
    r1 := Read(FIRST, packet.Fields(), r).value.0;
  }

  /** The second: the initiator reads what the peer writes. */
  lemma AnswerArrives(p: Party, r1: Party)
    requires Mirror(r1, p) && !r1.initiator && KnowsE(r1, p) && KnowsS(r1, p)
    ensures Write(SECOND, Nil, r1).Some? && |Write(SECOND, Nil, r1).value.1| == 2
    ensures Read(SECOND, Write(SECOND, Nil, r1).value.1, p).Some?
  {
    SecondFits(r1, p);
    MessageMirrored(SECOND, Nil, r1, p);
    ResponseHasTwoFields(r1, Nil);
  }

  lemma ResponseHasTwoFields(r: Party, payload: Term)
    requires !r.initiator && Write(SECOND, payload, r).Some?
    ensures |Write(SECOND, payload, r).value.1| == 2
  {
    var r1 := WriteToken(E, r).value.0;
    assert SECOND[1..] == [EE, SE, PSK];
    assert [EE, SE, PSK][1..] == [SE, PSK];
    assert [SE, PSK][1..] == [PSK];
    assert WriteTokens([EE, SE, PSK], r1).Some?;
    var r2 := WriteToken(EE, r1).value.0;
    assert WriteTokens([SE, PSK], r2).Some?;
    var r3 := WriteToken(SE, r2).value.0;
    var r4 := WriteToken(PSK, r3).value.0;
    assert [PSK][1..] == [];
    assert WriteTokens([], r4) == Some((r4, []));
    assert WriteTokens([PSK], r3) == Some((r4, [] + []));
  }
}
