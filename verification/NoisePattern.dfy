/**
 The Noise Protocol Framework, revision 34, sections 5 and 9, for the one pattern
 WireGuard uses: IKpsk2. Both roles run the same token lists; this is the reference
 the code is proved against.
*/
module NoisePattern {
  import opened Basics
  import opened Crypto

  /** The SymmetricState object; every key encrypts one message, so the nonce is always zero. */
  datatype Symmetric = Symmetric(ck: Term, h: Term, key: Term)
  {
    function MixHash(data: Term): Symmetric {
      this.(h := Hash(h, data))
    }

    function MixKey(input: Term): Symmetric {
      this.(ck := Kdf(ck, input, 1), key := Kdf(ck, input, 2))
    }

    function MixKeyAndHash(input: Term): Symmetric {
      Symmetric(Kdf(ck, input, 1), Hash(h, Kdf(ck, input, 2)), Kdf(ck, input, 3))
    }

    function Encrypt(plain: Term): Term {
      Sealed(key, plain, h)
    }
  }

  datatype Token = E | S | EE | ES | SE | SS | PSK

  const FIRST := [E, ES, S, SS]
  const SECOND := [E, EE, SE, PSK]

  /** The HandshakeState object of one party; a remote key not yet received is Nil. */
  datatype Party = Party(initiator: bool, s: Scalar, e: Scalar, rs: Term, re: Term, psk: Term, sym: Symmetric)
  {
    /** The party's own half and the other's half of a Diffie-Hellman token. */
    function DhToken(token: Token): Option<Term>
      requires token in {EE, ES, SE, SS}
    {
      match token
      case EE => SharedSecret(e, re)
      case SS => SharedSecret(s, rs)
      case ES => if initiator then SharedSecret(e, rs) else SharedSecret(s, re)
      case SE => if initiator then SharedSecret(s, re) else SharedSecret(e, rs)
    }

    function MixDh(token: Token): Option<Party>
      requires token in {EE, ES, SE, SS}
    {
      var secret := DhToken(token);
      if secret.None? then None else Some(this.(sym := sym.MixKey(secret.value)))
    }
  }

  /** After the construction, the identifier and the responder's public key have been mixed in. */
  function Start(peerPublic: Term): Symmetric {
    var construction := Label("Noise_IKpsk2_25519_ChaChaPoly_BLAKE2s");
    Symmetric(construction, Hash(construction, Label("WireGuard v1 zx2c4 Jason@zx2c4.com")), Nil)
    .MixHash(peerPublic)
  }

  function Initiator(s: Scalar, e: Scalar, peerPublic: Term, psk: Term): Party {
    Party(true, s, e, peerPublic, Nil, psk, Start(peerPublic))
  }

  function Responder(s: Scalar, e: Scalar, psk: Term): Party {
    Party(false, s, e, Nil, Nil, psk, Start(PublicKey(s)))
  }

  /** One token written: the party afterwards and the message fields it produced. */
  function WriteToken(token: Token, p: Party): Option<(Party, seq<Term>)> {
    match token
    case E =>
      var pub := PublicKey(p.e);
      Some((p.(sym := p.sym.MixHash(pub).MixKey(pub)), [pub]))
    case S =>
      var c := p.sym.Encrypt(PublicKey(p.s));
      Some((p.(sym := p.sym.MixHash(c)), [c]))
    case PSK => Some((p.(sym := p.sym.MixKeyAndHash(p.psk)), []))
    case _ =>
      var q := p.MixDh(token);
      if q.None? then None else Some((q.value, []))
  }

  function WriteTokens(tokens: seq<Token>, p: Party): Option<(Party, seq<Term>)> {
    if tokens == [] then Some((p, []))
    else
      var first := WriteToken(tokens[0], p);
      if first.None? then None
      else
        var rest := WriteTokens(tokens[1..], first.value.0);
        if rest.None? then None else Some((rest.value.0, first.value.1 + rest.value.1))
  }

  /** WriteMessage: the tokens, then the payload encrypted. */
  function Write(tokens: seq<Token>, payload: Term, p: Party): Option<(Party, seq<Term>)> {
    var w := WriteTokens(tokens, p);
    if w.None? then None
    else
      var (q, fields) := w.value;
      var c := q.sym.Encrypt(payload);
      Some((q.(sym := q.sym.MixHash(c)), fields + [c]))
  }

  /** One token read off the front of the fields: the party afterwards and the fields left. */
  function ReadToken(token: Token, fields: seq<Term>, p: Party): Option<(Party, seq<Term>)> {
    match token
    case E =>
      if fields == [] then None
      else Some((p.(re := fields[0], sym := p.sym.MixHash(fields[0]).MixKey(fields[0])), fields[1..]))
    case S =>
      if fields == [] then None
      else
        var pub := Open(p.sym.key, fields[0], p.sym.h);
        if pub.None? then None
        else Some((p.(rs := pub.value, sym := p.sym.MixHash(fields[0])), fields[1..]))
    case PSK => Some((p.(sym := p.sym.MixKeyAndHash(p.psk)), fields))
    case _ =>
      var q := p.MixDh(token);
      if q.None? then None else Some((q.value, fields))
  }

  function ReadTokens(tokens: seq<Token>, fields: seq<Term>, p: Party): Option<(Party, seq<Term>)> {
    if tokens == [] then Some((p, fields))
    else
      var first := ReadToken(tokens[0], fields, p);
      if first.None? then None else ReadTokens(tokens[1..], first.value.1, first.value.0)
  }

  /** ReadMessage: the tokens, then the payload, which must be the one field left. */
  function Read(tokens: seq<Token>, fields: seq<Term>, p: Party): Option<(Party, Term)> {
    var r := ReadTokens(tokens, fields, p);
    if r.None? || |r.value.1| != 1 then None
    else
      var (q, left) := r.value;
      var plain := Open(q.sym.key, left[0], q.sym.h);
      if plain.None? then None else Some((q.(sym := q.sym.MixHash(left[0])), plain.value))
  }

  // ---------------------------------------------------------------------------
  // What one party writes, the other reads
  // ---------------------------------------------------------------------------

  /** The parties hold the same symmetric state and psk, in opposite roles. */
  predicate Mirror(w: Party, r: Party) {
    w.initiator != r.initiator && w.sym == r.sym && w.psk == r.psk
  }

  predicate KnowsS(p: Party, q: Party) {
    p.rs == PublicKey(q.s)
  }

  predicate KnowsE(p: Party, q: Party) {
    p.re == PublicKey(q.e)
  }

  /** The keys a token needs are known to those that need them. */
  predicate Fits(token: Token, w: Party, r: Party) {
    var (i, j) := if w.initiator then (w, r) else (r, w);
    match token
    case EE => KnowsE(i, j) && KnowsE(j, i)
    case ES => KnowsS(i, j) && KnowsE(j, i)
    case SE => KnowsE(i, j) && KnowsS(j, i)
    case SS => KnowsS(i, j) && KnowsS(j, i)
    case _ => true
  }

  lemma TokenMirrored(token: Token, w: Party, r: Party, tail: seq<Term>)
    requires Mirror(w, r) && Fits(token, w, r)
    ensures WriteToken(token, w).Some?
    ensures var (w', fields) := WriteToken(token, w).value;
      && ReadToken(token, fields + tail, r).Some?
      && var (r', left) := ReadToken(token, fields + tail, r).value;
      && left == tail
      && Mirror(w', r')
      && w' == w.(sym := w'.sym)
      && r' == r.(sym := r'.sym, re := if token == E then PublicKey(w.e) else r.re,
                  rs := if token == S then PublicKey(w.s) else r.rs)
  {
    match token
    case E =>
    case S =>
    case PSK => assert [] + tail == tail;
    case _ =>
      assert [] + tail == tail;
      DhMirrored(token, w, r);
  }

  /** Both parties come to the same secret. */
  lemma DhMirrored(token: Token, w: Party, r: Party)
    requires token in {EE, ES, SE, SS} && Mirror(w, r) && Fits(token, w, r)
    ensures w.DhToken(token).Some? && w.DhToken(token) == r.DhToken(token)
  {
    DiffieHellman(w.e, r.e);
    DiffieHellman(w.s, r.s);
    DiffieHellman(w.s, r.e);
    DiffieHellman(w.e, r.s);
  }

  /** A message whose tokens fit, one after the other, arrives as it was written. */
  lemma {:induction false} TokensMirrored(tokens: seq<Token>, w: Party, r: Party, tail: seq<Term>)
    requires Mirror(w, r) && FitAll(tokens, w, r)
    ensures WriteTokens(tokens, w).Some?
    ensures var (w', fields) := WriteTokens(tokens, w).value;
      && ReadTokens(tokens, fields + tail, r).Some?
      && var (r', left) := ReadTokens(tokens, fields + tail, r).value;
      && left == tail
      && Mirror(w', r')
      && w' == w.(sym := w'.sym)
      && r' == r.(sym := r'.sym, re := if E in tokens then PublicKey(w.e) else r.re,
                  rs := if S in tokens then PublicKey(w.s) else r.rs)
  {
    if tokens == [] {
      assert [] + tail == tail;
    } else {
      var (w1, r1) := AfterToken(tokens[0], w, r);
      StepMirrored(tokens[0], w, r, []);
      TokensMirrored(tokens[1..], w1, r1, tail);
      var (w2, f2) := WriteTokens(tokens[1..], w1).value;
      var r2 := ReadTokens(tokens[1..], f2 + tail, r1).value.0;
      StepMirrored(tokens[0], w, r, f2 + tail);
      Unroll(tokens, w, r, w1, r1, w2, f2, r2, tail);
      assert forall t: Token :: t in tokens <==> t == tokens[0] || t in tokens[1..];
    }
  }

  /** The first token and the rest, put together on both sides. */
  lemma Unroll(tokens: seq<Token>, w: Party, r: Party, w1: Party, r1: Party,
               w2: Party, f2: seq<Term>, r2: Party, tail: seq<Term>)
    requires tokens != [] && WriteToken(tokens[0], w).Some? && WriteToken(tokens[0], w).value.0 == w1
    requires ReadToken(tokens[0], WriteToken(tokens[0], w).value.1 + (f2 + tail), r) == Some((r1, f2 + tail))
    requires WriteTokens(tokens[1..], w1) == Some((w2, f2))
    requires ReadTokens(tokens[1..], f2 + tail, r1) == Some((r2, tail))
    ensures var fields := WriteToken(tokens[0], w).value.1 + f2;
      WriteTokens(tokens, w) == Some((w2, fields)) && ReadTokens(tokens, fields + tail, r) == Some((r2, tail))
  {
    var f1 := WriteToken(tokens[0], w).value.1;
    assert (f1 + f2) + tail == f1 + (f2 + tail);
  }

  /** Both parties after a token has been written by one and read by the other. */
  ghost function AfterToken(token: Token, w: Party, r: Party): (Party, Party)
    requires Mirror(w, r) && Fits(token, w, r)
  {
    TokenMirrored(token, w, r, []);
    var (w', fields) := WriteToken(token, w).value;
    (w', ReadToken(token, fields + [], r).value.0)
  }

  /** One token, with the parties it leaves behind. */
  lemma StepMirrored(token: Token, w: Party, r: Party, tail: seq<Term>)
    requires Mirror(w, r) && Fits(token, w, r)
    ensures WriteToken(token, w).Some?
    ensures var (w1, r1) := AfterToken(token, w, r);
      && WriteToken(token, w).value.0 == w1
      && ReadToken(token, WriteToken(token, w).value.1 + tail, r) == Some((r1, tail))
      && Mirror(w1, r1) && w1 == w.(sym := w1.sym)
      && r1 == r.(sym := r1.sym, re := if token == E then PublicKey(w.e) else r.re,
                  rs := if token == S then PublicKey(w.s) else r.rs)
  {
    TokenMirrored(token, w, r, []);
    TokenMirrored(token, w, r, tail);
  }

  ghost predicate FitAll(tokens: seq<Token>, w: Party, r: Party)
    requires Mirror(w, r)
  {
    tokens == [] ||
    (&& Fits(tokens[0], w, r)
     && (TokenMirrored(tokens[0], w, r, []);
         var (w', r') := AfterToken(tokens[0], w, r);
         FitAll(tokens[1..], w', r')))
  }

  lemma MessageMirrored(tokens: seq<Token>, payload: Term, w: Party, r: Party)
    requires Mirror(w, r) && FitAll(tokens, w, r)
    ensures Write(tokens, payload, w).Some?
    ensures var (w', fields) := Write(tokens, payload, w).value;
      && Read(tokens, fields, r).Some?
      && var (r', plain) := Read(tokens, fields, r).value;
      && plain == payload
      && Mirror(w', r')
      && w' == w.(sym := w'.sym)
      && r' == r.(sym := r'.sym, re := if E in tokens then PublicKey(w.e) else r.re,
                  rs := if S in tokens then PublicKey(w.s) else r.rs)
  {
    TokensMirrored(tokens, w, r, []);
    var q := WriteTokens(tokens, w).value.0;
    TokensMirrored(tokens, w, r, [q.sym.Encrypt(payload)]);
  }

  lemma FirstFits(w: Party, r: Party)
    requires Mirror(w, r) && w.initiator && KnowsS(w, r)
    ensures FitAll(FIRST, w, r)
  {
    var (w1, r1) := AfterToken(E, w, r);
    TokenMirrored(E, w, r, []);
    assert FIRST[1..] == [ES, S, SS];
    var (w2, r2) := AfterToken(ES, w1, r1);
    TokenMirrored(ES, w1, r1, []);
    assert FIRST[1..][1..] == [S, SS];
    var (w3, r3) := AfterToken(S, w2, r2);
    TokenMirrored(S, w2, r2, []);
    assert [S, SS][1..] == [SS];
    TokenMirrored(SS, w3, r3, []);
    assert FitAll([SS], w3, r3);
    assert FitAll([S, SS], w2, r2);
    assert FitAll([ES, S, SS], w1, r1);
  }

  lemma SecondFits(w: Party, r: Party)
    requires Mirror(w, r) && !w.initiator && KnowsE(w, r) && KnowsS(w, r)
    ensures FitAll(SECOND, w, r)
  {
    var (w1, r1) := AfterToken(E, w, r);
    TokenMirrored(E, w, r, []);
    assert SECOND[1..] == [EE, SE, PSK];
    var (w2, r2) := AfterToken(EE, w1, r1);
    TokenMirrored(EE, w1, r1, []);
    assert [EE, SE, PSK][1..] == [SE, PSK];
    var (w3, r3) := AfterToken(SE, w2, r2);
    TokenMirrored(SE, w2, r2, []);
    assert [SE, PSK][1..] == [PSK];
    TokenMirrored(PSK, w3, r3, []);
    assert FitAll([PSK], w3, r3);
    assert FitAll([SE, PSK], w2, r2);
    assert FitAll([EE, SE, PSK], w1, r1);
  }
}
