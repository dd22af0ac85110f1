/**
 Who can make the initiator accept. An adversary computes with everything except
 two private keys: this attempt's ephemeral and the peer's static key. It owns every
 other key (the initiator's own static key included), the psk and the timestamps,
 sees the initiation, may run the honest peer on any initiation it likes, and may
 have the peer start a handshake with anybody.
*/
module WireGuardSecurity {
  import opened Basics
  import opened Crypto
  import opened NoisePattern
  import opened WireGuardHandshake

  /** One attempt: the initiator's keys and inputs, and the peer it addresses. */
  datatype Attempt = Attempt(ours: Scalar, e: Scalar, peer: Scalar, psk: nat, timestamp: nat)
  {
    predicate Secret(x: Scalar) {
      x == e || x == peer
    }

    /** The ephemeral key is new: it is neither of the static keys. */
    predicate Sane() {
      e != peer && e != ours
    }

    function Written(): (Party, seq<Term>) {
      InitiatorWritesUnrolled(ours, e, PublicKey(peer), Data(psk), Data(timestamp));
      InitiatorWrites(ours, e, PublicKey(peer), Data(psk), Data(timestamp)).value
    }

    function Fields(): seq<Term> {
      Written().1
    }

    /** The verdict on a response with these two fields. */
    predicate Convinced(ephemeral: Term, empty: Term) {
      Accepts(Written().0, Response(RESPONSE_TYPE, (0, 0, 0), 0, 0, ephemeral, empty, Nil, Nil))
    }
  }

  /** An initiation put to the honest peer, with the psk and the ephemeral it then uses. */
  datatype Query = Query(fields: seq<Term>, psk: Term, e: Scalar)

  /** What the honest peer answers: the two fields of its response. */
  function Ask(peer: Scalar, q: Query): Option<seq<Term>> {
    var r := Read(FIRST, q.fields, Responder(peer, q.e, q.psk));
    if r.None? then None
    else
      var w := Write(SECOND, Nil, r.value.0);
      if w.None? then None else Some(w.value.1)
  }

  /** The fields of an initiation that the honest peer sends; the psk does not enter into them. */
  function Started(peer: Scalar, e: Scalar, remote: Term, timestamp: Term): Option<seq<Term>> {
    var w := InitiatorWrites(peer, e, remote, Nil, timestamp);
    if w.None? then None else Some(w.value.1)
  }

  /** How the adversary comes by a term. */
  datatype Recipe =
    | AnyAtom(t: Term)
    | KnownPrivate(x: Scalar)
    | AnyPublic(x: Scalar)
    | Seen(field: nat)
    | MakePair(a: Recipe, b: Recipe)
    | First(a: Recipe)
    | Second(a: Recipe)
    | MakeHash(a: Recipe, b: Recipe)
    | MakeMac(a: Recipe, b: Recipe)
    | MakeKdf(a: Recipe, b: Recipe, n: nat)
    | MakeSealed(a: Recipe, b: Recipe, c: Recipe)
    | OpenSealed(a: Recipe, b: Recipe, c: Recipe)
    | Multiply(a: Recipe, b: Recipe)
    | AskPeer(ephemeral: Recipe, identity: Recipe, timestamp: Recipe, psk: Recipe, e: Scalar, field: nat)
    | PeerStarts(remote: Recipe, timestamp: Recipe, e: Scalar, field: nat)

  /** The term a recipe yields, or None when one of its steps cannot be carried out. */
  function Eval(w: Attempt, r: Recipe): Option<Term>
    decreases r, 1
  {
    match r
    case AnyAtom(t) =>
      if t.Nil? || t.Data? || t.Label? || t.LowOrder? || t == Point(multiset{}) then Some(t) else None
    case KnownPrivate(x) => if w.Secret(x) then None else Some(Private(x))
    case AnyPublic(x) => Some(PublicKey(x))
    case Seen(i) => if i < |w.Fields()| then Some(w.Fields()[i]) else None
    case MakePair(a, b) =>
      var x, y := Eval(w, a), Eval(w, b);
      if x.None? || y.None? then None else Some(Pair(x.value, y.value))
    case First(a) =>
      var x := Eval(w, a);
      if x.Some? && x.value.Pair? then Some(x.value.left) else None
    case Second(a) =>
      var x := Eval(w, a);
      if x.Some? && x.value.Pair? then Some(x.value.right) else None
    case MakeHash(a, b) =>
      var x, y := Eval(w, a), Eval(w, b);
      if x.None? || y.None? then None else Some(Hash(x.value, y.value))
    case MakeMac(a, b) =>
      var x, y := Eval(w, a), Eval(w, b);
      if x.None? || y.None? then None else Some(Mac(x.value, y.value))
    case MakeKdf(a, b, n) =>
      var x, y := Eval(w, a), Eval(w, b);
      if x.None? || y.None? then None else Some(Kdf(x.value, y.value, n))
    case MakeSealed(a, b, c) =>
      var x, y, z := Eval(w, a), Eval(w, b), Eval(w, c);
      if x.None? || y.None? || z.None? then None else Some(Sealed(x.value, y.value, z.value))
    case OpenSealed(a, b, c) =>
      var x, y, z := Eval(w, a), Eval(w, b), Eval(w, c);
      if x.None? || y.None? || z.None? then None else Open(x.value, y.value, z.value)
    case Multiply(a, b) =>
      var x, y := Eval(w, a), Eval(w, b);
      if x.None? || y.None? || !x.value.Private? then None else SharedSecret(x.value.scalar, y.value)
    case AskPeer(_, _, _, _, _, i) =>
      var q := AskedHere(w, r);
      if q.None? then None
      else
        var answer := Ask(w.peer, q.value);
        if answer.None? || i >= |answer.value| then None else Some(answer.value[i])
    case PeerStarts(a, b, e, i) =>
      var x, y := Eval(w, a), Eval(w, b);
      if x.None? || y.None? || w.Secret(e) then None
      else
        var started := Started(w.peer, e, x.value, y.value);
        if started.None? || i >= |started.value| then None else Some(started.value[i])
  }

  /** The query a recipe's last step puts to the peer; the peer draws a new ephemeral key. */
  function AskedHere(w: Attempt, r: Recipe): Option<Query>
    requires r.AskPeer?
    decreases r, 0
  {
    var e, s, t, k := Eval(w, r.ephemeral), Eval(w, r.identity), Eval(w, r.timestamp), Eval(w, r.psk);
    if e.None? || s.None? || t.None? || k.None? || w.Secret(r.e) then None
    else Some(Query([e.value, s.value, t.value], k.value, r.e))
  }

  /** Every query put to the honest peer on the way. */
  function Queries(w: Attempt, r: Recipe): set<Query> {
    match r
    case AnyAtom(_) => {}
    case KnownPrivate(_) => {}
    case AnyPublic(_) => {}
    case Seen(_) => {}
    case First(a) => Queries(w, a)
    case Second(a) => Queries(w, a)
    case MakePair(a, b) => Queries(w, a) + Queries(w, b)
    case MakeHash(a, b) => Queries(w, a) + Queries(w, b)
    case MakeMac(a, b) => Queries(w, a) + Queries(w, b)
    case MakeKdf(a, b, _) => Queries(w, a) + Queries(w, b)
    case MakeSealed(a, b, c) => Queries(w, a) + Queries(w, b) + Queries(w, c)
    case OpenSealed(a, b, c) => Queries(w, a) + Queries(w, b) + Queries(w, c)
    case Multiply(a, b) => Queries(w, a) + Queries(w, b)
    case AskPeer(a, b, c, d, _, _) =>
      var q := AskedHere(w, r);
      Queries(w, a) + Queries(w, b) + Queries(w, c) + Queries(w, d)
      + (if q.Some? then {q.value} else {})
    case PeerStarts(a, b, _, _) => Queries(w, a) + Queries(w, b)
  }

  // ---------------------------------------------------------------------------
  // What every derivable term looks like
  // ---------------------------------------------------------------------------

  /** A field of an initiation of the peer's own. */
  ghost predicate OfPeersOwn(w: Attempt, t: Term) {
    exists e: Scalar, remote: Term, timestamp: Term ::
      var started := Started(w.peer, e, remote, timestamp); started.Some? && t in started.value
  }

  /** Sealed by the initiator in this attempt, or by the peer, in answer to a query or on its own. */
  ghost predicate Honest(w: Attempt, asked: set<Query>, t: Term) {
    || t in w.Fields()
    || OfPeersOwn(w, t)
    || exists q <- asked :: Ask(w.peer, q).Some? && t in Ask(w.peer, q).value
  }

  /**
   Contains no secret key and at most one secret factor per point, and whatever is
   sealed was either sealed by an honest party or put together from such terms.
  */
  ghost predicate Harmless(w: Attempt, asked: set<Query>, t: Term) {
    match t
    case Nil => true
    case Data(_) => true
    case Label(_) => true
    case LowOrder => true
    case Private(x) => !w.Secret(x)
    case Point(scalars) => scalars[w.e] + scalars[w.peer] <= 1
    case Multiple(x, p) => !w.Secret(x) && Harmless(w, asked, p)
    case Pair(a, b) => Harmless(w, asked, a) && Harmless(w, asked, b)
    case Hash(a, b) => Harmless(w, asked, a) && Harmless(w, asked, b)
    case Mac(a, b) => Harmless(w, asked, a) && Harmless(w, asked, b)
    case Kdf(a, b, _) => Harmless(w, asked, a) && Harmless(w, asked, b)
    case Sealed(k, p, ad) =>
      && Harmless(w, asked, p)
      && ((Harmless(w, asked, k) && Harmless(w, asked, ad)) || Honest(w, asked, t))
  }

  lemma {:induction t} HarmlessGrows(w: Attempt, asked: set<Query>, more: set<Query>, t: Term)
    requires Harmless(w, asked, t) && asked <= more
    ensures Harmless(w, more, t)
  {
  }

  /** The three fields of the initiation give nothing away. */
  lemma FieldsHarmless(w: Attempt, asked: set<Query>, i: nat)
    requires w.Sane() && i < |w.Fields()|
    ensures Harmless(w, asked, w.Fields()[i])
  {
    InitiatorWritesUnrolled(w.ours, w.e, PublicKey(w.peer), Data(w.psk), Data(w.timestamp));
    assert w.Fields()[i] in w.Fields();
  }

  /** The handshake hash after an initiation with the given fields. */
  function Transcript(peer: Scalar, fields: seq<Term>): Term
    requires |fields| == 3
  {
    Hash(Hash(Hash(Start(PublicKey(peer)).h, fields[0]), fields[1]), fields[2])
  }

  /** What the peer's answer binds: the whole initiation, its own ephemeral, and the psk. */
  lemma AnswerUnrolled(peer: Scalar, q: Query) returns (chain: Term)
    requires Ask(peer, q).Some?
    ensures |q.fields| == 3
    ensures Ask(peer, q).value ==
            [PublicKey(q.e),
             Sealed(Kdf(chain, q.psk, 3), Nil,
                    Hash(Hash(Transcript(peer, q.fields), PublicKey(q.e)), Kdf(chain, q.psk, 2)))]
  {
    var session := PeerSession(peer, q);
    var r1 := WriteToken(E, session).value.0;
    assert SECOND[1..] == [EE, SE, PSK];
    assert [EE, SE, PSK][1..] == [SE, PSK];
    assert [SE, PSK][1..] == [PSK];
    assert [PSK][1..] == [];
    assert WriteTokens([EE, SE, PSK], r1).Some?;
    var r2 := WriteToken(EE, r1).value.0;
    assert WriteTokens([SE, PSK], r2).Some?;
    var r3 := WriteToken(SE, r2).value.0;
    var r4 := WriteToken(PSK, r3).value.0;
    assert WriteTokens([], r4) == Some((r4, []));
    assert WriteTokens([PSK], r3) == Some((r4, [] + []));
    chain := r3.sym.ck;
  }

  /** The peer's state after reading a query it accepts. */
  lemma PeerSession(peer: Scalar, q: Query) returns (session: Party)
    requires Read(FIRST, q.fields, Responder(peer, q.e, q.psk)).Some?
    ensures session == Read(FIRST, q.fields, Responder(peer, q.e, q.psk)).value.0
    ensures |q.fields| == 3
    ensures session.sym.h == Transcript(peer, q.fields)
    ensures !session.initiator && session.s == peer && session.e == q.e && session.psk == q.psk
  {
    var p := Responder(peer, q.e, q.psk);
    session := Read(FIRST, q.fields, p).value.0;
    assert FIRST[1..] == [ES, S, SS];
    assert [ES, S, SS][1..] == [S, SS];
    assert [S, SS][1..] == [SS];
    assert [SS][1..] == [];
    var p1 := ReadToken(E, q.fields, p).value.0;
    var f1 := q.fields[1..];
    assert ReadTokens([ES, S, SS], f1, p1).Some?;
    var p2 := ReadToken(ES, f1, p1).value.0;
    assert ReadTokens([S, SS], f1, p2).Some?;
    var p3 := ReadToken(S, f1, p2).value.0;
    var f3 := f1[1..];
    assert ReadTokens([SS], f3, p3).Some?;
    var p4 := ReadToken(SS, f3, p3).value.0;
    assert ReadTokens([], f3, p4) == Some((p4, f3));
  }

  lemma AnswerHarmless(w: Attempt, asked: set<Query>, q: Query, i: nat)
    requires q in asked && !w.Secret(q.e)
    requires Ask(w.peer, q).Some? && i < |Ask(w.peer, q).value|
    ensures Harmless(w, asked, Ask(w.peer, q).value[i])
  {
    var chain := AnswerUnrolled(w.peer, q);
    assert Ask(w.peer, q).value[i] in Ask(w.peer, q).value;
  }

  /** What the peer sends when it starts: sealed with second outputs of the key derivation only. */
  lemma StartedUnrolled(peer: Scalar, e: Scalar, remote: Term, timestamp: Term, t: Term)
    requires Started(peer, e, remote, timestamp).Some? && t in Started(peer, e, remote, timestamp).value
    ensures t == PublicKey(e) || (t.Sealed? && t.key.Kdf? && t.key.output == 2
                                  && t.plain in {PublicKey(peer), timestamp})
  {
    InitiatorWritesUnrolled(peer, e, remote, Nil, timestamp);
  }

  lemma StartedHarmless(w: Attempt, asked: set<Query>, e: Scalar, remote: Term, timestamp: Term, i: nat)
    requires !w.Secret(e) && w.Sane() && Harmless(w, asked, timestamp)
    requires Started(w.peer, e, remote, timestamp).Some? && i < |Started(w.peer, e, remote, timestamp).value|
    ensures Harmless(w, asked, Started(w.peer, e, remote, timestamp).value[i])
  {
    var t := Started(w.peer, e, remote, timestamp).value[i];
    StartedUnrolled(w.peer, e, remote, timestamp, t);
    assert OfPeersOwn(w, t);
  }

  /** The recipes a recipe's last step starts from. */
  ghost function Parts(r: Recipe): set<Recipe> {
    match r
    case AnyAtom(_) => {}
    case KnownPrivate(_) => {}
    case AnyPublic(_) => {}
    case Seen(_) => {}
    case First(a) => {a}
    case Second(a) => {a}
    case MakePair(a, b) => {a, b}
    case MakeHash(a, b) => {a, b}
    case MakeMac(a, b) => {a, b}
    case MakeKdf(a, b, _) => {a, b}
    case MakeSealed(a, b, c) => {a, b, c}
    case OpenSealed(a, b, c) => {a, b, c}
    case Multiply(a, b) => {a, b}
    case AskPeer(a, b, c, d, _, _) => {a, b, c, d}
    case PeerStarts(a, b, _, _) => {a, b}
  }

  ghost predicate PartsHarmless(w: Attempt, asked: set<Query>, r: Recipe) {
    forall a | a in Parts(r) && Eval(w, a).Some? :: Harmless(w, asked, Eval(w, a).value)
  }

  lemma PuttingTogether(w: Attempt, asked: set<Query>, r: Recipe)
    requires r.MakePair? || r.MakeHash? || r.MakeMac? || r.MakeKdf? || r.MakeSealed?
    requires PartsHarmless(w, asked, r) && Eval(w, r).Some?
    ensures Harmless(w, asked, Eval(w, r).value)
  {
    assert r.a in Parts(r) && r.b in Parts(r);
    if r.MakeSealed? {
      assert r.c in Parts(r);
    }
  }

  lemma TakingApart(w: Attempt, asked: set<Query>, r: Recipe)
    requires r.First? || r.Second? || r.OpenSealed?
    requires PartsHarmless(w, asked, r) && Eval(w, r).Some?
    ensures Harmless(w, asked, Eval(w, r).value)
  {
    assert r.a in Parts(r);
    if r.OpenSealed? {
      assert r.b in Parts(r);
    }
  }

  lemma Multiplying(w: Attempt, asked: set<Query>, r: Recipe)
    requires r.Multiply? && PartsHarmless(w, asked, r) && Eval(w, r).Some?
    ensures Harmless(w, asked, Eval(w, r).value)
  {
    assert r.a in Parts(r) && r.b in Parts(r);
  }

  /** Whatever the adversary computes is harmless, given the queries it made. */
  lemma {:induction false} DerivableHarmless(w: Attempt, r: Recipe)
    requires w.Sane() && Eval(w, r).Some?
    ensures Harmless(w, Queries(w, r), Eval(w, r).value)
    decreases r
  {
    var asked := Queries(w, r);
    forall a | a in Parts(r) && Eval(w, a).Some?
      ensures Harmless(w, asked, Eval(w, a).value)
    {
      DerivableHarmless(w, a);
      PartAsked(w, r, a);
      HarmlessGrows(w, Queries(w, a), asked, Eval(w, a).value);
    }
    if r.Seen? {
      FieldsHarmless(w, asked, r.field);
    } else if r.AskPeer? {
      AnswerHarmless(w, asked, AskedHere(w, r).value, r.field);
    } else if r.PeerStarts? {
      assert r.remote in Parts(r) && r.timestamp in Parts(r);
      StartedHarmless(w, asked, r.e, Eval(w, r.remote).value, Eval(w, r.timestamp).value, r.field);
    } else if r.First? || r.Second? || r.OpenSealed? {
      TakingApart(w, asked, r);
    } else if r.Multiply? {
      Multiplying(w, asked, r);
    } else if !r.AnyAtom? && !r.KnownPrivate? && !r.AnyPublic? {
      PuttingTogether(w, asked, r);
    }
  }

  lemma PartAsked(w: Attempt, r: Recipe, a: Recipe)
    requires a in Parts(r)
    ensures Queries(w, a) <= Queries(w, r)
  {
  }

  // ---------------------------------------------------------------------------
  // Agreement
  // ---------------------------------------------------------------------------

  /** What convinces the initiator: a payload under a key that contains the ephemeral-to-static secret. */
  lemma ConvincedUnrolled(w: Attempt, ephemeral: Term, empty: Term) returns (chain: Term)
    requires w.Sane() && w.Convinced(ephemeral, empty)
    ensures |w.Fields()| == 3
    ensures empty.Sealed?
    ensures empty.key == Kdf(chain, Data(w.psk), 3)
    ensures empty.ad == Hash(Hash(Transcript(w.peer, w.Fields()), ephemeral), Kdf(chain, Data(w.psk), 2))
    ensures forall asked :: !Harmless(w, asked, chain)
  {
    InitiatorWritesUnrolled(w.ours, w.e, PublicKey(w.peer), Data(w.psk), Data(w.timestamp));
    var p := w.Written().0;
    var response := Response(RESPONSE_TYPE, (0, 0, 0), 0, 0, ephemeral, empty, Nil, Nil);
    AcceptsUnrolled(p, response);
    var ee := SharedSecret(p.e, ephemeral).value;
    var se := SharedSecret(p.s, ephemeral).value;
    chain := p.sym.MixHash(ephemeral).MixKey(ephemeral).MixKey(ee).MixKey(se).ck;
    var es := SharedSecret(w.e, PublicKey(w.peer)).value;
    var before := Kdf(Start(PublicKey(w.peer)).ck, PublicKey(w.e), 1);
    var ss := SharedSecret(w.ours, PublicKey(w.peer)).value;
    assert p.sym.ck == Kdf(Kdf(before, es, 1), ss, 1);
    assert es.scalars[w.e] == 1 && es.scalars[w.peer] == 1;
    forall asked
      ensures !Harmless(w, asked, chain)
    {
      assert !Harmless(w, asked, es);
      assert !Harmless(w, asked, p.sym.ck);
      assert !Harmless(w, asked, Kdf(p.sym.ck, ephemeral, 1));
      assert !Harmless(w, asked, Kdf(Kdf(p.sym.ck, ephemeral, 1), ee, 1));
    }
  }

  lemma NotOfPeersOwn(w: Attempt, t: Term)
    requires t.Sealed? && t.key.Kdf? && t.key.output == 3
    ensures !OfPeersOwn(w, t)
  {
    forall e: Scalar, remote: Term, timestamp: Term |
      Started(w.peer, e, remote, timestamp).Some? && t in Started(w.peer, e, remote, timestamp).value
      ensures false
    {
      StartedUnrolled(w.peer, e, remote, timestamp, t);
    }
  }

  /**
   Agreement: if two terms the adversary can compute convince the initiator, then
   the honest peer was asked, and answered, exactly this initiation with this psk,
   and the accepted ephemeral is the one it drew for that answer.
  */
  lemma Agreement(w: Attempt, ephemeral: Recipe, empty: Recipe) returns (q: Query)
    requires w.Sane()
    requires Eval(w, ephemeral).Some? && Eval(w, empty).Some?
    requires w.Convinced(Eval(w, ephemeral).value, Eval(w, empty).value)
    ensures q in Queries(w, empty)
    ensures Ask(w.peer, q).Some?
    ensures q.fields == w.Fields()
    ensures q.psk == Data(w.psk)
    ensures Eval(w, ephemeral).value == PublicKey(q.e)
    ensures Eval(w, empty).value in Ask(w.peer, q).value
  {
    var eR, t := Eval(w, ephemeral).value, Eval(w, empty).value;
    var asked := Queries(w, empty);
    DerivableHarmless(w, empty);
    var chain := ConvincedUnrolled(w, eR, t);
    assert !Harmless(w, asked, chain);
    assert !Harmless(w, asked, t.key);
    assert Honest(w, asked, t);
    InitiatorWritesUnrolled(w.ours, w.e, PublicKey(w.peer), Data(w.psk), Data(w.timestamp));
    assert t !in w.Fields();
    NotOfPeersOwn(w, t);
    q :| q in asked && Ask(w.peer, q).Some? && t in Ask(w.peer, q).value;
    var chain' := AnswerUnrolled(w.peer, q);
    assert t == Ask(w.peer, q).value[1];
    assert q.fields == w.Fields();
  }

  /** Only the peer can answer: without its help no derivable response is accepted. */
  lemma OnlyPeerCanAnswer(w: Attempt, ephemeral: Recipe, empty: Recipe)
    requires w.Sane()
    requires Eval(w, ephemeral).Some? && Eval(w, empty).Some?
    requires Queries(w, empty) == {}
    ensures !w.Convinced(Eval(w, ephemeral).value, Eval(w, empty).value)
  {
    if w.Convinced(Eval(w, ephemeral).value, Eval(w, empty).value) {
      var q := Agreement(w, ephemeral, empty);
    }
  }

  /** The peer that answered an agreed query knows who it was talking to, and when. */
  lemma PeerKnowsInitiator(w: Attempt, q: Query)
    requires w.Sane() && q.fields == w.Fields()
    ensures var r := Read(FIRST, q.fields, Responder(w.peer, q.e, q.psk));
      r.Some? && r.value.0.rs == PublicKey(w.ours) && r.value.1 == Data(w.timestamp)
  {
    var i := Initiator(w.ours, w.e, PublicKey(w.peer), q.psk);
    var r := Responder(w.peer, q.e, q.psk);
    FirstFits(i, r);
    MessageMirrored(FIRST, Data(w.timestamp), i, r);
    InitiatorWritesUnrolled(w.ours, w.e, PublicKey(w.peer), Data(w.psk), Data(w.timestamp));
    InitiatorWritesUnrolled(w.ours, w.e, PublicKey(w.peer), q.psk, Data(w.timestamp));
  }

  /** The honest peer answers the honest initiation, and the answer convinces. */
  lemma PeerConvinces(w: Attempt, peerE: Scalar)
    requires w.Sane()
    ensures var q := Query(w.Fields(), Data(w.psk), peerE);
      && Ask(w.peer, q).Some? && |Ask(w.peer, q).value| == 2
      && w.Convinced(Ask(w.peer, q).value[0], Ask(w.peer, q).value[1])
  {
    InitiatorWritesUnrolled(w.ours, w.e, PublicKey(w.peer), Data(w.psk), Data(w.timestamp));
    var i := Initiator(w.ours, w.e, PublicKey(w.peer), Data(w.psk));
    var r := Responder(w.peer, peerE, Data(w.psk));
    FirstFits(i, r);
    MessageMirrored(FIRST, Data(w.timestamp), i, r);
    var session := Read(FIRST, w.Fields(), r).value.0;
    var p := w.Written().0;
    SecondFits(session, p);
    MessageMirrored(SECOND, Nil, session, p);
    ResponseHasTwoFields(session, Nil);
    var answer := Write(SECOND, Nil, session).value.1;
    assert answer == [answer[0], answer[1]];
  }

  /** With the peer's help the adversary does convince the initiator: it need only pass messages on. */
  lemma RelayConvinces(w: Attempt, peerE: Scalar) returns (ephemeral: Recipe, empty: Recipe)
    requires w.Sane() && !w.Secret(peerE)
    ensures Eval(w, ephemeral).Some? && Eval(w, empty).Some?
    ensures w.Convinced(Eval(w, ephemeral).value, Eval(w, empty).value)
  {
    PeerConvinces(w, peerE);
    InitiatorWritesUnrolled(w.ours, w.e, PublicKey(w.peer), Data(w.psk), Data(w.timestamp));
    ephemeral := AskPeer(Seen(0), Seen(1), Seen(2), AnyAtom(Data(w.psk)), peerE, 0);
    empty := AskPeer(Seen(0), Seen(1), Seen(2), AnyAtom(Data(w.psk)), peerE, 1);
    var q := Query(w.Fields(), Data(w.psk), peerE);
    assert w.Fields() == [w.Fields()[0], w.Fields()[1], w.Fields()[2]];
    assert AskedHere(w, ephemeral) == Some(q);
    assert AskedHere(w, empty) == Some(q);
  }
}
