/**
 Symbolic cryptography: a primitive is a constructor, so two terms are equal only
 if they were computed in the same way from the same parts.
*/
module Crypto {
  import opened Basics

  /** The name of a private key; what it is a name of is known only to its holder. */
  type Scalar = nat

  datatype Term =
    | Nil
    | Data(n: nat)
    | Label(text: string)
    | Private(scalar: Scalar)
    | Point(scalars: multiset<Scalar>)          // the base point times all of these
    | LowOrder                                  // a point whose multiples are all zero
    | Multiple(scalar: Scalar, other: Term)     // of a string not known to be a point of either kind
    | Pair(left: Term, right: Term)
    | Hash(state: Term, data: Term)
    | Kdf(chain: Term, input: Term, output: nat)
    | Sealed(key: Term, plain: Term, ad: Term)  // always under the zero nonce
    | Mac(key: Term, data: Term)

  function PublicKey(x: Scalar): Term {
    Point(multiset{x})
  }

  /** X25519, which refuses to return the all-zero output. */
  function SharedSecret(x: Scalar, point: Term): Option<Term> {
    match point
    case Point(scalars) => Some(Point(scalars + multiset{x}))
    case LowOrder => None
    case _ => Some(Multiple(x, point))
  }

  /** Both sides of an exchange come to the same secret, and a low-order point to none. */
  lemma DiffieHellman(x: Scalar, y: Scalar)
    ensures SharedSecret(x, PublicKey(y)) == SharedSecret(y, PublicKey(x)) == Some(Point(multiset{x, y}))
    ensures SharedSecret(x, LowOrder).None?
  {
    assert multiset{y} + multiset{x} == multiset{x, y} && multiset{x} + multiset{y} == multiset{x, y};
  }

  /** Opening a sealed term: the plaintext, if key and associated data are those it was sealed with. */
  function Open(key: Term, sealed: Term, ad: Term): Option<Term> {
    if sealed.Sealed? && sealed.key == key && sealed.ad == ad then Some(sealed.plain) else None
  }

  /** What opens, and as what, is exactly what was sealed. */
  lemma OpensWhatWasSealed(key: Term, sealed: Term, ad: Term, plain: Term)
    ensures Open(key, sealed, ad) == Some(plain) <==> sealed == Sealed(key, plain, ad)
  {
  }
}
