/** Vocabulary shared by every module: optional values, identifiers, time and digests. */
module Base {

  datatype Option<+T> = None | Some(value: T) {
    function GetOr(default: T): T {
      if Some? then value else default
    }
  }

  /** Identifiers and secrets are drawn from a supply that never repeats a value. */
  type Id = nat
  type Secret = nat

  type Byte = b: nat | b < 256

  /** Milliseconds, as Date.now() reports them. */
  type Time = nat

  /** SHA-256 as an injective constructor: equal digests come from equal inputs. */
  datatype Digest = Sha256(preimage: Secret)

  function HashToken(secret: Secret): Digest {
    Sha256(secret)
  }

  /**
    An e-mail address under the database collation: two addresses compare equal when
    their folded forms agree, and are the same string when the spelling agrees as well.
   */
  datatype Address = Address(folded: nat, spelling: nat)

  predicate CiEquals(a: Option<Address>, b: Option<Address>) {
    a.Some? && b.Some? && a.value.folded == b.value.folded
  }
}
