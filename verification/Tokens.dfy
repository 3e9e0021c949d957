/** Tokens, their identity, and the equality test that tells an owned token from an
    authorised-but-empty slot (internal/scalegraph/token.go). */
module Tokens {
  import opened Wrappers
  import opened Ids

  type TokenId = string

  datatype Signature = Signature(algorithm: string, value: seq<byte>, signerId: string, timestamp: int)

  datatype Token = Token(
    value: string,
    signature: Signature,
    clawback: Option<ScalegraphId>,
    freeze: Option<ScalegraphId>,
    nonce: int,
    frozen: bool)
  {
    /** The hexadecimal form of the signature bytes. */
    function Id(): TokenId {
      Encode(signature.value)
    }

    /** The account whose signature minted the token. */
    function Signer(): Option<ScalegraphId> {
      Parse(signature.signerId)
    }

    /** The source's equality; it looks at neither the freeze address, the nonce nor the frozen flag. */
    predicate Equal(other: Token) {
      && Id() == other.Id()
      && value == other.value
      && signature == other.signature
      && clawback == other.clawback
    }
  }

  /** The zero token: an entry "authorised but not owned". */
  const EMPTY := Token("", Signature("", [], "", 0), None, None, 0, false)

  /** What the source's placeholder test accepts: everything but three ignored fields is zero. */
  lemma EqualEmptyExactly(token: Token)
    ensures token.Equal(EMPTY) <==>
            token == Token("", Signature("", [], "", 0), None, token.freeze, token.nonce, token.frozen)
  {
  }

  /** So the test errs on some tokens, for instance one that only carries a nonce ... */
  lemma EqualEmptyIsNotEmptiness()
    ensures exists token: Token :: token.Equal(EMPTY) && token != EMPTY
  {
    var token := EMPTY.(nonce := 1);
    assert token.Equal(EMPTY) && token != EMPTY;
  }

  /** ... but never on one whose signer names an account. */
  lemma SignedIsNotEmpty(token: Token)
    requires token.Signer().Some?
    ensures !token.Equal(EMPTY)
  {
    assert Decode("") == Some([]);
  }
}
