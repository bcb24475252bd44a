/**
 * Types shared by the attestation connector and its evidence adapters,
 * and the outcome of one legacy-path `Attest` call as its tests pin it down.
 */
module Connector {

  /** A Go `byte`. */
  type uint8 = x: int | 0 <= x < 256

  datatype Option<+T> = None | Some(value: T)

  datatype Result<+T, +E> = Success(value: T) | Failure(error: E)

  /**
   * The nonce issued by the verification service. A Go `*VerifierNonce`
   * that may be nil is an `Option<VerifierNonce>`.
   */
  datatype VerifierNonce = VerifierNonce(val: seq<uint8>, iat: seq<uint8>, signature: seq<uint8>)

  /** The zero value of the Go struct `VerifierNonce{}`. */
  const ZeroNonce: VerifierNonce := VerifierNonce([], [], [])

  /**
   * Errors, as tagged variants. Message formatting is not modelled; the
   * wrapping variants keep their cause.
   */
  datatype Error =
    | Reported(msg: string)                    // an error some collaborator returned
    | QuoteFailed(akHandle: int, cause: Error) // the TPM quote failed for this AK handle
    | RemoteEvidenceFailed(cause: Error)       // the GPU evidence provider failed; Go keeps the cause only as text
    | NoEvidenceReturned                       // the GPU evidence provider returned no record

  /** The step of `Attest` that failed. */
  datatype AttestError =
    | NonceParseError
    | EvidenceCollectionError(cause: Error)
    | TokenParseError

  /** What the nonce endpoint's body turned out to be. */
  datatype NonceResponse = NonceBody(nonce: VerifierNonce) | MalformedNonce

  /** What the token endpoint's body turned out to be. */
  datatype TokenResponse = TokenBody(token: string) | MalformedToken

  /**
   * What the adapter's `CollectEvidence` returned: Go returns the evidence
   * pointer AND the error, so both halves are kept.
   */
  datatype AdapterResult<E> = AdapterResult(evidence: Option<E>, err: Option<Error>)

  /**
   * The outcome of `Attest` over the outcomes of its three collaborators:
   * the nonce is fetched and parsed, then evidence is collected, then the
   * token is requested and parsed; the first failing step decides the error.
   */
  function Attest<E>(nonce: NonceResponse, adapter: AdapterResult<E>, token: TokenResponse): (r: Result<string, AttestError>)
    ensures r.Success? <==> nonce.NonceBody? && adapter.err.None? && token.TokenBody?
    ensures r.Success? ==> r.value == token.token
    ensures nonce.MalformedNonce? ==> r == Failure(NonceParseError)
    ensures nonce.NonceBody? && adapter.err.Some? ==> r == Failure(EvidenceCollectionError(adapter.err.value))
    ensures nonce.NonceBody? && adapter.err.None? && token.MalformedToken? ==> r == Failure(TokenParseError)
  {
    match nonce
    case MalformedNonce => Failure(NonceParseError)
    case NonceBody(_) =>
      if adapter.err.Some? then Failure(EvidenceCollectionError(adapter.err.value))
      else
        match token
        case MalformedToken => Failure(TokenParseError)
        case TokenBody(t) => Success(t)
  }

  /** TestAttest: a good nonce, evidence with no error and a good token give no error. */
  lemma AttestSucceeds<E>(n: VerifierNonce, e: E, t: string)
    ensures Attest(NonceBody(n), AdapterResult(Some(e), None), TokenBody(t)) == Success(t)
  {
  }

  /** TestAttest_nonceFailure: a nonce body that does not parse is an error, whatever follows. */
  lemma AttestNonceFailure<E>(adapter: AdapterResult<E>, token: TokenResponse)
    ensures Attest(MalformedNonce, adapter, token).Failure?
  {
  }

  /** TestAttest_evidenceFailure: an adapter error is an error, even with evidence and a good token. */
  lemma AttestEvidenceFailure<E>(n: VerifierNonce, e: E, cause: Error, t: string)
    ensures Attest(NonceBody(n), AdapterResult(Some(e), Some(cause)), TokenBody(t)).Failure?
  {
  }

  /** TestAttest_tokenFailure: a token body that does not parse, after a good nonce and evidence, is an error. */
  lemma AttestTokenFailure<E>(n: VerifierNonce, e: E)
    ensures Attest(NonceBody(n), AdapterResult(Some(e), None), MalformedToken).Failure?
  {
  }
}
