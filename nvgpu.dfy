/**
 * The GPU composite adapter: takes the first record the vendor's remote
 * evidence provider returns and records the verifier nonce beside it.
 * The provider is asked with a fixed session id, so the record itself
 * does not depend on the nonce.
 *
 * The provider's answer (an error, or a list of records) is a parameter.
 */
module NvGpu {
  import opened Connector

  /** One record of the provider's result list. */
  datatype RawEvidence = RawEvidence(evidence: string, certificate: string)

  /** What the provider returned. */
  type RemoteEvidence = Result<seq<RawEvidence>, Error>

  datatype GPUEvidence = GPUEvidence(
    arch: string,
    evidence: string,
    certificate: string,
    nonce: seq<uint8>,
    verifierNonce: VerifierNonce)

  /** The zero value `GPUEvidence{}`. */
  const EmptyEvidence: GPUEvidence := GPUEvidence("", "", "", [], ZeroNonce)

  /** The accelerator generation, fixed in this adapter version. */
  const Arch: string := "HOPPER"

  /** The key this adapter's evidence is registered under. */
  function GetEvidenceIdentifier(): (id: string)
    ensures id == "nvgpu"
  {
    "nvgpu"
  }

  /**
   * `CollectEvidence`: fails when the provider fails or returns no record,
   * otherwise uses the first record only and keeps the nonce as given.
   */
  function CollectEvidence(nonce: seq<uint8>, remote: RemoteEvidence): (r: (GPUEvidence, Option<Error>))
    ensures r.1.None? <==> remote.Success? && |remote.value| > 0
    ensures r.1.Some? ==> r.0 == EmptyEvidence
    ensures remote.Failure? ==> r.1 == Some(RemoteEvidenceFailed(remote.error))
    ensures remote.Success? && |remote.value| == 0 ==> r.1 == Some(NoEvidenceReturned)
    ensures r.1.None? ==>
      r.0 == GPUEvidence(Arch, remote.value[0].evidence, remote.value[0].certificate, nonce, ZeroNonce)
  {
    match remote
    case Failure(e) => (EmptyEvidence, Some(RemoteEvidenceFailed(e)))
    case Success(evidenceList) =>
      if |evidenceList| == 0 then (EmptyEvidence, Some(NoEvidenceReturned))
      else
        var rawEvidence := evidenceList[0];
        (GPUEvidence(Arch, rawEvidence.evidence, rawEvidence.certificate, nonce, ZeroNonce), None)
  }

  /**
   * The nonce is only recorded: the provider's evidence and certificate in
   * the result are the same for every nonce.
   */
  lemma CollectEvidenceIgnoresNonce(n1: seq<uint8>, n2: seq<uint8>, remote: RemoteEvidence)
    ensures CollectEvidence(n1, remote).0.evidence == CollectEvidence(n2, remote).0.evidence
    ensures CollectEvidence(n1, remote).0.certificate == CollectEvidence(n2, remote).0.certificate
    ensures CollectEvidence(n1, remote).1 == CollectEvidence(n2, remote).1
  {
  }

  /** Only the first record matters: the records after it never reach the result. */
  lemma CollectEvidenceFirstOnly(nonce: seq<uint8>, first: RawEvidence, rest1: seq<RawEvidence>, rest2: seq<RawEvidence>)
    ensures CollectEvidence(nonce, Success([first] + rest1)) == CollectEvidence(nonce, Success([first] + rest2))
  {
  }

  /** The nonce recorded in the evidence's `nonce` field: `Val` then `Iat`, or nothing without a verifier nonce. */
  function GpuNonce(verifierNonce: Option<VerifierNonce>): (r: seq<uint8>)
    ensures verifierNonce.None? ==> r == []
    ensures verifierNonce.Some? ==>
      var n := verifierNonce.value;
      && |r| == |n.val| + |n.iat|
      && r[..|n.val|] == n.val
      && r[|n.val|..] == n.iat
  {
    match verifierNonce
    case None => []
    case Some(n) => n.val + n.iat
  }

  /** The outcome of `GetEvidence`, including the nil dereference of a missing verifier nonce. */
  datatype GpuOutcome = Produced(evidence: GPUEvidence) | Failed(err: Error) | NilDereference

  /**
   * `GetEvidence`: collects the evidence with `Val ++ Iat` as its recorded
   * nonce and copies the verifier nonce into it. Without a verifier nonce, a successful collection
   * ends in a nil dereference; a failed one returns its error first.
   * The user data is not used.
   */
  method GetEvidence(verifierNonce: Option<VerifierNonce>, userData: seq<uint8>, remote: RemoteEvidence)
    returns (r: GpuOutcome)
    ensures r.Failed? <==> !(remote.Success? && |remote.value| > 0)
    ensures r.Failed? ==> Some(r.err) == CollectEvidence(GpuNonce(verifierNonce), remote).1
    ensures r.NilDereference? <==> verifierNonce.None? && remote.Success? && |remote.value| > 0
    ensures r.Produced? ==>
      && verifierNonce.Some? && remote.Success? && |remote.value| > 0
      && r.evidence == GPUEvidence(Arch, remote.value[0].evidence, remote.value[0].certificate,
                                   verifierNonce.value.val + verifierNonce.value.iat, verifierNonce.value)
  {
    var nonce: seq<uint8> := [];
    if verifierNonce.Some? {
      nonce := verifierNonce.value.val + verifierNonce.value.iat;
    }
    assert nonce == GpuNonce(verifierNonce);

    var collected := CollectEvidence(nonce, remote);
    var evidence, err := collected.0, collected.1;
    if err.Some? {
      return Failed(err.value);
    }

    if verifierNonce.None? {
      return NilDereference;
    }
    evidence := evidence.(verifierNonce := verifierNonce.value);

    r := Produced(evidence);
  }
}
