/**
 * Facts that relate the two composite adapters to each other.
 */
module Composite {
  import opened Connector
  import Tpm
  import NvGpu

  /** The two adapters register under different identifiers in one composite document. */
  lemma IdentifiersDistinct()
    ensures Tpm.TpmCompositeAdapter.GetEvidenceIdentifier() != NvGpu.GetEvidenceIdentifier()
  {
  }

  /**
   * Both adapters put `Val` then `Iat` first: the GPU's recorded nonce is
   * exactly the part of the TPM's hash input before the user data.
   */
  lemma GpuNonceIsTpmHashPrefix(verifierNonce: Option<VerifierNonce>, userData: seq<uint8>)
    ensures var gpu := NvGpu.GpuNonce(verifierNonce);
      Tpm.HashInput(verifierNonce, userData) == gpu + userData
  {
  }
}
