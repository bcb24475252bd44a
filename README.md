# Attestation client adapters and `Attest` outcomes, in Dafny

This project models three parts of a remote-attestation client:

- **The TPM composite adapter** (`Tpm`). An options-pattern constructor starts from default values. It applies each option to a `TpmCompositeAdapter` object in order and stops at the first error. The nonce-binding hash first concatenates the verifier nonce's `Val`, then its `Iat`, then the caller's user data. It hashes the result with SHA-256, but returns no digest when there is neither a nonce nor user data. `GetEvidence` hashes, gets a quote over the digest, reads the PCRs and assembles the evidence record.
- **The GPU composite adapter** (`NvGpu`). `CollectEvidence` takes the first record the vendor's remote-evidence provider returns. It fails when the provider fails or returns no record. `GetEvidence` records `Val ++ Iat` as the GPU nonce and copies the verifier nonce into the result.
- **The outcome of `Attest`** (`Connector`). It is modelled over the outcomes of its collaborators, as its four tests pin it down. The nonce body parses or does not, the adapter returns an error or not, and the token body parses or does not.

`Composite` relates the two adapters. Their identifiers differ, and both put `Val` then `Iat` first.

Collaborators are parameters:
- SHA-256: a total function `seq<uint8> -> seq<uint8>`.
- The TPM's quote and PCR commands: functions from their arguments to a value or an error.
- Opening the TPM device: a function from the configured device type and owner password to an optional error. The quote and PCR functions also receive that outcome, because they are answered by the handle that opening returned.
- The GPU provider's answer: an error or a list of `{evidence, certificate}` records.
- The nonce and token endpoints: "parses" or "does not parse".

Go errors are tagged variants (`Connector.Error`). The wrapping variants (`QuoteFailed`, `RemoteEvidenceFailed` and `Attest`'s `EvidenceCollectionError`) keep their cause. `Reported` keeps a collaborator's message, and `NoEvidenceReturned` has no cause. In Go, only `QuoteFailed` is a real wrapper (`errors.Wrapf`, go-tpm/canonical_adapter.go:98). `RemoteEvidenceFailed` formats its cause with `%v` (go-nvgpu/gpu_adapter.go:33), so Go keeps that cause only as text. A nil pointer is `None`.

## Defects kept as written

- The TPM adapter receives the error from opening the device and overwrites it without checking it (go-tpm/canonical_adapter.go:85-91). `Tpm.TpmCompositeAdapter.GetEvidence` opens the device through `openDevice` with the configured device type and owner password. It never checks the result: it always computes the digest and asks `getQuote` and, only if the quote succeeds, `getPcrs`; each of them receives the open outcome. So a failed open reaches the caller only if the quote or PCR command on that handle reports it.
- The GPU evidence is not bound to the verifier nonce. The provider is asked with the fixed session id 123123 (go-nvgpu/gpu_adapter.go:31). The nonce is only copied into the record's `Nonce` field (:43). `NvGpu.CollectEvidenceIgnoresNonce` proves that the evidence, the certificate and the error are the same for every nonce.
- The GPU adapter dereferences the verifier nonce even when it is nil (go-nvgpu/gpu_adapter.go:62). `NvGpu.GetEvidence` returns `NilDereference` exactly when the nonce is missing and collection succeeded. When collection fails, the error is returned before the dereference.

## Empty hash input

With neither a nonce nor user data, `createNonceHash` returns no digest (go-tpm/canonical_adapter.go:124-126), not the hash of the empty input. `Tpm.CreateNonceHash` returns `None` exactly then.

## Model

| member | source | states |
|---|---|---|
| `Tpm.ApplyOption` | go-tpm/canonical_adapter.go:45-78 | each `With*` option sets exactly its own field to its argument and leaves the other three fields unchanged; an option fails exactly when its closure returns an error, and that error is the result |
| `Tpm.TpmCompositeAdapter.constructor` | go-tpm/canonical_adapter.go:21-27 | a new adapter has the default AK handle, the default PCR selections, the Linux device type and an empty owner password |
| `Tpm.TpmCompositeAdapter.Apply` | go-tpm/canonical_adapter.go:29-31 | running one option on the adapter's fields gives the configuration `ApplyOption` describes, and on error leaves the fields unchanged |
| `Tpm.NewCompositeAdapter` | go-tpm/canonical_adapter.go:19-36 | the loop applies the options left to right to a fresh adapter; it returns that adapter with exactly the `Configure(opts)` configuration, or no adapter and the error `Configure(opts)` reports |
| `Tpm.ApplyAllSnoc` | go-tpm/canonical_adapter.go:29-33 | applying one more option after a sequence acts on the configuration the sequence produced, and nothing is applied after an error |
| `Tpm.ApplyAllFailedPrefix` | go-tpm/canonical_adapter.go:30-32 | once an option has failed, appending more options does not change the outcome |
| `Tpm.ConfigureLastWins` | go-tpm/canonical_adapter.go:22-33 | with options that do not fail, each field holds the value of the last option that sets it, or its default when none does; in particular no options give the defaults |
| `Tpm.ApplyAllFailsOnFailing` | go-tpm/canonical_adapter.go:29-32 | any failing option makes construction fail |
| `Tpm.ConfigureSucceedsIff` | go-tpm/canonical_adapter.go:29-35 | construction succeeds if and only if no option fails |
| `Tpm.ApplyAllFirstError` | go-tpm/canonical_adapter.go:29-32 | the error returned is the first failing option's, and the options after it do not matter because they are never run |
| `Tpm.CreateNonceHash` | go-tpm/canonical_adapter.go:123-151 | there is no digest if and only if the nonce is nil and the user data is empty; otherwise the digest is SHA-256 of `Val ++ Iat ++ userData`, where the nonce part is left out when the nonce is nil |
| `Tpm.HashInputLayout` | go-tpm/canonical_adapter.go:135-143 | the length of the hash input is the sum of the lengths of `Val`, `Iat` and the user data, with `Val` first, `Iat` next and the user data last |
| `Tpm.HashInputSeparatesUserData` | go-tpm/canonical_adapter.go:135-143 | for the same nonce, different user data give different hash inputs |
| `Tpm.HashInputNotSelfDelimiting` | go-tpm/canonical_adapter.go:135-143 | the layout has no separators: user data equal to `Val ++ Iat` with no nonce gives the same hash input as that nonce |
| `Tpm.TpmCompositeAdapter.GetEvidence` | go-tpm/canonical_adapter.go:84-121 | the quote is requested with the configured AK handle, the nonce digest and the configured PCR selections; a quote error gives that error wrapped with the AK handle, and a PCR error is returned as is; on success the evidence carries the quote, signature and PCRs unchanged, plus the caller's user data and nonce; the device is opened with the configured device type and owner password, and the open error is not checked but only passed on to the handle's quote and PCR commands |
| `NvGpu.CollectEvidence` | go-nvgpu/gpu_adapter.go:29-49 | there is no error if and only if the provider returns a non-empty list; a provider error gives `RemoteEvidenceFailed` with the provider's error as its cause (Go keeps it only as text), an empty list gives "no evidence returned", and both give the empty record; on success the record has the first element's evidence and certificate, the `HOPPER` architecture and the nonce unchanged |
| `NvGpu.CollectEvidenceIgnoresNonce` | go-nvgpu/gpu_adapter.go:29-47 | the evidence, certificate and error do not depend on the nonce, which is only recorded |
| `NvGpu.CollectEvidenceFirstOnly` | go-nvgpu/gpu_adapter.go:39-47 | records after the first never affect the result |
| `NvGpu.GetEvidence` | go-nvgpu/gpu_adapter.go:51-66 | fails, with the collection error unchanged, if and only if collection fails; dereferences nil if and only if collection succeeds without a verifier nonce; otherwise returns the first record with `Val ++ Iat` recorded as its nonce and the caller's verifier nonce copied in |
| `Tpm.TpmCompositeAdapter.GetEvidenceIdentifier` | go-tpm/canonical_adapter.go:80-82 | the TPM adapter's identifier is always `"tpm"`, independent of its configuration |
| `NvGpu.GetEvidenceIdentifier` | go-nvgpu/gpu_adapter.go:25-27 | the GPU adapter's identifier is always `"nvgpu"` |
| `NvGpu.GpuNonce` | go-nvgpu/gpu_adapter.go:52-55 | with no verifier nonce the recorded GPU nonce is empty; otherwise its length is the sum of the lengths of `Val` and `Iat`, with `Val` first and `Iat` after it |
| `Composite.IdentifiersDistinct` | go-tpm/canonical_adapter.go:80-82 | the TPM adapter's identifier differs from the GPU adapter's (go-nvgpu/gpu_adapter.go:25-27), so they never collide in one composite document |
| `Composite.GpuNonceIsTpmHashPrefix` | go-nvgpu/gpu_adapter.go:52-55 | the recorded GPU nonce is exactly the part of the TPM hash input before the user data (go-tpm/canonical_adapter.go:135-143), so both adapters put `Val` then `Iat` first |
| `Connector.Attest` | go-connector/attest_test.go:25-118 | `Attest` returns the token if and only if the nonce parses, the adapter reports no error and the token parses; otherwise the first failing step decides the error: `NonceParseError`, then `EvidenceCollectionError` with the adapter's error, then `TokenParseError` |
| `Connector.AttestSucceeds` | go-connector/attest_test.go:25-47 | a good nonce, evidence with no error and a good token give the token and no error |
| `Connector.AttestNonceFailure` | go-connector/attest_test.go:49-70 | a nonce body that does not parse gives an error, whatever the adapter and token endpoint do |
| `Connector.AttestEvidenceFailure` | go-connector/attest_test.go:72-94 | an adapter error gives an error, even when the adapter also returned evidence and the token is good |
| `Connector.AttestTokenFailure` | go-connector/attest_test.go:96-118 | a token body that does not parse, after a good nonce and evidence, gives an error |

## Left out

- SHA-256 internals: the hash is a function parameter. Its determinism follows from its being a function. Collision resistance is not modelled, so `Tpm.HashInputSeparatesUserData` is stated about hash inputs rather than digests.
- The error returned by `h.Write` (go-tpm/canonical_adapter.go:146-149), and the check of `createNonceHash`'s error in `GetEvidence` (:92-94). Writing to a SHA-256 hash never fails, so these branches are unreachable and are not modelled.
- Opening the TPM device (`New`, `WithTpmDeviceType`, `WithTpmOwnerAuth`) and the `GetQuote`/`GetPcrs` commands: these are hardware calls. Their outcomes are parameters; the open outcome is a function of the configured device type and owner password. A failed open's handle is still used for `GetQuote` (go-tpm/canonical_adapter.go:85-96). What that call then does is not modelled: it may return an error or panic on a nil handle. `getQuote` and `getPcrs` stand for whatever the handle answers, and the model has no crash outcome for it.
- The values of `DefaultAkHandle`, `defaultPcrSelections` and `Linux`, and the definitions of `PcrSelection` and `TpmDeviceType`: go-tpm's declarations of these are not part of this model. They are constants whose values the proofs do not depend on.
- Caller-defined options that succeed and change fields arbitrarily are not modelled. `Failing` stands for any option whose closure returns an error; what such a closure changes before failing cannot be observed, because no adapter is returned.
- The vendor SDK (`NewGpuAttester`, `GetRemoteEvidence(123123)`): its answer is a parameter, and the session id it is called with is not modelled.
- Aliasing of Go slices is not modelled; the model works on values. `append(Val, Iat...)` may write into `Val`'s backing array (go-nvgpu/gpu_adapter.go:54). `WithPcrSelections` stores the caller's slice by reference (go-tpm/canonical_adapter.go:75), so a later change to that slice by the caller is visible to the adapter.
- `Attest`'s own implementation, transport failures and HTTP plumbing are left out; the code is not part of this model. The error kinds `NonceParseError`, `EvidenceCollectionError` and `TokenParseError` name which step failed. The tests assert only that some error is returned.
- The mock adapter machinery, error-message formatting and the JSON tags of the evidence records are left out; errors keep their cause instead of a formatted message.
