/**
 * The TPM composite adapter: construction through options applied in
 * order, the nonce-binding hash input, and the evidence pipeline
 * (hash, quote, PCRs, evidence record).
 *
 * The TPM itself, SHA-256 and the TPM device handle are collaborators:
 * their results are parameters.
 */
module Tpm {
  import opened Connector

  /** A PCR bank and the register indices selected from it. */
  datatype PcrSelection = PcrSelection(hash: int, pcrs: seq<int>)

  /** The kind of TPM device to open. */
  type TpmDeviceType = int

  // The values of these three are declared in go-tpm files that are not part
  // of this model; nothing below depends on what they are.
  const Linux: TpmDeviceType
  const DefaultAkHandle: int
  const DefaultPcrSelections: seq<PcrSelection>

  /** The four configurable fields of the adapter, as a value. */
  datatype TpmConfig = TpmConfig(akHandle: int, pcrSelections: seq<PcrSelection>, deviceType: TpmDeviceType, ownerAuth: string)

  /** What `NewCompositeAdapter` fills in before it applies any option. */
  const DefaultConfig: TpmConfig := TpmConfig(DefaultAkHandle, DefaultPcrSelections, Linux, "")

  /**
   * An option closure. The four `With*` options each set one field and never
   * fail; `Failing` stands for any option defined by a caller whose closure
   * returns an error.
   */
  datatype TpmAdapterOption =
    | WithOwnerAuth(auth: string)
    | WithDeviceType(device: TpmDeviceType)
    | WithAkHandle(handle: int)
    | WithPcrSelections(selections: seq<PcrSelection>)
    | Failing(err: Error)

  /** The effect of running one option closure on a configuration. */
  function ApplyOption(c: TpmConfig, o: TpmAdapterOption): (r: Result<TpmConfig, Error>)
    ensures r.Failure? <==> o.Failing?
    ensures o.Failing? ==> r.error == o.err
    ensures r.Success? ==> r.value.akHandle == (if o.WithAkHandle? then o.handle else c.akHandle)
    ensures r.Success? ==> r.value.pcrSelections == (if o.WithPcrSelections? then o.selections else c.pcrSelections)
    ensures r.Success? ==> r.value.deviceType == (if o.WithDeviceType? then o.device else c.deviceType)
    ensures r.Success? ==> r.value.ownerAuth == (if o.WithOwnerAuth? then o.auth else c.ownerAuth)
  {
    match o
    case WithOwnerAuth(a) => Success(c.(ownerAuth := a))
    case WithDeviceType(d) => Success(c.(deviceType := d))
    case WithAkHandle(h) => Success(c.(akHandle := h))
    case WithPcrSelections(s) => Success(c.(pcrSelections := s))
    case Failing(e) => Failure(e)
  }

  /** Runs the options left to right, stopping at the first error. */
  function ApplyAll(c: TpmConfig, opts: seq<TpmAdapterOption>): Result<TpmConfig, Error>
    decreases |opts|
  {
    if opts == [] then Success(c)
    else
      match ApplyOption(c, opts[0])
      case Failure(e) => Failure(e)
      case Success(c') => ApplyAll(c', opts[1..])
  }

  /** The configuration `NewCompositeAdapter(opts...)` builds, or its error. */
  function Configure(opts: seq<TpmAdapterOption>): Result<TpmConfig, Error>
  {
    ApplyAll(DefaultConfig, opts)
  }

  /** Running one more option after the others. */
  lemma {:induction false} ApplyAllSnoc(c: TpmConfig, opts: seq<TpmAdapterOption>, o: TpmAdapterOption)
    ensures ApplyAll(c, opts + [o]) ==
      match ApplyAll(c, opts)
      case Failure(e) => Failure(e)
      case Success(c') => ApplyOption(c', o)
    decreases |opts|
  {
    if opts == [] {
      assert [] + [o] == [o];
      assert [o][1..] == [];
    } else {
      assert (opts + [o])[0] == opts[0];
      assert (opts + [o])[1..] == opts[1..] + [o];
      match ApplyOption(c, opts[0])
      case Failure(_) =>
      case Success(c') => ApplyAllSnoc(c', opts[1..], o);
    }
  }

  /** Once an option has failed, the options after it change nothing. */
  lemma {:induction false} ApplyAllFailedPrefix(c: TpmConfig, opts: seq<TpmAdapterOption>, rest: seq<TpmAdapterOption>)
    requires ApplyAll(c, opts).Failure?
    ensures ApplyAll(c, opts + rest) == ApplyAll(c, opts)
    decreases |opts|
  {
    assert opts != [];
    assert (opts + rest)[0] == opts[0];
    assert (opts + rest)[1..] == opts[1..] + rest;
    match ApplyOption(c, opts[0])
    case Failure(_) =>
    case Success(c') => ApplyAllFailedPrefix(c', opts[1..], rest);
  }

  /** The value of a field after the options: the last option that sets it wins, else `default`. */
  function LastSet<T>(opts: seq<TpmAdapterOption>, pick: TpmAdapterOption -> Option<T>, default: T): T
    decreases |opts|
  {
    if opts == [] then default
    else
      match pick(opts[|opts| - 1])
      case Some(v) => v
      case None => LastSet(opts[..|opts| - 1], pick, default)
  }

  function AkHandleSet(o: TpmAdapterOption): Option<int> {
    if o.WithAkHandle? then Some(o.handle) else None
  }

  function PcrSelectionsSet(o: TpmAdapterOption): Option<seq<PcrSelection>> {
    if o.WithPcrSelections? then Some(o.selections) else None
  }

  function DeviceTypeSet(o: TpmAdapterOption): Option<TpmDeviceType> {
    if o.WithDeviceType? then Some(o.device) else None
  }

  function OwnerAuthSet(o: TpmAdapterOption): Option<string> {
    if o.WithOwnerAuth? then Some(o.auth) else None
  }

  ghost predicate NoneFails(opts: seq<TpmAdapterOption>) {
    forall i :: 0 <= i < |opts| ==> !opts[i].Failing?
  }

  /**
   * With options that do not fail, each field ends up with the value of the
   * last option that sets it, or its default when no option sets it.
   */
  lemma {:induction false} ConfigureLastWins(opts: seq<TpmAdapterOption>)
    requires NoneFails(opts)
    ensures Configure(opts) == Success(TpmConfig(
      LastSet(opts, AkHandleSet, DefaultAkHandle),
      LastSet(opts, PcrSelectionsSet, DefaultPcrSelections),
      LastSet(opts, DeviceTypeSet, Linux),
      LastSet(opts, OwnerAuthSet, "")))
    decreases |opts|
  {
    if opts != [] {
      var init, last := opts[..|opts| - 1], opts[|opts| - 1];
      assert init + [last] == opts;
      assert NoneFails(init) by {
        forall i | 0 <= i < |init| ensures !init[i].Failing? {
          assert init[i] == opts[i];
        }
      }
      ConfigureLastWins(init);
      ApplyAllSnoc(DefaultConfig, init, last);
    }
  }

  /** An option that fails makes the whole construction fail. */
  lemma {:induction false} ApplyAllFailsOnFailing(c: TpmConfig, opts: seq<TpmAdapterOption>, i: nat)
    requires i < |opts| && opts[i].Failing?
    ensures ApplyAll(c, opts).Failure?
    decreases |opts|
  {
    if i > 0 {
      match ApplyOption(c, opts[0])
      case Failure(_) =>
      case Success(c') =>
        assert opts[1..][i - 1] == opts[i];
        ApplyAllFailsOnFailing(c', opts[1..], i - 1);
    }
  }

  /** Construction succeeds exactly when no option fails. */
  lemma ConfigureSucceedsIff(opts: seq<TpmAdapterOption>)
    ensures Configure(opts).Success? <==> NoneFails(opts)
  {
    if NoneFails(opts) {
      ConfigureLastWins(opts);
    } else {
      var i :| 0 <= i < |opts| && opts[i].Failing?;
      ApplyAllFailsOnFailing(DefaultConfig, opts, i);
    }
  }

  /**
   * The first failing option decides the error, and the options after it
   * are never run: their values do not matter.
   */
  lemma {:induction false} ApplyAllFirstError(c: TpmConfig, opts: seq<TpmAdapterOption>, i: nat, rest: seq<TpmAdapterOption>)
    requires i < |opts| && opts[i].Failing?
    requires forall j :: 0 <= j < i ==> !opts[j].Failing?
    ensures ApplyAll(c, opts) == Failure(opts[i].err)
    ensures ApplyAll(c, opts[..i + 1] + rest) == Failure(opts[i].err)
    decreases i
  {
    if i > 0 {
      var c' := ApplyOption(c, opts[0]).value;
      forall j | 0 <= j < i - 1 ensures !opts[1..][j].Failing? {
        assert opts[1..][j] == opts[j + 1];
      }
      assert opts[1..][i - 1] == opts[i];
      ApplyAllFirstError(c', opts[1..], i - 1, rest);
      assert (opts[..i + 1] + rest)[0] == opts[0];
      assert (opts[..i + 1] + rest)[1..] == opts[1..][..i] + rest;
    } else {
      assert (opts[..1] + rest)[0] == opts[0];
    }
  }

  /** The hash input: `Val`, then `Iat`, then the user data. */
  function HashInput(verifierNonce: Option<VerifierNonce>, userData: seq<uint8>): seq<uint8>
  {
    match verifierNonce
    case None => userData
    case Some(n) => n.val + n.iat + userData
  }

  /** The digest handed to the quote: none at all when there is neither nonce nor user data. */
  function NonceDigest(verifierNonce: Option<VerifierNonce>, userData: seq<uint8>, sha256: seq<uint8> -> seq<uint8>): Option<seq<uint8>>
  {
    if verifierNonce.None? && |userData| == 0 then None
    else Some(sha256(HashInput(verifierNonce, userData)))
  }

  /** The byte layout of the hash input with a nonce: each part at its own offset. */
  lemma HashInputLayout(n: VerifierNonce, userData: seq<uint8>)
    ensures var s, a, b := HashInput(Some(n), userData), |n.val|, |n.val| + |n.iat|;
      && |s| == |n.val| + |n.iat| + |userData|
      && s[..a] == n.val
      && s[a..b] == n.iat
      && s[b..] == userData
  {
  }

  /** The same nonce with different user data gives a different hash input. */
  lemma HashInputSeparatesUserData(verifierNonce: Option<VerifierNonce>, u1: seq<uint8>, u2: seq<uint8>)
    requires u1 != u2
    ensures HashInput(verifierNonce, u1) != HashInput(verifierNonce, u2)
  {
    if verifierNonce.Some? {
      HashInputLayout(verifierNonce.value, u1);
      HashInputLayout(verifierNonce.value, u2);
    }
  }

  /**
   * The layout has no separators: a missing nonce with the nonce's bytes
   * as user data gives the same hash input as the nonce itself.
   */
  lemma HashInputNotSelfDelimiting(n: VerifierNonce, userData: seq<uint8>)
    ensures HashInput(None, n.val + n.iat + userData) == HashInput(Some(n), userData)
  {
  }

  /** `createNonceHash`: builds the hash input by successive appends and hashes it. */
  method CreateNonceHash(verifierNonce: Option<VerifierNonce>, userData: seq<uint8>, sha256: seq<uint8> -> seq<uint8>)
    returns (digest: Option<seq<uint8>>)
    ensures digest.None? <==> verifierNonce.None? && |userData| == 0
    ensures digest.Some? ==> digest.value == sha256(HashInput(verifierNonce, userData))
    ensures digest == NonceDigest(verifierNonce, userData, sha256)
  {
    if verifierNonce.None? && |userData| == 0 {
      return None;
    }
    var nonceBytes: seq<uint8> := [];
    if verifierNonce.Some? {
      nonceBytes := nonceBytes + verifierNonce.value.val;
      nonceBytes := nonceBytes + verifierNonce.value.iat;
    }
    if |userData| > 0 {
      nonceBytes := nonceBytes + userData;
    }
    assert nonceBytes == HashInput(verifierNonce, userData);
    digest := Some(sha256(nonceBytes));
  }

  /** What the TPM's quote command returns on success. */
  datatype Quote = Quote(quote: seq<uint8>, signature: seq<uint8>)

  /** The evidence record the adapter returns. */
  datatype TpmEvidence = TpmEvidence(
    quote: seq<uint8>,
    signature: seq<uint8>,
    pcrs: seq<uint8>,
    userData: seq<uint8>,
    verifierNonce: Option<VerifierNonce>)

  class TpmCompositeAdapter {
    var akHandle: int
    var pcrSelections: seq<PcrSelection>
    var deviceType: TpmDeviceType
    var ownerAuth: string

    /** The adapter with every field at its default. */
    constructor ()
      ensures Config() == DefaultConfig
    {
      akHandle := DefaultAkHandle;
      pcrSelections := DefaultPcrSelections;
      deviceType := Linux;
      ownerAuth := "";
    }

    function Config(): TpmConfig
      reads this
    {
      TpmConfig(akHandle, pcrSelections, deviceType, ownerAuth)
    }

    /** Runs one option closure on this adapter's fields. */
    method Apply(option: TpmAdapterOption) returns (err: Option<Error>)
      modifies this
      ensures ApplyOption(old(Config()), option) == if err.None? then Success(Config()) else Failure(err.value)
      ensures err.Some? ==> Config() == old(Config())
    {
      match option
      case WithOwnerAuth(a) =>
        ownerAuth := a;
        err := None;
      case WithDeviceType(d) =>
        deviceType := d;
        err := None;
      case WithAkHandle(h) =>
        akHandle := h;
        err := None;
      case WithPcrSelections(s) =>
        pcrSelections := s;
        err := None;
      case Failing(e) =>
        err := Some(e);
    }

    /** The key this adapter's evidence is registered under; it needs no adapter state. */
    static function GetEvidenceIdentifier(): (id: string)
      ensures id == "tpm"
    {
      "tpm"
    }

    /**
     * Hashes the nonce and user data, gets a quote over that digest with the
     * configured AK handle and PCR selections, reads the PCRs and assembles
     * the evidence.
     *
     * `openDevice` gives the error, if any, of opening the TPM device with the
     * configured device type and owner password. The adapter overwrites
     * that error without looking at it and goes on to use the handle it
     * got: `getQuote` and `getPcrs` are what that handle answers, so they
     * receive the open outcome, and nothing returns it unless one of them
     * does.
     */
    method GetEvidence(
      verifierNonce: Option<VerifierNonce>,
      userData: seq<uint8>,
      openDevice: (TpmDeviceType, string) -> Option<Error>,
      sha256: seq<uint8> -> seq<uint8>,
      getQuote: (Option<Error>, int, Option<seq<uint8>>, seq<PcrSelection>) -> Result<Quote, Error>,
      getPcrs: (Option<Error>, seq<PcrSelection>) -> Result<seq<uint8>, Error>)
      returns (r: Result<TpmEvidence, Error>)
      ensures var openResult := openDevice(deviceType, ownerAuth);
              var q := getQuote(openResult, akHandle, NonceDigest(verifierNonce, userData, sha256), pcrSelections);
              var p := getPcrs(openResult, pcrSelections);
        && (q.Failure? ==> r == Failure(QuoteFailed(akHandle, q.error)))
        && (q.Success? && p.Failure? ==> r == Failure(p.error))
        && (q.Success? && p.Success? ==>
              r == Success(TpmEvidence(q.value.quote, q.value.signature, p.value, userData, verifierNonce)))
    {
      var openResult := openDevice(deviceType, ownerAuth);

      var nonceHash := CreateNonceHash(verifierNonce, userData, sha256);

      var quoted := getQuote(openResult, akHandle, nonceHash, pcrSelections);
      if quoted.Failure? {
        return Failure(QuoteFailed(akHandle, quoted.error));
      }

      var pcrs := getPcrs(openResult, pcrSelections);
      if pcrs.Failure? {
        return Failure(pcrs.error);
      }

      r := Success(TpmEvidence(quoted.value.quote, quoted.value.signature, pcrs.value, userData, verifierNonce));
    }
  }

  /**
   * `NewCompositeAdapter`: starts from the defaults and applies the options
   * in order, returning no adapter and the error of the first one that fails.
   */
  method NewCompositeAdapter(opts: seq<TpmAdapterOption>) returns (r: Result<TpmCompositeAdapter, Error>)
    ensures r.Success? ==> fresh(r.value) && Configure(opts) == Success(r.value.Config())
    ensures r.Failure? ==> Configure(opts) == Failure(r.error)
  {
    var tca := new TpmCompositeAdapter();
    var i := 0;
    while i < |opts|
      invariant 0 <= i <= |opts|
      invariant ApplyAll(DefaultConfig, opts[..i]) == Success(tca.Config())
    {
      ApplyAllSnoc(DefaultConfig, opts[..i], opts[i]);
      assert opts[..i] + [opts[i]] == opts[..i + 1];
      var err := tca.Apply(opts[i]);
      if err.Some? {
        ApplyAllFailedPrefix(DefaultConfig, opts[..i + 1], opts[i + 1..]);
        assert opts[..i + 1] + opts[i + 1..] == opts;
        return Failure(err.value);
      }
      i := i + 1;
    }
    assert opts[..i] == opts;
    r := Success(tca);
  }
}
