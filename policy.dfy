/**
 * The SPIFFE verification policy as functions of a snapshot: the leaf
 * precheck, the choice of a trust store from the leaf's first URI SAN, the
 * SAN-matcher policy and the verdict of a whole chain, with its diagnostic
 * string and the failure counter it bumps. Generic X.509 path validation is
 * a parameter.
 */
module Policy {
  import opened Wrappers
  import opened X509
  import opened TrustDomain
  import opened Snapshot

  // ---------------------------------------------------------------------
  // Leaf precheck (section 5.2 of the SPIFFE X509-SVID standard)
  // ---------------------------------------------------------------------

  /** certificatePrecheck: a leaf must not be a CA and must not be allowed to sign certificates or CRLs. */
  function CertificatePrecheck(leaf: Cert): (ok: bool)
    ensures ok <==> leaf.extensionFlags & EXFLAG_CA == 0 &&
                    leaf.keyUsage & KU_CRL_SIGN == 0 &&
                    leaf.keyUsage & KU_KEY_CERT_SIGN == 0
  {
    if leaf.extensionFlags & EXFLAG_CA != 0 then false
    else leaf.keyUsage & (KU_CRL_SIGN | KU_KEY_CERT_SIGN) == 0
  }

  // ---------------------------------------------------------------------
  // Store lookup (getTrustBundleStore)
  // ---------------------------------------------------------------------

  /** The value of the first URI-type SAN entry, whatever its scheme. */
  function FirstUri(names: seq<GeneralName>): (r: Option<string>)
    ensures r.None? <==> forall i :: 0 <= i < |names| ==> names[i].kind != Uri
    ensures r.Some? ==>
              exists i :: 0 <= i < |names| && names[i].kind == Uri && names[i].value == r.value &&
                          forall j :: 0 <= j < i ==> names[j].kind != Uri
  {
    if names == [] then None
    else if names[0].kind == Uri then Some(names[0].value)
    else
      var r := FirstUri(names[1..]);
      assert forall i :: 1 <= i < |names| ==> names[i] == names[1..][i - 1];
      r
  }

  /** The trust domain of a leaf: that of its first URI SAN; empty when it has none. */
  function LeafTrustDomain(leaf: Cert): string
  {
    match leaf.subjectAltNames
    case None => ""
    case Some(names) =>
      match FirstUri(names)
      case None => ""
      case Some(uri) => ExtractTrustDomain(uri)
  }

  /** The store a leaf is verified against, if its trust domain is non-empty and configured. */
  function TrustBundleStoreFor(data: SpiffeData, leaf: Cert): Option<Store>
  {
    var domain := LeafTrustDomain(leaf);
    if domain == "" || domain !in data.trustBundleStores then None
    else Some(data.trustBundleStores[domain])
  }

  /**
   * Only the first URI-type SAN is consulted: the store chosen for a leaf is
   * decided by that one entry, and none is chosen when the leaf has no SAN
   * extension, no URI SAN, a URI whose trust domain is empty, or a domain
   * the snapshot does not have.
   */
  lemma LookupUsesFirstUriOnly(data: SpiffeData, leaf: Cert, i: nat)
    requires leaf.subjectAltNames.Some? && i < |leaf.subjectAltNames.value|
    requires leaf.subjectAltNames.value[i].kind == Uri
    requires forall j :: 0 <= j < i ==> leaf.subjectAltNames.value[j].kind != Uri
    ensures var domain := ExtractTrustDomain(leaf.subjectAltNames.value[i].value);
            TrustBundleStoreFor(data, leaf) ==
              if domain != "" && domain in data.trustBundleStores then Some(data.trustBundleStores[domain]) else None
  {
    var names := leaf.subjectAltNames.value;
    var r := FirstUri(names);
    var k :| 0 <= k < |names| && names[k].kind == Uri && names[k].value == r.value &&
             forall j :: 0 <= j < k ==> names[j].kind != Uri;
    assert k == i;
  }

  lemma NoStoreWithoutUri(data: SpiffeData, leaf: Cert)
    requires leaf.subjectAltNames.None? ||
             forall i :: 0 <= i < |leaf.subjectAltNames.value| ==> leaf.subjectAltNames.value[i].kind != Uri
    ensures TrustBundleStoreFor(data, leaf).None?
  {
  }

  // ---------------------------------------------------------------------
  // SAN-matcher policy
  // ---------------------------------------------------------------------

  /** How a configured matcher compares a SAN value. */
  datatype StringMatcher = Exact(text: string) | Prefix(text: string) | Suffix(text: string) | Contains(text: string)

  function StringMatches(m: StringMatcher, v: string): bool
  {
    match m
    case Exact(t) => v == t
    case Prefix(t) => |t| <= |v| && v[..|t|] == t
    case Suffix(t) => |t| <= |v| && v[|v| - |t|..] == t
    case Contains(t) => exists k :: 0 <= k <= |v| - |t| && OccursAt(t, v, k)
  }

  predicate OccursAt(t: string, v: string, k: nat)
    requires k + |t| <= |v|
  {
    v[k..k + |t|] == t
  }

  /** A configured SAN matcher: it matches only SAN entries of its own type. */
  datatype SanMatcher = SanMatcher(sanType: SanType, matcher: StringMatcher)

  predicate SanMatches(m: SanMatcher, n: GeneralName)
  {
    n.kind == m.sanType && StringMatches(m.matcher, n.value)
  }

  /** The configured matchers the validator keeps: the URI-type ones, in configuration order. */
  function UriMatchers(configured: seq<SanMatcher>): (r: seq<SanMatcher>)
    ensures forall m :: m in r <==> m in configured && m.sanType == Uri
    ensures |r| <= |configured|
  {
    if configured == [] then []
    else
      var last := configured[|configured| - 1];
      var init := configured[..|configured| - 1];
      assert configured == init + [last];
      UriMatchers(init) + (if last.sanType == Uri then [last] else [])
  }

  /** matchSubjectAltName: some SAN entry of the leaf satisfies some matcher. */
  predicate AnySanMatches(matchers: seq<SanMatcher>, leaf: Cert)
  {
    leaf.subjectAltNames.Some? &&
    exists i, k :: 0 <= i < |leaf.subjectAltNames.value| && 0 <= k < |matchers| &&
                   SanMatches(matchers[k], leaf.subjectAltNames.value[i])
  }

  /**
   * With only URI-type matchers kept, a leaf passes the SAN policy only
   * through a URI entry: its DNS, e-mail, IP and other names never count.
   */
  lemma OnlyUriSansCanMatch(configured: seq<SanMatcher>, leaf: Cert)
    requires AnySanMatches(UriMatchers(configured), leaf)
    ensures exists i :: 0 <= i < |leaf.subjectAltNames.value| && leaf.subjectAltNames.value[i].kind == Uri
  {
    var names, kept := leaf.subjectAltNames.value, UriMatchers(configured);
    var i, k :| 0 <= i < |names| && 0 <= k < |kept| && SanMatches(kept[k], names[i]);
    assert kept[k] in kept;
  }

  // ---------------------------------------------------------------------
  // The verdict on a chain
  // ---------------------------------------------------------------------

  /** Verification parameters from the TLS context, passed through to path validation unchanged. */
  datatype VerifyParams = VerifyParams(checkTime: int, purpose: int, flags: bv32)

  /** What generic path validation reports: the context could not be set up, the chain verified, or a diagnostic. */
  datatype PathOutcome = ContextInitFailed | PathVerified | PathRejected(diagnostic: string)

  /**
   * X509_STORE_CTX_init + X509_verify_cert against one store, for a leaf and
   * its chain; the flag says whether expired certificates are tolerated.
   */
  type PathValidator = (Store, Cert, seq<Cert>, VerifyParams, bool) -> PathOutcome

  const ErrorPrefix: string := "verify cert failed: "
  const EmptyChainError: string := "verify cert failed: empty cert chain"
  const PrecheckError: string := "verify cert failed: cert precheck"
  const NoStoreError: string := "verify cert failed: no trust bundle store"
  const ContextInitError: string := "verify cert failed: init and setup X509_STORE_CTX"
  const SanMatchError: string := "verify cert failed: SAN match"

  /** The two failure counters: `fail_verify_error_` and `fail_verify_san_`. */
  datatype FailureCounter = FailVerifyError | FailVerifySan

  datatype ChainVerdict = ChainAccepted | ChainRejected(details: string, counter: FailureCounter)

  /** The SAN step: with no matchers configured it always passes. */
  predicate SanPolicyHolds(matchers: seq<SanMatcher>, leaf: Cert)
  {
    matchers == [] || AnySanMatches(matchers, leaf)
  }

  /**
   * verifyCertChainUsingTrustBundleStore: precheck, store lookup, path
   * validation, SAN policy, in that order; the first failing step decides
   * the diagnostic and the counter.
   */
  function VerifyWithTrustBundleStore(data: SpiffeData, matchers: seq<SanMatcher>, allowExpired: bool,
                                      validate: PathValidator, leaf: Cert, chain: seq<Cert>,
                                      params: VerifyParams): (v: ChainVerdict)
    ensures v.ChainAccepted? <==>
              CertificatePrecheck(leaf) && TrustBundleStoreFor(data, leaf).Some? &&
              validate(TrustBundleStoreFor(data, leaf).value, leaf, chain, params, allowExpired) == PathVerified &&
              SanPolicyHolds(matchers, leaf)
    ensures v.ChainRejected? && v.counter == FailVerifySan <==> v == ChainRejected(SanMatchError, FailVerifySan)
  {
    if !CertificatePrecheck(leaf) then ChainRejected(PrecheckError, FailVerifyError)
    else match TrustBundleStoreFor(data, leaf)
      case None => ChainRejected(NoStoreError, FailVerifyError)
      case Some(store) =>
        match validate(store, leaf, chain, params, allowExpired)
        case ContextInitFailed => ChainRejected(ContextInitError, FailVerifyError)
        case PathRejected(diagnostic) => ChainRejected(ErrorPrefix + diagnostic, FailVerifyError)
        case PathVerified =>
          if SanPolicyHolds(matchers, leaf) then ChainAccepted
          else ChainRejected(SanMatchError, FailVerifySan)
  }

  datatype ValidationStatus = Successful | Failed

  datatype ClientValidationStatus = NotValidated | Validated | ClientFailed

  /** ValidationResults, without the TLS alert, which this validator never sets. */
  datatype ValidationResults = ValidationResults(status: ValidationStatus,
                                                 detailedStatus: ClientValidationStatus,
                                                 errorDetails: Option<string>)

  /** doVerifyCertChain: an empty chain fails at once; otherwise the first certificate is the leaf. */
  function DoVerifyCertChain(data: SpiffeData, matchers: seq<SanMatcher>, allowExpired: bool,
                             validate: PathValidator, chain: seq<Cert>,
                             params: VerifyParams): (r: ValidationResults)
    ensures r.status == Successful <==>
              chain != [] && CertificatePrecheck(chain[0]) && TrustBundleStoreFor(data, chain[0]).Some? &&
              validate(TrustBundleStoreFor(data, chain[0]).value, chain[0], chain, params, allowExpired) == PathVerified &&
              SanPolicyHolds(matchers, chain[0])
    ensures r.status == Successful <==> r.errorDetails.None?
    ensures r.status == Successful <==> r.detailedStatus == Validated
    ensures chain == [] ==> r.detailedStatus == NotValidated
    ensures chain != [] && r.status == Failed ==> r.detailedStatus == ClientFailed
  {
    if chain == [] then ValidationResults(Failed, NotValidated, Some(EmptyChainError))
    else match VerifyWithTrustBundleStore(data, matchers, allowExpired, validate, chain[0], chain, params)
      case ChainAccepted => ValidationResults(Successful, Validated, None)
      case ChainRejected(details, _) => ValidationResults(Failed, ClientFailed, Some(details))
  }

  /** The counter a call to doVerifyCertChain bumps, if any. */
  function CounterBumped(data: SpiffeData, matchers: seq<SanMatcher>, allowExpired: bool,
                         validate: PathValidator, chain: seq<Cert>, params: VerifyParams): Option<FailureCounter>
  {
    if chain == [] then Some(FailVerifyError)
    else match VerifyWithTrustBundleStore(data, matchers, allowExpired, validate, chain[0], chain, params)
      case ChainAccepted => None
      case ChainRejected(_, counter) => Some(counter)
  }

  /**
   * The order of the checks and what each failure reports. An empty chain,
   * then a leaf that fails the precheck, then a leaf without a configured
   * trust domain fail with their own diagnostic whatever the later steps
   * would say. Once a store is found, a context that cannot be set up and a
   * path that does not verify report their own diagnostic, and a verified
   * path whose leaf fails the SAN policy reports the SAN-match diagnostic.
   * Only that last failure bumps the SAN counter; every other failure bumps
   * the error counter, and success bumps none.
   */
  lemma VerificationOrder(data: SpiffeData, matchers: seq<SanMatcher>, allowExpired: bool,
                          validate: PathValidator, chain: seq<Cert>, params: VerifyParams)
    ensures var r := DoVerifyCertChain(data, matchers, allowExpired, validate, chain, params);
            var bumped := CounterBumped(data, matchers, allowExpired, validate, chain, params);
            (bumped.None? <==> r.status == Successful) &&
            (chain == [] ==>
               r.errorDetails == Some(EmptyChainError) && bumped == Some(FailVerifyError)) &&
            (chain != [] && !CertificatePrecheck(chain[0]) ==>
               r.errorDetails == Some(PrecheckError) && bumped == Some(FailVerifyError)) &&
            (chain != [] && CertificatePrecheck(chain[0]) && TrustBundleStoreFor(data, chain[0]).None? ==>
               r.errorDetails == Some(NoStoreError) && bumped == Some(FailVerifyError))
    ensures var r := DoVerifyCertChain(data, matchers, allowExpired, validate, chain, params);
            var bumped := CounterBumped(data, matchers, allowExpired, validate, chain, params);
            chain != [] && CertificatePrecheck(chain[0]) && TrustBundleStoreFor(data, chain[0]).Some? ==>
              var path := validate(TrustBundleStoreFor(data, chain[0]).value, chain[0], chain, params, allowExpired);
              (path.ContextInitFailed? ==>
                 r.errorDetails == Some(ContextInitError) && bumped == Some(FailVerifyError)) &&
              (path.PathRejected? ==>
                 r.errorDetails == Some(ErrorPrefix + path.diagnostic) && bumped == Some(FailVerifyError)) &&
              (path.PathVerified? && !SanPolicyHolds(matchers, chain[0]) ==>
                 r.errorDetails == Some(SanMatchError) && bumped == Some(FailVerifySan))
  {
  }

  /** A leaf carrying the CA basic constraint is rejected, whatever the snapshot, the chain or path validation say. */
  lemma CaLeafAlwaysRejected(data: SpiffeData, matchers: seq<SanMatcher>, allowExpired: bool,
                             validate: PathValidator, chain: seq<Cert>, params: VerifyParams)
    requires chain != [] && chain[0].extensionFlags & EXFLAG_CA != 0
    ensures DoVerifyCertChain(data, matchers, allowExpired, validate, chain, params) ==
            ValidationResults(Failed, ClientFailed, Some(PrecheckError))
  {
  }
}
