/**
 * The SPIFFE certificate validator object: per-worker snapshot slots, the
 * construction from configuration, the broadcast and the deferred reload of
 * snapshots, the verification entry points with their failure counters,
 * and the aggregates over the CA list (expiry, first CA, client CA names,
 * session-id digest input).
 *
 * A worker thread is named by its slot index `w`; whatever a method reads
 * through the thread-local slot, it reads from `slots[w]`.
 */
module Validator {
  import opened Wrappers
  import opened X509
  import opened TrustDomain
  import opened Snapshot
  import opened BundleMap
  import opened StaticDomains
  import opened Policy

  /** SSL_VERIFY_PEER and SSL_VERIFY_FAIL_IF_NO_PEER_CERT. */
  const SSL_VERIFY_PEER: bv32 := 0x01
  const SSL_VERIFY_FAIL_IF_NO_PEER_CERT: bv32 := 0x02

  /** The length of a SHA-256 digest. */
  const SHA256_DIGEST_LENGTH: nat := 32

  /** The SSL statistics the validator bumps; shared with its owner, so a separate object. */
  class SslStats {
    var failVerifyError: nat
    var failVerifySan: nat

    constructor()
      ensures failVerifyError == 0 && failVerifySan == 0
    {
      failVerifyError := 0;
      failVerifySan := 0;
    }
  }

  /** One worker's slot: the snapshot that worker reads, absent until the first broadcast. */
  class ThreadLocalSpiffeState {
    var spiffeData: Option<SpiffeData>

    constructor()
      ensures spiffeData.None?
    {
      spiffeData := None;
    }

    /** The snapshot this worker reads; absent only before the first broadcast. */
    function GetSpiffeData(): (r: Option<SpiffeData>)
      reads this
      ensures r == spiffeData
    {
      spiffeData
    }

    /** Points this worker at a new snapshot: the slot then reads exactly that snapshot. */
    method UpdateSpiffeData(newData: SpiffeData)
      modifies this
      ensures GetSpiffeData() == Some(newData)
    {
      spiffeData := Some(newData);
    }
  }

  /** `n` fresh, distinct, empty slots: one per thread. */
  method CreateSlots(n: nat) returns (slots: seq<ThreadLocalSpiffeState>)
    ensures |slots| == n
    ensures forall i :: 0 <= i < n ==> fresh(slots[i]) && slots[i].spiffeData.None?
    ensures forall i, j :: 0 <= i < j < n ==> slots[i] != slots[j]
  {
    slots := [];
    while |slots| < n
      invariant |slots| <= n
      invariant forall i :: 0 <= i < |slots| ==> fresh(slots[i]) && slots[i].spiffeData.None?
      invariant forall i, j :: 0 <= i < j < |slots| ==> slots[i] != slots[j]
    {
      var slot := new ThreadLocalSpiffeState();
      slots := slots + [slot];
    }
  }

  /** The first certificate and the `ca_file_name_` label: what getCaCertInformation describes. */
  datatype CaCertInfo = CaCertInfo(cert: Cert, caFileName: string)

  class SpiffeValidator {
    /** The thread-local slot, one state object per thread. */
    const slots: seq<ThreadLocalSpiffeState>
    /** `spiffe_data_`: the snapshot installed at construction; a reload does not replace it. */
    var spiffeData: SpiffeData
    const caFileName: string
    const trustBundleFileName: string
    /** The URI-type SAN matchers kept from the configuration. */
    const matchers: seq<SanMatcher>
    const allowExpiredCertificate: bool
    /** Whether a file watcher on the bundle-map file is installed. */
    const watching: bool
    const stats: SslStats
    /** Snapshots posted to the main-thread dispatcher and not yet broadcast, oldest first. */
    var pendingUpdates: seq<SpiffeData>

    /** At least one thread, and each thread has its own slot object. */
    predicate SlotsWellFormed()
    {
      |slots| > 0 && forall i, j :: 0 <= i < j < |slots| ==> slots[i] != slots[j]
    }

    /** Every slot has received a snapshot. */
    ghost predicate Valid()
      reads this, slots
    {
      SlotsWellFormed() && forall w :: 0 <= w < |slots| ==> slots[w].spiffeData.Some?
    }

    /** The snapshot worker `w` reads (`tls_->get()->getSpiffeData()`). */
    function WorkerData(w: nat): SpiffeData
      requires Valid() && w < |slots|
      reads this, slots
    {
      slots[w].spiffeData.value
    }

    /** getSpiffeData: the validator's own `spiffe_data_`, not any worker's slot. */
    function GetSpiffeData(): (r: SpiffeData)
      reads this
      ensures r == spiffeData
    {
      spiffeData
    }

    /** getCaFileName: the label recorded at construction. */
    function GetCaFileName(): (r: string)
      ensures r == caFileName
    {
      caFileName
    }

    /** The validator with no configuration: no stores, no CA certificates, on every thread. */
    constructor(stats: SslStats, threads: nat)
      requires threads > 0
      ensures this.stats == stats && |slots| == threads && Valid()
      ensures forall w :: 0 <= w < threads ==> fresh(slots[w]) && WorkerData(w) == EmptySpiffeData
      ensures spiffeData == EmptySpiffeData && caFileName == "" && trustBundleFileName == ""
      ensures matchers == [] && !allowExpiredCertificate && !watching && pendingUpdates == []
    {
      var created := CreateSlots(threads);
      slots := created;
      spiffeData := EmptySpiffeData;
      caFileName := "";
      trustBundleFileName := "";
      matchers := [];
      allowExpiredCertificate := false;
      watching := false;
      this.stats := stats;
      pendingUpdates := [];
      new;
      UpdateSpiffeData(spiffeData);
    }

    /** The tail of the configured constructor, once the snapshot is loaded: fresh slots, then a broadcast. */
    constructor Install(stats: SslStats, threads: nat, matchers: seq<SanMatcher>, allowExpired: bool,
                        data: SpiffeData, caFileName: string, trustBundleFileName: string, watching: bool)
      requires threads > 0
      ensures this.stats == stats && |slots| == threads && Valid()
      ensures forall w :: 0 <= w < threads ==> fresh(slots[w]) && WorkerData(w) == data
      ensures spiffeData == data && this.caFileName == caFileName && this.trustBundleFileName == trustBundleFileName
      ensures this.matchers == matchers && allowExpiredCertificate == allowExpired && this.watching == watching
      ensures pendingUpdates == []
    {
      var created := CreateSlots(threads);
      slots := created;
      spiffeData := data;
      this.caFileName := caFileName;
      this.trustBundleFileName := trustBundleFileName;
      this.matchers := matchers;
      allowExpiredCertificate := allowExpired;
      this.watching := watching;
      this.stats := stats;
      pendingUpdates := [];
      new;
      UpdateSpiffeData(data);
    }

    // -------------------------------------------------------------------
    // Snapshot distribution
    // -------------------------------------------------------------------

    /** updateSpiffeData: every thread's slot is pointed at the new snapshot. */
    method UpdateSpiffeData(newData: SpiffeData)
      requires SlotsWellFormed()
      modifies slots
      ensures Valid()
      ensures forall w :: 0 <= w < |slots| ==> WorkerData(w) == newData
    {
      var i := 0;
      while i < |slots|
        invariant 0 <= i <= |slots|
        invariant forall k :: 0 <= k < i ==> slots[k].spiffeData == Some(newData)
      {
        slots[i].UpdateSpiffeData(newData);
        i := i + 1;
      }
    }

    /** updateSpiffeDataAsync: the broadcast is posted to the main-thread dispatcher; no slot changes yet. */
    method UpdateSpiffeDataAsync(newData: SpiffeData)
      modifies this`pendingUpdates
      ensures pendingUpdates == old(pendingUpdates) + [newData]
      ensures GetSpiffeData() == old(GetSpiffeData())
    {
      pendingUpdates := pendingUpdates + [newData];
    }

    /** The main-thread dispatcher runs the oldest posted update: every slot then holds that snapshot. */
    method RunPostedUpdate()
      requires Valid() && pendingUpdates != []
      modifies this`pendingUpdates, slots
      ensures Valid()
      ensures pendingUpdates == old(pendingUpdates)[1..]
      ensures forall w :: 0 <= w < |slots| ==> WorkerData(w) == old(pendingUpdates)[0]
      ensures GetSpiffeData() == old(GetSpiffeData())
    {
      var next := pendingUpdates[0];
      pendingUpdates := pendingUpdates[1..];
      UpdateSpiffeData(next);
    }

    /**
     * The file watcher's callback: reload the bundle map and, when it loads,
     * post its broadcast; a file that fails to load changes nothing, so the
     * workers keep the last snapshot that loaded.
     */
    method OnTrustBundleModified(file: Option<BundleDocument>, decode: Base64Decoder, parse: DerParser)
      requires watching
      modifies this`pendingUpdates
      ensures GetSpiffeData() == old(GetSpiffeData())
      ensures pendingUpdates == old(pendingUpdates) +
                (match BundleFromFile(file, decode, parse)
                 case None => []
                 case Some(data) => [data])
    {
      var loaded := LoadTrustBundleMapFile(file, decode, parse);
      if loaded.Some? {
        UpdateSpiffeDataAsync(loaded.value);
      }
    }

    // -------------------------------------------------------------------
    // Verification
    // -------------------------------------------------------------------

    /** getTrustBundleStore: the first URI SAN decides the trust domain; its store in worker `w`'s snapshot, if any. */
    method GetTrustBundleStore(leaf: Cert, w: nat) returns (r: Option<Store>)
      requires Valid() && w < |slots|
      ensures r == TrustBundleStoreFor(WorkerData(w), leaf)
    {
      if leaf.subjectAltNames.None? {
        return None;
      }
      var names := leaf.subjectAltNames.value;
      var trustDomain := "";
      var i := 0;
      while i < |names|
        invariant 0 <= i <= |names|
        invariant forall j :: 0 <= j < i ==> names[j].kind != Uri
      {
        if names[i].kind == Uri {
          trustDomain := ExtractTrustDomain(names[i].value);
          LookupUsesFirstUriOnly(WorkerData(w), leaf, i);
          break;
        }
        i := i + 1;
      }
      if trustDomain == "" {
        return None;
      }
      var data := slots[w].spiffeData.value;
      if trustDomain in data.trustBundleStores {
        return Some(data.trustBundleStores[trustDomain]);
      }
      return None;
    }

    /**
     * matchSubjectAltName: some SAN entry of the leaf satisfies some
     * configured matcher. A leaf without a SAN extension matches nothing.
     */
    method MatchSubjectAltName(leaf: Cert) returns (r: bool)
      ensures r == AnySanMatches(matchers, leaf)
    {
      if leaf.subjectAltNames.None? {
        return false;
      }
      var names := leaf.subjectAltNames.value;
      var i := 0;
      while i < |names|
        invariant 0 <= i <= |names|
        invariant forall a, k :: 0 <= a < i && 0 <= k < |matchers| ==> !SanMatches(matchers[k], names[a])
      {
        var k := 0;
        while k < |matchers|
          invariant 0 <= k <= |matchers|
          invariant forall j :: 0 <= j < k ==> !SanMatches(matchers[j], names[i])
        {
          if SanMatches(matchers[k], names[i]) {
            return true;
          }
          k := k + 1;
        }
        i := i + 1;
      }
      return false;
    }

    /**
     * verifyCertChainUsingTrustBundleStore: the verdict of the policy on
     * worker `w`'s snapshot; a failure reports its diagnostic and bumps the
     * SAN counter for a SAN mismatch and the error counter otherwise.
     */
    method VerifyCertChainUsingTrustBundleStore(leaf: Cert, chain: seq<Cert>, params: VerifyParams,
                                                validate: PathValidator, w: nat)
      returns (ok: bool, errorDetails: string)
      requires Valid() && w < |slots|
      modifies stats
      ensures var v := VerifyWithTrustBundleStore(WorkerData(w), matchers, allowExpiredCertificate,
                                                  validate, leaf, chain, params);
              ok == v.ChainAccepted? &&
              errorDetails == (if ok then "" else v.details) &&
              stats.failVerifyError == old(stats.failVerifyError) + Bump(v, FailVerifyError) &&
              stats.failVerifySan == old(stats.failVerifySan) + Bump(v, FailVerifySan)
    {
      if !CertificatePrecheck(leaf) {
        stats.failVerifyError := stats.failVerifyError + 1;
        return false, PrecheckError;
      }
      var store := GetTrustBundleStore(leaf, w);
      if store.None? {
        stats.failVerifyError := stats.failVerifyError + 1;
        return false, NoStoreError;
      }
      var outcome := validate(store.value, leaf, chain, params, allowExpiredCertificate);
      if outcome.ContextInitFailed? {
        stats.failVerifyError := stats.failVerifyError + 1;
        return false, ContextInitError;
      }
      if outcome.PathRejected? {
        stats.failVerifyError := stats.failVerifyError + 1;
        return false, ErrorPrefix + outcome.diagnostic;
      }
      var sanMatch := true;
      if matchers != [] {
        sanMatch := MatchSubjectAltName(leaf);
      }
      if !sanMatch {
        stats.failVerifySan := stats.failVerifySan + 1;
        return false, SanMatchError;
      }
      return true, "";
    }

    /**
     * doVerifyCertChain: the result is the policy's verdict on worker `w`'s
     * snapshot, and exactly the counter the policy names is bumped once.
     */
    method DoVerifyCertChain(chain: seq<Cert>, params: VerifyParams, validate: PathValidator, w: nat)
      returns (r: ValidationResults)
      requires Valid() && w < |slots|
      modifies stats
      ensures r == Policy.DoVerifyCertChain(WorkerData(w), matchers, allowExpiredCertificate, validate, chain, params)
      ensures var bumped := CounterBumped(WorkerData(w), matchers, allowExpiredCertificate, validate, chain, params);
              stats.failVerifyError == old(stats.failVerifyError) + (if bumped == Some(FailVerifyError) then 1 else 0) &&
              stats.failVerifySan == old(stats.failVerifySan) + (if bumped == Some(FailVerifySan) then 1 else 0)
    {
      if chain == [] {
        stats.failVerifyError := stats.failVerifyError + 1;
        return ValidationResults(Failed, NotValidated, Some(EmptyChainError));
      }
      var verified, errorDetails := VerifyCertChainUsingTrustBundleStore(chain[0], chain, params, validate, w);
      if verified {
        return ValidationResults(Successful, Validated, None);
      }
      return ValidationResults(Failed, ClientFailed, Some(errorDetails));
    }

    /**
     * initializeSslContexts: peers must present a certificate, and the
     * handshake fails without one; no other verify-mode bit is set.
     */
    function InitializeSslContexts(): (mode: bv32)
      ensures mode & SSL_VERIFY_PEER != 0 && mode & SSL_VERIFY_FAIL_IF_NO_PEER_CERT != 0
      ensures mode & !(SSL_VERIFY_PEER | SSL_VERIFY_FAIL_IF_NO_PEER_CERT) == 0
    {
      SSL_VERIFY_PEER | SSL_VERIFY_FAIL_IF_NO_PEER_CERT
    }

    // -------------------------------------------------------------------
    // Aggregates over the CA list
    // -------------------------------------------------------------------

    /**
     * daysUntilFirstCertExpires: the fewest days left over worker `w`'s CA
     * certificates, the largest 32-bit value when there are none, and
     * nothing when the expiry of any of them is unknown.
     */
    method DaysUntilFirstCertExpires(w: nat) returns (r: Option<u32>)
      requires Valid() && w < |slots|
      ensures var cas := WorkerData(w).caCerts;
              (r.None? <==> exists i :: 0 <= i < |cas| && cas[i].daysToExpiry.None?) &&
              (r.Some? && cas == [] ==> r.value == U32_MAX) &&
              (r.Some? && cas != [] ==> exists i :: 0 <= i < |cas| && cas[i].daysToExpiry == r) &&
              (r.Some? ==> forall i :: 0 <= i < |cas| ==> r.value <= cas[i].daysToExpiry.value)
    {
      var cas := slots[w].spiffeData.value.caCerts;
      if cas == [] {
        return Some(U32_MAX);
      }
      var ret := U32_MAX;
      var i := 0;
      while i < |cas|
        invariant 0 <= i <= |cas|
        invariant forall j :: 0 <= j < i ==> cas[j].daysToExpiry.Some? && ret <= cas[j].daysToExpiry.value
        invariant ret == U32_MAX || exists j :: 0 <= j < i && cas[j].daysToExpiry == Some(ret)
      {
        var days := cas[i].daysToExpiry;
        if days.None? {
          return None;
        } else if days.value < ret {
          ret := days.value;
        }
        i := i + 1;
      }
      if ret == U32_MAX {
        assert cas[0].daysToExpiry == Some(U32_MAX);
      }
      return Some(ret);
    }

    /** getCaCertInformation: worker `w`'s first CA certificate with `ca_file_name_`, or nothing. */
    method GetCaCertInformation(w: nat) returns (r: Option<CaCertInfo>)
      requires Valid() && w < |slots|
      ensures r.None? <==> WorkerData(w).caCerts == []
      ensures r.Some? ==> r.value.cert == WorkerData(w).caCerts[0] && r.value.caFileName == caFileName
    {
      var cas := slots[w].spiffeData.value.caCerts;
      if cas == [] {
        return None;
      }
      return Some(CaCertInfo(cas[0], GetCaFileName()));
    }

    /**
     * addClientValidationContext: the client CA name list, the subjects of
     * worker `w`'s CA certificates in order with repeats dropped.
     */
    method AddClientValidationContext(w: nat) returns (clientCaNames: seq<string>)
      requires Valid() && w < |slots|
      ensures clientCaNames == DistinctSubjects(WorkerData(w).caCerts)
    {
      var cas := slots[w].spiffeData.value.caCerts;
      clientCaNames := [];
      var i := 0;
      while i < |cas|
        invariant 0 <= i <= |cas|
        invariant clientCaNames == DistinctSubjects(cas[..i])
      {
        assert cas[..i + 1][..i] == cas[..i];
        var name := cas[i].subject;
        if name !in clientCaNames {
          clientCaNames := clientCaNames + [name];
        }
        i := i + 1;
      }
      assert cas[..|cas|] == cas;
    }

    /**
     * updateDigestForSessionId: the SHA-256 fingerprint of each of worker
     * `w`'s CA certificates, in order, is fed to the digest; the digest is
     * modelled by the bytes fed to it.
     */
    method UpdateDigestForSessionId(w: nat, fingerprint: Cert -> seq<byte>, fed: seq<byte>) returns (r: seq<byte>)
      requires Valid() && w < |slots|
      requires forall c :: |fingerprint(c)| == SHA256_DIGEST_LENGTH
      ensures r == fed + DigestInput(WorkerData(w).caCerts, fingerprint)
      ensures |r| == |fed| + SHA256_DIGEST_LENGTH * |WorkerData(w).caCerts|
    {
      var cas := slots[w].spiffeData.value.caCerts;
      r := fed;
      var i := 0;
      while i < |cas|
        invariant 0 <= i <= |cas|
        invariant r == fed + DigestInput(cas[..i], fingerprint)
      {
        assert cas[..i + 1][..i] == cas[..i];
        r := r + fingerprint(cas[i]);
        i := i + 1;
      }
      assert cas[..|cas|] == cas;
    }
  }

  /** 1 when the verdict bumps `counter`, else 0. */
  function Bump(v: ChainVerdict, counter: FailureCounter): nat
  {
    if v.ChainRejected? && v.counter == counter then 1 else 0
  }

  /** The subjects of `cas` in order, each kept at its first occurrence only. */
  function DistinctSubjects(cas: seq<Cert>): (r: seq<string>)
    ensures forall k :: 0 <= k < |r| ==> exists i :: 0 <= i < |cas| && cas[i].subject == r[k]
    ensures forall i :: 0 <= i < |cas| ==> cas[i].subject in r
    ensures forall a, b :: 0 <= a < b < |r| ==> r[a] != r[b]
  {
    if cas == [] then []
    else
      var init := cas[..|cas| - 1];
      var prior := DistinctSubjects(init);
      var name := cas[|cas| - 1].subject;
      assert forall i :: 0 <= i < |init| ==> init[i] == cas[i];
      if name in prior then prior else prior + [name]
  }

  /** The index of the first certificate of `cas` whose subject is `s`. */
  function FirstSubjectIndex(cas: seq<Cert>, s: string): (k: nat)
    requires exists i :: 0 <= i < |cas| && cas[i].subject == s
    ensures k < |cas| && cas[k].subject == s
    ensures forall j :: 0 <= j < k ==> cas[j].subject != s
  {
    if cas[0].subject == s then 0
    else
      assert forall i :: 1 <= i < |cas| ==> cas[i] == cas[1..][i - 1];
      1 + FirstSubjectIndex(cas[1..], s)
  }

  /** A subject of a certificate before the last one is first seen at the same index without the last one. */
  lemma FirstSubjectIndexInit(cas: seq<Cert>, s: string, i: nat)
    requires i < |cas| - 1 && cas[i].subject == s
    ensures FirstSubjectIndex(cas, s) == FirstSubjectIndex(cas[..|cas| - 1], s) < |cas| - 1
  {
    var init := cas[..|cas| - 1];
    assert init[i].subject == s;
    var k := FirstSubjectIndex(init, s);
    assert cas[k] == init[k];
  }

  /** Every subject before the last certificate is already listed without it. */
  lemma InitSubjectListed(cas: seq<Cert>, j: nat)
    requires j < |cas| - 1
    ensures cas[j].subject in DistinctSubjects(cas[..|cas| - 1])
  {
    assert cas[..|cas| - 1][j] == cas[j];
  }

  /**
   * The client CA names come in first-seen order: of two names, the one
   * listed first belongs to the earlier certificate.
   */
  lemma {:induction false} DistinctSubjectsFirstSeen(cas: seq<Cert>, a: nat, b: nat)
    requires a < b < |DistinctSubjects(cas)|
    ensures FirstSubjectIndex(cas, DistinctSubjects(cas)[a]) < FirstSubjectIndex(cas, DistinctSubjects(cas)[b])
    decreases |cas|, 1
  {
    var init := cas[..|cas| - 1];
    var prior := DistinctSubjects(init);
    var name := cas[|cas| - 1].subject;
    var r := DistinctSubjects(cas);
    if name in prior {
      assert r == prior;
      PriorNamesFirstSeen(cas, a, b);
    } else {
      assert r == prior + [name];
      if b < |prior| {
        PriorNamesFirstSeen(cas, a, b);
      } else {
        var ia := ListedIndex(init, a);
        FirstSubjectIndexInit(cas, cas[ia].subject, ia);
        NewNameFirstSeenLast(cas);
      }
    }
  }

  /** A certificate whose subject is the `k`-th listed name. */
  lemma ListedIndex(cas: seq<Cert>, k: nat) returns (i: nat)
    requires k < |DistinctSubjects(cas)|
    ensures i < |cas| && cas[i].subject == DistinctSubjects(cas)[k]
  {
    i :| 0 <= i < |cas| && cas[i].subject == DistinctSubjects(cas)[k];
  }

  /** Two names already listed before the last certificate keep their relative order. */
  lemma {:induction false} PriorNamesFirstSeen(cas: seq<Cert>, a: nat, b: nat)
    requires cas != [] && a < b < |DistinctSubjects(cas[..|cas| - 1])|
    ensures var prior := DistinctSubjects(cas[..|cas| - 1]);
            FirstSubjectIndex(cas, prior[a]) < FirstSubjectIndex(cas, prior[b])
    decreases |cas|, 0
  {
    var init := cas[..|cas| - 1];
    var ia := ListedIndex(init, a);
    var ib := ListedIndex(init, b);
    assert init[ia] == cas[ia] && init[ib] == cas[ib];
    FirstSubjectIndexInit(cas, cas[ia].subject, ia);
    FirstSubjectIndexInit(cas, cas[ib].subject, ib);
    DistinctSubjectsFirstSeen(init, a, b);
  }

  /** A name first listed for the last certificate is first seen there. */
  lemma NewNameFirstSeenLast(cas: seq<Cert>)
    requires cas != [] && cas[|cas| - 1].subject !in DistinctSubjects(cas[..|cas| - 1])
    ensures FirstSubjectIndex(cas, cas[|cas| - 1].subject) == |cas| - 1
  {
    forall j | 0 <= j < |cas| - 1
      ensures cas[j].subject != cas[|cas| - 1].subject
    {
      InitSubjectListed(cas, j);
    }
  }

  /** The bytes fed to the session-id digest: each certificate's fingerprint, in order. */
  function DigestInput(cas: seq<Cert>, fingerprint: Cert -> seq<byte>): (r: seq<byte>)
    ensures (forall c :: |fingerprint(c)| == SHA256_DIGEST_LENGTH) ==> |r| == SHA256_DIGEST_LENGTH * |cas|
  {
    if cas == [] then []
    else DigestInput(cas[..|cas| - 1], fingerprint) + fingerprint(cas[|cas| - 1])
  }

  // ---------------------------------------------------------------------
  // Construction
  // ---------------------------------------------------------------------

  /** The validator's configuration, as the constructor reads it. */
  datatype ValidatorConfig = ValidatorConfig(
    allowExpiredCertificate: bool,
    sanMatchers: seq<SanMatcher>,
    /** The bundle-map file name, when `trust_bundle_map` is set. */
    trustBundleMap: Option<string>,
    trustDomains: seq<TrustDomainConfig>)

  /** The constructor's matcher loop: the URI-type matchers, in configuration order. */
  method SelectUriMatchers(configured: seq<SanMatcher>) returns (kept: seq<SanMatcher>)
    ensures kept == UriMatchers(configured)
  {
    kept := [];
    var i := 0;
    while i < |configured|
      invariant 0 <= i <= |configured|
      invariant kept == UriMatchers(configured[..i])
    {
      assert configured[..i + 1][..i] == configured[..i];
      if configured[i].sanType == Uri {
        kept := kept + [configured[i]];
      }
      i := i + 1;
    }
    assert configured[..|configured|] == configured;
  }

  /**
   * What loading the bundle-map file yields: nothing when the file cannot be
   * read or parsed (`file` is None) or when the document is rejected; on
   * success, an indexed snapshot of the document's domains.
   */
  function BundleFromFile(file: Option<BundleDocument>, decode: Base64Decoder, parse: DerParser): (r: Option<SpiffeData>)
    ensures r.Some? <==> file.Some? && DocumentAccepted(file.value, decode, parse)
    ensures r.Some? ==> Indexed(r.value) &&
                        r.value.trustBundleStores.Keys == DomainNames(file.value.trustDomains.value) &&
                        r.value.caCerts == ContributedByDomains(file.value.trustDomains.value, decode, parse)
  {
    if file.None? then None
    else
      LoadBundleCorrect(file.value, decode, parse);
      match LoadBundle(file.value, decode, parse)
      case Failure(_) => None
      case Success(data) => Some(data)
  }

  /** loadTrustBundleMap, including the failure to open or parse the file. */
  method LoadTrustBundleMapFile(file: Option<BundleDocument>, decode: Base64Decoder, parse: DerParser)
    returns (r: Option<SpiffeData>)
    ensures r == BundleFromFile(file, decode, parse)
  {
    if file.None? {
      return None;
    }
    var loaded := LoadTrustBundleMap(file.value, decode, parse);
    if loaded.Failure? {
      return None;
    }
    return Some(loaded.value);
  }

  /**
   * The snapshot and `ca_file_name_` a configuration produces, or the
   * exception the constructor throws: both trust sources set is refused;
   * a bundle map must load; static domains must have distinct names and
   * readable, non-empty sources.
   */
  function ConfiguredSnapshot(cfg: ValidatorConfig, file: Option<BundleDocument>, decode: Base64Decoder,
                              parse: DerParser, read: DataSourceReader, pem: PemReader)
    : (r: Result<StaticLoad, ConstructError>)
    ensures r.Success? <==>
              !(cfg.trustBundleMap.Some? && cfg.trustDomains != []) &&
              (cfg.trustBundleMap.Some? ==> file.Some? && DocumentAccepted(file.value, decode, parse)) &&
              (cfg.trustBundleMap.None? ==>
                 DistinctNames(cfg.trustDomains) &&
                 forall i :: 0 <= i < |cfg.trustDomains| ==> Loadable(cfg.trustDomains[i], read, pem))
    ensures r.Success? && cfg.trustBundleMap.Some? ==>
              BundleFromFile(file, decode, parse) == Some(r.value.data) &&
              Indexed(r.value.data) && r.value.caFileName == ""
    ensures r.Success? && cfg.trustBundleMap.None? ==>
              r.value.data.trustBundleStores.Keys == ConfiguredNames(cfg.trustDomains) &&
              r.value.data.caCerts == AllEntryCerts(cfg.trustDomains, read, pem) &&
              r.value.caFileName == LastCaLabel("", cfg.trustDomains, read, pem)
    ensures r.Success? && cfg.trustBundleMap.None? ==>
              r == AddTrustDomains(InitialLoad, cfg.trustDomains, read, pem) &&
              forall i :: 0 <= i < |cfg.trustDomains| ==>
                r.value.data.trustBundleStores[cfg.trustDomains[i].name] ==
                BundleStore(Entries(cfg.trustDomains[i], read, pem))
    ensures cfg.trustBundleMap.Some? && cfg.trustDomains != [] ==> r == Failure(BothTrustSourcesConfigured)
    ensures cfg.trustBundleMap.Some? && cfg.trustDomains == [] && r.Failure? ==> r.error == BundleMapLoadFailed
    ensures cfg.trustBundleMap.None? ==> r == AddTrustDomains(InitialLoad, cfg.trustDomains, read, pem)
  {
    if cfg.trustBundleMap.Some? && |cfg.trustDomains| > 0 then Failure(BothTrustSourcesConfigured)
    else if cfg.trustBundleMap.Some? then
      match BundleFromFile(file, decode, parse)
      case None => Failure(BundleMapLoadFailed)
      case Some(data) => Success(StaticLoad(data, ""))
    else
      LoadTrustDomainsSucceeds(cfg.trustDomains, read, pem);
      if AddTrustDomains(InitialLoad, cfg.trustDomains, read, pem).Success? then
        LoadTrustDomainsResult(cfg.trustDomains, read, pem);
        AddTrustDomainsStores(InitialLoad, cfg.trustDomains, read, pem);
        AddTrustDomains(InitialLoad, cfg.trustDomains, read, pem)
      else
        AddTrustDomains(InitialLoad, cfg.trustDomains, read, pem)
  }

  /**
   * The configured constructor, as a factory: on success a validator whose
   * every thread reads the configured snapshot, with the URI matchers kept
   * and a file watch installed exactly in bundle-map mode; otherwise the
   * exception the constructor would throw.
   */
  method NewValidator(cfg: ValidatorConfig, stats: SslStats, threads: nat, file: Option<BundleDocument>,
                      decode: Base64Decoder, parse: DerParser, read: DataSourceReader, pem: PemReader)
    returns (r: Result<SpiffeValidator, ConstructError>)
    requires threads > 0
    ensures var expected := ConfiguredSnapshot(cfg, file, decode, parse, read, pem);
            (r.Success? <==> expected.Success?) &&
            (r.Failure? ==> r.error == expected.error) &&
            (r.Success? ==>
               var v := r.value;
               fresh(v) && v.Valid() && v.stats == stats && |v.slots| == threads &&
               v.spiffeData == expected.value.data && v.caFileName == expected.value.caFileName &&
               (forall w :: 0 <= w < threads ==> v.WorkerData(w) == expected.value.data) &&
               v.matchers == UriMatchers(cfg.sanMatchers) &&
               v.allowExpiredCertificate == cfg.allowExpiredCertificate &&
               v.trustBundleFileName == (if cfg.trustBundleMap.Some? then cfg.trustBundleMap.value else "") &&
               v.watching == cfg.trustBundleMap.Some? &&
               v.pendingUpdates == [])
  {
    var matchers := SelectUriMatchers(cfg.sanMatchers);
    if cfg.trustBundleMap.Some? && |cfg.trustDomains| > 0 {
      return Failure(BothTrustSourcesConfigured);
    }
    if cfg.trustBundleMap.Some? {
      var loaded := LoadTrustBundleMapFile(file, decode, parse);
      if loaded.None? {
        return Failure(BundleMapLoadFailed);
      }
      var v := new SpiffeValidator.Install(stats, threads, matchers, cfg.allowExpiredCertificate,
                                           loaded.value, "", cfg.trustBundleMap.value, true);
      return Success(v);
    }
    var load := LoadTrustDomains(cfg.trustDomains, read, pem);
    if load.Failure? {
      return Failure(load.error);
    }
    var v := new SpiffeValidator.Install(stats, threads, matchers, cfg.allowExpiredCertificate,
                                         load.value.data, load.value.caFileName, "", false);
    return Success(v);
  }

  // ---------------------------------------------------------------------
  // Properties across modules
  // ---------------------------------------------------------------------

  /**
   * Trust is scoped to the leaf's own domain: in bundle-map mode the store a
   * leaf is verified against holds only CA certificates whose SPIFFE ID is
   * in the leaf's trust domain.
   */
  lemma BundleStoreScopedToLeafDomain(data: SpiffeData, leaf: Cert)
    requires Indexed(data)
    requires TrustBundleStoreFor(data, leaf).Some?
    ensures forall c :: c in TrustBundleStoreFor(data, leaf).value.certs ==>
              SpiffeDomainOf(c) == Some(LeafTrustDomain(leaf))
  {
  }

  /**
   * In static mode the store a leaf is verified against is the one built
   * from the configured source whose name is the leaf's trust domain.
   */
  lemma StaticStoreForLeaf(cfgs: seq<TrustDomainConfig>, read: DataSourceReader, pem: PemReader, leaf: Cert, i: nat)
    requires DistinctNames(cfgs) && forall k :: 0 <= k < |cfgs| ==> Loadable(cfgs[k], read, pem)
    requires i < |cfgs| && cfgs[i].name == LeafTrustDomain(leaf) && cfgs[i].name != ""
    ensures AddTrustDomains(InitialLoad, cfgs, read, pem).Success?
    ensures var data := AddTrustDomains(InitialLoad, cfgs, read, pem).value.data;
            var entries := Entries(cfgs[i], read, pem);
            TrustBundleStoreFor(data, leaf).Some? &&
            TrustBundleStoreFor(data, leaf).value.certs == CertSet(entries) &&
            TrustBundleStoreFor(data, leaf).value.crls == CrlSet(entries)
  {
    LoadTrustDomainsSucceeds(cfgs, read, pem);
    LoadTrustDomainsResult(cfgs, read, pem);
    ConfiguredNamesMember(cfgs, i);
  }

  /**
   * In static mode the constructor throws at the first domain it cannot
   * accept, with the exception of the first check that domain fails.
   */
  lemma StaticConfigFirstError(cfg: ValidatorConfig, file: Option<BundleDocument>, decode: Base64Decoder,
                               parse: DerParser, read: DataSourceReader, pem: PemReader, j: nat)
    requires cfg.trustBundleMap.None? && j < |cfg.trustDomains|
    requires AcceptedPrefix(InitialLoad, cfg.trustDomains, j, read, pem)
    requires (exists i :: 0 <= i < j && cfg.trustDomains[i].name == cfg.trustDomains[j].name) ||
             !Loadable(cfg.trustDomains[j], read, pem)
    ensures var c := cfg.trustDomains[j];
            ConfiguredSnapshot(cfg, file, decode, parse, read, pem) ==
            Failure(if exists i :: 0 <= i < j && cfg.trustDomains[i].name == c.name then DuplicateTrustDomain(c.name)
                    else if read(c.trustBundle).None? then DataSourceReadFailed(c.name)
                    else NoTrustedCa(c.name))
  {
    AddTrustDomainsFirstError(InitialLoad, cfg.trustDomains, j, read, pem);
  }

  lemma ConfiguredNamesMember(cfgs: seq<TrustDomainConfig>, i: nat)
    requires i < |cfgs|
    ensures cfgs[i].name in ConfiguredNames(cfgs)
  {
  }

  /** The digest input of a concatenation is the concatenation of the digest inputs. */
  lemma {:induction false} DigestInputAppend(a: seq<Cert>, b: seq<Cert>, fingerprint: Cert -> seq<byte>)
    ensures DigestInput(a + b, fingerprint) == DigestInput(a, fingerprint) + DigestInput(b, fingerprint)
    decreases |b|
  {
    if b != [] {
      var b' := b[..|b| - 1];
      assert (a + b)[..|a + b| - 1] == a + b';
      assert (a + b)[|a + b| - 1] == b[|b| - 1];
      DigestInputAppend(a, b', fingerprint);
    } else {
      assert a + b == a;
    }
  }
}
