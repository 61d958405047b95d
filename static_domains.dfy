/**
 * Static trust-domain loading: the `trust_domains` branch of the validator's
 * constructor, which builds one store per configured domain from a PEM
 * bundle. Reading the data source and PEM parsing come in as functions.
 */
module StaticDomains {
  import opened Wrappers
  import opened X509
  import opened Snapshot

  /** Where a domain's PEM bundle comes from: a file, inline bytes or text, or an environment variable. */
  datatype DataSource =
    | Filename(path: string)
    | InlineBytes(bytes: seq<byte>)
    | InlineString(text: string)
    | EnvironmentVariable(variable: string)

  /** The data source's `filename` field: empty unless the source is a file, so the other forms are labelled `<inline>`. */
  function FilenameOf(ds: DataSource): string
  {
    if ds.Filename? then ds.path else ""
  }

  /** One element of the configured `trust_domains` list. */
  datatype TrustDomainConfig = TrustDomainConfig(name: string, trustBundle: DataSource)

  /** Config::DataSource::read; None when the source cannot be read (the read throws). */
  type DataSourceReader = DataSource -> Option<seq<byte>>

  /** PEM_X509_INFO_read_bio; no entries when the text holds none or does not parse. */
  type PemReader = seq<byte> -> seq<PemEntry>

  /**
   * The exceptions the constructor throws. `DataSourceReadFailed` stands for
   * the exception `Config::DataSource::read` raises, tagged with the domain
   * being loaded.
   */
  datatype ConstructError =
    | BothTrustSourcesConfigured
    | BundleMapLoadFailed
    | DuplicateTrustDomain(name: string)
    | DataSourceReadFailed(name: string)
    | NoTrustedCa(name: string)

  /** What the static branch produces: the snapshot and the `ca_file_name_` it records. */
  datatype StaticLoad = StaticLoad(data: SpiffeData, caFileName: string)

  const InitialLoad := StaticLoad(EmptySpiffeData, "")

  const CrlCheckFlags: bv32 := X509_V_FLAG_CRL_CHECK | X509_V_FLAG_CRL_CHECK_ALL

  /** The label recorded as `ca_file_name_` for a domain: its name and its file, or `<inline>`. */
  function CaFileLabel(cfg: TrustDomainConfig): string
  {
    cfg.name + ": " + (if FilenameOf(cfg.trustBundle) == "" then "<inline>" else FilenameOf(cfg.trustBundle))
  }

  /** The certificates of a PEM entry list, in order. */
  function EntryCerts(entries: seq<PemEntry>): seq<Cert>
  {
    if entries == [] then []
    else
      var last := entries[|entries| - 1];
      EntryCerts(entries[..|entries| - 1]) + (if last.x509.Some? then [last.x509.value] else [])
  }

  function CertSet(entries: seq<PemEntry>): set<Cert>
  {
    set i | 0 <= i < |entries| && entries[i].x509.Some? :: entries[i].x509.value
  }

  function CrlSet(entries: seq<PemEntry>): set<Crl>
  {
    set i | 0 <= i < |entries| && entries[i].crl.Some? :: entries[i].crl.value
  }

  predicate HasCrl(entries: seq<PemEntry>)
  {
    exists i :: 0 <= i < |entries| && entries[i].crl.Some?
  }

  /** The entries a domain's source yields; none when the source cannot be read. */
  function Entries(cfg: TrustDomainConfig, read: DataSourceReader, pem: PemReader): seq<PemEntry>
  {
    match read(cfg.trustBundle)
    case None => []
    case Some(bytes) => pem(bytes)
  }

  /** The store one domain gets: all its certificates and CRLs, with CRL checking on when it has a CRL. */
  function BundleStore(entries: seq<PemEntry>): Store
  {
    Store(CertSet(entries), CrlSet(entries), if HasCrl(entries) then CrlCheckFlags else 0)
  }

  /** One iteration of the constructor's loop over `trust_domains`. */
  function AddTrustDomain(acc: StaticLoad, cfg: TrustDomainConfig,
                          read: DataSourceReader, pem: PemReader): Result<StaticLoad, ConstructError>
  {
    if cfg.name in acc.data.trustBundleStores then Failure(DuplicateTrustDomain(cfg.name))
    else match read(cfg.trustBundle)
      case None => Failure(DataSourceReadFailed(cfg.name))
      case Some(bytes) =>
        var entries := pem(bytes);
        if entries == [] then Failure(NoTrustedCa(cfg.name))
        else
          var certs := EntryCerts(entries);
          Success(StaticLoad(
            SpiffeData(acc.data.trustBundleStores[cfg.name := BundleStore(entries)], acc.data.caCerts + certs),
            if certs != [] then CaFileLabel(cfg) else acc.caFileName))
  }

  function AddTrustDomains(acc: StaticLoad, cfgs: seq<TrustDomainConfig>,
                           read: DataSourceReader, pem: PemReader): Result<StaticLoad, ConstructError>
    decreases |cfgs|
  {
    if cfgs == [] then Success(acc)
    else match AddTrustDomain(acc, cfgs[0], read, pem)
      case Failure(e) => Failure(e)
      case Success(next) => AddTrustDomains(next, cfgs[1..], read, pem)
  }

  /**
   * The constructor's loop over `trust_domains`: rejects a repeated name, a
   * source that cannot be read and a source with no PEM entries; adds every
   * certificate to the domain's store and to the CA list and every CRL to the
   * store; turns on CRL checking for a domain with a CRL; and records the
   * label of a domain in `ca_file_name_` when the domain contributes a
   * certificate.
   */
  method LoadTrustDomains(cfgs: seq<TrustDomainConfig>, read: DataSourceReader, pem: PemReader)
    returns (r: Result<StaticLoad, ConstructError>)
    ensures r == AddTrustDomains(InitialLoad, cfgs, read, pem)
  {
    ghost var spec := AddTrustDomains(InitialLoad, cfgs, read, pem);
    var data := EmptySpiffeData;
    var caFileName := "";
    var i := 0;
    while i < |cfgs|
      invariant 0 <= i <= |cfgs|
      invariant spec == AddTrustDomains(StaticLoad(data, caFileName), cfgs[i..], read, pem)
    {
      assert cfgs[i..][1..] == cfgs[i + 1..];
      var cfg := cfgs[i];
      if cfg.name in data.trustBundleStores {
        return Failure(DuplicateTrustDomain(cfg.name));
      }
      var bytes := read(cfg.trustBundle);
      if bytes.None? {
        return Failure(DataSourceReadFailed(cfg.name));
      }
      var entries := pem(bytes.value);
      if |entries| == 0 {
        return Failure(NoTrustedCa(cfg.name));
      }
      var store, caCerts, caLabel := LoadBundleEntries(entries, cfg, data.caCerts, caFileName);
      data := data.(caCerts := caCerts);
      caFileName := caLabel;
      data := data.(trustBundleStores := data.trustBundleStores[cfg.name := store]);
      i := i + 1;
    }
    return Success(StaticLoad(data, caFileName));
  }

  /**
   * The loop over one domain's PEM entries: a fresh store gets every
   * certificate and CRL, each certificate is appended to the CA list, the
   * domain's label replaces `ca_file_name_` once it has a certificate, and
   * CRL checking is turned on when any entry carries a CRL.
   */
  method LoadBundleEntries(entries: seq<PemEntry>, cfg: TrustDomainConfig, caCerts: seq<Cert>, caFileName: string)
    returns (store: Store, caCerts': seq<Cert>, caFileName': string)
    ensures store == BundleStore(entries)
    ensures caCerts' == caCerts + EntryCerts(entries)
    ensures caFileName' == if EntryCerts(entries) != [] then CaFileLabel(cfg) else caFileName
  {
    store := EmptyStore;
    caCerts' := caCerts;
    caFileName' := caFileName;
    var hasCrl := false;
    var caLoaded := false;
    var j := 0;
    ghost var seen: seq<PemEntry> := [];
    while j < |entries|
      invariant 0 <= j <= |entries| && seen == entries[..j]
      invariant store == Store(CertSet(seen), CrlSet(seen), 0)
      invariant hasCrl == HasCrl(seen)
      invariant caLoaded == (EntryCerts(seen) != [])
      invariant caCerts' == caCerts + EntryCerts(seen)
      invariant caFileName' == if caLoaded then CaFileLabel(cfg) else caFileName
    {
      var item := entries[j];
      AppendEntry(seen, item);
      if item.x509.Some? {
        store := store.AddCert(item.x509.value);
        AppendAssoc(caCerts, EntryCerts(seen), [item.x509.value]);
        caCerts' := caCerts' + [item.x509.value];
        if !caLoaded {
          caLoaded := true;
          caFileName' := CaFileLabel(cfg);
        }
      }
      if item.crl.Some? {
        hasCrl := true;
        store := store.AddCrl(item.crl.value);
      }
      assert entries[..j + 1] == seen + [item];
      seen := seen + [item];
      j := j + 1;
    }
    assert seen == entries;
    if hasCrl {
      store := store.(flags := store.flags | CrlCheckFlags);
    }
  }

  /** How the certificates, CRLs and CRL flag of an entry list grow by one entry. */
  lemma AppendEntry(seen: seq<PemEntry>, item: PemEntry)
    ensures CertSet(seen + [item]) == CertSet(seen) + (if item.x509.Some? then {item.x509.value} else {})
    ensures CrlSet(seen + [item]) == CrlSet(seen) + (if item.crl.Some? then {item.crl.value} else {})
    ensures HasCrl(seen + [item]) == (HasCrl(seen) || item.crl.Some?)
    ensures EntryCerts(seen + [item]) == EntryCerts(seen) + (if item.x509.Some? then [item.x509.value] else [])
  {
    var next := seen + [item];
    assert next[..|seen|] == seen;
    assert forall i :: 0 <= i < |seen| ==> next[i] == seen[i];
    forall r | r in CrlSet(next) ensures r in CrlSet(seen) + (if item.crl.Some? then {item.crl.value} else {}) {
      var i :| 0 <= i < |next| && next[i].crl.Some? && next[i].crl.value == r;
      if i < |seen| { assert seen[i].crl.value == r; }
    }
    forall c | c in CertSet(next) ensures c in CertSet(seen) + (if item.x509.Some? then {item.x509.value} else {}) {
      var i :| 0 <= i < |next| && next[i].x509.Some? && next[i].x509.value == c;
      if i < |seen| { assert seen[i].x509.value == c; }
    }
    if HasCrl(next) && !item.crl.Some? {
      var i :| 0 <= i < |next| && next[i].crl.Some?;
      assert seen[i].crl.Some?;
    }
    assert next[|seen|] == item;
    forall c | c in CertSet(seen) ensures c in CertSet(next) {
      var i :| 0 <= i < |seen| && seen[i].x509.Some? && seen[i].x509.value == c;
      assert next[i] == seen[i];
    }
    forall r | r in CrlSet(seen) ensures r in CrlSet(next) {
      var i :| 0 <= i < |seen| && seen[i].crl.Some? && seen[i].crl.value == r;
      assert next[i] == seen[i];
    }
  }

  // ---------------------------------------------------------------------
  // When the static load succeeds, and what it then produces.
  // ---------------------------------------------------------------------

  /** A domain's source can be read and yields at least one PEM entry. */
  predicate Loadable(cfg: TrustDomainConfig, read: DataSourceReader, pem: PemReader)
  {
    read(cfg.trustBundle).Some? && pem(read(cfg.trustBundle).value) != []
  }

  predicate DistinctNames(cfgs: seq<TrustDomainConfig>)
  {
    forall i, j :: 0 <= i < j < |cfgs| ==> cfgs[i].name != cfgs[j].name
  }

  /** All the certificates of all the domains, domain by domain. */
  function AllEntryCerts(cfgs: seq<TrustDomainConfig>, read: DataSourceReader, pem: PemReader): seq<Cert>
  {
    if cfgs == [] then [] else EntryCerts(Entries(cfgs[0], read, pem)) + AllEntryCerts(cfgs[1..], read, pem)
  }

  /** The label of the last domain that has a certificate, or `initial` when none has. */
  function LastCaLabel(initial: string, cfgs: seq<TrustDomainConfig>, read: DataSourceReader, pem: PemReader): string
    decreases |cfgs|
  {
    if cfgs == [] then initial
    else
      var last := cfgs[|cfgs| - 1];
      if EntryCerts(Entries(last, read, pem)) != [] then CaFileLabel(last)
      else LastCaLabel(initial, cfgs[..|cfgs| - 1], read, pem)
  }

  lemma {:induction false} AddTrustDomainsSucceeds(acc: StaticLoad, cfgs: seq<TrustDomainConfig>,
                                                   read: DataSourceReader, pem: PemReader)
    ensures AddTrustDomains(acc, cfgs, read, pem).Success? <==>
            DistinctNames(cfgs) &&
            forall i :: 0 <= i < |cfgs| ==>
              cfgs[i].name !in acc.data.trustBundleStores && Loadable(cfgs[i], read, pem)
    decreases |cfgs|
  {
    if cfgs != [] {
      var first := AddTrustDomain(acc, cfgs[0], read, pem);
      if first.Success? {
        var next := first.value;
        assert next.data.trustBundleStores.Keys == acc.data.trustBundleStores.Keys + {cfgs[0].name};
        AddTrustDomainsSucceeds(next, cfgs[1..], read, pem);
        assert forall i :: 1 <= i < |cfgs| ==> cfgs[i] == cfgs[1..][i - 1];
      }
    }
  }

  /**
   * The static load succeeds exactly when the names are pairwise distinct and
   * every source can be read and yields a PEM entry; an empty list succeeds.
   */
  lemma LoadTrustDomainsSucceeds(cfgs: seq<TrustDomainConfig>, read: DataSourceReader, pem: PemReader)
    ensures AddTrustDomains(InitialLoad, cfgs, read, pem).Success? <==>
            DistinctNames(cfgs) && forall i :: 0 <= i < |cfgs| ==> Loadable(cfgs[i], read, pem)
  {
    AddTrustDomainsSucceeds(InitialLoad, cfgs, read, pem);
  }

  /** The name of `cfgs[j]` is already registered in `acc` or used by an earlier domain. */
  predicate NameSeen(acc: StaticLoad, cfgs: seq<TrustDomainConfig>, j: nat)
    requires j < |cfgs|
  {
    cfgs[j].name in acc.data.trustBundleStores || exists i :: 0 <= i < j && cfgs[i].name == cfgs[j].name
  }

  /** The exception the loop throws at a domain it cannot accept: the first check that fails, naming the domain. */
  function FirstFailure(acc: StaticLoad, cfgs: seq<TrustDomainConfig>, j: nat, read: DataSourceReader): ConstructError
    requires j < |cfgs|
  {
    var c := cfgs[j];
    if NameSeen(acc, cfgs, j) then DuplicateTrustDomain(c.name)
    else if read(c.trustBundle).None? then DataSourceReadFailed(c.name)
    else NoTrustedCa(c.name)
  }

  /** Every domain before `j` has a new name, distinct from the others, and a loadable source. */
  predicate AcceptedPrefix(acc: StaticLoad, cfgs: seq<TrustDomainConfig>, j: nat, read: DataSourceReader, pem: PemReader)
    requires j < |cfgs|
  {
    (forall i :: 0 <= i < j ==> cfgs[i].name !in acc.data.trustBundleStores && Loadable(cfgs[i], read, pem)) &&
    (forall i, k :: 0 <= i < k < j ==> cfgs[i].name != cfgs[k].name)
  }

  /**
   * When every domain before `j` is new and loadable and `cfgs[j]` is not,
   * the loop throws at `cfgs[j]`, whatever follows: a repeated name before
   * a read failure, a read failure before an empty source.
   */
  lemma {:induction false} AddTrustDomainsFirstError(acc: StaticLoad, cfgs: seq<TrustDomainConfig>, j: nat,
                                                     read: DataSourceReader, pem: PemReader)
    requires j < |cfgs| && AcceptedPrefix(acc, cfgs, j, read, pem)
    requires NameSeen(acc, cfgs, j) || !Loadable(cfgs[j], read, pem)
    ensures AddTrustDomains(acc, cfgs, read, pem) == Failure(FirstFailure(acc, cfgs, j, read))
    decreases j, 1
  {
    if j == 0 {
      AddTrustDomainsHeadRejected(acc, cfgs, read, pem);
    } else {
      AddTrustDomainsLaterError(acc, cfgs, j, read, pem);
    }
  }

  /** The inductive step of `AddTrustDomainsFirstError`: the first domain is accepted, the error comes later. */
  lemma {:induction false} AddTrustDomainsLaterError(acc: StaticLoad, cfgs: seq<TrustDomainConfig>, j: nat,
                                                     read: DataSourceReader, pem: PemReader)
    requires 0 < j < |cfgs| && AcceptedPrefix(acc, cfgs, j, read, pem)
    requires NameSeen(acc, cfgs, j) || !Loadable(cfgs[j], read, pem)
    ensures AddTrustDomains(acc, cfgs, read, pem) == Failure(FirstFailure(acc, cfgs, j, read))
    decreases j, 0
  {
    var next := AddTrustDomainsHeadAccepted(acc, cfgs, j, read, pem);
    AddTrustDomainsFirstError(next, cfgs[1..], j - 1, read, pem);
  }

  /** A first domain whose name is taken or whose source is unusable ends the loop with its exception. */
  lemma AddTrustDomainsHeadRejected(acc: StaticLoad, cfgs: seq<TrustDomainConfig>, read: DataSourceReader, pem: PemReader)
    requires cfgs != [] && (NameSeen(acc, cfgs, 0) || !Loadable(cfgs[0], read, pem))
    ensures AddTrustDomains(acc, cfgs, read, pem) == Failure(FirstFailure(acc, cfgs, 0, read))
  {
    assert NameSeen(acc, cfgs, 0) <==> cfgs[0].name in acc.data.trustBundleStores;
  }

  /**
   * Before the first rejected domain `cfgs[j]`, the first domain is
   * registered and the loop goes on with the rest, where the same domain is
   * rejected one index down, for the same reason.
   */
  lemma AddTrustDomainsHeadAccepted(acc: StaticLoad, cfgs: seq<TrustDomainConfig>, j: nat,
                                    read: DataSourceReader, pem: PemReader)
    returns (next: StaticLoad)
    requires 0 < j < |cfgs| && AcceptedPrefix(acc, cfgs, j, read, pem)
    ensures AddTrustDomains(acc, cfgs, read, pem) == AddTrustDomains(next, cfgs[1..], read, pem)
    ensures AcceptedPrefix(next, cfgs[1..], j - 1, read, pem)
    ensures cfgs[1..][j - 1] == cfgs[j]
    ensures NameSeen(next, cfgs[1..], j - 1) == NameSeen(acc, cfgs, j)
    ensures FirstFailure(next, cfgs[1..], j - 1, read) == FirstFailure(acc, cfgs, j, read)
  {
    assert cfgs[0].name !in acc.data.trustBundleStores && Loadable(cfgs[0], read, pem);
    next := AddTrustDomain(acc, cfgs[0], read, pem).value;
    AcceptedPrefixShift(acc, next, cfgs, j, read, pem);
  }

  /** Registering `cfgs[0]` and dropping it from the list keeps the hypotheses about `cfgs[j]`, one index down. */
  lemma AcceptedPrefixShift(acc: StaticLoad, next: StaticLoad, cfgs: seq<TrustDomainConfig>, j: nat,
                            read: DataSourceReader, pem: PemReader)
    requires 0 < j < |cfgs| && AcceptedPrefix(acc, cfgs, j, read, pem)
    requires next.data.trustBundleStores.Keys == acc.data.trustBundleStores.Keys + {cfgs[0].name}
    ensures AcceptedPrefix(next, cfgs[1..], j - 1, read, pem)
    ensures NameSeen(next, cfgs[1..], j - 1) == NameSeen(acc, cfgs, j)
    ensures FirstFailure(next, cfgs[1..], j - 1, read) == FirstFailure(acc, cfgs, j, read)
  {
    var rest := cfgs[1..];
    forall i | 0 <= i < j - 1
      ensures rest[i].name !in next.data.trustBundleStores && Loadable(rest[i], read, pem)
    {
      assert rest[i] == cfgs[i + 1];
    }
    forall i, k | 0 <= i < k < j - 1 ensures rest[i].name != rest[k].name {
      assert rest[i] == cfgs[i + 1] && rest[k] == cfgs[k + 1];
    }
    NameSeenShift(acc, next, cfgs, j);
  }

  /** Seen-ness of `cfgs[j]` is the same after registering `cfgs[0]` and dropping it from the list. */
  lemma NameSeenShift(acc: StaticLoad, next: StaticLoad, cfgs: seq<TrustDomainConfig>, j: nat)
    requires 0 < j < |cfgs|
    requires next.data.trustBundleStores.Keys == acc.data.trustBundleStores.Keys + {cfgs[0].name}
    ensures NameSeen(next, cfgs[1..], j - 1) == NameSeen(acc, cfgs, j)
  {
    var rest := cfgs[1..];
    if NameSeen(acc, cfgs, j) && cfgs[j].name !in next.data.trustBundleStores {
      var i :| 0 <= i < j && cfgs[i].name == cfgs[j].name;
      assert rest[i - 1].name == rest[j - 1].name;
    }
    if NameSeen(next, rest, j - 1) && cfgs[j].name !in acc.data.trustBundleStores && cfgs[j].name != cfgs[0].name {
      var i :| 0 <= i < j - 1 && rest[i].name == rest[j - 1].name;
      assert cfgs[i + 1].name == cfgs[j].name;
    }
  }

  lemma LastCaLabelCons(initial: string, c: TrustDomainConfig, rest: seq<TrustDomainConfig>,
                        read: DataSourceReader, pem: PemReader)
    ensures LastCaLabel(LastCaLabel(initial, [c], read, pem), rest, read, pem) ==
            LastCaLabel(initial, [c] + rest, read, pem)
    decreases |rest|
  {
    if rest != [] {
      var all := [c] + rest;
      assert all[..|all| - 1] == [c] + rest[..|rest| - 1];
      LastCaLabelCons(initial, c, rest[..|rest| - 1], read, pem);
    } else {
      assert [c] + rest == [c];
    }
  }

  function ConfiguredNames(cfgs: seq<TrustDomainConfig>): set<string>
  {
    set i | 0 <= i < |cfgs| :: cfgs[i].name
  }

  lemma ConfiguredNamesCons(cfgs: seq<TrustDomainConfig>)
    requires cfgs != []
    ensures ConfiguredNames(cfgs) == {cfgs[0].name} + ConfiguredNames(cfgs[1..])
  {
    forall n | n in ConfiguredNames(cfgs) ensures n in {cfgs[0].name} + ConfiguredNames(cfgs[1..]) {
      var i :| 0 <= i < |cfgs| && cfgs[i].name == n;
      if i > 0 { assert cfgs[1..][i - 1].name == n; }
    }
  }

  /** A successful static load adds exactly the configured names to the stores and keeps the stores already there. */
  lemma {:induction false} AddTrustDomainsKeys(acc: StaticLoad, cfgs: seq<TrustDomainConfig>,
                                               read: DataSourceReader, pem: PemReader)
    requires AddTrustDomains(acc, cfgs, read, pem).Success?
    ensures var stores := AddTrustDomains(acc, cfgs, read, pem).value.data.trustBundleStores;
            stores.Keys == acc.data.trustBundleStores.Keys + ConfiguredNames(cfgs) &&
            forall d :: d in acc.data.trustBundleStores ==> stores[d] == acc.data.trustBundleStores[d]
    decreases |cfgs|
  {
    if cfgs != [] {
      var next := AddTrustDomain(acc, cfgs[0], read, pem).value;
      AddTrustDomainsKeys(next, cfgs[1..], read, pem);
      ConfiguredNamesCons(cfgs);
    }
  }

  /** After a successful static load every configured name maps to the store built from its own source. */
  lemma {:induction false} AddTrustDomainsStores(acc: StaticLoad, cfgs: seq<TrustDomainConfig>,
                                                 read: DataSourceReader, pem: PemReader)
    requires AddTrustDomains(acc, cfgs, read, pem).Success?
    ensures var stores := AddTrustDomains(acc, cfgs, read, pem).value.data.trustBundleStores;
            forall i :: 0 <= i < |cfgs| ==>
              cfgs[i].name in stores && stores[cfgs[i].name] == BundleStore(Entries(cfgs[i], read, pem))
    decreases |cfgs|
  {
    if cfgs != [] {
      var c := cfgs[0];
      var next := AddTrustDomain(acc, c, read, pem).value;
      AddTrustDomainsStores(next, cfgs[1..], read, pem);
      AddTrustDomainsKeys(next, cfgs[1..], read, pem);
      var stores := AddTrustDomains(acc, cfgs, read, pem).value.data.trustBundleStores;
      forall i | 0 <= i < |cfgs|
        ensures cfgs[i].name in stores && stores[cfgs[i].name] == BundleStore(Entries(cfgs[i], read, pem))
      {
        if i > 0 { assert cfgs[i] == cfgs[1..][i - 1]; }
      }
    }
  }

  /** The CA list of a successful static load: every certificate of every source, in configuration order. */
  lemma {:induction false} AddTrustDomainsCaCerts(acc: StaticLoad, cfgs: seq<TrustDomainConfig>,
                                                  read: DataSourceReader, pem: PemReader)
    requires AddTrustDomains(acc, cfgs, read, pem).Success?
    ensures AddTrustDomains(acc, cfgs, read, pem).value.data.caCerts ==
            acc.data.caCerts + AllEntryCerts(cfgs, read, pem)
    decreases |cfgs|
  {
    if cfgs != [] {
      var next := AddTrustDomain(acc, cfgs[0], read, pem).value;
      AddTrustDomainsCaCerts(next, cfgs[1..], read, pem);
      AppendAssoc(acc.data.caCerts, EntryCerts(Entries(cfgs[0], read, pem)), AllEntryCerts(cfgs[1..], read, pem));
    }
  }

  /**
   * `ca_file_name_` after a successful static load names the LAST domain
   * that contributed a certificate (the flag that guards it is reset for
   * every domain), or keeps its previous value when no domain did.
   */
  lemma {:induction false} AddTrustDomainsCaFileName(acc: StaticLoad, cfgs: seq<TrustDomainConfig>,
                                                     read: DataSourceReader, pem: PemReader)
    requires AddTrustDomains(acc, cfgs, read, pem).Success?
    ensures AddTrustDomains(acc, cfgs, read, pem).value.caFileName == LastCaLabel(acc.caFileName, cfgs, read, pem)
    decreases |cfgs|, 1
  {
    if cfgs != [] {
      AddTrustDomainsCaFileNameStep(acc, cfgs, read, pem);
    }
  }

  /** The inductive step of `AddTrustDomainsCaFileName`: the first domain's label, then the rest's. */
  lemma {:induction false} AddTrustDomainsCaFileNameStep(acc: StaticLoad, cfgs: seq<TrustDomainConfig>,
                                                         read: DataSourceReader, pem: PemReader)
    requires cfgs != [] && AddTrustDomains(acc, cfgs, read, pem).Success?
    ensures AddTrustDomains(acc, cfgs, read, pem).value.caFileName == LastCaLabel(acc.caFileName, cfgs, read, pem)
    decreases |cfgs|, 0
  {
    var c := cfgs[0];
    var next := AddTrustDomain(acc, c, read, pem).value;
    AddTrustDomainsCaFileName(next, cfgs[1..], read, pem);
    AddTrustDomainLabel(acc, c, read, pem);
    LastCaLabelCons(acc.caFileName, c, cfgs[1..], read, pem);
    assert [c] + cfgs[1..] == cfgs;
  }

  /** One accepted domain leaves the label its certificates call for. */
  lemma AddTrustDomainLabel(acc: StaticLoad, c: TrustDomainConfig, read: DataSourceReader, pem: PemReader)
    requires AddTrustDomain(acc, c, read, pem).Success?
    ensures AddTrustDomain(acc, c, read, pem).value.caFileName == LastCaLabel(acc.caFileName, [c], read, pem)
  {
    assert [c][..0] == [];
    assert LastCaLabel(acc.caFileName, [], read, pem) == acc.caFileName;
  }

  /**
   * What a successful static load produces: one store per configured name,
   * holding that source's certificates and CRLs, with CRL checking on
   * exactly when the source has a CRL; the CA list is every certificate in
   * configuration order; `ca_file_name_` names the LAST domain that
   * contributed a certificate, or is empty.
   */
  lemma LoadTrustDomainsResult(cfgs: seq<TrustDomainConfig>, read: DataSourceReader, pem: PemReader)
    requires AddTrustDomains(InitialLoad, cfgs, read, pem).Success?
    ensures var out := AddTrustDomains(InitialLoad, cfgs, read, pem).value;
            out.data.trustBundleStores.Keys == ConfiguredNames(cfgs) &&
            (forall i :: 0 <= i < |cfgs| ==>
               var entries := Entries(cfgs[i], read, pem);
               var store := out.data.trustBundleStores[cfgs[i].name];
               store.certs == CertSet(entries) && store.crls == CrlSet(entries) &&
               (store.flags == CrlCheckFlags <==> HasCrl(entries)) &&
               (store.flags == 0 <==> !HasCrl(entries))) &&
            out.data.caCerts == AllEntryCerts(cfgs, read, pem) &&
            out.caFileName == LastCaLabel("", cfgs, read, pem)
  {
    AddTrustDomainsKeys(InitialLoad, cfgs, read, pem);
    AddTrustDomainsStores(InitialLoad, cfgs, read, pem);
    AddTrustDomainsCaCerts(InitialLoad, cfgs, read, pem);
    AddTrustDomainsCaFileName(InitialLoad, cfgs, read, pem);
  }
}
