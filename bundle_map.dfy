/**
 * Bundle-map loading (loadTrustBundleMap): builds a SpiffeData from a parsed
 * SPIFFE bundle-map document, all or nothing.
 *
 * The file read and the JSON text parse are not modelled: the document comes
 * in already parsed. Base64 and DER decoding come in as functions.
 */
module BundleMap {
  import opened Wrappers
  import opened X509
  import opened TrustDomain
  import opened Snapshot

  /** The only key `use` whose certificates are loaded. */
  const X509Svid: string := "x509-svid"

  /** One element of a domain's `keys` array: its `use` and its `x5c` base64 strings. */
  datatype KeyObject = KeyObject(use: string, x5c: seq<string>)

  /** One member of `trust_domains`: the domain name and its `keys` array. */
  datatype DomainEntry = DomainEntry(name: string, keys: seq<KeyObject>)

  /** The parsed document: `trustDomains` is None when the document has no `trust_domains` object. */
  datatype BundleDocument = BundleDocument(trustDomains: Option<seq<DomainEntry>>)

  /** Why a load failed; each variant but the first names the domain being loaded. */
  datatype LoadError =
    | NoTrustDomains
    | NoKeys(domain: string)
    | EmptyCertDecoded(domain: string)
    | InvalidCertificate(domain: string)
    | DomainMismatch(domain: string, sanDomain: string)

  /** Base64::decode; a malformed input decodes to no bytes. */
  type Base64Decoder = string -> seq<byte>

  /** d2i_X509; None when the bytes are not a DER certificate. */
  type DerParser = seq<byte> -> Option<Cert>

  predicate IsSpiffeUri(n: GeneralName)
  {
    n.kind == Uri && StartsWith(n.value, SpiffePrefix)
  }

  /** The value of the first URI entry that starts with `spiffe://`. */
  function FirstSpiffeUri(names: seq<GeneralName>): (r: Option<string>)
    ensures r.None? <==> forall i :: 0 <= i < |names| ==> !IsSpiffeUri(names[i])
    ensures r.Some? ==>
              exists i :: 0 <= i < |names| && IsSpiffeUri(names[i]) && names[i].value == r.value &&
                          forall j :: 0 <= j < i ==> !IsSpiffeUri(names[j])
  {
    if names == [] then None
    else if IsSpiffeUri(names[0]) then Some(names[0].value)
    else
      var r := FirstSpiffeUri(names[1..]);
      assert forall i :: 1 <= i < |names| ==> names[i] == names[1..][i - 1];
      r
  }

  /** The trust domain a certificate embeds in its first `spiffe://` URI SAN, if it has one. */
  function SpiffeDomainOf(c: Cert): Option<string>
  {
    match c.subjectAltNames
    case None => None
    case Some(names) =>
      match FirstSpiffeUri(names)
      case None => None
      case Some(uri) => Some(ExtractTrustDomain(uri))
  }

  // ---------------------------------------------------------------------
  // The load as a fold over the document, stopping at the first error.
  // ---------------------------------------------------------------------

  /** Adds `c` to the store of `domain` and to the end of the CA list. */
  function AddToDomain(data: SpiffeData, domain: string, c: Cert): SpiffeData
  {
    data.(trustBundleStores := data.trustBundleStores[domain := StoreOf(data, domain).AddCert(c)],
          caCerts := data.caCerts + [c])
  }

  /** Loads one `x5c` string into `domain`. */
  function LoadCert(data: SpiffeData, domain: string, b64: string,
                    decode: Base64Decoder, parse: DerParser): Result<SpiffeData, LoadError>
  {
    var der := decode(b64);
    if der == [] then Failure(EmptyCertDecoded(domain))
    else match parse(der)
      case None => Failure(InvalidCertificate(domain))
      case Some(c) =>
        match SpiffeDomainOf(c)
        case None => Success(data)
        case Some(sanDomain) =>
          if domain != sanDomain then Failure(DomainMismatch(domain, sanDomain))
          else Success(AddToDomain(data, domain, c))
  }

  function LoadCerts(data: SpiffeData, domain: string, certs: seq<string>,
                     decode: Base64Decoder, parse: DerParser): Result<SpiffeData, LoadError>
    decreases |certs|
  {
    if certs == [] then Success(data)
    else match LoadCert(data, domain, certs[0], decode, parse)
      case Failure(e) => Failure(e)
      case Success(next) => LoadCerts(next, domain, certs[1..], decode, parse)
  }

  /** Loads one key object: only an `x509-svid` key contributes certificates. */
  function LoadKey(data: SpiffeData, domain: string, key: KeyObject,
                   decode: Base64Decoder, parse: DerParser): Result<SpiffeData, LoadError>
  {
    if key.use == X509Svid then LoadCerts(data, domain, key.x5c, decode, parse) else Success(data)
  }

  function LoadKeys(data: SpiffeData, domain: string, keys: seq<KeyObject>,
                    decode: Base64Decoder, parse: DerParser): Result<SpiffeData, LoadError>
    decreases |keys|
  {
    if keys == [] then Success(data)
    else match LoadKey(data, domain, keys[0], decode, parse)
      case Failure(e) => Failure(e)
      case Success(next) => LoadKeys(next, domain, keys[1..], decode, parse)
  }

  /** Registers a fresh store for a domain seen for the first time; a repeated domain keeps its store. */
  function RegisterDomain(data: SpiffeData, domain: string): SpiffeData
  {
    if domain in data.trustBundleStores then data
    else data.(trustBundleStores := data.trustBundleStores[domain := EmptyStore])
  }

  function LoadDomain(data: SpiffeData, entry: DomainEntry,
                      decode: Base64Decoder, parse: DerParser): Result<SpiffeData, LoadError>
  {
    var registered := RegisterDomain(data, entry.name);
    if entry.keys == [] then Failure(NoKeys(entry.name))
    else LoadKeys(registered, entry.name, entry.keys, decode, parse)
  }

  function LoadDomains(data: SpiffeData, entries: seq<DomainEntry>,
                       decode: Base64Decoder, parse: DerParser): Result<SpiffeData, LoadError>
    decreases |entries|
  {
    if entries == [] then Success(data)
    else match LoadDomain(data, entries[0], decode, parse)
      case Failure(e) => Failure(e)
      case Success(next) => LoadDomains(next, entries[1..], decode, parse)
  }

  /** The whole load: a missing or empty `trust_domains` fails before any domain is visited. */
  function LoadBundle(doc: BundleDocument, decode: Base64Decoder, parse: DerParser): Result<SpiffeData, LoadError>
  {
    match doc.trustDomains
    case None => Failure(NoTrustDomains)
    case Some(entries) =>
      if entries == [] then Failure(NoTrustDomains)
      else LoadDomains(EmptySpiffeData, entries, decode, parse)
  }

  /** Continues with the remaining domains after a partial result. */
  function ThenDomains(r: Result<SpiffeData, LoadError>, entries: seq<DomainEntry>,
                       decode: Base64Decoder, parse: DerParser): Result<SpiffeData, LoadError>
  {
    match r
    case Failure(e) => Failure(e)
    case Success(data) => LoadDomains(data, entries, decode, parse)
  }

  /** Continues with the remaining keys of a domain after a partial result. */
  function ThenKeys(r: Result<SpiffeData, LoadError>, domain: string, keys: seq<KeyObject>,
                    decode: Base64Decoder, parse: DerParser): Result<SpiffeData, LoadError>
  {
    match r
    case Failure(e) => Failure(e)
    case Success(data) => LoadKeys(data, domain, keys, decode, parse)
  }

  /**
   * loadTrustBundleMap: walks domains, keys and certificates in document
   * order, returns at the first error, and otherwise yields the snapshot.
   */
  method LoadTrustBundleMap(doc: BundleDocument, decode: Base64Decoder, parse: DerParser)
    returns (r: Result<SpiffeData, LoadError>)
    ensures r == LoadBundle(doc, decode, parse)
  {
    if doc.trustDomains.None? || doc.trustDomains.value == [] {
      return Failure(NoTrustDomains);
    }
    var entries := doc.trustDomains.value;
    ghost var spec := LoadBundle(doc, decode, parse);
    var data := EmptySpiffeData;
    var i := 0;
    while i < |entries|
      invariant 0 <= i <= |entries|
      invariant spec == LoadDomains(data, entries[i..], decode, parse)
    {
      assert entries[i..][1..] == entries[i + 1..];
      var name := entries[i].name;
      var keys := entries[i].keys;
      if name !in data.trustBundleStores {
        data := data.(trustBundleStores := data.trustBundleStores[name := EmptyStore]);
      }
      if |keys| == 0 {
        return Failure(NoKeys(name));
      }
      var k := 0;
      while k < |keys|
        invariant 0 <= k <= |keys|
        invariant spec == ThenDomains(LoadKeys(data, name, keys[k..], decode, parse), entries[i + 1..], decode, parse)
      {
        assert keys[k..][1..] == keys[k + 1..];
        if keys[k].use == X509Svid {
          var certs := keys[k].x5c;
          var j := 0;
          while j < |certs|
            invariant 0 <= j <= |certs|
            invariant spec == ThenDomains(ThenKeys(LoadCerts(data, name, certs[j..], decode, parse),
                                                   name, keys[k + 1..], decode, parse),
                                          entries[i + 1..], decode, parse)
          {
            assert certs[j..][1..] == certs[j + 1..];
            var der := decode(certs[j]);
            if der == [] {
              return Failure(EmptyCertDecoded(name));
            }
            var parsed := parse(der);
            if parsed.None? {
              return Failure(InvalidCertificate(name));
            }
            var cert := parsed.value;
            var sanDomain := SpiffeDomainOf(cert);
            if sanDomain.Some? {
              if name != sanDomain.value {
                return Failure(DomainMismatch(name, sanDomain.value));
              }
              data := AddToDomain(data, name, cert);
            }
            j := j + 1;
          }
        }
        k := k + 1;
      }
      i := i + 1;
    }
    return Success(data);
  }

  // ---------------------------------------------------------------------
  // When the load succeeds, and what it then produces.
  // ---------------------------------------------------------------------

  /** A certificate string passes every check: it decodes, parses, and any embedded SPIFFE domain is `domain`. */
  predicate CertAccepted(domain: string, b64: string, decode: Base64Decoder, parse: DerParser)
  {
    var der := decode(b64);
    der != [] && parse(der).Some? &&
    (SpiffeDomainOf(parse(der).value).Some? ==> SpiffeDomainOf(parse(der).value).value == domain)
  }

  predicate KeyAccepted(domain: string, key: KeyObject, decode: Base64Decoder, parse: DerParser)
  {
    key.use == X509Svid ==> forall j :: 0 <= j < |key.x5c| ==> CertAccepted(domain, key.x5c[j], decode, parse)
  }

  predicate DomainAccepted(entry: DomainEntry, decode: Base64Decoder, parse: DerParser)
  {
    entry.keys != [] &&
    forall k :: 0 <= k < |entry.keys| ==> KeyAccepted(entry.name, entry.keys[k], decode, parse)
  }

  predicate DocumentAccepted(doc: BundleDocument, decode: Base64Decoder, parse: DerParser)
  {
    doc.trustDomains.Some? && doc.trustDomains.value != [] &&
    forall i :: 0 <= i < |doc.trustDomains.value| ==> DomainAccepted(doc.trustDomains.value[i], decode, parse)
  }

  /** The certificates one `x5c` list contributes, in order: those that carry a `spiffe://` URI SAN. */
  function ContributedByCerts(certs: seq<string>, decode: Base64Decoder, parse: DerParser): seq<Cert>
  {
    if certs == [] then []
    else
      var parsed := parse(decode(certs[0]));
      (if parsed.Some? && SpiffeDomainOf(parsed.value).Some? then [parsed.value] else [])
      + ContributedByCerts(certs[1..], decode, parse)
  }

  function ContributedByKeys(keys: seq<KeyObject>, decode: Base64Decoder, parse: DerParser): seq<Cert>
  {
    if keys == [] then []
    else
      (if keys[0].use == X509Svid then ContributedByCerts(keys[0].x5c, decode, parse) else [])
      + ContributedByKeys(keys[1..], decode, parse)
  }

  function ContributedByDomains(entries: seq<DomainEntry>, decode: Base64Decoder, parse: DerParser): seq<Cert>
  {
    if entries == [] then []
    else ContributedByKeys(entries[0].keys, decode, parse) + ContributedByDomains(entries[1..], decode, parse)
  }

  function DomainNames(entries: seq<DomainEntry>): set<string>
  {
    set i | 0 <= i < |entries| :: entries[i].name
  }

  /**
   * The snapshot invariant of bundle-map mode: every store holds exactly the
   * CA certificates whose embedded SPIFFE domain is the store's key, every CA
   * certificate sits in the store of its domain, and no store has CRLs or flags.
   */
  ghost predicate Indexed(data: SpiffeData)
  {
    (forall d :: d in data.trustBundleStores ==>
       data.trustBundleStores[d].crls == {} && data.trustBundleStores[d].flags == 0) &&
    (forall d, c :: d in data.trustBundleStores && c in data.trustBundleStores[d].certs ==>
       SpiffeDomainOf(c) == Some(d) && c in data.caCerts) &&
    (forall c :: c in data.caCerts ==>
       SpiffeDomainOf(c).Some? && SpiffeDomainOf(c).value in data.trustBundleStores &&
       c in data.trustBundleStores[SpiffeDomainOf(c).value].certs)
  }

  lemma AddToDomainIndexed(data: SpiffeData, domain: string, c: Cert)
    requires Indexed(data) && domain in data.trustBundleStores
    requires SpiffeDomainOf(c) == Some(domain)
    ensures Indexed(AddToDomain(data, domain, c))
    ensures AddToDomain(data, domain, c).trustBundleStores.Keys == data.trustBundleStores.Keys
  {
    var next := AddToDomain(data, domain, c);
    forall d, x | d in next.trustBundleStores && x in next.trustBundleStores[d].certs
      ensures SpiffeDomainOf(x) == Some(d) && x in next.caCerts
    {
      if d == domain && x == c {
      } else {
        assert x in data.trustBundleStores[d].certs;
      }
    }
  }

  /** A certificate list loads exactly when each of its certificates is acceptable. */
  lemma {:induction false} LoadCertsSucceeds(data: SpiffeData, domain: string, certs: seq<string>,
                                             decode: Base64Decoder, parse: DerParser)
    ensures LoadCerts(data, domain, certs, decode, parse).Success? <==>
            forall j :: 0 <= j < |certs| ==> CertAccepted(domain, certs[j], decode, parse)
    decreases |certs|
  {
    if certs != [] {
      var first := LoadCert(data, domain, certs[0], decode, parse);
      assert first.Success? <==> CertAccepted(domain, certs[0], decode, parse);
      if first.Success? {
        LoadCertsSucceeds(first.value, domain, certs[1..], decode, parse);
        assert forall j :: 1 <= j < |certs| ==> certs[j] == certs[1..][j - 1];
      }
    }
  }

  /** A loaded certificate list appends its contributing certificates to the CA list and adds no domain. */
  lemma {:induction false} LoadCertsContributes(data: SpiffeData, domain: string, certs: seq<string>,
                                                decode: Base64Decoder, parse: DerParser)
    requires domain in data.trustBundleStores
    requires LoadCerts(data, domain, certs, decode, parse).Success?
    ensures var next := LoadCerts(data, domain, certs, decode, parse).value;
            next.trustBundleStores.Keys == data.trustBundleStores.Keys &&
            next.caCerts == data.caCerts + ContributedByCerts(certs, decode, parse)
    decreases |certs|
  {
    if certs != [] {
      var first := LoadCert(data, domain, certs[0], decode, parse);
      assert first.Success?;
      var c := parse(decode(certs[0])).value;
      var added := if SpiffeDomainOf(c).Some? then [c] else [];
      var next := first.value;
      assert next == if SpiffeDomainOf(c).Some? then AddToDomain(data, domain, c) else data;
      assert next.caCerts == data.caCerts + added && next.trustBundleStores.Keys == data.trustBundleStores.Keys;
      assert LoadCerts(data, domain, certs, decode, parse) == LoadCerts(next, domain, certs[1..], decode, parse);
      LoadCertsContributes(next, domain, certs[1..], decode, parse);
      var rest := ContributedByCerts(certs[1..], decode, parse);
      assert ContributedByCerts(certs, decode, parse) == added + rest;
      AppendAssoc(data.caCerts, added, rest);
    }
  }

  /** Loading a certificate list keeps the snapshot invariant. */
  lemma {:induction false} LoadCertsIndexed(data: SpiffeData, domain: string, certs: seq<string>,
                                            decode: Base64Decoder, parse: DerParser)
    requires Indexed(data) && domain in data.trustBundleStores
    requires LoadCerts(data, domain, certs, decode, parse).Success?
    ensures Indexed(LoadCerts(data, domain, certs, decode, parse).value)
    decreases |certs|
  {
    if certs != [] {
      var first := LoadCert(data, domain, certs[0], decode, parse);
      var c := parse(decode(certs[0])).value;
      if SpiffeDomainOf(c).Some? {
        AddToDomainIndexed(data, domain, c);
      }
      LoadCertsIndexed(first.value, domain, certs[1..], decode, parse);
    }
  }

  lemma {:induction false} LoadKeysSucceeds(data: SpiffeData, domain: string, keys: seq<KeyObject>,
                                            decode: Base64Decoder, parse: DerParser)
    ensures LoadKeys(data, domain, keys, decode, parse).Success? <==>
            forall k :: 0 <= k < |keys| ==> KeyAccepted(domain, keys[k], decode, parse)
    decreases |keys|
  {
    if keys != [] {
      var first := LoadKey(data, domain, keys[0], decode, parse);
      LoadCertsSucceeds(data, domain, keys[0].x5c, decode, parse);
      if first.Success? {
        LoadKeysSucceeds(first.value, domain, keys[1..], decode, parse);
        assert forall k :: 1 <= k < |keys| ==> keys[k] == keys[1..][k - 1];
      }
    }
  }

  lemma {:induction false} LoadKeysContributes(data: SpiffeData, domain: string, keys: seq<KeyObject>,
                                               decode: Base64Decoder, parse: DerParser)
    requires domain in data.trustBundleStores
    requires LoadKeys(data, domain, keys, decode, parse).Success?
    ensures var next := LoadKeys(data, domain, keys, decode, parse).value;
            next.trustBundleStores.Keys == data.trustBundleStores.Keys &&
            next.caCerts == data.caCerts + ContributedByKeys(keys, decode, parse)
    decreases |keys|
  {
    if keys != [] {
      var first := LoadKey(data, domain, keys[0], decode, parse);
      var added := if keys[0].use == X509Svid then ContributedByCerts(keys[0].x5c, decode, parse) else [];
      if keys[0].use == X509Svid {
        LoadCertsContributes(data, domain, keys[0].x5c, decode, parse);
      }
      assert first.value.caCerts == data.caCerts + added;
      LoadKeysContributes(first.value, domain, keys[1..], decode, parse);
      var rest := ContributedByKeys(keys[1..], decode, parse);
      AppendAssoc(data.caCerts, added, rest);
    }
  }

  lemma {:induction false} LoadKeysIndexed(data: SpiffeData, domain: string, keys: seq<KeyObject>,
                                           decode: Base64Decoder, parse: DerParser)
    requires Indexed(data) && domain in data.trustBundleStores
    requires LoadKeys(data, domain, keys, decode, parse).Success?
    ensures Indexed(LoadKeys(data, domain, keys, decode, parse).value)
    decreases |keys|
  {
    if keys != [] {
      var first := LoadKey(data, domain, keys[0], decode, parse);
      if keys[0].use == X509Svid {
        LoadCertsIndexed(data, domain, keys[0].x5c, decode, parse);
        LoadCertsContributes(data, domain, keys[0].x5c, decode, parse);
      }
      LoadKeysIndexed(first.value, domain, keys[1..], decode, parse);
    }
  }

  lemma RegisterDomainIndexed(data: SpiffeData, domain: string)
    requires Indexed(data)
    ensures Indexed(RegisterDomain(data, domain))
    ensures RegisterDomain(data, domain).trustBundleStores.Keys == data.trustBundleStores.Keys + {domain}
    ensures RegisterDomain(data, domain).caCerts == data.caCerts
  {
  }

  lemma {:induction false} LoadDomainsSucceeds(data: SpiffeData, entries: seq<DomainEntry>,
                                               decode: Base64Decoder, parse: DerParser)
    ensures LoadDomains(data, entries, decode, parse).Success? <==>
            forall i :: 0 <= i < |entries| ==> DomainAccepted(entries[i], decode, parse)
    decreases |entries|
  {
    if entries != [] {
      var entry := entries[0];
      LoadKeysSucceeds(RegisterDomain(data, entry.name), entry.name, entry.keys, decode, parse);
      var first := LoadDomain(data, entry, decode, parse);
      if first.Success? {
        LoadDomainsSucceeds(first.value, entries[1..], decode, parse);
        assert forall i :: 1 <= i < |entries| ==> entries[i] == entries[1..][i - 1];
      }
    }
  }

  lemma DomainNamesCons(entries: seq<DomainEntry>)
    requires entries != []
    ensures DomainNames(entries) == {entries[0].name} + DomainNames(entries[1..])
  {
    forall n | n in DomainNames(entries) ensures n in {entries[0].name} + DomainNames(entries[1..]) {
      var i :| 0 <= i < |entries| && entries[i].name == n;
      if i > 0 { assert entries[1..][i - 1].name == n; }
    }
  }

  lemma {:induction false} LoadDomainsIndexed(data: SpiffeData, entries: seq<DomainEntry>,
                                              decode: Base64Decoder, parse: DerParser)
    requires Indexed(data)
    requires LoadDomains(data, entries, decode, parse).Success?
    ensures var next := LoadDomains(data, entries, decode, parse).value;
            Indexed(next) &&
            next.trustBundleStores.Keys == data.trustBundleStores.Keys + DomainNames(entries) &&
            next.caCerts == data.caCerts + ContributedByDomains(entries, decode, parse)
    decreases |entries|
  {
    if entries != [] {
      var entry := entries[0];
      var registered := RegisterDomain(data, entry.name);
      RegisterDomainIndexed(data, entry.name);
      LoadKeysIndexed(registered, entry.name, entry.keys, decode, parse);
      LoadKeysContributes(registered, entry.name, entry.keys, decode, parse);
      var first := LoadDomain(data, entry, decode, parse);
      LoadDomainsIndexed(first.value, entries[1..], decode, parse);
      DomainNamesCons(entries);
      var added := ContributedByKeys(entry.keys, decode, parse);
      var rest := ContributedByDomains(entries[1..], decode, parse);
      AppendAssoc(data.caCerts, added, rest);
    }
  }

  /**
   * All or nothing: the load succeeds exactly when `trust_domains` is present
   * and non-empty, every domain has keys, and every `x509-svid` certificate
   * decodes, parses and agrees with its enclosing domain. On success every
   * visited domain has a store, each store holds exactly the certificates of
   * its domain, and the CA list is every contributing certificate in document
   * order.
   */
  lemma LoadBundleCorrect(doc: BundleDocument, decode: Base64Decoder, parse: DerParser)
    ensures LoadBundle(doc, decode, parse).Success? <==> DocumentAccepted(doc, decode, parse)
    ensures LoadBundle(doc, decode, parse).Success? ==>
              var data := LoadBundle(doc, decode, parse).value;
              Indexed(data) &&
              data.trustBundleStores.Keys == DomainNames(doc.trustDomains.value) &&
              data.caCerts == ContributedByDomains(doc.trustDomains.value, decode, parse)
  {
    if doc.trustDomains.Some? && doc.trustDomains.value != [] {
      LoadDomainsSucceeds(EmptySpiffeData, doc.trustDomains.value, decode, parse);
      if LoadBundle(doc, decode, parse).Success? {
        LoadDomainsIndexed(EmptySpiffeData, doc.trustDomains.value, decode, parse);
      }
    }
  }

  /** The domain an error reports, for errors raised while loading a domain. */
  function ErrorDomain(e: LoadError): string
  {
    if e.NoTrustDomains? then "" else e.domain
  }

  /**
   * The load stops at the first bad domain: when every domain before index
   * `j` is acceptable and domain `j` is not, the load fails with an error
   * raised while loading domain `j`, whatever follows it.
   */
  lemma {:induction false} LoadDomainsFirstError(data: SpiffeData, entries: seq<DomainEntry>, j: nat,
                                                 decode: Base64Decoder, parse: DerParser)
    requires j < |entries|
    requires forall i :: 0 <= i < j ==> DomainAccepted(entries[i], decode, parse)
    requires !DomainAccepted(entries[j], decode, parse)
    ensures LoadDomains(data, entries, decode, parse).Failure?
    ensures !LoadDomains(data, entries, decode, parse).error.NoTrustDomains?
    ensures ErrorDomain(LoadDomains(data, entries, decode, parse).error) == entries[j].name
    decreases j
  {
    var entry := entries[0];
    var registered := RegisterDomain(data, entry.name);
    LoadKeysSucceeds(registered, entry.name, entry.keys, decode, parse);
    if j == 0 {
      if entry.keys != [] {
        LoadKeysErrorDomain(registered, entry.name, entry.keys, decode, parse);
      }
    } else {
      LoadDomainsFirstError(LoadDomain(data, entry, decode, parse).value, entries[1..], j - 1, decode, parse);
    }
  }

  /** Every error raised while loading the keys of `domain` names `domain`. */
  lemma {:induction false} LoadKeysErrorDomain(data: SpiffeData, domain: string, keys: seq<KeyObject>,
                                               decode: Base64Decoder, parse: DerParser)
    ensures LoadKeys(data, domain, keys, decode, parse).Failure? ==>
              !LoadKeys(data, domain, keys, decode, parse).error.NoTrustDomains? &&
              LoadKeys(data, domain, keys, decode, parse).error.domain == domain
    decreases |keys|
  {
    if keys != [] {
      LoadCertsErrorDomain(data, domain, keys[0].x5c, decode, parse);
      var first := LoadKey(data, domain, keys[0], decode, parse);
      if first.Success? {
        LoadKeysErrorDomain(first.value, domain, keys[1..], decode, parse);
      }
    }
  }

  lemma {:induction false} LoadCertsErrorDomain(data: SpiffeData, domain: string, certs: seq<string>,
                                                decode: Base64Decoder, parse: DerParser)
    ensures LoadCerts(data, domain, certs, decode, parse).Failure? ==>
              !LoadCerts(data, domain, certs, decode, parse).error.NoTrustDomains? &&
              LoadCerts(data, domain, certs, decode, parse).error.domain == domain
    decreases |certs|
  {
    if certs != [] {
      var first := LoadCert(data, domain, certs[0], decode, parse);
      if first.Success? {
        LoadCertsErrorDomain(first.value, domain, certs[1..], decode, parse);
      }
    }
  }
}
