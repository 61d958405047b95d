# SPIFFE certificate validator: a Dafny model

This project models the SPIFFE certificate validator of a TLS proxy, as a
Dafny program with its properties proved. The validator accepts a peer
certificate chain only when all of the following hold:

- the leaf passes the X.509-SVID leaf checks;
- the leaf's trust domain, taken from its first URI subject-alternative
  name (SAN), has a configured trust store;
- generic path validation against that store succeeds;
- if SAN matchers are configured, one of them matches.

The trust stores come from one of two sources. A JSON bundle map gives
each trust domain its `x509-svid` keys. Alternatively, the configuration
lists static trust domains, each with a PEM bundle of certificates and
CRLs. In bundle-map mode a file watch reloads the map and posts the new
snapshot to every worker thread.

Modules, following the program's structure:

- `Wrappers`: Option and Result.
- `X509`: certificates, SAN entries, CRLs, PEM entries and trust stores as
  values, plus the OpenSSL flag constants.
- `TrustDomain`: trust-domain extraction from a `spiffe://` URI.
- `Snapshot`: `SpiffeData`, the immutable snapshot every worker reads.
- `BundleMap`: `loadTrustBundleMap`. A method with the source's three
  nested loops, proved equal to a fold that stops at the first error.
  Lemmas say when the load succeeds and that every store holds exactly the
  CA certificates of its own domain.
- `StaticDomains`: the constructor's static-domain loop, proved in the
  same way. Lemmas describe the stores, CRL flags, CA list and
  `ca_file_name_` it produces.
- `Policy`: the verification policy as functions of a snapshot. It covers
  the leaf precheck, the choice of store, the SAN matchers, the verdict
  with its diagnostic string, and the failure counter it bumps.
- `Validator`: the `SPIFFEValidator` and `ThreadLocalSpiffeState` classes.
  - The thread-local slot is a sequence of slot objects, one per thread.
    A worker is named by its index. Every method that reads the
    thread-local slot reads `slots[w]`.
  - The throwing constructor is the factory `NewValidator`, which returns
    the constructor's exception as a `Failure`.
  - The statistics object is shared with the owner, so it is a separate
    class.
  - The main-thread dispatcher's queue is the field `pendingUpdates`.

The model takes these library and system calls as parameters:

- base64 decoding;
- DER parsing;
- PEM parsing;
- data-source reading;
- X.509 path validation;
- SHA-256 fingerprints.

The bundle-map file comes in already read and parsed; `None` means it
could not be opened or parsed.

Points where the model follows the code rather than a comment or a first
reading:

- `ca_file_name_` names the LAST configured domain whose bundle
  contributed a certificate. The comment at
  `spiffe_validator.cc:244-246` says the first CA's information is
  returned, but the `ca_loaded` flag is reset for each domain, so every
  later domain overwrites the label. It does not name the domain of the
  first CA in the list.
- An empty static `trust_domains` list, with no bundle map, is not
  rejected. It yields a validator with no stores, which rejects every
  leaf that passes the precheck with "no trust bundle store".
- After a reload, workers read the new snapshot, but `spiffe_data_` (what
  `getSpiffeData` returns) still holds the snapshot installed at
  construction.
- A duplicate domain in a bundle map keeps the store already registered
  and adds to it. It is not an error. Such a duplicate arises only if the
  JSON library's `iterate` yields the same name twice; the model's
  document is a list of domains, so it allows this case.

## Model

| member | source | states |
|---|---|---|
| TrustDomain.UpToSlash | source/extensions/transport_sockets/tls/cert_validator/spiffe/spiffe_validator.cc:444-451 | the text before the first '/' (all of it when there is none) is a slash-free prefix that ends at a '/' or at the end |
| TrustDomain.ExtractTrustDomain | source/extensions/transport_sockets/tls/cert_validator/spiffe/spiffe_validator.cc:439-453 | empty unless the SAN starts with `spiffe://`; otherwise a slash-free prefix of the rest that stops at the first '/' or at the end |
| TrustDomain.UpToSlashUnique | source/extensions/transport_sockets/tls/cert_validator/spiffe/spiffe_validator.cc:444-451 | any slash-free prefix that ends at a '/' or at the end is the extracted text, so the extraction is fully determined |
| TrustDomain.ExtractFromSpiffeId | source/extensions/transport_sockets/tls/cert_validator/spiffe/spiffe_validator.cc:439-453 | round trip: the trust domain of `spiffe://<td><path>` is `td` for a slash-free `td` and a path that is empty or starts with '/' |
| TrustDomain.ExtractExamples | source/extensions/transport_sockets/tls/cert_validator/spiffe/spiffe_validator.cc:439-453 | `spiffe://example.org/svc` and `spiffe://example.org` give `example.org`; `https://example.org` gives the empty string |
| X509.StoreAddLaws | source/extensions/transport_sockets/tls/cert_validator/spiffe/spiffe_validator.cc:238-259 | the store operations the loaders use: re-adding a certificate or CRL changes nothing, certificates and CRLs may be added in either order, adding never touches the flags, and two different certificates (an old and a new CA of one domain) are both kept |
| BundleMap.FirstSpiffeUri | source/extensions/transport_sockets/tls/cert_validator/spiffe/spiffe_validator.cc:107-131 | the first URI SAN that starts with `spiffe://`: none exists before it, and nothing is returned when no entry qualifies |
| BundleMap.LoadTrustBundleMap | source/extensions/transport_sockets/tls/cert_validator/spiffe/spiffe_validator.cc:36-148 | the load loop returns exactly the all-or-nothing result of the fold over domains (in the order the parsed object is iterated), keys and certificates |
| BundleMap.LoadCertsSucceeds | source/extensions/transport_sockets/tls/cert_validator/spiffe/spiffe_validator.cc:91-131 | an `x5c` list loads exactly when every string decodes to non-empty bytes, parses, and any SPIFFE SAN names the enclosing domain |
| BundleMap.LoadCertsContributes | source/extensions/transport_sockets/tls/cert_validator/spiffe/spiffe_validator.cc:122-128 | a loaded `x5c` list appends exactly its certificates that carry a SPIFFE URI, in order, to the CA list |
| BundleMap.LoadCertsIndexed | source/extensions/transport_sockets/tls/cert_validator/spiffe/spiffe_validator.cc:91-131 | loading an `x5c` list keeps the snapshot indexed |
| BundleMap.LoadKeysSucceeds | source/extensions/transport_sockets/tls/cert_validator/spiffe/spiffe_validator.cc:88-133 | a key array loads exactly when every `x509-svid` key's certificates are acceptable; keys with another `use` are skipped |
| BundleMap.LoadKeysContributes | source/extensions/transport_sockets/tls/cert_validator/spiffe/spiffe_validator.cc:88-133 | a loaded key array contributes the certificates of its `x509-svid` keys, in order |
| BundleMap.LoadKeysIndexed | source/extensions/transport_sockets/tls/cert_validator/spiffe/spiffe_validator.cc:88-133 | loading a key array keeps the snapshot indexed |
| BundleMap.LoadDomainsSucceeds | source/extensions/transport_sockets/tls/cert_validator/spiffe/spiffe_validator.cc:69-140 | the domain fold succeeds exactly when every domain has a non-empty `keys` array and every key is acceptable |
| BundleMap.LoadDomainsIndexed | source/extensions/transport_sockets/tls/cert_validator/spiffe/spiffe_validator.cc:69-140 | a successful domain fold yields an indexed snapshot whose domains are the visited names and whose CA list is every contributed certificate in the order the domains are iterated |
| BundleMap.LoadBundleCorrect | source/extensions/transport_sockets/tls/cert_validator/spiffe/spiffe_validator.cc:60-147 | the load succeeds exactly when `trust_domains` is present, non-empty and every domain is acceptable; then every store holds exactly the CA certificates of its own domain, every CA certificate is in its domain's store, and no store has CRLs or flags |
| BundleMap.LoadDomainsFirstError | source/extensions/transport_sockets/tls/cert_validator/spiffe/spiffe_validator.cc:69-143 | the load stops at the first unacceptable domain: it fails with an error raised for that domain whatever follows it |
| BundleMap.LoadKeysErrorDomain | source/extensions/transport_sockets/tls/cert_validator/spiffe/spiffe_validator.cc:88-133 | every error raised while loading a domain's keys names that domain |
| BundleMap.LoadCertsErrorDomain | source/extensions/transport_sockets/tls/cert_validator/spiffe/spiffe_validator.cc:91-131 | every error raised while loading a domain's certificates names that domain |
| StaticDomains.LoadTrustDomains | source/extensions/transport_sockets/tls/cert_validator/spiffe/spiffe_validator.cc:215-264 | the constructor's static loop returns exactly the configuration-order fold: duplicate names, unreadable sources and empty PEM bundles fail; every certificate and CRL goes into its domain's store |
| StaticDomains.LoadBundleEntries | source/extensions/transport_sockets/tls/cert_validator/spiffe/spiffe_validator.cc:234-262 | the loop over one domain's PEM entries builds exactly that domain's store (all certificates and CRLs, CRL checking on exactly when a CRL is present), appends its certificates to the CA list in order, and sets the domain's label once it has a certificate |
| StaticDomains.AppendEntry | source/extensions/transport_sockets/tls/cert_validator/spiffe/spiffe_validator.cc:238-259 | one more PEM entry adds its certificate to the store and the end of the CA list, adds its CRL, and turns on `has_crl` exactly when it carries a CRL |
| StaticDomains.AddTrustDomainsFirstError | source/extensions/transport_sockets/tls/cert_validator/spiffe/spiffe_validator.cc:217-233 | the static loop throws at the first domain it cannot accept, whatever follows: a name already registered or used earlier gives the duplicate-domain exception for that name; otherwise an unreadable source gives the read exception; otherwise an empty PEM bundle gives "Failed to load trusted CA certificate for" that name |
| StaticDomains.AddTrustDomainsSucceeds | source/extensions/transport_sockets/tls/cert_validator/spiffe/spiffe_validator.cc:218-232 | the static fold succeeds exactly when names are pairwise distinct, not already registered, and every source reads and yields a PEM entry |
| StaticDomains.LoadTrustDomainsSucceeds | source/extensions/transport_sockets/tls/cert_validator/spiffe/spiffe_validator.cc:218-232 | from the empty snapshot: success exactly when names are distinct and every source is loadable; an empty list succeeds |
| StaticDomains.AddTrustDomainsKeys | source/extensions/transport_sockets/tls/cert_validator/spiffe/spiffe_validator.cc:218-263 | a successful static fold registers exactly the configured names |
| StaticDomains.AddTrustDomainsStores | source/extensions/transport_sockets/tls/cert_validator/spiffe/spiffe_validator.cc:234-263 | each domain's store holds exactly the certificates and CRLs of its source, with CRL checking on exactly when the source has a CRL |
| StaticDomains.AddTrustDomainsCaCerts | source/extensions/transport_sockets/tls/cert_validator/spiffe/spiffe_validator.cc:239-242 | the CA list is every certificate of every source, domain by domain in configuration order |
| StaticDomains.AddTrustDomainsCaFileName | source/extensions/transport_sockets/tls/cert_validator/spiffe/spiffe_validator.cc:243-252 | `ca_file_name_` ends up naming the last domain that contributed a certificate, as `name: file` or `name: <inline>` |
| StaticDomains.LoadTrustDomainsResult | source/extensions/transport_sockets/tls/cert_validator/spiffe/spiffe_validator.cc:215-264 | summary of a successful static load: stores keyed by the configured names, contents and CRL flags per source, CA list in order, last contributing domain's label |
| Policy.CertificatePrecheck | source/extensions/transport_sockets/tls/cert_validator/spiffe/spiffe_validator.cc:408-418 | a leaf passes exactly when it is not a CA and may sign neither certificates nor CRLs |
| Policy.FirstUri | source/extensions/transport_sockets/tls/cert_validator/spiffe/spiffe_validator.cc:388-397 | the first URI-type SAN, whatever its scheme: none exists before it, and nothing is returned when there is no URI SAN |
| Policy.LookupUsesFirstUriOnly | source/extensions/transport_sockets/tls/cert_validator/spiffe/spiffe_validator.cc:380-406 | only the first URI SAN decides the store: that entry's non-empty, configured trust domain selects its store, otherwise there is none |
| Policy.NoStoreWithoutUri | source/extensions/transport_sockets/tls/cert_validator/spiffe/spiffe_validator.cc:383-401 | a leaf without a SAN extension or without a URI SAN gets no store |
| Policy.UriMatchers | source/extensions/transport_sockets/tls/cert_validator/spiffe/spiffe_validator.cc:179-190 | the kept matchers are exactly the configured URI-type matchers, never more than configured |
| Policy.OnlyUriSansCanMatch | source/extensions/transport_sockets/tls/cert_validator/spiffe/spiffe_validator.cc:179-190 | with only URI matchers kept, a leaf can pass the SAN policy only through a URI entry |
| Policy.VerifyWithTrustBundleStore | source/extensions/transport_sockets/tls/cert_validator/spiffe/spiffe_validator.cc:312-355 | acceptance exactly when precheck, store lookup, path validation and SAN policy (vacuous without matchers) all pass; a SAN-counter failure always carries the SAN-match diagnostic |
| Policy.DoVerifyCertChain | source/extensions/transport_sockets/tls/cert_validator/spiffe/spiffe_validator.cc:357-378 | success exactly when the chain is non-empty and its first certificate is accepted; success has no error details and the Validated status; an empty chain is NotValidated and any other failure is Failed |
| Policy.VerificationOrder | source/extensions/transport_sockets/tls/cert_validator/spiffe/spiffe_validator.cc:312-378 | each step in order decides the outcome when it fails: empty chain, precheck and missing store give their own diagnostics; a context-setup failure its own; a rejected path "verify cert failed: " plus the validator's diagnostic; a SAN mismatch after a verified path "SAN match". Only the SAN mismatch bumps the SAN counter, every other failure the error counter, and success none |
| Policy.CaLeafAlwaysRejected | source/extensions/transport_sockets/tls/cert_validator/spiffe/spiffe_validator.cc:316-320 | a leaf with the CA flag fails with the precheck diagnostic whatever the snapshot, chain or path validation |
| Validator.SslStats.constructor | source/extensions/transport_sockets/tls/cert_validator/spiffe/spiffe_validator.h:148 | the failure counters start at zero |
| Validator.ThreadLocalSpiffeState.constructor | source/extensions/transport_sockets/tls/cert_validator/spiffe/spiffe_validator.cc:198-200 | a new slot holds no snapshot |
| Validator.ThreadLocalSpiffeState.GetSpiffeData | source/extensions/transport_sockets/tls/cert_validator/spiffe/spiffe_validator.h:105 | the slot reports the snapshot it currently holds |
| Validator.ThreadLocalSpiffeState.UpdateSpiffeData | source/extensions/transport_sockets/tls/cert_validator/spiffe/spiffe_validator.h:106-109 | only this slot changes, and `getSpiffeData` then returns exactly the new snapshot |
| Validator.CreateSlots | source/extensions/transport_sockets/tls/cert_validator/spiffe/spiffe_validator.cc:198-200 | one fresh, distinct, empty slot per thread |
| Validator.SpiffeValidator.constructor | source/extensions/transport_sockets/tls/cert_validator/spiffe/spiffe_validator.h:49-59 | the unconfigured validator: every thread reads the empty snapshot; no matchers, no CA label, no watch |
| Validator.SpiffeValidator.Install | source/extensions/transport_sockets/tls/cert_validator/spiffe/spiffe_validator.cc:198-213 | fresh slots, then a broadcast: every thread reads the given snapshot and the configuration fields hold the given values |
| Validator.SpiffeValidator.UpdateSpiffeData | source/extensions/transport_sockets/tls/cert_validator/spiffe/spiffe_validator.h:126-136 | after the broadcast every thread's slot holds the new snapshot |
| Validator.SpiffeValidator.UpdateSpiffeDataAsync | source/extensions/transport_sockets/tls/cert_validator/spiffe/spiffe_validator.h:115-124 | the broadcast is only queued on the main-thread dispatcher; no slot changes, and the validator's own `spiffe_data_` is untouched |
| Validator.SpiffeValidator.RunPostedUpdate | source/extensions/transport_sockets/tls/cert_validator/spiffe/spiffe_validator.h:117-123 | running the oldest queued update points every thread at that snapshot and removes it from the queue; `getSpiffeData` still returns the startup snapshot |
| Validator.SpiffeValidator.OnTrustBundleModified | source/extensions/transport_sockets/tls/cert_validator/spiffe/spiffe_validator.cc:150-163 | a reload that loads queues exactly its snapshot; a failed reload queues nothing, so workers keep the last good snapshot; `getSpiffeData` is unchanged either way |
| Validator.SpiffeValidator.GetSpiffeData | source/extensions/transport_sockets/tls/cert_validator/spiffe/spiffe_validator.h:89-91 | returns the validator's own `spiffe_data_`, which only construction sets: a reload reaches the workers' slots but not this field |
| Validator.SpiffeValidator.GetCaFileName | source/extensions/transport_sockets/tls/cert_validator/spiffe/spiffe_validator.h:82 | returns the `ca_file_name_` label recorded at construction |
| Validator.SpiffeValidator.GetTrustBundleStore | source/extensions/transport_sockets/tls/cert_validator/spiffe/spiffe_validator.cc:380-406 | the store is the one the first-URI policy selects in the calling worker's snapshot |
| Validator.SpiffeValidator.MatchSubjectAltName | source/extensions/transport_sockets/tls/cert_validator/spiffe/spiffe_validator.cc:420-437 | true exactly when some SAN entry satisfies some kept matcher; a leaf without SANs matches nothing |
| Validator.SpiffeValidator.VerifyCertChainUsingTrustBundleStore | source/extensions/transport_sockets/tls/cert_validator/spiffe/spiffe_validator.cc:312-355 | the verdict and diagnostic are the policy's on the worker's snapshot; exactly the named counter goes up by one on failure |
| Validator.SpiffeValidator.DoVerifyCertChain | source/extensions/transport_sockets/tls/cert_validator/spiffe/spiffe_validator.cc:357-378 | the result is the policy's verdict; the error counter goes up for an empty chain and every non-SAN failure, the SAN counter for a SAN mismatch |
| Validator.SpiffeValidator.InitializeSslContexts | source/extensions/transport_sockets/tls/cert_validator/spiffe/spiffe_validator.cc:308-310 | the verify mode sets exactly the two bits that make peers present a certificate and fail the handshake without one |
| Validator.SpiffeValidator.DaysUntilFirstCertExpires | source/extensions/transport_sockets/tls/cert_validator/spiffe/spiffe_validator.cc:455-470 | nothing when any CA's expiry is unknown; the maximum 32-bit value when there are no CAs; otherwise the fewest days left over all CAs, attained by some CA |
| Validator.SpiffeValidator.GetCaCertInformation | source/extensions/transport_sockets/tls/cert_validator/spiffe/spiffe_validator.cc:472-480 | nothing exactly when there is no CA; otherwise the first CA of the worker's snapshot with `ca_file_name_` |
| Validator.SpiffeValidator.AddClientValidationContext | source/extensions/transport_sockets/tls/cert_validator/spiffe/spiffe_validator.cc:269-291 | the client CA list is the CA subjects with repeats dropped |
| Validator.SpiffeValidator.UpdateDigestForSessionId | source/extensions/transport_sockets/tls/cert_validator/spiffe/spiffe_validator.cc:293-306 | the digest is fed each CA's fingerprint in CA-list order: 32 bytes per CA |
| Validator.DistinctSubjects | source/extensions/transport_sockets/tls/cert_validator/spiffe/spiffe_validator.cc:276-288 | every listed name is some CA's subject, every CA subject is listed, and no name is listed twice |
| Validator.FirstSubjectIndex | source/extensions/transport_sockets/tls/cert_validator/spiffe/spiffe_validator.cc:276-283 | the first CA with a given subject: it has that subject and no earlier CA does |
| Validator.DistinctSubjectsFirstSeen | source/extensions/transport_sockets/tls/cert_validator/spiffe/spiffe_validator.cc:276-288 | names are listed in first-seen order: the earlier name belongs to the earlier CA |
| Validator.DigestInput | source/extensions/transport_sockets/tls/cert_validator/spiffe/spiffe_validator.cc:298-305 | with 32-byte fingerprints, the digest input is 32 bytes per CA |
| Validator.DigestInputAppend | source/extensions/transport_sockets/tls/cert_validator/spiffe/spiffe_validator.cc:298-305 | the digest input of a concatenated CA list is the concatenation of the inputs |
| Validator.SelectUriMatchers | source/extensions/transport_sockets/tls/cert_validator/spiffe/spiffe_validator.cc:179-190 | the constructor's matcher loop keeps exactly the URI-type matchers, in configuration order |
| Validator.BundleFromFile | source/extensions/transport_sockets/tls/cert_validator/spiffe/spiffe_validator.cc:36-148 | loading yields a snapshot exactly when the file reads and parses and the document is accepted; that snapshot is indexed, keyed by the document's domain names, with the contributed CA list |
| Validator.LoadTrustBundleMapFile | source/extensions/transport_sockets/tls/cert_validator/spiffe/spiffe_validator.cc:36-148 | the load method returns exactly what the bundle-map loading function describes |
| Validator.ConfiguredSnapshot | source/extensions/transport_sockets/tls/cert_validator/spiffe/spiffe_validator.cc:192-264 | construction succeeds exactly when not both trust sources are set and the chosen source loads; bundle-map mode installs exactly the snapshot the bundle-map load returned, which is indexed, with an empty CA label; a failed bundle-map load gives the bundle-map exception; static mode gives exactly the static load, failure included, so on success each configured name maps to the store built from its own source (certificates, CRLs, CRL flags), with the CA list and label of that load |
| Validator.StaticConfigFirstError | source/extensions/transport_sockets/tls/cert_validator/spiffe/spiffe_validator.cc:215-233 | in static mode the constructor throws at the first unacceptable domain: a repeated name before a read failure, a read failure before an empty bundle, each naming that domain |
| Validator.NewValidator | source/extensions/transport_sockets/tls/cert_validator/spiffe/spiffe_validator.cc:165-267 | the factory fails with exactly the constructor's exception, or returns a fresh validator whose every thread reads the configured snapshot, with URI matchers kept and a file watch exactly in bundle-map mode |
| Validator.BundleStoreScopedToLeafDomain | source/extensions/transport_sockets/tls/cert_validator/spiffe/spiffe_validator.cc:380-406 | in bundle-map mode the store chosen for a leaf holds only CAs whose SPIFFE ID is in the leaf's trust domain |
| Validator.StaticStoreForLeaf | source/extensions/transport_sockets/tls/cert_validator/spiffe/spiffe_validator.cc:215-264 | in static mode, with distinct names and loadable sources, the load succeeds and the store chosen for a leaf is built from the configured source named by the leaf's trust domain |

## Left out

- Reading the bundle-map file and parsing its JSON text: the model takes
  the parsed document, or `None` when the file cannot be opened or parsed.
  Fields of the wrong JSON type, and duplicate keys inside one JSON object,
  are not modelled.
- A missing `trust_domains`, `keys`, `use` or `x5c` member: the JSON
  getters run outside the `try` around the parse, and what they do on a
  missing member belongs to the JSON library, which is not part of this
  model. The model treats a missing `trust_domains` as a null return and
  always gives domains and keys their members; an exception escaping the
  load (at construction, or out of the watch callback) is not modelled.
- Base64 decoding, DER and PEM parsing, and data-source reading: these are
  function parameters. Certificates are values with the fields the
  validator looks at: the DER encoding (which identifies a certificate),
  subject, SAN entries, extension flags, key usage, and the days until
  expiry that `Utility::getDaysUntilExpiration` reports at the current
  time. The clock itself is not modelled.
- `X509_verify_cert`, `X509_STORE_CTX_init`, `X509_VERIFY_PARAM_set1` and
  the allow-expired setting: one path-validation parameter that gets the
  store, leaf, chain, parameters and the allow-expired flag. Its
  diagnostics are opaque strings.
- Allocation failures are not modelled: a failed `X509_STORE_add_cert` in
  bundle-map mode, a failed `X509_NAME_dup` or `sk_X509_NAME_push` in
  `addClientValidationContext`, and a failed `make_shared`. The static
  loop ignores the result of `X509_STORE_add_cert`, and so does the model.
- The text of the exception a failed data-source read raises: it belongs to
  `Config::DataSource::read`, which is not part of this model. The model
  records only that the read failed and at which domain.
- The SHA-256 computation and the `EVP_MD_CTX` state: the digest is
  modelled by the bytes fed to it.
- `Validator.SpiffeValidator.UpdateDigestForSessionId`: requires 32-byte
  fingerprints. The source aborts through `RELEASE_ASSERT` otherwise, and
  the model does not capture that abort.
- `Validator.SpiffeValidator.GetCaCertInformation`: returns the first CA
  and the label, not the formatted certificate details, because
  `Utility::certificateDetails` is not part of this model.
- Real threads and the dispatcher: a thread is a slot index, and running a
  posted task is an explicit method. Interleavings of readers with a
  broadcast in progress are not modelled.
- The file watcher's registration and its event mask: a flag records that
  a watch exists.
- Logging and the stats plumbing beyond the two failure counters.
- The `spiffe_refresh_hint` and `spiffe_sequence` fields of `SpiffeData`:
  they are never read or written by the validator.
- Other string-matcher forms (regular expressions, case-insensitive
  matching): the model has exact, prefix, suffix and substring matchers.
- URIs with embedded NUL bytes: the bundle-map loader reads a URI as a C
  string, and the model treats SAN values as whole strings.
- X.509 name comparison: subjects are compared as strings, standing in for
  `X509_NAME_cmp`.
- The validator factory's registration under
  `envoy.tls.cert_validator.spiffe`, and the translation of the opaque
  configuration message.
