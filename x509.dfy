/**
 * The X.509 objects the validator handles, abstracted to the fields its
 * decisions read. Parsing, signatures and path building are not modelled:
 * they stay with the cryptographic library, which the rest of the model
 * receives as function parameters.
 */
module X509 {
  import opened Wrappers

  type byte = bv8

  /** `uint32_t`, the type of the day counts the validator reports. */
  newtype u32 = x: int | 0 <= x < 0x1_0000_0000

  const U32_MAX: u32 := 0xFFFF_FFFF

  /** Bits of the extension-flag word: EXFLAG_CA marks a certificate whose basic constraints say it is a CA. */
  const EXFLAG_CA: bv32 := 0x10

  /** Key-usage bits as returned by X509_get_key_usage. */
  const KU_CRL_SIGN: bv32 := 0x02
  const KU_KEY_CERT_SIGN: bv32 := 0x04

  /** Verification flags stored in an X509_STORE. */
  const X509_V_FLAG_CRL_CHECK: bv32 := 0x04
  const X509_V_FLAG_CRL_CHECK_ALL: bv32 := 0x08

  /** The type tag of a Subject Alternative Name entry (GEN_URI, GEN_DNS, ...). */
  datatype SanType = Uri | Dns | Email | IpAddress | OtherName

  /** One GENERAL_NAME entry, with its value as a string. */
  datatype GeneralName = GeneralName(kind: SanType, value: string)

  /**
   * A parsed certificate.
   * - `der` is its DER encoding, which tells apart certificates that agree
   *   on every other field (a rotated CA with the same subject and SAN);
   * - `subjectAltNames` is None when the certificate has no SAN extension;
   * - `extensionFlags` is what X509_get_extension_flags reports;
   * - `keyUsage` is what X509_get_key_usage reports (all bits set when the
   *   certificate carries no key-usage extension);
   * - `daysToExpiry` is what Utility::getDaysUntilExpiration reports at the
   *   time source's current time: whole days left, or None when unknown.
   */
  datatype Cert = Cert(
    der: seq<byte>,
    subject: string,
    subjectAltNames: Option<seq<GeneralName>>,
    extensionFlags: bv32,
    keyUsage: bv32,
    daysToExpiry: Option<u32>)

  /** A certificate revocation list, identified by its issuer and revoked serials. */
  datatype Crl = Crl(issuer: string, revokedSerials: set<nat>)

  /** One entry of a PEM bundle (X509_INFO): a certificate, a CRL, or both. */
  datatype PemEntry = PemEntry(x509: Option<Cert>, crl: Option<Crl>)

  /**
   * An X509_STORE: the trusted certificates and CRLs of one trust domain and
   * its verification flags. Adding an object that is already present leaves
   * the store as it is, so the contents are sets.
   */
  datatype Store = Store(certs: set<Cert>, crls: set<Crl>, flags: bv32)
  {
    /** X509_STORE_add_cert. */
    function AddCert(c: Cert): Store
    {
      this.(certs := certs + {c})
    }

    /** X509_STORE_add_crl. */
    function AddCrl(r: Crl): Store
    {
      this.(crls := crls + {r})
    }
  }

  /** X509_STORE_new. */
  const EmptyStore := Store({}, {}, 0)

  /**
   * What the loaders rely on from the store: adding an object already
   * present changes nothing, certificates and CRLs may be added in either
   * order, adding never touches the flags, and two different certificates
   * (say an old and a new CA of one domain) are both kept.
   */
  lemma StoreAddLaws(s: Store, c: Cert, c': Cert, r: Crl)
    ensures s.AddCert(c).AddCert(c) == s.AddCert(c)
    ensures s.AddCrl(r).AddCrl(r) == s.AddCrl(r)
    ensures s.AddCert(c).AddCrl(r) == s.AddCrl(r).AddCert(c)
    ensures c in s.AddCert(c).certs && r in s.AddCrl(r).crls
    ensures s.AddCert(c).flags == s.flags && s.AddCrl(r).flags == s.flags
    ensures c != c' ==> |EmptyStore.AddCert(c).AddCert(c').certs| == 2
  {
  }
}
