/** SpiffeData: the immutable trust snapshot that every worker slot points at. */
module Snapshot {
  import opened X509

  /**
   * The trust stores by trust-domain name, and every CA certificate across
   * all domains in load order (used for the session-id digest, the expiry
   * aggregate and the client CA list, never for lookup).
   */
  datatype SpiffeData = SpiffeData(trustBundleStores: map<string, Store>, caCerts: seq<Cert>)

  /** `std::make_shared<SpiffeData>()`: no stores and no CA certificates. */
  const EmptySpiffeData := SpiffeData(map[], [])

  /** The store registered for `domain`, or a fresh empty one. */
  function StoreOf(data: SpiffeData, domain: string): Store
  {
    if domain in data.trustBundleStores then data.trustBundleStores[domain] else EmptyStore
  }

  /**
   * Concatenation of CA lists regroups freely; stated once so that proofs
   * about lists built append by append can cite it.
   */
  lemma AppendAssoc<T>(a: seq<T>, b: seq<T>, c: seq<T>)
    ensures (a + b) + c == a + (b + c)
  {
  }
}
