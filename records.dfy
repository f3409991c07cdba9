/**
 * The stored suspended-tab record and the storage-key convention shared by
 * the background worker (which writes `suspended_<tabId>`), the placeholder
 * page (which reads it back) and the options page (which counts the keys
 * beginning with `suspended_`).
 */
module Records {

  import opened Strings

  /** What `suspendTab` stores: exactly these three properties. */
  datatype Record = Record(originalUrl: string, title: string, favicon: string)

  const Prefix: string := "suspended_"

  /** `suspended_${token}` */
  function KeyFor(token: string): (k: string)
    ensures |k| == |Prefix| + |token|
  {
    Prefix + token
  }

  /** The key the background worker writes for a numeric tab id. */
  function SuspendKey(tabId: nat): string
  {
    KeyFor(NatToString(tabId))
  }

  /** `key.startsWith('suspended_')`, the options page's test. */
  predicate IsSuspendedKey(k: string)
  {
    StartsWith(k, Prefix)
  }

  /** The token a suspended key carries after its prefix. */
  function TokenOf(k: string): string
    requires IsSuspendedKey(k)
  {
    k[|Prefix|..]
  }

  /** Every key built by the convention is counted as a suspended key, and gives its token back. */
  lemma KeyForRoundTrip(token: string)
    ensures IsSuspendedKey(KeyFor(token))
    ensures TokenOf(KeyFor(token)) == token
  {
  }

  /** Distinct tokens give distinct keys. */
  lemma KeyForInjective(a: string, b: string)
    requires KeyFor(a) == KeyFor(b)
    ensures a == b
  {
    KeyForRoundTrip(a);
    KeyForRoundTrip(b);
  }

  /** Distinct tabs are stored under distinct keys. */
  lemma SuspendKeyInjective(a: nat, b: nat)
    requires SuspendKey(a) == SuspendKey(b)
    ensures a == b
  {
    KeyForInjective(NatToString(a), NatToString(b));
    NatToStringInjective(a, b);
  }

  /** The keys of a store that the options page counts. */
  function SuspendedKeys<V>(m: map<string, V>): (ks: set<string>)
    ensures ks <= m.Keys
    ensures forall k :: k in ks <==> k in m && IsSuspendedKey(k)
  {
    set k | k in m && IsSuspendedKey(k)
  }

  /** Writing one suspended key adds it to the counted keys and changes nothing else. */
  lemma SuspendedKeysAfterWrite<V>(m: map<string, V>, k: string, v: V)
    requires IsSuspendedKey(k)
    ensures SuspendedKeys(m[k := v]) == SuspendedKeys(m) + {k}
    ensures |SuspendedKeys(m[k := v])| == |SuspendedKeys(m)| + (if k in m then 0 else 1)
  {
    // the membership fact keeps the cardinality step stable across solver seeds
    if k in m {
      assert k in SuspendedKeys(m);
    }
  }

  /** Removing a key removes it from the counted keys and changes nothing else. */
  lemma SuspendedKeysAfterRemove<V>(m: map<string, V>, k: string)
    ensures SuspendedKeys(m - {k}) == SuspendedKeys(m) - {k}
    ensures |SuspendedKeys(m - {k})| == |SuspendedKeys(m)| - (if k in SuspendedKeys(m) then 1 else 0)
  {
  }
}
