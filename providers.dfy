/** The wallet-provider table of WalletManager: each wallet name with the
    host global that exposes its provider object. */
module Providers {
  import opened Results

  /** A provider object injected by a browser extension, by identity. */
  type ProviderRef = nat

  /** One entry of `walletProviders`: a provider object, or `undefined` when
      the extension is absent. */
  datatype WalletEntry = WalletEntry(name: string, provider: Option<ProviderRef>)

  /** (wallet name, global probed for it), in declaration order. */
  const PROVIDER_GLOBALS: seq<(string, string)> := [
    ("phantom", "phantom.solana"),
    ("solflare", "solflare"),
    ("slope", "slope"),
    ("backpack", "backpack"),
    ("glow", "glow"),
    ("exodus", "exodus"),
    ("coinbase", "coinbaseWalletExtension"),
    ("brave", "braveSolana"),
    ("degenWallet", "degenWallet"),
    ("clover", "clover"),
    ("math", "mathwallet")
  ]

  /** No wallet name occurs twice, as in an object literal. */
  predicate DistinctNames(entries: seq<WalletEntry>)
  {
    forall i, j :: 0 <= i < j < |entries| ==> entries[i].name != entries[j].name
  }

  lemma ProviderNamesDistinct()
    ensures forall i, j :: 0 <= i < j < |PROVIDER_GLOBALS| ==> PROVIDER_GLOBALS[i].0 != PROVIDER_GLOBALS[j].0
  {
  }

  /** `walletProviders` as the constructor builds it: for each wallet, the
      object found at its global in `window` (a map from global path to the
      object there), or `undefined`. */
  function Probe(window: map<string, ProviderRef>): (entries: seq<WalletEntry>)
    ensures |entries| == |PROVIDER_GLOBALS| && DistinctNames(entries)
    ensures forall i :: 0 <= i < |entries| ==>
      && entries[i].name == PROVIDER_GLOBALS[i].0
      && (entries[i].provider.Some? <==> PROVIDER_GLOBALS[i].1 in window)
      && (entries[i].provider.Some? ==> entries[i].provider.value == window[PROVIDER_GLOBALS[i].1])
  {
    ProviderNamesDistinct();
    seq(|PROVIDER_GLOBALS|, i requires 0 <= i < |PROVIDER_GLOBALS| =>
      var global := PROVIDER_GLOBALS[i].1;
      WalletEntry(PROVIDER_GLOBALS[i].0, if global in window then Some(window[global]) else None))
  }
}
