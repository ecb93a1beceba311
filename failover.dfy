/** The RPC endpoints of `checkBalance` and the "first endpoint that answers"
    rule of its retry loop. */
module Failover {
  import opened Results

  type Url = string

  /** The canonical RPC URL of each network (`this.connections`). */
  const CONNECTIONS: map<string, Url> := map[
    "mainnet" := "https://api.mainnet-beta.solana.com",
    "devnet" := "https://api.devnet.solana.com",
    "testnet" := "https://api.testnet.solana.com"
  ]

  const SERUM_ENDPOINT: Url := "https://solana-api.projectserum.com"
  const RAYDIUM_ENDPOINT: Url := "https://solana-api.raydium.io"

  /** `this.connections[network]`, which is `undefined` for a network name
      outside the table. */
  function ConnectionUrl(network: string): (u: Option<Url>)
    ensures u.Some? <==> network in CONNECTIONS
  {
    if network in CONNECTIONS then Some(CONNECTIONS[network]) else None
  }

  /** The endpoints `checkBalance` tries, rebuilt on every call: the current
      network's URL, then the two fixed fallbacks. */
  function BalanceEndpoints(network: string): (e: seq<Option<Url>>)
    ensures |e| == 3 && e[0] == ConnectionUrl(network)
    ensures e[1] == Some(SERUM_ENDPOINT) && e[2] == Some(RAYDIUM_ENDPOINT)
  {
    [ConnectionUrl(network), Some(SERUM_ENDPOINT), Some(RAYDIUM_ENDPOINT)]
  }

  /** Index of the first attempt that returned a balance (`|results|` when
      none did): every earlier attempt failed. */
  function FirstSuccess(results: seq<Option<nat>>): (k: nat)
    ensures k <= |results|
    ensures forall j :: 0 <= j < k ==> results[j].None?
    ensures k < |results| ==> results[k].Some?
    decreases |results|
  {
    if results == [] then 0
    else if results[0].Some? then 0
    else 1 + FirstSuccess(results[1..])
  }

  /** The answer is decided by the attempts up to the first success: what
      later endpoints would have answered has no influence. */
  lemma FirstSuccessIgnoresLater(results: seq<Option<nat>>, other: seq<Option<nat>>, k: nat)
    requires k == FirstSuccess(results) && k < |results| && k < |other|
    requires forall j :: 0 <= j <= k ==> other[j] == results[j]
    ensures FirstSuccess(other) == k
  {
  }

  /** An attempt that succeeds after only failures is the first success. */
  lemma FirstSuccessAt(results: seq<Option<nat>>, k: nat)
    requires k < |results| && results[k].Some?
    requires forall j :: 0 <= j < k ==> results[j].None?
    ensures FirstSuccess(results) == k
  {
  }

  /** No endpoint answered exactly when every attempt failed. */
  lemma AllFailed(results: seq<Option<nat>>)
    ensures FirstSuccess(results) == |results| <==> forall j :: 0 <= j < |results| ==> results[j].None?
  {
  }
}
