# HAVN wallet session: a Dafny model

This project models `WalletManager` from `script.js`. `WalletManager` is the session object of a browser dApp that finds a wallet's abandoned token accounts on Solana and reclaims their lamports. An abandoned account is a token account whose token balance is zero but which still holds its rent. The model covers:

- the per-action cooldown `isRateLimited` over `rateLimitMap`;
- the abandoned-account filter of `findAbandonedAccounts` and its lifecycle in `abandonedAccounts`;
- the claim transaction built by `claimAbandonedAccounts`, and when the list is cleared;
- the endpoint failover loop of `checkBalance`;
- the error classifier `handleError`;
- the connection and rate-limit guards of `getAccountInfo`, `checkBalance` and `claimSol`;
- the provider table and `detectWallets`.

Modules:

- `Results`: `Option`, `Result` and `Outcome`. A thrown `Error` is `Err(message)`, and `null`/`undefined` is `None`.
- `Errors`: the fixed messages. `Contains` is `String.prototype.includes`, and `HandleError` is `handleError`.
- `Accounts`: scanned token-account records, the scan query (token program, data size 165, owner at offset 32), the `uiAmount === 0` filter, transfers, and lamport totals.
- `RateLimit`: the cooldown table (`connect` 1000 ms, `claim` 5000 ms) and the blocking rule. `Replay` folds a run of calls from a fresh session.
- `Failover`: the network URLs, the fallback endpoints, and the first-success rule.
- `Providers`: the eleven wallet names with the host globals probed for them.
- `Wallet`: the class `WalletManager` with fields `currentNetwork`, `publicKey`, `walletProviders`, `rateLimitMap` and `abandonedAccounts`, and one method per operation.

Ledger RPC, the wallet provider, the `/api/claim` backend and `Date.now()` are parameters:

- The ledger, provider and backend are functions from the request to what the awaited call gave, or the message it threw.
- `checkBalance` takes one outcome per endpoint attempt.
- The clock is a `now` argument.

Methods that call out return what they sent (`submitted`, `request`, `tried`). Their contracts can then say which calls were made and in what order.

Behaviour of the code that a reader might not expect, kept as the code has it:

- Only `claimSol` consults the rate limiter; `claimAbandonedAccounts` is not rate limited.
- Nothing clears `abandonedAccounts` when the network changes.
- `claimAbandonedAccounts` has no connection guard. With no key, the model puts the null destination into the transfers, as the code does.
- `findAbandonedAccounts` has no connection guard either. With no key it fails with V8's TypeError for reading `toBase58` of `null`, and that error passes through `handleError`.

## Model

| member | source | states |
|---|---|---|
| Errors.ContainsOccurs | script.js:243 | `includes` holds exactly when the pattern occurs at some index of the message |
| Errors.Contains | script.js:243 | `message.includes(code)`: the pattern occurs as a contiguous substring (characterised by ContainsOccurs) |
| Errors.HandleError | script.js:242-248 | the classified message never mentions 403 |
| Errors.HandleErrorPassThrough | script.js:242-248 | a message is returned unchanged if and only if it does not contain "403" |
| Errors.HandleErrorDenied | script.js:243-244 | any message containing "403" becomes "Network connection error. Please try again later." |
| Errors.HandleErrorIdempotent | script.js:242-248 | classifying a classified message changes nothing |
| Errors.OwnMessagesPassThrough | script.js:242-248 | the messages thrown inside `try` blocks (all endpoints failed, claim request failed, the null-key and null-account TypeErrors) leave `handleError` unchanged |
| Accounts.OwnedTokenAccounts | script.js:73-88 | the scan asks the token program for 165-byte accounts whose bytes at offset 32 are the wallet's key |
| Accounts.IsAbandoned | script.js:91-92 | the filter predicate: the record's `tokenAmount.uiAmount` is 0 |
| Accounts.Abandoned | script.js:90-93 | the filter never grows the list and keeps only records with `uiAmount` 0 |
| Accounts.AbandonedMembers | script.js:90-93 | a record is in the result if and only if it was scanned and its `uiAmount` is 0 |
| Accounts.AbandonedAppend | script.js:90-93 | filtering distributes over concatenation, so scan order is preserved |
| Accounts.AbandonedCounts | script.js:90-93 | each zero-balance record is kept as many times as it was scanned; every other record is dropped |
| Accounts.AbandonedKeepsAbandoned | script.js:90-93 | a list of zero-balance records is its own filter |
| Accounts.AbandonedIdempotent | script.js:90-95 | deriving the abandoned list from its own output yields the same list |
| Accounts.ClaimMovesAllLamports | script.js:110-118 | a claim transaction moves, in total, exactly the lamports the claimed accounts hold |
| Accounts.ClaimTransactionUnique | script.js:108-118 | the claim transaction is determined by the account list and the destination |
| RateLimit.Cooldown | script.js:229-232 | exactly `connect` and `claim` have a cooldown |
| RateLimit.Blocked | script.js:234 | the action has a recorded time that is not 0 (0 is falsy), it has a cooldown (an `undefined` cooldown never blocks), and less than the cooldown has elapsed |
| RateLimit.ReplayStep | script.js:234-239 | one more call leaves the map alone when blocked and records `now` for its action otherwise; it is admitted exactly when not blocked |
| RateLimit.ReplayHoldsLatestAdmitted | script.js:226-239 | the map has an entry for an action exactly when one of its calls was admitted, and the entry is the latest admitted time |
| RateLimit.AdmittedAreSpaced | script.js:226-239 | with a clock that never reads 0, any two admitted calls of `connect` (or of `claim`) are at least 1000 ms (5000 ms) apart |
| RateLimit.FirstAttemptAdmitted | script.js:228-234 | an action with no entry is never blocked |
| RateLimit.ClaimWindow | script.js:229-238 | after a `claim` admitted at time t, a `claim` at t+4999 is blocked and one at t+5000 is admitted |
| RateLimit.ActionsAreIndependent | script.js:238 | recording one action does not change whether another is blocked |
| Failover.ConnectionUrl | script.js:3-7 | a network has a URL exactly when it is mainnet, devnet or testnet |
| Failover.BalanceEndpoints | script.js:158-162 | the current network's URL first, then the projectserum and raydium fallbacks |
| Failover.FirstSuccess | script.js:164-173 | the index returned is the first attempt that produced a balance; every earlier attempt failed |
| Failover.FirstSuccessAt | script.js:164-173 | an attempt that succeeds after only failures is the one whose balance is returned |
| Failover.FirstSuccessIgnoresLater | script.js:164-173 | outcomes after the first success have no influence |
| Failover.AllFailed | script.js:164-174 | no attempt succeeds exactly when every attempt failed |
| Providers.ProviderNamesDistinct | script.js:14-26 | the eleven wallet names are pairwise distinct |
| Providers.Probe | script.js:14-26 | one entry per wallet, in declaration order; present exactly when its global exists, holding that object |
| Wallet.WalletManager.constructor | script.js:2-30 | a new session is on mainnet with no key, an empty rate-limit map, no abandoned accounts and the probed providers |
| Wallet.WalletManager.DetectWallets | script.js:32-40 | a wallet name is returned exactly when its provider is present, mapped to that provider |
| Wallet.WalletManager.FindAbandonedAccounts | script.js:65-100 | on a successful scan the stored and returned list is `Abandoned(scan)`; on a failed scan or a missing key it fails through `handleError` and keeps the old list |
| Wallet.WalletManager.BuildClaimTransaction | script.js:108-118 | one transfer per abandoned account, in list order, from that account to `publicKey` with that account's lamports, moving their total |
| Wallet.WalletManager.ClaimAbandonedAccounts | script.js:102-130 | an empty list fails with 'No abandoned accounts found' before any provider call; otherwise the claim transaction is submitted, the list is cleared only when sending and confirming both succeed, and a failure passes through `handleError` and keeps the list |
| Wallet.WalletManager.GetAccountInfo | script.js:132-151 | without a key it fails with 'Wallet not connected'; otherwise it reports the balance, the token accounts and the current abandoned list, or the first failure through `handleError` |
| Wallet.WalletManager.CheckBalance | script.js:153-179 | without a key it fails with 'Wallet not connected' and asks no endpoint; otherwise it asks the endpoints in order up to the first success and returns its balance, and fails with 'Failed to fetch balance from all endpoints' only after all three failed |
| Wallet.WalletManager.ClaimSol | script.js:181-224 | the key check comes first and leaves the rate-limit map alone; a blocked `claim` fails before any request; otherwise `now` is recorded, the request carries wallet, amount and network, and each failure is reported as the code reports it |
| Wallet.WalletManager.IsRateLimited | script.js:226-240 | returns whether the action is blocked; a blocked call leaves the map exactly as it was, and an admitted call records `now` for that action only |

## Left out

- `connectWallet` (script.js:42-63) first calls `this.showLoading` (line 44), which `WalletManager` does not define, and its `catch` and `finally` call similarly undefined methods. It always rejects with a TypeError and never sets `publicKey` or `currentProvider`. It is not modelled. No method sets `publicKey`; it is a public field that callers assign.
- `currentProvider` is `null` after construction (script.js:27) and nothing in the file assigns it. The `signAndSend` parameter of `ClaimAbandonedAccounts` and the `signSendConfirm` parameter of `ClaimSol` stand for a provider that a caller has assigned. With the constructor's `null`, those steps reject with "Cannot read properties of null (reading 'signAndSendTransaction')" or "(reading 'signTransaction')", which then passes through `handleError`.
- The network selector (script.js:303-306) only assigns `currentNetwork`, which callers can do directly. `setupNetworkListener` (script.js:250-263) has no caller, so `this.connection` stays the mainnet connection built at script.js:9-12 for the whole session.
- Network of the ledger parameters: the ledger parameters of `FindAbandonedAccounts`, `GetAccountInfo`, `ClaimAbandonedAccounts` (confirmation) and `ClaimSol` (send and confirm) stand for that construction-time mainnet connection, whatever `currentNetwork` is. Only `CheckBalance`'s first endpoint and the `network` field of `ClaimSol`'s request follow `currentNetwork`. The model's ledger parameters carry no network, so this split is not expressed in the contracts.
- Networking: every RPC call, the `fetch` to `/api/claim`, base-64 deserialisation, signing and serialisation are parameters. `ClaimSol` folds deserialising, signing, sending and confirming the backend's transaction into one parameter.
- Floating point: balances are integer lamports. The division by `LAMPORTS_PER_SOL` (script.js:143, 168) is not modelled. `uiAmount` is a `real` compared with 0.
- The second program id at script.js:69 is declared but never used by the scan, so it is not modelled.
- Malformed scan records: reading `acc.account.data.parsed.info` throws when a record is not parsed. The model's records always carry `uiAmount`.
- `getAccountInfo` returns the `abandonedAccounts` array itself, and the model returns its value. Nothing is lost: the field is only ever reassigned (script.js:90, 124), never changed in place.
- HandleError (Errors.HandleError): `handleError` reads `error.message.includes` (script.js:243). A rejection whose value has no string `message` (a bare string, or an object without one) makes `handleError` itself throw "Cannot read properties of undefined (reading 'includes')", and that error replaces the original in every `catch`. The model's errors always carry a string message, so this case is not expressed.
- DetectWallets (Wallet.WalletManager.DetectWallets): the source returns an object whose keys keep the declaration order of `walletProviders`, and the wallet modal lists them in that order (script.js:313). The model returns a `map`, which keeps the set of wallets and their providers but not their order.
- CheckBalance (Wallet.WalletManager.CheckBalance): when `currentNetwork` names no network, the first endpoint is `undefined`. The source builds `new solanaWeb3.Connection(undefined)` inside the inner `try` (script.js:166), and the library may reject that. The model lets `results[0]` decide that attempt like any other.
- Concurrency: async interleavings, such as two claims in flight at once, are not modelled. Each method is one sequential step.
- Logging (`console.error`, `console.warn`) and the whole `UI` class (script.js:267-527) are not modelled.
- Messages of JavaScript TypeErrors use V8's wording.
