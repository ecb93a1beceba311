/** WalletManager: the session object holding the wallet's public key, the
    selected network, the rate-limit timestamps and the abandoned accounts,
    with the operations that read and update them. Every ledger, provider and
    backend call is a parameter: a function from the request to what the
    awaited call returned, or the message of the error it threw. */
module Wallet {
  import opened Results
  import opened Errors
  import opened Accounts
  import opened RateLimit
  import opened Failover
  import opened Providers

  type Signature = string

  /** What `getAccountInfo` returns; `balance` is in lamports. */
  datatype AccountInfo =
    AccountInfo(balance: nat, tokenAccounts: seq<TokenAccount>, abandonedAccounts: seq<TokenAccount>)

  /** The JSON body `claimSol` posts to `/api/claim`. */
  datatype ClaimRequest = ClaimRequest(wallet: PubKey, amount: real, network: string)

  /** The backend's answer: an HTTP response with its `ok` flag and the
      base-64 transaction of its JSON body, or a failed fetch. */
  datatype ClaimResponse = Response(ok: bool, transaction: string) | FetchFailed(message: string)

  class WalletManager {
    var currentNetwork: string
    var publicKey: Option<PubKey>
    const walletProviders: seq<WalletEntry>
    var rateLimitMap: map<string, Timestamp>
    var abandonedAccounts: seq<TokenAccount>

    /** A new session on mainnet with no wallet connected, no recorded
        attempts and no abandoned accounts; `window` holds the provider
        objects the browser extensions installed. */
    constructor(window: map<string, ProviderRef>)
      ensures currentNetwork == "mainnet" && publicKey == None
      ensures walletProviders == Probe(window) && DistinctNames(walletProviders)
      ensures rateLimitMap == map[] && abandonedAccounts == []
    {
      currentNetwork := "mainnet";
      publicKey := None;
      walletProviders := Probe(window);
      rateLimitMap := map[];
      abandonedAccounts := [];
    }

    /** `detectWallets`: the wallets whose provider is present, by name. */
    method DetectWallets() returns (available: map<string, ProviderRef>)
      requires DistinctNames(walletProviders)
      ensures forall name :: name in available <==>
        exists i :: 0 <= i < |walletProviders| && walletProviders[i].name == name && walletProviders[i].provider.Some?
      ensures forall i :: 0 <= i < |walletProviders| && walletProviders[i].provider.Some? ==>
        walletProviders[i].name in available && available[walletProviders[i].name] == walletProviders[i].provider.value
    {
      available := map[];
      var i := 0;
      while i < |walletProviders|
        invariant 0 <= i <= |walletProviders|
        invariant forall name :: name in available <==>
          exists j :: 0 <= j < i && walletProviders[j].name == name && walletProviders[j].provider.Some?
        invariant forall j :: 0 <= j < i && walletProviders[j].provider.Some? ==>
          walletProviders[j].name in available && available[walletProviders[j].name] == walletProviders[j].provider.value
      {
        var entry := walletProviders[i];
        if entry.provider.Some? {
          available := available[entry.name := entry.provider.value];
        }
        i := i + 1;
      }
    }

    /** `findAbandonedAccounts`: scans the token accounts owned by the wallet
        and replaces the abandoned list by the zero-balance ones, in scan
        order. There is no connection guard: a missing key fails with the
        TypeError of reading it, and a failed scan leaves the list alone. */
    method FindAbandonedAccounts(getParsedProgramAccounts: ProgramAccountsQuery -> Result<seq<TokenAccount>>)
      returns (r: Result<seq<TokenAccount>>)
      modifies this`abandonedAccounts
      ensures publicKey.None? ==>
        r == Err(NULL_PUBLIC_KEY_ERROR) && abandonedAccounts == old(abandonedAccounts)
      ensures publicKey.Some? ==>
        match getParsedProgramAccounts(OwnedTokenAccounts(publicKey.value))
        case Ok(scanned) => abandonedAccounts == Abandoned(scanned) && r == Ok(abandonedAccounts)
        case Err(m) => r == Err(HandleError(m)) && abandonedAccounts == old(abandonedAccounts)
    {
      if publicKey.None? {
        // handleError leaves this message unchanged: Errors.OwnMessagesPassThrough
        return Err(NULL_PUBLIC_KEY_ERROR);
      }
      var scanned := getParsedProgramAccounts(OwnedTokenAccounts(publicKey.value));
      match scanned {
        case Ok(accounts) =>
          abandonedAccounts := Abandoned(accounts);
          r := Ok(abandonedAccounts);
        case Err(m) =>
          r := Err(HandleError(m));
      }
    }

    /** The loop of `claimAbandonedAccounts` that adds one transfer per
        abandoned account to a new transaction. */
    method BuildClaimTransaction() returns (tx: Transaction)
      ensures IsClaimTransaction(tx, abandonedAccounts, publicKey)
      ensures TransferredLamports(tx) == TotalLamports(abandonedAccounts)
    {
      tx := [];
      for i := 0 to |abandonedAccounts|
        invariant IsClaimTransaction(tx, abandonedAccounts[..i], publicKey)
      {
        var account := abandonedAccounts[i];
        tx := tx + [Transfer(account.pubkey, publicKey, account.lamports)];
      }
      assert abandonedAccounts[..|abandonedAccounts|] == abandonedAccounts;
      ClaimMovesAllLamports(tx, abandonedAccounts, publicKey);
    }

    /** `claimAbandonedAccounts`: with no abandoned accounts it fails before
        any provider call; otherwise it hands the claim transaction to the
        provider, waits for confirmation, and clears the list only when both
        succeed. `submitted` is the transaction handed to the provider. */
    method ClaimAbandonedAccounts(signAndSend: Transaction -> Result<Signature>, confirm: Signature -> Outcome)
      returns (r: Result<Signature>, submitted: Option<Transaction>)
      modifies this`abandonedAccounts
      ensures old(abandonedAccounts) == [] ==>
        r == Err(NO_ABANDONED_ACCOUNTS) && submitted == None && abandonedAccounts == []
      ensures old(abandonedAccounts) != [] ==>
        && submitted.Some?
        && IsClaimTransaction(submitted.value, old(abandonedAccounts), publicKey)
        && match signAndSend(submitted.value)
           case Err(m) => r == Err(HandleError(m)) && abandonedAccounts == old(abandonedAccounts)
           case Ok(signature) =>
             match confirm(signature)
             case Fail(m) => r == Err(HandleError(m)) && abandonedAccounts == old(abandonedAccounts)
             case Pass => r == Ok(signature) && abandonedAccounts == []
    {
      if |abandonedAccounts| == 0 {
        return Err(NO_ABANDONED_ACCOUNTS), None;
      }
      var tx := BuildClaimTransaction();
      submitted := Some(tx);
      var sent := signAndSend(tx);
      match sent {
        case Err(m) =>
          r := Err(HandleError(m));
        case Ok(signature) =>
          var confirmed := confirm(signature);
          match confirmed {
            case Fail(m) =>
              r := Err(HandleError(m));
            case Pass =>
              abandonedAccounts := [];
              r := Ok(signature);
          }
      }
    }

    /** `getAccountInfo`: refuses without a wallet; otherwise reads the
        wallet's balance, then its token accounts, and reports them with the
        current abandoned list. A missing ledger account is only noticed when
        its balance is read, after the token-account query. */
    method GetAccountInfo(getAccountInfo: PubKey -> Result<Option<nat>>,
                          getTokenAccountsByOwner: (PubKey, string) -> Result<seq<TokenAccount>>)
      returns (r: Result<AccountInfo>)
      ensures publicKey.None? ==> r == Err(WALLET_NOT_CONNECTED)
      ensures publicKey.Some? ==>
        match getAccountInfo(publicKey.value)
        case Err(m) => r == Err(HandleError(m))
        case Ok(info) =>
          match getTokenAccountsByOwner(publicKey.value, TOKEN_PROGRAM_ID)
          case Err(m) => r == Err(HandleError(m))
          case Ok(tokens) =>
            r == if info.None? then Err(NULL_ACCOUNT_INFO_ERROR)
                 else Ok(AccountInfo(info.value, tokens, abandonedAccounts))
    {
      if publicKey.None? {
        return Err(WALLET_NOT_CONNECTED);
      }
      var info := getAccountInfo(publicKey.value);
      if info.Err? {
        return Err(HandleError(info.message));
      }
      var tokens := getTokenAccountsByOwner(publicKey.value, TOKEN_PROGRAM_ID);
      if tokens.Err? {
        return Err(HandleError(tokens.message));
      }
      if info.value.None? {
        // handleError leaves this message unchanged: Errors.OwnMessagesPassThrough
        return Err(NULL_ACCOUNT_INFO_ERROR);
      }
      r := Ok(AccountInfo(info.value.value, tokens.value, abandonedAccounts));
    }

    /** `checkBalance`: refuses without a wallet; otherwise asks the endpoints
        one at a time, in priority order, and returns the first balance
        obtained. `results[i]` is what asking the i-th endpoint gave (`None`
        for any failure); `tried` lists the endpoints asked, in order. */
    method CheckBalance(results: seq<Option<nat>>) returns (r: Result<nat>, tried: seq<Option<Url>>)
      requires |results| == 3
      ensures publicKey.None? ==> r == Err(WALLET_NOT_CONNECTED) && tried == []
      ensures publicKey.Some? && FirstSuccess(results) < 3 ==>
        r == Ok(results[FirstSuccess(results)].value)
        && tried == BalanceEndpoints(currentNetwork)[..FirstSuccess(results) + 1]
      ensures publicKey.Some? && FirstSuccess(results) == 3 ==>
        r == Err(ALL_ENDPOINTS_FAILED) && tried == BalanceEndpoints(currentNetwork)
    {
      if publicKey.None? {
        return Err(WALLET_NOT_CONNECTED), [];
      }
      var endpoints := BalanceEndpoints(currentNetwork);
      tried := [];
      var i := 0;
      while i < |endpoints|
        invariant 0 <= i <= |endpoints|
        invariant tried == endpoints[..i]
        invariant forall j :: 0 <= j < i ==> results[j].None?
      {
        tried := tried + [endpoints[i]];
        if results[i].Some? {
          FirstSuccessAt(results, i);
          return Ok(results[i].value), tried;
        }
        i := i + 1;
      }
      AllFailed(results);
      // handleError leaves this message unchanged: Errors.OwnMessagesPassThrough
      r := Err(ALL_ENDPOINTS_FAILED);
    }

    /** `claimSol`: refuses without a wallet, then consults the `claim`
        cooldown, and only then posts the request to the backend and signs,
        sends and confirms the transaction it returns. `request` is the body
        posted, if any; `signSendConfirm` stands for deserialising, signing,
        sending and confirming that transaction. */
    method ClaimSol(amount: real, now: Timestamp, fetchClaim: ClaimRequest -> ClaimResponse,
                    signSendConfirm: string -> Result<Signature>)
      returns (r: Result<Signature>, request: Option<ClaimRequest>)
      modifies this`rateLimitMap
      ensures publicKey.None? ==>
        r == Err(WALLET_NOT_CONNECTED) && request == None && rateLimitMap == old(rateLimitMap)
      ensures publicKey.Some? && Blocked(old(rateLimitMap), CLAIM, now) ==>
        r == Err(CLAIM_RATE_LIMITED) && request == None && rateLimitMap == old(rateLimitMap)
      ensures publicKey.Some? && !Blocked(old(rateLimitMap), CLAIM, now) ==>
        && rateLimitMap == old(rateLimitMap)[CLAIM := now]
        && request == Some(ClaimRequest(publicKey.value, amount, currentNetwork))
        && r == match fetchClaim(request.value)
                case FetchFailed(m) => Err(HandleError(m))
                case Response(ok, tx) =>
                  if !ok then Err(CLAIM_REQUEST_FAILED)
                  else match signSendConfirm(tx)
                       case Ok(signature) => Ok(signature)
                       case Err(m) => Err(HandleError(m))
    {
      if publicKey.None? {
        return Err(WALLET_NOT_CONNECTED), None;
      }
      var limited := IsRateLimited(CLAIM, now);
      if limited {
        return Err(CLAIM_RATE_LIMITED), None;
      }
      var body := ClaimRequest(publicKey.value, amount, currentNetwork);
      request := Some(body);
      var response := fetchClaim(body);
      match response {
        case FetchFailed(m) =>
          r := Err(HandleError(m));
        case Response(ok, tx) =>
          if !ok {
            // handleError leaves this message unchanged: Errors.OwnMessagesPassThrough
            r := Err(CLAIM_REQUEST_FAILED);
          } else {
            var sent := signSendConfirm(tx);
            match sent {
              case Ok(signature) => r := Ok(signature);
              case Err(m) => r := Err(HandleError(m));
            }
          }
      }
    }

    /** `isRateLimited`: reports whether `action` is still cooling down at
        time `now`; a blocked attempt leaves the map as it was, an admitted
        one records `now` for `action` and for no other action. */
    method IsRateLimited(action: string, now: Timestamp) returns (limited: bool)
      modifies this`rateLimitMap
      ensures limited == Blocked(old(rateLimitMap), action, now)
      ensures rateLimitMap == if limited then old(rateLimitMap) else old(rateLimitMap)[action := now]
    {
      var cooldown := Cooldown(action);
      if action in rateLimitMap && rateLimitMap[action] != 0 && cooldown.Some?
         && now - rateLimitMap[action] < cooldown.value {
        return true;
      }
      rateLimitMap := rateLimitMap[action := now];
      limited := false;
    }
  }
}
