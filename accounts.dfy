/** Token accounts as returned by the ledger scan, the abandoned-account
    filter of `findAbandonedAccounts`, and the transfers that reclaim them. */
module Accounts {
  import opened Results

  /** A public key, as its base-58 text. */
  type PubKey = string

  /** One parsed record of the program-account scan: `acc.pubkey`,
      `acc.account.lamports` and
      `acc.account.data.parsed.info.tokenAmount.uiAmount`. */
  datatype TokenAccount = TokenAccount(pubkey: PubKey, lamports: nat, uiAmount: real)

  /** The SPL token program, whose accounts the scan enumerates. */
  const TOKEN_PROGRAM_ID: string := "TokenkegQfeZyiNwAJbNbGKPFXCWuBvf9Ss623VQ5DA"
  /** Size in bytes of a token account's data. */
  const TOKEN_ACCOUNT_SIZE: nat := 165
  /** Byte offset of the owner field inside a token account. */
  const OWNER_OFFSET: nat := 32

  /** The arguments of `getParsedProgramAccounts`: a program id, a data-size
      filter and a memory-comparison filter. */
  datatype ProgramAccountsQuery =
    ProgramAccountsQuery(programId: string, dataSize: nat, memcmpOffset: nat, memcmpBytes: string)

  /** The scan issued for the wallet `owner`: every token account whose owner
      field is `owner`. */
  function OwnedTokenAccounts(owner: PubKey): (q: ProgramAccountsQuery)
    ensures q.programId == TOKEN_PROGRAM_ID && q.dataSize == TOKEN_ACCOUNT_SIZE
    ensures q.memcmpOffset == OWNER_OFFSET && q.memcmpBytes == owner
  {
    ProgramAccountsQuery(TOKEN_PROGRAM_ID, TOKEN_ACCOUNT_SIZE, OWNER_OFFSET, owner)
  }

  /** The filter predicate: `tokenAmount.uiAmount === 0`. */
  predicate IsAbandoned(account: TokenAccount)
  {
    account.uiAmount == 0.0
  }

  /** `accounts.filter(acc => uiAmount === 0)`. */
  function Abandoned(accounts: seq<TokenAccount>): (r: seq<TokenAccount>)
    ensures |r| <= |accounts|
    ensures forall i :: 0 <= i < |r| ==> IsAbandoned(r[i])
  {
    if accounts == [] then []
    else (if IsAbandoned(accounts[0]) then [accounts[0]] else []) + Abandoned(accounts[1..])
  }

  /** Exactly the zero-balance records are kept. */
  lemma {:induction false} AbandonedMembers(accounts: seq<TokenAccount>, a: TokenAccount)
    ensures a in Abandoned(accounts) <==> a in accounts && IsAbandoned(a)
  {
    if accounts != [] {
      AbandonedMembers(accounts[1..], a);
      assert accounts == [accounts[0]] + accounts[1..];
    }
  }

  /** Filtering distributes over concatenation, so scan order is kept. */
  lemma {:induction false} AbandonedAppend(xs: seq<TokenAccount>, ys: seq<TokenAccount>)
    ensures Abandoned(xs + ys) == Abandoned(xs) + Abandoned(ys)
  {
    if xs == [] {
      assert xs + ys == ys;
    } else {
      assert (xs + ys)[1..] == xs[1..] + ys;
      AbandonedAppend(xs[1..], ys);
    }
  }

  /** Each record is kept as many times as it was scanned, or dropped entirely. */
  lemma {:induction false} AbandonedCounts(accounts: seq<TokenAccount>, a: TokenAccount)
    ensures multiset(Abandoned(accounts))[a] == if IsAbandoned(a) then multiset(accounts)[a] else 0
  {
    if accounts != [] {
      AbandonedCounts(accounts[1..], a);
      assert accounts == [accounts[0]] + accounts[1..];
    }
  }

  /** A list of zero-balance records is its own filter. */
  lemma {:induction false} AbandonedKeepsAbandoned(accounts: seq<TokenAccount>)
    requires forall i :: 0 <= i < |accounts| ==> IsAbandoned(accounts[i])
    ensures Abandoned(accounts) == accounts
  {
    if accounts != [] {
      AbandonedKeepsAbandoned(accounts[1..]);
    }
  }

  /** Deriving the abandoned set twice gives the same set. */
  lemma AbandonedIdempotent(accounts: seq<TokenAccount>)
    ensures Abandoned(Abandoned(accounts)) == Abandoned(accounts)
  {
    AbandonedKeepsAbandoned(Abandoned(accounts));
  }

  /** `SystemProgram.transfer({fromPubkey, toPubkey, lamports})`. The
      destination is the wallet's `publicKey` field, which may still be null. */
  datatype Transfer = Transfer(fromPubkey: PubKey, toPubkey: Option<PubKey>, lamports: nat)

  /** The instructions of a claim transaction, in the order they were added. */
  type Transaction = seq<Transfer>

  /** `tx` holds one transfer per account, in list order, each moving that
      account's whole lamport balance to `to`. */
  ghost predicate IsClaimTransaction(tx: Transaction, accounts: seq<TokenAccount>, to: Option<PubKey>)
  {
    && |tx| == |accounts|
    && forall i :: 0 <= i < |tx| ==>
         tx[i] == Transfer(accounts[i].pubkey, to, accounts[i].lamports)
  }

  /** Lamports held by `accounts` together. */
  function TotalLamports(accounts: seq<TokenAccount>): nat
  {
    if accounts == [] then 0 else accounts[0].lamports + TotalLamports(accounts[1..])
  }

  /** Lamports moved by the transfers of `tx` together. */
  function TransferredLamports(tx: Transaction): nat
  {
    if tx == [] then 0 else tx[0].lamports + TransferredLamports(tx[1..])
  }

  /** A claim transaction moves exactly the lamports the claimed accounts hold. */
  lemma {:induction false} ClaimMovesAllLamports(tx: Transaction, accounts: seq<TokenAccount>, to: Option<PubKey>)
    requires IsClaimTransaction(tx, accounts, to)
    ensures TransferredLamports(tx) == TotalLamports(accounts)
  {
    if tx != [] {
      assert IsClaimTransaction(tx[1..], accounts[1..], to);
      ClaimMovesAllLamports(tx[1..], accounts[1..], to);
    }
  }

  /** The claim transaction of a list is determined by the list and the destination. */
  lemma ClaimTransactionUnique(tx1: Transaction, tx2: Transaction, accounts: seq<TokenAccount>, to: Option<PubKey>)
    requires IsClaimTransaction(tx1, accounts, to) && IsClaimTransaction(tx2, accounts, to)
    ensures tx1 == tx2
  {
  }
}
