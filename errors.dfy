/** Error messages of WalletManager and its error classifier `handleError`. */
module Errors {

  const WALLET_NOT_CONNECTED: string := "Wallet not connected"
  const NO_ABANDONED_ACCOUNTS: string := "No abandoned accounts found"
  const ALL_ENDPOINTS_FAILED: string := "Failed to fetch balance from all endpoints"
  const CLAIM_RATE_LIMITED: string := "Please wait before making another claim"
  const CLAIM_REQUEST_FAILED: string := "Claim request failed"
  const NETWORK_ERROR: string := "Network connection error. Please try again later."
  /** The HTTP status whose presence in a message marks a denied network access. */
  const ACCESS_DENIED_CODE: string := "403"
  /** V8's wording of the TypeError raised when a property of `null` is read. */
  const NULL_READ: string := "Cannot read properties of null "
  /** Raised when `toBase58` is called on a missing public key. */
  const NULL_PUBLIC_KEY_ERROR: string := NULL_READ + "(reading 'toBase58')"
  /** Raised when the ledger reports no account for the key and `lamports` is read. */
  const NULL_ACCOUNT_INFO_ERROR: string := NULL_READ + "(reading 'lamports')"

  /** `s.includes(p)`: `p` occurs in `s` as a contiguous substring. */
  predicate Contains(s: string, p: string)
    decreases |s|
  {
    |p| <= |s| && (s[..|p|] == p || (0 < |s| && Contains(s[1..], p)))
  }

  /** `p` occurs in `s` starting at index `i`. */
  ghost predicate OccursAt(s: string, p: string, i: int)
  {
    0 <= i <= |s| - |p| && s[i..i + |p|] == p
  }

  /** `Contains` is exactly "there is an index at which `p` occurs". */
  lemma {:induction false} ContainsOccurs(s: string, p: string)
    ensures Contains(s, p) <==> exists i :: OccursAt(s, p, i)
    decreases |s|
  {
    if |p| > |s| {
    } else if s[..|p|] == p {
      assert OccursAt(s, p, 0);
    } else {
      ContainsOccurs(s[1..], p);
      forall i | OccursAt(s[1..], p, i)
        ensures OccursAt(s, p, i + 1)
      {
        assert s[1..][i..i + |p|] == s[i + 1..i + 1 + |p|];
      }
      forall i | OccursAt(s, p, i)
        ensures OccursAt(s[1..], p, i - 1)
      {
        assert i != 0;
        assert s[1..][i - 1..i - 1 + |p|] == s[i..i + |p|];
      }
    }
  }

  /** A pattern whose first character never appears in `s` does not occur in `s`. */
  lemma {:induction false} MissingFirstChar(s: string, p: string)
    requires |p| > 0 && p[0] !in s
    ensures !Contains(s, p)
    decreases |s|
  {
    if |p| <= |s| {
      assert s[..|p|][0] == s[0];
      assert s[0] in s;
      if 0 < |s| {
        assert forall c :: c in s[1..] ==> c in s;
        MissingFirstChar(s[1..], p);
      }
    }
  }

  /** None of the fixed messages contains the digit 4. The longest literal is
      split in two so that the membership test unfolds quickly. */
  lemma NetworkErrorLacksFour()
    ensures '4' !in NETWORK_ERROR
  {
    assert NETWORK_ERROR == "Network connection error. " + "Please try again later.";
  }

  lemma AllEndpointsFailedLacksFour()
    ensures '4' !in ALL_ENDPOINTS_FAILED
  {
  }

  lemma ClaimRequestFailedLacksFour()
    ensures '4' !in CLAIM_REQUEST_FAILED
  {
  }

  lemma NullPublicKeyErrorLacksFour()
    ensures '4' !in NULL_PUBLIC_KEY_ERROR
  {
  }

  lemma NullAccountInfoErrorLacksFour()
    ensures '4' !in NULL_ACCOUNT_INFO_ERROR
  {
  }

  /** The replacement message does not itself look like a denied access. */
  lemma NetworkErrorHasNoCode()
    ensures !Contains(NETWORK_ERROR, ACCESS_DENIED_CODE)
  {
    NetworkErrorLacksFour();
    MissingFirstChar(NETWORK_ERROR, ACCESS_DENIED_CODE);
  }

  /** `handleError`: a message mentioning 403 is replaced by the fixed network
      error; every other message passes through. */
  function HandleError(message: string): (r: string)
    ensures !Contains(r, ACCESS_DENIED_CODE)
  {
    NetworkErrorHasNoCode();
    if Contains(message, ACCESS_DENIED_CODE) then NETWORK_ERROR else message
  }

  /** A message reaches the caller unchanged exactly when it does not mention 403. */
  lemma HandleErrorPassThrough(message: string)
    ensures HandleError(message) == message <==> !Contains(message, ACCESS_DENIED_CODE)
  {
  }

  /** A message mentioning 403 always becomes the fixed network error. */
  lemma HandleErrorDenied(message: string)
    requires Contains(message, ACCESS_DENIED_CODE)
    ensures HandleError(message) == NETWORK_ERROR
  {
  }

  /** Classifying an already classified message changes nothing. */
  lemma HandleErrorIdempotent(message: string)
    ensures HandleError(HandleError(message)) == HandleError(message)
  {
  }

  /** The messages WalletManager throws inside its `try` blocks pass through
      `handleError` unchanged. */
  lemma OwnMessagesPassThrough()
    ensures HandleError(ALL_ENDPOINTS_FAILED) == ALL_ENDPOINTS_FAILED
    ensures HandleError(CLAIM_REQUEST_FAILED) == CLAIM_REQUEST_FAILED
    ensures HandleError(NULL_PUBLIC_KEY_ERROR) == NULL_PUBLIC_KEY_ERROR
    ensures HandleError(NULL_ACCOUNT_INFO_ERROR) == NULL_ACCOUNT_INFO_ERROR
  {
    AllEndpointsFailedLacksFour();
    ClaimRequestFailedLacksFour();
    NullPublicKeyErrorLacksFour();
    NullAccountInfoErrorLacksFour();
    MissingFirstChar(ALL_ENDPOINTS_FAILED, ACCESS_DENIED_CODE);
    MissingFirstChar(CLAIM_REQUEST_FAILED, ACCESS_DENIED_CODE);
    MissingFirstChar(NULL_PUBLIC_KEY_ERROR, ACCESS_DENIED_CODE);
    MissingFirstChar(NULL_ACCOUNT_INFO_ERROR, ACCESS_DENIED_CODE);
  }
}
