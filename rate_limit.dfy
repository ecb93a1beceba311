/** The per-action cooldown of `isRateLimited`, over the map from action name
    to the time (in milliseconds) of its last admitted attempt. */
module RateLimit {
  import opened Results

  /** Milliseconds since the epoch, as `Date.now()` returns them. */
  type Timestamp = int

  const CONNECT: string := "connect"
  const CLAIM: string := "claim"

  /** The cooldown table: `connect` 1000 ms, `claim` 5000 ms; any other action
      has no entry (`undefined`), and a comparison with `undefined` is false. */
  function Cooldown(action: string): (c: Option<nat>)
    ensures c.Some? <==> action == CONNECT || action == CLAIM
  {
    if action == CONNECT then Some(1000)
    else if action == CLAIM then Some(5000)
    else None
  }

  /** `lastAttempt && now - lastAttempt < cooldown[action]`: the action has a
      recorded attempt that is not 0 (0 is falsy), it has a cooldown, and less
      than that has elapsed. */
  predicate Blocked(last: map<string, Timestamp>, action: string, now: Timestamp)
  {
    && action in last
    && last[action] != 0
    && Cooldown(action).Some?
    && now - last[action] < Cooldown(action).value
  }

  /** A call to `isRateLimited(action)` at time `now`. */
  datatype Attempt = Attempt(action: string, now: Timestamp)

  /** `rateLimitMap` after the attempts, starting from the empty map of a new
      WalletManager: a blocked attempt leaves the map alone, an admitted one
      records its time. */
  function Replay(attempts: seq<Attempt>): map<string, Timestamp>
    decreases |attempts|
  {
    if attempts == [] then map[]
    else
      var before := Replay(attempts[..|attempts| - 1]);
      var a := attempts[|attempts| - 1];
      if Blocked(before, a.action, a.now) then before else before[a.action := a.now]
  }

  /** The times of the attempts at `action` that were admitted, in call order. */
  function Admitted(attempts: seq<Attempt>, action: string): seq<Timestamp>
    decreases |attempts|
  {
    if attempts == [] then []
    else
      var prefix := attempts[..|attempts| - 1];
      var a := attempts[|attempts| - 1];
      Admitted(prefix, action)
        + if a.action == action && !Blocked(Replay(prefix), a.action, a.now) then [a.now] else []
  }

  /** One more call updates the replayed map as `isRateLimited` updates
      `rateLimitMap`, and adds its time to the admitted ones exactly when it
      is not blocked. */
  lemma ReplayStep(attempts: seq<Attempt>, a: Attempt)
    ensures Replay(attempts + [a]) ==
      if Blocked(Replay(attempts), a.action, a.now) then Replay(attempts)
      else Replay(attempts)[a.action := a.now]
    ensures Admitted(attempts + [a], a.action) ==
      Admitted(attempts, a.action) + if Blocked(Replay(attempts), a.action, a.now) then [] else [a.now]
  {
    assert (attempts + [a])[..|attempts|] == attempts;
  }

  /** The map holds, for each action, the time of its latest admitted attempt,
      and nothing for an action never admitted. */
  lemma {:induction false} ReplayHoldsLatestAdmitted(attempts: seq<Attempt>, action: string)
    ensures action in Replay(attempts) <==> Admitted(attempts, action) != []
    ensures action in Replay(attempts) ==>
      Replay(attempts)[action] == Admitted(attempts, action)[|Admitted(attempts, action)| - 1]
    decreases |attempts|
  {
    if attempts != [] {
      ReplayHoldsLatestAdmitted(attempts[..|attempts| - 1], action);
    }
  }

  /** With a clock that never reads 0, any two admitted attempts at an action
      with a cooldown are at least that cooldown apart, whatever the clock
      does in between: two `claim`s are never let through within 5000 ms. */
  lemma {:induction false} AdmittedAreSpaced(attempts: seq<Attempt>, action: string)
    requires Cooldown(action).Some?
    requires forall i :: 0 <= i < |attempts| ==> attempts[i].now != 0
    ensures var t := Admitted(attempts, action);
      forall i, j :: 0 <= i < j < |t| ==> t[j] - t[i] >= Cooldown(action).value
    ensures forall k :: 0 <= k < |Admitted(attempts, action)| ==> Admitted(attempts, action)[k] != 0
    decreases |attempts|
  {
    if attempts != [] {
      var prefix := attempts[..|attempts| - 1];
      var a := attempts[|attempts| - 1];
      var t := Admitted(prefix, action);
      AdmittedAreSpaced(prefix, action);
      ReplayHoldsLatestAdmitted(prefix, action);
      if a.action == action && !Blocked(Replay(prefix), a.action, a.now) && t != [] {
        var c := Cooldown(action).value;
        var latest := t[|t| - 1];
        assert a.now - latest >= c;
        forall i | 0 <= i < |t|
          ensures a.now - t[i] >= c
        {
          assert i == |t| - 1 || latest - t[i] >= c;
        }
      }
    }
  }

  /** The first attempt at an action is never blocked. */
  lemma FirstAttemptAdmitted(last: map<string, Timestamp>, action: string, now: Timestamp)
    requires action !in last
    ensures !Blocked(last, action, now)
  {
  }

  /** After a `claim` admitted at time `t`, a `claim` 4999 ms later is blocked
      and one 5000 ms later is admitted. */
  lemma ClaimWindow(last: map<string, Timestamp>, t: Timestamp)
    requires t != 0
    ensures Blocked(last[CLAIM := t], CLAIM, t + 4999)
    ensures !Blocked(last[CLAIM := t], CLAIM, t + 5000)
  {
  }

  /** Recording one action never changes whether another is blocked. */
  lemma ActionsAreIndependent(last: map<string, Timestamp>, recorded: string, t: Timestamp, action: string, now: Timestamp)
    requires recorded != action
    ensures Blocked(last[recorded := t], action, now) == Blocked(last, action, now)
  {
  }
}
