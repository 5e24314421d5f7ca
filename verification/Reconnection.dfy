/** The retry loop around `reconnect`: bounded attempts, doubling pauses. */
module Reconnection {
  import opened Results

  /** A policy the constructor accepts. */
  datatype Backoff = Backoff(maxAttempts: nat, initial: real, max: real) {
    predicate Valid() {
      maxAttempts >= 1 && initial >= 0.0 && max >= 0.0
    }
  }

  function Min(a: real, b: real): real {
    if a <= b then a else b
  }

  function Doubled(initial: real, times: nat): real {
    if times == 0 then initial else 2.0 * Doubled(initial, times - 1)
  }

  /** The pause after the k-th failed attempt, counted from 0.  The cap does not apply to the
      first one. */
  function Pause(b: Backoff, k: nat): real {
    if k == 0 then b.initial else Min(Doubled(b.initial, k), b.max)
  }

  lemma {:induction false} DoubledIsMonotone(initial: real, times: nat)
    requires initial >= 0.0
    ensures 0.0 <= Doubled(initial, times) <= Doubled(initial, times + 1)
  {
    if times > 0 {
      DoubledIsMonotone(initial, times - 1);
    }
  }

  /** Doubling a pause and capping it again gives the next one: the running value of the
      loop is the closed form. */
  lemma NextPause(b: Backoff, k: nat)
    requires b.Valid()
    ensures Pause(b, 0) == b.initial
    ensures Pause(b, k + 1) == if Pause(b, k) * 2.0 <= b.max then Pause(b, k) * 2.0 else b.max
  {
    DoubledIsMonotone(b.initial, k);
    if k == 0 {
      assert Doubled(b.initial, 1) == 2.0 * b.initial;
    }
  }

  /** Pauses never shrink, except that the first may exceed the cap. */
  lemma PausesGrow(b: Backoff, k: nat)
    requires b.Valid() && (b.initial <= b.max || k > 0)
    ensures Pause(b, k) <= Pause(b, k + 1) <= b.max
  {
    DoubledIsMonotone(b.initial, k);
    DoubledIsMonotone(b.initial, 0);
  }

  /** The attempt, counted from 0, that first succeeds; `|outcomes|` if none does. */
  function FirstSuccess(outcomes: seq<bool>): (k: nat)
    ensures k <= |outcomes|
    ensures forall i :: 0 <= i < k ==> !outcomes[i]
    ensures k < |outcomes| ==> outcomes[k]
    decreases |outcomes|
  {
    if outcomes == [] || outcomes[0] then 0
    else
      var rest := FirstSuccess(outcomes[1..]);
      assert forall i :: 0 < i < rest + 1 ==> outcomes[i] == outcomes[1..][i - 1];
      rest + 1
  }

  /** The coordinator, over what each attempt would come to.  It succeeds iff one of the
      first `maxAttempts` attempts does, stops at the first that does, and pauses between
      attempts only, by the doubling pauses. */
  method Reconnect(b: Backoff, outcomes: seq<bool>) returns (success: bool, attempts: nat, pauses: seq<real>)
    requires b.Valid() && |outcomes| == b.maxAttempts
    ensures success <==> exists i :: 0 <= i < b.maxAttempts && outcomes[i]
    ensures attempts == if success then FirstSuccess(outcomes) + 1 else b.maxAttempts
    ensures |pauses| == attempts - 1
    ensures forall k :: 0 <= k < |pauses| ==> pauses[k] == Pause(b, k)
  {
    var delay := b.initial;
    pauses := [];
    attempts := 0;
    success := false;
    while true
      invariant 0 <= attempts < b.maxAttempts && |pauses| == attempts
      invariant forall i :: 0 <= i < attempts ==> !outcomes[i]
      invariant forall k :: 0 <= k < |pauses| ==> pauses[k] == Pause(b, k)
      invariant delay == Pause(b, attempts)
      decreases b.maxAttempts - attempts
    {
      attempts := attempts + 1;
      if outcomes[attempts - 1] {
        return true, attempts, pauses;
      }
      if attempts >= b.maxAttempts {
        return false, attempts, pauses;
      }
      pauses := pauses + [delay];
      NextPause(b, attempts - 1);
      delay := Min(delay * 2.0, b.max);
    }
  }
}
