/**
 * `safeBlock`: one block request retried at most twice more, and only after a
 * failure whose message looks transient. The remote call is an oracle from the
 * attempt number (1, 2, 3) to its outcome; the requested sleeps are recorded
 * instead of waited for.
 */
module Throttle {
  import opened Text

  /** What one `createRecord` call did. */
  datatype CallOutcome = Succeeded | Failed(message: string)

  const MAX_BLOCK_ATTEMPTS: nat := 3

  /** The lower-cased alternatives of `/429|rate|timeout|temporar/i`. */
  const TransientMarkers: seq<string> := ["429", "rate", "timeout", "temporar"]

  predicate IsTransient(message: string) {
    ContainsAny(Lower(message), TransientMarkers)
  }

  /** The result of one `safeBlock`: its return value, the calls made and the sleeps requested, in order. */
  datatype BlockRun = BlockRun(ok: bool, calls: nat, sleeps: seq<real>)

  /** The pause before attempt `attempt + 1`. */
  function Backoff(attempt: nat): real {
    1000.0 * attempt as real
  }

  /** The pauses before attempts 2 .. n + 1. */
  function Backoffs(n: nat): (r: seq<real>)
    ensures |r| == n && forall i :: 0 <= i < n ==> r[i] == Backoff(i + 1)
  {
    seq(n, i requires 0 <= i < n => Backoff(i + 1))
  }

  /** The recursive shape of `safeBlock`, starting at attempt `attempt`. */
  function SafeBlockFrom(outcome: nat -> CallOutcome, attempt: nat, blockDelay: real): BlockRun
    requires 1 <= attempt <= MAX_BLOCK_ATTEMPTS
    decreases MAX_BLOCK_ATTEMPTS - attempt
  {
    match outcome(attempt)
    case Succeeded => BlockRun(true, 1, [blockDelay])
    case Failed(message) =>
      if attempt < MAX_BLOCK_ATTEMPTS && IsTransient(message) then
        var rest := SafeBlockFrom(outcome, attempt + 1, blockDelay);
        BlockRun(rest.ok, rest.calls + 1, [Backoff(attempt)] + rest.sleeps)
      else
        BlockRun(false, 1, [])
  }

  /** `safeBlock(agent, user, reason, 1, blockDelay)`, as a loop over the attempt counter. */
  method SafeBlock(outcome: nat -> CallOutcome, blockDelay: real) returns (r: BlockRun)
    ensures r == SafeBlockFrom(outcome, 1, blockDelay)
  {
    var attempt: nat := 1;
    var sleeps: seq<real> := [];
    while true
      invariant RunSplit(outcome, blockDelay, attempt, sleeps)
      decreases MAX_BLOCK_ATTEMPTS - attempt
    {
      match outcome(attempt)
      case Succeeded =>
        return BlockRun(true, attempt, sleeps + [blockDelay]);
      case Failed(message) =>
        if attempt < MAX_BLOCK_ATTEMPTS && IsTransient(message) {
          RetryKeepsSplit(outcome, blockDelay, attempt, sleeps);
          sleeps := sleeps + [Backoff(attempt)];
          attempt := attempt + 1;
        } else {
          return BlockRun(false, attempt, sleeps);
        }
    }
  }

  /**
   * The run from the first attempt is the `attempt - 1` calls made so far,
   * with their `sleeps`, followed by the run from attempt `attempt`.
   */
  ghost predicate RunSplit(outcome: nat -> CallOutcome, blockDelay: real, attempt: nat, sleeps: seq<real>) {
    1 <= attempt <= MAX_BLOCK_ATTEMPTS &&
    var rest := SafeBlockFrom(outcome, attempt, blockDelay);
    SafeBlockFrom(outcome, 1, blockDelay) == BlockRun(rest.ok, rest.calls + attempt - 1, sleeps + rest.sleeps)
  }

  lemma RetryKeepsSplit(outcome: nat -> CallOutcome, blockDelay: real, attempt: nat, sleeps: seq<real>)
    requires RunSplit(outcome, blockDelay, attempt, sleeps)
    requires attempt < MAX_BLOCK_ATTEMPTS && outcome(attempt).Failed? && IsTransient(outcome(attempt).message)
    ensures RunSplit(outcome, blockDelay, attempt + 1, sleeps + [Backoff(attempt)])
  {
    var next := SafeBlockFrom(outcome, attempt + 1, blockDelay);
    assert SafeBlockFrom(outcome, attempt, blockDelay) == BlockRun(next.ok, next.calls + 1, [Backoff(attempt)] + next.sleeps);
    assert sleeps + ([Backoff(attempt)] + next.sleeps) == (sleeps + [Backoff(attempt)]) + next.sleeps;
  }

  /**
   * Everything `safeBlock` does, from attempt `attempt` on: between one and
   * the remaining number of calls; every call but the last failed with a
   * transient message; the result is true exactly when the last call
   * succeeded; a failed run stopped at the third attempt or on a message that
   * is not transient; the sleeps are the backoffs `1000 * k` in order,
   * followed by exactly one `blockDelay` on success.
   */
  lemma {:induction false} SafeBlockShapeFrom(outcome: nat -> CallOutcome, attempt: nat, blockDelay: real)
    requires 1 <= attempt <= MAX_BLOCK_ATTEMPTS
    ensures var r := SafeBlockFrom(outcome, attempt, blockDelay);
      var last := attempt + r.calls - 1;
      1 <= r.calls <= MAX_BLOCK_ATTEMPTS - attempt + 1 &&
      (forall k :: attempt <= k < last ==> outcome(k).Failed? && IsTransient(outcome(k).message)) &&
      (r.ok <==> outcome(last).Succeeded?) &&
      (!r.ok ==> last == MAX_BLOCK_ATTEMPTS || !IsTransient(outcome(last).message)) &&
      r.sleeps == Pauses(attempt, r.calls - 1) + (if r.ok then [blockDelay] else [])
    decreases MAX_BLOCK_ATTEMPTS - attempt
  {
    match outcome(attempt)
    case Succeeded =>
    case Failed(message) =>
      if attempt < MAX_BLOCK_ATTEMPTS && IsTransient(message) {
        SafeBlockShapeFrom(outcome, attempt + 1, blockDelay);
        ShapeAfterRetry(outcome, attempt, blockDelay);
      }
  }

  /** The backoffs `Backoff(from) .. Backoff(from + n - 1)`. */
  function Pauses(from: nat, n: nat): (r: seq<real>)
    ensures |r| == n && forall i :: 0 <= i < n ==> r[i] == Backoff(from + i)
  {
    seq(n, i requires 0 <= i < n => Backoff(from + i))
  }

  /** The shape of the run from attempt `attempt`, as `SafeBlockShapeFrom` states it. */
  ghost predicate ShapeFrom(outcome: nat -> CallOutcome, attempt: nat, blockDelay: real)
    requires 1 <= attempt <= MAX_BLOCK_ATTEMPTS
  {
    var r := SafeBlockFrom(outcome, attempt, blockDelay);
    var last := attempt + r.calls - 1;
    1 <= r.calls <= MAX_BLOCK_ATTEMPTS - attempt + 1 &&
    (forall k :: attempt <= k < last ==> outcome(k).Failed? && IsTransient(outcome(k).message)) &&
    (r.ok <==> outcome(last).Succeeded?) &&
    (!r.ok ==> last == MAX_BLOCK_ATTEMPTS || !IsTransient(outcome(last).message)) &&
    r.sleeps == Pauses(attempt, r.calls - 1) + (if r.ok then [blockDelay] else [])
  }

  /** A transient failure followed by a run of the right shape is a run of the right shape. */
  lemma ShapeAfterRetry(outcome: nat -> CallOutcome, attempt: nat, blockDelay: real)
    requires 1 <= attempt < MAX_BLOCK_ATTEMPTS
    requires outcome(attempt).Failed? && IsTransient(outcome(attempt).message)
    requires ShapeFrom(outcome, attempt + 1, blockDelay)
    ensures ShapeFrom(outcome, attempt, blockDelay)
  {
    var rest := SafeBlockFrom(outcome, attempt + 1, blockDelay);
    var r := SafeBlockFrom(outcome, attempt, blockDelay);
    assert r == BlockRun(rest.ok, rest.calls + 1, [Backoff(attempt)] + rest.sleeps);
    assert Pauses(attempt, r.calls - 1) == [Backoff(attempt)] + Pauses(attempt + 1, rest.calls - 1);
    var tail := if rest.ok then [blockDelay] else [];
    assert [Backoff(attempt)] + (Pauses(attempt + 1, rest.calls - 1) + tail) ==
      ([Backoff(attempt)] + Pauses(attempt + 1, rest.calls - 1)) + tail;
  }

  /** The same from the first attempt: at most three calls, backoffs 1000 and 2000. */
  lemma SafeBlockShape(outcome: nat -> CallOutcome, blockDelay: real)
    ensures var r := SafeBlockFrom(outcome, 1, blockDelay);
      1 <= r.calls <= MAX_BLOCK_ATTEMPTS &&
      (forall k :: 1 <= k < r.calls ==> outcome(k).Failed? && IsTransient(outcome(k).message)) &&
      (r.ok <==> outcome(r.calls).Succeeded?) &&
      (!r.ok ==> r.calls == MAX_BLOCK_ATTEMPTS || !IsTransient(outcome(r.calls).message)) &&
      r.sleeps == Backoffs(r.calls - 1) + (if r.ok then [blockDelay] else [])
  {
    SafeBlockShapeFrom(outcome, 1, blockDelay);
    var r := SafeBlockFrom(outcome, 1, blockDelay);
    assert Pauses(1, r.calls - 1) == Backoffs(r.calls - 1);
  }

  /** A first failure that does not look transient ends the run at once, with no sleep. */
  lemma PermanentFailureNoRetry(outcome: nat -> CallOutcome, blockDelay: real)
    requires outcome(1).Failed? && !IsTransient(outcome(1).message)
    ensures SafeBlockFrom(outcome, 1, blockDelay) == BlockRun(false, 1, [])
  {
  }
}
