/**
 * The per-follower scan loop shared by `runFollowerScan` (skysweep.js) and
 * `main` (index.js): fetch each follower's profile, classify it, record an
 * export row for every flagged profile, and (in auto-block mode) block up to
 * `maxBlocks` of them.
 *
 * Remote calls are oracles: `getProfile(i)` is the answer for the follower at
 * position `i` (`None` when the call throws), and `blockOutcome(i, a)` is the
 * outcome of block attempt `a` for that follower. Requested sleeps are logged.
 * The two entry points differ in how a verdict and an export row are built,
 * so those are parameters too.
 */
module Scan {
  import opened Common
  import opened Throttle
  import opened Profiles
  import opened Csv

  /** A non-null verdict: the reason and, in skysweep.js, the category. */
  datatype Flag = Flag(reason: string, category: Option<string>)

  /** The scan settings the loop reads. `maxBlocks` is a JavaScript number. */
  datatype ScanConfig = ScanConfig(
    simulate: bool,
    autoBlock: bool,
    maxBlocks: real,
    profileDelay: real,
    blockDelay: real)

  /** The settings, the classification and row building, and the remote oracles of one scan. */
  datatype Env = Env(
    cfg: ScanConfig,
    verdictOf: Profile -> Option<Flag>,
    rowOf: (Profile, Flag) -> ExportRow,
    getProfile: nat -> Option<Profile>,
    blockOutcome: (nat, nat) -> CallOutcome)

  /** One `safeBlock` call: the follower's position and what the call did. */
  datatype BlockCall = BlockCall(position: nat, run: BlockRun)

  /** The loop's variables: the three counters, `exportRows`, and the logs of block calls and sleeps. */
  datatype ScanState = ScanState(
    scanned: nat,
    suspects: nat,
    blocks: nat,
    rows: seq<ExportRow>,
    blockCalls: seq<BlockCall>,
    sleeps: seq<real>)

  const Initial: ScanState := ScanState(0, 0, 0, [], [], [])

  /** `if (reason)`: a null or empty reason does not flag. */
  predicate IsFlagged(v: Option<Flag>) {
    v.Some? && v.value.reason != ""
  }

  /** The follower at position `i` was fetched and flagged. */
  predicate FlaggedAt(env: Env, i: nat) {
    env.getProfile(i).Some? && IsFlagged(env.verdictOf(env.getProfile(i).value))
  }

  /** The block attempts of the follower at position `i`. */
  function AttemptsFor(env: Env, i: nat): nat -> CallOutcome {
    (a: nat) => env.blockOutcome(i, a)
  }

  /** The whole `safeBlock` run for the follower at position `i`. */
  function BlockRunAt(env: Env, i: nat): BlockRun {
    SafeBlockFrom(AttemptsFor(env, i), 1, env.cfg.blockDelay)
  }

  /** The auto-block branch: block while fewer than `maxBlocks` blocks have succeeded. */
  function MaybeBlock(env: Env, st: ScanState, i: nat): ScanState {
    if !env.cfg.simulate && env.cfg.autoBlock && (st.blocks as real) < env.cfg.maxBlocks then
      var run := BlockRunAt(env, i);
      st.(blocks := if run.ok then st.blocks + 1 else st.blocks,
          blockCalls := st.blockCalls + [BlockCall(i, run)],
          sleeps := st.sleeps + run.sleeps)
    else st
  }

  /** The body of the loop for the follower at position `i`; a failed fetch changes nothing. */
  function Step(env: Env, st: ScanState, i: nat): ScanState {
    match env.getProfile(i)
    case None => st
    case Some(p) =>
      var st1 := st.(sleeps := st.sleeps + (if env.cfg.profileDelay > 0.0 then [env.cfg.profileDelay] else []));
      var v := env.verdictOf(p);
      var st2 :=
        if IsFlagged(v) then
          MaybeBlock(env, st1.(suspects := st1.suspects + 1, rows := st1.rows + [env.rowOf(p, v.value)]), i)
        else st1;
      st2.(scanned := st2.scanned + 1)
  }

  /** The state after the first `n` followers. */
  function ScanUpTo(env: Env, n: nat): ScanState {
    if n == 0 then Initial else Step(env, ScanUpTo(env, n - 1), n - 1)
  }

  /** The scan loop over `followers`. */
  method RunScan<T>(env: Env, followers: seq<T>) returns (st: ScanState)
    ensures st == ScanUpTo(env, |followers|)
  {
    var scanned: nat, suspects: nat, blocks: nat := 0, 0, 0;
    var rows: seq<ExportRow> := [];
    var blockCalls: seq<BlockCall> := [];
    var sleeps: seq<real> := [];
    for i := 0 to |followers|
      invariant ScanState(scanned, suspects, blocks, rows, blockCalls, sleeps) == ScanUpTo(env, i)
    {
      var fetched := env.getProfile(i);
      if fetched.Some? {
        var p := fetched.value;
        if env.cfg.profileDelay > 0.0 {
          sleeps := sleeps + [env.cfg.profileDelay];
        }
        var v := env.verdictOf(p);
        if IsFlagged(v) {
          suspects := suspects + 1;
          rows := rows + [env.rowOf(p, v.value)];
          if env.cfg.simulate {
          } else if env.cfg.autoBlock {
            if (blocks as real) < env.cfg.maxBlocks {
              var run := SafeBlock(AttemptsFor(env, i), env.cfg.blockDelay);
              if run.ok {
                blocks := blocks + 1;
              }
              blockCalls := blockCalls + [BlockCall(i, run)];
              sleeps := sleeps + run.sleeps;
            }
          }
        }
        scanned := scanned + 1;
      }
    }
    st := ScanState(scanned, suspects, blocks, rows, blockCalls, sleeps);
  }

  // ---------------- Reference definitions ----------------

  /** How many of the first `n` profile fetches succeeded. */
  function CountFetched(env: Env, n: nat): nat {
    if n == 0 then 0 else CountFetched(env, n - 1) + (if env.getProfile(n - 1).Some? then 1 else 0)
  }

  /** The rows of the flagged profiles among the first `n` followers, in follower order. */
  function FlaggedRows(env: Env, n: nat): seq<ExportRow> {
    if n == 0 then []
    else
      var row := if FlaggedAt(env, n - 1)
        then [env.rowOf(env.getProfile(n - 1).value, env.verdictOf(env.getProfile(n - 1).value).value)]
        else [];
      FlaggedRows(env, n - 1) + row
  }

  /** The row of the flagged follower at position `i`. */
  function RowAt(env: Env, i: nat): ExportRow
    requires FlaggedAt(env, i)
  {
    var p := env.getProfile(i).value;
    env.rowOf(p, env.verdictOf(p).value)
  }

  /**
   * Every row among the first `n` followers is the row of a flagged follower,
   * and rows keep follower order.
   */
  lemma {:induction false} RowsComeFromFlagged(env: Env, n: nat)
    ensures forall j :: 0 <= j < |FlaggedRows(env, n)| ==>
      exists i :: 0 <= i < n && FlaggedAt(env, i) && FlaggedRows(env, n)[j] == RowAt(env, i)
  {
    if n > 0 {
      RowsComeFromFlagged(env, n - 1);
      var prev := FlaggedRows(env, n - 1);
      var rows := FlaggedRows(env, n);
      assert forall j :: 0 <= j < |prev| ==> exists i :: 0 <= i < n - 1 && FlaggedAt(env, i) && prev[j] == RowAt(env, i);
      forall j | 0 <= j < |rows|
        ensures exists i :: 0 <= i < n && FlaggedAt(env, i) && rows[j] == RowAt(env, i)
      {
        if j < |prev| {
          assert rows[j] == prev[j];
          var i :| 0 <= i < n - 1 && FlaggedAt(env, i) && prev[j] == RowAt(env, i);
        } else {
          assert FlaggedAt(env, n - 1) && rows[j] == RowAt(env, n - 1);
        }
      }
    } else {
      assert FlaggedRows(env, n) == [];
    }
  }

  /** How many of the block calls returned true. */
  function OkCount(calls: seq<BlockCall>): nat {
    if |calls| == 0 then 0 else OkCount(calls[..|calls| - 1]) + (if calls[|calls| - 1].run.ok then 1 else 0)
  }

  lemma OkCountAppend(calls: seq<BlockCall>, c: BlockCall)
    ensures OkCount(calls + [c]) == OkCount(calls) + (if c.run.ok then 1 else 0)
  {
    assert (calls + [c])[..|calls|] == calls;
  }

  // ---------------- Properties ----------------

  /**
   * The counters: `scanned` counts exactly the successful profile fetches (a
   * failed fetch is skipped), and each flagged profile adds exactly one row,
   * in follower order, so `exportRows.length == suspectCount`. The rows do not
   * depend on the mode, the cap or the block outcomes.
   */
  lemma {:induction false} ScanCounts(env: Env, n: nat)
    ensures var st := ScanUpTo(env, n);
      st.scanned == CountFetched(env, n) && st.scanned <= n &&
      st.rows == FlaggedRows(env, n) &&
      |st.rows| == st.suspects && st.suspects <= st.scanned
  {
    if n > 0 {
      ScanCounts(env, n - 1);
    }
  }

  /** What one step does to the suspect counter, the block counter and the block log. */
  lemma StepBlocks(env: Env, st: ScanState, i: nat)
    ensures var next := Step(env, st, i);
      var run := BlockRunAt(env, i);
      var calls := !env.cfg.simulate && env.cfg.autoBlock && FlaggedAt(env, i) &&
                   (st.blocks as real) < env.cfg.maxBlocks;
      next.suspects == st.suspects + (if FlaggedAt(env, i) then 1 else 0) &&
      (calls ==> next.blockCalls == st.blockCalls + [BlockCall(i, run)] &&
                 next.blocks == st.blocks + (if run.ok then 1 else 0)) &&
      (!calls ==> next.blockCalls == st.blockCalls && next.blocks == st.blocks)
  {
  }

  /**
   * `blockCount` is the number of block calls that returned true, and a
   * simulating or non-blocking run makes no block call at all.
   */
  lemma {:induction false} ScanBlockCount(env: Env, n: nat)
    ensures var st := ScanUpTo(env, n);
      st.blocks == OkCount(st.blockCalls) && st.blocks <= |st.blockCalls| &&
      (env.cfg.simulate || !env.cfg.autoBlock ==> st.blockCalls == [])
  {
    if n > 0 {
      ScanBlockCount(env, n - 1);
      var prev := ScanUpTo(env, n - 1);
      StepBlocks(env, prev, n - 1);
      OkCountAppend(prev.blockCalls, BlockCall(n - 1, BlockRunAt(env, n - 1)));
    }
  }

  /**
   * A block log that respects the cap below position `n`: its last call was
   * made for a flagged follower before `n`, while fewer than `maxBlocks` of
   * the calls before it had succeeded, and is the full `safeBlock` run for
   * that follower; the calls before it respect the cap below that position.
   */
  predicate CallsRespectCap(env: Env, calls: seq<BlockCall>, n: nat)
    decreases |calls|
  {
    if |calls| == 0 then true
    else
      var last := calls[|calls| - 1];
      var init := calls[..|calls| - 1];
      last.position < n && FlaggedAt(env, last.position) &&
      (OkCount(init) as real) < env.cfg.maxBlocks &&
      last.run == BlockRunAt(env, last.position) &&
      CallsRespectCap(env, init, last.position)
  }

  lemma CallsRespectCapExtend(env: Env, calls: seq<BlockCall>, n: nat)
    requires CallsRespectCap(env, calls, n)
    ensures CallsRespectCap(env, calls, n + 1)
    ensures FlaggedAt(env, n) && (OkCount(calls) as real) < env.cfg.maxBlocks ==>
      CallsRespectCap(env, calls + [BlockCall(n, BlockRunAt(env, n))], n + 1)
  {
    var next := calls + [BlockCall(n, BlockRunAt(env, n))];
    assert next[..|calls|] == calls;
  }

  lemma CallsRespectCapStep(env: Env, n: nat)
    requires n > 0
    requires var prev := ScanUpTo(env, n - 1);
      CallsRespectCap(env, prev.blockCalls, n - 1) && prev.blocks == OkCount(prev.blockCalls)
    ensures CallsRespectCap(env, ScanUpTo(env, n).blockCalls, n)
  {
    var prev := ScanUpTo(env, n - 1);
    StepBlocks(env, prev, n - 1);
    CallsRespectCapExtend(env, prev.blockCalls, n - 1);
  }

  lemma {:induction false} ScanLogRespectsCap(env: Env, n: nat)
    ensures CallsRespectCap(env, ScanUpTo(env, n).blockCalls, n)
  {
    if n > 0 {
      ScanLogRespectsCap(env, n - 1);
      ScanBlockCount(env, n - 1);
      CallsRespectCapStep(env, n);
    }
  }

  /**
   * What a log that respects the cap says call by call: each call was made
   * for a flagged follower before `n`, in follower order, while fewer than
   * `maxBlocks` blocks had succeeded, and is the full `safeBlock` run for
   * that follower.
   */
  lemma {:induction false} CallsRespectCapMeans(env: Env, calls: seq<BlockCall>, n: nat)
    requires CallsRespectCap(env, calls, n)
    ensures forall j :: 0 <= j < |calls| ==>
      calls[j].position < n && FlaggedAt(env, calls[j].position) &&
      (OkCount(calls[..j]) as real) < env.cfg.maxBlocks &&
      calls[j].run == BlockRunAt(env, calls[j].position)
    ensures forall j, k :: 0 <= j < k < |calls| ==> calls[j].position < calls[k].position
  {
    forall j | 0 <= j < |calls|
      ensures calls[j].position < n && FlaggedAt(env, calls[j].position) &&
        (OkCount(calls[..j]) as real) < env.cfg.maxBlocks &&
        calls[j].run == BlockRunAt(env, calls[j].position)
    {
      CallRespectsCap(env, calls, n, j);
    }
    forall j, k | 0 <= j < k < |calls| ensures calls[j].position < calls[k].position {
      CallsInOrder(env, calls, n, j, k);
    }
  }

  lemma {:induction false} CallRespectsCap(env: Env, calls: seq<BlockCall>, n: nat, j: nat)
    requires CallsRespectCap(env, calls, n) && j < |calls|
    ensures calls[j].position < n && FlaggedAt(env, calls[j].position) &&
      (OkCount(calls[..j]) as real) < env.cfg.maxBlocks &&
      calls[j].run == BlockRunAt(env, calls[j].position)
    decreases |calls|
  {
    var last := calls[|calls| - 1];
    var init := calls[..|calls| - 1];
    if j < |calls| - 1 {
      CallRespectsCap(env, init, last.position, j);
      assert calls[j] == init[j] && calls[..j] == init[..j];
    } else {
      assert calls[..j] == init;
    }
  }

  lemma {:induction false} CallsInOrder(env: Env, calls: seq<BlockCall>, n: nat, j: nat, k: nat)
    requires CallsRespectCap(env, calls, n) && j < k < |calls|
    ensures calls[j].position < calls[k].position
    decreases |calls|
  {
    var last := calls[|calls| - 1];
    var init := calls[..|calls| - 1];
    assert calls[j] == init[j];
    if k < |calls| - 1 {
      CallsInOrder(env, init, last.position, j, k);
      assert calls[k] == init[k];
    } else {
      CallRespectsCap(env, init, last.position, j);
    }
  }

  /** Every block log the scan produces respects the cap, call by call. */
  lemma ScanBlockCalls(env: Env, n: nat)
    ensures var calls := ScanUpTo(env, n).blockCalls;
      (forall j :: 0 <= j < |calls| ==>
         calls[j].position < n && FlaggedAt(env, calls[j].position) &&
         (OkCount(calls[..j]) as real) < env.cfg.maxBlocks &&
         calls[j].run == BlockRunAt(env, calls[j].position)) &&
      (forall j, k :: 0 <= j < k < |calls| ==> calls[j].position < calls[k].position)
  {
    ScanLogRespectsCap(env, n);
    CallsRespectCapMeans(env, ScanUpTo(env, n).blockCalls, n);
  }

  /** With a whole-number cap `m`, no more than `m` accounts are ever blocked. */
  lemma BlocksWithinCap(env: Env, n: nat, m: nat)
    requires env.cfg.maxBlocks == m as real
    ensures ScanUpTo(env, n).blocks <= m
  {
    ScanBlockCount(env, n);
    ScanLogRespectsCap(env, n);
    var calls := ScanUpTo(env, n).blockCalls;
    if |calls| > 0 {
      var j := |calls| - 1;
      assert calls == calls[..j] + [calls[j]];
      OkCountAppend(calls[..j], calls[j]);
    }
  }

  /**
   * Once `maxBlocks` blocks have succeeded, no later follower gets a block
   * call and the count stays where it is.
   */
  lemma {:induction false} NoCallAfterCap(env: Env, i: nat, n: nat)
    requires i <= n
    requires (ScanUpTo(env, i).blocks as real) >= env.cfg.maxBlocks
    ensures ScanUpTo(env, n).blockCalls == ScanUpTo(env, i).blockCalls
    ensures ScanUpTo(env, n).blocks == ScanUpTo(env, i).blocks
    decreases n - i
  {
    if i < n {
      StepBlocks(env, ScanUpTo(env, i), i);
      NoCallAfterCap(env, i + 1, n);
    }
  }

  /**
   * While the cap cannot be reached (at most `maxBlocks` flagged profiles), an
   * auto-blocking run that is not simulating calls `safeBlock` once for every
   * flagged profile.
   */
  lemma {:induction false} EveryFlaggedBlockedBelowCap(env: Env, n: nat)
    requires env.cfg.autoBlock && !env.cfg.simulate
    requires (ScanUpTo(env, n).suspects as real) <= env.cfg.maxBlocks
    ensures |ScanUpTo(env, n).blockCalls| == ScanUpTo(env, n).suspects
  {
    if n > 0 {
      var prev := ScanUpTo(env, n - 1);
      var st := ScanUpTo(env, n);
      StepBlocks(env, prev, n - 1);
      assert (prev.suspects as real) <= (st.suspects as real);
      EveryFlaggedBlockedBelowCap(env, n - 1);
      ScanBlockCount(env, n - 1);
      if FlaggedAt(env, n - 1) {
        assert (prev.blocks as real) < (st.suspects as real);
      }
    }
  }
}
