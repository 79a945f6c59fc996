/**
 * The two follower-scan entry points put together: `runFollowerScan` in
 * skysweep.js and the flag-driven path of `main` in index.js. Each fetches
 * the follower pages, runs the shared scan loop with its own verdict and row
 * builder, and then decides what to export.
 */
module FollowerScan {
  import opened Common
  import opened Text
  import opened Profiles
  import opened BotCheck
  import opened Verdict
  import opened Throttle
  import opened Csv
  import opened Paginate
  import opened Scan

  // ---------------- Verdicts and rows ----------------

  /**
   * skysweep.js: resolve the bot card and (only when a marketer flag is on)
   * the marketer card; a match carries its category name.
   */
  function SkysweepFlag(mode: Mode, botCard: Profile -> ScoreCard, marketerCard: Profile -> ScoreCard, p: Profile)
    : Option<Flag>
  {
    match Resolve(mode, botCard(p), MarketerCardFor(mode, marketerCard(p)))
    case NoMatch => None
    case Match(c, reason) => Some(Flag(reason, Some(CategoryName(c))))
  }

  /** index.js: the bot classifier's string is the reason; there is no category. */
  function IndexFlag(p: Profile): Option<Flag> {
    match CheckIfLikelyBot(p)
    case None => None
    case Some(reason) => Some(Flag(reason, None))
  }

  /** The export row of a flagged profile: a missing handle or did is empty, a missing count is 0. */
  function RowOf(p: Profile, f: Flag): ExportRow {
    ExportRow(p.handle.GetOr(""), p.did.GetOr(""), Followers(p), Follows(p), Posts(p),
              ProfileFixedRatio(p), f.reason, f.category)
  }

  /**
   * A skysweep.js verdict is non-null exactly when the resolver matched; it
   * then has both a reason and a category, and the category is the one
   * resolved. The profile is flagged (non-empty reason) exactly when the
   * chosen classifier gave a reason list that is neither empty nor a single
   * empty string.
   */
  lemma SkysweepFlagIff(mode: Mode, botCard: Profile -> ScoreCard, marketerCard: Profile -> ScoreCard, p: Profile)
    ensures var v := Resolve(mode, botCard(p), MarketerCardFor(mode, marketerCard(p)));
      var f := SkysweepFlag(mode, botCard, marketerCard, p);
      (f.Some? <==> v.Match?) &&
      (f.Some? ==> f.value.category == Some(CategoryName(v.category)) && f.value.reason == v.reason) &&
      (IsFlagged(f) <==>
         v.Match? &&
         var rs := if v.category == Bot then botCard(p).reasons else marketerCard(p).reasons;
         !(|rs| == 0 || (|rs| == 1 && rs[0] == "")))
  {
    var card := MarketerCardFor(mode, marketerCard(p));
    var v := Resolve(mode, botCard(p), card);
    MatchReason(mode, botCard(p), card);
    if v.Match? {
      JoinedReasonEmpty(if v.category == Bot then botCard(p).reasons else marketerCard(p).reasons);
    }
  }

  /** An index.js verdict flags a profile exactly when `checkIfLikelyBot` returns a string, and never has a category. */
  lemma IndexFlagIff(p: Profile)
    ensures IsFlagged(IndexFlag(p)) <==> CheckIfLikelyBot(p).Some?
    ensures IndexFlag(p).Some? ==> IndexFlag(p).value == Flag(CheckIfLikelyBot(p).value, None)
  {
  }

  /** `toFixed(3)` output is digits and one point, so its cell is never quoted. */
  lemma RatioNeedsNoQuoting(p: Profile)
    ensures !NeedsQuoting(ProfileFixedRatio(p))
  {
    var r := ProfileFixedRatio(p);
    assert forall c | c in r :: IsDigit(c) || c == '.';
  }

  /** Every export row the scan builds with `RowOf` has a ratio cell that needs no quoting. */
  lemma {:induction false} FlaggedRowsSafe(env: Env, n: nat)
    requires env.rowOf == RowOf
    ensures SafeRatios(FlaggedRows(env, n))
  {
    if n > 0 {
      FlaggedRowsSafe(env, n - 1);
      if FlaggedAt(env, n - 1) {
        RatioNeedsNoQuoting(env.getProfile(n - 1).value);
      }
    }
  }

  // ---------------- Export ----------------

  /** What the export step does: nothing, write a table, or report an unsupported format. */
  datatype ExportPlan =
    | NoExport
    | WriteCsv(name: string, text: string)
    | WriteJson(name: string, rows: seq<ExportRow>)
    | UnsupportedFormat(format: string)

  /** The output file name: `--out` if given, else a stamped default, cleaned by `safeFilename`. */
  function ExportName(fmt: string, out: string, stamp: string): string {
    SafeFilename(if out != "" then out else "skysweep-suspects-" + stamp + "." + fmt)
  }

  /** skysweep.js: export only in a known format and only when something was flagged. */
  function SkysweepExport(fmt: string, out: string, stamp: string, rows: seq<ExportRow>): ExportPlan {
    if (fmt == "json" || fmt == "csv") && |rows| > 0 then
      if fmt == "json" then WriteJson(ExportName(fmt, out, stamp), rows)
      else WriteCsv(ExportName(fmt, out, stamp), CsvText8(rows))
    else NoExport
  }

  /** index.js: the same with the seven-column table, and a message for an unknown format. */
  function IndexExport(fmt: string, out: string, stamp: string, rows: seq<ExportRow>): ExportPlan {
    if (fmt == "json" || fmt == "csv") && |rows| > 0 then
      if fmt == "json" then WriteJson(ExportName(fmt, out, stamp), rows)
      else WriteCsv(ExportName(fmt, out, stamp), CsvText7(rows))
    else if fmt != "" && fmt != "json" && fmt != "csv" then UnsupportedFormat(fmt)
    else NoExport
  }

  method ExportSkysweep(fmt: string, out: string, stamp: string, rows: seq<ExportRow>) returns (plan: ExportPlan)
    ensures plan == SkysweepExport(fmt, out, stamp, rows)
  {
    if (fmt == "json" || fmt == "csv") && |rows| > 0 {
      var name := ExportName(fmt, out, stamp);
      if fmt == "json" {
        plan := WriteJson(name, rows);
      } else {
        var text := ToCsv(rows);
        plan := WriteCsv(name, text);
      }
    } else {
      plan := NoExport;
    }
  }

  method ExportIndex(fmt: string, out: string, stamp: string, rows: seq<ExportRow>) returns (plan: ExportPlan)
    ensures plan == IndexExport(fmt, out, stamp, rows)
  {
    if (fmt == "json" || fmt == "csv") && |rows| > 0 {
      var name := ExportName(fmt, out, stamp);
      if fmt == "json" {
        plan := WriteJson(name, rows);
      } else {
        var text := ToCsvIndex(rows);
        plan := WriteCsv(name, text);
      }
    } else if fmt != "" && fmt != "json" && fmt != "csv" {
      plan := UnsupportedFormat(fmt);
    } else {
      plan := NoExport;
    }
  }

  /**
   * A file is written exactly when the format is `json` or `csv` and at least
   * one row exists; its name is at most 120 safe characters; an index.js
   * run reports the format only when it is neither empty nor known.
   */
  lemma ExportPlanShape(fmt: string, out: string, stamp: string, rows: seq<ExportRow>)
    ensures var plan := SkysweepExport(fmt, out, stamp, rows);
      (plan.WriteCsv? <==> fmt == "csv" && |rows| > 0) &&
      (plan.WriteJson? <==> fmt == "json" && |rows| > 0) &&
      !plan.UnsupportedFormat?
    ensures var plan := IndexExport(fmt, out, stamp, rows);
      (plan.WriteCsv? <==> fmt == "csv" && |rows| > 0) &&
      (plan.WriteJson? <==> fmt == "json" && |rows| > 0) &&
      (plan.UnsupportedFormat? <==> fmt != "" && fmt != "json" && fmt != "csv")
    ensures var name := ExportName(fmt, out, stamp);
      |name| <= 120 && (forall i :: 0 <= i < |name| ==> IsSafeChar(name[i]))
  {
  }

  // ---------------- skysweep.js runFollowerScan ----------------

  /** The settings `runFollowerScan` reads, after its `??` defaults. */
  datatype ScanSettings = ScanSettings(
    simulate: bool,
    autoBlock: bool,
    delay: real,
    profileDelay: real,
    maxBlocks: real,
    pages: real,
    exportFormat: string,
    out: string,
    includeMarketers: bool,
    marketerOnly: bool)

  /** What a scan that got its followers did: the followers, the loop's final state and the export step. */
  datatype ScanReport<T> = ScanReport(followers: seq<T>, state: ScanState, exportPlan: ExportPlan)

  function SkysweepEnv(s: ScanSettings, botCard: Profile -> ScoreCard, marketerCard: Profile -> ScoreCard,
                       getProfile: nat -> Option<Profile>, blockOutcome: (nat, nat) -> CallOutcome): Env
  {
    Env(ScanConfig(s.simulate, s.autoBlock, s.maxBlocks, s.profileDelay, s.delay),
        p => SkysweepFlag(Mode(s.includeMarketers, s.marketerOnly), botCard, marketerCard, p),
        RowOf, getProfile, blockOutcome)
  }

  /**
   * `runFollowerScan`: the follower walk (capped at `pages` only when
   * `pages >= 1`), nothing more once a page request fails, otherwise the scan
   * loop over every follower fetched and the export step.
   */
  method RunFollowerScan<T>(s: ScanSettings, followerPages: seq<Page<T>>,
                            getProfile: nat -> Option<Profile>, blockOutcome: (nat, nat) -> CallOutcome,
                            botCard: Profile -> ScoreCard, marketerCard: Profile -> ScoreCard, stamp: string)
    returns (report: Option<ScanReport<T>>)
    ensures var walk := FollowerWalk(followerPages, s.pages >= 1.0, s.pages, 0);
      (report.None? <==> walk.failed) &&
      (report.Some? ==>
         var st := ScanUpTo(SkysweepEnv(s, botCard, marketerCard, getProfile, blockOutcome), |walk.items|);
         report.value == ScanReport(walk.items, st, SkysweepExport(s.exportFormat, s.out, stamp, st.rows)))
  {
    var followers, _ := FetchFollowers(followerPages, s.pages >= 1.0, s.pages);
    if followers.None? {
      return None;
    }
    var env := SkysweepEnv(s, botCard, marketerCard, getProfile, blockOutcome);
    var st := RunScan(env, followers.value);
    var plan := ExportSkysweep(s.exportFormat, s.out, stamp, st.rows);
    report := Some(ScanReport(followers.value, st, plan));
  }

  /**
   * The CSV file skysweep.js writes reads back as the eight-column header
   * followed by the cells of exactly the flagged profiles, one row each, in
   * follower order.
   */
  lemma SkysweepCsvReadsBack(s: ScanSettings, botCard: Profile -> ScoreCard, marketerCard: Profile -> ScoreCard,
                             getProfile: nat -> Option<Profile>, blockOutcome: (nat, nat) -> CallOutcome,
                             n: nat, stamp: string)
    ensures var env := SkysweepEnv(s, botCard, marketerCard, getProfile, blockOutcome);
      var st := ScanUpTo(env, n);
      var plan := SkysweepExport(s.exportFormat, s.out, stamp, st.rows);
      var rows := FlaggedRows(env, n);
      plan.WriteCsv? ==>
        |rows| == st.suspects > 0 &&
        ReadRecords(plan.text) == [Header8] + seq(|rows|, i requires 0 <= i < |rows| => Cells8(rows[i]))
  {
    var env := SkysweepEnv(s, botCard, marketerCard, getProfile, blockOutcome);
    ScanCounts(env, n);
    FlaggedRowsSafe(env, n);
    var st := ScanUpTo(env, n);
    if SkysweepExport(s.exportFormat, s.out, stamp, st.rows).WriteCsv? {
      CsvRoundTrip8(st.rows);
    }
  }

  // ---------------- index.js main ----------------

  /** The flags index.js's scan reads. */
  datatype IndexFlags = IndexFlags(
    simulate: bool,
    autoBlock: bool,
    delay: real,
    profileDelay: real,
    maxBlocks: real,
    pages: real,
    exportFormat: string,
    out: string)

  /** `Math.max(1, Number(flags["pages"] || 1))`: a zero page count means one page. */
  function IndexPages(pages: real): (r: real)
    ensures r >= 1.0
    ensures pages >= 1.0 ==> r == pages
  {
    var v := if pages == 0.0 then 1.0 else pages;
    if v < 1.0 then 1.0 else v
  }

  function IndexEnv(f: IndexFlags, getProfile: nat -> Option<Profile>, blockOutcome: (nat, nat) -> CallOutcome): Env {
    Env(ScanConfig(f.simulate, f.autoBlock, f.maxBlocks, f.profileDelay, f.delay),
        IndexFlag, RowOf, getProfile, blockOutcome)
  }

  /**
   * The flag-driven path of index.js `main`: at most `pages` follower pages
   * (always capped), an exit on a failed page request, the scan loop and the
   * export step with the lower-cased format.
   */
  method IndexMain<T>(f: IndexFlags, followerPages: seq<Page<T>>,
                      getProfile: nat -> Option<Profile>, blockOutcome: (nat, nat) -> CallOutcome, stamp: string)
    returns (report: Option<ScanReport<T>>)
    ensures var walk := FollowerWalk(followerPages, true, IndexPages(f.pages), 0);
      (report.None? <==> walk.failed) &&
      (report.Some? ==>
         var st := ScanUpTo(IndexEnv(f, getProfile, blockOutcome), |walk.items|);
         report.value == ScanReport(walk.items, st, IndexExport(Lower(f.exportFormat), f.out, stamp, st.rows)))
  {
    var followers, _ := FetchFollowers(followerPages, true, IndexPages(f.pages));
    if followers.None? {
      return None;
    }
    var env := IndexEnv(f, getProfile, blockOutcome);
    var st := RunScan(env, followers.value);
    var plan := ExportIndex(Lower(f.exportFormat), f.out, stamp, st.rows);
    report := Some(ScanReport(followers.value, st, plan));
  }

  /** With a whole page count `n` from the flags, index.js sends at most `max(1, n)` follower requests. */
  lemma IndexFetchesWithinPages<T>(followerPages: seq<Page<T>>, n: nat)
    ensures FollowerWalk(followerPages, true, IndexPages(n as real), 0).fetches <= if n == 0 then 1 else n
  {
    if n == 0 {
      FollowerWalkAtMostPages(followerPages, 1);
    } else {
      FollowerWalkAtMostPages(followerPages, n);
    }
  }

  /**
   * The reason of every row index.js exports is `checkIfLikelyBot`'s string
   * for that profile, and its CSV file reads back as the seven-column header
   * and those rows' cells in follower order.
   */
  lemma IndexCsvReadsBack(f: IndexFlags, getProfile: nat -> Option<Profile>, blockOutcome: (nat, nat) -> CallOutcome,
                          n: nat, fmt: string, stamp: string)
    ensures var env := IndexEnv(f, getProfile, blockOutcome);
      var st := ScanUpTo(env, n);
      var plan := IndexExport(fmt, f.out, stamp, st.rows);
      var rows := FlaggedRows(env, n);
      plan.WriteCsv? ==>
        |rows| == st.suspects > 0 &&
        ReadRecords(plan.text) == [Header7] + seq(|rows|, i requires 0 <= i < |rows| => Cells7(rows[i]))
  {
    var env := IndexEnv(f, getProfile, blockOutcome);
    ScanCounts(env, n);
    FlaggedRowsSafe(env, n);
    var st := ScanUpTo(env, n);
    if IndexExport(fmt, f.out, stamp, st.rows).WriteCsv? {
      CsvRoundTrip7(st.rows);
    }
  }

  /** Every index.js row carries the classifier's own string for a flagged follower, and no category. */
  lemma IndexRowReasons(f: IndexFlags, getProfile: nat -> Option<Profile>, blockOutcome: (nat, nat) -> CallOutcome, n: nat)
    ensures var rows := FlaggedRows(IndexEnv(f, getProfile, blockOutcome), n);
      forall j :: 0 <= j < |rows| ==>
        rows[j].category.None? &&
        exists i :: 0 <= i < n && getProfile(i).Some? && CheckIfLikelyBot(getProfile(i).value) == Some(rows[j].reason)
  {
    var env := IndexEnv(f, getProfile, blockOutcome);
    var rows := FlaggedRows(env, n);
    RowsComeFromFlagged(env, n);
    forall j | 0 <= j < |rows|
      ensures rows[j].category.None? &&
        exists i :: 0 <= i < n && getProfile(i).Some? && CheckIfLikelyBot(getProfile(i).value) == Some(rows[j].reason)
    {
      var i :| 0 <= i < n && FlaggedAt(env, i) && rows[j] == RowAt(env, i);
      var p := getProfile(i).value;
      assert rows[j] == RowOf(p, IndexFlag(p).value);
    }
  }
}
