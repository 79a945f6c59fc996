/**
 * How the two programs turn their command line into the settings their
 * actions read.
 *
 * skysweep.js parses its flags, reads the saved configuration file and merges
 * the two with `{ ...config, ...flags }`. The actions then read their settings
 * from the merged object with `??` defaults, under camelCase names
 * (`autoBlock`, `maxBlocks`, ...), while the flags are stored under the
 * schema's kebab-case keys (`auto-block`, `max-blocks`, ...). index.js reads
 * its flags directly under their own keys.
 *
 * A configuration is a map from names to JSON-like values; a missing name
 * reads as `Undefined`.
 */
module Settings {
  import opened Common
  import opened Args
  import opened Schemas
  import opened Flags
  import Profiles
  import Verdict
  import Throttle
  import Scan
  import FollowerScan
  import Media
  import Nuke

  // ---------------- Reading settings ----------------

  predicate Nullish(v: Value) {
    v.Undefined? || v.Null?
  }

  /** JavaScript truthiness of a value. */
  predicate IsTruthy(v: Value) {
    match v
    case Undefined => false
    case Null => false
    case Bool(b) => b
    case Num(x) => x != 0.0
    case Str(s) => s != ""
  }

  /** `c[k] ?? def`, used as a condition. */
  function FlagSetting(c: Config, k: string, def: bool): (r: bool)
    ensures Nullish(Get(c, k)) ==> r == def
    ensures !Nullish(Get(c, k)) ==> r == IsTruthy(Get(c, k))
  {
    var v := Get(c, k);
    if Nullish(v) then def else IsTruthy(v)
  }

  /** `c[k] ?? def` for a number; `None` for a value of another type. */
  function NumberSetting(c: Config, k: string, def: real): (r: Option<real>)
    ensures Nullish(Get(c, k)) ==> r == Some(def)
    ensures Get(c, k).Num? ==> r == Some(Get(c, k).x)
    ensures r.None? <==> !Nullish(Get(c, k)) && !Get(c, k).Num?
  {
    var v := Get(c, k);
    if Nullish(v) then Some(def) else if v.Num? then Some(v.x) else None
  }

  /** `c[k] ?? def` for a string; `None` for a value of another type. */
  function TextSetting(c: Config, k: string, def: string): (r: Option<string>)
    ensures Nullish(Get(c, k)) ==> r == Some(def)
    ensures Get(c, k).Str? ==> r == Some(Get(c, k).s)
    ensures r.None? <==> !Nullish(Get(c, k)) && !Get(c, k).Str?
  {
    var v := Get(c, k);
    if Nullish(v) then Some(def) else if v.Str? then Some(v.s) else None
  }

  /** The settings `runFollowerScan` derives (skysweep.js lines 453-463). */
  function ScanSettingsOf(c: Config): Option<FollowerScan.ScanSettings> {
    var delay := NumberSetting(c, "delay", 400.0);
    var profileDelay := NumberSetting(c, "profileDelay", 100.0);
    var maxBlocks := NumberSetting(c, "maxBlocks", 25.0);
    var pages := NumberSetting(c, "pages", 5.0);
    var exportFormat := TextSetting(c, "export", "");
    var out := TextSetting(c, "out", "");
    if delay.None? || profileDelay.None? || maxBlocks.None? || pages.None? || exportFormat.None? || out.None? then None
    else Some(FollowerScan.ScanSettings(
      FlagSetting(c, "simulate", true),
      FlagSetting(c, "autoBlock", false),
      delay.value, profileDelay.value, maxBlocks.value, pages.value,
      exportFormat.value, out.value,
      FlagSetting(c, "includeMarketers", false),
      FlagSetting(c, "marketerOnly", false)))
  }

  /**
   * The settings `downloadAllMedia` destructures (skysweep.js line 298). A
   * missing tag list or media type reads as the empty string, which selects
   * the same as `undefined` does.
   */
  function MediaSettingsOf(c: Config): Option<Media.MediaSettings> {
    var filterTags := TextSetting(c, "filterTags", "");
    var mediaType := TextSetting(c, "media-type", "");
    if filterTags.None? || mediaType.None? then None
    else Some(Media.MediaSettings(filterTags.value, FlagSetting(c, "untaggedOnly", false), mediaType.value))
  }

  /** The settings `runNuke` reads (skysweep.js lines 621-622, 669, 715). */
  function NukeSettingsOf(c: Config): Option<Nuke.NukeSettings> {
    var nuke := TextSetting(c, "nuke", "");
    var filterTags := TextSetting(c, "filterTags", "");
    var delay := NumberSetting(c, "delay", 200.0);
    if nuke.None? || filterTags.None? || delay.None? then None
    else Some(Nuke.NukeSettings(nuke.value, filterTags.value, FlagSetting(c, "untaggedOnly", false), delay.value))
  }

  // ---------------- skysweep.js main ----------------

  /** `{ ...config, ...flags }`: a flag wins over a saved setting of the same name. */
  function Merge(file: Config, flags: Config): (c: Config)
    ensures c.Keys == file.Keys + flags.Keys
    ensures forall k :: k in flags ==> c[k] == flags[k]
    ensures forall k :: k in file && k !in flags ==> c[k] == file[k]
  {
    file + flags
  }

  datatype Action = ShowHelp | DownloadMediaRun | NukeRun | FollowerScanRun | ConfigureRun | MenuRun

  /**
   * What `main` does with the parsed flags and the merged configuration
   * (lines 136-150, 813-841): help first; a direct action when one of the
   * four action flags is set and `--configure` is not; the configuration
   * dialogue; otherwise the menu. Logging in, which a direct action and the
   * menu do first, is not part of this choice.
   */
  function Dispatch(flags: Config, config: Config): Action {
    if IsTruthy(Get(flags, "help")) then ShowHelp
    else if (IsTruthy(Get(flags, "download-media")) || IsTruthy(Get(flags, "nuke")) ||
             IsTruthy(Get(flags, "auto-block")) || IsTruthy(Get(flags, "simulate"))) &&
            !IsTruthy(Get(flags, "configure")) then
      if IsTruthy(Get(config, "download-media")) then DownloadMediaRun
      else if IsTruthy(Get(config, "nuke")) then NukeRun
      else FollowerScanRun
    else if IsTruthy(Get(flags, "configure")) then ConfigureRun
    else MenuRun
  }

  /**
   * Every setting named like a flag comes from the command line: the parsed
   * flag, given or defaulted, hides whatever the configuration file saved
   * under that name.
   */
  lemma FlagsHideSavedSettings(argv: seq<string>, parse: string -> Option<real>, file: Config, i: nat, k: string)
    requires i < |SkysweepSchema| && SkysweepSchema[i].key == k
    ensures var flags := SkysweepFlags(argv, parse);
      Get(Merge(file, flags), k) == Get(flags, k)
  {
    ParsedKeys(argv, SkysweepSchema, parse, k);
  }

  /**
   * The action is decided by the command line alone: the saved configuration
   * never chooses between downloading, nuking and scanning.
   */
  lemma DispatchFollowsFlags(argv: seq<string>, parse: string -> Option<real>, file: Config)
    ensures var flags := SkysweepFlags(argv, parse);
      Dispatch(flags, Merge(file, flags)) == Dispatch(flags, flags)
  {
    SkysweepActionEntries();
    FlagsHideSavedSettings(argv, parse, file, 13, "download-media");
    FlagsHideSavedSettings(argv, parse, file, 17, "nuke");
  }

  /**
   * `--auto-block` alone among the action flags, without `--help`,
   * `--configure`, `--download-media` or `--nuke`, runs the follower scan.
   */
  lemma AutoBlockRunsScan(argv: seq<string>, parse: string -> Option<real>, file: Config, j: nat)
    requires Names(argv, j, "auto-block")
    requires forall j' :: 0 <= j' < |argv| ==>
      !Names(argv, j', "help") && !Names(argv, j', "configure") &&
      !Names(argv, j', "download-media") && !Names(argv, j', "nuke")
    ensures var flags := SkysweepFlags(argv, parse); Dispatch(flags, Merge(file, flags)) == FollowerScanRun
  {
    var flags := SkysweepFlags(argv, parse);
    AutoBlockIsBoolFlag();
    BoolFlagGiven(argv, SkysweepSchema, parse, j, "auto-block");
    QuietFlags(argv, parse);
    ScanChosen(flags);
    DispatchFollowsFlags(argv, parse, file);
  }

  lemma ScanChosen(flags: Config)
    requires Get(flags, "auto-block") == Bool(true)
    requires Get(flags, "help") == Bool(false) && Get(flags, "configure") == Bool(false)
    requires Get(flags, "download-media") == Str("") && Get(flags, "nuke") == Str("")
    ensures Dispatch(flags, flags) == FollowerScanRun
  {
  }

  // ---------------- The kebab-case flags ----------------

  /** The camelCase settings whose flags have kebab-case keys. */
  const RenamedSettings: set<string> :=
    {"autoBlock", "profileDelay", "maxBlocks", "includeMarketers", "marketerOnly", "filterTags", "untaggedOnly"}

  /** The flag key behind each renamed setting. */
  function KebabKey(name: string): string {
    if name == "autoBlock" then "auto-block"
    else if name == "profileDelay" then "profile-delay"
    else if name == "maxBlocks" then "max-blocks"
    else if name == "includeMarketers" then "include-marketers"
    else if name == "marketerOnly" then "marketer-only"
    else if name == "filterTags" then "filter-tags"
    else if name == "untaggedOnly" then "untagged-only"
    else name
  }

  lemma NoSchemaKeyIsRenamed(n: string)
    requires n in RenamedSettings
    ensures forall i :: 0 <= i < |SkysweepSchema| ==> SkysweepSchema[i].key != n
  {
  }

  /**
   * As written, the command line never reaches the renamed settings: after
   * the merge each of them is whatever the configuration file saved, for
   * every command line.
   */
  lemma KebabFlagsIgnored(argv: seq<string>, parse: string -> Option<real>, file: Config, n: string)
    requires n in RenamedSettings
    ensures Get(Merge(file, SkysweepFlags(argv, parse)), n) == Get(file, n)
  {
    NoSchemaKeyIsRenamed(n);
    ParsedKeys(argv, SkysweepSchema, parse, n);
  }

  /**
   * As written, `--auto-block` (or `-b`) makes no block call: unless the
   * configuration file saved `autoBlock`, the scan reads it as false, so
   * the scan loop never blocks, however many profiles it flags.
   */
  lemma AutoBlockFlagNeverBlocks(argv: seq<string>, parse: string -> Option<real>, file: Config, j: nat,
                                 botCard: Profiles.Profile -> Verdict.ScoreCard,
                                 marketerCard: Profiles.Profile -> Verdict.ScoreCard,
                                 getProfile: nat -> Option<Profiles.Profile>,
                                 blockOutcome: (nat, nat) -> Throttle.CallOutcome, n: nat)
    requires Names(argv, j, "auto-block") && Nullish(Get(file, "autoBlock"))
    ensures var flags := SkysweepFlags(argv, parse);
      var config := Merge(file, flags);
      Get(flags, "auto-block") == Bool(true) &&
      (ScanSettingsOf(config).Some? ==>
         !ScanSettingsOf(config).value.autoBlock &&
         Scan.ScanUpTo(FollowerScan.SkysweepEnv(ScanSettingsOf(config).value, botCard, marketerCard, getProfile, blockOutcome), n).blockCalls == [])
  {
    var flags := SkysweepFlags(argv, parse);
    var config := Merge(file, flags);
    AutoBlockIsBoolFlag();
    BoolFlagGiven(argv, SkysweepSchema, parse, j, "auto-block");
    KebabFlagsIgnored(argv, parse, file, "autoBlock");
    assert Nullish(Get(config, "autoBlock"));
    NeverBlocksCore(config, botCard, marketerCard, getProfile, blockOutcome, n);
  }

  /** Settings that leave `autoBlock` unset give a scan with no block call. */
  lemma NeverBlocksCore(config: Config,
                        botCard: Profiles.Profile -> Verdict.ScoreCard,
                        marketerCard: Profiles.Profile -> Verdict.ScoreCard,
                        getProfile: nat -> Option<Profiles.Profile>,
                        blockOutcome: (nat, nat) -> Throttle.CallOutcome, n: nat)
    requires Nullish(Get(config, "autoBlock"))
    ensures ScanSettingsOf(config).Some? ==>
      !ScanSettingsOf(config).value.autoBlock &&
      Scan.ScanUpTo(FollowerScan.SkysweepEnv(ScanSettingsOf(config).value, botCard, marketerCard, getProfile, blockOutcome), n).blockCalls == []
  {
    if ScanSettingsOf(config).Some? {
      Scan.ScanBlockCount(FollowerScan.SkysweepEnv(ScanSettingsOf(config).value, botCard, marketerCard, getProfile, blockOutcome), n);
    }
  }

  /**
   * The merge as evidently intended: each kebab-case flag also reaches the
   * camelCase setting that the actions read, taking precedence over the
   * saved value exactly as the single-word flags already do.
   */
  function MergeFixed(file: Config, flags: Config): Config {
    file + flags + map n | n in RenamedSettings :: Get(flags, KebabKey(n))
  }

  /**
   * With the corrected merge, a renamed setting reads its flag, and every
   * other setting reads as before.
   */
  lemma MergeFixedReadsFlags(file: Config, flags: Config, n: string)
    ensures n in RenamedSettings ==> Get(MergeFixed(file, flags), n) == Get(flags, KebabKey(n))
    ensures n !in RenamedSettings ==> Get(MergeFixed(file, flags), n) == Get(Merge(file, flags), n)
  {
  }

  /** With the corrected merge, the scan settings can always be read, whatever the file saved. */
  lemma FixedScanSettingsRead(argv: seq<string>, parse: string -> Option<real>, file: Config)
    ensures ScanSettingsOf(MergeFixed(file, SkysweepFlags(argv, parse))).Some?
  {
    ScanFlagsTyped(argv, parse);
    ParsedKeys(argv, SkysweepSchema, parse, "delay");
    ParsedKeys(argv, SkysweepSchema, parse, "pages");
    ParsedKeys(argv, SkysweepSchema, parse, "export");
    ParsedKeys(argv, SkysweepSchema, parse, "out");
    MergeFixedTyped(file, SkysweepFlags(argv, parse));
  }

  lemma MergeFixedTyped(file: Config, flags: Config)
    requires "delay" in flags && "pages" in flags && "export" in flags && "out" in flags
    requires Get(flags, "delay").Num? && Get(flags, "profile-delay").Num? && Get(flags, "max-blocks").Num?
    requires Get(flags, "pages").Num? && Get(flags, "export").Str? && Get(flags, "out").Str?
    ensures ScanSettingsOf(MergeFixed(file, flags)).Some?
  {
    MergeFixedReadsFlags(file, flags, "profileDelay");
    MergeFixedReadsFlags(file, flags, "maxBlocks");
    MergeFixedReadsFlags(file, flags, "delay");
    MergeFixedReadsFlags(file, flags, "pages");
    MergeFixedReadsFlags(file, flags, "export");
    MergeFixedReadsFlags(file, flags, "out");
  }

  /** With the corrected merge, `--auto-block` (or `-b`) anywhere on the command line turns auto-blocking on. */
  lemma AutoBlockHonoured(argv: seq<string>, parse: string -> Option<real>, file: Config, j: nat)
    requires Names(argv, j, "auto-block")
    ensures FlagSetting(MergeFixed(file, SkysweepFlags(argv, parse)), "autoBlock", false)
  {
    AutoBlockIsBoolFlag();
    BoolFlagGiven(argv, SkysweepSchema, parse, j, "auto-block");
    AutoBlockReadsFlag(file, SkysweepFlags(argv, parse));
  }

  lemma AutoBlockReadsFlag(file: Config, flags: Config)
    requires Get(flags, "auto-block") == Bool(true)
    ensures FlagSetting(MergeFixed(file, flags), "autoBlock", false)
  {
    MergeFixedReadsFlags(file, flags, "autoBlock");
    assert KebabKey("autoBlock") == "auto-block";
  }

  /**
   * Corrected, `--auto-block` without `--simulate` blocks for real: while
   * no more profiles are flagged than `maxBlocks`, every flagged profile
   * gets its block call.
   */
  lemma AutoBlockFlagBlocksFixed(argv: seq<string>, parse: string -> Option<real>, file: Config, j: nat,
                                 botCard: Profiles.Profile -> Verdict.ScoreCard,
                                 marketerCard: Profiles.Profile -> Verdict.ScoreCard,
                                 getProfile: nat -> Option<Profiles.Profile>,
                                 blockOutcome: (nat, nat) -> Throttle.CallOutcome, n: nat)
    requires Names(argv, j, "auto-block")
    requires forall j' :: 0 <= j' < |argv| ==> !Names(argv, j', "simulate")
    ensures var s := ScanSettingsOf(MergeFixed(file, SkysweepFlags(argv, parse)));
      s.Some? && s.value.autoBlock && !s.value.simulate &&
      var st := Scan.ScanUpTo(FollowerScan.SkysweepEnv(s.value, botCard, marketerCard, getProfile, blockOutcome), n);
      ((st.suspects as real) <= s.value.maxBlocks ==> |st.blockCalls| == st.suspects)
  {
    FixedScanSettingsRead(argv, parse, file);
    AutoBlockHonoured(argv, parse, file, j);
    SkysweepScanEntries();
    SkysweepDefault(argv, parse, 1, "simulate");
    BlocksFixedCore(file, SkysweepFlags(argv, parse), botCard, marketerCard, getProfile, blockOutcome, n);
  }

  lemma BlocksFixedCore(file: Config, flags: Config,
                        botCard: Profiles.Profile -> Verdict.ScoreCard,
                        marketerCard: Profiles.Profile -> Verdict.ScoreCard,
                        getProfile: nat -> Option<Profiles.Profile>,
                        blockOutcome: (nat, nat) -> Throttle.CallOutcome, n: nat)
    requires ScanSettingsOf(MergeFixed(file, flags)).Some?
    requires FlagSetting(MergeFixed(file, flags), "autoBlock", false)
    requires Get(flags, "simulate") == Bool(false)
    ensures var s := ScanSettingsOf(MergeFixed(file, flags));
      s.value.autoBlock && !s.value.simulate &&
      var st := Scan.ScanUpTo(FollowerScan.SkysweepEnv(s.value, botCard, marketerCard, getProfile, blockOutcome), n);
      ((st.suspects as real) <= s.value.maxBlocks ==> |st.blockCalls| == st.suspects)
  {
    MergeFixedReadsFlags(file, flags, "simulate");
    var s := ScanSettingsOf(MergeFixed(file, flags)).value;
    var env := FollowerScan.SkysweepEnv(s, botCard, marketerCard, getProfile, blockOutcome);
    if (Scan.ScanUpTo(env, n).suspects as real) <= s.maxBlocks {
      Scan.EveryFlaggedBlockedBelowCap(env, n);
    }
  }

  // ---------------- index.js ----------------

  /**
   * The flag-driven settings of index.js `main` (lines 240-249), for flags
   * of the declared kinds.
   */
  function IndexFlagsOf(flags: Config): Option<FollowerScan.IndexFlags> {
    var delay := Get(flags, "delay");
    var profileDelay := Get(flags, "profile-delay");
    var maxBlocks := Get(flags, "max-blocks");
    var pages := Get(flags, "pages");
    var exportFormat := Get(flags, "export");
    var out := Get(flags, "out");
    if delay.Num? && profileDelay.Num? && maxBlocks.Num? && pages.Num? && exportFormat.Str? && out.Str? then
      Some(FollowerScan.IndexFlags(
        IsTruthy(Get(flags, "simulate")), IsTruthy(Get(flags, "auto-block")),
        delay.x, profileDelay.x, maxBlocks.x, pages.x, exportFormat.s, out.s))
    else None
  }

  /**
   * Every command line gives index.js flags of the declared kinds, so the
   * flag-driven settings can always be read, and auto-blocking and
   * simulation are exactly the two bool flags.
   */
  lemma IndexFlagsAlwaysRead(argv: seq<string>, parse: string -> Option<real>)
    ensures var flags := ParseSpec(argv, IndexSchema, parse);
      IndexFlagsOf(flags).Some? &&
      IndexFlagsOf(flags).value.autoBlock == (Get(flags, "auto-block") == Bool(true)) &&
      IndexFlagsOf(flags).value.simulate == (Get(flags, "simulate") == Bool(true)) &&
      Num(IndexFlagsOf(flags).value.maxBlocks) == Get(flags, "max-blocks")
  {
    IndexKind(argv, parse, 0);
    IndexKind(argv, parse, 1);
    IndexKind(argv, parse, 2);
    IndexKind(argv, parse, 3);
    IndexKind(argv, parse, 4);
    IndexKind(argv, parse, 5);
    IndexKind(argv, parse, 7);
    IndexKind(argv, parse, 8);
  }

  /** In index.js, `--auto-block` (or `-b`) anywhere turns auto-blocking on. */
  lemma IndexAutoBlockHonoured(argv: seq<string>, parse: string -> Option<real>, j: nat)
    requires j < |argv| && FlagAt(argv, IndexSchema, AliasIndex(IndexSchema), j) == Some("auto-block")
    ensures var flags := ParseSpec(argv, IndexSchema, parse);
      IndexFlagsOf(flags).Some? && IndexFlagsOf(flags).value.autoBlock
  {
    BoolFlagGiven(argv, IndexSchema, parse, j, "auto-block");
    IndexFlagsAlwaysRead(argv, parse);
  }
}
