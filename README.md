# SkySweep, modelled in Dafny

SkySweep is a command-line toolkit for Bluesky accounts. There are two entry
points.

- `skysweep.js` is the full tool:
  - it parses a flag schema and merges the flags over a saved `config.json`;
  - it then dispatches to one of three actions: a follower scan that flags
    likely bots and marketers (reviewing, simulating or auto-blocking them,
    and exporting the suspects as JSON or CSV); a media backup of the
    account's photos and videos; or a "nuke" that deletes every post or like
    of one kind.
- `index.js` is the older bot scanner. It is driven by flags and always
  caps the number of follower pages.

Both programs share:
- the argument parser `utils/args.js`;
- the classifiers `utils/botCheck.js` and `utils/marketerCheck.js`;
- the login loop `utils/auth.js`.

This project models each of these parts in Dafny and proves what each
promises.

- **Pure code** becomes datatypes and functions: the classifiers, CSV
  escaping, the filters, the verdict and the settings merge.
- **Code that loops or updates state** becomes methods with loop invariants,
  each proved against a specification function: `parseArgs`, `toCSV`,
  `login`, `safeBlock`, the pagination loops, the scan loop, the download
  queue and windows, and the delete loop. The configuration object that
  `login` writes the handle into is a class.

Everything remote is a parameter:
- the Bluesky server (pages of followers, feed items and records, profiles,
  block and delete outcomes);
- the prompts the user answers;
- `Number(...)` parsing;
- the clock stamp.

Requested sleeps are recorded rather than waited for.

The modules are:
- `Common`, `Text`, `Profiles`: shared values and string operations;
- `Args`, `Schemas`, `Flags`, `Settings`: the command line and the settings;
- `BotCheck`, `MarketerCheck`, `Verdict`: the classifiers and how the scan
  uses their results;
- `Csv`: the CSV export and a reference reader;
- `Throttle`: `safeBlock`;
- `Paginate`: the cursor walks;
- `Scan`: the scan loop;
- `FollowerScan` (`runs.dfy`): the two scan entry points;
- `Media`: the media backup;
- `Nuke`: the nuke;
- `Auth`: login;
- `Prompts`: how the answers to `askYesNo` and `askChoice` are read.

## Model

| member | source | states |
|---|---|---|
| Common.Filter | skysweep.js:329 | `filter` keeps exactly the elements its test accepts. It adds nothing and loses nothing the test accepts. |
| Common.FilterConcat | skysweep.js:329 | Filtering a concatenation is the concatenation of the filtered parts, in the same order. |
| Common.FilterSnoc | skysweep.js:329 | Filtering nothing gives nothing. Each further element is appended if accepted, so order and repeats are kept. |
| Text.SplitJoin | skysweep.js:351 | Splitting on a character and joining back gives the text again, and no piece contains the separator. |
| Text.SplitOfJoin | skysweep.js:351 | Joining separator-free pieces and splitting again gives the same pieces. |
| Text.LastSegment | skysweep.js:370 | `split("/").pop()` never contains `/`. |
| Text.TrimEmptyIff | skysweep.js:219-220 | `trim()` is empty exactly when every character is ECMAScript white space. |
| Text.TrimIsSlice | utils/auth.js:7 | `trim()` is a contiguous slice of its input with white space removed at both ends only. |
| Text.NatToString | skysweep.js:383 | `String(n)` of a whole number is a non-empty string of decimal digits. |
| Profiles.Divisor | utils/botCheck.js:6 | `Math.max(1, follows)` is at least 1, and it equals `follows` when `follows` is at least 1. |
| Profiles.Ratio | utils/botCheck.js:6 | The ratio is non-negative, and multiplied by the divisor it gives the follower count. |
| Profiles.RatioBelowIff | utils/botCheck.js:6-15 | A threshold `num/den` on the ratio is the integer test `followers*den < num*max(1, follows)`. |
| Profiles.RoundedThousandths | skysweep.js:530 | The rounding behind `toFixed(3)` gives the nearest thousandth, with halves rounded up. |
| Profiles.FixedRatio | skysweep.js:530 | `toFixed(3)` of the ratio is digits, a point and exactly three digits. |
| BotCheck.CheckIfLikelyBot | utils/botCheck.js:2-27 | The result is `null` exactly when no rule fires. Otherwise the first rule that fires, in source order, gives the reason. Each reason ends in the ratio. |
| BotCheck.EmptySpamIff | utils/botCheck.js:10 | The empty-spam rule in integers: follows > 100, followers < 25, posts < 5, and 20·followers < follows. |
| BotCheck.MassFollowIff | utils/botCheck.js:15 | The mass-follow rule in integers: follows > 5000 and 10·followers < follows. |
| BotCheck.BalancedProfileNotBot | utils/botCheck.js:10-26 | With at least 3 followers and a ratio of at least 0.1, no profile is reported, whatever its name. |
| BotCheck.SmallFollowingOnlyBait | utils/botCheck.js:10-24 | Following at most 100 accounts, a report needs fewer than 3 followers and no posts. |
| BotCheck.BioIgnored | utils/botCheck.js:7 | The bio never changes the result. |
| MarketerCheck.CheckIfLikelyMarketer | utils/marketerCheck.js:3-35 | A report happens exactly when there are at least 20 posts, the follow counts are skewed, and there is a link hub or promo keyword. `link-hub` wins in the reason. |
| MarketerCheck.HighFollowSkewIff | utils/marketerCheck.js:24-26 | The two-part skew test is equivalent to follows ≥ 5000 and 2·followers < follows. |
| MarketerCheck.BalancedProfileNotMarketer | utils/marketerCheck.js:24-34 | Following fewer than 5000, or having at least half as many followers as follows, is never reported. |
| Verdict.MarketerCardFor | skysweep.js:506-509 | Without either marketer flag, the marketer result can never reach its threshold. With one, it is the classifier's result. |
| Verdict.ResolveCategories | skysweep.js:511-528 | Marketer-only runs never say `bot`. Otherwise `bot` is chosen exactly at score ≥ 35, and `marketer` exactly when it is included, is not a bot and scores ≥ 30. |
| Verdict.ResolveMonotone | skysweep.js:511-528 | Raising either score never removes a match. |
| Verdict.JoinedReasonEmpty | skysweep.js:515-538 | The joined reason is falsy exactly for no reasons, or for one empty reason. |
| Verdict.MatchReason | skysweep.js:511-528 | A match carries the chosen classifier's reasons, joined by `, ` in order. |
| Csv.DoubleQuotes | skysweep.js:184 | Doubling quotes never shortens the text. |
| Csv.CsvEscape | skysweep.js:182-185 | Text with a quote, comma or newline comes back wrapped in quotes. Other text is unchanged. |
| Csv.EscapeChangesIffNeeded | skysweep.js:182-185 | `csvEscape` changes its input exactly when the input needs quoting. |
| Csv.FieldRoundTrip | skysweep.js:182-185 | Every escaped cell reads back as itself, before a comma, a newline or the end. |
| Csv.QuotedFieldRoundTrip | skysweep.js:184 | A quoted, quote-doubled cell reads back as the original text. |
| Csv.BareFieldRoundTrip | skysweep.js:184 | A cell needing no quotes reads back unchanged. |
| Csv.RecordRoundTrip | skysweep.js:200-211 | A line of escaped cells joined by commas reads back as exactly those cells. |
| Csv.RecordsRoundTrip | skysweep.js:213 | Lines joined by newlines read back as every record, in order. |
| Csv.Cells8 | skysweep.js:201-210 | A row gives as many cells as the header has columns. |
| Csv.Cells7 | index.js:133-141 | A row gives as many cells as the seven-column header has. |
| Csv.ToCsv | skysweep.js:187-214 | The loop builds the header line and then one line per row, joined by newlines. |
| Csv.ToCsvIndex | index.js:120-145 | The same, for the seven-column table. |
| Csv.DigitsNeedNoQuoting | skysweep.js:204-206 | Number cells, written unescaped, never need quoting. |
| Csv.LineIsEncoded8 | skysweep.js:200-211 | Each line is the CSV encoding of the row's eight cells. |
| Csv.LineIsEncoded7 | index.js:132-142 | Each line is the CSV encoding of the row's seven cells. |
| Csv.HeaderIsEncoded | skysweep.js:188-198 | The header words need no quoting, so the header line is their encoding. |
| Csv.CsvRoundTrip8 | skysweep.js:187-214 | Reading the table back gives the header and then every row's cells in order. |
| Csv.CsvRoundTrip7 | index.js:120-145 | The same, for the seven-column table. |
| Csv.SafeFilename | skysweep.js:176-180 | The name is read as UTF-16 code units. Each unit in `\w.-` is kept, every other unit becomes `_` (each surrogate half on its own), and the first 120 units remain. |
| Csv.SafeFilenameBmp | skysweep.js:176-180 | For names without characters beyond U+FFFF, each character is kept if it is in `\w.-` and becomes `_` otherwise. At most 120 characters remain. |
| Csv.SafeFilenameAstral | skysweep.js:176-180 | A character beyond U+FFFF becomes two underscores: `a\u{1F600}` gives `a__`. |
| Csv.SafeFilenameIdempotent | skysweep.js:176-180 | Cleaning a cleaned name changes nothing. |
| Args.FindIndex | utils/args.js:19-22 | `schema[key]` is found exactly for the schema's keys, and returns an entry's own spec. |
| Args.AliasIndex | utils/args.js:10 | The alias table maps only non-empty aliases, and only to schema keys. |
| Args.DefaultsOfSchema | utils/args.js:8-9 | Each key starts at its own entry's default. |
| Args.DefaultsKeys | utils/args.js:8-9 | The defaults table has exactly the schema's keys. |
| Args.AliasIndexComplete | utils/args.js:10 | Every non-empty alias is in the alias table. |
| Args.InitTables | utils/args.js:6-11 | The first loop builds exactly the defaults table and the alias table. |
| Args.StripDashes | utils/args.js:18 | One or two leading dashes are removed, and nothing else. |
| Args.ResolveKey | utils/args.js:19-20 | A token names its key when it is one; otherwise it names the key it is an alias of. |
| Args.FlagAt | utils/args.js:14-20 | Only a token starting with `-` can name a flag, and what it names is a schema key. |
| Args.ScanToken | utils/args.js:14-37 | One loop step applies exactly that token's effect. It moves past a consumed value token and no further. |
| Args.ParseArgs | utils/args.js:4-41 | The loop that skips consumed values computes the reference: every token's effect in order. The consumed positions are exactly those after a value-taking flag. |
| Args.ReplayNext | utils/args.js:13-38 | A step of the loop is one step of the reference, even when it skips a value token. |
| Args.ValueTokenInert | utils/args.js:15 | A token not starting with `-` has no effect. |
| Args.ReplayKeys | utils/args.js:24-36 | No token adds a key (tokens naming `Object.prototype` properties are left out). |
| Args.ParsedKeys | utils/args.js:4-41 | The result has exactly the schema's keys (tokens naming `Object.prototype` properties are left out). |
| Args.ReplayUntouched | utils/args.js:13-38 | A key that no token writes keeps its value. |
| Args.ReplayLast | utils/args.js:13-38 | The last token writing a key decides its value. |
| Args.DefaultWhenNotGiven | utils/args.js:8-29 | A flag that no token names keeps its default. |
| Args.EffectOfFlag | utils/args.js:19-36 | A token writes only under the key it names. |
| Args.LastOccurrenceWins | utils/args.js:13-38 | A repeated flag ends with its last effective occurrence. |
| Args.FlagSpellings | utils/args.js:18-19 | `--key` and `-key` both name `key`. |
| Args.AliasSpelling | utils/args.js:19 | `-alias` names the aliased key. |
| Args.DoubleDashName | utils/args.js:18 | `--name` names `name`. |
| Args.SingleDashName | utils/args.js:18 | `-name` names `name`. |
| Args.BoolFlagSet | utils/args.js:23-26 | Every effect on a bool key is `true`, so nothing can set it back. |
| Args.BoolFlagGiven | utils/args.js:23-26 | A named bool flag ends `true`. |
| Args.BoolFlagConsumesNothing | utils/args.js:23-26 | A bool flag never consumes the next token. |
| Args.StringFlagTakesNext | utils/args.js:28-36 | A string flag followed by a usable token, and not repeated, ends with that token as its value. |
| Args.NumberFlagValues | utils/args.js:32-34 | A number flag holds its default or a finite number parsed from a token. |
| Args.MissingValueKeeps | utils/args.js:28-29 | With no usable next token, a value flag changes nothing and consumes nothing. |
| Args.ReplayKinds | utils/args.js:23-37 | Each effect keeps a value of its flag's declared kind. |
| Args.ParsedKinds | utils/args.js:4-41 | With typed defaults, every parsed flag holds a value of its declared kind. |
| Schemas.SkysweepSchemaWellFormed | skysweep.js:14-131 | The schema has distinct keys, and every default has its flag's type. |
| Schemas.IndexSchemaWellFormed | index.js:13-80 | The same, for the index.js schema. |
| Schemas.SkysweepScanEntries | skysweep.js:21-50 | Gives the `simulate`, `delay`, `profile-delay` and `max-blocks` entries as declared. |
| Schemas.SkysweepOutputEntries | skysweep.js:51-74 | Gives the `pages`, `export` and `out` entries as declared. |
| Schemas.SkysweepActionEntries | skysweep.js:93-131 | Gives the `download-media`, `nuke`, `configure` and `help` entries as declared. |
| Schemas.SkysweepDefaultsTyped | skysweep.js:14-131 | Every default has its flag's type. |
| Schemas.IndexDefaultsTyped | index.js:13-80 | Every default has its flag's type. |
| Schemas.SkysweepKeysDistinct | skysweep.js:14-131 | No key is declared twice. |
| Schemas.IndexKeysDistinct | index.js:13-80 | No key is declared twice. |
| Flags.SkysweepDefault | skysweep.js:133 | A skysweep.js flag that no token names holds its declared default. |
| Flags.SkysweepKind | skysweep.js:133 | Every skysweep.js flag holds a value of its declared type. |
| Flags.QuietFlags | skysweep.js:93-131 | Unless they are named, `help` and `configure` are false and `download-media` and `nuke` are empty. |
| Flags.ScanFlagsTyped | skysweep.js:33-74 | The number and string flags read by the scan always hold a number or a string. |
| Flags.NumberFlagsTyped | skysweep.js:33-50 | `delay`, `profile-delay` and `max-blocks` always hold numbers. |
| Flags.TextFlagsTyped | skysweep.js:51-74 | `pages` holds a number, and `export` and `out` hold strings. |
| Flags.AutoBlockIsBoolFlag | skysweep.js:27-32 | `auto-block` is a bool flag. |
| Flags.IndexKind | index.js:82 | Every index.js flag holds a value of its declared type. |
| Settings.FlagSetting | skysweep.js:453-455 | `c[k] ?? def` as a condition: the default for null or undefined, otherwise the value's truthiness. |
| Settings.NumberSetting | skysweep.js:456-459 | `c[k] ?? def` for numbers. A non-number value is reported. |
| Settings.TextSetting | skysweep.js:460-461 | `c[k] ?? def` for strings. A non-string value is reported. |
| Settings.Merge | skysweep.js:809 | `{...config, ...flags}` has both key sets, and a flag wins over a saved value. |
| Settings.FlagsHideSavedSettings | skysweep.js:805-809 | After the merge, every setting named like a flag is the parsed flag, given or defaulted. |
| Settings.DispatchFollowsFlags | skysweep.js:813-829 | The saved configuration never chooses the action; the command line alone does. |
| Settings.AutoBlockRunsScan | skysweep.js:813-827 | `--auto-block` without help, configure, download or nuke runs the follower scan. |
| Settings.ScanChosen | skysweep.js:813-827 | With `auto-block` set and no other action flag, the dispatcher picks the scan. |
| Settings.NoSchemaKeyIsRenamed | skysweep.js:453-463 | None of the camelCase names the scan reads is a flag key. |
| Settings.KebabFlagsIgnored | skysweep.js:453-463 | As written, every camelCase setting after the merge is the saved value, whatever the command line says. |
| Settings.AutoBlockFlagNeverBlocks | skysweep.js:453-463 | As written, `--auto-block` makes no block call unless `config.json` saved `autoBlock`. |
| Settings.NeverBlocksCore | skysweep.js:551-562 | Settings without `autoBlock` give a scan with no block call. |
| Settings.MergeFixedReadsFlags | skysweep.js:809 | With the corrected merge, a renamed setting reads its flag and every other setting is unchanged. |
| Settings.FixedScanSettingsRead | skysweep.js:453-463 | With the corrected merge, the scan settings are always of the right types. |
| Settings.MergeFixedTyped | skysweep.js:453-463 | Typed number and string flags make the corrected scan settings readable. |
| Settings.AutoBlockHonoured | skysweep.js:454 | With the corrected merge, `--auto-block` anywhere turns auto-blocking on. |
| Settings.AutoBlockReadsFlag | skysweep.js:454 | The corrected `autoBlock` setting is true when the flag is. |
| Settings.AutoBlockFlagBlocksFixed | skysweep.js:551-559 | With the corrected merge, `--auto-block` without `--simulate` blocks every flagged profile, up to `maxBlocks`. |
| Settings.BlocksFixedCore | skysweep.js:551-559 | Auto-blocking, non-simulating settings block every flagged profile below the cap. |
| Settings.IndexFlagsAlwaysRead | index.js:240-249 | The flag-driven settings of index.js are always readable. Auto-block and simulate are exactly the two bool flags. |
| Settings.IndexAutoBlockHonoured | index.js:241 | In index.js, `--auto-block` anywhere turns auto-blocking on. |
| Throttle.Backoffs | skysweep.js:274 | The pause before retry `k+1` is `1000·k` ms. |
| Throttle.SafeBlock | skysweep.js:246-291 | The retry loop computes exactly the recursive `safeBlock`. |
| Throttle.RetryKeepsSplit | skysweep.js:273-287 | A transient failure below the third attempt records its backoff and moves to the next attempt. |
| Throttle.SafeBlockShapeFrom | skysweep.js:246-291 | From any attempt, every call but the last failed transiently. The result is true exactly when the last call succeeded. A failure stops at attempt 3 or on a permanent error. The sleeps are the backoffs, then one `blockDelay` on success. |
| Throttle.ShapeAfterRetry | skysweep.js:273-287 | A transient failure followed by a well-shaped run is a well-shaped run. |
| Throttle.SafeBlockShape | skysweep.js:246-291 | There are at most three calls, with backoffs of 1000 and 2000 ms, and success only on a succeeding call. |
| Throttle.PermanentFailureNoRetry | skysweep.js:269-289 | A first failure that is not transient returns false after one call, with no sleep. |
| Throttle.Pauses | skysweep.js:274 | The backoffs are `1000·k` ms, in increasing `k`. |
| Paginate.FetchFollowers | skysweep.js:466-485 | The loop returns the walk's followers, or nothing when a request fails. The first cursor is absent, and each later one is the previous page's cursor. |
| Paginate.FollowerWalkBounds | skysweep.js:473-485 | A capped walk never sends request number `pages` or beyond. A walk that did not fail holds exactly its pages' items. |
| Paginate.FollowerWalkStops | skysweep.js:473-485 | A walk stops only at a failure, at a missing cursor, or (when capped) at the page budget. |
| Paginate.FollowerWalkAtMostPages | index.js:382-397 | With a whole `pages = n`, at most `n` requests are sent. |
| Paginate.WalkRecords | skysweep.js:600-616 | The loop computes the record walk: it stops on an empty page or a missing cursor, and aborts on a failure. |
| Paginate.FetchAllRecords | skysweep.js:597-618 | Returns every record of the walk, or none once any request fails. |
| Paginate.FetchAuthorFeed | skysweep.js:305-324 | Returns the feed's posts, or nothing when a request fails. |
| Paginate.RecordWalkShape | skysweep.js:600-616 | Every page but the last had items and a cursor, and the last was empty or had no cursor. |
| Scan.RunScan | skysweep.js:499-568 | The loop computes the specified scan over every follower. |
| Scan.RowsComeFromFlagged | skysweep.js:538-549 | Every export row is the row of a flagged follower, in follower order. |
| Scan.ScanCounts | skysweep.js:496-568 | `scanned` counts the profiles fetched, and rows match suspects one for one. The rows do not depend on the mode. |
| Scan.StepBlocks | skysweep.js:538-563 | One step adds a suspect exactly for a flagged profile. It makes a block call exactly when not simulating, auto-blocking, flagged and below the cap, and counts the call when it returned true. |
| Scan.ScanBlockCount | skysweep.js:551-562 | `blockCount` is the number of block calls that returned true. Simulating or reviewing runs make no block call. |
| Scan.ScanLogRespectsCap | skysweep.js:554-559 | The block log respects the cap below every position. |
| Scan.CallsRespectCapMeans | skysweep.js:554-559 | Each block call is for a flagged follower, in follower order, made while fewer than `maxBlocks` blocks had succeeded, and is a full `safeBlock` run. |
| Scan.ScanBlockCalls | skysweep.js:554-559 | Every block call of the scan meets the conditions above. |
| Scan.BlocksWithinCap | skysweep.js:554-556 | With a whole cap `m`, at most `m` accounts are blocked. |
| Scan.NoCallAfterCap | skysweep.js:554-559 | Once `maxBlocks` blocks have succeeded, no further block call is made. |
| Scan.EveryFlaggedBlockedBelowCap | skysweep.js:553-556 | In a non-simulating auto-block run with at most `maxBlocks` suspects, every suspect gets a block call. |
| Media.TagFilterListed | skysweep.js:350-356 | A comma-joined tag list selects the posts carrying one of those tags. |
| Media.SelectedIff | skysweep.js:329-358 | A post is selected exactly when it is not a repost and passes the tag filter. |
| Media.AppendPhotos | skysweep.js:375-386 | The inner loop queues one task per image, in order. |
| Media.BuildQueue | skysweep.js:365-401 | The loop builds the specified queue: per post, its photos and then its video. |
| Media.NatToStringInjective | skysweep.js:383 | Different numbers give different digit strings. |
| Media.PhotoNamesDiffer | skysweep.js:383 | Photos at different positions get different file names. |
| Media.DistinctNamesPerPost | skysweep.js:373-400 | No two downloads of one post share a file name. |
| Media.PhotoNamesDistinct | skysweep.js:375-386 | A post's photo names are pairwise distinct. |
| Media.PhotoNamesNotVideo | skysweep.js:383-396 | No photo name is the video name. |
| Media.ProgressShape | skysweep.js:441 | Progress rises by 10 each window, and the last value is the queue length. |
| Media.ProcessQueue | skysweep.js:411-442 | Every task is tried once, in order. Success plus failure is the queue length, and success counts the fetches that succeeded. |
| Media.RunWindow | skysweep.js:415-440 | A window adds its downloads to the counts. |
| Media.DownloadAllMedia | skysweep.js:297-448 | A failed feed request means no download. Otherwise the selected posts' queue is processed fully and counted. |
| Nuke.ParseNukeType | skysweep.js:624-635 | A nuke type is accepted exactly when it is one of the four own keys of `typeMap` (names of `Object.prototype` properties are left out). |
| Nuke.DeleteAll | skysweep.js:714-731 | Each selected record is deleted once, in order, by its record key. The count is the number of successes. |
| Nuke.RunNuke | skysweep.js:620-734 | The method computes the specified nuke. |
| Nuke.NukeGate | skysweep.js:621-648 | Nothing is deleted without a known type and an exactly matching confirmation. |
| Nuke.DeletedCount | skysweep.js:714-731 | The deleted count is the number of successful calls, and never more than the number selected. |
| Nuke.CountOkDeletions | skysweep.js:724 | The log's successes equal the count. |
| Nuke.SelectionByType | skysweep.js:657-705 | Media posts need images and text posts none. Posts must pass the tag filter. Likes are all selected. |
| Nuke.FailedListingDeletesNothing | skysweep.js:612-615 | A failed listing gives nothing to delete. |
| Auth.CompleteHandleShape | utils/auth.js:10-13 | A handle without a dot gets `.bsky.social`. The result keeps the typed prefix, and a non-empty result has a dot. |
| Auth.CompleteHandleIdempotent | utils/auth.js:10-13 | Completing a completed handle changes nothing. |
| Auth.FirstSuccess | utils/auth.js:47-62 | A success is reported only below the limit, for an attempt that logs in. |
| Auth.Attempts | utils/auth.js:47-48 | There are between 1 and 3 attempts, and fewer than 3 only after a success. |
| Auth.AuthCalls | utils/auth.js:51-56 | There is at most one `authenticate` call per attempt. |
| Auth.AuthCallsComplete | utils/auth.js:51-56 | `authenticate` never gets an empty handle or password. |
| Auth.GetCredentials | utils/auth.js:6-26 | Saved values win. A typed handle is trimmed, and the handle is completed. |
| Auth.Login | utils/auth.js:42-68 | Returns the first successful attempt, the number of attempts and the calls made. It stores the handle only on success. |
| Auth.FirstSuccessIsFirst | utils/auth.js:47-62 | The loop stops exactly at the first attempt that logs in. |
| Auth.EmptyCredentialsSkip | utils/auth.js:51-54 | An empty credential never logs in and makes no call, but it counts as an attempt. |
| Auth.AllEmptyGivesUp | utils/auth.js:47-66 | If every attempt is empty, `login` gives up after 3 attempts with no call. |
| Auth.LoginStoresFullHandle | utils/auth.js:56-58 | The last call is the successful one, and its handle contains a dot. |
| Auth.SavedCredentialsReused | utils/auth.js:7-23 | With both values saved, no prompt is used. |
| Prompts.AskYesNoDefaultOnlyWhenBlank | index.js:167-172 | The default matters exactly for blank answers. |
| Prompts.AskYesNoNormalised | index.js:167-172 | Surrounding white space and letter case never change the answer. Only `y`/`yes` mean yes. |
| Prompts.Clamp | index.js:183-184 | The clamp lies within `1 .. choices.length`. |
| Prompts.AskChoiceWholeAnswers | index.js:178-186 | A whole, falsy or infinite answer always picks a choice: the default, the numbered one, or the nearest end. |
| Prompts.AskChoiceFractionalAnswer | index.js:183-185 | As written, `2.5` of three choices gives `undefined`. |
| Prompts.AskChoiceFixedPicks | index.js:178-186 | The corrected version always picks a choice, and it agrees with the original on whole answers. |
| FollowerScan.SkysweepFlagIff | skysweep.js:505-528 | A verdict exists exactly when the resolver matched, and it carries that category. The profile is flagged exactly when the reason is non-empty. |
| FollowerScan.IndexFlagIff | index.js:415-432 | A profile is flagged exactly when the bot classifier returns a string. There is no category. |
| FollowerScan.RatioNeedsNoQuoting | skysweep.js:530 | The ratio cell never needs quoting. |
| FollowerScan.FlaggedRowsSafe | skysweep.js:538-549 | Every exported ratio needs no quoting. |
| FollowerScan.ExportSkysweep | skysweep.js:571-581 | Computes the specified export step. |
| FollowerScan.ExportIndex | index.js:491-516 | Computes the specified export step, including the unsupported-format message. |
| FollowerScan.ExportPlanShape | skysweep.js:571-573 | A file is written exactly for `json`/`csv` with at least one row. The name is at most 120 safe characters. |
| FollowerScan.RunFollowerScan | skysweep.js:451-593 | A failed page request means no scan. Otherwise every fetched follower is scanned, then the export step runs. |
| FollowerScan.SkysweepCsvReadsBack | skysweep.js:571-576 | The CSV reads back as the header and exactly the flagged rows, in follower order. |
| FollowerScan.IndexPages | index.js:246 | The page count is at least 1, and is the flag when the flag is at least 1. |
| FollowerScan.IndexMain | index.js:377-516 | The page walk is always capped, and a failure exits. The scan then runs, and the export uses the lower-cased format. |
| FollowerScan.IndexFetchesWithinPages | index.js:382 | At most `max(1, n)` follower requests are sent. |
| FollowerScan.IndexCsvReadsBack | index.js:491-499 | The seven-column CSV reads back as the header and the flagged rows. |
| FollowerScan.IndexRowReasons | index.js:432-442 | Every row's reason is the classifier's own string, with no category. |

## Left out

- The network, the BskyAgent object and `authenticate`: represented by oracles (pages, outcomes, an `accept` predicate).
- `sleep`, the clock and `nowStamp`: sleeps are logged and the stamp is a parameter.
- File I/O: `readConfig`, writing the export, `mkdirSync`, saving `config.json` and writing downloaded media. `path.join` and `path.resolve` are left out; the file name is modelled as the task's name.
- The JSON export text (`JSON.stringify`): only the decision to write JSON is modelled.
- Concurrency: `Promise.all` over a window of ten downloads is modelled as sequential, in queue order. The counts do not depend on the order.
- Unicode: `toLowerCase` is ASCII only. Regular expressions are modelled as their literal alternatives, with optional suffixes reduced to their stems.
- Console output, colours and verbose logging.
- `buildHelp` and the help text.
- `askNumber`, skysweep.js's looping `askChoice`, `runConfiguration`, the interactive menu and `askForMediaFilters`: these are interactive dialogues.
- index.js's inline login (lines 354-375) and its interactive setup when no mode flag is given (lines 251-332).
- Configuration values other than JSON-like booleans, numbers and strings.
- Settings.NumberSetting: a saved setting of the wrong JSON type (for example `"maxBlocks": "10"` or `"pages": "3"` in `config.json`) makes the scan settings `None`. The model then says nothing about that scan. The source runs it, using the value through JavaScript's coercion (`blockCount < "10"` compares as numbers, and `sleep("100")` waits).
- Settings.TextSetting: a non-string saved `export` or `out` likewise makes the scan settings `None`, where the source uses the value as it is.
- Args.ParseArgs: names of `Object.prototype` properties (`constructor`, `toString` and so on) are not modelled as keys. In `parseArgs`, `schema[token]` is truthy for such a name (utils/args.js:19), so `--constructor x` adds a key `constructor` holding `x` to the output. Args.ReplayKeys and Args.ParsedKeys hold only for tokens that name no such property.
- Nuke.ParseNukeType: names of `Object.prototype` properties are not modelled. In `runNuke`, the lookup `typeMap[nukeType]` (skysweep.js:631-632) is truthy for such a name, so `--nuke toString` passes the type gate and reaches the confirmation prompt. The model rejects it at the gate.
- The classifiers return a string or `null`. The follower scan of skysweep.js reads `.score` and `.reasons` from their results. The scan's resolver is therefore modelled over abstract score cards, and the two are not reconciled.
- Profiles.RoundedThousandths: rounds exact rationals, not IEEE doubles, so `toFixed` on values that binary floating point cannot represent exactly may differ in the last digit.
- Prompts.Clamp: models `Number(...)` results as exact reals plus NaN and infinities, not IEEE doubles.

## Findings

| source | as written | input that shows it | evidently intended | confidence | as-written member | corrected member |
|---|---|---|---|---|---|---|
| index.js:183-185 | `askChoice` clamps `Number(answer)` into range but does not round it, so `choices[idx]` with a fractional `idx` is `undefined` | the answer `2.5` with three choices | a fractional answer is treated like no number, and the default is picked | not executed | Prompts.AskChoiceFractionalAnswer | Prompts.AskChoiceFixedPicks |
| skysweep.js:453-463 | the scan reads `autoBlock`, `maxBlocks` and the other camelCase settings, but the flags are merged (line 809) under their kebab-case keys, so `--auto-block` never turns auto-blocking on | `node skysweep.js --auto-block` with no saved `autoBlock` | each kebab-case flag sets its camelCase setting, and `--auto-block` blocks flagged profiles up to `maxBlocks` | not executed | Settings.AutoBlockFlagNeverBlocks | Settings.AutoBlockFlagBlocksFixed |
