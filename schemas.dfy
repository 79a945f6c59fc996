/**
 * The flag schemas of the two programs, as their entries in declaration
 * order, and the facts about them that the settings rely on: every key
 * belongs to one entry only, and every default has its flag's kind.
 */
module Schemas {
  import opened Args

  /** The flag schema of skysweep.js (lines 14-131), in declaration order. */
  const SkysweepSchema: Schema := [
    Entry("config", FlagSpec(StringFlag, "c", Str("config.json"))),
    Entry("simulate", FlagSpec(BoolFlag, "s", Bool(false))),
    Entry("auto-block", FlagSpec(BoolFlag, "b", Bool(false))),
    Entry("delay", FlagSpec(NumberFlag, "d", Num(400.0))),
    Entry("profile-delay", FlagSpec(NumberFlag, "p", Num(100.0))),
    Entry("max-blocks", FlagSpec(NumberFlag, "m", Num(25.0))),
    Entry("pages", FlagSpec(NumberFlag, "g", Num(0.0))),
    Entry("target", FlagSpec(StringFlag, "t", Str(""))),
    Entry("export", FlagSpec(StringFlag, "e", Str(""))),
    Entry("out", FlagSpec(StringFlag, "o", Str(""))),
    Entry("verbose", FlagSpec(BoolFlag, "v", Bool(false))),
    Entry("include-marketers", FlagSpec(BoolFlag, "k", Bool(false))),
    Entry("marketer-only", FlagSpec(BoolFlag, "K", Bool(false))),
    Entry("download-media", FlagSpec(StringFlag, "x", Str(""))),
    Entry("filter-tags", FlagSpec(StringFlag, "", Str(""))),
    Entry("untagged-only", FlagSpec(BoolFlag, "", Bool(false))),
    Entry("media-type", FlagSpec(StringFlag, "", Str("all"))),
    Entry("nuke", FlagSpec(StringFlag, "n", Str(""))),
    Entry("configure", FlagSpec(BoolFlag, "", Bool(false))),
    Entry("help", FlagSpec(BoolFlag, "h", Bool(false)))
  ]

  /** The flag schema of index.js (lines 13-80). */
  const IndexSchema: Schema := [
    Entry("simulate", FlagSpec(BoolFlag, "s", Bool(false))),
    Entry("auto-block", FlagSpec(BoolFlag, "b", Bool(false))),
    Entry("delay", FlagSpec(NumberFlag, "d", Num(400.0))),
    Entry("profile-delay", FlagSpec(NumberFlag, "p", Num(100.0))),
    Entry("max-blocks", FlagSpec(NumberFlag, "m", Num(25.0))),
    Entry("pages", FlagSpec(NumberFlag, "g", Num(1.0))),
    Entry("target", FlagSpec(StringFlag, "t", Str(""))),
    Entry("export", FlagSpec(StringFlag, "e", Str(""))),
    Entry("out", FlagSpec(StringFlag, "o", Str(""))),
    Entry("verbose", FlagSpec(BoolFlag, "v", Bool(false))),
    Entry("help", FlagSpec(BoolFlag, "h", Bool(false)))
  ]

  /** Both schemas are well formed: distinct keys, and defaults of the declared kinds. */
  lemma SkysweepSchemaWellFormed()
    ensures DistinctKeys(SkysweepSchema) && DefaultsTyped(SkysweepSchema)
  {
    SkysweepKeysDistinct();
    SkysweepDefaultsTyped();
  }

  lemma IndexSchemaWellFormed()
    ensures DistinctKeys(IndexSchema) && DefaultsTyped(IndexSchema)
  {
    IndexKeysDistinct();
    IndexDefaultsTyped();
  }

  /** The entries of skysweep.js the scan reads, at their positions. */
  lemma SkysweepScanEntries()
    ensures |SkysweepSchema| == 20
    ensures SkysweepSchema[1] == Entry("simulate", FlagSpec(BoolFlag, "s", Bool(false)))
    ensures SkysweepSchema[3] == Entry("delay", FlagSpec(NumberFlag, "d", Num(400.0)))
    ensures SkysweepSchema[4] == Entry("profile-delay", FlagSpec(NumberFlag, "p", Num(100.0)))
    ensures SkysweepSchema[5] == Entry("max-blocks", FlagSpec(NumberFlag, "m", Num(25.0)))
  {
  }

  /** The entries of skysweep.js that shape the scan's output, at their positions. */
  lemma SkysweepOutputEntries()
    ensures |SkysweepSchema| == 20
    ensures SkysweepSchema[6] == Entry("pages", FlagSpec(NumberFlag, "g", Num(0.0)))
    ensures SkysweepSchema[8] == Entry("export", FlagSpec(StringFlag, "e", Str("")))
    ensures SkysweepSchema[9] == Entry("out", FlagSpec(StringFlag, "o", Str("")))
  {
  }

  /** The entries of skysweep.js that choose the action, at their positions. */
  lemma SkysweepActionEntries()
    ensures |SkysweepSchema| == 20
    ensures SkysweepSchema[13] == Entry("download-media", FlagSpec(StringFlag, "x", Str("")))
    ensures SkysweepSchema[17] == Entry("nuke", FlagSpec(StringFlag, "n", Str("")))
    ensures SkysweepSchema[18] == Entry("configure", FlagSpec(BoolFlag, "", Bool(false)))
    ensures SkysweepSchema[19] == Entry("help", FlagSpec(BoolFlag, "h", Bool(false)))
  {
  }

  lemma SkysweepDefaultsTyped()
    ensures DefaultsTyped(SkysweepSchema)
  {
  }

  lemma IndexDefaultsTyped()
    ensures DefaultsTyped(IndexSchema)
  {
  }

  lemma SkysweepKeysDistinct()
    ensures DistinctKeys(SkysweepSchema)
  {
    SkysweepKeysListed();
    SkysweepKeyListDistinct();
  }

  lemma IndexKeysDistinct()
    ensures DistinctKeys(IndexSchema)
  {
    IndexKeysListed();
    IndexKeyListDistinct();
  }

  // The keys on their own: comparing plain strings is much cheaper for the
  // verifier than comparing them inside the schema entries.

  const SkysweepKeys: seq<string> := [
    "config", "simulate", "auto-block", "delay", "profile-delay", "max-blocks", "pages", "target", "export", "out",
    "verbose", "include-marketers", "marketer-only", "download-media", "filter-tags", "untagged-only", "media-type",
    "nuke", "configure", "help"
  ]

  const IndexKeys: seq<string> := [
    "simulate", "auto-block", "delay", "profile-delay", "max-blocks", "pages", "target", "export", "out", "verbose", "help"
  ]

  lemma SkysweepKeysListed()
    ensures |SkysweepKeys| == |SkysweepSchema|
    ensures forall i :: 0 <= i < |SkysweepSchema| ==> SkysweepSchema[i].key == SkysweepKeys[i]
  {
  }

  lemma IndexKeysListed()
    ensures |IndexKeys| == |IndexSchema|
    ensures forall i :: 0 <= i < |IndexSchema| ==> IndexSchema[i].key == IndexKeys[i]
  {
  }

  lemma SkysweepKeyListDistinct()
    ensures forall i, j :: 0 <= i < j < |SkysweepKeys| ==> SkysweepKeys[i] != SkysweepKeys[j]
  {
  }

  lemma IndexKeyListDistinct()
    ensures forall i, j :: 0 <= i < j < |IndexKeys| ==> IndexKeys[i] != IndexKeys[j]
  {
  }
}
