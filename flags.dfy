/**
 * What parsing the two flag schemas gives: each flag of skysweep.js and
 * index.js holds a value of its declared kind, and a flag no token names
 * keeps its default. A parsed command line, like a configuration, is a map
 * from names to JSON-like values; a missing name reads as `Undefined`.
 */
module Flags {
  import opened Common
  import opened Args
  import opened Schemas

  type Config = map<string, Value>

  /** `c[k]`, `undefined` when the name is missing. */
  function Get(c: Config, k: string): Value {
    if k in c then c[k] else Undefined
  }

  /** The parsed flags of skysweep.js. */
  function SkysweepFlags(argv: seq<string>, parse: string -> Option<real>): Config {
    ParseSpec(argv, SkysweepSchema, parse)
  }

  /** The token at `j` names the skysweep.js flag `k`. */
  predicate Names(argv: seq<string>, j: nat, k: string) {
    j < |argv| && FlagAt(argv, SkysweepSchema, AliasIndex(SkysweepSchema), j) == Some(k)
  }

  /** A flag of the schema that no token names keeps its default. */
  lemma SkysweepDefault(argv: seq<string>, parse: string -> Option<real>, i: nat, k: string)
    requires i < |SkysweepSchema| && SkysweepSchema[i].key == k
    requires forall j :: 0 <= j < |argv| ==> !Names(argv, j, k)
    ensures Get(SkysweepFlags(argv, parse), k) == SkysweepSchema[i].spec.default
  {
    forall j | 0 <= j < |argv| ensures FlagAt(argv, SkysweepSchema, AliasIndex(SkysweepSchema), j) != Some(k) {
      assert !Names(argv, j, k);
    }
    SkysweepKeysDistinct();
    DefaultWhenNotGiven(argv, SkysweepSchema, parse, i);
  }

  /** Every flag of the schema has a value of its declared kind. */
  lemma SkysweepKind(argv: seq<string>, parse: string -> Option<real>, i: nat, k: string)
    requires i < |SkysweepSchema| && SkysweepSchema[i].key == k
    ensures k in SkysweepFlags(argv, parse) && OfKind(Get(SkysweepFlags(argv, parse), k), SkysweepSchema[i].spec.kind)
  {
    SkysweepSchemaWellFormed();
    ParsedKinds(argv, SkysweepSchema, parse, i);
  }

  /** The four flags that would override the scan keep their defaults when no token names them. */
  lemma QuietFlags(argv: seq<string>, parse: string -> Option<real>)
    requires forall j' :: 0 <= j' < |argv| ==>
      !Names(argv, j', "help") && !Names(argv, j', "configure") &&
      !Names(argv, j', "download-media") && !Names(argv, j', "nuke")
    ensures var flags := SkysweepFlags(argv, parse);
      Get(flags, "help") == Bool(false) && Get(flags, "configure") == Bool(false) &&
      Get(flags, "download-media") == Str("") && Get(flags, "nuke") == Str("")
  {
    SkysweepActionEntries();
    SkysweepDefault(argv, parse, 13, "download-media");
    SkysweepDefault(argv, parse, 17, "nuke");
    SkysweepDefault(argv, parse, 18, "configure");
    SkysweepDefault(argv, parse, 19, "help");
  }

  /** The number and string flags the scan reads always hold values of their kinds. */
  lemma ScanFlagsTyped(argv: seq<string>, parse: string -> Option<real>)
    ensures var f := SkysweepFlags(argv, parse);
      Get(f, "delay").Num? && Get(f, "profile-delay").Num? && Get(f, "max-blocks").Num? &&
      Get(f, "pages").Num? && Get(f, "export").Str? && Get(f, "out").Str?
  {
    NumberFlagsTyped(argv, parse);
    TextFlagsTyped(argv, parse);
  }

  lemma NumberFlagsTyped(argv: seq<string>, parse: string -> Option<real>)
    ensures var f := SkysweepFlags(argv, parse);
      Get(f, "delay").Num? && Get(f, "profile-delay").Num? && Get(f, "max-blocks").Num?
  {
    SkysweepScanEntries();
    SkysweepKind(argv, parse, 3, "delay");
    SkysweepKind(argv, parse, 4, "profile-delay");
    SkysweepKind(argv, parse, 5, "max-blocks");
  }

  lemma TextFlagsTyped(argv: seq<string>, parse: string -> Option<real>)
    ensures var f := SkysweepFlags(argv, parse);
      Get(f, "pages").Num? && Get(f, "export").Str? && Get(f, "out").Str?
  {
    SkysweepOutputEntries();
    SkysweepKind(argv, parse, 6, "pages");
    SkysweepKind(argv, parse, 8, "export");
    SkysweepKind(argv, parse, 9, "out");
  }

  lemma AutoBlockIsBoolFlag()
    ensures Find(SkysweepSchema, "auto-block").Some? && Find(SkysweepSchema, "auto-block").value.kind == BoolFlag
  {
  }

  lemma IndexKind(argv: seq<string>, parse: string -> Option<real>, i: nat)
    requires i < |IndexSchema|
    ensures var v := Get(ParseSpec(argv, IndexSchema, parse), IndexSchema[i].key);
      IndexSchema[i].key in ParseSpec(argv, IndexSchema, parse) && OfKind(v, IndexSchema[i].spec.kind)
  {
    IndexSchemaWellFormed();
    ParsedKinds(argv, IndexSchema, parse, i);
  }
}
