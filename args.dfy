/**
 * `parseArgs` (utils/args.js): one pass over the command-line tokens with a
 * flag schema. Every schema key starts at its default; a token beginning with
 * `-` names a flag by its key or its alias; a bool flag becomes `true`, and a
 * number or string flag takes the next token as its value when there is one
 * that does not itself begin with `-`.
 *
 * The JavaScript objects `out` and `indexByAlias` are maps. `Number(next)`
 * with its finiteness test is the parameter `parse`: `parse(t) == Some(x)`
 * when `Number(t)` is the finite number `x`, and `None` otherwise.
 *
 * The main result: skipping a consumed value token is never visible, because
 * a consumed token never begins with `-`. So the loop computes the reference
 * definition `ParseSpec`, in which every token contributes its own effect in
 * order, and the last effect on a key is the value it ends with.
 */
module Args {
  import opened Common
  import opened Text

  datatype FlagKind = BoolFlag | NumberFlag | StringFlag

  /**
   * A flag value, and more generally a JSON-like setting value: `Undefined`
   * and `Null` are the two values `??` replaces.
   */
  datatype Value = Undefined | Null | Bool(b: bool) | Num(x: real) | Str(s: string)

  /** One schema entry. The empty alias stands for a missing one (`if (cfg.alias)`). */
  datatype FlagSpec = FlagSpec(kind: FlagKind, alias: string, default: Value)

  datatype Entry = Entry(key: string, spec: FlagSpec)

  /** The schema object, as its entries in `Object.entries` order. */
  type Schema = seq<Entry>

  /** The keys of an object literal are distinct. */
  predicate DistinctKeys(schema: Schema) {
    forall i, j :: 0 <= i < j < |schema| ==> schema[i].key != schema[j].key
  }

  /** `schema[key]`: the entry named `key`, if any. */
  function Find(schema: Schema, key: string): Option<FlagSpec> {
    if |schema| == 0 then None
    else if schema[0].key == key then Some(schema[0].spec)
    else Find(schema[1..], key)
  }

  /** Adding an entry at the end changes `Find` only for a key that was missing. */
  lemma {:induction false} FindSnoc(schema: Schema, e: Entry, key: string)
    ensures Find(schema + [e], key) ==
      if Find(schema, key).Some? then Find(schema, key)
      else if e.key == key then Some(e.spec) else None
  {
    if |schema| > 0 {
      assert (schema + [e])[1..] == schema[1..] + [e];
      FindSnoc(schema[1..], e, key);
    }
  }

  /** `Find` succeeds exactly for the keys of the entries, and returns an entry's own spec. */
  lemma {:induction false} FindIndex(schema: Schema, key: string)
    ensures Find(schema, key).Some? <==> exists i :: 0 <= i < |schema| && schema[i].key == key
    ensures Find(schema, key).Some? ==> exists i :: 0 <= i < |schema| && schema[i] == Entry(key, Find(schema, key).value)
  {
    if |schema| > 0 && schema[0].key != key {
      FindIndex(schema[1..], key);
      if exists i :: 0 <= i < |schema| && schema[i].key == key {
        var i :| 0 <= i < |schema| && schema[i].key == key;
        assert schema[1..][i - 1].key == key;
      }
      if Find(schema, key).Some? {
        var i :| 0 <= i < |schema[1..]| && schema[1..][i] == Entry(key, Find(schema, key).value);
        assert schema[i + 1] == Entry(key, Find(schema, key).value);
      }
    } else if |schema| > 0 {
      assert schema[0] == Entry(key, Find(schema, key).value);
    }
  }

  /** With distinct keys, `Find` of an entry's key returns that entry's spec. */
  lemma FindEntry(schema: Schema, i: nat)
    requires DistinctKeys(schema) && i < |schema|
    ensures Find(schema, schema[i].key) == Some(schema[i].spec)
  {
    FindIndex(schema, schema[i].key);
    var i' :| 0 <= i' < |schema| && schema[i'] == Entry(schema[i].key, Find(schema, schema[i].key).value);
    assert i' == i;
  }

  // ---------------- The two tables built before the scan ----------------

  /** `out` after the first loop: each key bound to its default. */
  function Defaults(schema: Schema): map<string, Value> {
    if |schema| == 0 then map[]
    else
      var e := schema[|schema| - 1];
      Defaults(schema[..|schema| - 1])[e.key := e.spec.default]
  }

  /** `indexByAlias` after the first loop: each non-empty alias bound to its key, the last such entry winning. */
  function AliasIndex(schema: Schema): (r: map<string, string>)
    ensures forall a :: a in r ==> a != "" && Find(schema, r[a]).Some?
  {
    if |schema| == 0 then map[]
    else
      var e := schema[|schema| - 1];
      var init := schema[..|schema| - 1];
      var m := AliasIndex(init);
      assert schema == init + [e];
      assert forall k :: Find(init, k).Some? ==> Find(schema, k).Some? by {
        forall k | Find(init, k).Some? ensures Find(schema, k).Some? { FindSnoc(init, e, k); }
      }
      assert Find(schema, e.key).Some? by { FindSnoc(init, e, e.key); }
      if e.spec.alias != "" then m[e.spec.alias := e.key] else m
  }

  /**
   * The keys of the defaults table are exactly the schema keys, and each is
   * bound to its own entry's default.
   */
  lemma {:induction false} DefaultsOfSchema(schema: Schema, k: string)
    requires DistinctKeys(schema)
    ensures k in Defaults(schema) <==> Find(schema, k).Some?
    ensures k in Defaults(schema) ==> Defaults(schema)[k] == Find(schema, k).value.default
  {
    if |schema| > 0 {
      var init := schema[..|schema| - 1];
      var e := schema[|schema| - 1];
      assert schema == init + [e];
      assert DistinctKeys(init);
      DefaultsOfSchema(init, k);
      FindSnoc(init, e, k);
      if e.key == k {
        FindIndex(init, k);
        assert forall i :: 0 <= i < |init| ==> init[i].key != k;
      }
    }
  }

  /** The defaults table has exactly the schema's keys. */
  lemma {:induction false} DefaultsKeys(schema: Schema, k: string)
    ensures k in Defaults(schema) <==> Find(schema, k).Some?
  {
    if |schema| > 0 {
      var init := schema[..|schema| - 1];
      var e := schema[|schema| - 1];
      assert schema == init + [e];
      DefaultsKeys(init, k);
      FindSnoc(init, e, k);
    }
  }

  /** Every non-empty alias of the schema is in the alias table. */
  lemma {:induction false} AliasIndexComplete(schema: Schema, i: nat)
    requires i < |schema| && schema[i].spec.alias != ""
    ensures schema[i].spec.alias in AliasIndex(schema)
  {
    var init := schema[..|schema| - 1];
    if i < |schema| - 1 {
      assert init[i] == schema[i];
      AliasIndexComplete(init, i);
    }
  }

  /** The first loop of `parseArgs`. */
  method InitTables(schema: Schema) returns (out: map<string, Value>, indexByAlias: map<string, string>)
    ensures out == Defaults(schema)
    ensures indexByAlias == AliasIndex(schema)
  {
    out, indexByAlias := map[], map[];
    for i := 0 to |schema|
      invariant out == Defaults(schema[..i])
      invariant indexByAlias == AliasIndex(schema[..i])
    {
      var e := schema[i];
      assert schema[..i + 1][..i] == schema[..i];
      out := out[e.key := e.spec.default];
      if e.spec.alias != "" {
        indexByAlias := indexByAlias[e.spec.alias := e.key];
      }
    }
    assert schema[..|schema|] == schema;
  }

  // ---------------- One token ----------------

  /** `token.replace(/^--?/, "")`. */
  function StripDashes(token: string): (name: string)
    ensures StartsWith(token, "--") ==> token == "--" + name
    ensures !StartsWith(token, "--") && StartsWith(token, "-") ==> token == "-" + name
    ensures !StartsWith(token, "-") ==> name == token
  {
    if StartsWith(token, "--") then token[2..]
    else if StartsWith(token, "-") then token[1..]
    else token
  }

  /** Alias tables built from a schema point at its keys. */
  predicate AliasesValid(schema: Schema, aliases: map<string, string>) {
    forall a :: a in aliases ==> Find(schema, aliases[a]).Some?
  }

  /** `schema[token] ? token : indexByAlias[token]`. */
  function ResolveKey(schema: Schema, aliases: map<string, string>, name: string): (key: Option<string>)
    requires AliasesValid(schema, aliases)
    ensures key.Some? ==> Find(schema, key.value).Some?
    ensures Find(schema, name).Some? ==> key == Some(name)
    ensures Find(schema, name).None? && name in aliases ==> key == Some(aliases[name])
    ensures Find(schema, name).None? && name !in aliases ==> key.None?
  {
    if Find(schema, name).Some? then Some(name)
    else if name in aliases then Some(aliases[name])
    else None
  }

  /** The key the token at `j` names as a flag, if it is a flag token at all (lines 15-20). */
  function FlagAt(argv: seq<string>, schema: Schema, aliases: map<string, string>, j: nat): (key: Option<string>)
    requires j < |argv| && AliasesValid(schema, aliases)
    ensures key.Some? ==> key.value != "" && Find(schema, key.value).Some? && StartsWith(argv[j], "-")
  {
    if !StartsWith(argv[j], "-") then None
    else
      var key := ResolveKey(schema, aliases, StripDashes(argv[j]));
      if key.Some? && key.value != "" then key else None
  }

  /** `next` exists, is not empty and does not begin with `-` (line 29). */
  predicate NextUsable(argv: seq<string>, j: nat) {
    j + 1 < |argv| && argv[j + 1] != "" && !StartsWith(argv[j + 1], "-")
  }

  /** The token at `j` is a number or string flag that takes the next token as its value. */
  predicate Consumes(argv: seq<string>, schema: Schema, aliases: map<string, string>, j: nat)
    requires j < |argv| && AliasesValid(schema, aliases)
  {
    var key := FlagAt(argv, schema, aliases, j);
    key.Some? && Find(schema, key.value).value.kind != BoolFlag && NextUsable(argv, j)
  }

  /** What the token at `j` writes into `out`, if anything. */
  function EffectAt(argv: seq<string>, schema: Schema, aliases: map<string, string>,
                    parse: string -> Option<real>, j: nat): Option<(string, Value)>
    requires j < |argv| && AliasesValid(schema, aliases)
  {
    match FlagAt(argv, schema, aliases, j)
    case None => None
    case Some(key) =>
      var spec := Find(schema, key).value;
      if spec.kind == BoolFlag then Some((key, Bool(true)))
      else if !NextUsable(argv, j) then None
      else if spec.kind == NumberFlag then
        (match parse(argv[j + 1])
         case Some(x) => Some((key, Num(x)))
         case None => None)
      else Some((key, Str(argv[j + 1])))
  }

  /** `base` after the effects of the tokens before position `n`, in order. */
  function Replay(base: map<string, Value>, argv: seq<string>, schema: Schema, aliases: map<string, string>,
                  parse: string -> Option<real>, n: nat): map<string, Value>
    requires n <= |argv| && AliasesValid(schema, aliases)
  {
    if n == 0 then base
    else
      Apply(Replay(base, argv, schema, aliases, parse, n - 1), argv, schema, aliases, parse, n - 1)
  }

  /** The reference result: the defaults after every token's effect. */
  function ParseSpec(argv: seq<string>, schema: Schema, parse: string -> Option<real>): map<string, Value> {
    Replay(Defaults(schema), argv, schema, AliasIndex(schema), parse, |argv|)
  }

  // ---------------- The scan ----------------

  /** `out` after the token at `j` has had its effect. */
  function Apply(out: map<string, Value>, argv: seq<string>, schema: Schema, aliases: map<string, string>,
                 parse: string -> Option<real>, j: nat): map<string, Value>
    requires j < |argv| && AliasesValid(schema, aliases)
  {
    match EffectAt(argv, schema, aliases, parse, j)
    case None => out
    case Some(e) => out[e.0 := e.1]
  }

  /**
   * The body of the scan loop for the token at `i` (lines 14-37): it returns
   * the updated `out` and the index the loop moves on to, one past the value
   * token when one was consumed.
   */
  method ScanToken(argv: seq<string>, schema: Schema, aliases: map<string, string>,
                   parse: string -> Option<real>, i: nat, out: map<string, Value>)
    returns (out': map<string, Value>, next: nat)
    requires i < |argv| && AliasesValid(schema, aliases)
    ensures out' == Apply(out, argv, schema, aliases, parse, i)
    ensures next == if Consumes(argv, schema, aliases, i) then i + 2 else i + 1
  {
    out', next := out, i + 1;
    var token := argv[i];
    if !StartsWith(token, "-") {
      return;
    }
    token := StripDashes(token);
    var key := ResolveKey(schema, aliases, token);
    if key.None? || key.value == "" {
      return;
    }
    var cfg := Find(schema, key.value).value;
    if cfg.kind == BoolFlag {
      out' := out[key.value := Bool(true)];
      return;
    }
    if i + 1 >= |argv| || argv[i + 1] == "" || StartsWith(argv[i + 1], "-") {
      return;
    }
    var value := argv[i + 1];
    next := i + 2;
    if cfg.kind == NumberFlag {
      var n := parse(value);
      if n.Some? {
        out' := out[key.value := Num(n.value)];
      }
    } else {
      out' := out[key.value := Str(value)];
    }
  }

  /**
   * `parseArgs`. Besides `out` it reports `values`, the positions of the
   * tokens the loop consumed as flag values (its extra `i++`).
   */
  method ParseArgs(argv: seq<string>, schema: Schema, parse: string -> Option<real>)
    returns (out: map<string, Value>, values: seq<nat>)
    ensures out == ParseSpec(argv, schema, parse)
    ensures forall p :: p in values <==> 0 < p < |argv| && Consumes(argv, schema, AliasIndex(schema), p - 1)
  {
    var aliases;
    out, aliases := InitTables(schema);
    values := [];
    var i := 0;
    while i < |argv|
      invariant i <= |argv|
      invariant out == Replay(Defaults(schema), argv, schema, aliases, parse, i)
      invariant ValuesLogged(values, argv, schema, aliases, i)
      decreases |argv| - i
    {
      var next;
      out, next := ScanToken(argv, schema, aliases, parse, i, out);
      ReplayNext(argv, schema, aliases, parse, i);
      if next == i + 2 {
        ValueTokenInert(argv, schema, aliases, parse, i + 1);
        LogValue(values, argv, schema, aliases, i);
        values := values + [i + 1];
      } else {
        LogNothing(values, argv, schema, aliases, i);
      }
      i := next;
    }
  }

  /**
   * The loop's bookkeeping at index `i`: `values` holds exactly the consumed
   * positions before `i`, and the token before `i` did not consume the one at `i`.
   */
  ghost predicate ValuesLogged(values: seq<nat>, argv: seq<string>, schema: Schema, aliases: map<string, string>, i: nat)
    requires i <= |argv| && AliasesValid(schema, aliases)
  {
    (forall p :: p in values <==> 0 < p < i && Consumes(argv, schema, aliases, p - 1)) &&
    (0 < i ==> !Consumes(argv, schema, aliases, i - 1))
  }

  lemma LogValue(values: seq<nat>, argv: seq<string>, schema: Schema, aliases: map<string, string>, i: nat)
    requires i + 1 < |argv| && AliasesValid(schema, aliases)
    requires ValuesLogged(values, argv, schema, aliases, i)
    requires Consumes(argv, schema, aliases, i) && !Consumes(argv, schema, aliases, i + 1)
    ensures ValuesLogged(values + [i + 1], argv, schema, aliases, i + 2)
  {
  }

  lemma LogNothing(values: seq<nat>, argv: seq<string>, schema: Schema, aliases: map<string, string>, i: nat)
    requires i < |argv| && AliasesValid(schema, aliases)
    requires ValuesLogged(values, argv, schema, aliases, i)
    requires !Consumes(argv, schema, aliases, i)
    ensures ValuesLogged(values, argv, schema, aliases, i + 1)
  {
  }

  /** Replaying up to the index the scan moves on to applies exactly the token at `i`. */
  lemma ReplayNext(argv: seq<string>, schema: Schema, aliases: map<string, string>,
                   parse: string -> Option<real>, i: nat)
    requires i < |argv| && AliasesValid(schema, aliases)
    ensures var next := if Consumes(argv, schema, aliases, i) then i + 2 else i + 1;
      next <= |argv| &&
      Replay(Defaults(schema), argv, schema, aliases, parse, next) ==
      Apply(Replay(Defaults(schema), argv, schema, aliases, parse, i), argv, schema, aliases, parse, i)
  {
    if Consumes(argv, schema, aliases, i) {
      ValueTokenInert(argv, schema, aliases, parse, i + 1);
    }
  }

  /** A token that does not begin with `-` has no effect and consumes nothing. */
  lemma ValueTokenInert(argv: seq<string>, schema: Schema, aliases: map<string, string>,
                        parse: string -> Option<real>, j: nat)
    requires 0 < j < |argv| && AliasesValid(schema, aliases) && !StartsWith(argv[j], "-")
    ensures EffectAt(argv, schema, aliases, parse, j).None?
    ensures !Consumes(argv, schema, aliases, j)
    ensures Replay(Defaults(schema), argv, schema, aliases, parse, j + 1) ==
            Replay(Defaults(schema), argv, schema, aliases, parse, j)
  {
  }

  // ---------------- Properties ----------------

  /** No token adds a key the base lacks, so the result has exactly the schema's keys. */
  lemma {:induction false} ReplayKeys(base: map<string, Value>, argv: seq<string>, schema: Schema,
                                      aliases: map<string, string>, parse: string -> Option<real>, n: nat)
    requires n <= |argv| && AliasesValid(schema, aliases)
    requires forall k :: Find(schema, k).Some? ==> k in base
    ensures Replay(base, argv, schema, aliases, parse, n).Keys == base.Keys
  {
    if n > 0 {
      ReplayKeys(base, argv, schema, aliases, parse, n - 1);
    }
  }

  /** Every schema key is in the output and no other key is. */
  lemma ParsedKeys(argv: seq<string>, schema: Schema, parse: string -> Option<real>, k: string)
    ensures k in ParseSpec(argv, schema, parse) <==> exists i :: 0 <= i < |schema| && schema[i].key == k
  {
    forall k' | Find(schema, k').Some? ensures k' in Defaults(schema) {
      DefaultsKeys(schema, k');
    }
    ReplayKeys(Defaults(schema), argv, schema, AliasIndex(schema), parse, |argv|);
    DefaultsKeys(schema, k);
    FindIndex(schema, k);
  }

  /** A key no token writes keeps its base value. */
  lemma {:induction false} ReplayUntouched(base: map<string, Value>, argv: seq<string>, schema: Schema,
                                           aliases: map<string, string>, parse: string -> Option<real>, n: nat, k: string)
    requires n <= |argv| && AliasesValid(schema, aliases)
    requires k in base
    requires forall j :: 0 <= j < n ==> EffectAt(argv, schema, aliases, parse, j).None? ||
                                        EffectAt(argv, schema, aliases, parse, j).value.0 != k
    ensures var m := Replay(base, argv, schema, aliases, parse, n); k in m && m[k] == base[k]
  {
    if n > 0 {
      ReplayUntouched(base, argv, schema, aliases, parse, n - 1, k);
    }
  }

  /** The last token that writes a key decides its value. */
  lemma {:induction false} ReplayLast(base: map<string, Value>, argv: seq<string>, schema: Schema,
                                      aliases: map<string, string>, parse: string -> Option<real>,
                                      n: nat, j: nat, k: string, v: Value)
    requires j < n <= |argv| && AliasesValid(schema, aliases)
    requires EffectAt(argv, schema, aliases, parse, j) == Some((k, v))
    requires forall j' :: j < j' < n ==> EffectAt(argv, schema, aliases, parse, j').None? ||
                                         EffectAt(argv, schema, aliases, parse, j').value.0 != k
    ensures var m := Replay(base, argv, schema, aliases, parse, n); k in m && m[k] == v
  {
    if n - 1 > j {
      ReplayLast(base, argv, schema, aliases, parse, n - 1, j, k, v);
    }
  }

  /** A schema key no token names keeps its default. */
  lemma DefaultWhenNotGiven(argv: seq<string>, schema: Schema, parse: string -> Option<real>, i: nat)
    requires DistinctKeys(schema) && i < |schema|
    requires forall j :: 0 <= j < |argv| ==> FlagAt(argv, schema, AliasIndex(schema), j) != Some(schema[i].key)
    ensures schema[i].key in ParseSpec(argv, schema, parse)
    ensures ParseSpec(argv, schema, parse)[schema[i].key] == schema[i].spec.default
  {
    var k := schema[i].key;
    var aliases := AliasIndex(schema);
    DefaultsOfSchema(schema, k);
    FindEntry(schema, i);
    forall j | 0 <= j < |argv|
      ensures EffectAt(argv, schema, aliases, parse, j).None? || EffectAt(argv, schema, aliases, parse, j).value.0 != k
    {
      EffectOfFlag(argv, schema, aliases, parse, j);
    }
    ReplayUntouched(Defaults(schema), argv, schema, aliases, parse, |argv|, k);
  }

  /** A token writes only under the key it names. */
  lemma EffectOfFlag(argv: seq<string>, schema: Schema, aliases: map<string, string>,
                     parse: string -> Option<real>, j: nat)
    requires j < |argv| && AliasesValid(schema, aliases)
    ensures EffectAt(argv, schema, aliases, parse, j).Some? ==>
      FlagAt(argv, schema, aliases, j) == Some(EffectAt(argv, schema, aliases, parse, j).value.0)
  {
  }

  /** When a flag repeats, its last effective occurrence wins. */
  lemma LastOccurrenceWins(argv: seq<string>, schema: Schema, parse: string -> Option<real>, j: nat, k: string, v: Value)
    requires j < |argv|
    requires EffectAt(argv, schema, AliasIndex(schema), parse, j) == Some((k, v))
    requires forall j' :: j < j' < |argv| ==> EffectAt(argv, schema, AliasIndex(schema), parse, j').None? ||
                                              EffectAt(argv, schema, AliasIndex(schema), parse, j').value.0 != k
    ensures k in ParseSpec(argv, schema, parse) && ParseSpec(argv, schema, parse)[k] == v
  {
    ReplayLast(Defaults(schema), argv, schema, AliasIndex(schema), parse, |argv|, j, k, v);
  }

  /**
   * `--key`, `-key` and `-alias` all name the flag; the full key is looked up
   * before the aliases.
   */
  lemma FlagSpellings(argv: seq<string>, schema: Schema, j: nat, k: string)
    requires j < |argv| && k != "" && Find(schema, k).Some?
    ensures argv[j] == "--" + k ==> FlagAt(argv, schema, AliasIndex(schema), j) == Some(k)
    ensures argv[j] == "-" + k && k[0] != '-' ==> FlagAt(argv, schema, AliasIndex(schema), j) == Some(k)
  {
    if argv[j] == "--" + k {
      DoubleDashName(k);
    }
    if argv[j] == "-" + k && k[0] != '-' {
      SingleDashName(k);
    }
  }

  /** A flag token for an alias that is no key names the aliased flag. */
  lemma AliasSpelling(argv: seq<string>, schema: Schema, j: nat, a: string)
    requires j < |argv| && a in AliasIndex(schema) && Find(schema, a).None? && a[0] != '-'
    requires argv[j] == "-" + a
    requires AliasIndex(schema)[a] != ""
    ensures FlagAt(argv, schema, AliasIndex(schema), j) == Some(AliasIndex(schema)[a])
  {
    SingleDashName(a);
  }

  /** `--name` is a flag token for `name`. */
  lemma DoubleDashName(name: string)
    ensures StartsWith("--" + name, "-") && StripDashes("--" + name) == name
  {
    assert ("--" + name)[..2] == "--";
    assert ("--" + name)[2..] == name;
  }

  /** `-name` is a flag token for `name` when `name` does not itself begin with `-`. */
  lemma SingleDashName(name: string)
    requires |name| > 0 && name[0] != '-'
    ensures StartsWith("-" + name, "-") && StripDashes("-" + name) == name
  {
    var t := "-" + name;
    assert t[..1] == "-";
    assert t[..2][1] == name[0];
    assert !StartsWith(t, "--") by {
      assert t[..2][1] != "--"[1];
    }
    assert t[1..] == name;
  }

  /**
   * A bool flag becomes `true` as soon as it is named anywhere, and no later
   * token can set it back: every effect on a bool key is `true`.
   */
  lemma {:induction false} BoolFlagSet(base: map<string, Value>, argv: seq<string>, schema: Schema,
                                       aliases: map<string, string>, parse: string -> Option<real>, n: nat, j: nat, k: string)
    requires j < n <= |argv| && AliasesValid(schema, aliases)
    requires FlagAt(argv, schema, aliases, j) == Some(k) && Find(schema, k).value.kind == BoolFlag
    ensures var m := Replay(base, argv, schema, aliases, parse, n); k in m && m[k] == Bool(true)
  {
    if n - 1 > j {
      BoolFlagSet(base, argv, schema, aliases, parse, n - 1, j, k);
    }
  }

  /** A named bool flag is `true` in the output, wherever it appears. */
  lemma BoolFlagGiven(argv: seq<string>, schema: Schema, parse: string -> Option<real>, j: nat, k: string)
    requires j < |argv|
    requires FlagAt(argv, schema, AliasIndex(schema), j) == Some(k) && Find(schema, k).value.kind == BoolFlag
    ensures k in ParseSpec(argv, schema, parse) && ParseSpec(argv, schema, parse)[k] == Bool(true)
  {
    BoolFlagSet(Defaults(schema), argv, schema, AliasIndex(schema), parse, |argv|, j, k);
  }

  /** A bool flag never consumes the token after it. */
  lemma BoolFlagConsumesNothing(argv: seq<string>, schema: Schema, j: nat, k: string)
    requires j < |argv|
    requires FlagAt(argv, schema, AliasIndex(schema), j) == Some(k) && Find(schema, k).value.kind == BoolFlag
    ensures !Consumes(argv, schema, AliasIndex(schema), j)
  {
  }

  /**
   * A string flag followed by a usable token, and not named again later,
   * ends with that token as its value.
   */
  lemma StringFlagTakesNext(argv: seq<string>, schema: Schema, parse: string -> Option<real>, j: nat, k: string)
    requires j < |argv|
    requires FlagAt(argv, schema, AliasIndex(schema), j) == Some(k) && Find(schema, k).value.kind == StringFlag
    requires NextUsable(argv, j)
    requires forall j' :: j < j' < |argv| ==> FlagAt(argv, schema, AliasIndex(schema), j') != Some(k)
    ensures k in ParseSpec(argv, schema, parse) && ParseSpec(argv, schema, parse)[k] == Str(argv[j + 1])
  {
    assert EffectAt(argv, schema, AliasIndex(schema), parse, j) == Some((k, Str(argv[j + 1])));
    LastOccurrenceWins(argv, schema, parse, j, k, Str(argv[j + 1]));
  }

  /**
   * A number flag holds its base value or a finite number parsed from one of
   * the tokens: a token that does not parse leaves the value as it was.
   */
  lemma {:induction false} NumberFlagValues(base: map<string, Value>, argv: seq<string>, schema: Schema,
                                            aliases: map<string, string>, parse: string -> Option<real>, n: nat, k: string)
    requires n <= |argv| && AliasesValid(schema, aliases)
    requires k in base && Find(schema, k).Some? && Find(schema, k).value.kind == NumberFlag
    ensures var m := Replay(base, argv, schema, aliases, parse, n);
      k in m && (m[k] == base[k] || exists j :: 0 <= j < |argv| && m[k].Num? && parse(argv[j]) == Some(m[k].x))
  {
    if n > 0 {
      NumberFlagValues(base, argv, schema, aliases, parse, n - 1, k);
      var e := EffectAt(argv, schema, aliases, parse, n - 1);
      if e.Some? && e.value.0 == k {
        assert parse(argv[n]) == Some(e.value.1.x);
      }
    }
  }

  /**
   * A number or string flag without a usable next token changes nothing and
   * consumes nothing: the default, or an earlier value, stays.
   */
  lemma MissingValueKeeps(argv: seq<string>, schema: Schema, parse: string -> Option<real>, j: nat)
    requires j < |argv| && !NextUsable(argv, j)
    requires FlagAt(argv, schema, AliasIndex(schema), j).Some?
    requires Find(schema, FlagAt(argv, schema, AliasIndex(schema), j).value).value.kind != BoolFlag
    ensures EffectAt(argv, schema, AliasIndex(schema), parse, j).None?
    ensures !Consumes(argv, schema, AliasIndex(schema), j)
  {
  }

  /** A value has the kind its flag declares. */
  predicate OfKind(v: Value, kind: FlagKind) {
    match kind
    case BoolFlag => v.Bool?
    case NumberFlag => v.Num?
    case StringFlag => v.Str?
  }

  /** A schema whose every default has its flag's kind. */
  predicate DefaultsTyped(schema: Schema) {
    forall i :: 0 <= i < |schema| ==> OfKind(schema[i].spec.default, schema[i].spec.kind)
  }

  lemma {:induction false} ReplayKinds(base: map<string, Value>, argv: seq<string>, schema: Schema,
                                       aliases: map<string, string>, parse: string -> Option<real>, n: nat, k: string)
    requires n <= |argv| && AliasesValid(schema, aliases)
    requires k in base && Find(schema, k).Some? && OfKind(base[k], Find(schema, k).value.kind)
    ensures var m := Replay(base, argv, schema, aliases, parse, n); k in m && OfKind(m[k], Find(schema, k).value.kind)
  {
    if n > 0 {
      ReplayKinds(base, argv, schema, aliases, parse, n - 1, k);
    }
  }

  /**
   * When every default has its flag's kind, so does every parsed value: bool
   * flags hold booleans, number flags numbers and string flags strings.
   */
  lemma ParsedKinds(argv: seq<string>, schema: Schema, parse: string -> Option<real>, i: nat)
    requires DistinctKeys(schema) && DefaultsTyped(schema) && i < |schema|
    ensures var m := ParseSpec(argv, schema, parse);
      schema[i].key in m && OfKind(m[schema[i].key], schema[i].spec.kind)
  {
    FindEntry(schema, i);
    DefaultsOfSchema(schema, schema[i].key);
    ReplayKinds(Defaults(schema), argv, schema, AliasIndex(schema), parse, |argv|, schema[i].key);
  }
}
