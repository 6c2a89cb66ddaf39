/**
 * The terminal entry point's pure helpers: configuration merging, schema defaults, the
 * overrides built from the command line, quality parsing and song links.
 */
module Cli {
  import opened Wrappers
  import opened Text
  import opened Json
  import Url
  import opened Downloader

  // ---------------------------------------------------------------- _deep_merge

  /** The merged value of one key of `updates`: dicts on both sides merge, anything else is replaced. */
  function MergedValue(base: map<string, Value>, updates: map<string, Value>, k: string): Value
    requires k in updates
    decreases JObject(updates), 0
  {
    if updates[k].JObject? && k in base && base[k].JObject?
    then JObject(Merged(base[k].fields, updates[k].fields))
    else updates[k]
  }

  /** `_deep_merge(base, updates)`: every key of either side, `updates` taking precedence. */
  function Merged(base: map<string, Value>, updates: map<string, Value>): (r: map<string, Value>)
    ensures r.Keys == base.Keys + updates.Keys
    decreases JObject(updates), 1
  {
    map k | k in base.Keys + updates.Keys :: if k in updates then MergedValue(base, updates, k) else base[k]
  }

  /** The merge after the keys in `done` have been processed. */
  function MergedOn(base: map<string, Value>, updates: map<string, Value>, done: set<string>): (r: map<string, Value>)
    requires done <= updates.Keys
  {
    map k | k in base.Keys + done :: if k in done then MergedValue(base, updates, k) else base[k]
  }

  /** `_deep_merge`: a copy of `base` whose keys are overwritten one update at a time. */
  method DeepMerge(base: map<string, Value>, updates: map<string, Value>) returns (merged: map<string, Value>)
    ensures merged == Merged(base, updates)
    decreases JObject(updates)
  {
    merged := base;
    var todo := updates.Keys;
    while todo != {}
      invariant todo <= updates.Keys
      invariant merged == MergedOn(base, updates, updates.Keys - todo)
      decreases todo
    {
      var key :| key in todo;
      var value := updates[key];
      ghost var done := updates.Keys - todo;
      if value.JObject? && key in merged && merged[key].JObject? {
        assert merged[key] == base[key];
        var inner := DeepMerge(merged[key].fields, value.fields);
        merged := merged[key := JObject(inner)];
      } else {
        merged := merged[key := value];
      }
      todo := todo - {key};
      assert merged == MergedOn(base, updates, done + {key});
      assert updates.Keys - todo == done + {key};
    }
    assert updates.Keys - todo == updates.Keys;
  }

  /** Without dict values on either side the merge is the plain dict update. */
  lemma MergeFlat(base: map<string, Value>, updates: map<string, Value>)
    requires forall k :: k in updates ==> !updates[k].JObject?
    ensures Merged(base, updates) == base + updates
  {
  }

  /** A value `updates` holds wins unless it and the base value are both dicts. */
  lemma MergeSides(base: map<string, Value>, updates: map<string, Value>, k: string)
    ensures k in updates && !(updates[k].JObject? && k in base && base[k].JObject?) ==> Merged(base, updates)[k] == updates[k]
    ensures k !in updates && k in base ==> Merged(base, updates)[k] == base[k]
    ensures k in updates && updates[k].JObject? && k in base && base[k].JObject? ==>
              Merged(base, updates)[k].JObject? && Merged(base, updates)[k].fields.Keys == base[k].fields.Keys + updates[k].fields.Keys
  {
  }

  /** Merging nothing keeps the base; merging into nothing gives the updates. */
  lemma MergeEmpty(d: map<string, Value>)
    ensures Merged(d, map[]) == d
    ensures Merged(map[], d) == d
  {
    assert Merged(d, map[]).Keys == d.Keys;
    assert Merged(map[], d).Keys == d.Keys;
  }

  /** Merging a dict into itself gives it back. */
  lemma {:induction false} MergeSelf(d: map<string, Value>)
    ensures Merged(d, d) == d
    decreases JObject(d)
  {
    forall k | k in d
      ensures MergedValue(d, d, k) == d[k]
    {
      if d[k].JObject? {
        MergeSelf(d[k].fields);
      }
    }
  }

  /** Applying the same updates a second time changes nothing. */
  lemma {:induction false} MergeIdempotent(base: map<string, Value>, updates: map<string, Value>)
    ensures Merged(Merged(base, updates), updates) == Merged(base, updates)
    decreases JObject(updates)
  {
    var once := Merged(base, updates);
    forall k | k in updates
      ensures MergedValue(once, updates, k) == once[k]
    {
      assert once[k] == MergedValue(base, updates, k);
      if updates[k].JObject? && k in base && base[k].JObject? {
        MergeIdempotent(base[k].fields, updates[k].fields);
        assert once[k] == JObject(Merged(base[k].fields, updates[k].fields));
      } else if updates[k].JObject? {
        MergeSelf(updates[k].fields);
        assert once[k] == updates[k];
      }
    }
    assert Merged(once, updates).Keys == once.Keys;
  }

  // ---------------------------------------------------------------- schema defaults

  /** The exception of calling `.get` on a schema node that is not a dict. */
  const NotADict := "AttributeError: schema node is not a dict"

  /** An object node: `"type": "object"` with dict `items`. */
  predicate IsObjectNode(f: map<string, Value>)
  {
    Get(f, "type") == JStr("object") && Get(f, "items").JObject?
  }

  /**
   * `_schema_node_default`: an object node gives the dict of its children's non-None
   * defaults, any other node its `default` or None; a non-dict child raises.
   */
  function SchemaNodeDefault(node: Value): (r: Result<Value>)
    ensures !node.JObject? ==> r == Failure(NotADict)
    ensures node.JObject? && !IsObjectNode(node.fields) ==> r == Success(Get(node.fields, "default"))
    decreases node
  {
    if !node.JObject? then Failure(NotADict)
    else
      var f := node.fields;
      if IsObjectNode(f) then
        var items := f["items"].fields;
        var children := map k | k in items :: SchemaNodeDefault(items[k]);
        if exists k :: k in children && children[k].Failure? then Failure(NotADict)
        else Success(JObject(map k | k in children && children[k].value != JNull :: children[k].value))
      else if "default" in f then Success(f["default"])
      else Success(JNull)
  }

  /** An object node's default holds exactly the children with a non-None default. */
  lemma ObjectNodeDefault(f: map<string, Value>, k: string)
    requires IsObjectNode(f) && SchemaNodeDefault(JObject(f)).Success?
    ensures var items := f["items"].fields;
            var d := SchemaNodeDefault(JObject(f)).value;
            && d.JObject?
            && (k in d.fields <==> k in items && SchemaNodeDefault(items[k]).Success? && SchemaNodeDefault(items[k]).value != JNull)
            && (k in d.fields ==> d.fields[k] == SchemaNodeDefault(items[k]).value)
  {
  }

  /** A leaf without a default, or a dict of such leaves, has no default. */
  lemma NoDefaultLeaf(f: map<string, Value>)
    requires "default" !in f && !IsObjectNode(f)
    ensures SchemaNodeDefault(JObject(f)) == Success(JNull)
  {
  }

  /** The defaults the loop of `_load_schema_defaults` has gathered over the keys in `done`. */
  function DefaultsOn(schema: map<string, Value>, done: set<string>): Result<map<string, Value>>
    requires done <= schema.Keys
  {
    if exists k :: k in done && schema[k].JObject? && SchemaNodeDefault(schema[k]).Failure? then Failure(NotADict)
    else Success(map k | k in done && schema[k].JObject? && SchemaNodeDefault(schema[k]).value != JNull :: SchemaNodeDefault(schema[k]).value)
  }

  /**
   * `_load_schema_defaults` on the file's parsed content: None stands for a missing,
   * unreadable or unparsable file; anything but a JSON object gives no defaults.
   */
  function SchemaDefaults(schema: Option<Value>): Result<map<string, Value>>
  {
    if schema.None? || !schema.value.JObject? then Success(map[])
    else DefaultsOn(schema.value.fields, schema.value.fields.Keys)
  }

  /** Only dict nodes whose default is not None are kept, each under its own key. */
  lemma SchemaDefaultsKeep(schema: map<string, Value>, k: string)
    requires SchemaDefaults(Some(JObject(schema))).Success?
    ensures var d := SchemaDefaults(Some(JObject(schema))).value;
            && (k in d <==> k in schema && schema[k].JObject? && SchemaNodeDefault(schema[k]) != Success(JNull))
            && (k in d ==> SchemaNodeDefault(schema[k]) == Success(d[k]))
  {
    if k in schema && schema[k].JObject? {
      assert SchemaNodeDefault(schema[k]).Success?;
    }
  }

  /** `_load_schema_defaults`: the loop over the schema's top-level nodes. */
  method LoadSchemaDefaults(schema: Option<Value>) returns (r: Result<map<string, Value>>)
    ensures r == SchemaDefaults(schema)
  {
    if schema.None? || !schema.value.JObject? {
      return Success(map[]);
    }
    var nodes := schema.value.fields;
    var defaults: map<string, Value> := map[];
    var todo := nodes.Keys;
    while todo != {}
      invariant todo <= nodes.Keys
      invariant DefaultsOn(nodes, nodes.Keys - todo) == Success(defaults)
      decreases todo
    {
      var key :| key in todo;
      ghost var done := nodes.Keys - todo;
      todo := todo - {key};
      assert nodes.Keys - todo == done + {key};
      DefaultsStep(nodes, done, key);
      var node := nodes[key];
      if !node.JObject? {
        continue;
      }
      var value := SchemaNodeDefault(node);
      if value.Failure? {
        DefaultsFailed(nodes, done + {key});
        return Failure(NotADict);
      }
      if value.value != JNull {
        defaults := defaults[key := value.value];
      }
    }
    assert nodes.Keys - todo == nodes.Keys;
    r := Success(defaults);
  }

  /** One more node: a non-dict is skipped, a raising node raises, a None default is dropped. */
  lemma DefaultsStep(schema: map<string, Value>, done: set<string>, key: string)
    requires done <= schema.Keys && key in schema && key !in done && DefaultsOn(schema, done).Success?
    ensures !schema[key].JObject? ==> DefaultsOn(schema, done + {key}) == DefaultsOn(schema, done)
    ensures schema[key].JObject? && SchemaNodeDefault(schema[key]).Failure? ==> DefaultsOn(schema, done + {key}).Failure?
    ensures schema[key].JObject? && SchemaNodeDefault(schema[key]).Success? ==>
              var d := DefaultsOn(schema, done).value;
              var v := SchemaNodeDefault(schema[key]).value;
              DefaultsOn(schema, done + {key}) == Success(if v != JNull then d[key := v] else d)
  {
    var d := DefaultsOn(schema, done).value;
    if schema[key].JObject? && SchemaNodeDefault(schema[key]).Success? {
      var v := SchemaNodeDefault(schema[key]).value;
      var e := DefaultsOn(schema, done + {key});
      assert e.Success?;
      assert e.value == (if v != JNull then d[key := v] else d);
    } else if !schema[key].JObject? {
      var e := DefaultsOn(schema, done + {key});
      assert e.Success?;
      assert e.value == d;
    } else {
      assert key in done + {key};
    }
  }

  /** Once a node raised, the whole loop raises. */
  lemma DefaultsFailed(schema: map<string, Value>, done: set<string>)
    requires done <= schema.Keys && DefaultsOn(schema, done).Failure?
    ensures DefaultsOn(schema, schema.Keys) == Failure(NotADict)
  {
    var k :| k in done && schema[k].JObject? && SchemaNodeDefault(schema[k]).Failure?;
    assert k in schema.Keys;
  }

  // ---------------------------------------------------------------- _build_overrides

  /** The global command-line options `_build_overrides` reads; None where not given. */
  datatype Args = Args(
    wrapperUrl: Option<string>, wrapperSecure: Option<bool>, storefront: Option<string>,
    language: Option<string>, downloadDir: Option<string>, defaultQuality: Option<string>,
    debugMode: Option<bool>)

  /** A given, non-empty string option. */
  predicate Given(o: Option<string>) { o.Some? && o.value != "" }

  /** The `region_config` part of the overrides. */
  method RegionOverrides(args: Args) returns (cfg: map<string, Value>)
    ensures cfg.Keys <= {"storefront", "language"}
    ensures cfg != map[] <==> Given(args.storefront) || Given(args.language)
    ensures "storefront" in cfg <==> Given(args.storefront)
    ensures "language" in cfg <==> Given(args.language)
    ensures Given(args.storefront) ==> cfg["storefront"] == JStr(args.storefront.value)
    ensures Given(args.language) ==> cfg["language"] == JStr(args.language.value)
  {
    cfg := map[];
    if Given(args.storefront) {
      cfg := cfg["storefront" := JStr(args.storefront.value)];
    }
    if Given(args.language) {
      cfg := cfg["language" := JStr(args.language.value)];
    }
    var none: map<string, Value> := map[];
    if Given(args.storefront) {
      assert "storefront" in cfg && "storefront" !in none;
    } else if Given(args.language) {
      assert "language" in cfg && "language" !in none;
    }
  }

  /** A one-key section of the overrides: the key when the option was given, else nothing. */
  method SectionOverride(key: string, option: Option<string>) returns (cfg: map<string, Value>)
    ensures Given(option) ==> cfg == map[key := JStr(option.value)]
    ensures !Given(option) ==> cfg == map[]
    ensures cfg != map[] <==> Given(option)
  {
    cfg := map[];
    var none: map<string, Value> := map[];
    if Given(option) {
      cfg := cfg[key := JStr(option.value)];
      assert key in cfg && key !in none;
    }
  }

  /**
   * What the `region_config`, `path_config` and `download_config` parts of the overrides
   * hold: each section only when one of its options was given, holding exactly those.
   */
  predicate SectionsFor(args: Args, sections: map<string, Value>)
  {
    && sections.Keys <= {"region_config", "path_config", "download_config"}
    && ("region_config" in sections <==> Given(args.storefront) || Given(args.language))
    && ("region_config" in sections ==>
          sections["region_config"].JObject? &&
          sections["region_config"].fields.Keys <= {"storefront", "language"} &&
          ("storefront" in sections["region_config"].fields <==> Given(args.storefront)) &&
          ("language" in sections["region_config"].fields <==> Given(args.language)) &&
          (Given(args.storefront) ==> sections["region_config"].fields["storefront"] == JStr(args.storefront.value)) &&
          (Given(args.language) ==> sections["region_config"].fields["language"] == JStr(args.language.value)))
    && ("path_config" in sections <==> Given(args.downloadDir))
    && (Given(args.downloadDir) ==> sections["path_config"] == JObject(map["download_dir" := JStr(args.downloadDir.value)]))
    && ("download_config" in sections <==> Given(args.defaultQuality))
    && (Given(args.defaultQuality) ==> sections["download_config"] == JObject(map["default_quality" := JStr(args.defaultQuality.value)]))
  }

  /** The section parts of the overrides. */
  method SectionOverrides(args: Args) returns (sections: map<string, Value>)
    ensures SectionsFor(args, sections)
  {
    sections := map[];
    var regionCfg := RegionOverrides(args);
    if regionCfg != map[] {
      sections := sections["region_config" := JObject(regionCfg)];
    }
    var pathCfg := SectionOverride("download_dir", args.downloadDir);
    if pathCfg != map[] {
      sections := sections["path_config" := JObject(pathCfg)];
    }
    var downloadCfg := SectionOverride("default_quality", args.defaultQuality);
    if downloadCfg != map[] {
      sections := sections["download_config" := JObject(downloadCfg)];
    }
  }

  /** `_build_overrides`: a key for each option given; each sub-dict only when something went into it. */
  method BuildOverrides(args: Args) returns (overrides: map<string, Value>)
    ensures overrides.Keys <= {"wrapper_url", "wrapper_secure", "region_config", "path_config", "download_config", "debug_mode"}
    ensures "wrapper_url" in overrides <==> Given(args.wrapperUrl)
    ensures Given(args.wrapperUrl) ==> overrides["wrapper_url"] == JStr(args.wrapperUrl.value)
    ensures "wrapper_secure" in overrides <==> args.wrapperSecure.Some?
    ensures args.wrapperSecure.Some? ==> overrides["wrapper_secure"] == JBool(args.wrapperSecure.value)
    ensures "debug_mode" in overrides <==> args.debugMode.Some?
    ensures args.debugMode.Some? ==> overrides["debug_mode"] == JBool(args.debugMode.value)
    ensures SectionsFor(args, overrides - {"wrapper_url", "wrapper_secure", "debug_mode"})
  {
    overrides := map[];
    if Given(args.wrapperUrl) {
      overrides := overrides["wrapper_url" := JStr(args.wrapperUrl.value)];
    }
    if args.wrapperSecure.Some? {
      overrides := overrides["wrapper_secure" := JBool(args.wrapperSecure.value)];
    }
    var sections := SectionOverrides(args);
    overrides := overrides + sections;
    if args.debugMode.Some? {
      overrides := overrides["debug_mode" := JBool(args.debugMode.value)];
    }
    assert overrides - {"wrapper_url", "wrapper_secure", "debug_mode"} == sections;
  }

  // ---------------------------------------------------------------- _parse_quality

  /** The exception `_parse_quality` raises: the enum has no member `EC3`. */
  const MissingMember := "AttributeError: EC3"

  /**
   * `_parse_quality` as written: building the alias table reads `DownloadQuality.EC3`,
   * which the three-member enum does not have, so every call raises.
   */
  function ParseQualityAsWritten(value: string): (r: Result<DownloadQuality>)
  {
    var members := [Alac, Aac, Atmos];
    if "EC3" !in seq(|members|, i requires 0 <= i < |members| => QualityName(members[i])) then Failure(MissingMember)
    else Success(Alac)
  }

  /** The Python member name of a quality. */
  function QualityName(q: DownloadQuality): string
  {
    match q
    case Alac => "ALAC"
    case Aac => "AAC"
    case Atmos => "ATMOS"
  }

  /** Every call of `_parse_quality` as written raises AttributeError. */
  lemma ParseQualityAlwaysRaises(value: string)
    ensures ParseQualityAsWritten(value) == Failure(MissingMember)
  {
    var members := [Alac, Aac, Atmos];
    var names := seq(|members|, i requires 0 <= i < |members| => QualityName(members[i]));
    assert names == ["ALAC", "AAC", "ATMOS"];
  }

  /**
   * `_parse_quality` with the aliases bound to existing members: trimmed and lower-cased,
   * an enum value gives its member, "atmos" the Atmos member, "aac-he" the AAC member,
   * anything else ALAC.
   */
  function ParseQuality(value: string): (q: DownloadQuality)
    ensures q == Atmos <==> Lower(Strip(value)) == "atmos"
    ensures q == Aac <==> Lower(Strip(value)) == "aac" || Lower(Strip(value)) == "aac-he"
    ensures q == Alac <==> Lower(Strip(value)) !in ["atmos", "aac", "aac-he"]
  {
    var v := Lower(Strip(value));
    if v == QualityValue(Aac) || v == "aac-he" then Aac
    else if v == QualityValue(Atmos) then Atmos
    else Alac
  }

  /** The enum value of every quality parses back to it. */
  lemma ParseQualityValue(q: DownloadQuality)
    ensures ParseQuality(QualityValue(q)) == q
  {
    var s := QualityValue(q);
    assert !IsSpace(s[0]) && !IsSpace(s[|s| - 1]);
    assert StripLeft(s) == s;
    assert StripRight(s) == s;
    assert Lower(s) == s;
  }

  // ---------------------------------------------------------------- _build_song_url

  /** `_build_song_url`: the canonical song link. */
  function BuildSongUrl(storefront: string, songId: string): (u: string)
    ensures u == Url.LinkOf(Url.SongUrl, storefront, songId)
  {
    "https://music.apple.com/" + storefront + "/song/" + songId
  }

  /** The link built for a two-letter storefront and a plain id parses back to that song. */
  lemma BuildSongUrlParses(storefront: string, songId: string)
    requires |storefront| == 2 && Url.Plain(storefront) && Url.Plain(songId)
    ensures Url.ParseUrl(BuildSongUrl(storefront, songId)) ==
              Success(Some(Url.AppleMusicUrl(Url.SongUrl, BuildSongUrl(storefront, songId), storefront, songId)))
  {
    Url.ParseCanonical(Url.SongUrl, storefront, songId);
  }
}
