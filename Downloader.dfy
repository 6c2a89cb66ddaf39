/**
 * The pure parts of the download service: the result record shared with the queue, the
 * downloader's generated configuration and its merge with an existing file, the YAML
 * quoting pass, the download cache, and the quality directories.
 */
module Downloader {
  import opened Wrappers
  import opened Text
  import opened Json
  import Config

  /** The three qualities a download can be asked for. */
  datatype DownloadQuality = Alac | Aac | Atmos

  /** The enum value of a quality. */
  function QualityValue(q: DownloadQuality): string
  {
    match q
    case Alac => "alac"
    case Aac => "aac"
    case Atmos => "atmos"
  }

  /** What one download reports back to the queue. */
  datatype DownloadResult = DownloadResult(
    success: bool, message: string, filePaths: seq<string>, coverPath: Option<string>, error: Option<string>)

  // ---------------------------------------------------------------- generate_config

  // The downloader's configuration template, in its key order, in three parts.
  /** Tokens, lyrics, artwork and the save folders. */
  const TemplateA: seq<(string, Value)> := [
    ("media-user-token", JStr("")),
    ("authorization-token", JStr("your-authorization-token")),
    ("language", JStr("")),
    ("lrc-type", JStr("lyrics")),
    ("lrc-format", JStr("lrc")),
    ("embed-lrc", JBool(true)),
    ("save-lrc-file", JBool(false)),
    ("save-artist-cover", JBool(false)),
    ("save-animated-artwork", JBool(false)),
    ("emby-animated-artwork", JBool(false)),
    ("embed-cover", JBool(true)),
    ("cover-size", JStr("5000x5000")),
    ("cover-format", JStr("jpg")),
    ("alac-save-folder", JStr("AM-DL downloads")),
    ("atmos-save-folder", JStr("AM-DL-Atmos downloads"))]

  /** Memory, ports, codec limits and the file name formats. */
  const TemplateB: seq<(string, Value)> := [
    ("aac-save-folder", JStr("AM-DL-AAC downloads")),
    ("max-memory-limit", JInt(256)),
    ("decrypt-m3u8-port", JStr("127.0.0.1:10020")),
    ("get-m3u8-port", JStr("127.0.0.1:20020")),
    ("get-m3u8-from-device", JBool(true)),
    ("get-m3u8-mode", JStr("hires")),
    ("aac-type", JStr("aac-lc")),
    ("alac-max", JInt(192000)),
    ("atmos-max", JInt(2768)),
    ("limit-max", JInt(200)),
    ("album-folder-format", JStr("{AlbumName}")),
    ("playlist-folder-format", JStr("{PlaylistName}")),
    ("song-file-format", JStr("{SongNumer}. {SongName}")),
    ("artist-folder-format", JStr("{UrlArtistName}")),
    ("explicit-choice", JStr("[E]"))]

  /** Tag choices, video, storefront and conversion. */
  const TemplateC: seq<(string, Value)> := [
    ("clean-choice", JStr("[C]")),
    ("apple-master-choice", JStr("[M]")),
    ("use-songinfo-for-playlist", JBool(false)),
    ("dl-albumcover-for-playlist", JBool(false)),
    ("mv-audio-type", JStr("atmos")),
    ("mv-max", JInt(2160)),
    ("storefront", JStr("cn")),
    ("convert-after-download", JBool(true)),
    ("convert-format", JStr("flac")),
    ("convert-keep-original", JBool(false)),
    ("convert-skip-if-source-matches", JBool(true)),
    ("ffmpeg-path", JStr("ffmpeg")),
    ("convert-extra-args", JStr("")),
    ("convert-warn-lossy-to-lossless", JBool(true)),
    ("convert-skip-lossy-to-lossless", JBool(true))]

  /** The template as key-value pairs. */
  const DefaultEntries: seq<(string, Value)> := TemplateA + TemplateB + TemplateC

  /** A dict built from key-value pairs, a later pair overriding an earlier one. */
  function MapOf(entries: seq<(string, Value)>): map<string, Value>
  {
    if entries == [] then map[]
    else MapOf(entries[..|entries| - 1])[entries[|entries| - 1].0 := entries[|entries| - 1].1]
  }

  /** Every key of the pairs is in the dict built from them. */
  lemma {:induction false} MapOfHas(entries: seq<(string, Value)>, j: nat)
    requires j < |entries|
    ensures entries[j].0 in MapOf(entries)
  {
    if j < |entries| - 1 {
      MapOfHas(entries[..|entries| - 1], j);
    }
  }

  /** Appending pairs keeps the keys already present. */
  lemma {:induction false} MapOfExtend(a: seq<(string, Value)>, b: seq<(string, Value)>, k: string)
    requires k in MapOf(a)
    ensures k in MapOf(a + b)
  {
    if b == [] {
      assert a + b == a;
    } else {
      MapOfExtend(a, b[..|b| - 1], k);
      assert (a + b)[..|a + b| - 1] == a + b[..|b| - 1];
    }
  }

  /** The template as a dict. */
  const DefaultConfig: map<string, Value> := MapOf(DefaultEntries)

  /** Plugin setting names and the downloader keys they set, in order. */
  const ConfigMapping: seq<(string, string)> := [
    ("media_user_token", "media-user-token"),
    ("storefront", "storefront"),
    ("alac_max", "alac-max"),
    ("atmos_max", "atmos-max"),
    ("aac_type", "aac-type"),
    ("embed_lrc", "embed-lrc"),
    ("save_lrc_file", "save-lrc-file"),
    ("lrc_type", "lrc-type"),
    ("embed_cover", "embed-cover"),
    ("cover_size", "cover-size"),
    ("cover_format", "cover-format"),
    ("convert_after_download", "convert-after-download"),
    ("convert_format", "convert-format"),
    ("convert_keep_original", "convert-keep-original"),
    ("ffmpeg_path", "ffmpeg-path"),
    ("album_folder_format", "album-folder-format"),
    ("song_file_format", "song-file-format"),
    ("artist_folder_format", "artist-folder-format")]

  /** A plugin setting that overrides the template: present, not None and not "". */
  predicate Overrides(dl: map<string, Value>, pluginKey: string)
  {
    pluginKey in dl && dl[pluginKey] != JNull && dl[pluginKey] != JStr("")
  }

  /** The template after the first `n` mapping entries have been applied. */
  function MappedUpTo(base: map<string, Value>, mapping: seq<(string, string)>, dl: map<string, Value>, n: nat): map<string, Value>
    requires n <= |mapping|
  {
    if n == 0 then base
    else
      var c := MappedUpTo(base, mapping, dl, n - 1);
      var entry := mapping[n - 1];
      if Overrides(dl, entry.0) then c[entry.1 := dl[entry.0]] else c
  }

  /** The downloader keys of a mapping. */
  function Targets(mapping: seq<(string, string)>): seq<string>
  {
    seq(|mapping|, i requires 0 <= i < |mapping| => mapping[i].1)
  }

  /** Pairwise different downloader keys. */
  predicate DistinctTargets(mapping: seq<(string, string)>)
  {
    forall i, j :: 0 <= i < j < |mapping| ==> mapping[i].1 != mapping[j].1
  }

  /**
   * Each mapped key holds the plugin's value when that overrides and the template's
   * otherwise; every other key keeps the template's value.
   */
  lemma {:induction false} MappedSpec(base: map<string, Value>, mapping: seq<(string, string)>, dl: map<string, Value>, n: nat, k: string)
    requires n <= |mapping| && DistinctTargets(mapping)
    ensures var c := MappedUpTo(base, mapping, dl, n);
            && (forall i :: 0 <= i < n && mapping[i].1 == k ==>
                  (Overrides(dl, mapping[i].0) ==> k in c && c[k] == dl[mapping[i].0]) &&
                  (!Overrides(dl, mapping[i].0) ==> (k in c <==> k in base) && (k in base ==> c[k] == base[k])))
            && ((forall i :: 0 <= i < n ==> mapping[i].1 != k) ==> (k in c <==> k in base) && (k in base ==> c[k] == base[k]))
  {
    if n > 0 {
      MappedSpec(base, mapping, dl, n - 1, k);
    }
  }

  /** Applying the mapping adds no key the template lacks, when every target is a template key. */
  lemma {:induction false} MappedKeys(base: map<string, Value>, mapping: seq<(string, string)>, dl: map<string, Value>, n: nat)
    requires n <= |mapping| && forall i :: 0 <= i < |mapping| ==> mapping[i].1 in base
    ensures MappedUpTo(base, mapping, dl, n).Keys == base.Keys
  {
    if n > 0 {
      MappedKeys(base, mapping, dl, n - 1);
    }
  }

  /** `str(value)` inside the port f-string; containers are not rendered as Python would. */
  function Render(v: Value): string
  {
    match v
    case JNull => "None"
    case JBool(b) => if b then "True" else "False"
    case JInt(i) => IntToString(i)
    case JStr(s) => s
    case JList(_) => "[...]"
    case JObject(_) => "{...}"
  }

  /** A port entry: "127.0.0.1:" followed by the port. */
  function PortEntry(port: Value): Value
  {
    JStr("127.0.0.1:" + Render(port))
  }

  /** The exception of `.get` on a ports section that is not a dict. */
  const NotADict := "AttributeError: section is not a dict"

  /** The exception of `key in section` when the section is None, a bool or an int. */
  const NotIterable := "TypeError: argument is not iterable"

  /** The exception of indexing a str or list section with a key. */
  const BadIndex := "TypeError: indices must be integers or slices, not str"

  /** A section `in` can search: a dict, a str or a list. */
  predicate Iterable(section: Value)
  {
    section.JObject? || section.JStr? || section.JList?
  }

  /** `key in section`: a dict tests its keys, a str its substrings, a list its items. */
  predicate InSection(section: Value, key: string)
    requires Iterable(section)
  {
    match section
    case JObject(fields) => key in fields
    case JStr(s) => Contains(s, key)
    case JList(items) => JStr(key) in items
  }

  /** The settings a section supplies: its entries when it is a dict, none otherwise. */
  function SectionFields(section: Value): map<string, Value>
  {
    if section.JObject? then section.fields else map[]
  }

  /** Some mapped plugin key is found `in` the section. */
  predicate KeyFound(section: Value)
    requires Iterable(section)
  {
    exists i :: 0 <= i < |ConfigMapping| && InSection(section, ConfigMapping[i].0)
  }

  /**
   * `generate_config`: the template, overridden by the mapped plugin settings, with both port
   * entries rebuilt. A downloader section that is not a dict raises when `in` cannot search it,
   * or when a mapped key is found in it and then used as an index.
   */
  function GeneratedConfig(plugin: map<string, Value>): Result<map<string, Value>>
  {
    var dl := Lookup(plugin, "downloader_config");
    var ports := Lookup(plugin, "wrapper_ports");
    if !Iterable(dl) then Failure(NotIterable)
    else if !dl.JObject? && KeyFound(dl) then Failure(BadIndex)
    else if !ports.JObject? then Failure(NotADict)
    else
      var c := MappedUpTo(DefaultConfig, ConfigMapping, SectionFields(dl), |ConfigMapping|);
      Success(c["decrypt-m3u8-port" := PortEntry(Config.Lookup(ports.fields, "decrypt_port", JInt(10020)))]
               ["get-m3u8-port" := PortEntry(Config.Lookup(ports.fields, "m3u8_port", JInt(20020)))])
  }

  /** `plugin_config.get(key, {})`. */
  function Lookup(plugin: map<string, Value>, key: string): Value
  {
    if key in plugin then plugin[key] else JObject(map[])
  }

  /** `generate_config`: a copy of the template whose keys are overwritten one mapping entry at a time. */
  method GenerateConfig(plugin: map<string, Value>) returns (r: Result<map<string, Value>>)
    ensures r == GeneratedConfig(plugin)
  {
    var dl := Lookup(plugin, "downloader_config");
    var config := DefaultConfig;
    var i := 0;
    while i < |ConfigMapping|
      invariant 0 <= i <= |ConfigMapping|
      invariant i > 0 ==> Iterable(dl)
      invariant Iterable(dl) && !dl.JObject? ==> forall j :: 0 <= j < i ==> !InSection(dl, ConfigMapping[j].0)
      invariant config == MappedUpTo(DefaultConfig, ConfigMapping, SectionFields(dl), i)
    {
      var (pluginKey, configKey) := ConfigMapping[i];
      if !Iterable(dl) {
        return Failure(NotIterable);
      }
      if InSection(dl, pluginKey) {
        if !dl.JObject? {
          return Failure(BadIndex);
        }
        if dl.fields[pluginKey] != JNull {
          var value := dl.fields[pluginKey];
          if value != JStr("") {
            config := config[configKey := value];
          }
        }
      }
      i := i + 1;
    }
    var ports := Lookup(plugin, "wrapper_ports");
    if !ports.JObject? {
      return Failure(NotADict);
    }
    var decryptPort := Config.Lookup(ports.fields, "decrypt_port", JInt(10020));
    var m3u8Port := Config.Lookup(ports.fields, "m3u8_port", JInt(20020));
    config := config["decrypt-m3u8-port" := PortEntry(decryptPort)];
    config := config["get-m3u8-port" := PortEntry(m3u8Port)];
    r := Success(config);
  }

  /**
   * A downloader section that is not a dict: None, a bool or an int raises TypeError at the
   * first `in`; a str or list raises once a mapped key is a substring or item of it, and
   * otherwise overrides nothing.
   */
  lemma ForeignSections(plugin: map<string, Value>)
    ensures var dl := Lookup(plugin, "downloader_config");
            && (dl.JNull? || dl.JBool? || dl.JInt? ==> GeneratedConfig(plugin) == Failure(NotIterable))
            && (dl.JStr? && Contains(dl.s, "storefront") ==> GeneratedConfig(plugin) == Failure(BadIndex))
            && (dl.JList? && JStr("alac_max") in dl.items ==> GeneratedConfig(plugin) == Failure(BadIndex))
            && ((dl.JStr? || dl.JList?) && GeneratedConfig(plugin).Success? ==>
                  SectionFields(dl) == map[] && !KeyFound(dl))
  {
    var dl := Lookup(plugin, "downloader_config");
    assert ConfigMapping[1].0 == "storefront" && ConfigMapping[2].0 == "alac_max";
    if dl.JStr? && Contains(dl.s, "storefront") {
      assert InSection(dl, ConfigMapping[1].0);
    }
    if dl.JList? && JStr("alac_max") in dl.items {
      assert InSection(dl, ConfigMapping[2].0);
    }
  }

  /** The mapping's downloader keys are distinct template keys other than the two ports. */
  lemma MappingWellFormed()
    ensures DistinctTargets(ConfigMapping)
    ensures forall i :: 0 <= i < |ConfigMapping| ==> ConfigMapping[i].1 in DefaultConfig
    ensures forall i :: 0 <= i < |ConfigMapping| ==> ConfigMapping[i].1 != "decrypt-m3u8-port" && ConfigMapping[i].1 != "get-m3u8-port"
  {
    MappingDistinct();
    MappingInTemplate();
    MappingNotPorts();
  }

  lemma MappingDistinct()
    ensures DistinctTargets(ConfigMapping)
  {
    forall i | 0 <= i < |ConfigMapping|
      ensures forall j :: i < j < |ConfigMapping| ==> ConfigMapping[i].1 != ConfigMapping[j].1
    {
    }
  }

  /** A key of the first part is a template key. */
  lemma InTemplateA(j: nat)
    requires j < |TemplateA|
    ensures TemplateA[j].0 in DefaultConfig
  {
    MapOfHas(TemplateA, j);
    MapOfExtend(TemplateA, TemplateB + TemplateC, TemplateA[j].0);
    assert TemplateA + (TemplateB + TemplateC) == DefaultEntries;
  }

  /** A key of the second part is a template key. */
  lemma InTemplateB(j: nat)
    requires j < |TemplateB|
    ensures TemplateB[j].0 in DefaultConfig
  {
    MapOfHas(TemplateA + TemplateB, |TemplateA| + j);
    assert (TemplateA + TemplateB)[|TemplateA| + j] == TemplateB[j];
    MapOfExtend(TemplateA + TemplateB, TemplateC, TemplateB[j].0);
  }

  /** A key of the third part is a template key. */
  lemma InTemplateC(j: nat)
    requires j < |TemplateC|
    ensures TemplateC[j].0 in DefaultConfig
  {
    MapOfHas(DefaultEntries, |TemplateA| + |TemplateB| + j);
    assert DefaultEntries[|TemplateA| + |TemplateB| + j] == TemplateC[j];
  }

  lemma MappingInTemplate()
    ensures forall i :: 0 <= i < |ConfigMapping| ==> ConfigMapping[i].1 in DefaultConfig
  {
    InTemplateA(0);
    assert ConfigMapping[0].1 == TemplateA[0].0;
    InTemplateC(6);
    assert ConfigMapping[1].1 == TemplateC[6].0;
    InTemplateB(7);
    assert ConfigMapping[2].1 == TemplateB[7].0;
    InTemplateB(8);
    assert ConfigMapping[3].1 == TemplateB[8].0;
    InTemplateB(6);
    assert ConfigMapping[4].1 == TemplateB[6].0;
    InTemplateA(5);
    assert ConfigMapping[5].1 == TemplateA[5].0;
    InTemplateA(6);
    assert ConfigMapping[6].1 == TemplateA[6].0;
    InTemplateA(3);
    assert ConfigMapping[7].1 == TemplateA[3].0;
    InTemplateA(10);
    assert ConfigMapping[8].1 == TemplateA[10].0;
    InTemplateA(11);
    assert ConfigMapping[9].1 == TemplateA[11].0;
    InTemplateA(12);
    assert ConfigMapping[10].1 == TemplateA[12].0;
    InTemplateC(7);
    assert ConfigMapping[11].1 == TemplateC[7].0;
    InTemplateC(8);
    assert ConfigMapping[12].1 == TemplateC[8].0;
    InTemplateC(9);
    assert ConfigMapping[13].1 == TemplateC[9].0;
    InTemplateC(11);
    assert ConfigMapping[14].1 == TemplateC[11].0;
    InTemplateB(10);
    assert ConfigMapping[15].1 == TemplateB[10].0;
    InTemplateB(12);
    assert ConfigMapping[16].1 == TemplateB[12].0;
    InTemplateB(13);
    assert ConfigMapping[17].1 == TemplateB[13].0;
  }

  /** Both port entries are template keys. */
  lemma PortsInTemplate()
    ensures "decrypt-m3u8-port" in DefaultConfig && "get-m3u8-port" in DefaultConfig
  {
    InTemplateB(2);
    InTemplateB(3);
    assert TemplateB[2].0 == "decrypt-m3u8-port" && TemplateB[3].0 == "get-m3u8-port";
  }

  lemma MappingNotPorts()
    ensures forall i :: 0 <= i < |ConfigMapping| ==> ConfigMapping[i].1 != "decrypt-m3u8-port" && ConfigMapping[i].1 != "get-m3u8-port"
  {
  }

  /**
   * The generated configuration has exactly the template's keys; a mapped key takes the
   * plugin's value when it is present, not None and not "", and the template's otherwise.
   */
  lemma GeneratedMapped(plugin: map<string, Value>, i: nat)
    requires GeneratedConfig(plugin).Success? && i < |ConfigMapping|
    ensures var c := GeneratedConfig(plugin).value;
            var dl := SectionFields(Lookup(plugin, "downloader_config"));
            var (pluginKey, configKey) := ConfigMapping[i];
            && c.Keys == DefaultConfig.Keys
            && configKey in DefaultConfig
            && c[configKey] == (if Overrides(dl, pluginKey) then dl[pluginKey] else DefaultConfig[configKey])
  {
    MappingWellFormed();
    PortsInTemplate();
    var dl := SectionFields(Lookup(plugin, "downloader_config"));
    MappedKeys(DefaultConfig, ConfigMapping, dl, |ConfigMapping|);
    MappedSpec(DefaultConfig, ConfigMapping, dl, |ConfigMapping|, ConfigMapping[i].1);
  }

  /** A template key no setting maps to keeps its template value. */
  lemma GeneratedUnmapped(plugin: map<string, Value>, k: string)
    requires GeneratedConfig(plugin).Success? && k in DefaultConfig && k != "decrypt-m3u8-port" && k != "get-m3u8-port"
    requires forall i :: 0 <= i < |ConfigMapping| ==> ConfigMapping[i].1 != k
    ensures k in GeneratedConfig(plugin).value && GeneratedConfig(plugin).value[k] == DefaultConfig[k]
  {
    MappingWellFormed();
    MappedSpec(DefaultConfig, ConfigMapping, SectionFields(Lookup(plugin, "downloader_config")), |ConfigMapping|, k);
  }

  /** The two port entries are always "127.0.0.1:" and the port, 10020 and 20020 by default. */
  lemma GeneratedPorts(plugin: map<string, Value>)
    requires GeneratedConfig(plugin).Success?
    ensures var c := GeneratedConfig(plugin).value;
            var ports := Lookup(plugin, "wrapper_ports").fields;
            && c["decrypt-m3u8-port"] == JStr("127.0.0.1:" + Render(Config.Lookup(ports, "decrypt_port", JInt(10020))))
            && c["get-m3u8-port"] == JStr("127.0.0.1:" + Render(Config.Lookup(ports, "m3u8_port", JInt(20020))))
            && ("decrypt_port" !in ports ==> c["decrypt-m3u8-port"] == JStr("127.0.0.1:10020"))
            && ("m3u8_port" !in ports ==> c["get-m3u8-port"] == JStr("127.0.0.1:20020"))
  {
    PortEntries(plugin);
    DefaultPortDigits();
  }

  lemma PortEntries(plugin: map<string, Value>)
    requires GeneratedConfig(plugin).Success?
    ensures var c := GeneratedConfig(plugin).value;
            var ports := Lookup(plugin, "wrapper_ports");
            && ports.JObject?
            && c["decrypt-m3u8-port"] == PortEntry(Config.Lookup(ports.fields, "decrypt_port", JInt(10020)))
            && c["get-m3u8-port"] == PortEntry(Config.Lookup(ports.fields, "m3u8_port", JInt(20020)))
  {
  }

  lemma DefaultPortDigits()
    ensures IntToString(10020) == "10020" && IntToString(20020) == "20020"
  {
    assert NatToString(1) == "1" && NatToString(2) == "2";
    assert NatToString(10) == "10" && NatToString(20) == "20";
    assert NatToString(100) == "100" && NatToString(200) == "200";
    assert NatToString(1002) == "1002" && NatToString(2002) == "2002";
  }

  // ---------------------------------------------------------------- process_config

  /** A YAML node as the dumper sees it: a string may be marked for double quotes. */
  datatype Yaml =
    | YNull
    | YBool(b: bool)
    | YInt(i: int)
    | YStr(s: string)
    | YQuoted(q: string)
    | YList(items: seq<Yaml>)
    | YMap(fields: map<string, Yaml>)

  /** The keys whose string values are always written in double quotes. */
  const ForceQuoteKeys: set<string> := {
    "media-user-token", "authorization-token", "language", "lrc-type", "lrc-format",
    "decrypt-m3u8-port", "get-m3u8-port", "album-folder-format", "playlist-folder-format",
    "song-file-format", "artist-folder-format", "explicit-choice", "clean-choice",
    "apple-master-choice", "storefront", "convert-format", "ffmpeg-path", "convert-extra-args"}

  /**
   * `process_config`: in every dict, a string under a forced key is marked for quoting and
   * any other value is processed in turn; list items are processed; scalars stay.
   */
  function ProcessConfig(v: Value): Yaml
    decreases v
  {
    match v
    case JNull => YNull
    case JBool(b) => YBool(b)
    case JInt(i) => YInt(i)
    case JStr(s) => YStr(s)
    case JList(items) => YList(seq(|items|, i requires 0 <= i < |items| => ProcessConfig(items[i])))
    case JObject(fields) =>
      YMap(map k | k in fields :: if k in ForceQuoteKeys && fields[k].JStr? then YQuoted(fields[k].s) else ProcessConfig(fields[k]))
  }

  /** The value a node writes, quoting aside. */
  function Unquote(y: Yaml): Value
  {
    match y
    case YNull => JNull
    case YBool(b) => JBool(b)
    case YInt(i) => JInt(i)
    case YStr(s) => JStr(s)
    case YQuoted(q) => JStr(q)
    case YList(items) => JList(seq(|items|, i requires 0 <= i < |items| => Unquote(items[i])))
    case YMap(fields) => JObject(map k | k in fields :: Unquote(fields[k]))
  }

  /** Quoting changes how values are written, never what they are. */
  lemma {:induction false} ProcessConfigKeepsValues(v: Value)
    ensures Unquote(ProcessConfig(v)) == v
    decreases v
  {
    match v
    case JList(items) =>
      var p := ProcessConfig(v).items;
      forall i | 0 <= i < |items|
        ensures Unquote(p[i]) == items[i]
      {
        ProcessConfigKeepsValues(items[i]);
      }
    case JObject(fields) =>
      var p := ProcessConfig(v).fields;
      forall k | k in fields
        ensures Unquote(p[k]) == fields[k]
      {
        if !(k in ForceQuoteKeys && fields[k].JStr?) {
          ProcessConfigKeepsValues(fields[k]);
        }
      }
    case _ =>
  }

  /** Only strings directly under a forced key are quoted, at any depth. */
  predicate QuotedOnlyAtForcedKeys(y: Yaml)
  {
    match y
    case YQuoted(_) => false
    case YList(items) => forall i :: 0 <= i < |items| ==> QuotedOnlyAtForcedKeys(items[i])
    case YMap(fields) => forall k :: k in fields ==> if fields[k].YQuoted? then k in ForceQuoteKeys else QuotedOnlyAtForcedKeys(fields[k])
    case _ => true
  }

  /** A string is quoted only directly under a forced key; at the top level of a dict, exactly then. */
  lemma {:induction false} ProcessConfigQuotes(v: Value)
    ensures QuotedOnlyAtForcedKeys(ProcessConfig(v))
    ensures v.JObject? ==> forall k :: k in v.fields ==>
              (ProcessConfig(v).fields[k].YQuoted? <==> k in ForceQuoteKeys && v.fields[k].JStr?)
    decreases v
  {
    match v
    case JList(items) =>
      forall i | 0 <= i < |items|
        ensures QuotedOnlyAtForcedKeys(ProcessConfig(items[i]))
      {
        ProcessConfigQuotes(items[i]);
      }
    case JObject(fields) =>
      forall k | k in fields
        ensures QuotedOnlyAtForcedKeys(ProcessConfig(fields[k]))
      {
        ProcessConfigQuotes(fields[k]);
      }
    case _ =>
  }

  // ---------------------------------------------------------------- _sync_config

  /**
   * The merge of `_sync_config`: the generated configuration, plus each key of an existing
   * dict file that it lacks. `existing` is None when the file is missing or unreadable; a
   * file that does not hold a dict adds nothing.
   */
  method SyncConfig(generated: map<string, Value>, existing: Option<Value>) returns (merged: map<string, Value>)
    ensures existing.Some? && existing.value.JObject? ==> merged == existing.value.fields + generated
    ensures !(existing.Some? && existing.value.JObject?) ==> merged == generated
  {
    merged := generated;
    if existing.None? || !existing.value.JObject? {
      return;
    }
    var old_ := existing.value.fields;
    var todo := old_.Keys;
    while todo != {}
      invariant todo <= old_.Keys
      invariant merged == (old_ - todo) + generated
      decreases todo
    {
      var key :| key in todo;
      if key !in merged {
        merged := merged[key := old_[key]];
      }
      todo := todo - {key};
      assert merged == (old_ - todo) + generated;
    }
    assert old_ - todo == old_;
  }

  /** The merge keeps every generated value and only adds keys the generated configuration lacks. */
  lemma SyncKeepsGenerated(generated: map<string, Value>, existing: map<string, Value>, k: string)
    ensures var merged := existing + generated;
            && (k in generated ==> merged[k] == generated[k])
            && (k in merged && k !in generated ==> k in existing && merged[k] == existing[k])
            && merged.Keys == existing.Keys + generated.Keys
  {
  }

  // ---------------------------------------------------------------- the download cache

  /** One cache entry: when it was stamped, the files, the cover. */
  datatype CacheEntry = CacheEntry(ts: Option<real>, files: seq<string>, cover: Option<string>)

  /** How long a cache entry lives: seven days, in seconds. */
  const CacheTtl: real := (7 * 24 * 3600) as real

  /** `_cache_key`: the URL, the quality value and 1 or 0 for a single song, joined by "||". */
  function CacheKey(url: string, quality: DownloadQuality, singleSong: bool): string
  {
    url + "||" + QualityValue(quality) + "||" + (if singleSong then "1" else "0")
  }

  /** Different requests never share a cache key. */
  lemma CacheKeyInjective(u1: string, q1: DownloadQuality, s1: bool, u2: string, q2: DownloadQuality, s2: bool)
    requires CacheKey(u1, q1, s1) == CacheKey(u2, q2, s2)
    ensures u1 == u2 && q1 == q2 && s1 == s2
  {
    var k := CacheKey(u1, q1, s1);
    var n := |k|;
    assert k[n - 1] == (if s1 then '1' else '0') == (if s2 then '1' else '0');
    var v1, v2 := QualityValue(q1), QualityValue(q2);
    assert k == (u1 + "||" + v1) + "||" + [k[n - 1]];
    assert k == (u2 + "||" + v2) + "||" + [k[n - 1]];
    var p := k[..n - 3];
    assert p == u1 + "||" + v1 == u2 + "||" + v2;
    var m := |p|;
    assert p[m - 1] == v1[|v1| - 1] == v2[|v2| - 1];
    assert p[m - 3] == v1[|v1| - 3] == v2[|v2| - 3];
    assert q1 == q2;
    assert p[..m - |v1| - 2] == u1 == u2;
  }

  /** An entry as `_load_cache` keeps it: stamped now when it had no time. */
  function Stamp(e: CacheEntry, now: real): CacheEntry
  {
    if e.ts.None? then e.(ts := Some(now)) else e
  }

  /** An entry older than the time to live. */
  predicate Expired(e: CacheEntry, now: real, ttl: real)
  {
    e.ts.Some? && now - e.ts.value > ttl
  }

  /** The cache `_load_cache` returns: unexpired entries, stamped. */
  function Pruned(cache: map<string, CacheEntry>, now: real, ttl: real): map<string, CacheEntry>
  {
    map k | k in cache && !Expired(cache[k], now, ttl) :: Stamp(cache[k], now)
  }

  /** Whether `_load_cache` rewrites the file: some entry was stamped or dropped. */
  predicate Changed(cache: map<string, CacheEntry>, now: real, ttl: real)
  {
    exists k :: k in cache && (cache[k].ts.None? || Expired(cache[k], now, ttl))
  }

  /** The pruning over the keys in `done`. */
  function PrunedOn(cache: map<string, CacheEntry>, now: real, ttl: real, done: set<string>): map<string, CacheEntry>
  {
    map k | k in cache && k in done && !Expired(cache[k], now, ttl) :: Stamp(cache[k], now)
  }

  /**
   * `_load_cache`: the stored cache (None when the file is missing or unreadable) pruned,
   * and whether it has to be saved back.
   */
  method LoadCache(stored: Option<map<string, CacheEntry>>, now: real, ttl: real) returns (pruned: map<string, CacheEntry>, save: bool)
    ensures pruned == Pruned(stored.GetOr(map[]), now, ttl)
    ensures save <==> Changed(stored.GetOr(map[]), now, ttl)
  {
    var cache := stored.GetOr(map[]);
    var changed := false;
    pruned := map[];
    var todo := cache.Keys;
    while todo != {}
      invariant todo <= cache.Keys
      invariant pruned == PrunedOn(cache, now, ttl, cache.Keys - todo)
      invariant changed <==> exists k :: k in cache && k !in todo && (cache[k].ts.None? || Expired(cache[k], now, ttl))
      decreases todo
    {
      var key :| key in todo;
      var entry := cache[key];
      ghost var done := cache.Keys - todo;
      todo := todo - {key};
      assert cache.Keys - todo == done + {key};
      if entry.ts.None? {
        entry := entry.(ts := Some(now));
        changed := true;
      } else if now - entry.ts.value > ttl {
        changed := true;
        assert PrunedOn(cache, now, ttl, done + {key}) == pruned;
        continue;
      }
      pruned := pruned[key := entry];
      assert PrunedOn(cache, now, ttl, done + {key}) == pruned;
    }
    assert cache.Keys - todo == cache.Keys;
    assert PrunedOn(cache, now, ttl, cache.Keys) == Pruned(cache, now, ttl);
    save := changed;
  }

  /** Every kept entry is stamped and unexpired, and keeps its files and cover. */
  lemma PrunedFresh(cache: map<string, CacheEntry>, now: real, ttl: real, k: string)
    requires ttl >= 0.0
    ensures k in Pruned(cache, now, ttl) <==> k in cache && !Expired(cache[k], now, ttl)
    ensures k in Pruned(cache, now, ttl) ==>
              var e := Pruned(cache, now, ttl)[k];
              e.ts.Some? && now - e.ts.value <= ttl && e.files == cache[k].files && e.cover == cache[k].cover
    ensures k in Pruned(cache, now, ttl) && cache[k].ts.None? ==> Pruned(cache, now, ttl)[k].ts == Some(now)
  {
  }

  /** Loading a freshly pruned cache at the same time changes nothing and saves nothing. */
  lemma PrunedStable(cache: map<string, CacheEntry>, now: real, ttl: real)
    requires ttl >= 0.0
    ensures Pruned(Pruned(cache, now, ttl), now, ttl) == Pruned(cache, now, ttl)
    ensures !Changed(Pruned(cache, now, ttl), now, ttl)
  {
    var p := Pruned(cache, now, ttl);
    forall k | k in p
      ensures !Expired(p[k], now, ttl) && p[k].ts.Some? && Stamp(p[k], now) == p[k]
    {
      PrunedFresh(cache, now, ttl, k);
    }
  }

  /** The message of a download served from the cache. */
  const ReuseMessage := "使用已存在的下载文件"

  /**
   * `_get_cached_download` on the loaded cache, with `exists` standing for the file
   * system: a hit needs an entry whose files all exist and are not none; an entry with a
   * missing file is dropped from the cache. Returns the hit and the cache to keep.
   */
  function CachedDownload(cache: map<string, CacheEntry>, key: string, exists_: string -> bool): (r: (Option<DownloadResult>, map<string, CacheEntry>))
    ensures r.0.Some? <==> key in cache && cache[key].files != [] && forall i :: 0 <= i < |cache[key].files| ==> exists_(cache[key].files[i])
    ensures r.0.Some? ==> r.0.value.success && r.0.value.filePaths == cache[key].files && r.0.value.message == ReuseMessage
    ensures r.0.Some? ==> var cover := cache[key].cover;
              r.0.value.coverPath == (if cover.Some? && cover.value != "" && !exists_(cover.value) then None else cover)
    ensures key in cache && (exists i :: 0 <= i < |cache[key].files| && !exists_(cache[key].files[i])) ==> r.1 == cache - {key}
    ensures !(key in cache && exists i :: 0 <= i < |cache[key].files| && !exists_(cache[key].files[i])) ==> r.1 == cache
  {
    if key !in cache then (None, cache)
    else
      var entry := cache[key];
      var cover := if entry.cover.Some? && entry.cover.value != "" && !exists_(entry.cover.value) then None else entry.cover;
      if exists i :: 0 <= i < |entry.files| && !exists_(entry.files[i]) then (None, cache - {key})
      else if entry.files != [] then (Some(DownloadResult(true, ReuseMessage, entry.files, cover, None)), cache)
      else (None, cache)
  }

  /** `_record_download_cache` on the loaded cache: the request's entry, stamped `now`. */
  function RecordDownload(cache: map<string, CacheEntry>, url: string, quality: DownloadQuality, singleSong: bool,
                          files: seq<string>, cover: Option<string>, now: real): map<string, CacheEntry>
  {
    cache[CacheKey(url, quality, singleSong) := CacheEntry(Some(now), files, cover)]
  }

  /**
   * A recorded download whose files still exist is reused by the same request loaded
   * again within the time to live.
   */
  lemma RecordThenReuse(cache: map<string, CacheEntry>, url: string, quality: DownloadQuality, singleSong: bool,
                        files: seq<string>, cover: Option<string>, now: real, later: real, ttl: real, exists_: string -> bool)
    requires files != [] && forall i :: 0 <= i < |files| ==> exists_(files[i])
    requires ttl >= 0.0 && later - now <= ttl
    ensures var loaded := Pruned(RecordDownload(cache, url, quality, singleSong, files, cover, now), later, ttl);
            var hit := CachedDownload(loaded, CacheKey(url, quality, singleSong), exists_);
            && hit.0 == Some(DownloadResult(true, ReuseMessage, files,
                                            if cover.Some? && cover.value != "" && !exists_(cover.value) then None else cover, None))
            && hit.1 == loaded
  {
    var key := CacheKey(url, quality, singleSong);
    var loaded := Pruned(RecordDownload(cache, url, quality, singleSong, files, cover, now), later, ttl);
    assert key in loaded && loaded[key] == CacheEntry(Some(now), files, cover);
  }

  /** Recording one request leaves every other request's entry as it was. */
  lemma RecordKeepsOthers(cache: map<string, CacheEntry>, url: string, quality: DownloadQuality, singleSong: bool,
                          files: seq<string>, cover: Option<string>, now: real,
                          url2: string, quality2: DownloadQuality, singleSong2: bool)
    requires (url2, quality2, singleSong2) != (url, quality, singleSong)
    ensures var key2 := CacheKey(url2, quality2, singleSong2);
            var r := RecordDownload(cache, url, quality, singleSong, files, cover, now);
            (key2 in r <==> key2 in cache) && (key2 in cache ==> r[key2] == cache[key2])
  {
    if CacheKey(url2, quality2, singleSong2) == CacheKey(url, quality, singleSong) {
      CacheKeyInjective(url2, quality2, singleSong2, url, quality, singleSong);
    }
  }

  // ---------------------------------------------------------------- download directories

  /** The directory of each quality (`get_save_paths`). */
  datatype SavePaths = SavePaths(alac: Config.PathV, aac: Config.PathV, atmos: Config.PathV)

  /** The directories in the dict's order. */
  function Values(p: SavePaths): seq<Config.PathV>
  {
    [p.alac, p.aac, p.atmos]
  }

  /** The directory of one quality. */
  function PathFor(p: SavePaths, q: DownloadQuality): Config.PathV
  {
    match q
    case Alac => p.alac
    case Aac => p.aac
    case Atmos => p.atmos
  }

  /** `_resolve_save_path`: an absolute folder as is, a relative one under the downloader directory. */
  function SavePath(downloaderPath: Config.PathV, folder: string): (p: Config.PathV)
    ensures StartsWith(folder, "/") ==> p == Config.PathOf(folder)
    ensures !StartsWith(folder, "/") ==> p.absolute == downloaderPath.absolute && p.parts == downloaderPath.parts + Config.PathOf(folder).parts
  {
    if StartsWith(folder, "/") then Config.PathOf(folder) else Config.JoinPath(downloaderPath, Config.PathOf(folder))
  }

  /**
   * `_load_downloader_config`: the file's dict when it holds one (an empty file counts
   * as `{}`), the generated configuration otherwise. `file` is None when the file is
   * missing or unreadable.
   */
  function DownloaderConfig(file: Option<Value>, plugin: map<string, Value>): (r: Result<map<string, Value>>)
    ensures file.Some? && file.value.JObject? ==> r == Success(file.value.fields)
    ensures file.Some? && !Truthy(file.value) ==> r == Success(map[])
    ensures (file.None? || (Truthy(file.value) && !file.value.JObject?)) ==> r == GeneratedConfig(plugin)
  {
    if file.Some? && !Truthy(file.value) then Success(map[])
    else if file.Some? && file.value.JObject? then Success(file.value.fields)
    else GeneratedConfig(plugin)
  }

  /** `get_save_paths`: each quality's folder setting, or the template's, resolved. */
  function SavePathsOf(config: map<string, Value>, downloaderPath: Config.PathV): SavePaths
  {
    SavePaths(
      FolderPath(config, downloaderPath, "alac-save-folder", "AM-DL downloads"),
      FolderPath(config, downloaderPath, "aac-save-folder", "AM-DL-AAC downloads"),
      FolderPath(config, downloaderPath, "atmos-save-folder", "AM-DL-Atmos downloads"))
  }

  /** One quality's folder: `str` of its setting, or of the template's value, resolved. */
  function FolderPath(config: map<string, Value>, downloaderPath: Config.PathV, key: string, default: string): Config.PathV
  {
    SavePath(downloaderPath, Render(Config.Lookup(config, key, JStr(default))))
  }

  /**
   * A missing folder setting whose template value is a name without `/` resolves to that one
   * directory under the downloader directory.
   */
  lemma FolderUnder(config: map<string, Value>, downloaderPath: Config.PathV, key: string, name: string)
    requires key !in config && name != "" && name != "." && '/' !in name
    ensures FolderPath(config, downloaderPath, key, name) == Config.PathV(downloaderPath.absolute, downloaderPath.parts + [name])
  {
    SplitNoSep(name, "", '/');
    assert !StartsWith(name, "/") by {
      assert name[..1][0] == name[0] != '/';
    }
    assert [name][1..] == [];
    assert Config.Proper([name]) == [name];
  }

  /**
   * Without folder settings the qualities get the template's folders: three different
   * directories directly under the downloader directory.
   */
  lemma SavePathsDefault(config: map<string, Value>, downloaderPath: Config.PathV)
    requires "alac-save-folder" !in config && "aac-save-folder" !in config && "atmos-save-folder" !in config
    ensures var r := SavePathsOf(config, downloaderPath);
            && r.alac == Config.PathV(downloaderPath.absolute, downloaderPath.parts + ["AM-DL downloads"])
            && r.aac == Config.PathV(downloaderPath.absolute, downloaderPath.parts + ["AM-DL-AAC downloads"])
            && r.atmos == Config.PathV(downloaderPath.absolute, downloaderPath.parts + ["AM-DL-Atmos downloads"])
            && r.alac != r.aac && r.aac != r.atmos && r.alac != r.atmos
  {
    var p := downloaderPath.parts;
    TemplateFolderUnder(config, downloaderPath, "alac-save-folder", "AM-DL downloads");
    TemplateFolderUnder(config, downloaderPath, "aac-save-folder", "AM-DL-AAC downloads");
    TemplateFolderUnder(config, downloaderPath, "atmos-save-folder", "AM-DL-Atmos downloads");
    ChildrenDiffer(p, "AM-DL downloads", "AM-DL-AAC downloads");
    ChildrenDiffer(p, "AM-DL-AAC downloads", "AM-DL-Atmos downloads");
    ChildrenDiffer(p, "AM-DL downloads", "AM-DL-Atmos downloads");
  }

  /** The three template folders are plain names, each resolving under the downloader directory. */
  lemma TemplateFolderUnder(config: map<string, Value>, downloaderPath: Config.PathV, key: string, name: string)
    requires key !in config
    requires name == "AM-DL downloads" || name == "AM-DL-AAC downloads" || name == "AM-DL-Atmos downloads"
    ensures FolderPath(config, downloaderPath, key, name) == Config.PathV(downloaderPath.absolute, downloaderPath.parts + [name])
  {
    assert name != "" && name != "." && '/' !in name;
    FolderUnder(config, downloaderPath, key, name);
  }

  lemma ChildrenDiffer(p: seq<string>, x: string, y: string)
    requires x != y
    ensures p + [x] != p + [y]
  {
    assert (p + [x])[|p|] == x && (p + [y])[|p|] == y;
  }

  /** The paths already resolved. */
  function Resolved(paths: seq<Config.PathV>, resolve: Config.PathV -> Config.PathV): set<Config.PathV>
  {
    set i | 0 <= i < |paths| :: resolve(paths[i])
  }

  /** The first `n` paths, leaving out each one that resolves like an earlier one. */
  function FirstDistinct(paths: seq<Config.PathV>, resolve: Config.PathV -> Config.PathV, n: nat): seq<Config.PathV>
    requires n <= |paths|
  {
    if n == 0 then []
    else
      var d := FirstDistinct(paths, resolve, n - 1);
      if resolve(paths[n - 1]) in Resolved(d, resolve) then d else d + [paths[n - 1]]
  }

  /** Keeping one more path adds its directory to the resolved ones. */
  lemma ResolvedAppend(d: seq<Config.PathV>, p: Config.PathV, resolve: Config.PathV -> Config.PathV)
    ensures Resolved(d + [p], resolve) == Resolved(d, resolve) + {resolve(p)}
  {
    var e := d + [p];
    forall x | x in Resolved(d, resolve)
      ensures x in Resolved(e, resolve)
    {
      var j :| 0 <= j < |d| && resolve(d[j]) == x;
      assert e[j] == d[j];
    }
    assert e[|d|] == p;
  }

  /** The kept paths resolve to pairwise different directories and are among the paths given, the first one first. */
  lemma {:induction false} FirstDistinctSpec(paths: seq<Config.PathV>, resolve: Config.PathV -> Config.PathV, n: nat)
    requires n <= |paths|
    ensures var d := FirstDistinct(paths, resolve, n);
            && (forall i, j :: 0 <= i < j < |d| ==> resolve(d[i]) != resolve(d[j]))
            && (forall i :: 0 <= i < |d| ==> d[i] in paths[..n])
            && (n > 0 ==> d != [] && d[0] == paths[0])
  {
    if n > 0 {
      FirstDistinctSpec(paths, resolve, n - 1);
      assert paths[..n] == paths[..n - 1] + [paths[n - 1]];
    }
  }

  /** Every path given resolves like a kept one. */
  lemma {:induction false} FirstDistinctCovers(paths: seq<Config.PathV>, resolve: Config.PathV -> Config.PathV, n: nat)
    requires n <= |paths|
    ensures forall i :: 0 <= i < n ==> resolve(paths[i]) in Resolved(FirstDistinct(paths, resolve, n), resolve)
  {
    if n > 0 {
      FirstDistinctCovers(paths, resolve, n - 1);
      var d := FirstDistinct(paths, resolve, n - 1);
      if resolve(paths[n - 1]) !in Resolved(d, resolve) {
        ResolvedAppend(d, paths[n - 1], resolve);
      }
    }
  }

  /**
   * `get_download_dirs`: the given quality's directory alone, or every directory,
   * skipping one that resolves like an earlier one.
   */
  method DownloadDirs(savePaths: SavePaths, quality: Option<DownloadQuality>, resolve: Config.PathV -> Config.PathV)
    returns (dirs: seq<Config.PathV>)
    ensures quality.Some? ==> dirs == [PathFor(savePaths, quality.value)]
    ensures quality.None? ==> dirs == FirstDistinct(Values(savePaths), resolve, 3)
  {
    if quality.Some? {
      return [PathFor(savePaths, quality.value)];
    }
    var paths := Values(savePaths);
    var seen: set<Config.PathV> := {};
    dirs := [];
    var i := 0;
    while i < |paths|
      invariant 0 <= i <= |paths|
      invariant dirs == FirstDistinct(paths, resolve, i)
      invariant seen == Resolved(dirs, resolve)
    {
      var resolved := resolve(paths[i]);
      if resolved in seen {
        i := i + 1;
        continue;
      }
      ResolvedAppend(dirs, paths[i], resolve);
      seen := seen + {resolved};
      dirs := dirs + [paths[i]];
      i := i + 1;
    }
  }
}
