/**
 * The plugin configuration: the records built from the host's configuration dictionary,
 * the comma-separated list settings, and where downloads go on disk.
 */
module Config {
  import opened Wrappers
  import opened Text
  import opened Json

  // ---------------------------------------------------------------- records

  /**
   * The configuration records. A field holds whatever value the host's dictionary held
   * (nothing checks its type); the comma-list settings hold the parsed items.
   */
  datatype WrapperConfig = WrapperConfig(url: Value, secure: Value)

  datatype QueueConfig = QueueConfig(
    maxQueueSize: Value, taskTimeout: Value, queueTimeout: Value, notifyProgress: Value,
    notifyQueuePosition: Value, allowCancel: Value, maxTasksPerUser: Value)

  datatype RegionConfig = RegionConfig(storefront: Value, language: Value, languageWarning: Value)

  datatype DownloadConfig = DownloadConfig(
    defaultQuality: Value, codecPriority: seq<string>, codecAlternative: Value, maxSampleRate: Value,
    maxBitDepth: Value, atmosConvertToM4a: Value, saveLyrics: Value, lyricsFormat: Value,
    lyricsExtra: seq<string>, saveCover: Value, coverFormat: Value, coverSize: Value,
    convertAfterDownload: Value, convertFormat: Value, convertKeepOriginal: Value,
    decryptTimeoutSeconds: Value)

  datatype MetadataConfig = MetadataConfig(embedMetadata: seq<string>)

  datatype PathConfig = PathConfig(
    downloadDir: Value, songNameFormat: Value, dirPathFormat: Value, playlistDirFormat: Value,
    playlistSongFormat: Value)

  datatype FileConfig = FileConfig(
    maxFileSizeMb: Value, sendCover: Value, cleanupIntervalHours: Value, fileTtlHours: Value)

  datatype PluginConfig = PluginConfig(
    wrapper: WrapperConfig, queue: QueueConfig, region: RegionConfig, download: DownloadConfig,
    metadata: MetadataConfig, path: PathConfig, file: FileConfig, debugMode: Value,
    pluginDir: Option<PathV>)

  /** The metadata fields embedded by default, in order. */
  const DefaultEmbed: seq<string> := [
    "title", "artist", "album", "album_artist", "composer", "album_created",
    "genre", "created", "track", "tracknum", "disk", "lyrics", "cover",
    "copyright", "record_company", "upc", "isrc", "rtng"]

  /** The record defaults (`PluginConfig()`). */
  function DefaultPluginConfig(): PluginConfig
  {
    PluginConfig(
      WrapperConfig(JStr("127.0.0.1:18923"), JBool(false)),
      QueueConfig(JInt(10), JInt(300), JInt(600), JBool(true), JBool(true), JBool(true), JInt(2)),
      RegionConfig(JStr("cn"), JStr("zh-Hans-CN"), JBool(true)),
      DownloadConfig(
        JStr("alac"), ["alac", "aac"], JBool(true), JInt(192000), JInt(24), JBool(true), JBool(true),
        JStr("lrc"), ["translation", "pronunciation"], JBool(true), JStr("jpg"), JStr("5000x5000"),
        JBool(true), JStr("flac"), JBool(false), JInt(600)),
      MetadataConfig(DefaultEmbed),
      PathConfig(
        JStr("plugin_data/astrbot_plugin_applemusicdownloader/downloads"),
        JStr("{disk}-{tracknum:02d} {title}"), JStr("{album_artist}/{album}"),
        JStr("playlists/{playlistName}"), JStr("{playlistSongIndex:02d}. {artist} - {title}")),
      FileConfig(JInt(200), JBool(true), JInt(1), JInt(24)),
      JBool(false),
      None)
  }

  // ---------------------------------------------------------------- dictionary access

  /** `d.get(key, default)`. */
  function Lookup(d: map<string, Value>, key: string, default: Value): Value
  {
    if key in d then d[key] else default
  }

  /** The exception of calling `.get` on a section that is not a dict. */
  const NoGet := "AttributeError: section has no attribute 'get'"

  /** The exception of calling `.split` on a list setting that is not a string. */
  const NoSplit := "AttributeError: setting has no attribute 'split'"

  /** A section as `.get` can read it: a missing one is `{}`, one that is not a dict raises. */
  function Section(config: map<string, Value>, key: string): (r: Result<map<string, Value>>)
    ensures key !in config ==> r == Success(map[])
    ensures key in config && config[key].JObject? ==> r == Success(config[key].fields)
    ensures key in config && !config[key].JObject? ==> r.Failure?
  {
    if key !in config then Success(map[])
    else if config[key].JObject? then Success(config[key].fields)
    else Failure(NoGet)
  }

  // ---------------------------------------------------------------- comma lists

  /** The trimmed, non-empty items of the pieces (`[c.strip() for c in pieces if c.strip()]`). */
  function Items(pieces: seq<string>): seq<string>
  {
    if pieces == [] then []
    else (if Strip(pieces[0]) != "" then [Strip(pieces[0])] else []) + Items(pieces[1..])
  }

  /** A comma-separated setting: split on ",", trimmed, empty items dropped. */
  function CommaList(s: string): seq<string>
  {
    Items(Split(s, ','))
  }

  /** A string that is a list item as is: non-empty, no comma, nothing to trim. */
  predicate CleanItem(x: string)
  {
    x != "" && ',' !in x && !IsSpace(x[0]) && !IsSpace(x[|x| - 1])
  }

  /** Stripping only removes characters. */
  lemma StripKeeps(s: string, c: char)
    requires c in Strip(s)
    ensures c in s
  {
    var l := StripLeft(s);
    assert c in StripRight(l);
    assert StripRight(l) == l[..|StripRight(l)|];
    assert c in l;
    assert l == s[|s| - |l|..];
  }

  /** A string with nothing to trim is its own strip. */
  lemma StripClean(x: string)
    requires x == [] || (!IsSpace(x[0]) && !IsSpace(x[|x| - 1]))
    ensures Strip(x) == x
  {
    assert StripLeft(x) == x;
    assert StripRight(x) == x;
  }

  /** The stripped form of a comma-free piece, when not empty, is clean. */
  lemma StrippedClean(piece: string)
    requires ',' !in piece && Strip(piece) != ""
    ensures CleanItem(Strip(piece))
  {
    if ',' in Strip(piece) {
      StripKeeps(piece, ',');
    }
  }

  /** Every item of a list setting is clean. */
  lemma {:induction false} ItemsClean(pieces: seq<string>, i: nat)
    requires forall k :: 0 <= k < |pieces| ==> ',' !in pieces[k]
    requires i < |Items(pieces)|
    ensures CleanItem(Items(pieces)[i])
  {
    var x := Strip(pieces[0]);
    var head := if x != "" then [x] else [];
    assert Items(pieces) == head + Items(pieces[1..]);
    if i < |head| {
      assert Items(pieces)[i] == x;
      StrippedClean(pieces[0]);
    } else {
      var y := Items(pieces[1..])[i - |head|];
      assert Items(pieces)[i] == y;
      ItemsClean(pieces[1..], i - |head|);
    }
  }

  /** Each item of `CommaList(s)` is clean. */
  lemma CommaListClean(s: string, i: nat)
    requires i < |CommaList(s)|
    ensures CleanItem(CommaList(s)[i])
  {
    ItemsClean(Split(s, ','), i);
  }

  /** An item is in the list exactly when some piece strips to it. */
  lemma {:induction false} ItemsSpec(pieces: seq<string>, x: string)
    ensures x in Items(pieces) <==> x != "" && exists k :: 0 <= k < |pieces| && Strip(pieces[k]) == x
  {
    if pieces != [] {
      var h, tail := Strip(pieces[0]), pieces[1..];
      var head := if h != "" then [h] else [];
      assert Items(pieces) == head + Items(tail);
      assert x in Items(pieces) <==> x in head || x in Items(tail);
      ItemsSpec(tail, x);
      if x != "" && exists k :: 0 <= k < |pieces| && Strip(pieces[k]) == x {
        var k :| 0 <= k < |pieces| && Strip(pieces[k]) == x;
        if k > 0 {
          assert tail[k - 1] == pieces[k];
        }
      }
      if x in Items(tail) {
        var k :| 0 <= k < |tail| && Strip(tail[k]) == x;
        assert pieces[k + 1] == tail[k];
      }
    }
  }

  /** Joining clean items with "," and parsing the result gives them back. */
  lemma {:induction false} CommaListJoin(xs: seq<string>)
    requires forall k :: 0 <= k < |xs| ==> CleanItem(xs[k])
    ensures CommaList(Join(xs, ",")) == xs
  {
    if xs == [] {
      CommaListEmpty();
    } else if |xs| == 1 {
      CommaListSingle(xs[0]);
      assert xs == [xs[0]];
    } else {
      CommaListJoin(xs[1..]);
      CommaListJoinCons(xs);
    }
  }

  lemma CommaListEmpty()
    ensures CommaList(Join([], ",")) == []
  {
    assert Split("", ',') == [""];
    assert Items([""]) == [] + Items([]);
  }

  lemma CommaListSingle(x: string)
    requires CleanItem(x)
    ensures CommaList(Join([x], ",")) == [x]
  {
    SplitNoSep(x, "", ',');
    ItemsCleanCons(x, []);
  }

  /** The step of the round trip: the first item and the parse of the rest. */
  lemma CommaListJoinCons(xs: seq<string>)
    requires |xs| > 1 && CleanItem(xs[0]) && CommaList(Join(xs[1..], ",")) == xs[1..]
    ensures CommaList(Join(xs, ",")) == xs
  {
    JoinSplitCons(xs);
    ItemsCleanCons(xs[0], Split(Join(xs[1..], ","), ','));
    assert [xs[0]] + xs[1..] == xs;
  }

  /** Splitting a joined list on the separator peels off a first part that has no separator. */
  lemma JoinSplitCons(xs: seq<string>)
    requires |xs| > 1 && ',' !in xs[0]
    ensures Split(Join(xs, ","), ',') == [xs[0]] + Split(Join(xs[1..], ","), ',')
  {
    var rest := Join(xs[1..], ",");
    assert Join(xs, ",") == xs[0] + [','] + rest;
    SplitNoSep(xs[0], rest, ',');
  }

  /** A clean piece in front is kept as the first item. */
  lemma ItemsCleanCons(x: string, pieces: seq<string>)
    requires CleanItem(x)
    ensures Items([x] + pieces) == [x] + Items(pieces)
  {
    StripClean(x);
    assert ([x] + pieces)[1..] == pieces;
  }

  // ---------------------------------------------------------------- from_astrbot_config

  /** A section that `.get` can read: missing, or a dict. */
  predicate SectionOk(config: map<string, Value>, key: string)
  {
    key !in config || config[key].JObject?
  }

  /** The dict a readable section holds (`{}` when missing). */
  function Fields(config: map<string, Value>, key: string): map<string, Value>
  {
    if key in config && config[key].JObject? then config[key].fields else map[]
  }

  /** A list setting that `.split` can read: missing, or a string. */
  predicate StringOrAbsent(section: map<string, Value>, key: string)
  {
    key !in section || section[key].JStr?
  }

  /** Every section present is a dict and every list setting present is a string. */
  predicate WellShaped(config: map<string, Value>)
  {
    && SectionOk(config, "queue_config") && SectionOk(config, "region_config")
    && SectionOk(config, "download_config") && SectionOk(config, "metadata_config")
    && SectionOk(config, "path_config") && SectionOk(config, "file_config")
    && StringOrAbsent(Fields(config, "download_config"), "codec_priority")
    && StringOrAbsent(Fields(config, "download_config"), "lyrics_extra")
    && StringOrAbsent(Fields(config, "metadata_config"), "embed_metadata")
  }

  /** The queue section's settings with their defaults. */
  function QueueOf(q: map<string, Value>): QueueConfig
  {
    QueueConfig(
      Lookup(q, "max_queue_size", JInt(10)), Lookup(q, "task_timeout", JInt(300)),
      Lookup(q, "queue_timeout", JInt(600)), Lookup(q, "notify_progress", JBool(true)),
      Lookup(q, "notify_queue_position", JBool(true)), Lookup(q, "allow_cancel", JBool(true)),
      Lookup(q, "max_tasks_per_user", JInt(2)))
  }

  function RegionOf(g: map<string, Value>): RegionConfig
  {
    RegionConfig(Lookup(g, "storefront", JStr("cn")), Lookup(g, "language", JStr("zh-Hans-CN")),
      Lookup(g, "language_warning", JBool(true)))
  }

  function DownloadOf(d: map<string, Value>, codecs: seq<string>, extras: seq<string>): DownloadConfig
  {
    DownloadConfig(
      Lookup(d, "default_quality", JStr("alac")), codecs, Lookup(d, "codec_alternative", JBool(true)),
      Lookup(d, "max_sample_rate", JInt(192000)), Lookup(d, "max_bit_depth", JInt(24)),
      Lookup(d, "atmos_convert_to_m4a", JBool(true)), Lookup(d, "save_lyrics", JBool(true)),
      Lookup(d, "lyrics_format", JStr("lrc")), extras, Lookup(d, "save_cover", JBool(true)),
      Lookup(d, "cover_format", JStr("jpg")), Lookup(d, "cover_size", JStr("5000x5000")),
      Lookup(d, "convert_after_download", JBool(true)), Lookup(d, "convert_format", JStr("flac")),
      Lookup(d, "convert_keep_original", JBool(false)), Lookup(d, "decrypt_timeout_seconds", JInt(600)))
  }

  /** The path section, whose `download_dir` defaults to "downloads" here. */
  function PathOfSection(p: map<string, Value>): PathConfig
  {
    PathConfig(
      Lookup(p, "download_dir", JStr("downloads")),
      Lookup(p, "song_name_format", JStr("{disk}-{tracknum:02d} {title}")),
      Lookup(p, "dir_path_format", JStr("{album_artist}/{album}")),
      Lookup(p, "playlist_dir_format", JStr("playlists/{playlistName}")),
      Lookup(p, "playlist_song_format", JStr("{playlistSongIndex:02d}. {artist} - {title}")))
  }

  function FileOf(f: map<string, Value>): FileConfig
  {
    FileConfig(Lookup(f, "max_file_size_mb", JInt(200)), Lookup(f, "send_cover", JBool(true)),
      Lookup(f, "cleanup_interval_hours", JInt(1)), Lookup(f, "file_ttl_hours", JInt(24)))
  }

  /** The default of `embed_metadata`: the eighteen default field names joined by commas. */
  const DefaultEmbedSetting := Join(DefaultEmbed, ",")

  /** The default of `codec_priority`: "alac" and "aac" joined by a comma. */
  const DefaultCodecSetting := Join(["alac", "aac"], ",")

  /** The default of `lyrics_extra`: "translation" and "pronunciation" joined by a comma. */
  const DefaultLyricsSetting := Join(["translation", "pronunciation"], ",")

  /**
   * The exception `from_astrbot_config` raises on a configuration that is not well
   * shaped: the first unreadable section or list setting, in the order they are read.
   */
  function FirstError(config: map<string, Value>): string
  {
    if !SectionOk(config, "queue_config") || !SectionOk(config, "region_config") || !SectionOk(config, "download_config") then NoGet
    else if !StringOrAbsent(Fields(config, "download_config"), "codec_priority") then NoSplit
    else if !StringOrAbsent(Fields(config, "download_config"), "lyrics_extra") then NoSplit
    else if !SectionOk(config, "metadata_config") then NoGet
    else if !StringOrAbsent(Fields(config, "metadata_config"), "embed_metadata") then NoSplit
    else NoGet
  }

  /** A list setting of a readable section, parsed. */
  function ListSetting(section: map<string, Value>, key: string, default: string): seq<string>
  {
    CommaList(if key in section && section[key].JStr? then section[key].s else default)
  }

  /**
   * `PluginConfig.from_astrbot_config`: every setting is the section's value when present
   * and its literal default otherwise; a section that is not a dict, or a list setting
   * that is not a string, raises.
   */
  function FromAstrbotConfig(config: map<string, Value>, pluginDir: Option<PathV>): (r: Result<PluginConfig>)
    ensures r.Success? <==> WellShaped(config)
    ensures r.Failure? ==> r.error == FirstError(config)
    ensures r.Success? ==> r.value.pluginDir == pluginDir
  {
    if !WellShaped(config) then Failure(FirstError(config))
    else
      var download := Fields(config, "download_config");
      Success(PluginConfig(
        WrapperConfig(Lookup(config, "wrapper_url", JStr("127.0.0.1:18923")), Lookup(config, "wrapper_secure", JBool(false))),
        QueueOf(Fields(config, "queue_config")),
        RegionOf(Fields(config, "region_config")),
        DownloadOf(download, ListSetting(download, "codec_priority", DefaultCodecSetting),
          ListSetting(download, "lyrics_extra", DefaultLyricsSetting)),
        MetadataConfig(ListSetting(Fields(config, "metadata_config"), "embed_metadata", DefaultEmbedSetting)),
        PathOfSection(Fields(config, "path_config")),
        FileOf(Fields(config, "file_config")),
        Lookup(config, "debug_mode", JBool(false)),
        pluginDir))
  }

  /** The default codec setting parses to the record default. */
  lemma DefaultCodecList()
    ensures CommaList(DefaultCodecSetting) == ["alac", "aac"]
  {
    var codecs := ["alac", "aac"];
    assert CleanItem(codecs[0]) && CleanItem(codecs[1]);
    CommaListJoin(codecs);
  }

  /** The default lyrics setting parses to the record default. */
  lemma DefaultLyricsList()
    ensures CommaList(DefaultLyricsSetting) == ["translation", "pronunciation"]
  {
    var extras := ["translation", "pronunciation"];
    assert CleanItem(extras[0]) && CleanItem(extras[1]);
    CommaListJoin(extras);
  }

  /** The default metadata setting parses to the record's default field list. */
  lemma DefaultEmbedList()
    ensures CommaList(DefaultEmbedSetting) == DefaultEmbed
  {
    forall k | 0 <= k < |DefaultEmbed|
      ensures CleanItem(DefaultEmbed[k])
    {
    }
    CommaListJoin(DefaultEmbed);
  }

  /**
   * An empty configuration gives the record defaults except for `download_dir`, which is
   * "downloads" instead of the record's "plugin_data/.../downloads".
   */
  lemma EmptyConfig(pluginDir: Option<PathV>)
    ensures var d := DefaultPluginConfig();
            FromAstrbotConfig(map[], pluginDir) == Success(d.(path := d.path.(downloadDir := JStr("downloads")), pluginDir := pluginDir))
    ensures DefaultPluginConfig().path.downloadDir != JStr("downloads")
  {
    var d := DefaultPluginConfig();
    assert WellShaped(map[]);
    var r := FromAstrbotConfig(map[], pluginDir).value;
    assert r.wrapper == d.wrapper;
    assert r.queue == d.queue;
    assert r.region == d.region;
    assert r.download == d.download by {
      DefaultCodecList();
      DefaultLyricsList();
    }
    assert r.metadata == d.metadata by {
      DefaultEmbedList();
    }
    assert r.path == d.path.(downloadDir := JStr("downloads"));
    assert r.file == d.file;
  }

  /** A missing queue section falls back to 10, 300 and 600 seconds and the other literal defaults. */
  lemma QueueDefaults(config: map<string, Value>, pluginDir: Option<PathV>)
    requires WellShaped(config) && "queue_config" !in config
    ensures FromAstrbotConfig(config, pluginDir).value.queue ==
              QueueConfig(JInt(10), JInt(300), JInt(600), JBool(true), JBool(true), JBool(true), JInt(2))
  {
  }

  /** `section.get(key, default)` gave the setting `v` as is, where the key is present. */
  predicate Given(section: map<string, Value>, key: string, v: Value)
  {
    key in section ==> v == section[key]
  }

  /**
   * Every scalar setting present in its section is taken as is: the top-level keys and each
   * key of the queue, region, download, path and file sections. (The three list settings are
   * parsed instead; see `CodecPriorityGiven`, `LyricsExtraGiven` and `EmbedMetadataGiven`.)
   */
  lemma GivenSettingsKept(config: map<string, Value>, pluginDir: Option<PathV>)
    requires WellShaped(config)
    ensures var c := FromAstrbotConfig(config, pluginDir).value;
            && Given(config, "wrapper_url", c.wrapper.url) && Given(config, "wrapper_secure", c.wrapper.secure)
            && Given(config, "debug_mode", c.debugMode)
    ensures var c := FromAstrbotConfig(config, pluginDir).value.queue; var q := Fields(config, "queue_config");
            && Given(q, "max_queue_size", c.maxQueueSize) && Given(q, "task_timeout", c.taskTimeout)
            && Given(q, "queue_timeout", c.queueTimeout) && Given(q, "notify_progress", c.notifyProgress)
            && Given(q, "notify_queue_position", c.notifyQueuePosition) && Given(q, "allow_cancel", c.allowCancel)
            && Given(q, "max_tasks_per_user", c.maxTasksPerUser)
    ensures var c := FromAstrbotConfig(config, pluginDir).value.region; var g := Fields(config, "region_config");
            && Given(g, "storefront", c.storefront) && Given(g, "language", c.language)
            && Given(g, "language_warning", c.languageWarning)
    ensures var c := FromAstrbotConfig(config, pluginDir).value.download; var d := Fields(config, "download_config");
            && Given(d, "default_quality", c.defaultQuality) && Given(d, "codec_alternative", c.codecAlternative)
            && Given(d, "max_sample_rate", c.maxSampleRate) && Given(d, "max_bit_depth", c.maxBitDepth)
            && Given(d, "atmos_convert_to_m4a", c.atmosConvertToM4a) && Given(d, "save_lyrics", c.saveLyrics)
            && Given(d, "lyrics_format", c.lyricsFormat) && Given(d, "save_cover", c.saveCover)
            && Given(d, "cover_format", c.coverFormat) && Given(d, "cover_size", c.coverSize)
            && Given(d, "convert_after_download", c.convertAfterDownload) && Given(d, "convert_format", c.convertFormat)
            && Given(d, "convert_keep_original", c.convertKeepOriginal)
            && Given(d, "decrypt_timeout_seconds", c.decryptTimeoutSeconds)
    ensures var c := FromAstrbotConfig(config, pluginDir).value.path; var p := Fields(config, "path_config");
            && Given(p, "download_dir", c.downloadDir) && Given(p, "song_name_format", c.songNameFormat)
            && Given(p, "dir_path_format", c.dirPathFormat) && Given(p, "playlist_dir_format", c.playlistDirFormat)
            && Given(p, "playlist_song_format", c.playlistSongFormat)
    ensures var c := FromAstrbotConfig(config, pluginDir).value.file; var f := Fields(config, "file_config");
            && Given(f, "max_file_size_mb", c.maxFileSizeMb) && Given(f, "send_cover", c.sendCover)
            && Given(f, "cleanup_interval_hours", c.cleanupIntervalHours) && Given(f, "file_ttl_hours", c.fileTtlHours)
  {
  }

  /** A codec priority given as a string is that string, parsed. */
  lemma CodecPriorityGiven(config: map<string, Value>, pluginDir: Option<PathV>, setting: string)
    requires WellShaped(config) && "download_config" in config
    requires Get(config["download_config"].fields, "codec_priority") == JStr(setting)
    ensures FromAstrbotConfig(config, pluginDir).value.download.codecPriority == CommaList(setting)
  {
  }

  /** Lyrics extras given as a string are that string, parsed. */
  lemma LyricsExtraGiven(config: map<string, Value>, pluginDir: Option<PathV>, setting: string)
    requires WellShaped(config) && "download_config" in config
    requires Get(config["download_config"].fields, "lyrics_extra") == JStr(setting)
    ensures FromAstrbotConfig(config, pluginDir).value.download.lyricsExtra == CommaList(setting)
  {
  }

  /** Embedded metadata fields given as a string are that string, parsed. */
  lemma EmbedMetadataGiven(config: map<string, Value>, pluginDir: Option<PathV>, setting: string)
    requires WellShaped(config) && "metadata_config" in config
    requires Get(config["metadata_config"].fields, "embed_metadata") == JStr(setting)
    ensures FromAstrbotConfig(config, pluginDir).value.metadata.embedMetadata == CommaList(setting)
  {
  }

  // ---------------------------------------------------------------- paths

  /** A POSIX path: whether it is rooted, and its parts below the root. */
  datatype PathV = PathV(absolute: bool, parts: seq<string>)

  /** `Path(s)`: parts are split on "/", empty and "." parts dropped. */
  function PathOf(s: string): (p: PathV)
    ensures p.absolute <==> StartsWith(s, "/")
    ensures forall i :: 0 <= i < |p.parts| ==> p.parts[i] != "" && p.parts[i] != "." && '/' !in p.parts[i]
  {
    PathV(StartsWith(s, "/"), Proper(Split(s, '/')))
  }

  /** The parts that name something. */
  function Proper(pieces: seq<string>): (r: seq<string>)
    requires forall i :: 0 <= i < |pieces| ==> '/' !in pieces[i]
    ensures forall i :: 0 <= i < |r| ==> r[i] != "" && r[i] != "." && '/' !in r[i]
  {
    if pieces == [] then []
    else (if pieces[0] != "" && pieces[0] != "." then [pieces[0]] else []) + Proper(pieces[1..])
  }

  /** `a / b`: an absolute `b` replaces `a`. */
  function JoinPath(a: PathV, b: PathV): (r: PathV)
    ensures b.absolute ==> r == b
    ensures !b.absolute ==> r.absolute == a.absolute && r.parts == a.parts + b.parts
  {
    if b.absolute then b else PathV(a.absolute, a.parts + b.parts)
  }

  /** `p.name`: the last part, or "" for the root or the empty path. */
  function Name(p: PathV): string
  {
    if p.parts == [] then "" else p.parts[|p.parts| - 1]
  }

  /** `p.parent`: the path without its last part; the root and the empty path are their own parents. */
  function Parent(p: PathV): (r: PathV)
    ensures r.absolute == p.absolute
    ensures p.parts != [] ==> r.parts + [Name(p)] == p.parts
  {
    if p.parts == [] then p else PathV(p.absolute, p.parts[..|p.parts| - 1])
  }

  /** The name `_resolve_plugin_name` falls back to. */
  const DefaultPluginName := "astrbot_plugin_applemusicdownloader"

  /** `_resolve_plugin_name`: the plugin directory's name, or the fixed default. */
  function PluginName(pluginDir: Option<PathV>): (name: string)
    ensures pluginDir.Some? ==> name == Name(pluginDir.value)
    ensures pluginDir.None? ==> name == DefaultPluginName
  {
    if pluginDir.Some? then Name(pluginDir.value) else DefaultPluginName
  }

  /**
   * `_resolve_astrbot_data_dir`: the host's data directory when its helper can be
   * imported (`hostDataDir`), otherwise the grandparent of the plugin directory when the
   * parent is named "plugins" and the grandparent "data".
   */
  function AstrbotDataDir(pluginDir: Option<PathV>, hostDataDir: Option<PathV>): (r: Option<PathV>)
    ensures hostDataDir.Some? ==> r == hostDataDir
    ensures hostDataDir.None? ==>
              (r.Some? <==> pluginDir.Some? && Name(Parent(pluginDir.value)) == "plugins" && Name(Parent(Parent(pluginDir.value))) == "data")
    ensures hostDataDir.None? && r.Some? ==> r.value == Parent(Parent(pluginDir.value))
  {
    if hostDataDir.Some? then hostDataDir
    else if pluginDir.None? then None
    else
      var pluginsDir := Parent(pluginDir.value);
      if Name(pluginsDir) != "plugins" then None
      else
        var dataDir := Parent(pluginsDir);
        if Name(dataDir) != "data" then None
        else Some(dataDir)
  }

  /** `_resolve_plugin_data_dir`: `<data>/plugin_data/<plugin name>`, when a data directory is known. */
  function PluginDataDir(dataDir: Option<PathV>, pluginDir: Option<PathV>): (r: Option<PathV>)
    ensures r.Some? <==> dataDir.Some?
    ensures r.Some? ==> r.value == JoinPath(JoinPath(dataDir.value, PathOf("plugin_data")), PathOf(PluginName(pluginDir)))
  {
    if dataDir.None? then None
    else Some(JoinPath(JoinPath(dataDir.value, PathOf("plugin_data")), PathOf(PluginName(pluginDir))))
  }

  /** The exception of building a path from a value that is not a string. */
  const NotAPath := "TypeError: download_dir is not a string"

  /**
   * `get_download_path`: an absolute directory stays; a relative one starting with
   * "plugin_data" goes under the data directory when one is known, any other relative
   * one under the plugin's data directory; without a data directory it goes under the
   * plugin directory, and without that it stays relative.
   */
  function DownloadPath(cfg: PluginConfig, hostDataDir: Option<PathV>): (r: Result<PathV>)
    ensures !cfg.path.downloadDir.JStr? ==> r.Failure?
    ensures cfg.path.downloadDir.JStr? ==> r.Success?
  {
    if !cfg.path.downloadDir.JStr? then Failure(NotAPath)
    else
      var downloadDir := PathOf(cfg.path.downloadDir.s);
      if downloadDir.absolute then Success(downloadDir)
      else
        var dataDir := AstrbotDataDir(cfg.pluginDir, hostDataDir);
        var pluginDataDir := PluginDataDir(dataDir, cfg.pluginDir);
        if dataDir.Some? && downloadDir.parts != [] && downloadDir.parts[0] == "plugin_data" then
          Success(JoinPath(dataDir.value, downloadDir))
        else if pluginDataDir.Some? then Success(JoinPath(pluginDataDir.value, downloadDir))
        else if cfg.pluginDir.Some? then Success(JoinPath(cfg.pluginDir.value, downloadDir))
        else Success(downloadDir)
  }

  /** A path whose parts are all names `Path` keeps. */
  predicate ValidPath(p: PathV)
  {
    forall i :: 0 <= i < |p.parts| ==> CleanName(p.parts[i])
  }

  /** A directory name that `Path` keeps as one part. */
  predicate CleanName(name: string)
  {
    name != "" && name != "." && '/' !in name
  }

  /** The path of a single name, or of the empty name. */
  lemma PathOfName(name: string)
    requires name == "" || CleanName(name)
    ensures PathOf(name) == PathV(false, if name == "" then [] else [name])
  {
    if name != "" {
      SplitNoSep(name, "", '/');
      assert Proper([name]) == [name] + Proper([]);
      assert name[0] in name;
    }
  }

  /** The fixed plugin name is a single part. */
  lemma DefaultNameClean()
    ensures CleanName(DefaultPluginName)
  {
    forall i | 0 <= i < |DefaultPluginName|
      ensures DefaultPluginName[i] != '/'
    {
    }
  }

  /** The parts the plugin's name adds below `plugin_data`. */
  function NameParts(pluginDir: Option<PathV>): seq<string>
  {
    var name := PluginName(pluginDir);
    if name == "" then [] else [name]
  }

  /** An absolute download directory is returned unchanged. */
  lemma DownloadPathAbsolute(cfg: PluginConfig, hostDataDir: Option<PathV>)
    requires cfg.path.downloadDir.JStr? && StartsWith(cfg.path.downloadDir.s, "/")
    ensures DownloadPath(cfg, hostDataDir) == Success(PathOf(cfg.path.downloadDir.s))
  {
  }

  /** A relative directory starting with "plugin_data" goes directly under a known data directory. */
  lemma DownloadPathUnderData(cfg: PluginConfig, hostDataDir: Option<PathV>)
    requires cfg.path.downloadDir.JStr? && !StartsWith(cfg.path.downloadDir.s, "/")
    requires var dir := PathOf(cfg.path.downloadDir.s); dir.parts != [] && dir.parts[0] == "plugin_data"
    requires AstrbotDataDir(cfg.pluginDir, hostDataDir).Some?
    ensures var data := AstrbotDataDir(cfg.pluginDir, hostDataDir).value;
            DownloadPath(cfg, hostDataDir) == Success(PathV(data.absolute, data.parts + PathOf(cfg.path.downloadDir.s).parts))
  {
  }

  /** Any other relative directory goes under `<data>/plugin_data/<plugin name>` when a data directory is known. */
  lemma DownloadPathUnderPluginData(cfg: PluginConfig, hostDataDir: Option<PathV>)
    requires cfg.path.downloadDir.JStr? && !StartsWith(cfg.path.downloadDir.s, "/")
    requires var dir := PathOf(cfg.path.downloadDir.s); !(dir.parts != [] && dir.parts[0] == "plugin_data")
    requires AstrbotDataDir(cfg.pluginDir, hostDataDir).Some?
    requires cfg.pluginDir.Some? ==> ValidPath(cfg.pluginDir.value)
    ensures var data := AstrbotDataDir(cfg.pluginDir, hostDataDir).value;
            DownloadPath(cfg, hostDataDir) ==
              Success(PathV(data.absolute, data.parts + ["plugin_data"] + NameParts(cfg.pluginDir) + PathOf(cfg.path.downloadDir.s).parts))
  {
    var data := AstrbotDataDir(cfg.pluginDir, hostDataDir).value;
    PluginDataDirParts(data, cfg.pluginDir);
  }

  /** The plugin's data directory is `<data>/plugin_data/<plugin name>`, part by part. */
  lemma PluginDataDirParts(data: PathV, pluginDir: Option<PathV>)
    requires pluginDir.Some? ==> ValidPath(pluginDir.value)
    ensures PluginDataDir(Some(data), pluginDir) == Some(PathV(data.absolute, data.parts + ["plugin_data"] + NameParts(pluginDir)))
  {
    PathOfName("plugin_data");
    var name := PluginName(pluginDir);
    if pluginDir.None? {
      DefaultNameClean();
    } else if pluginDir.value.parts != [] {
      assert CleanName(pluginDir.value.parts[|pluginDir.value.parts| - 1]);
    }
    PathOfName(name);
  }

  /** Without a data directory a relative directory goes under the plugin directory, or stays relative. */
  lemma DownloadPathNoData(cfg: PluginConfig, hostDataDir: Option<PathV>)
    requires cfg.path.downloadDir.JStr? && !StartsWith(cfg.path.downloadDir.s, "/")
    requires AstrbotDataDir(cfg.pluginDir, hostDataDir).None?
    ensures var dir := PathOf(cfg.path.downloadDir.s);
            DownloadPath(cfg, hostDataDir) ==
              Success(if cfg.pluginDir.Some? then PathV(cfg.pluginDir.value.absolute, cfg.pluginDir.value.parts + dir.parts) else dir)
  {
  }

  /** A plugin installed as `<data>/plugins/<name>` downloads "downloads" to `<data>/plugin_data/<name>/downloads`. */
  lemma InstalledPluginDownloads(root: seq<string>, name: string, cfg: PluginConfig)
    requires ValidPath(PathV(true, root)) && CleanName(name) && cfg.path.downloadDir == JStr("downloads")
    requires cfg.pluginDir == Some(PathV(true, root + ["data", "plugins", name]))
    ensures DownloadPath(cfg, None) == Success(PathV(true, root + ["data", "plugin_data", name, "downloads"]))
  {
    var dir := PathV(true, root + ["data", "plugins", name]);
    assert Parent(dir).parts == root + ["data", "plugins"];
    assert Parent(Parent(dir)).parts == root + ["data"];
    var data := PathV(true, root + ["data"]);
    assert AstrbotDataDir(cfg.pluginDir, None) == Some(data);
    assert ValidPath(dir) by {
      assert CleanName("data") && CleanName("plugins");
    }
    PathOfName("downloads");
    assert NameParts(cfg.pluginDir) == [name];
    DownloadPathUnderPluginData(cfg, None);
    AppendFour(root, "data", "plugin_data", name, "downloads");
  }

  lemma AppendFour<T>(a: seq<T>, b: T, c: T, d: T, e: T)
    ensures a + [b] + [c] + [d] + [e] == a + [b, c, d, e]
  {
  }

}
