/**
 * Song metadata: the per-disc track totals of an album, the content rating and the
 * conversion of a song's metadata record into MP4 tag atoms.
 */
module Metadata {
  import opened Wrappers
  import opened Text

  // ---------------------------------------------------------------- count_total_track_and_disc

  /** The two attributes of an album track the totals are computed from. */
  datatype TrackAttributes = TrackAttributes(discNumber: Option<int>, trackNumber: Option<int>)

  /** `discNumber or 1`: a missing or zero disc number counts as disc 1. */
  function DiscOf(t: TrackAttributes): (d: int)
    ensures d == 1 <==> t.discNumber.None? || t.discNumber.value == 0 || t.discNumber.value == 1
    ensures d != 1 ==> t.discNumber == Some(d)
  {
    if t.discNumber.None? || t.discNumber.value == 0 then 1 else t.discNumber.value
  }

  /** `trackNumber or 0`. */
  function TrackOf(t: TrackAttributes): (n: int)
    ensures t.trackNumber.None? ==> n == 0
    ensures t.trackNumber.Some? ==> n == t.trackNumber.value
  {
    if t.trackNumber.None? then 0 else t.trackNumber.value
  }

  /** `track_count.get(disc, 0)`. */
  function Counted(counts: map<int, int>, disc: int): int
  {
    if disc in counts then counts[disc] else 0
  }

  /** The per-disc dictionary after the loop has seen `tracks[..n]`. */
  function TrackCounts(tracks: seq<TrackAttributes>, n: nat): map<int, int>
    requires n <= |tracks|
  {
    if n == 0 then map[]
    else
      var counts := TrackCounts(tracks, n - 1);
      var t := tracks[n - 1];
      if Counted(counts, DiscOf(t)) < TrackOf(t) then counts[DiscOf(t) := TrackOf(t)] else counts
  }

  /**
   * A disc has an entry exactly when one of its tracks has a positive number, and the entry
   * is the largest track number on that disc.
   */
  lemma {:induction false} TrackCountsMax(tracks: seq<TrackAttributes>, n: nat, disc: int)
    requires n <= |tracks|
    ensures disc in TrackCounts(tracks, n) <==>
              exists i :: 0 <= i < n && DiscOf(tracks[i]) == disc && TrackOf(tracks[i]) > 0
    ensures forall i :: 0 <= i < n && DiscOf(tracks[i]) == disc ==> TrackOf(tracks[i]) <= Counted(TrackCounts(tracks, n), disc)
    ensures disc in TrackCounts(tracks, n) ==>
              exists i :: 0 <= i < n && DiscOf(tracks[i]) == disc && TrackOf(tracks[i]) == TrackCounts(tracks, n)[disc]
  {
    if n > 0 {
      TrackCountsMax(tracks, n - 1, disc);
      var counts := TrackCounts(tracks, n - 1);
      var t := tracks[n - 1];
      if DiscOf(t) == disc && Counted(counts, disc) < TrackOf(t) {
        assert TrackCounts(tracks, n)[disc] == TrackOf(t);
      } else {
        assert Counted(TrackCounts(tracks, n), disc) == Counted(counts, disc);
      }
    }
  }

  /** `data[-1].discNumber if data else 1`: the raw disc number of the last track (possibly None). */
  function DiscCount(tracks: seq<TrackAttributes>): Option<int>
  {
    if tracks == [] then Some(1) else tracks[|tracks| - 1].discNumber
  }

  /** `count_total_track_and_disc`: the disc count and the per-disc track totals. */
  method CountTotalTrackAndDisc(tracks: seq<TrackAttributes>) returns (discCount: Option<int>, trackCount: map<int, int>)
    ensures tracks == [] ==> discCount == Some(1) && trackCount == map[]
    ensures tracks != [] ==> discCount == tracks[|tracks| - 1].discNumber
    ensures trackCount == TrackCounts(tracks, |tracks|)
  {
    discCount := if |tracks| > 0 then tracks[|tracks| - 1].discNumber else Some(1);
    trackCount := map[];
    for i := 0 to |tracks|
      invariant trackCount == TrackCounts(tracks, i)
    {
      var discNum := DiscOf(tracks[i]);
      var trackNum := TrackOf(tracks[i]);
      if Counted(trackCount, discNum) < trackNum {
        trackCount := trackCount[discNum := trackNum];
      }
    }
  }

  // ---------------------------------------------------------------- _rating

  /** `_rating`: "explicit" is 1, "clean" is 2, anything else (missing or empty included) is 0. */
  function Rating(contentRating: Option<string>): (r: int)
    ensures r == 1 <==> contentRating == Some("explicit")
    ensures r == 2 <==> contentRating == Some("clean")
    ensures r == 0 <==> contentRating != Some("explicit") && contentRating != Some("clean")
  {
    if contentRating.None? || contentRating.value == "" then 0
    else if contentRating.value == "explicit" then 1
    else if contentRating.value == "clean" then 2
    else 0
  }

  // ---------------------------------------------------------------- SongMetadata

  /** The metadata record; every field may be missing. */
  datatype SongMetadata = SongMetadata(
    songId: Option<string>, title: Option<string>, artist: Option<string>, albumId: Option<string>,
    albumArtist: Option<string>, album: Option<string>, albumCreated: Option<string>,
    composer: Option<string>, genre: Option<seq<string>>, created: Option<string>,
    track: Option<string>, tracknum: Option<int>, trackTotal: Option<map<int, int>>,
    disk: Option<int>, diskTotal: Option<int>, lyrics: Option<string>, cover: Option<Bytes>,
    coverUrl: Option<string>, copyright: Option<string>, recordCompany: Option<string>,
    upc: Option<string>, isrc: Option<string>, rtng: Option<int>, playlistIndex: Option<int>,
    bitDepth: Option<int>, sampleRate: Option<int>, sampleRateKHz: Option<string>,
    artistId: Option<string>)

  /** A value of `model_dump()`. */
  datatype Value = Null | Str(s: string) | Int(i: int) | Strs(ss: seq<string>) | Blob(b: Bytes) | Counts(m: map<int, int>)

  /** Python truthiness of a dumped value. */
  predicate Truthy(v: Value)
  {
    match v
    case Null => false
    case Str(s) => s != ""
    case Int(i) => i != 0
    case Strs(ss) => ss != []
    case Blob(b) => b != []
    case Counts(m) => m != map[]
  }

  function OfStr(o: Option<string>): Value { if o.None? then Null else Str(o.value) }
  function OfInt(o: Option<int>): Value { if o.None? then Null else Int(o.value) }

  /** `model_dump().items()`: the fields in declaration order. */
  function Dump(m: SongMetadata): (r: seq<(string, Value)>)
    ensures |r| == 28
  {
    [("song_id", OfStr(m.songId)), ("title", OfStr(m.title)), ("artist", OfStr(m.artist)),
     ("album_id", OfStr(m.albumId)), ("album_artist", OfStr(m.albumArtist)), ("album", OfStr(m.album)),
     ("album_created", OfStr(m.albumCreated)), ("composer", OfStr(m.composer)),
     ("genre", if m.genre.None? then Null else Strs(m.genre.value)), ("created", OfStr(m.created)),
     ("track", OfStr(m.track)), ("tracknum", OfInt(m.tracknum)),
     ("track_total", if m.trackTotal.None? then Null else Counts(m.trackTotal.value)),
     ("disk", OfInt(m.disk)), ("disk_total", OfInt(m.diskTotal)), ("lyrics", OfStr(m.lyrics)),
     ("cover", if m.cover.None? then Null else Blob(m.cover.value)), ("cover_url", OfStr(m.coverUrl)),
     ("copyright", OfStr(m.copyright)), ("record_company", OfStr(m.recordCompany)),
     ("upc", OfStr(m.upc)), ("isrc", OfStr(m.isrc)), ("rtng", OfInt(m.rtng)),
     ("playlist_index", OfInt(m.playlistIndex)), ("bit_depth", OfInt(m.bitDepth)),
     ("sample_rate", OfInt(m.sampleRate)), ("sample_rate_kHz", OfStr(m.sampleRateKHz)),
     ("artist_id", OfStr(m.artistId))]
  }

  // ---------------------------------------------------------------- to_mutagen_tags

  /** `NOT_INCLUDED_FIELD` as written: "playlistIndex" names no field. */
  const NotIncludedAsWritten: seq<string> :=
    ["playlistIndex", "bit_depth", "sample_rate", "sample_rate_kHz", "track_total", "disk_total", "cover_url"]

  /** The exclusion list with the playlist position spelled as the field is named. */
  const NotIncluded: seq<string> :=
    ["playlist_index", "bit_depth", "sample_rate", "sample_rate_kHz", "track_total", "disk_total", "cover_url"]

  /** `TAG_MAPPING`: field name to MP4 atom. */
  const TagMapping: map<string, string> := map[
    "song_id" := "cnID", "title" := "©nam", "artist" := "©ART", "album_id" := "plID",
    "album_artist" := "aART", "album" := "©alb", "album_created" := "©day", "composer" := "©wrt",
    "genre" := "©gen", "created" := "purd", "track" := "©trk", "tracknum" := "trkn", "disk" := "disk",
    "lyrics" := "©lyr", "cover" := "covr", "copyright" := "cprt", "record_company" := "©pub",
    "upc" := "----:com.apple.iTunes:BARCODE", "isrc" := "----:com.apple.iTunes:ISRC",
    "rtng" := "rtng", "artist_id" := "atID"]

  /** A tag value handed to mutagen. */
  datatype Tag =
    | Raw(v: Value)               // the value itself (lyrics, genre)
    | Pair(v: Value, total: int)  // `((value, total),)`
    | CoverArt(v: Value)          // `(MP4Cover(value),)`
    | Encoded(v: Value)           // `(value.encode(),)`, the UTF-8 bytes of the string
    | Single(v: Value)            // `(value,)`
    | Number(n: int)              // `(int(value),)`
    | Shown(v: Value)             // `str(value)`

  /** ASCII digits in which single underscores may stand between two digits. */
  predicate UnderscoredDigits(s: string)
  {
    && |s| > 0 && IsAsciiDigit(s[0]) && IsAsciiDigit(s[|s| - 1])
    && (forall k :: 0 <= k < |s| ==> IsAsciiDigit(s[k]) || s[k] == '_')
    && !Contains(s, "__")
  }

  /** The number the digits of `s` spell, its underscores skipped. */
  function DigitsValue(s: string): nat
    requires forall k :: 0 <= k < |s| ==> IsAsciiDigit(s[k]) || s[k] == '_'
  {
    if s == [] then 0
    else if s[|s| - 1] == '_' then DigitsValue(s[..|s| - 1])
    else DigitsValue(s[..|s| - 1]) * 10 + DigitValue(s[|s| - 1])
  }

  lemma {:induction false} DigitsValueOfDigits(s: string)
    requires forall k :: 0 <= k < |s| ==> IsAsciiDigit(s[k])
    ensures DigitsValue(s) == DigitsToNat(s)
    decreases |s|
  {
    if s != [] {
      DigitsValueOfDigits(s[..|s| - 1]);
    }
  }

  /** What follows an optional leading `+` or `-`. */
  function Unsigned(t: string): string
  {
    if t != [] && (t[0] == '+' || t[0] == '-') then t[1..] else t
  }

  /** The number a text with nothing around it spells: an optional sign, then underscored digits. */
  function SignedValue(t: string): Option<int>
  {
    var body := Unsigned(t);
    if UnderscoredDigits(body) then
      var n: int := DigitsValue(body);
      Some(if t[0] == '-' then -n else n)
    else None
  }

  /**
   * Python's `int()` on a `str`: whitespace on either side is skipped, a `+` or `-` may lead, and
   * the rest must be ASCII digits with single underscores between digits; anything else raises
   * ValueError.
   */
  function PyInt(s: string): Option<int>
    decreases |s|
  {
    if s != [] && IsSpace(s[0]) then PyInt(s[1..])
    else if s != [] && IsSpace(s[|s| - 1]) then PyInt(s[..|s| - 1])
    else SignedValue(s)
  }

  /** Skipping the whitespace on both sides is `str.strip()`. */
  lemma {:induction false} PyIntStrip(s: string)
    ensures PyInt(s) == SignedValue(Strip(s))
    decreases |s|
  {
    if s != [] && IsSpace(s[0]) {
      PyIntStrip(s[1..]);
      assert StripLeft(s) == StripLeft(s[1..]);
    } else if s != [] && IsSpace(s[|s| - 1]) {
      var p := s[..|s| - 1];
      PyIntStrip(p);
      assert StripLeft(s) == s;
      assert p != [] && p[0] == s[0];
      assert StripLeft(p) == p;
    } else if s != [] {
      StripEdges(s);
    }
  }

  /**
   * A text with a character that is no digit, underscore, sign or whitespace raises; a text
   * that converts holds a digit.
   */
  lemma PyIntRejects(s: string)
    ensures (exists k :: 0 <= k < |s| && !IsAsciiDigit(s[k]) && s[k] !in "_+-" && !IsSpace(s[k])) ==> PyInt(s).None?
    ensures PyInt(s).Some? ==> exists k :: 0 <= k < |s| && IsAsciiDigit(s[k])
  {
    var t := Strip(s);
    var body := Unsigned(t);
    PyIntStrip(s);
    StripInside(s, t);
    if k :| 0 <= k < |s| && !IsAsciiDigit(s[k]) && s[k] !in "_+-" && !IsSpace(s[k]) {
      assert s[k] in t;
      var j :| 0 <= j < |t| && t[j] == s[k];
      UnsignedKeeps(t, j);
    }
    if PyInt(s).Some? {
      assert body[0] in t;
    }
  }

  /** Dropping the sign keeps every other character. */
  lemma UnsignedKeeps(t: string, j: nat)
    requires j < |t| && t[j] !in "+-"
    ensures exists i :: 0 <= i < |Unsigned(t)| && Unsigned(t)[i] == t[j]
  {
    if t[0] == '+' || t[0] == '-' {
      assert Unsigned(t)[j - 1] == t[j];
    } else {
      assert Unsigned(t)[j] == t[j];
    }
  }

  /** Python's `str.strip()` only removes whitespace: every character of the result is in `s`. */
  lemma StripInside(s: string, t: string)
    requires t == Strip(s)
    ensures forall c :: c in t ==> c in s
    ensures forall k :: 0 <= k < |s| && !IsSpace(s[k]) ==> s[k] in t
  {
    var l := StripLeft(s);
    assert t == l[..|t|];
    assert l == s[|s| - |l|..];
    forall k | 0 <= k < |s| && !IsSpace(s[k]) ensures s[k] in t {
      assert k >= |s| - |l|;
      assert l[k - (|s| - |l|)] == s[k];
      assert k - (|s| - |l|) < |t|;
      assert t[k - (|s| - |l|)] == s[k];
    }
  }

  /** A digit string converts to its value. */
  lemma PyIntDigits(s: string)
    requires IsDigits(s)
    ensures PyInt(s) == Some(DigitsToNat(s))
  {
    DigitsValueOfDigits(s);
    NotContains(s, "__");
    assert UnderscoredDigits(s);
  }

  /** A `+` in front keeps the value and a `-` negates it. */
  lemma PyIntSigned(s: string)
    requires IsDigits(s)
    ensures PyInt("+" + s) == Some(DigitsToNat(s))
    ensures PyInt("-" + s) == Some(-(DigitsToNat(s) as int))
  {
    DigitsValueOfDigits(s);
    NotContains(s, "__");
    assert UnderscoredDigits(s);
    var p, m := "+" + s, "-" + s;
    assert p[1..] == s && m[1..] == s;
    assert Unsigned(p) == s && Unsigned(m) == s;
  }

  /** A text that neither starts nor ends with whitespace is its own strip. */
  lemma StripEdges(x: string)
    requires x != [] && !IsSpace(x[0]) && !IsSpace(x[|x| - 1])
    ensures Strip(x) == x
  {
    assert StripLeft(x) == x;
    assert StripRight(x) == x;
  }

  /** Whitespace around a number does not change what `int()` makes of it. */
  lemma PyIntPadded(w1: string, x: string, w2: string)
    requires x != [] && !IsSpace(x[0]) && !IsSpace(x[|x| - 1])
    requires forall k :: 0 <= k < |w1| ==> IsSpace(w1[k])
    requires forall k :: 0 <= k < |w2| ==> IsSpace(w2[k])
    ensures PyInt(w1 + x + w2) == PyInt(x)
  {
    PyIntStrip(w1 + x + w2);
    StripPadded(w1, x, w2);
  }

  lemma StripPadded(w1: string, x: string, w2: string)
    requires x != [] && !IsSpace(x[0]) && !IsSpace(x[|x| - 1])
    requires forall k :: 0 <= k < |w1| ==> IsSpace(w1[k])
    requires forall k :: 0 <= k < |w2| ==> IsSpace(w2[k])
    ensures Strip(w1 + x + w2) == x
  {
    assert w1 + x + w2 == w1 + (x + w2);
    StripLeftSpaces(w1, x + w2);
    StripRightSpaces(x, w2);
  }

  lemma {:induction false} StripLeftSpaces(w: string, y: string)
    requires y != [] && !IsSpace(y[0])
    requires forall k :: 0 <= k < |w| ==> IsSpace(w[k])
    ensures StripLeft(w + y) == StripLeft(y) == y
    decreases |w|
  {
    if w != [] {
      assert (w + y)[1..] == w[1..] + y;
      StripLeftSpaces(w[1..], y);
    }
  }

  lemma {:induction false} StripRightSpaces(y: string, w: string)
    requires y != [] && !IsSpace(y[|y| - 1])
    requires forall k :: 0 <= k < |w| ==> IsSpace(w[k])
    ensures StripRight(y + w) == y
    decreases |w|
  {
    if w == [] {
      assert y + w == y;
    } else {
      var v := w[..|w| - 1];
      assert (y + w)[..|y + w| - 1] == y + v;
      StripRightSpaces(y, v);
    }
  }

  /** A single underscore between two runs of digits is skipped: `int("1_000") == 1000`. */
  lemma PyIntUnderscore(a: string, b: string)
    requires IsDigits(a) && IsDigits(b)
    ensures PyInt(a + "_" + b) == Some(DigitsToNat(a + b))
  {
    var s := a + "_" + b;
    NoDoubleUnderscore(a, b);
    assert UnderscoredDigits(s);
    DigitsValueJoin(a, b);
  }

  lemma {:induction false} NoDoubleUnderscore(a: string, b: string)
    requires (forall k :: 0 <= k < |a| ==> IsAsciiDigit(a[k])) && IsDigits(b)
    ensures !Contains(a + "_" + b, "__")
    decreases |a|
  {
    var s := a + "_" + b;
    if a == [] {
      assert s[0] == '_' && s[1] == b[0];
      assert !StartsWith(s, "__");
      assert s[1..] == b;
      NotContains(b, "__");
    } else {
      assert s[0] == a[0];
      assert !StartsWith(s, "__");
      assert s[1..] == a[1..] + "_" + b;
      NoDoubleUnderscore(a[1..], b);
    }
  }

  lemma {:induction false} DigitsValueJoin(a: string, b: string)
    requires (forall k :: 0 <= k < |a| ==> IsAsciiDigit(a[k])) && (forall k :: 0 <= k < |b| ==> IsAsciiDigit(b[k]))
    ensures forall k :: 0 <= k < |a + "_" + b| ==> IsAsciiDigit((a + "_" + b)[k]) || (a + "_" + b)[k] == '_'
    ensures DigitsValue(a + "_" + b) == DigitsToNat(a + b)
    decreases |b|
  {
    var s := a + "_" + b;
    assert forall k :: 0 <= k < |s| ==> IsAsciiDigit(s[k]) || s[k] == '_';
    if b == [] {
      assert s[..|s| - 1] == a && a + b == a;
      DigitsValueOfDigits(a);
    } else {
      var v := b[..|b| - 1];
      assert s[..|s| - 1] == a + "_" + v;
      assert (a + b)[..|a + b| - 1] == a + v;
      DigitsValueJoin(a, v);
    }
  }

  /** Two signs in a row make `int()` raise. */
  lemma PyIntDoubleSign(c: char, d: char, x: string)
    requires c in "+-" && d in "+-"
    ensures PyInt([c, d] + x) == None
  {
    assert c == '+' || c == '-';
    assert d == '+' || d == '-';
    var s := [c, d] + x;
    StripSignPair(c, d, x);
    PyIntStrip(s);
    var r := Strip(s);
    assert !UnderscoredDigits(Unsigned(r)) by {
      assert Unsigned(r)[0] == d;
    }
  }

  /** Stripping keeps two leading characters that are not whitespace. */
  lemma StripSignPair(c: char, d: char, x: string)
    requires !IsSpace(c) && !IsSpace(d)
    ensures var r := Strip([c, d] + x); |r| >= 2 && r[0] == c && r[1] == d
  {
    var s := [c, d] + x;
    assert StripLeft(s) == s by {
      assert s[0] == c;
    }
    var r := StripRight(s);
    assert |r| >= 2 by {
      assert s[1] == d;
    }
    assert r[0] == s[0] && r[1] == s[1];
  }

  /** `int()` accepts whitespace around the number, a sign and underscores between digits, and nothing looser. */
  lemma PyIntExamples()
    ensures PyInt(" 7\n") == Some(7) && PyInt("1_2") == Some(12) && PyInt("-0") == Some(0)
    ensures PyInt("") == None && PyInt("1__2") == None && PyInt("_1") == None && PyInt("1_") == None
    ensures PyInt("+") == None && PyInt("--1") == None
  {
    assert PyInt(" 7\n") == Some(7) by {
      assert " 7\n"[1..] == "7\n" && "7\n"[..1] == "7";
      assert PyInt("7\n") == PyInt("7");
    }
    assert PyInt("1_2") == Some(12) by {
      assert "1_2"[..2] == "1_" && "1_"[..1] == "1" && "1"[..0] == "";
    }
    assert PyInt("-0") == Some(0) by {
      assert Unsigned("-0") == "0";
    }
    assert PyInt("1__2") == None by {
      assert "1__2"[1] == '_' && "1__2"[2] == '_';
    }
    assert PyInt("+") == None by {
      assert Unsigned("+") == "";
    }
    assert PyInt("--1") == None by {
      assert Unsigned("--1") == "-1";
    }
  }

  /** `int(value)` on the dumped identifier: strings convert as `int()` reads them, ints are kept, anything else raises. */
  function IntOf(v: Value): (r: Option<int>)
    ensures v.Int? ==> r == Some(v.i)
    ensures !v.Str? && !v.Int? ==> r.None?
  {
    match v
    case Str(s) => PyInt(s)
    case Int(i) => Some(i)
    case _ => None
  }

  /** `self.disk or 1`. */
  function DiskOr1(m: SongMetadata): int
  {
    if m.disk.None? || m.disk.value == 0 then 1 else m.disk.value
  }

  /** `self.track_total.get(disk_num, 1) if self.track_total else 1`. */
  function TrackTotalFor(m: SongMetadata): (t: int)
    ensures m.trackTotal.Some? && DiskOr1(m) in m.trackTotal.value ==> t == m.trackTotal.value[DiskOr1(m)]
    ensures m.trackTotal.None? || DiskOr1(m) !in m.trackTotal.value ==> t == 1
  {
    if m.trackTotal.Some? && m.trackTotal.value != map[] && DiskOr1(m) in m.trackTotal.value
    then m.trackTotal.value[DiskOr1(m)] else 1
  }

  /** `self.disk_total or 1`. */
  function DiskTotalFor(m: SongMetadata): (t: int)
    ensures t != 0
  {
    if m.diskTotal.None? || m.diskTotal.value == 0 then 1 else m.diskTotal.value
  }

  /** The branch of the loop body by field name; None where `int(value)` raises. */
  function Encode(m: SongMetadata, key: string, v: Value): Option<Tag>
  {
    if key == "lyrics" || key == "genre" then Some(Raw(v))
    else if key == "tracknum" then Some(Pair(v, TrackTotalFor(m)))
    else if key == "disk" then Some(Pair(v, DiskTotalFor(m)))
    else if key == "cover" then Some(CoverArt(v))
    else if key == "upc" || key == "isrc" then Some(Encoded(v))
    else if key == "rtng" then Some(Single(v))
    else if key == "song_id" || key == "album_id" || key == "artist_id" then
      (var n := IntOf(v); if n.None? then None else Some(Number(n.value)))
    else Some(Shown(v))
  }

  /** The three skip tests: falsy values (except rtng), fields not asked for, excluded fields. */
  predicate Emitted(f: (string, Value), embed: seq<string>, excluded: seq<string>)
  {
    (Truthy(f.1) || f.0 == "rtng") && f.0 in embed && f.0 !in excluded
  }

  /** The field has an atom and its value converts. */
  predicate Encodable(m: SongMetadata, f: (string, Value))
  {
    f.0 in TagMapping && Encode(m, f.0, f.1).Some?
  }

  /** The atom and tag of an encodable field. */
  function Entry(m: SongMetadata, f: (string, Value)): (string, Tag)
    requires Encodable(m, f)
  {
    (TagMapping[f.0], Encode(m, f.0, f.1).value)
  }

  /** The exception a field that is not encodable raises. */
  datatype TagError = KeyError(key: string) | ValueError(key: string)

  /** The tag dictionary (its items in insertion order; the atoms are distinct), or the exception raised. */
  datatype TagsResult = Tags(entries: seq<(string, Tag)>) | Failed(error: TagError)

  function ErrorOf(m: SongMetadata, f: (string, Value)): TagError
  {
    if Encode(m, f.0, f.1).None? then ValueError(f.0) else KeyError(f.0)
  }

  /** The result of the loop after `fields[..n]`. */
  function TagsUpTo(m: SongMetadata, fields: seq<(string, Value)>, n: nat, embed: seq<string>, excluded: seq<string>): TagsResult
    requires n <= |fields|
  {
    if n == 0 then Tags([])
    else
      var prev := TagsUpTo(m, fields, n - 1, embed, excluded);
      var f := fields[n - 1];
      if prev.Failed? || !Emitted(f, embed, excluded) then prev
      else if !Encodable(m, f) then Failed(ErrorOf(m, f))
      else Tags(prev.entries + [Entry(m, f)])
  }

  /** The loop raises exactly when some emitted field cannot be encoded. */
  lemma {:induction false} TagsFailSpec(m: SongMetadata, fields: seq<(string, Value)>, n: nat, embed: seq<string>, excluded: seq<string>)
    requires n <= |fields|
    ensures TagsUpTo(m, fields, n, embed, excluded).Failed? <==>
              exists i :: 0 <= i < n && Emitted(fields[i], embed, excluded) && !Encodable(m, fields[i])
  {
    if n > 0 {
      TagsFailSpec(m, fields, n - 1, embed, excluded);
    }
  }

  /** The exception is the one of the first emitted field that cannot be encoded. */
  lemma {:induction false} TagsFailFirst(m: SongMetadata, fields: seq<(string, Value)>, n: nat, embed: seq<string>, excluded: seq<string>, i: nat)
    requires i < n <= |fields|
    requires Emitted(fields[i], embed, excluded) && !Encodable(m, fields[i])
    requires forall j :: 0 <= j < i && Emitted(fields[j], embed, excluded) ==> Encodable(m, fields[j])
    ensures TagsUpTo(m, fields, n, embed, excluded) == Failed(ErrorOf(m, fields[i]))
  {
    if n - 1 > i {
      TagsFailFirst(m, fields, n - 1, embed, excluded, i);
    } else {
      TagsFailSpec(m, fields, i, embed, excluded);
    }
  }

  /** A raised exception is the one of some emitted field that cannot be encoded. */
  lemma {:induction false} TagsFailedAt(m: SongMetadata, fields: seq<(string, Value)>, n: nat, embed: seq<string>, excluded: seq<string>)
    requires n <= |fields|
    requires TagsUpTo(m, fields, n, embed, excluded).Failed?
    ensures exists i :: 0 <= i < n && Emitted(fields[i], embed, excluded) && !Encodable(m, fields[i]) &&
                        TagsUpTo(m, fields, n, embed, excluded) == Failed(ErrorOf(m, fields[i]))
  {
    if TagsUpTo(m, fields, n - 1, embed, excluded).Failed? {
      TagsFailedAt(m, fields, n - 1, embed, excluded);
    }
  }

  /** Once raised, the exception is the result of the whole loop. */
  lemma {:induction false} TagsFailedStays(m: SongMetadata, fields: seq<(string, Value)>, n: nat, k: nat, embed: seq<string>, excluded: seq<string>)
    requires n <= k <= |fields|
    requires TagsUpTo(m, fields, n, embed, excluded).Failed?
    ensures TagsUpTo(m, fields, k, embed, excluded) == TagsUpTo(m, fields, n, embed, excluded)
  {
    if k > n {
      TagsFailedStays(m, fields, n, k - 1, embed, excluded);
    }
  }

  /** Every emitted field is in the dictionary under its atom. */
  lemma {:induction false} TagsComplete(m: SongMetadata, fields: seq<(string, Value)>, n: nat, embed: seq<string>, excluded: seq<string>)
    requires n <= |fields|
    requires TagsUpTo(m, fields, n, embed, excluded).Tags?
    ensures forall i :: 0 <= i < n && Emitted(fields[i], embed, excluded) ==>
              Encodable(m, fields[i]) && Entry(m, fields[i]) in TagsUpTo(m, fields, n, embed, excluded).entries
  {
    if n > 0 {
      TagsComplete(m, fields, n - 1, embed, excluded);
    }
  }

  /** One emitted field is in the dictionary under its atom. */
  lemma TagAt(m: SongMetadata, fields: seq<(string, Value)>, n: nat, embed: seq<string>, excluded: seq<string>, i: nat)
    requires i < n <= |fields|
    requires TagsUpTo(m, fields, n, embed, excluded).Tags? && Emitted(fields[i], embed, excluded)
    ensures Encodable(m, fields[i]) && Entry(m, fields[i]) in TagsUpTo(m, fields, n, embed, excluded).entries
  {
    TagsComplete(m, fields, n, embed, excluded);
  }

  /** Every item of the dictionary comes from an emitted field. */
  lemma {:induction false} TagsSound(m: SongMetadata, fields: seq<(string, Value)>, n: nat, embed: seq<string>, excluded: seq<string>)
    requires n <= |fields|
    requires TagsUpTo(m, fields, n, embed, excluded).Tags?
    ensures forall e :: e in TagsUpTo(m, fields, n, embed, excluded).entries ==>
              exists i :: 0 <= i < n && Emitted(fields[i], embed, excluded) && Encodable(m, fields[i]) && e == Entry(m, fields[i])
  {
    if n > 0 {
      TagsSound(m, fields, n - 1, embed, excluded);
      var prev := TagsUpTo(m, fields, n - 1, embed, excluded);
      var f := fields[n - 1];
      if Emitted(f, embed, excluded) {
        forall e | e in TagsUpTo(m, fields, n, embed, excluded).entries
          ensures exists i :: 0 <= i < n && Emitted(fields[i], embed, excluded) && Encodable(m, fields[i]) && e == Entry(m, fields[i])
        {
          if e !in prev.entries {
            assert e == Entry(m, f);
          }
        }
      }
    }
  }

  /** `to_mutagen_tags` as written, with the misspelt exclusion. */
  function ToTagsAsWritten(m: SongMetadata, embed: seq<string>): TagsResult
  {
    TagsUpTo(m, Dump(m), 28, embed, NotIncludedAsWritten)
  }

  /** `to_mutagen_tags` with the playlist position excluded as intended. */
  function ToTags(m: SongMetadata, embed: seq<string>): TagsResult
  {
    TagsUpTo(m, Dump(m), 28, embed, NotIncluded)
  }

  /** A playlist track whose embed list names `playlist_index` makes the method as written raise KeyError. */
  lemma PlaylistIndexKeyError()
    ensures var m := SongMetadata(None, None, None, None, None, None, None, None, None, None, None, None,
                                  None, None, None, None, None, None, None, None, None, None, None, Some(3),
                                  None, None, None, None);
            ToTagsAsWritten(m, ["playlist_index"]) == Failed(KeyError("playlist_index"))
  {
    var m := SongMetadata(None, None, None, None, None, None, None, None, None, None, None, None,
                          None, None, None, None, None, None, None, None, None, None, None, Some(3),
                          None, None, None, None);
    var d := Dump(m);
    var embed := ["playlist_index"];
    assert d[23] == ("playlist_index", Int(3));
    assert !Encodable(m, d[23]);
    forall j | 0 <= j < 23
      ensures !Emitted(d[j], embed, NotIncludedAsWritten)
    {
    }
    TagsFailFirst(m, d, 28, embed, NotIncludedAsWritten, 23);
  }

  /**
   * Of the fields the corrected list lets through, only an identifier can fail to encode,
   * and it fails with ValueError exactly when its value is not a digit string.
   */
  lemma FieldEncodable(m: SongMetadata, i: nat)
    requires i < 28 && Dump(m)[i].0 !in NotIncluded
    ensures !Encodable(m, Dump(m)[i]) <==>
              IntOf(Dump(m)[i].1).None? && Dump(m)[i].0 in ["song_id", "album_id", "artist_id"]
    ensures !Encodable(m, Dump(m)[i]) ==> ErrorOf(m, Dump(m)[i]).ValueError?
  {
    FieldMapped(m, i);
    EncodeNone(m, Dump(m)[i].0, Dump(m)[i].1);
  }

  /** Every dumped field has an atom or is excluded. */
  lemma FieldMapped(m: SongMetadata, i: nat)
    requires i < 28
    ensures Dump(m)[i].0 in TagMapping || Dump(m)[i].0 in NotIncluded
  {
  }

  /** Only an identifier whose value is not an integer fails to convert. */
  lemma EncodeNone(m: SongMetadata, key: string, v: Value)
    ensures Encode(m, key, v).None? <==> key in ["song_id", "album_id", "artist_id"] && IntOf(v).None?
  {
  }

  /**
   * With the corrected exclusion list nothing raises KeyError: the conversion fails exactly
   * when an identifier asked for holds something other than digits, with that ValueError.
   */
  lemma ToTagsFails(m: SongMetadata, embed: seq<string>)
    ensures ToTags(m, embed).Failed? <==>
              exists i :: 0 <= i < 28 && Emitted(Dump(m)[i], embed, NotIncluded) && IntOf(Dump(m)[i].1).None? &&
                          Dump(m)[i].0 in ["song_id", "album_id", "artist_id"]
    ensures ToTags(m, embed).Failed? ==> ToTags(m, embed).error.ValueError?
  {
    var d := Dump(m);
    TagsFailSpec(m, d, 28, embed, NotIncluded);
    forall i | 0 <= i < 28 && Emitted(d[i], embed, NotIncluded)
      ensures !Encodable(m, d[i]) <==> IntOf(d[i].1).None? && d[i].0 in ["song_id", "album_id", "artist_id"]
      ensures !Encodable(m, d[i]) ==> ErrorOf(m, d[i]).ValueError?
    {
      FieldEncodable(m, i);
    }
    if ToTags(m, embed).Failed? {
      TagsFailedAt(m, d, 28, embed, NotIncluded);
      var i :| 0 <= i < 28 && Emitted(d[i], embed, NotIncluded) && !Encodable(m, d[i]) &&
               ToTags(m, embed) == Failed(ErrorOf(m, d[i]));
      FieldEncodable(m, i);
    }
  }

  /** `tracknum` becomes `((n, total),)` with the total of the song's disc (disc 1 when unset), else 1. */
  lemma TracknumTag(m: SongMetadata, embed: seq<string>)
    requires m.tracknum.Some? && m.tracknum.value != 0 && "tracknum" in embed
    requires ToTags(m, embed).Tags?
    ensures ("trkn", Pair(Int(m.tracknum.value), TrackTotalFor(m))) in ToTags(m, embed).entries
  {
    var f := ("tracknum", Int(m.tracknum.value));
    assert Dump(m)[11] == f;
    FieldTag(m, embed, 11, f, "trkn", Pair(f.1, TrackTotalFor(m)));
  }

  /** `disk` becomes `((d, disk_total or 1),)`. */
  lemma DiskTag(m: SongMetadata, embed: seq<string>)
    requires m.disk.Some? && m.disk.value != 0 && "disk" in embed
    requires ToTags(m, embed).Tags?
    ensures ("disk", Pair(Int(m.disk.value), DiskTotalFor(m))) in ToTags(m, embed).entries
  {
    var f := ("disk", Int(m.disk.value));
    assert Dump(m)[13] == f;
    FieldTag(m, embed, 13, f, "disk", Pair(f.1, DiskTotalFor(m)));
  }

  /** The rating is written whenever it is asked for, even when it is 0 or unset. */
  lemma RatingTag(m: SongMetadata, embed: seq<string>)
    requires "rtng" in embed
    requires ToTags(m, embed).Tags?
    ensures ("rtng", Single(OfInt(m.rtng))) in ToTags(m, embed).entries
  {
    var f := ("rtng", OfInt(m.rtng));
    assert Dump(m)[22] == f;
    FieldTag(m, embed, 22, f, "rtng", Single(f.1));
  }

  /** A numeric song id becomes the integer under `cnID`. */
  lemma SongIdTag(m: SongMetadata, embed: seq<string>)
    requires m.songId.Some? && m.songId.value != "" && IsDigits(m.songId.value) && "song_id" in embed
    requires ToTags(m, embed).Tags?
    ensures ("cnID", Number(DigitsToNat(m.songId.value))) in ToTags(m, embed).entries
  {
    var f := ("song_id", Str(m.songId.value));
    SongIdField(m);
    SongIdEncodes(m, m.songId.value);
    assert Emitted(f, embed, NotIncluded);
    FieldTag(m, embed, 0, f, "cnID", Number(DigitsToNat(m.songId.value)));
  }

  /** The song id is dumped first and has the `cnID` atom. */
  lemma SongIdField(m: SongMetadata)
    requires m.songId.Some?
    ensures Dump(m)[0] == ("song_id", Str(m.songId.value)) && "song_id" in TagMapping && TagMapping["song_id"] == "cnID"
  {
  }

  /** A song id holding a digit string converts to the number it spells. */
  lemma SongIdEncodes(m: SongMetadata, s: string)
    requires IsDigits(s)
    ensures Encode(m, "song_id", Str(s)) == Some(Number(DigitsToNat(s)))
  {
    IntOfDigits(s);
  }

  lemma IntOfDigits(s: string)
    requires IsDigits(s)
    ensures IntOf(Str(s)) == Some(DigitsToNat(s) as int)
  {
    PyIntDigits(s);
  }

  /** The UPC becomes its encoded bytes under the iTunes barcode atom. */
  lemma UpcTag(m: SongMetadata, embed: seq<string>)
    requires m.upc.Some? && m.upc.value != "" && "upc" in embed
    requires ToTags(m, embed).Tags?
    ensures ("----:com.apple.iTunes:BARCODE", Encoded(Str(m.upc.value))) in ToTags(m, embed).entries
  {
    var f := ("upc", Str(m.upc.value));
    assert Dump(m)[20] == f;
    FieldTag(m, embed, 20, f, "----:com.apple.iTunes:BARCODE", Encoded(f.1));
  }

  /** A plain text field becomes its `str()` under its atom. */
  lemma TitleTag(m: SongMetadata, embed: seq<string>)
    requires m.title.Some? && m.title.value != "" && "title" in embed
    requires ToTags(m, embed).Tags?
    ensures ("©nam", Shown(Str(m.title.value))) in ToTags(m, embed).entries
  {
    var f := ("title", Str(m.title.value));
    TitleField(m);
    assert Emitted(f, embed, NotIncluded);
    FieldTag(m, embed, 1, f, "©nam", Shown(f.1));
  }

  /** The title is dumped second, has the `©nam` atom and is shown as text. */
  lemma TitleField(m: SongMetadata)
    requires m.title.Some? && m.title.value != ""
    ensures var f := ("title", Str(m.title.value));
      Dump(m)[1] == f && "title" in TagMapping && TagMapping["title"] == "©nam" && Encode(m, f.0, f.1) == Some(Shown(f.1))
  {
  }

  /** A dumped field that is asked for, has an atom and converts appears under that atom. */
  lemma FieldTag(m: SongMetadata, embed: seq<string>, i: nat, f: (string, Value), atom: string, t: Tag)
    requires i < 28 && Dump(m)[i] == f && Emitted(f, embed, NotIncluded) && ToTags(m, embed).Tags?
    requires f.0 in TagMapping && TagMapping[f.0] == atom && Encode(m, f.0, f.1) == Some(t)
    ensures (atom, t) in ToTags(m, embed).entries
  {
    TagAt(m, Dump(m), 28, embed, NotIncluded, i);
  }

  /** Fields left unset or not asked for never produce an atom. */
  lemma SkippedFields(m: SongMetadata, embed: seq<string>, e: (string, Tag))
    requires ToTags(m, embed).Tags? && e in ToTags(m, embed).entries
    ensures exists i :: 0 <= i < 28 && Dump(m)[i].0 in embed && Dump(m)[i].0 !in NotIncluded &&
                        (Truthy(Dump(m)[i].1) || Dump(m)[i].0 == "rtng") && e.0 == TagMapping[Dump(m)[i].0]
  {
    TagsSound(m, Dump(m), 28, embed, NotIncluded);
  }

  /** One more field after a prefix that produced `entries`. */
  lemma TagsUpToStep(m: SongMetadata, fields: seq<(string, Value)>, i: nat, embed: seq<string>, excluded: seq<string>, entries: seq<(string, Tag)>)
    requires i < |fields| && TagsUpTo(m, fields, i, embed, excluded) == Tags(entries)
    ensures var f := fields[i];
      TagsUpTo(m, fields, i + 1, embed, excluded) ==
        if !Emitted(f, embed, excluded) then Tags(entries)
        else if !Encodable(m, f) then Failed(ErrorOf(m, f))
        else Tags(entries + [Entry(m, f)])
  {
  }

  /** The loop of `to_mutagen_tags` over a sequence of dumped fields. */
  method TagsLoop(m: SongMetadata, fields: seq<(string, Value)>, embed: seq<string>, excluded: seq<string>) returns (r: TagsResult)
    ensures r == TagsUpTo(m, fields, |fields|, embed, excluded)
  {
    var entries: seq<(string, Tag)> := [];
    var i := 0;
    while i < |fields|
      invariant 0 <= i <= |fields|
      invariant TagsUpTo(m, fields, i, embed, excluded) == Tags(entries)
    {
      TagsUpToStep(m, fields, i, embed, excluded, entries);
      var key := fields[i].0;
      var value := fields[i].1;
      if (!Truthy(value) && key != "rtng") || key !in embed || key in excluded {
        i := i + 1;
        continue;
      }
      var tag := Encode(m, key, value);
      if tag.None? || key !in TagMapping {
        r := Failed(if tag.None? then ValueError(key) else KeyError(key));
        TagsFailedStays(m, fields, i + 1, |fields|, embed, excluded);
        return;
      }
      entries := entries + [(TagMapping[key], tag.value)];
      i := i + 1;
    }
    r := Tags(entries);
  }

  /** `to_mutagen_tags`: the loop over `model_dump()` (with the corrected exclusion list). */
  method ToMutagenTags(m: SongMetadata, embed: seq<string>) returns (r: TagsResult)
    ensures r == ToTags(m, embed)
  {
    r := TagsLoop(m, Dump(m), embed, NotIncluded);
  }
}
