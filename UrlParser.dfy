/**
 * `URLParser` of the downloader service: six anchored link patterns, the `?i=` song form tried
 * first, then the direct song form, then the other patterns in declaration order.
 */
module UrlParser {
  import opened Wrappers
  import opened Text
  import Url

  // ---------------------------------------------------------------- character classes

  /** `\w`, restricted to ASCII: letters, digits and the underscore. */
  predicate IsWordChar(c: char)
  {
    'a' <= c <= 'z' || 'A' <= c <= 'Z' || '0' <= c <= '9' || c == '_'
  }

  /** `[\w-]`. */
  predicate IsNameChar(c: char)
  {
    IsWordChar(c) || c == '-'
  }

  /** The length of the longest prefix of `s` whose characters all satisfy `f`. */
  function Run(s: string, f: char -> bool): (n: nat)
    ensures n <= |s|
    ensures forall k :: 0 <= k < n ==> f(s[k])
    ensures n < |s| ==> !f(s[n])
  {
    if s == [] || !f(s[0]) then 0 else 1 + Run(s[1..], f)
  }

  lemma {:induction false} RunOf(a: string, b: string, f: char -> bool)
    requires forall k :: 0 <= k < |a| ==> f(a[k])
    requires b == [] || !f(b[0])
    ensures Run(a + b, f) == |a|
  {
    if a == [] {
      assert a + b == b;
    } else {
      assert (a + b)[1..] == a[1..] + b;
      RunOf(a[1..], b, f);
    }
  }

  /**
   * The end of a pattern, `(?:[<starts>].*)?$`, on a stripped link: nothing, or a character of
   * `starts` followed by characters that are not line breaks.
   */
  predicate Trailer(s: string, starts: set<char>)
  {
    s == [] || (s[0] in starts && forall k :: 1 <= k < |s| ==> s[k] != '\n')
  }

  // ---------------------------------------------------------------- patterns

  datatype Pattern = AlbumP | SongP | SongDirectP | PlaylistP | ArtistP | MusicVideoP

  /** `PATTERNS` in declaration order. */
  const Patterns := [AlbumP, SongP, SongDirectP, PlaylistP, ArtistP, MusicVideoP]

  /** The key of a pattern in `PATTERNS`, which is also the reported type. */
  function TypeKey(p: Pattern): string
  {
    match p
    case AlbumP => "album"
    case SongP => "song"
    case SongDirectP => "song_direct"
    case PlaylistP => "playlist"
    case ArtistP => "artist"
    case MusicVideoP => "music_video"
  }

  /** The path segment a pattern requires after the storefront. */
  function Segment(p: Pattern): string
  {
    match p
    case AlbumP => "album"
    case SongP => "album"
    case SongDirectP => "song"
    case PlaylistP => "playlist"
    case ArtistP => "artist"
    case MusicVideoP => "music-video"
  }

  const Scheme := "https://"
  const Beta := "beta."
  const Domain := "music.apple.com/"

  /** `^https://(?:beta\.)?music\.apple\.com/`: what follows the host, if the link starts so. */
  function HostRest(u: string): Option<string>
  {
    if !StartsWith(u, Scheme) then None
    else
      var r := u[|Scheme|..];
      if StartsWith(r, Beta + Domain) then Some(r[|Beta + Domain|..])
      else if StartsWith(r, Domain) then Some(r[|Domain|..])
      else None
  }

  /** A link's path after the host: `(\w{2})/<segment>/[^/]+/<tail>`. */
  datatype Path = Path(storefront: string, segment: string, name: string, tail: string)

  /** The storefront as two word characters and a `/`, then the segment and the name, each up to the next `/`. */
  function PathOf(rest: string): (r: Option<Path>)
    ensures r.Some? ==> |r.value.storefront| == 2 && IsWordChar(r.value.storefront[0]) && IsWordChar(r.value.storefront[1])
  {
    if |rest| >= 3 && IsWordChar(rest[0]) && IsWordChar(rest[1]) && rest[2] == '/' then
      var r := rest[3..];
      var i := Url.FirstOf(r, {'/'});
      if i < |r| then
        var r2 := r[i + 1..];
        var j := Url.FirstOf(r2, {'/'});
        if 0 < j < |r2| then Some(Path(rest[..2], r[..i], r2[..j], r2[j + 1..])) else None
      else None
    else None
  }

  /** `(\d+)` followed by the trailer: the id. */
  function IdGroup(tail: string, starts: set<char>): (r: Option<string>)
    ensures r.Some? ==> IsDigits(r.value)
  {
    var n := Run(tail, IsAsciiDigit);
    if n > 0 && Trailer(tail[n..], starts) then Some(tail[..n]) else None
  }

  /** The groups a pattern captures from the tail of the path, after the storefront. */
  function Ids(p: Pattern, tail: string): (r: Option<seq<string>>)
    ensures r.Some? ==> |r.value| == (if p == SongP then 2 else 1)
    ensures r.Some? && p != PlaylistP ==> forall k :: 0 <= k < |r.value| ==> IsDigits(r.value[k])
    ensures r.Some? && p == PlaylistP ==> |r.value[0]| > 3 && StartsWith(r.value[0], "pl.")
  {
    match p
    case SongP =>
      // (\d+)\?i=(\d+)(?:[&#].*)?$
      var n := Run(tail, IsAsciiDigit);
      var q := tail[n..];
      if n > 0 && StartsWith(q, "?i=") then
        var t := q[3..];
        var m := Run(t, IsAsciiDigit);
        if m > 0 && Trailer(t[m..], {'&', '#'}) then Some([tail[..n], t[..m]]) else None
      else None
    case PlaylistP =>
      // (pl\.[\w-]+)(?:\?.*)?$
      if StartsWith(tail, "pl.") then
        var t := tail[3..];
        var m := Run(t, IsNameChar);
        if m > 0 && Trailer(t[m..], {'?'}) then
          assert tail[..3 + m][..3] == tail[..3];
          Some([tail[..3 + m]])
        else None
      else None
    case SongDirectP =>
      // (\d+)(?:[?#].*)?$
      var g := IdGroup(tail, {'?', '#'});
      if g.Some? then Some([g.value]) else None
    case _ =>
      // (\d+)(?:\?.*)?$
      var g := IdGroup(tail, {'?'});
      if g.Some? then Some([g.value]) else None
  }

  /** `PATTERNS[p].match(u)`: the captured groups, storefront first. */
  function Match(p: Pattern, u: string): (r: Option<seq<string>>)
    ensures r.Some? ==> |r.value| == (if p == SongP then 3 else 2)
    ensures r.Some? ==> |r.value[0]| == 2 && IsWordChar(r.value[0][0]) && IsWordChar(r.value[0][1])
    ensures r.Some? && p != PlaylistP ==> forall k :: 1 <= k < |r.value| ==> IsDigits(r.value[k])
    ensures r.Some? && p == PlaylistP ==> StartsWith(r.value[1], "pl.")
    ensures r.Some? ==> HostRest(u).Some?
  {
    var rest := HostRest(u);
    if rest.None? then None
    else
      var path := PathOf(rest.value);
      if path.None? || path.value.segment != Segment(p) then None
      else
        var ids := Ids(p, path.value.tail);
        if ids.None? then None else Some([path.value.storefront] + ids.value)
  }

  // ---------------------------------------------------------------- parse

  /** The dict `parse` returns. */
  datatype Parsed =
    | SongInAlbum(storefront: string, albumId: string, songId: string)
    | DirectSong(storefront: string, songId: string)
    | Other(kind: string, storefront: string, id: string)

  /** The `type` entry of the result. */
  function TypeOf(r: Parsed): string
  {
    if r.Other? then r.kind else "song"
  }

  /** The dict itself, with its keys as `parse` writes them. */
  function Dict(r: Parsed): (d: map<string, string>)
    ensures "type" in d && d["type"] == TypeOf(r)
    ensures "storefront" in d && d["storefront"] == r.storefront
  {
    match r
    case SongInAlbum(sf, albumId, songId) => map["type" := "song", "storefront" := sf, "album_id" := albumId, "song_id" := songId]
    case DirectSong(sf, songId) => map["type" := "song", "storefront" := sf, "song_id" := songId]
    case Other(kind, sf, id) => map["type" := kind, "storefront" := sf, "id" := id]
  }

  /** A song result has a `song_id` entry and no `id` entry. */
  lemma SongDictKeys(r: Parsed)
    requires !r.Other?
    ensures "id" !in Dict(r) && "song_id" in Dict(r) && Dict(r)["song_id"] == r.songId
  {
    var d := Dict(r);
    assert |"id"| == 2 && |"type"| == 4 && |"storefront"| == 10 && |"album_id"| == 8 && |"song_id"| == 7;
    if r.SongInAlbum? {
      assert d.Keys == {"type", "storefront", "album_id", "song_id"};
    } else {
      assert d.Keys == {"type", "storefront", "song_id"};
    }
  }

  /** The loop over the patterns other than the two song forms: the first that matches. */
  function FirstOther(ps: seq<Pattern>, u: string): (r: Option<Parsed>)
    ensures r.Some? ==> r.value.Other?
  {
    if ps == [] then None
    else if ps[0] == SongP || ps[0] == SongDirectP then FirstOther(ps[1..], u)
    else
      var g := Match(ps[0], u);
      if g.Some? then Some(Other(TypeKey(ps[0]), g.value[0], g.value[1])) else FirstOther(ps[1..], u)
  }

  /** `URLParser.parse`: the stripped link against the song form, the direct song form, then the rest. */
  function Parse(url: string): Option<Parsed>
  {
    var u := Strip(url);
    var song := Match(SongP, u);
    if song.Some? then Some(SongInAlbum(song.value[0], song.value[1], song.value[2]))
    else
      var direct := Match(SongDirectP, u);
      if direct.Some? then Some(DirectSong(direct.value[0], direct.value[1]))
      else FirstOther(Patterns, u)
  }

  /** `URLParser.is_valid_url`. */
  predicate IsValidUrl(url: string)
  {
    Parse(url).Some?
  }

  /** The types `parse` can report and their display names. */
  const DisplayNames: seq<(string, string)> :=
    [("album", "专辑"), ("song", "单曲"), ("playlist", "播放列表"), ("artist", "艺术家"), ("music_video", "MV")]

  /** `get_type_display`: the display name of a known type, otherwise the type itself. */
  function TypeDisplay(t: string): (r: string)
    ensures forall k :: 0 <= k < |DisplayNames| && DisplayNames[k].0 == t ==> r == DisplayNames[k].1
    ensures (forall k :: 0 <= k < |DisplayNames| ==> DisplayNames[k].0 != t) ==> r == t
  {
    DisplayOf(DisplayNames, t)
  }

  function DisplayOf(names: seq<(string, string)>, t: string): (r: string)
    requires forall i, j :: 0 <= i < j < |names| ==> names[i].0 != names[j].0
    ensures forall k :: 0 <= k < |names| && names[k].0 == t ==> r == names[k].1
    ensures (forall k :: 0 <= k < |names| ==> names[k].0 != t) ==> r == t
  {
    if names == [] then t
    else if names[0].0 == t then names[0].1
    else DisplayOf(names[1..], t)
  }

  // ---------------------------------------------------------------- properties

  /** The five types `parse` can report. */
  predicate KnownType(t: string)
  {
    t == "album" || t == "song" || t == "playlist" || t == "artist" || t == "music_video"
  }

  /** The shape of an `Other` result: a two-character storefront, and a `pl.` playlist id or a digit id. */
  predicate SoundOther(r: Parsed)
    requires r.Other?
  {
    && Storefront(r.storefront)
    && (r.kind == "album" || r.kind == "playlist" || r.kind == "artist" || r.kind == "music_video")
    && (if r.kind == "playlist" then StartsWith(r.id, "pl.") else IsDigits(r.id))
  }

  lemma {:induction false} FirstOtherSound(ps: seq<Pattern>, u: string)
    requires FirstOther(ps, u).Some?
    ensures SoundOther(FirstOther(ps, u).value)
  {
    var p := ps[0];
    if p == SongP || p == SongDirectP || Match(p, u).None? {
      FirstOtherSound(ps[1..], u);
    } else {
      var g := Match(p, u).value;
      assert FirstOther(ps, u).value == Other(TypeKey(p), g[0], g[1]);
      if p != PlaylistP {
        assert IsDigits(g[1]);
      }
    }
  }

  /**
   * A successful parse reports a two-character storefront, a known type and digit ids, except a
   * playlist id, which starts with `pl.`.
   */
  lemma ParseSound(url: string)
    requires Parse(url).Some?
    ensures var r := Parse(url).value;
            && Storefront(r.storefront)
            && KnownType(TypeOf(r))
            && (r.SongInAlbum? ==> IsDigits(r.albumId) && IsDigits(r.songId))
            && (r.DirectSong? ==> IsDigits(r.songId))
            && (r.Other? ==> if r.kind == "playlist" then StartsWith(r.id, "pl.") else IsDigits(r.id))
  {
    var u := Strip(url);
    var song := Match(SongP, u);
    if song.Some? {
      assert IsDigits(song.value[1]) && IsDigits(song.value[2]);
    } else {
      var direct := Match(SongDirectP, u);
      if direct.Some? {
        assert IsDigits(direct.value[1]);
      } else {
        FirstOtherSound(Patterns, u);
      }
    }
  }

  lemma {:induction false} FirstOtherHost(ps: seq<Pattern>, u: string)
    requires FirstOther(ps, u).Some?
    ensures HostRest(u).Some?
  {
    if !(ps[0] != SongP && ps[0] != SongDirectP && Match(ps[0], u).Some?) {
      FirstOtherHost(ps[1..], u);
    }
  }

  /** The two links a host that `HostRest` accepts can start with. */
  lemma HostRestPrefix(u: string)
    requires HostRest(u).Some?
    ensures StartsWith(u, Scheme + Domain) || StartsWith(u, Scheme + Beta + Domain)
  {
    var r := u[|Scheme|..];
    assert u[..|Scheme|] == Scheme;
    if StartsWith(r, Beta + Domain) {
      assert u[..|Scheme + Beta + Domain|] == u[..|Scheme|] + r[..|Beta + Domain|];
      assert Scheme + Beta + Domain == Scheme + (Beta + Domain);
    } else {
      assert u[..|Scheme + Domain|] == u[..|Scheme|] + r[..|Domain|];
    }
  }

  /** A result is reported as a song exactly when it comes from one of the two song patterns. */
  lemma ParseSongs(url: string)
    ensures Parse(url).Some? && TypeOf(Parse(url).value) == "song" <==>
              Match(SongP, Strip(url)).Some? || Match(SongDirectP, Strip(url)).Some?
    ensures Parse(url).Some? && TypeOf(Parse(url).value) == "song" ==> !Parse(url).value.Other?
  {
    var u := Strip(url);
    if Match(SongP, u).None? && Match(SongDirectP, u).None? && FirstOther(Patterns, u).Some? {
      FirstOtherSound(Patterns, u);
    }
  }

  /** `is_valid_url` only accepts links on the Apple Music host, with or without `beta.`. */
  lemma ValidUrlHost(url: string)
    requires IsValidUrl(url)
    ensures StartsWith(Strip(url), Scheme + Domain) || StartsWith(Strip(url), Scheme + Beta + Domain)
  {
    var u := Strip(url);
    if Match(SongP, u).None? && Match(SongDirectP, u).None? {
      FirstOtherHost(Patterns, u);
    }
    HostRestPrefix(u);
  }

  /** A `?i=` song tail is also an album tail, with the album id as its id. */
  lemma SongTailIsAlbumTail(tail: string)
    requires Ids(SongP, tail).Some?
    ensures Ids(AlbumP, tail) == Some([Ids(SongP, tail).value[0]])
  {
    var n := Run(tail, IsAsciiDigit);
    var q := tail[n..];
    var t := q[3..];
    var m := Run(t, IsAsciiDigit);
    assert q[0] == '?' && q[1] == 'i' && q[2] == '=';
    forall k | 1 <= k < |q|
      ensures q[k] != '\n'
    {
      if k >= 3 + m {
        assert q[k] == t[m..][k - 3 - m];
      } else if k >= 3 {
        assert q[k] == t[k - 3];
      }
    }
    assert Trailer(q, {'?'});
  }

  /** Every link the `?i=` song pattern accepts is also an album link, with the same storefront and album id. */
  lemma SongAlsoAlbum(u: string)
    requires Match(SongP, u).Some?
    ensures Match(AlbumP, u).Some? && Match(AlbumP, u).value == Match(SongP, u).value[..2]
  {
    var path := PathOf(HostRest(u).value).value;
    SongTailIsAlbumTail(path.tail);
    assert Match(AlbumP, u) == Some([path.storefront] + [Ids(SongP, path.tail).value[0]]);
  }

  /** So the order matters: a link both patterns accept is reported as a song of that album. */
  lemma SongBeforeAlbum(url: string)
    requires Match(SongP, Strip(url)).Some?
    ensures Match(AlbumP, Strip(url)).Some?
    ensures Parse(url) == Some(SongInAlbum(Match(AlbumP, Strip(url)).value[0], Match(AlbumP, Strip(url)).value[1], Match(SongP, Strip(url)).value[2]))
  {
    SongAlsoAlbum(Strip(url));
  }

  // ---------------------------------------------------------------- links built from parts

  /** `{storefront}/{segment}/{name}/{tail}`. */
  function PathText(storefront: string, segment: string, name: string, tail: string): string
  {
    storefront + ("/" + (segment + ("/" + (name + ("/" + tail)))))
  }

  /** `https://[beta.]music.apple.com/{storefront}/{segment}/{name}/{tail}`. */
  function Link(beta: bool, storefront: string, segment: string, name: string, tail: string): string
  {
    Scheme + (if beta then Beta else "") + Domain + PathText(storefront, segment, name, tail)
  }

  /** A storefront the pattern accepts. */
  predicate Storefront(sf: string)
  {
    |sf| == 2 && IsWordChar(sf[0]) && IsWordChar(sf[1])
  }

  lemma HostRestLink(beta: bool, rest: string)
    ensures HostRest(Scheme + (if beta then Beta else "") + Domain + rest) == Some(rest)
  {
    var u := Scheme + (if beta then Beta else "") + Domain + rest;
    var r := u[|Scheme|..];
    assert u[..|Scheme|] == Scheme;
    if beta {
      assert r == (Beta + Domain) + rest;
      assert r[..|Beta + Domain|] == Beta + Domain;
    } else {
      assert r == Domain + rest;
      assert r[0] == 'm';
      assert r[..|Domain|] == Domain;
    }
  }

  /** A segment without `/`, the separator, then the rest. */
  lemma SegmentAt(a: string, b: string)
    requires Url.NoneOf(a, {'/'})
    ensures var s := a + ("/" + b);
            Url.FirstOf(s, {'/'}) == |a| && s[..|a|] == a && s[|a| + 1..] == b
  {
    Url.FirstOfAfter(a, "/" + b, {'/'});
    assert ("/" + b)[0] == '/';
  }

  lemma PathOfLink(sf: string, segment: string, name: string, tail: string)
    requires Storefront(sf)
    requires Url.NoneOf(segment, {'/'}) && |name| > 0 && Url.NoneOf(name, {'/'})
    ensures PathOf(PathText(sf, segment, name, tail)) == Some(Path(sf, segment, name, tail))
  {
    var y := name + ("/" + tail);
    var x := segment + ("/" + y);
    var rest := sf + ("/" + x);
    assert rest[..2] == sf && rest[2] == '/' && rest[3..] == x;
    SegmentAt(segment, y);
    SegmentAt(name, tail);
  }

  lemma LinkParts(beta: bool, sf: string, segment: string, name: string, tail: string)
    requires Storefront(sf)
    requires Url.NoneOf(segment, {'/'}) && |name| > 0 && Url.NoneOf(name, {'/'})
    ensures var p := PathOf(HostRest(Link(beta, sf, segment, name, tail)).value);
            p == Some(Path(sf, segment, name, tail))
  {
    HostRestLink(beta, PathText(sf, segment, name, tail));
    PathOfLink(sf, segment, name, tail);
  }

  /** The id group of a tail made of digits and a trailer. */
  lemma IdGroupOf(id: string, extra: string, starts: set<char>)
    requires IsDigits(id) && Trailer(extra, starts) && (extra == [] || !IsAsciiDigit(extra[0]))
    ensures IdGroup(id + extra, starts) == Some(id)
  {
    RunOf(id, extra, IsAsciiDigit);
    assert (id + extra)[|id|..] == extra;
    assert (id + extra)[..|id|] == id;
  }

  /** `strip` keeps a link that starts with `h` and does not end in whitespace. */
  lemma StripLink(s: string)
    requires |s| > 0 && s[0] == 'h' && !IsSpace(s[|s| - 1])
    ensures Strip(s) == s
  {
  }

  /** A last character that is not whitespace: the last of `extra`, or of `id` when `extra` is empty. */
  predicate EndsClean(id: string, extra: string)
  {
    if extra == [] then |id| > 0 && !IsSpace(id[|id| - 1]) else !IsSpace(extra[|extra| - 1])
  }

  lemma LinkEnds(beta: bool, sf: string, segment: string, name: string, id: string, extra: string)
    requires EndsClean(id, extra)
    ensures Strip(Link(beta, sf, segment, name, id + extra)) == Link(beta, sf, segment, name, id + extra)
  {
    var s := Link(beta, sf, segment, name, id + extra);
    assert s[0] == 'h';
    assert s[|s| - 1] == (id + extra)[|id + extra| - 1];
    StripLink(s);
  }

  /** The segments carry no `/`, and the patterns other than the song form have different ones. */
  lemma SegmentClean(p: Pattern)
    ensures Url.NoneOf(Segment(p), {'/'})
  {
  }

  /** A built link matches a pattern exactly when the segment is the pattern's and the tail fits. */
  lemma MatchLink(q: Pattern, beta: bool, sf: string, segment: string, name: string, tail: string)
    requires Storefront(sf)
    requires Url.NoneOf(segment, {'/'}) && |name| > 0 && Url.NoneOf(name, {'/'})
    ensures Match(q, Link(beta, sf, segment, name, tail)) ==
            if segment == Segment(q) && Ids(q, tail).Some? then Some([sf] + Ids(q, tail).value) else None
  {
    var u := Link(beta, sf, segment, name, tail);
    HostRestLink(beta, PathText(sf, segment, name, tail));
    PathOfLink(sf, segment, name, tail);
    assert HostRest(u) == Some(PathText(sf, segment, name, tail));
    assert PathOf(HostRest(u).value) == Some(Path(sf, segment, name, tail));
  }

  /** The `?i=` tail of a song link. */
  lemma SongIds(albumId: string, songId: string, extra: string)
    requires IsDigits(albumId) && IsDigits(songId) && Trailer(extra, {'&', '#'})
    ensures Ids(SongP, albumId + "?i=" + songId + extra) == Some([albumId, songId])
  {
    var tail := albumId + "?i=" + songId + extra;
    assert tail == albumId + ("?i=" + songId + extra);
    RunOf(albumId, "?i=" + songId + extra, IsAsciiDigit);
    var q := tail[|albumId|..];
    assert q == "?i=" + songId + extra;
    assert q[..3] == "?i=";
    assert q[3..] == songId + extra;
    if extra != [] {
      assert extra[0] == '&' || extra[0] == '#';
    }
    RunOf(songId, extra, IsAsciiDigit);
    assert (songId + extra)[|songId|..] == extra;
    assert (songId + extra)[..|songId|] == songId;
    assert tail[..|albumId|] == albumId;
  }

  /** A digit id followed by a query that does not start with `?i=` is not a song tail. */
  lemma NotSongIds(id: string, extra: string)
    requires IsDigits(id) && (extra == [] || !IsAsciiDigit(extra[0])) && !StartsWith(extra, "?i=")
    ensures Ids(SongP, id + extra).None?
  {
    RunOf(id, extra, IsAsciiDigit);
    assert (id + extra)[|id|..] == extra;
  }

  /** The `pl.` tail of a playlist link. */
  lemma PlaylistIds(key: string, extra: string)
    requires |key| > 0 && (forall k :: 0 <= k < |key| ==> IsNameChar(key[k])) && Trailer(extra, {'?'})
    ensures Ids(PlaylistP, "pl." + key + extra) == Some(["pl." + key])
  {
    var tail := "pl." + key + extra;
    assert tail[..3] == "pl.";
    assert tail[3..] == key + extra;
    if extra != [] {
      assert extra[0] == '?';
    }
    RunOf(key, extra, IsNameChar);
    assert (key + extra)[|key|..] == extra;
    assert tail[..3 + |key|] == "pl." + key;
  }

  /** The loop yields the one non-song pattern that matches. */
  lemma {:induction false} FirstOtherOnly(ps: seq<Pattern>, u: string, p: Pattern)
    requires p in ps && p != SongP && p != SongDirectP && Match(p, u).Some?
    requires forall k :: 0 <= k < |ps| && ps[k] != p && ps[k] != SongP && ps[k] != SongDirectP ==> Match(ps[k], u).None?
    ensures FirstOther(ps, u) == Some(Other(TypeKey(p), Match(p, u).value[0], Match(p, u).value[1]))
  {
    if ps[0] != p {
      forall k | 0 <= k < |ps[1..]| && ps[1..][k] != p && ps[1..][k] != SongP && ps[1..][k] != SongDirectP
        ensures Match(ps[1..][k], u).None?
      {
        assert ps[1..][k] == ps[k + 1];
      }
      FirstOtherOnly(ps[1..], u, p);
    }
  }

  /** A `?i=` song link parses to its storefront, album id and song id. */
  lemma ParseSongLink(beta: bool, sf: string, name: string, albumId: string, songId: string, extra: string)
    requires Storefront(sf) && |name| > 0 && Url.NoneOf(name, {'/'})
    requires IsDigits(albumId) && IsDigits(songId) && Trailer(extra, {'&', '#'}) && EndsClean(songId, extra)
    ensures Parse(Link(beta, sf, "album", name, albumId + "?i=" + songId + extra)) == Some(SongInAlbum(sf, albumId, songId))
  {
    var tail := albumId + "?i=" + songId + extra;
    assert tail == (albumId + "?i=") + (songId + extra);
    LinkEnds(beta, sf, "album", name, albumId + "?i=", songId + extra);
    SegmentClean(SongP);
    SongIds(albumId, songId, extra);
    MatchLink(SongP, beta, sf, "album", name, tail);
  }

  /** A direct song link `/song/{name}/{id}` parses to its storefront and song id. */
  lemma ParseDirectLink(beta: bool, sf: string, name: string, id: string, extra: string)
    requires Storefront(sf) && |name| > 0 && Url.NoneOf(name, {'/'})
    requires IsDigits(id) && Trailer(extra, {'?', '#'}) && EndsClean(id, extra)
    ensures Parse(Link(beta, sf, "song", name, id + extra)) == Some(DirectSong(sf, id))
  {
    LinkEnds(beta, sf, "song", name, id, extra);
    SegmentClean(SongDirectP);
    if extra != [] {
      assert extra[0] == '?' || extra[0] == '#';
    }
    IdGroupOf(id, extra, {'?', '#'});
    MatchLink(SongP, beta, sf, "song", name, id + extra);
    MatchLink(SongDirectP, beta, sf, "song", name, id + extra);
  }

  /** A link of one of the other patterns matches no other pattern, so the loop reports it. */
  lemma ParseOtherLink(p: Pattern, beta: bool, sf: string, name: string, tail: string)
    requires p == AlbumP || p == PlaylistP || p == ArtistP || p == MusicVideoP
    requires Storefront(sf) && |name| > 0 && Url.NoneOf(name, {'/'})
    requires Ids(p, tail).Some? && Strip(Link(beta, sf, Segment(p), name, tail)) == Link(beta, sf, Segment(p), name, tail)
    requires p == AlbumP ==> Ids(SongP, tail).None?
    ensures Parse(Link(beta, sf, Segment(p), name, tail)) == Some(Other(TypeKey(p), sf, Ids(p, tail).value[0]))
  {
    var u := Link(beta, sf, Segment(p), name, tail);
    SegmentClean(p);
    OthersMiss(p, beta, sf, name, tail);
    MatchLink(p, beta, sf, Segment(p), name, tail);
    MatchLink(SongP, beta, sf, Segment(p), name, tail);
    MatchLink(SongDirectP, beta, sf, Segment(p), name, tail);
    ParseOnlyOther(u, p);
  }

  /** A link with the segment of one of the other patterns matches none of the remaining ones. */
  lemma OthersMiss(p: Pattern, beta: bool, sf: string, name: string, tail: string)
    requires p == AlbumP || p == PlaylistP || p == ArtistP || p == MusicVideoP
    requires Storefront(sf) && |name| > 0 && Url.NoneOf(name, {'/'})
    ensures forall q :: q != p && q != SongP && q != SongDirectP ==> Match(q, Link(beta, sf, Segment(p), name, tail)).None?
  {
    SegmentClean(p);
    forall q | q != p && q != SongP && q != SongDirectP
      ensures Match(q, Link(beta, sf, Segment(p), name, tail)).None?
    {
      MatchLink(q, beta, sf, Segment(p), name, tail);
    }
  }

  /** A stripped text that matches exactly one of the other patterns and no song pattern. */
  lemma ParseOnlyOther(u: string, p: Pattern)
    requires p != SongP && p != SongDirectP && Strip(u) == u
    requires Match(SongP, u).None? && Match(SongDirectP, u).None? && Match(p, u).Some?
    requires forall q :: q != p && q != SongP && q != SongDirectP ==> Match(q, u).None?
    ensures Parse(u) == Some(Other(TypeKey(p), Match(p, u).value[0], Match(p, u).value[1]))
  {
    assert p in Patterns;
    FirstOtherOnly(Patterns, u, p);
  }

  /**
   * An album, artist or music-video link parses to its type, storefront and id, provided an album
   * link's query does not start with `?i=`.
   */
  lemma ParseItemLink(p: Pattern, beta: bool, sf: string, name: string, id: string, extra: string)
    requires p == AlbumP || p == ArtistP || p == MusicVideoP
    requires Storefront(sf) && |name| > 0 && Url.NoneOf(name, {'/'})
    requires IsDigits(id) && Trailer(extra, {'?'}) && EndsClean(id, extra)
    requires p == AlbumP ==> !StartsWith(extra, "?i=")
    ensures Parse(Link(beta, sf, Segment(p), name, id + extra)) == Some(Other(TypeKey(p), sf, id))
  {
    LinkEnds(beta, sf, Segment(p), name, id, extra);
    if extra != [] {
      assert extra[0] == '?';
    }
    IdGroupOf(id, extra, {'?'});
    if p == AlbumP {
      NotSongIds(id, extra);
    }
    ParseOtherLink(p, beta, sf, name, id + extra);
  }

  /** A playlist link parses to its storefront and `pl.` id. */
  lemma ParsePlaylistLink(beta: bool, sf: string, name: string, key: string, extra: string)
    requires Storefront(sf) && |name| > 0 && Url.NoneOf(name, {'/'})
    requires |key| > 0 && (forall k :: 0 <= k < |key| ==> IsNameChar(key[k]))
    requires Trailer(extra, {'?'}) && EndsClean(key, extra)
    ensures Parse(Link(beta, sf, "playlist", name, "pl." + key + extra)) == Some(Other("playlist", sf, "pl." + key))
  {
    assert "pl." + key + extra == ("pl." + key) + extra;
    LinkEnds(beta, sf, "playlist", name, "pl." + key, extra);
    PlaylistIds(key, extra);
    ParseOtherLink(PlaylistP, beta, sf, name, "pl." + key + extra);
  }

  /** Every known type has its own display name in the table, which differs from the type. */
  lemma DisplayKnown(t: string)
    requires KnownType(t)
    ensures exists k :: 0 <= k < |DisplayNames| && DisplayNames[k].0 == t && TypeDisplay(t) == DisplayNames[k].1
    ensures TypeDisplay(t) != t
  {
    var k := if t == "album" then 0 else if t == "song" then 1 else if t == "playlist" then 2 else if t == "artist" then 3 else 4;
    assert DisplayNames[k].0 == t;
  }

  /** The display name of every type `parse` reports is the table's, never the raw type. */
  lemma DisplayOfParsed(url: string)
    requires Parse(url).Some?
    ensures TypeDisplay(TypeOf(Parse(url).value)) != TypeOf(Parse(url).value)
  {
    ParseSound(url);
    DisplayKnown(TypeOf(Parse(url).value));
  }
}
