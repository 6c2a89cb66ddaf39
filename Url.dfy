/**
 * Apple Music links: the prefix guard, the split into path and query as `urlparse` does it,
 * and the kind, storefront and id read off the path segments.
 */
module Url {
  import opened Wrappers
  import opened Text
  import opened Seqs

  datatype UrlKind = SongUrl | AlbumUrl | PlaylistUrl | ArtistUrl

  /** The `URLType` constant of a kind. */
  function KindName(k: UrlKind): string
  {
    match k
    case SongUrl => "song"
    case AlbumUrl => "album"
    case PlaylistUrl => "playlist"
    case ArtistUrl => "artist"
  }

  lemma KindNameClean(k: UrlKind)
    ensures '/' !in KindName(k) && KindName(k) in ["song", "album", "playlist", "artist"]
  {
  }

  /** A parsed link: `Song`, `Album`, `Playlist` or `Artist`. */
  datatype AppleMusicUrl = AppleMusicUrl(kind: UrlKind, url: string, storefront: string, id: string)

  // ---------------------------------------------------------------- the regular expression

  // `.*` then `/`: a slash comes before any newline.
  predicate SlashFirst(t: string)
  {
    t != [] && (t[0] == '/' || (t[0] != '\n' && SlashFirst(t[1..])))
  }

  /** The type word `w` starts at offset 27 and is followed by a slash before any newline. */
  predicate TypeAt(s: string, w: string)
    requires |s| >= 27
  {
    StartsWith(s[27..], w) && SlashFirst(s[27 + |w|..])
  }

  // regex.match(r"https://music.apple.com/(.{2})/(song|album|playlist|artist).*/(pl.*|\d*)", url):
  // the unescaped dots match any character but a newline, and the final group may be empty.
  predicate GuardMatches(s: string)
  {
    |s| >= 27 && s[..13] == "https://music" && s[13] != '\n' && s[14..19] == "apple" && s[19] != '\n' &&
    s[20..24] == "com/" && s[24] != '\n' && s[25] != '\n' && s[26] == '/' &&
    (TypeAt(s, "song") || TypeAt(s, "album") || TypeAt(s, "playlist") || TypeAt(s, "artist"))
  }

  // ---------------------------------------------------------------- urlparse

  /** The index of the first character of `s` in `cs`, or `|s|`. */
  function FirstOf(s: string, cs: set<char>): (i: nat)
    ensures i <= |s|
    ensures forall k :: 0 <= k < i ==> s[k] !in cs
    ensures i < |s| ==> s[i] in cs
  {
    if s == [] || s[0] in cs then 0 else 1 + FirstOf(s[1..], cs)
  }

  /** The characters `urlsplit` deletes before parsing. */
  predicate Unsafe(c: char) { c == '\t' || c == '\r' || c == '\n' }

  /** The path and query of an `https://` link. */
  datatype Parts = Parts(netloc: string, path: string, query: string)

  /**
   * `urlparse` on `https://...`: tabs and line breaks are deleted, the netloc runs to the first
   * `/`, `?` or `#`, the fragment is cut at the first `#`, the query at the first `?`, and the
   * parameters at the first `;` of the last path segment.
   */
  function SplitUrl(s: string): (p: Parts)
    requires StartsWith(s, "https://")
  {
    SplitRest(Filter(s[8..], (c: char) => !Unsafe(c)))
  }

  /** The split of what follows `https://` once the unsafe characters are gone. */
  function SplitRest(rest: string): Parts
  {
    var e := FirstOf(rest, {'/', '?', '#'});
    var tail := rest[e..];
    var noFragment := tail[..FirstOf(tail, {'#'})];
    var q := FirstOf(noFragment, {'?'});
    Parts(rest[..e], SplitParams(noFragment[..q]), if q < |noFragment| then noFragment[q + 1..] else "")
  }

  /** The position just after the last `/` of `s`, or 0 when there is none. */
  function LastSegmentStart(s: string): (j: nat)
    ensures j <= |s| && '/' !in s[j..]
    ensures 0 < j ==> s[j - 1] == '/'
  {
    if s == [] then 0
    else if s[|s| - 1] == '/' then |s|
    else
      var j := LastSegmentStart(s[..|s| - 1]);
      assert s[j..] == s[..|s| - 1][j..] + [s[|s| - 1]];
      j
  }

  /**
   * `_splitparams` on an https path: the path ends at the first `;` after its last `/`
   * (at the first `;` of all when it has no `/`); a path without `;` is left whole.
   */
  function SplitParams(path: string): (r: string)
    ensures LastSegmentStart(path) <= |r| <= |path| && path[..|r|] == r && ';' !in r[LastSegmentStart(path)..]
  {
    var j := LastSegmentStart(path);
    var cut := j + FirstOf(path[j..], {';'});
    assert path[..cut][j..] == path[j..][..cut - j];
    path[..cut]
  }

  /** A path without `;` keeps all of itself. */
  lemma SplitParamsNone(path: string)
    requires ';' !in path
    ensures SplitParams(path) == path
  {
    var j := LastSegmentStart(path);
    FirstOfNone(path[j..], {';'});
  }

  /** The last `/` of `prefix + seg`, when `seg` has none, ends `prefix`. */
  lemma {:induction false} LastSegmentAfter(prefix: string, seg: string)
    requires prefix != [] && prefix[|prefix| - 1] == '/' && '/' !in seg
    ensures LastSegmentStart(prefix + seg) == |prefix|
    decreases |seg|
  {
    if seg == [] {
      assert prefix + seg == prefix;
    } else {
      var s := prefix + seg;
      assert s[..|s| - 1] == prefix + seg[..|seg| - 1];
      LastSegmentAfter(prefix, seg[..|seg| - 1]);
    }
  }

  /** The parameters of the last segment are cut off with their `;`. */
  lemma SplitParamsCut(prefix: string, id: string, params: string)
    requires prefix != [] && prefix[|prefix| - 1] == '/'
    requires '/' !in id && ';' !in id && '/' !in params
    ensures SplitParams(prefix + (id + ";" + params)) == prefix + id
  {
    var seg := id + ";" + params;
    var path := prefix + seg;
    assert '/' !in seg;
    LastSegmentAfter(prefix, seg);
    assert path[|prefix|..] == seg;
    assert seg == id + (";" + params);
    FirstOfAfter(id, ";" + params, {';'});
    assert path[..|prefix| + |id|] == prefix + id;
  }

  /** `urlparse(url).path.split("/")`. */
  function Segments(s: string): (r: seq<string>)
    requires StartsWith(s, "https://")
  {
    Split(SplitUrl(s).path, '/')
  }

  /** `value.replace('+', ' ')`, which `parse_qs` applies before it unquotes. */
  function SpacesForPlus(v: string): (r: string)
    ensures |r| == |v|
    ensures forall k :: 0 <= k < |v| ==> r[k] == (if v[k] == '+' then ' ' else v[k])
  {
    if v == [] then [] else [if v[0] == '+' then ' ' else v[0]] + SpacesForPlus(v[1..])
  }

  /** A value without `+` is kept. */
  lemma SpacesForPlusKeeps(v: string)
    requires '+' !in v
    ensures SpacesForPlus(v) == v
  {
  }

  /**
   * `parse_qs(query).get("i")[0]`: the value of the first `&`-separated item whose name is `i`
   * and whose value is non-empty (items without `=` or with an empty value are dropped), with
   * each `+` read as a space.
   */
  function FirstI(items: seq<string>): (r: Option<string>)
    ensures r.Some? ==> exists v :: v != [] && "i=" + v in items && r.value == SpacesForPlus(v)
    ensures r.Some? ==> exists k :: 0 <= k < |items| && IItem(items[k]) && r.value == SpacesForPlus(items[k][2..])
                                    && forall j :: 0 <= j < k ==> !IItem(items[j])
    ensures r.None? ==> forall k :: 0 <= k < |items| ==> !IItem(items[k])
  {
    if items == [] then None
    else
      var p := items[0];
      if IItem(p) then
        assert p == "i=" + p[2..];
        Some(SpacesForPlus(p[2..]))
      else
        var r := FirstI(items[1..]);
        if r.None? then r
        else
          var k :| 0 <= k < |items[1..]| && IItem(items[1..][k]) && r.value == SpacesForPlus(items[1..][k][2..])
                   && forall j :: 0 <= j < k ==> !IItem(items[1..][j]);
          var q := items[k + 1];
          assert q == "i=" + q[2..] && q in items;
          assert forall j :: 1 <= j < k + 1 ==> items[j] == items[1..][j - 1];
          r
  }

  /** An item of the query that `parse_qs` keeps under the name `i`: `split('=', 1)` gives the name `i` exactly when it starts with `i=`, and an empty value is dropped. */
  predicate IItem(p: string)
  {
    StartsWith(p, "i=") && |p| > 2
  }

  // ---------------------------------------------------------------- parse_url, is_valid_url

  /** `list index out of range`, raised by `paths[1]` or `paths[2]` on a short path. */
  const IndexErrorMessage := "list index out of range"

  /**
   * `AppleMusicURL.parse_url`: None when the guard fails or the type segment is none of the
   * four; an IndexError when the path has fewer than three segments.
   */
  function ParseUrl(u: string): (r: Result<Option<AppleMusicUrl>>)
    ensures !GuardMatches(u) ==> r == Success(None)
    ensures r.Failure? ==> GuardMatches(u) && |Segments(u)| < 3 && r.error == IndexErrorMessage
    ensures r.Success? && r.value.Some? ==>
              GuardMatches(u) && |Segments(u)| >= 3 && r.value.value.url == u && r.value.value.storefront == Segments(u)[1]
  {
    if !GuardMatches(u) then Success(None)
    else
      var parts := SplitUrl(u);
      var paths := Split(parts.path, '/');
      if |paths| < 3 then Failure(IndexErrorMessage)
      else
        var storefront := paths[1];
        var last := paths[|paths| - 1];
        if paths[2] == "song" then Success(Some(AppleMusicUrl(SongUrl, u, storefront, last)))
        else if paths[2] == "album" then
          var i := FirstI(Split(parts.query, '&'));
          if parts.query != "" && i.Some? then Success(Some(AppleMusicUrl(SongUrl, u, storefront, i.value)))
          else Success(Some(AppleMusicUrl(AlbumUrl, u, storefront, last)))
        else if paths[2] == "artist" then Success(Some(AppleMusicUrl(ArtistUrl, u, storefront, last)))
        else if paths[2] == "playlist" then Success(Some(AppleMusicUrl(PlaylistUrl, u, storefront, last)))
        else Success(None)
  }

  /** Song, artist and playlist links take their id from the last segment; other types give None. */
  lemma ParseKinds(u: string)
    requires GuardMatches(u) && |Segments(u)| >= 3
    ensures var paths := Segments(u);
            var r := ParseUrl(u);
            var last := paths[|paths| - 1];
            && (paths[2] == "song" ==> r == Success(Some(AppleMusicUrl(SongUrl, u, paths[1], last))))
            && (paths[2] == "artist" ==> r == Success(Some(AppleMusicUrl(ArtistUrl, u, paths[1], last))))
            && (paths[2] == "playlist" ==> r == Success(Some(AppleMusicUrl(PlaylistUrl, u, paths[1], last))))
            && (paths[2] !in ["song", "album", "artist", "playlist"] ==> r == Success(None))
  {
  }

  /** An album link names the song of its first `i` query value, else the album of its last segment. */
  lemma ParseAlbum(u: string)
    requires GuardMatches(u) && |Segments(u)| >= 3 && Segments(u)[2] == "album"
    ensures var paths := Segments(u);
            var r := ParseUrl(u);
            var i := FirstI(Split(SplitUrl(u).query, '&'));
            && (i.Some? ==> r == Success(Some(AppleMusicUrl(SongUrl, u, paths[1], i.value))))
            && (i.None? ==> r == Success(Some(AppleMusicUrl(AlbumUrl, u, paths[1], paths[|paths| - 1]))))
  {
    var q := SplitUrl(u).query;
    if q == "" {
      assert Split(q, '&') == [""];
    }
  }

  /** `AppleMusicURL.is_valid_url`: whether `parse_url` returns a link; its exception propagates. */
  function IsValidUrl(u: string): (r: Result<bool>)
    ensures r == Success(true) <==> ParseUrl(u).Success? && ParseUrl(u).value.Some?
    ensures r == Success(false) <==> ParseUrl(u) == Success(None)
    ensures r.Failure? <==> ParseUrl(u).Failure?
  {
    var p := ParseUrl(u);
    if p.Failure? then Failure(p.error) else Success(p.value.Some?)
  }

  // ---------------------------------------------------------------- canonical links

  /** No character of `s` is in `cs`. */
  predicate NoneOf(s: string, cs: set<char>)
  {
    forall k :: 0 <= k < |s| ==> s[k] !in cs
  }

  /** A storefront or id that the link syntax carries verbatim. */
  predicate Plain(x: string)
  {
    NoneOf(x, {'/', ';', '?', '#', '&', '+', '\t', '\r', '\n'})
  }

  const Host := "music.apple.com"

  /** The canonical link `https://music.apple.com/{storefront}/{type}/{id}`. */
  function LinkOf(kind: UrlKind, storefront: string, id: string): string
  {
    "https://" + Host + "/" + storefront + "/" + KindName(kind) + "/" + id
  }

  lemma {:induction false} FirstOfAfter(a: string, b: string, cs: set<char>)
    requires NoneOf(a, cs)
    ensures FirstOf(a + b, cs) == |a| + FirstOf(b, cs)
  {
    if a != [] {
      assert (a + b)[1..] == a[1..] + b;
      FirstOfAfter(a[1..], b, cs);
    } else {
      assert a + b == b;
    }
  }

  lemma {:induction false} FirstOfNone(s: string, cs: set<char>)
    requires NoneOf(s, cs)
    ensures FirstOf(s, cs) == |s|
  {
    if s != [] {
      FirstOfNone(s[1..], cs);
    }
  }

  lemma HostClean()
    ensures NoneOf(Host, {'/', '?', '#', '\t', '\r', '\n'})
  {
  }

  lemma NoneOfConcat(a: string, b: string, cs: set<char>)
    requires NoneOf(a, cs) && NoneOf(b, cs)
    ensures NoneOf(a + b, cs)
  {
  }

  /**
   * The split of a clean link: the host is the netloc, the path runs to the `?` that
   * starts `extra`, if any, less the parameters of its last segment, and the query is the rest.
   */
  lemma SplitClean(path: string, extra: string)
    requires |path| > 0 && path[0] == '/' && NoneOf(path, PathStops)
    requires NoneOf(extra, {'#', '\t', '\r', '\n'}) && (extra == "" || extra[0] == '?')
    ensures var u := "https://" + Host + path + extra;
            StartsWith(u, "https://") && SplitUrl(u) == Parts(Host, SplitParams(path), if extra == "" then "" else extra[1..])
  {
    var u := "https://" + Host + path + extra;
    assert u[..8] == "https://";
    assert u[8..] == Host + (path + extra);
    KeepClean(path, extra);
    SplitRestClean(path, extra);
  }

  lemma KeepClean(path: string, extra: string)
    requires NoneOf(path, {'\t', '\r', '\n'}) && NoneOf(extra, {'\t', '\r', '\n'})
    ensures Filter(Host + (path + extra), (c: char) => !Unsafe(c)) == Host + (path + extra)
  {
    HostClean();
    assert NoneOf(Host + (path + extra), {'\t', '\r', '\n'});
    FilterKeepsAll(Host + (path + extra), (c: char) => !Unsafe(c));
  }

  lemma SplitRestClean(path: string, extra: string)
    requires |path| > 0 && path[0] == '/' && NoneOf(path, {'?', '#'})
    requires NoneOf(extra, {'#'}) && (extra == "" || extra[0] == '?')
    ensures SplitRest(Host + (path + extra)) == Parts(Host, SplitParams(path), if extra == "" then "" else extra[1..])
  {
    var rest := Host + (path + extra);
    HostClean();
    FirstOfAfter(Host, path + extra, {'/', '?', '#'});
    assert rest[|Host|..] == path + extra;
    assert rest[..|Host|] == Host;
    TailSplit(path, extra);
  }

  lemma TailSplit(path: string, extra: string)
    requires NoneOf(path, {'?', '#'}) && NoneOf(extra, {'#'}) && (extra == "" || extra[0] == '?')
    ensures var tail := path + extra;
            var noFragment := tail[..FirstOf(tail, {'#'})];
            var q := FirstOf(noFragment, {'?'});
            noFragment == tail && noFragment[..q] == path &&
            (if q < |noFragment| then noFragment[q + 1..] else "") == (if extra == "" then "" else extra[1..])
  {
    var tail := path + extra;
    assert NoneOf(tail, {'#'});
    FirstOfNone(tail, {'#'});
    assert tail[..|tail|] == tail;
    FirstOfAfter(path, extra, {'?'});
    assert tail[..|path|] == path;
    if extra != "" {
      assert tail[|path| + 1..] == extra[1..];
    }
  }

  /** Splitting `/{a}/{b}/{c}` with separator-free parts. */
  lemma SplitThree(a: string, b: string, c: string)
    requires '/' !in a && '/' !in b && '/' !in c
    ensures Split("/" + a + "/" + b + "/" + c, '/') == ["", a, b, c]
  {
    var t3 := b + "/" + c;
    var t2 := a + "/" + t3;
    assert "/" + a + "/" + b + "/" + c == "" + "/" + t2;
    SplitNoSep(c, "", '/');
    SplitSlash(b, c);
    assert Split(t3, '/') == [b, c];
    SplitSlash(a, t3);
    assert Split(t2, '/') == [a, b, c];
    SplitSlash("", t2);
  }

  /** A separator-free first part is split off on its own. */
  lemma SplitSlash(x: string, y: string)
    requires '/' !in x
    ensures Split(x + "/" + y, '/') == [x] + Split(y, '/')
  {
    assert x + "/" + y == x + ['/'] + y;
    SplitNoSep(x, y, '/');
  }

  /** The guard accepts any link of the form `https://music.apple.com/{storefront}/{type}/...`. */
  lemma GuardCanonical(kind: UrlKind, storefront: string, rest: string)
    requires |storefront| == 2 && Plain(storefront)
    ensures GuardMatches("https://" + Host + "/" + storefront + "/" + KindName(kind) + "/" + rest)
  {
    var u := "https://" + Host + "/" + storefront + "/" + KindName(kind) + "/" + rest;
    var w := KindName(kind);
    assert u[..13] == "https://music";
    assert u[14..19] == "apple" && u[20..24] == "com/";
    assert u[24] == storefront[0] && u[25] == storefront[1] && u[26] == '/';
    assert u[27..] == w + "/" + rest;
    assert StartsWith(u[27..], w);
    assert u[27 + |w|..] == "/" + rest;
  }

  /** The path segments of a canonical link. */
  lemma CanonicalParts(kind: UrlKind, storefront: string, id: string, extra: string)
    requires |storefront| == 2 && Plain(storefront) && Plain(id)
    requires NoneOf(extra, {'#', '\t', '\r', '\n'}) && (extra == "" || extra[0] == '?')
    ensures var u := LinkOf(kind, storefront, id) + extra;
            && GuardMatches(u)
            && SplitUrl(u) == Parts(Host, "/" + storefront + "/" + KindName(kind) + "/" + id, if extra == "" then "" else extra[1..])
            && Segments(u) == ["", storefront, KindName(kind), id]
  {
    var w := KindName(kind);
    var u := LinkOf(kind, storefront, id) + extra;
    assert u == "https://" + Host + "/" + storefront + "/" + w + "/" + (id + extra);
    PlainParts(storefront);
    PlainParts(id);
    GuardCanonical(kind, storefront, id + extra);
    CanonicalSplit(kind, storefront, id, extra);
    CanonicalPath(storefront, w, id);
    assert SplitUrl(u).path == "/" + storefront + "/" + w + "/" + id;
    KindNameClean(kind);
    SplitThree(storefront, w, id);
  }

  lemma CanonicalSplit(kind: UrlKind, storefront: string, id: string, extra: string)
    requires NoneOf(storefront, PathStops) && NoneOf(id, PathStops)
    requires NoneOf(extra, {'#', '\t', '\r', '\n'}) && (extra == "" || extra[0] == '?')
    ensures var u := LinkOf(kind, storefront, id) + extra;
            StartsWith(u, "https://") &&
            SplitUrl(u) == Parts(Host, SplitParams("/" + storefront + "/" + KindName(kind) + "/" + id), if extra == "" then "" else extra[1..])
  {
    var path := "/" + storefront + "/" + KindName(kind) + "/" + id;
    assert LinkOf(kind, storefront, id) + extra == "https://" + Host + path + extra;
    PathClean(storefront, KindName(kind), id, PathStops);
    SplitClean(path, extra);
  }

  /** The path of a canonical link has no parameters to cut. */
  lemma CanonicalPath(storefront: string, w: string, id: string)
    requires Plain(storefront) && Plain(id) && w in ["song", "album", "playlist", "artist"]
    ensures SplitParams("/" + storefront + "/" + w + "/" + id) == "/" + storefront + "/" + w + "/" + id
  {
    PathClean(storefront, w, id, {';'});
    SplitParamsNone("/" + storefront + "/" + w + "/" + id);
  }

  /** A plain part has no slash, ampersand, `;`, `+` or path stop. */
  lemma PlainParts(x: string)
    requires Plain(x)
    ensures '/' !in x && '&' !in x && ';' !in x && '+' !in x && NoneOf(x, PathStops)
  {
  }

  const PathStops: set<char> := {'?', '#', '\t', '\r', '\n'}

  /** The path of a canonical link has no character of `cs` (stops or `;`) its parts lack. */
  lemma PathClean(storefront: string, w: string, id: string, cs: set<char>)
    requires cs <= PathStops + {';'}
    requires NoneOf(storefront, cs) && NoneOf(id, cs) && w in ["song", "album", "playlist", "artist"]
    ensures NoneOf("/" + storefront + "/" + w + "/" + id, cs)
  {
    var path := "/" + storefront + "/" + w + "/" + id;
    forall k | 0 <= k < |path|
      ensures path[k] !in cs
    {
      if k == 0 || k == |storefront| + 1 || k == |storefront| + |w| + 2 {
      } else if k <= |storefront| {
        assert path[k] == storefront[k - 1];
      } else if k < |storefront| + |w| + 2 {
        assert path[k] == w[k - |storefront| - 2];
      } else {
        assert path[k] == id[k - |storefront| - |w| - 3];
      }
    }
  }

  /** Parsing a canonical song, artist or playlist link gives back its kind, storefront and id. */
  lemma ParseCanonical(kind: UrlKind, storefront: string, id: string)
    requires kind != AlbumUrl
    requires |storefront| == 2 && Plain(storefront) && Plain(id)
    ensures ParseUrl(LinkOf(kind, storefront, id)) == Success(Some(AppleMusicUrl(kind, LinkOf(kind, storefront, id), storefront, id)))
    ensures IsValidUrl(LinkOf(kind, storefront, id)) == Success(true)
  {
    var u := LinkOf(kind, storefront, id);
    CanonicalParts(kind, storefront, id, "");
    assert u + "" == u;
    ParseKinds(u);
  }

  /** An album link without a query is the album; its id is the last segment. */
  lemma ParseCanonicalAlbum(storefront: string, id: string)
    requires |storefront| == 2 && Plain(storefront) && Plain(id)
    ensures ParseUrl(LinkOf(AlbumUrl, storefront, id)) == Success(Some(AppleMusicUrl(AlbumUrl, LinkOf(AlbumUrl, storefront, id), storefront, id)))
  {
    var u := LinkOf(AlbumUrl, storefront, id);
    CanonicalParts(AlbumUrl, storefront, id, "");
    assert u + "" == u;
    ParseAlbum(u);
  }

  /** An album link with `?i={song}` names the song, not the album. */
  lemma ParseAlbumSong(storefront: string, albumId: string, songId: string)
    requires |storefront| == 2 && Plain(storefront) && Plain(albumId) && Plain(songId) && songId != ""
    ensures var u := LinkOf(AlbumUrl, storefront, albumId) + "?i=" + songId;
            ParseUrl(u) == Success(Some(AppleMusicUrl(SongUrl, u, storefront, songId)))
  {
    var u := LinkOf(AlbumUrl, storefront, albumId) + "?i=" + songId;
    ParseAlbumQuery(storefront, albumId, songId);
    SpacesForPlusKeeps(songId);
  }

  /** An album link with `?i={value}` names the song `value`, each `+` read as a space. */
  lemma ParseAlbumQuery(storefront: string, albumId: string, songId: string)
    requires |storefront| == 2 && Plain(storefront) && Plain(albumId) && songId != ""
    requires NoneOf(songId, {'&', '#', '\t', '\r', '\n'})
    ensures var u := LinkOf(AlbumUrl, storefront, albumId) + "?i=" + songId;
            ParseUrl(u) == Success(Some(AppleMusicUrl(SongUrl, u, storefront, SpacesForPlus(songId))))
  {
    var extra := "?i=" + songId;
    QueryOfSong(songId);
    var u := LinkOf(AlbumUrl, storefront, albumId) + extra;
    assert LinkOf(AlbumUrl, storefront, albumId) + "?i=" + songId == u;
    CanonicalParts(AlbumUrl, storefront, albumId, extra);
    ParseAlbum(u);
  }

  /** The query `i={song}` names the song, each `+` read as a space. */
  lemma QueryOfSong(songId: string)
    requires NoneOf(songId, {'&', '#', '\t', '\r', '\n'}) && songId != ""
    ensures var extra := "?i=" + songId;
            NoneOf(extra, {'#', '\t', '\r', '\n'}) && extra[0] == '?' && FirstI(Split(extra[1..], '&')) == Some(SpacesForPlus(songId))
  {
    var extra := "?i=" + songId;
    var q := "i=" + songId;
    assert extra[1..] == q;
    assert forall k :: 3 <= k < |extra| ==> extra[k] == songId[k - 3];
    assert forall k :: 2 <= k < |q| ==> q[k] == songId[k - 2];
    assert '&' !in q;
    SplitNoSep(q, "", '&');
    assert FirstOf(q, {'='}) == 1;
    assert q[..1] == "i" && q[2..] == songId;
  }

  /**
   * `urlparse` drops the parameters of the last segment: a link whose id is followed by
   * `;params` parses as the bare id.
   */
  lemma ParseParamsStripped(kind: UrlKind, storefront: string, id: string, params: string)
    requires |storefront| == 2 && Plain(storefront) && Plain(id) && NoneOf(params, PathStops + {'/'})
    ensures var u := LinkOf(kind, storefront, id + ";" + params);
            ParseUrl(u) == Success(Some(AppleMusicUrl(kind, u, storefront, id)))
  {
    var u := LinkOf(kind, storefront, id + ";" + params);
    ParamsSegments(kind, storefront, id, params);
    ParseKinds(u);
    if kind == AlbumUrl {
      ParseAlbum(u);
      assert Split("", '&') == [""];
    }
  }

  /** The parameters after `;` are cut off the last segment. */
  lemma ParamsSegments(kind: UrlKind, storefront: string, id: string, params: string)
    requires |storefront| == 2 && Plain(storefront) && Plain(id) && NoneOf(params, PathStops + {'/'})
    ensures var u := LinkOf(kind, storefront, id + ";" + params);
            && GuardMatches(u) && SplitUrl(u).query == ""
            && Segments(u) == ["", storefront, KindName(kind), id]
  {
    var w := KindName(kind);
    var full := id + ";" + params;
    var u := LinkOf(kind, storefront, full);
    var prefix := "/" + storefront + "/" + w + "/";
    PlainParts(storefront);
    PlainParts(id);
    assert NoneOf(full, PathStops) by {
      forall k | 0 <= k < |full| ensures full[k] !in PathStops {
        if k < |id| { assert full[k] == id[k]; }
        else if k > |id| { assert full[k] == params[k - |id| - 1]; }
      }
    }
    assert u + "" == u;
    GuardCanonical(kind, storefront, full);
    CanonicalSplit(kind, storefront, full, "");
    assert "/" + storefront + "/" + w + "/" + full == prefix + full;
    assert '/' !in params by {
      assert NoneOf(params, {'/'});
    }
    SplitParamsCut(prefix, id, params);
    assert prefix + id == "/" + storefront + "/" + w + "/" + id;
    KindNameClean(kind);
    SplitThree(storefront, w, id);
  }

  /** A link outside `music.apple.com` is not valid. */
  lemma OtherHostInvalid(u: string)
    requires !StartsWith(u, "https://music")
    ensures IsValidUrl(u) == Success(false)
  {
  }
}
