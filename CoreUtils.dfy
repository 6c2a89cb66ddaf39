/**
 * The downloader's helper functions: integer byte length, the best-playlist choice for a
 * codec, chunking, digit extraction, the TTML-to-LRC conversion, file and directory name
 * cleaning, output suffixes and the playlist position index.
 */
module CoreUtils {
  import opened Wrappers
  import opened Text
  import opened Seqs
  import opened Sorting
  import opened CoreTypes

  // ---------------------------------------------------------------- byte_length

  function Abs(i: int): nat { if i < 0 then -i else i }

  function Pow2(n: nat): (r: nat)
    ensures r >= 1
  {
    if n == 0 then 1 else 2 * Pow2(n - 1)
  }

  lemma {:induction false} Pow2Monotone(a: nat, b: nat)
    requires a <= b
    ensures Pow2(a) <= Pow2(b)
    decreases b - a
  {
    if a < b {
      Pow2Monotone(a, b - 1);
    }
  }

  /** Python's `int.bit_length()`: the number of binary digits of `|i|`, 0 for 0. */
  function BitLength(i: int): nat
    decreases Abs(i)
  {
    if i == 0 then 0 else 1 + BitLength(Abs(i) / 2)
  }

  /** `|i|` has exactly `bit_length` binary digits. */
  lemma {:induction false} BitLengthSpec(i: int)
    ensures BitLength(i) == 0 <==> i == 0
    ensures Abs(i) < Pow2(BitLength(i))
    ensures BitLength(i) > 0 ==> Pow2(BitLength(i) - 1) <= Abs(i)
    decreases Abs(i)
  {
    if i != 0 {
      BitLengthSpec(Abs(i) / 2);
    }
  }

  /** `byte_length`: `(bit_length + 7) // 8`. */
  function ByteLength(i: int): nat
  {
    (BitLength(i) + 7) / 8
  }

  /** `byte_length(i)` is the fewest bytes that hold `|i|`: 0 exactly for 0. */
  lemma ByteLengthSpec(i: int)
    ensures ByteLength(i) == 0 <==> i == 0
    ensures Abs(i) < Pow2(8 * ByteLength(i))
    ensures ByteLength(i) > 0 ==> Pow2(8 * (ByteLength(i) - 1)) <= Abs(i)
  {
    var n, r := BitLength(i), ByteLength(i);
    BitLengthSpec(i);
    Pow2Monotone(n, 8 * r);
    if r > 0 {
      Pow2Monotone(8 * (r - 1), n - 1);
    }
  }

  // ---------------------------------------------------------------- find_best_codec

  /** One variant stream of a master playlist, as far as the codec choice reads it. */
  datatype Playlist = Playlist(audio: string, averageBandwidth: int, bitDepth: Option<int>,
                               sampleRate: Option<int>, groupId: string, uri: string)

  predicate BandwidthGeq(a: Playlist, b: Playlist)
  {
    a.averageBandwidth >= b.averageBandwidth
  }

  /** `sort(key=average_bandwidth, reverse=True)`: stable, so equal bandwidths keep their order. */
  function SortByBandwidth(ps: seq<Playlist>): (r: seq<Playlist>)
    ensures multiset(r) == multiset(ps)
  {
    if ps == [] then []
    else
      assert ps == ps[..|ps| - 1] + [ps[|ps| - 1]];
      Insert(ps[|ps| - 1], SortByBandwidth(ps[..|ps| - 1]), BandwidthGeq)
  }

  lemma {:induction false} SortByBandwidthSorted(ps: seq<Playlist>)
    ensures SortedBy(SortByBandwidth(ps), BandwidthGeq)
  {
    if ps != [] {
      SortByBandwidthSorted(ps[..|ps| - 1]);
      InsertSorted(ps[|ps| - 1], SortByBandwidth(ps[..|ps| - 1]), BandwidthGeq);
    }
  }

  /** The index of the first playlist with the largest bandwidth. */
  function FirstWidest(ps: seq<Playlist>): (k: nat)
    requires ps != []
    ensures k < |ps|
    ensures forall j :: 0 <= j < |ps| ==> ps[j].averageBandwidth <= ps[k].averageBandwidth
    ensures forall j :: 0 <= j < k ==> ps[j].averageBandwidth < ps[k].averageBandwidth
  {
    if |ps| == 1 then 0
    else
      var k := FirstWidest(ps[..|ps| - 1]);
      if ps[|ps| - 1].averageBandwidth > ps[k].averageBandwidth then |ps| - 1 else k
  }

  /** Stability: the head of the sorted streams is the first of the widest ones. */
  lemma {:induction false} SortByBandwidthHead(ps: seq<Playlist>)
    requires ps != []
    ensures SortByBandwidth(ps)[0] == ps[FirstWidest(ps)]
  {
    var x := ps[|ps| - 1];
    if |ps| > 1 {
      var init := ps[..|ps| - 1];
      SortByBandwidthHead(init);
      var s := SortByBandwidth(init);
      assert s[0] == init[FirstWidest(init)];
    }
  }

  predicate Within(p: Playlist, maxBitDepth: int, maxSampleRate: int)
  {
    p.bitDepth.GetOr(0) <= maxBitDepth && p.sampleRate.GetOr(0) <= maxSampleRate
  }

  /** The streams whose audio group matches the pattern, widest first. */
  function Available(ps: seq<Playlist>, p: CodecPattern): seq<Playlist>
  {
    SortByBandwidth(Filter(ps, (q: Playlist) => Matches(p, q.audio)))
  }

  /** The streams `find_best_codec` chooses among, in the order it scans them. */
  function Candidates(ps: seq<Playlist>, p: CodecPattern, codec: string, maxBitDepth: int, maxSampleRate: int): seq<Playlist>
  {
    if codec == Alac then Filter(Available(ps, p), (q: Playlist) => Within(q, maxBitDepth, maxSampleRate))
    else Available(ps, p)
  }

  /**
   * `find_best_codec`: the widest stream whose audio group matches the codec's pattern, for
   * ALAC only among those within the bit depth and sample rate limits. An unknown codec has no
   * pattern, and matching against none raises, but only when there is a stream to match: the
   * comprehension over an empty list of streams never calls `regex.match`.
   */
  function FindBestCodec(ps: seq<Playlist>, codec: string, maxBitDepth: int, maxSampleRate: int): Result<Option<Playlist>>
  {
    match PatternByCodec(codec)
    case None => if ps == [] then Success(None) else Failure("first argument must be string or compiled pattern")
    case Some(p) =>
      var limited := Candidates(ps, p, codec, maxBitDepth, maxSampleRate);
      if limited == [] then Success(None) else Success(Some(limited[0]))
  }

  /** The streams `find_best_codec` may pick for a codec. */
  predicate Eligible(q: Playlist, p: CodecPattern, codec: string, maxBitDepth: int, maxSampleRate: int)
  {
    Matches(p, q.audio) && (codec == Alac ==> Within(q, maxBitDepth, maxSampleRate))
  }

  lemma CandidatesSorted(ps: seq<Playlist>, p: CodecPattern, codec: string, maxBitDepth: int, maxSampleRate: int)
    ensures SortedBy(Candidates(ps, p, codec, maxBitDepth, maxSampleRate), BandwidthGeq)
  {
    SortByBandwidthSorted(Filter(ps, (q: Playlist) => Matches(p, q.audio)));
    if codec == Alac {
      FilterSorted(Available(ps, p), (q: Playlist) => Within(q, maxBitDepth, maxSampleRate), BandwidthGeq);
    }
  }

  lemma CandidatesMembers(ps: seq<Playlist>, p: CodecPattern, codec: string, maxBitDepth: int, maxSampleRate: int, q: Playlist)
    ensures q in Candidates(ps, p, codec, maxBitDepth, maxSampleRate) <==> q in ps && Eligible(q, p, codec, maxBitDepth, maxSampleRate)
  {
    var matching := Filter(ps, (q: Playlist) => Matches(p, q.audio));
    FilterSpec(ps, (q: Playlist) => Matches(p, q.audio), q);
    assert q in Available(ps, p) <==> q in matching by {
      assert q in multiset(Available(ps, p)) <==> q in multiset(matching);
    }
    if codec == Alac {
      FilterSpec(Available(ps, p), (q: Playlist) => Within(q, maxBitDepth, maxSampleRate), q);
    }
  }

  /**
   * The chosen stream is eligible and at least as wide as every eligible stream; nothing is
   * chosen exactly when no stream is eligible; an unknown codec fails unless there are no
   * streams, when it finds nothing.
   */
  lemma FindBestCodecSpec(ps: seq<Playlist>, codec: string, maxBitDepth: int, maxSampleRate: int)
    ensures PatternByCodec(codec).None? && ps != [] <==> FindBestCodec(ps, codec, maxBitDepth, maxSampleRate).Failure?
    ensures PatternByCodec(codec).None? && ps == [] ==> FindBestCodec(ps, codec, maxBitDepth, maxSampleRate) == Success(None)
    ensures PatternByCodec(codec).Some? ==>
      var p, r := PatternByCodec(codec).value, FindBestCodec(ps, codec, maxBitDepth, maxSampleRate).value;
      (r.None? <==> forall q :: q in ps ==> !Eligible(q, p, codec, maxBitDepth, maxSampleRate))
      && (r.Some? ==>
            (r.value in ps && Eligible(r.value, p, codec, maxBitDepth, maxSampleRate)
             && forall q :: q in ps && Eligible(q, p, codec, maxBitDepth, maxSampleRate) ==>
                  q.averageBandwidth <= r.value.averageBandwidth))
  {
    if PatternByCodec(codec).Some? {
      CandidatesBest(ps, PatternByCodec(codec).value, codec, maxBitDepth, maxSampleRate);
    }
  }

  /** The first candidate is eligible and at least as wide as every eligible stream. */
  lemma CandidatesBest(ps: seq<Playlist>, p: CodecPattern, codec: string, maxBitDepth: int, maxSampleRate: int)
    ensures var limited := Candidates(ps, p, codec, maxBitDepth, maxSampleRate);
      && (limited == [] <==> forall q :: q in ps ==> !Eligible(q, p, codec, maxBitDepth, maxSampleRate))
      && (limited != [] ==>
            limited[0] in ps && Eligible(limited[0], p, codec, maxBitDepth, maxSampleRate)
            && forall q :: q in ps && Eligible(q, p, codec, maxBitDepth, maxSampleRate) ==>
                 q.averageBandwidth <= limited[0].averageBandwidth)
  {
    var limited := Candidates(ps, p, codec, maxBitDepth, maxSampleRate);
    var ok := (q: Playlist) => Eligible(q, p, codec, maxBitDepth, maxSampleRate);
    CandidatesSorted(ps, p, codec, maxBitDepth, maxSampleRate);
    forall q ensures q in limited <==> q in ps && ok(q) {
      CandidatesMembers(ps, p, codec, maxBitDepth, maxSampleRate, q);
    }
    HeadIsWidest(limited, ps, ok);
  }

  /** The head of a widest-first list of exactly the acceptable streams is the widest of them. */
  lemma HeadIsWidest(limited: seq<Playlist>, ps: seq<Playlist>, ok: Playlist -> bool)
    requires SortedBy(limited, BandwidthGeq)
    requires forall q :: q in limited <==> q in ps && ok(q)
    ensures limited == [] <==> forall q :: q in ps ==> !ok(q)
    ensures limited != [] ==>
      limited[0] in ps && ok(limited[0]) && forall q :: q in ps && ok(q) ==> q.averageBandwidth <= limited[0].averageBandwidth
  {
    if limited != [] {
      assert limited[0] in limited;
      forall q | q in limited ensures q.averageBandwidth <= limited[0].averageBandwidth {
        SortedHeadIsLeast(limited, BandwidthGeq, q);
      }
    }
  }

  /** Without limits (any codec but ALAC) ties go to the first of the widest matching streams. */
  lemma FindBestCodecStable(ps: seq<Playlist>, codec: string, maxBitDepth: int, maxSampleRate: int)
    requires PatternByCodec(codec).Some? && codec != Alac
    requires FindBestCodec(ps, codec, maxBitDepth, maxSampleRate).value.Some?
    ensures var matching := Filter(ps, (q: Playlist) => Matches(PatternByCodec(codec).value, q.audio));
      matching != [] && FindBestCodec(ps, codec, maxBitDepth, maxSampleRate).value.value == matching[FirstWidest(matching)]
  {
    var matching := Filter(ps, (q: Playlist) => Matches(PatternByCodec(codec).value, q.audio));
    assert |SortByBandwidth(matching)| > 0;
    assert multiset(SortByBandwidth(matching)) == multiset(matching);
    SortByBandwidthHead(matching);
  }

  /** A lone ALAC stream within the limits is the one chosen for ALAC. */
  lemma AlacStreamChosen(q: Playlist, maxBitDepth: int, maxSampleRate: int)
    requires q.audio == "audio-alac-stereo-44100-24" && Within(q, maxBitDepth, maxSampleRate)
    ensures FindBestCodec([q], Alac, maxBitDepth, maxSampleRate) == Success(Some(q))
  {
    assert AlacForm(q.audio, 5);
    CandidatesBest([q], AlacPattern, Alac, maxBitDepth, maxSampleRate);
    CandidatesMembers([q], AlacPattern, Alac, maxBitDepth, maxSampleRate, q);
    var limited := Candidates([q], AlacPattern, Alac, maxBitDepth, maxSampleRate);
    assert limited != [];
    forall r | r in limited ensures r == q {
      CandidatesMembers([q], AlacPattern, Alac, maxBitDepth, maxSampleRate, r);
    }
    assert limited[0] in limited;
  }

  // ---------------------------------------------------------------- get_codec_from_codec_id

  const CodecIdOrder: seq<string> := [Ac3, Ec3, Aac, Alac, AacBinaural, AacDownmix]

  /** `get_codec_from_codec_id`: the first codec, in the fixed order, whose pattern matches. */
  method CodecFromCodecId(codecId: string) returns (codec: string)
    ensures codec == "" <==> forall i :: 0 <= i < |CodecIdOrder| ==> !Matches(PatternByCodec(CodecIdOrder[i]).value, codecId)
    ensures codec != "" ==> exists i :: (0 <= i < |CodecIdOrder| && codec == CodecIdOrder[i]
      && Matches(PatternByCodec(codec).value, codecId)
      && forall j :: 0 <= j < i ==> !Matches(PatternByCodec(CodecIdOrder[j]).value, codecId))
  {
    var order := CodecIdOrder;
    for i := 0 to |order|
      invariant forall j :: 0 <= j < i ==> !Matches(PatternByCodec(order[j]).value, codecId)
    {
      var p := PatternByCodec(order[i]);
      if Matches(p.value, codecId) {
        return order[i];
      }
    }
    return "";
  }

  /** An ALAC codec id matches no earlier codec of the order, and the ALAC pattern (position 3). */
  lemma AlacCodecId()
    ensures var id := "audio-alac-stereo-44100-24";
      CodecIdOrder[3] == Alac && Matches(PatternByCodec(Alac).value, id)
      && forall j :: 0 <= j < 3 ==> !Matches(PatternByCodec(CodecIdOrder[j]).value, id)
  {
    assert AlacForm("audio-alac-stereo-44100-24", 5);
  }

  // ---------------------------------------------------------------- chunk

  /** Consecutive pieces of `size` elements, the last one possibly shorter. */
  function Pieces<T>(s: seq<T>, size: nat): (r: seq<seq<T>>)
    requires size > 0
    decreases |s|
  {
    if s == [] then []
    else if |s| <= size then [s]
    else [s[..size]] + Pieces(s[size..], size)
  }

  function Flatten<T>(ss: seq<seq<T>>): seq<T>
  {
    if ss == [] then [] else ss[0] + Flatten(ss[1..])
  }

  /** CPython's `islice` rejects a stop of -1 with this text, and any lower stop with the next one. */
  const IsliceStopError := "Stop argument for islice() must be None or an integer: 0 <= x <= sys.maxsize."
  const IsliceIndicesError := "Indices for islice() must be None or an integer: 0 <= x <= sys.maxsize."

  /**
   * `chunk(it, size)`: nothing for size 0 (every slice is empty), a `ValueError` from `islice`
   * for a negative size, the pieces otherwise. The pieces are given as a list; the source
   * returns an iterator, which raises the `ValueError` on its first `next()`.
   */
  function Chunk<T>(s: seq<T>, size: int): (r: Result<seq<seq<T>>>)
    ensures r.Failure? <==> size < 0
    ensures size == -1 ==> r == Failure(IsliceStopError)
    ensures size < -1 ==> r == Failure(IsliceIndicesError)
    ensures size == 0 ==> r == Success([])
    ensures size > 0 ==> Flatten(r.value) == s && (forall i :: 0 <= i < |r.value| ==> 0 < |r.value[i]| <= size)
                         && forall i :: 0 <= i < |r.value| - 1 ==> |r.value[i]| == size
  {
    if size == -1 then Failure(IsliceStopError)
    else if size < 0 then Failure(IsliceIndicesError)
    else if size == 0 then Success([])
    else
      PiecesSpec(s, size);
      Success(Pieces(s, size))
  }

  /** The pieces give back the input; all but the last have exactly `size` elements; none is empty. */
  lemma {:induction false} PiecesSpec<T>(s: seq<T>, size: nat)
    requires size > 0
    ensures Flatten(Pieces(s, size)) == s
    ensures forall i :: 0 <= i < |Pieces(s, size)| ==> 0 < |Pieces(s, size)[i]| <= size
    ensures forall i :: 0 <= i < |Pieces(s, size)| - 1 ==> |Pieces(s, size)[i]| == size
    decreases |s|
  {
    if |s| > size {
      PiecesSpec(s[size..], size);
      var r := Pieces(s, size);
      assert r[1..] == Pieces(s[size..], size);
      assert s == s[..size] + s[size..];
    } else if s != [] {
      assert Flatten([s]) == s + Flatten([]);
    }
  }

  // ---------------------------------------------------------------- get_digit_from_string

  function DigitsIn(s: string): (r: string)
    ensures forall i :: 0 <= i < |r| ==> IsAsciiDigit(r[i])
    ensures r == [] <==> forall i :: 0 <= i < |s| ==> !IsAsciiDigit(s[i])
  {
    if s == [] then []
    else
      var rest := DigitsIn(s[1..]);
      assert forall i :: 1 <= i < |s| ==> s[i] == s[1..][i - 1];
      (if IsAsciiDigit(s[0]) then [s[0]] else []) + rest
  }

  /** `get_digit_from_string`: the digits of the text read as one number; no digit raises. */
  function DigitFromString(s: string): Option<nat>
  {
    var d := DigitsIn(s);
    if d == [] then None else Some(DigitsToNat(d))
  }

  lemma {:induction false} DigitsInDigits(s: string)
    requires forall i :: 0 <= i < |s| ==> IsAsciiDigit(s[i])
    ensures DigitsIn(s) == s
  {
    if s != [] {
      DigitsInDigits(s[1..]);
      assert s == [s[0]] + s[1..];
    }
  }

  /** Reading the decimal text of a number gives the number back. */
  lemma DigitFromNatString(n: nat)
    ensures DigitFromString(NatToString(n)) == Some(n)
  {
    DigitsInDigits(NatToString(n));
    NatToStringRoundTrip(n);
  }

  /** Leading zeros add nothing to the value read. */
  lemma {:induction false} DigitsToNatZeroPad(s: string, width: nat)
    requires forall i :: 0 <= i < |s| ==> IsAsciiDigit(s[i])
    ensures forall i :: 0 <= i < |ZeroPad(s, width)| ==> IsAsciiDigit(ZeroPad(s, width)[i])
    ensures DigitsToNat(ZeroPad(s, width)) == DigitsToNat(s)
    decreases width - |s|
  {
    if |s| < width {
      LeadingZero(s);
      DigitsToNatZeroPad("0" + s, width);
    }
  }

  lemma {:induction false} LeadingZero(s: string)
    requires forall i :: 0 <= i < |s| ==> IsAsciiDigit(s[i])
    ensures DigitsToNat("0" + s) == DigitsToNat(s)
  {
    if s != [] {
      assert ("0" + s)[..|"0" + s| - 1] == "0" + s[..|s| - 1];
      LeadingZero(s[..|s| - 1]);
    }
  }

  // ---------------------------------------------------------------- ttml_convent

  /** A `<p>` line of the TTML body: its `begin` attribute, its `itunes:key` and its text. */
  datatype Lyric = Lyric(begin: Option<string>, key: Option<string>, text: string)
  /** A translation or transliteration entry: its `for` attribute and its text. */
  datatype Aside = Aside(forKey: Option<string>, text: string)
  /**
   * The parsed document: the children of each `<div>` of the body, whether the head holds
   * `metadata` with an `iTunesMetadata` element, and inside that element the translation
   * element (its `type` attribute and entries) and the transliteration element, when present.
   * Without `iTunesMetadata` the last three are never looked at.
   */
  datatype TtmlDoc = TtmlDoc(body: seq<seq<Lyric>>, hasItunesMetadata: bool, translationType: Option<string>,
                             translation: Option<seq<Aside>>, transliteration: Option<seq<Aside>>)

  datatype Clock = Clock(h: nat, m: nat, s: nat, ms: nat)

  function CountChar(s: string, c: char): nat
  {
    if s == [] then 0 else (if s[0] == c then 1 else 0) + CountChar(s[1..], c)
  }

  /** Digits of a list of fields, all of which must hold a digit. */
  function Fields(parts: seq<string>): Option<seq<nat>>
    ensures var r := Fields(parts); r.Some? ==> |r.value| == |parts|
  {
    if parts == [] then Some([])
    else
      var d, ds := DigitFromString(parts[0]), Fields(parts[1..]);
      if d.Some? && ds.Some? then Some([d.value] + ds.value) else None
  }

  /**
   * The time of a `begin` attribute. A time without a dot gets ".000"; with no colon it is
   * "s.ms", with one "m:s.ms", with two "h:m:s.ms"; with more colons every field stays 0. A
   * missing field (an `IndexError`) or a field without digits (a `ValueError`) fails.
   */
  function ParseBegin(t0: string): Option<Clock>
  {
    var t := if '.' in t0 then t0 else t0 + ".000";
    var colons := CountChar(t, ':');
    if colons == 0 then
      var parts := Split(t, '.');
      if |parts| < 2 then None
      else match Fields(parts[..2])
        case Some(d) => Some(Clock(0, 0, d[0], d[1]))
        case None => None
    else if colons <= 2 then
      var parts := Split(t, ':');
      var fields := parts[..|parts| - 1] + Split(parts[|parts| - 1], '.');
      if |fields| < colons + 2 then None
      else match Fields(fields[..colons + 2])
        case Some(d) => if colons == 1 then Some(Clock(0, d[0], d[1], d[2])) else Some(Clock(d[0], d[1], d[2], d[3]))
        case None => None
    else Some(Clock(0, 0, 0, 0))
  }

  /** `str(n).rjust(2, '0')`. */
  function Two(n: nat): string
  {
    ZeroPad(NatToString(n), 2)
  }

  /** `[MM:SS.cc]` with MM the minutes counting the hours, cc the hundredths. */
  function Timestamp(c: Clock): string
  {
    "[" + Two(c.m + c.h * 60) + ":" + Two(c.s) + "." + Two(c.ms / 10) + "]"
  }

  /** Every field of a timestamp has at least two digits and reads back as its number. */
  lemma TwoSpec(n: nat)
    ensures |Two(n)| >= 2 && (n < 100 ==> |Two(n)| == 2)
    ensures forall i :: 0 <= i < |Two(n)| ==> IsAsciiDigit(Two(n)[i])
    ensures DigitsToNat(Two(n)) == n
  {
    DigitsToNatZeroPad(NatToString(n), 2);
    NatToStringRoundTrip(n);
    if n < 100 {
      NatToStringShort(n);
    }
  }

  lemma NatToStringShort(n: nat)
    requires n < 100
    ensures |NatToString(n)| <= 2
  {
    if n >= 10 {
      assert NatToString(n) == NatToString(n / 10) + [DigitChar(n % 10)];
    }
  }

  lemma {:induction false} CountCharAppend(a: string, b: string, c: char)
    ensures CountChar(a + b, c) == CountChar(a, c) + CountChar(b, c)
  {
    if a == [] {
      assert a + b == b;
    } else {
      assert (a + b)[1..] == a[1..] + b;
      CountCharAppend(a[1..], b, c);
    }
  }

  lemma {:induction false} CountCharAbsent(a: string, c: char)
    requires c !in a
    ensures CountChar(a, c) == 0
  {
    if a != [] {
      CountCharAbsent(a[1..], c);
    }
  }

  predicate AllDigits(s: string)
  {
    s != [] && forall i :: 0 <= i < |s| ==> IsAsciiDigit(s[i])
  }

  lemma MinuteFormCount(a: string, b: string, c: string)
    requires AllDigits(a) && AllDigits(b) && AllDigits(c)
    ensures var t := a + ":" + b + "." + c; '.' in t && CountChar(t, ':') == 1
  {
    var t := a + ":" + b + "." + c;
    var rest := b + "." + c;
    assert t[|a| + 1 + |b|] == '.';
    assert ':' !in a && ':' !in b && ':' !in c;
    assert t == a + ([':'] + rest);
    assert rest == b + (['.'] + c);
    CountCharAppend(a, [':'] + rest, ':');
    CountCharAppend([':'], rest, ':');
    CountCharAppend(b, ['.'] + c, ':');
    CountCharAppend(['.'], c, ':');
    CountCharAbsent(a, ':');
    CountCharAbsent(b, ':');
    CountCharAbsent(c, ':');
  }

  lemma MinuteFormSplit(a: string, b: string, c: string)
    requires AllDigits(a) && AllDigits(b) && AllDigits(c)
    ensures Split(a + ":" + b + "." + c, ':') == [a, b + "." + c] && Split(b + "." + c, '.') == [b, c]
  {
    var rest := b + "." + c;
    assert ':' !in a && ':' !in b && ':' !in c && '.' !in b && '.' !in c;
    assert a + ":" + b + "." + c == a + [':'] + rest;
    SplitNoSep(a, rest, ':');
    assert ':' !in rest;
    SplitNoSep(rest, [], ':');
    assert rest == b + ['.'] + c;
    SplitNoSep(b, c, '.');
    SplitNoSep(c, [], '.');
  }

  lemma FieldsOfDigits(a: string, b: string, c: string)
    requires AllDigits(a) && AllDigits(b) && AllDigits(c)
    ensures Fields([a, b, c]) == Some([DigitsToNat(a), DigitsToNat(b), DigitsToNat(c)])
  {
    DigitsInDigits(a);
    DigitsInDigits(b);
    DigitsInDigits(c);
    assert DigitFromString(a) == Some(DigitsToNat(a));
    assert DigitFromString(b) == Some(DigitsToNat(b));
    assert DigitFromString(c) == Some(DigitsToNat(c));
    assert Fields([]) == Some([]);
    assert [c][1..] == [];
    assert [DigitsToNat(c)] + [] == [DigitsToNat(c)];
    assert Fields([c]) == Some([DigitsToNat(c)]);
    assert [b, c][1..] == [c];
    assert [DigitsToNat(b)] + [DigitsToNat(c)] == [DigitsToNat(b), DigitsToNat(c)];
    assert Fields([b, c]) == Some([DigitsToNat(b), DigitsToNat(c)]);
    assert [a, b, c][1..] == [b, c];
    assert [DigitsToNat(a)] + [DigitsToNat(b), DigitsToNat(c)] == [DigitsToNat(a), DigitsToNat(b), DigitsToNat(c)];
  }

  /** "m:s.ms" with digit fields reads as that many minutes, seconds and milliseconds. */
  lemma ParseMinuteForm(a: string, b: string, c: string)
    requires AllDigits(a) && AllDigits(b) && AllDigits(c)
    ensures ParseBegin(a + ":" + b + "." + c) == Some(Clock(0, DigitsToNat(a), DigitsToNat(b), DigitsToNat(c)))
  {
    MinuteFormCount(a, b, c);
    MinuteFormSplit(a, b, c);
    FieldsOfDigits(a, b, c);
    var parts := [a, b + "." + c];
    assert parts[..|parts| - 1] + Split(parts[|parts| - 1], '.') == [a, b, c];
    assert [a, b, c][..3] == [a, b, c];
  }

  /**
   * An output line `f"{timestamp}{text}"`, kept as its time and text; `Render` writes it out.
   * (The strings are built once, at the join.)
   */
  datatype LrcLine = LrcLine(time: Clock, text: string)

  function Render(l: LrcLine): string
  {
    Timestamp(l.time) + l.text
  }

  function RenderAll(ls: seq<LrcLine>): seq<string>
  {
    if ls == [] then [] else [Render(ls[0])] + RenderAll(ls[1..])
  }

  /** The state of a conversion: the lines so far, the early `return ""`, or an exception. */
  datatype Conversion = Lines(lines: seq<LrcLine>) | Blank | Raised

  /**
   * The entries whose `for` equals the line's key, each appended under the line's timestamp;
   * a replacing translation first drops the previous last line.
   */
  function Asides(lines: seq<LrcLine>, ts: Clock, key: Option<string>, entries: seq<Aside>, replace: bool): (r: seq<LrcLine>)
    requires lines != []
    ensures |r| >= |lines|
  {
    if entries == [] then lines
    else
      var l := Asides(lines, ts, key, entries[..|entries| - 1], replace);
      var e := entries[|entries| - 1];
      if key == e.forKey then (if replace then l[..|l| - 1] else l) + [LrcLine(ts, e.text)] else l
  }

  /**
   * One lyric line: its timestamped text, then its translations and its transliterations.
   * Asking for either extra in a document without `iTunesMetadata` raises AttributeError,
   * since the lookup goes through `None`.
   */
  function LyricLines(lines: seq<LrcLine>, l: Lyric, doc: TtmlDoc, extra: seq<string>): Conversion
  {
    if l.begin.None? || l.begin.value == "" then Blank
    else match ParseBegin(l.begin.value)
      case None => Raised
      case Some(c) =>
        if ("translation" in extra || "pronunciation" in extra) && !doc.hasItunesMetadata then Raised
        else
        var a := lines + [LrcLine(c, l.text)];
        var b := if "translation" in extra && doc.translation.Some?
                 then Asides(a, c, l.key, doc.translation.value, doc.translationType == Some("replacement")) else a;
        var d := if "pronunciation" in extra && doc.transliteration.Some?
                 then Asides(b, c, l.key, doc.transliteration.value, false) else b;
        Lines(d)
  }

  /** The conversion of the lyric lines in document order. */
  function Convert(ls: seq<Lyric>, doc: TtmlDoc, extra: seq<string>): Conversion
  {
    if ls == [] then Lines([])
    else match Convert(ls[..|ls| - 1], doc, extra)
      case Lines(lines) => LyricLines(lines, ls[|ls| - 1], doc, extra)
      case other => other
  }

  /** The text `ttml_convent` returns, or `None` where it raises. */
  function TtmlToLrc(ttml: string, doc: TtmlDoc, format: string, extra: seq<string>): Option<string>
  {
    if format == "ttml" then Some(ttml)
    else match Convert(Flatten(doc.body), doc, extra)
      case Lines(lines) => Some(Join(RenderAll(lines), "\n"))
      case Blank => Some("")
      case Raised => None
  }

  /** Once a line has stopped the conversion, later lines change nothing. */
  lemma {:induction false} ConvertStops(ls: seq<Lyric>, rest: seq<Lyric>, doc: TtmlDoc, extra: seq<string>)
    requires !Convert(ls, doc, extra).Lines?
    ensures Convert(ls + rest, doc, extra) == Convert(ls, doc, extra)
  {
    if rest != [] {
      ConvertStops(ls, rest[..|rest| - 1], doc, extra);
      assert (ls + rest)[..|ls + rest| - 1] == ls + rest[..|rest| - 1];
    } else {
      assert ls + rest == ls;
    }
  }

  /** A line without `begin` after convertible lines makes the whole result empty. */
  lemma MissingBeginBlanks(ttml: string, doc: TtmlDoc, format: string, extra: seq<string>, i: nat)
    requires format != "ttml" && i < |Flatten(doc.body)|
    requires var l := Flatten(doc.body)[i]; l.begin.None? || l.begin.value == ""
    requires Convert(Flatten(doc.body)[..i], doc, extra).Lines?
    ensures TtmlToLrc(ttml, doc, format, extra) == Some("")
  {
    var all := Flatten(doc.body);
    assert all[..i + 1][..i] == all[..i];
    assert Convert(all[..i + 1], doc, extra) == Blank;
    ConvertStops(all[..i + 1], all[i + 1..], doc, extra);
    assert all[..i + 1] + all[i + 1..] == all;
  }

  /**
   * A timed line reached with an extra requested, in a document without `iTunesMetadata`,
   * makes the whole conversion raise.
   */
  lemma MissingMetadataRaises(ttml: string, doc: TtmlDoc, format: string, extra: seq<string>, i: nat)
    requires format != "ttml" && i < |Flatten(doc.body)| && !doc.hasItunesMetadata
    requires "translation" in extra || "pronunciation" in extra
    requires var l := Flatten(doc.body)[i]; l.begin.Some? && l.begin.value != "" && ParseBegin(l.begin.value).Some?
    requires Convert(Flatten(doc.body)[..i], doc, extra).Lines?
    ensures TtmlToLrc(ttml, doc, format, extra) == None
  {
    var all := Flatten(doc.body);
    assert all[..i + 1][..i] == all[..i];
    assert all[..i + 1][i] == all[i];
    assert Convert(all[..i + 1], doc, extra) == Raised;
    ConvertStops(all[..i + 1], all[i + 1..], doc, extra);
    assert all[..i + 1] + all[i + 1..] == all;
  }

  lemma {:induction false} FlattenAppend<T>(a: seq<seq<T>>, b: seq<seq<T>>)
    ensures Flatten(a + b) == Flatten(a) + Flatten(b)
  {
    if a == [] {
      assert a + b == b;
    } else {
      assert (a + b)[1..] == a[1..] + b;
      FlattenAppend(a[1..], b);
    }
  }

  /** The entry loop of one translation or transliteration element. */
  method AddAsides(lines0: seq<LrcLine>, ts: Clock, key: Option<string>, entries: seq<Aside>, replace: bool)
    returns (lines: seq<LrcLine>)
    requires lines0 != []
    ensures lines == Asides(lines0, ts, key, entries, replace)
  {
    lines := lines0;
    for k := 0 to |entries|
      invariant lines == Asides(lines0, ts, key, entries[..k], replace)
    {
      assert entries[..k + 1][..k] == entries[..k];
      if key == entries[k].forKey {
        if replace {
          lines := lines[..|lines| - 1];
        }
        lines := lines + [LrcLine(ts, entries[k].text)];
      }
    }
    assert entries[..|entries|] == entries;
  }

  /** The body of the inner loop of `ttml_convent`, for one lyric line. */
  method ConvertLine(lines0: seq<LrcLine>, lyric: Lyric, doc: TtmlDoc, extra: seq<string>) returns (c: Conversion)
    ensures c == LyricLines(lines0, lyric, doc, extra)
  {
    if lyric.begin.None? || lyric.begin.value == "" {
      return Blank;
    }
    var clock := ParseBegin(lyric.begin.value);
    if clock.None? {
      return Raised;
    }
    var ts := clock.value;
    var lines := lines0 + [LrcLine(ts, lyric.text)];
    if "translation" in extra {
      if !doc.hasItunesMetadata {
        return Raised;
      }
      if doc.translation.Some? {
        lines := AddAsides(lines, ts, lyric.key, doc.translation.value, doc.translationType == Some("replacement"));
      }
    }
    if "pronunciation" in extra {
      if !doc.hasItunesMetadata {
        return Raised;
      }
      if doc.transliteration.Some? {
        lines := AddAsides(lines, ts, lyric.key, doc.transliteration.value, false);
      }
    }
    return Lines(lines);
  }

  /** The inner loop of `ttml_convent`, over the lines of one division. */
  method ConvertItem(lines0: seq<LrcLine>, ghost done: seq<Lyric>, item: seq<Lyric>, doc: TtmlDoc, extra: seq<string>)
    returns (c: Conversion)
    requires Convert(done, doc, extra) == Lines(lines0)
    ensures c == Convert(done + item, doc, extra)
  {
    var lines := lines0;
    assert done + item[..0] == done;
    for j := 0 to |item|
      invariant Convert(done + item[..j], doc, extra) == Lines(lines)
    {
      c := ConvertLine(lines, item[j], doc, extra);
      ConvertPrefixStep(done, item, j, lines, doc, extra);
      if !c.Lines? {
        ConvertPrefixStops(done, item, j, doc, extra);
        return c;
      }
      lines := c.lines;
    }
    assert done + item[..|item|] == done + item;
    return Lines(lines);
  }

  /** One more line of a division, converted after the lines before it. */
  lemma ConvertPrefixStep(done: seq<Lyric>, item: seq<Lyric>, j: nat, lines: seq<LrcLine>, doc: TtmlDoc, extra: seq<string>)
    requires j < |item| && Convert(done + item[..j], doc, extra) == Lines(lines)
    ensures Convert(done + item[..j + 1], doc, extra) == LyricLines(lines, item[j], doc, extra)
  {
    assert done + item[..j + 1] == (done + item[..j]) + [item[j]];
    ConvertSnoc(done + item[..j], item[j], lines, doc, extra);
  }

  /** Converting one more line after convertible lines. */
  lemma ConvertSnoc(ls: seq<Lyric>, x: Lyric, lines: seq<LrcLine>, doc: TtmlDoc, extra: seq<string>)
    requires Convert(ls, doc, extra) == Lines(lines)
    ensures Convert(ls + [x], doc, extra) == LyricLines(lines, x, doc, extra)
  {
    assert (ls + [x])[..|ls|] == ls;
  }

  /** A line that stops the conversion decides the result of the whole division. */
  lemma ConvertPrefixStops(done: seq<Lyric>, item: seq<Lyric>, j: nat, doc: TtmlDoc, extra: seq<string>)
    requires j < |item| && !Convert(done + item[..j + 1], doc, extra).Lines?
    ensures Convert(done + item, doc, extra) == Convert(done + item[..j + 1], doc, extra)
  {
    var seen := done + item[..j + 1];
    assert done + item == seen + item[j + 1..] by {
      assert item == item[..j + 1] + item[j + 1..];
    }
    ConvertStops(seen, item[j + 1..], doc, extra);
  }

  /** `ttml_convent`: the loop over the body's divisions. */
  method TtmlConvent(ttml: string, doc: TtmlDoc, format: string, extra: seq<string>) returns (r: Option<string>)
    ensures r == TtmlToLrc(ttml, doc, format, extra)
  {
    if format == "ttml" {
      return Some(ttml);
    }
    var lines: seq<LrcLine> := [];
    ghost var done: seq<Lyric> := [];
    for i := 0 to |doc.body|
      invariant done == Flatten(doc.body[..i])
      invariant Convert(done, doc, extra) == Lines(lines)
    {
      var item := doc.body[i];
      var c := ConvertItem(lines, done, item, doc, extra);
      assert doc.body[..i + 1] == doc.body[..i] + [item];
      FlattenAppend(doc.body[..i], [item]);
      assert Flatten([item]) == item + Flatten([]) == item;
      assert Flatten(doc.body[..i + 1]) == done + item;
      if !c.Lines? {
        assert doc.body == doc.body[..i + 1] + doc.body[i + 1..];
        FlattenAppend(doc.body[..i + 1], doc.body[i + 1..]);
        ConvertStops(done + item, Flatten(doc.body[i + 1..]), doc, extra);
        assert Convert(Flatten(doc.body), doc, extra) == c;
        return if c.Blank? then Some("") else None;
      }
      lines := c.lines;
      done := done + item;
    }
    assert doc.body[..|doc.body|] == doc.body;
    assert Convert(Flatten(doc.body), doc, extra) == Lines(lines);
    return Some(Join(RenderAll(lines), "\n"));
  }

  // ---------------------------------------------------------------- get_valid_filename / dir_name

  predicate Illegal(c: char)
  {
    c == '<' || c == '>' || c == ':' || c == '"' || c == '/' || c == '\\' || c == '|' || c == '?' || c == '*'
  }

  /** `get_valid_filename`: the name with the nine reserved characters removed. */
  function ValidFilename(s: string): string
  {
    if s == [] then [] else (if Illegal(s[0]) then [] else [s[0]]) + ValidFilename(s[1..])
  }

  /** Cleaning works character by character. */
  lemma {:induction false} ValidFilenameAppend(a: string, b: string)
    ensures ValidFilename(a + b) == ValidFilename(a) + ValidFilename(b)
  {
    if a == [] {
      assert a + b == b;
    } else {
      var head := if Illegal(a[0]) then [] else [a[0]];
      assert (a + b)[0] == a[0] && (a + b)[1..] == a[1..] + b;
      assert ValidFilename(a + b) == head + ValidFilename(a[1..] + b);
      ValidFilenameAppend(a[1..], b);
      assert ValidFilename(a) == head + ValidFilename(a[1..]);
    }
  }

  /** A cleaned name holds no reserved character. */
  lemma {:induction false} ValidFilenameClean(a: string)
    ensures forall i :: 0 <= i < |ValidFilename(a)| ==> !Illegal(ValidFilename(a)[i])
  {
    if a != [] {
      ValidFilenameClean(a[1..]);
      var r := ValidFilename(a[1..]);
      forall i | 0 <= i < |ValidFilename(a)| ensures !Illegal(ValidFilename(a)[i]) {
        if !Illegal(a[0]) && i > 0 {
          assert ValidFilename(a)[i] == r[i - 1];
        }
      }
    }
  }

  /** A name without reserved characters is kept as it is. */
  lemma {:induction false} ValidFilenameKeeps(a: string)
    requires forall i :: 0 <= i < |a| ==> !Illegal(a[i])
    ensures ValidFilename(a) == a
  {
    if a != [] {
      assert forall i :: 0 <= i < |a[1..]| ==> !Illegal(a[1..][i]) by {
        forall i | 0 <= i < |a[1..]| ensures !Illegal(a[1..][i]) { assert a[1..][i] == a[i + 1]; }
      }
      ValidFilenameKeeps(a[1..]);
      assert a == [a[0]] + a[1..];
    }
  }

  /** Cleaning twice is cleaning once. */
  lemma ValidFilenameIdempotent(a: string)
    ensures ValidFilename(ValidFilename(a)) == ValidFilename(a)
  {
    ValidFilenameClean(a);
    ValidFilenameKeeps(ValidFilename(a));
  }

  /** The text without its trailing run of dots. */
  function TrimDots(s: string): (r: string)
    ensures |r| <= |s| && r == s[..|r|]
    ensures r == [] || r[|r| - 1] != '.'
    ensures forall i :: |r| <= i < |s| ==> s[i] == '.'
  {
    if s != [] && s[|s| - 1] == '.' then TrimDots(s[..|s| - 1]) else s
  }

  /**
   * `get_valid_dir_name`: `re.sub(r"\.+$", "", ...)` on the cleaned name. Without MULTILINE `$`
   * also matches before a final newline, so the dots just before such a newline go.
   */
  function ValidDirName(s: string): string
  {
    var f := ValidFilename(s);
    if f != [] && f[|f| - 1] == '\n' then TrimDots(f[..|f| - 1]) + "\n" else TrimDots(f)
  }

  /** A cleaned directory name never ends in a dot and holds no reserved character. */
  lemma ValidDirNameSpec(s: string)
    ensures var r := ValidDirName(s);
      (r == [] || r[|r| - 1] != '.') && forall i :: 0 <= i < |r| ==> !Illegal(r[i])
  {
    ValidFilenameClean(s);
    var f := ValidFilename(s);
    var r := ValidDirName(s);
    if f != [] && f[|f| - 1] == '\n' {
      var t := TrimDots(f[..|f| - 1]);
      forall i | 0 <= i < |r| ensures !Illegal(r[i]) {
        if i < |t| { assert r[i] == f[i]; }
      }
    } else {
      forall i | 0 <= i < |r| ensures !Illegal(r[i]) { assert r[i] == f[i]; }
    }
  }

  // ---------------------------------------------------------------- suffixes

  /** `if_raw_atmos`: Dolby streams kept as they are. */
  predicate RawAtmos(codec: string, convertAtmos: bool)
  {
    (codec == Ec3 || codec == Ac3) && !convertAtmos
  }

  /** `get_suffix`. */
  function Suffix(codec: string, convertAtmos: bool): (r: string)
    ensures r != ".m4a" <==> RawAtmos(codec, convertAtmos)
    ensures RawAtmos(codec, convertAtmos) ==> r == "." + codec
  {
    if !convertAtmos && codec == Ec3 then ".ec3"
    else if !convertAtmos && codec == Ac3 then ".ac3"
    else ".m4a"
  }

  const FormatSuffix: map<string, string> := map["flac" := ".flac", "mp3" := ".mp3", "opus" := ".opus", "wav" := ".wav"]

  /** `get_output_suffix`. */
  function OutputSuffix(codec: string, convertAtmos: bool, convertAfterDownload: bool, convertFormat: string): (r: string)
    ensures !convertAfterDownload || RawAtmos(codec, convertAtmos) || Lower(convertFormat) !in FormatSuffix
      ==> r == Suffix(codec, convertAtmos)
    ensures convertAfterDownload && !RawAtmos(codec, convertAtmos) && Lower(convertFormat) in FormatSuffix
      ==> r == "." + Lower(convertFormat)
  {
    var suffix := Suffix(codec, convertAtmos);
    if convertAfterDownload && suffix == ".m4a" && Lower(convertFormat) in FormatSuffix then
      FormatSuffix[Lower(convertFormat)]
    else suffix
  }

  // ---------------------------------------------------------------- playlist_write_song_index

  /** The index map after writing positions `1..|ids|`, later ids overwriting earlier equal ones. */
  function PositionIndex(m: map<string, nat>, ids: seq<string>): map<string, nat>
  {
    if ids == [] then m else PositionIndex(m, ids[..|ids| - 1])[ids[|ids| - 1] := |ids|]
  }

  /** Every listed id maps to its last 1-based position; every other entry is kept. */
  lemma {:induction false} PositionIndexSpec(m: map<string, nat>, ids: seq<string>, id: string)
    ensures var r := PositionIndex(m, ids);
      (id in ids ==> id in r && 1 <= r[id] <= |ids| && ids[r[id] - 1] == id
                     && forall j :: r[id] <= j < |ids| ==> ids[j] != id)
      && (id !in ids ==> (id in r <==> id in m) && (id in m ==> r[id] == m[id]))
  {
    if ids != [] {
      var init := ids[..|ids| - 1];
      PositionIndexSpec(m, init, id);
      assert ids == init + [ids[|ids| - 1]];
    }
  }

  /** A playlist whose position map `playlist_write_song_index` fills in place. */
  class PlaylistInfo {
    const trackIds: seq<string>
    var songIdIndexMapping: map<string, nat>

    constructor (trackIds: seq<string>, songIdIndexMapping: map<string, nat>)
      ensures this.trackIds == trackIds && this.songIdIndexMapping == songIdIndexMapping
    {
      this.trackIds := trackIds;
      this.songIdIndexMapping := songIdIndexMapping;
    }

    method WriteSongIndex()
      modifies this
      ensures songIdIndexMapping == PositionIndex(old(songIdIndexMapping), trackIds)
    {
      ghost var m := songIdIndexMapping;
      for i := 0 to |trackIds|
        invariant songIdIndexMapping == PositionIndex(m, trackIds[..i])
      {
        assert trackIds[..i + 1][..i] == trackIds[..i];
        songIdIndexMapping := songIdIndexMapping[trackIds[i] := i + 1];
      }
      assert trackIds[..|trackIds|] == trackIds;
    }
  }
}
