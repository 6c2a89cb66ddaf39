/**
 * The downloader's shared constants: the prefetch key, the counter that fires a parent's
 * callback once all children are done, the key suffix per codec and the stream-name
 * pattern per codec.
 */
module CoreTypes {
  import opened Wrappers
  import opened Text

  const DefaultId := "0"
  /** The key the first sample descriptions of every song are decrypted with. */
  const PrefetchKey := "skd://itunes.apple.com/P000000000/s1/e1"

  // ---------------------------------------------------------------- ParentDoneHandler

  /** How many of the first `calls` decrements of a counter starting at `start` reach exactly 0. */
  function CallbackRuns(start: int, calls: nat): nat
  {
    if calls == 0 then 0 else CallbackRuns(start, calls - 1) + (if start - calls == 0 then 1 else 0)
  }

  /** The callback runs once over any run of calls long enough to bring the count to 0, else never. */
  lemma {:induction false} CallbackRunsOnce(start: int, calls: nat)
    ensures CallbackRuns(start, calls) == if 1 <= start <= calls then 1 else 0
  {
    if calls > 0 {
      CallbackRunsOnce(start, calls - 1);
    }
  }

  /** A counter that runs its callback when the last child reports done. */
  class ParentDoneHandler {
    var count: int
    /** How often the callback has run. */
    var runs: nat
    ghost const initial: int

    ghost predicate Valid()
      reads this
    {
      count <= initial && runs == CallbackRuns(initial, initial - count)
    }

    constructor (count: int)
      ensures Valid() && this.count == count && runs == 0 && initial == count
    {
      this.count := count;
      runs := 0;
      initial := count;
    }

    /** `try_done`: one decrement; the callback runs when this decrement makes the count 0. */
    method TryDone() returns (fired: bool)
      requires Valid()
      modifies this
      ensures Valid()
      ensures count == old(count) - 1
      ensures fired <==> count == 0
      ensures runs == old(runs) + (if fired then 1 else 0)
    {
      count := count - 1;
      fired := count == 0;
      if fired {
        runs := runs + 1;
      }
    }
  }

  // ---------------------------------------------------------------- codecs

  const Alac := "alac"
  const Ec3 := "ec3"
  const Ac3 := "ac3"
  const AacBinaural := "aac-binaural"
  const AacDownmix := "aac-downmix"
  const Aac := "aac"
  const AacLegacy := "aac-legacy"

  const KeySuffixAtmos := "c24"
  const KeySuffixAlac := "c23"
  const KeySuffixAac := "c22"
  const KeySuffixAacDownmix := "c24"
  const KeySuffixAacBinaural := "c24"
  const KeySuffixDefault := "c6"

  /** The stream-name patterns of `CodecRegex`. */
  datatype CodecPattern = AtmosPattern | Ac3Pattern | AlacPattern | BinauralPattern | DownmixPattern | AacPattern

  /** The regular expression each pattern stands for. */
  function PatternSource(p: CodecPattern): string
  {
    match p
    case AtmosPattern => "audio-(atmos|ec3)-\\d{4}$"
    case Ac3Pattern => "audio-ac3-\\d{3}$"
    case AlacPattern => "audio-alac-stereo-\\d{5,6}-\\d{2}$"
    case BinauralPattern => "audio-stereo-\\d{3}-binaural$"
    case DownmixPattern => "audio-stereo-\\d{3}-downmix$"
    case AacPattern => "audio-stereo-\\d{3}$"
  }

  const KnownCodecs: set<string> := {Alac, Ec3, AacDownmix, AacBinaural, Aac, AacLegacy, Ac3}

  /** `get_pattern_by_codec`: a pattern for the seven known codecs, nothing for any other. */
  function PatternByCodec(codec: string): (r: Option<CodecPattern>)
    ensures r.None? <==> codec !in KnownCodecs
    ensures codec == Aac || codec == AacLegacy ==> r == Some(AacPattern)
    ensures codec == Alac ==> r == Some(AlacPattern)
    ensures codec == Ec3 ==> r == Some(AtmosPattern)
    ensures codec == Ac3 ==> r == Some(Ac3Pattern)
    ensures codec == AacBinaural ==> r == Some(BinauralPattern)
    ensures codec == AacDownmix ==> r == Some(DownmixPattern)
  {
    var mapping := map[Alac := AlacPattern, Ec3 := AtmosPattern, AacDownmix := DownmixPattern,
                       AacBinaural := BinauralPattern, Aac := AacPattern, AacLegacy := AacPattern,
                       Ac3 := Ac3Pattern];
    if codec in mapping then Some(mapping[codec]) else None
  }

  /** `$` without MULTILINE: the end of the text, or just before a final newline. */
  predicate AtEnd(s: string, i: nat)
  {
    i == |s| || (i == |s| - 1 && s[i] == '\n')
  }

  /** Exactly `n` ASCII digits start at `i`. */
  predicate DigitsAt(s: string, i: nat, n: nat)
  {
    i + n <= |s| && forall k :: i <= k < i + n ==> IsAsciiDigit(s[k])
  }

  /** `p` followed by `n` digits and the end anchor. */
  predicate PrefixDigitsEnd(s: string, p: string, n: nat)
  {
    StartsWith(s, p) && DigitsAt(s, |p|, n) && AtEnd(s, |p| + n)
  }

  /** `prefix`, `n` digits, then the literal `suffix` and the end anchor. */
  predicate PrefixDigitsSuffix(s: string, p: string, n: nat, suffix: string)
  {
    StartsWith(s, p) && DigitsAt(s, |p|, n) && StartsWith(s[|p| + n..], suffix) && AtEnd(s, |p| + n + |suffix|)
  }

  /** `audio-alac-stereo-`, `n` digits, `-`, two digits and the end anchor. */
  predicate AlacForm(s: string, n: nat)
  {
    StartsWith(s, "audio-alac-stereo-") && DigitsAt(s, 18, n) && 18 + n < |s| && s[18 + n] == '-'
    && DigitsAt(s, 19 + n, 2) && AtEnd(s, 21 + n)
  }

  /** `regex.match(pattern, s)`: the pattern matched from the start of `s` (digits read as ASCII). */
  predicate Matches(p: CodecPattern, s: string)
  {
    match p
    case AtmosPattern => PrefixDigitsEnd(s, "audio-atmos-", 4) || PrefixDigitsEnd(s, "audio-ec3-", 4)
    case Ac3Pattern => PrefixDigitsEnd(s, "audio-ac3-", 3)
    case AlacPattern => AlacForm(s, 6) || AlacForm(s, 5)
    case BinauralPattern => PrefixDigitsSuffix(s, "audio-stereo-", 3, "-binaural")
    case DownmixPattern => PrefixDigitsSuffix(s, "audio-stereo-", 3, "-downmix")
    case AacPattern => PrefixDigitsEnd(s, "audio-stereo-", 3)
  }

  /** Each pattern accepts the codec ids Apple Music's master playlists carry. */
  lemma PatternExamples()
    ensures Matches(AtmosPattern, "audio-atmos-2768") && Matches(AtmosPattern, "audio-ec3-2768")
    ensures Matches(Ac3Pattern, "audio-ac3-640")
    ensures Matches(BinauralPattern, "audio-stereo-256-binaural")
    ensures Matches(DownmixPattern, "audio-stereo-256-downmix")
    ensures Matches(AacPattern, "audio-stereo-256")
    ensures !Matches(AacPattern, "audio-stereo-256-binaural")
  {
  }

  /** The ALAC pattern takes a five- or six-digit sample rate and a two-digit bit depth. */
  lemma AlacPatternExamples()
    ensures Matches(AlacPattern, "audio-alac-stereo-44100-16")
    ensures Matches(AlacPattern, "audio-alac-stereo-192000-24")
    ensures !Matches(AlacPattern, "audio-alac-stereo-4410-16")
  {
    assert Matches(AlacPattern, "audio-alac-stereo-44100-16") by {
      assert AlacForm("audio-alac-stereo-44100-16", 5);
    }
    assert Matches(AlacPattern, "audio-alac-stereo-192000-24") by {
      assert AlacForm("audio-alac-stereo-192000-24", 6);
    }
  }
}
