/**
 * Stream selection and sample extraction: `extract_media` picks the playlist of the requested
 * codec (or of the first alternative that has one) and the decryption keys of its stream;
 * `extract_song` numbers the samples of the track runs and reads their bytes in order.
 */
module Mp4 {
  import opened Wrappers
  import opened Text
  import opened Seqs
  import opened CoreTypes
  import opened CoreUtils
  import Rip

  // ---------------------------------------------------------------- extract_media: the playlist

  /** A chosen playlist and the codec it was chosen for (`actual_codec`). */
  datatype Choice = Choice(playlist: Playlist, codec: string)

  /** `find_best_codec` on the master playlist with the configured limits, as a function of the codec. */
  function BestOf(ps: seq<Playlist>, maxBitDepth: int, maxSampleRate: int): string -> Result<Option<Playlist>>
  {
    (c: string) => FindBestCodec(ps, c, maxBitDepth, maxSampleRate)
  }

  /** The alternatives from `from` on: the first codec with a best playlist; an unknown codec raises. */
  function Fallback(best: string -> Result<Option<Playlist>>, priority: seq<string>, from: nat): Result<Option<Choice>>
    decreases |priority| - from
  {
    if from >= |priority| then Success(None)
    else
      var b := best(priority[from]);
      if b.Failure? then Failure(b.error)
      else if b.value.Some? then Success(Some(Choice(b.value.value, priority[from])))
      else Fallback(best, priority, from + 1)
  }

  /** The requested codec's best playlist, else (when alternatives are allowed) the first alternative's. */
  function ChoosePlaylist(best: string -> Result<Option<Playlist>>, codec: string, priority: seq<string>, alternative: bool): Result<Option<Choice>>
  {
    var b := best(codec);
    if b.Failure? then Failure(b.error)
    else if b.value.Some? then Success(Some(Choice(b.value.value, codec)))
    else if alternative then Fallback(best, priority, 0)
    else Success(None)
  }

  /** The first alternative with a playlist is the one chosen, if every earlier one has none. */
  lemma {:induction false} FallbackFirst(best: string -> Result<Option<Playlist>>, priority: seq<string>, from: nat, i: nat)
    requires from <= i < |priority|
    requires forall j :: from <= j < i ==> best(priority[j]) == Success(None)
    requires best(priority[i]).Success? && best(priority[i]).value.Some?
    ensures Fallback(best, priority, from) == Success(Some(Choice(best(priority[i]).value.value, priority[i])))
    decreases i - from
  {
    if from < i {
      FallbackFirst(best, priority, from + 1, i);
    }
  }

  /** The alternatives yield nothing exactly when none of them has a playlist. */
  lemma {:induction false} FallbackNone(best: string -> Result<Option<Playlist>>, priority: seq<string>, from: nat)
    requires from <= |priority|
    ensures Fallback(best, priority, from) == Success(None) <==>
      forall j :: from <= j < |priority| ==> best(priority[j]) == Success(None)
    decreases |priority| - from
  {
    if from < |priority| {
      FallbackNone(best, priority, from + 1);
    }
  }

  /** A chosen alternative is one of the priority codecs, and is that codec's best playlist. */
  lemma {:induction false} FallbackChosen(best: string -> Result<Option<Playlist>>, priority: seq<string>, from: nat)
    requires Fallback(best, priority, from).Success? && Fallback(best, priority, from).value.Some?
    ensures var c := Fallback(best, priority, from).value.value;
      c.codec in priority[from..] && best(c.codec) == Success(Some(c.playlist))
    decreases |priority| - from
  {
    if best(priority[from]).value.None? {
      FallbackChosen(best, priority, from + 1);
      assert priority[from + 1..] == priority[from..][1..];
    }
  }

  /**
   * What is chosen is the best playlist of the reported codec, which is the requested codec or,
   * with alternatives allowed, a priority codec; nothing is chosen exactly when the requested
   * codec and (with alternatives allowed) every priority codec have no playlist.
   */
  lemma ChoosePlaylistSpec(best: string -> Result<Option<Playlist>>, codec: string, priority: seq<string>, alternative: bool)
    ensures var r := ChoosePlaylist(best, codec, priority, alternative);
      (r.Success? && r.value.Some? ==>
         var c := r.value.value;
         best(c.codec) == Success(Some(c.playlist)) && (c.codec == codec || (alternative && c.codec in priority)))
      && (r == Success(None) <==>
            best(codec) == Success(None)
            && (alternative ==> forall j :: 0 <= j < |priority| ==> best(priority[j]) == Success(None)))
  {
    var r := ChoosePlaylist(best, codec, priority, alternative);
    if best(codec) == Success(None) && alternative {
      FallbackNone(best, priority, 0);
      if r.Success? && r.value.Some? {
        FallbackChosen(best, priority, 0);
        assert priority[0..] == priority;
      }
    }
  }

  // ---------------------------------------------------------------- extract_media: the keys

  /** The key suffix chosen by `actual_codec`. */
  function KeySuffixFor(codec: string): (r: string)
    ensures r == KeySuffixDefault <==> codec !in {Alac, Ec3, Ac3, Aac, AacBinaural, AacDownmix}
    ensures codec == Ec3 || codec == Ac3 || codec == AacBinaural || codec == AacDownmix ==> r == "c24"
  {
    if codec == Alac then KeySuffixAlac
    else if codec == Ec3 || codec == Ac3 then KeySuffixAtmos
    else if codec == Aac then KeySuffixAac
    else if codec == AacBinaural then KeySuffixAacBinaural
    else if codec == AacDownmix then KeySuffixAacDownmix
    else KeySuffixDefault
  }

  /** `skd?://` at the start of the URI (the rest of the pattern matches anything). */
  predicate IsSkd(uri: string)
  {
    StartsWith(uri, "skd://") || StartsWith(uri, "sk://")
  }

  /** The key URIs of the stream that are present and look like `skd://` keys, in stream order. */
  function SkdUris(uris: seq<Option<string>>): (r: seq<string>)
  {
    if uris == [] then []
    else (if uris[0].Some? && uris[0].value != "" && IsSkd(uris[0].value) then [uris[0].value] else []) + SkdUris(uris[1..])
  }

  lemma {:induction false} SkdUrisSpec(uris: seq<Option<string>>, u: string)
    ensures u in SkdUris(uris) <==> Some(u) in uris && IsSkd(u)
  {
    if uris != [] {
      SkdUrisSpec(uris[1..], u);
      assert uris == [uris[0]] + uris[1..];
      if u == "" {
        assert !StartsWith(u, "skd://") && !StartsWith(u, "sk://");
      }
    }
  }

  predicate KeyFits(key: string, suffix: string)
  {
    EndsWith(key, suffix) || EndsWith(key, KeySuffixDefault)
  }

  /** The keys `extract_media` returns: the prefetch key, then the fitting `skd` keys. */
  function KeysFor(uris: seq<Option<string>>, codec: string): seq<string>
  {
    [PrefetchKey] + Filter(SkdUris(uris), (k: string) => KeyFits(k, KeySuffixFor(codec)))
  }

  /**
   * The keys start with the prefetch key; after it come exactly the stream's `skd` keys that end
   * in the codec's suffix or in the default one, in stream order.
   */
  lemma KeysForSpec(uris: seq<Option<string>>, codec: string, u: string)
    ensures var keys := KeysFor(uris, codec);
      keys[0] == PrefetchKey
      && (u in keys[1..] <==> Some(u) in uris && IsSkd(u) && KeyFits(u, KeySuffixFor(codec)))
  {
    var keys := KeysFor(uris, codec);
    assert keys[1..] == Filter(SkdUris(uris), (k: string) => KeyFits(k, KeySuffixFor(codec)));
    FilterSpec(SkdUris(uris), (k: string) => KeyFits(k, KeySuffixFor(codec)), u);
    SkdUrisSpec(uris, u);
  }

  /** `M3U8Info`: the init segment, the keys, the codec id, and for ALAC the bit depth and sample rate. */
  datatype M3U8Info = M3U8Info(uri: string, keys: seq<string>, codecId: string, bitDepth: Option<int>, sampleRate: Option<int>)

  /** The chosen stream's own playlist: its key URIs and the URI of its init segment. */
  datatype Stream = Stream(keyUris: seq<Option<string>>, segmentUri: string)

  datatype MediaResult = Found(info: M3U8Info, actualCodec: string) | CodecNotFound(message: string) | Raised(error: string)

  function InfoFor(c: Choice, stream: Stream): (r: M3U8Info)
    ensures r.bitDepth.Some? <==> c.codec == Alac
    ensures r.sampleRate.Some? <==> c.codec == Alac
    ensures c.codec == Alac ==> r.bitDepth == Some(c.playlist.bitDepth.GetOr(0)) && r.sampleRate == Some(c.playlist.sampleRate.GetOr(0))
  {
    M3U8Info(stream.segmentUri, KeysFor(stream.keyUris, c.codec), c.playlist.groupId,
             if c.codec == Alac then Some(c.playlist.bitDepth.GetOr(0)) else None,
             if c.codec == Alac then Some(c.playlist.sampleRate.GetOr(0)) else None)
  }

  /** `extract_media`; `streamOf` is the playlist downloaded for a stream URI. */
  function Media(ps: seq<Playlist>, codec: string, priority: seq<string>, alternative: bool,
                 maxBitDepth: int, maxSampleRate: int, streamOf: string -> Stream): (r: MediaResult)
    ensures r.CodecNotFound? ==> ChoosePlaylist(BestOf(ps, maxBitDepth, maxSampleRate), codec, priority, alternative) == Success(None)
  {
    var choice := ChoosePlaylist(BestOf(ps, maxBitDepth, maxSampleRate), codec, priority, alternative);
    if choice.Failure? then MediaResult.Raised(choice.error)
    else if choice.value.None? then CodecNotFound("Codec " + codec + " not available")
    else
      var c := choice.value.value;
      Found(InfoFor(c, streamOf(c.playlist.uri)), c.codec)
  }

  /**
   * A found stream is the best playlist of the reported codec, carries that playlist's codec id,
   * and its keys are those of the downloaded stream for that codec.
   */
  lemma MediaFound(ps: seq<Playlist>, codec: string, priority: seq<string>, alternative: bool,
                   maxBitDepth: int, maxSampleRate: int, streamOf: string -> Stream)
    requires Media(ps, codec, priority, alternative, maxBitDepth, maxSampleRate, streamOf).Found?
    ensures var r := Media(ps, codec, priority, alternative, maxBitDepth, maxSampleRate, streamOf);
      exists p: Playlist :: FindBestCodec(ps, r.actualCodec, maxBitDepth, maxSampleRate) == Success(Some(p))
        && r.info.codecId == p.groupId && r.info.keys == KeysFor(streamOf(p.uri).keyUris, r.actualCodec)
        && r.info.uri == streamOf(p.uri).segmentUri
  {
    var best := BestOf(ps, maxBitDepth, maxSampleRate);
    ChoosePlaylistSpec(best, codec, priority, alternative);
    var c := ChoosePlaylist(best, codec, priority, alternative).value.value;
    assert FindBestCodec(ps, c.codec, maxBitDepth, maxSampleRate) == best(c.codec) == Success(Some(c.playlist));
  }

  /** The alternatives loop, stopping at the first codec with a playlist. */
  method FallbackLoop(ps: seq<Playlist>, priority: seq<string>, maxBitDepth: int, maxSampleRate: int)
    returns (r: Result<Option<Choice>>)
    ensures r == Fallback(BestOf(ps, maxBitDepth, maxSampleRate), priority, 0)
  {
    ghost var best := BestOf(ps, maxBitDepth, maxSampleRate);
    var i := 0;
    while i < |priority|
      invariant 0 <= i <= |priority|
      invariant Fallback(best, priority, 0) == Fallback(best, priority, i)
    {
      assert best(priority[i]) == FindBestCodec(ps, priority[i], maxBitDepth, maxSampleRate);
      var best := FindBestCodec(ps, priority[i], maxBitDepth, maxSampleRate);
      if best.Failure? {
        return Failure(best.error);
      }
      if best.value.Some? {
        return Success(Some(Choice(best.value.value, priority[i])));
      }
      i := i + 1;
    }
    return Success(None);
  }

  /** The `keys.append` loop over the stream's `skd` keys. */
  method SelectKeys(skds: seq<string>, suffix: string) returns (keys: seq<string>)
    ensures keys == [PrefetchKey] + Filter(skds, (k: string) => KeyFits(k, suffix))
  {
    keys := [PrefetchKey];
    var i := 0;
    while i < |skds|
      invariant 0 <= i <= |skds|
      invariant keys == [PrefetchKey] + Filter(skds[..i], (k: string) => KeyFits(k, suffix))
    {
      FilterAppend(skds[..i], [skds[i]], (k: string) => KeyFits(k, suffix));
      assert skds[..i + 1] == skds[..i] + [skds[i]];
      if KeyFits(skds[i], suffix) {
        keys := keys + [skds[i]];
      }
      i := i + 1;
    }
    assert skds[..i] == skds;
  }

  /** `extract_media` as the steps it takes: choose, fall back, download the stream, pick the keys. */
  method ExtractMedia(ps: seq<Playlist>, codec: string, priority: seq<string>, alternative: bool,
                      maxBitDepth: int, maxSampleRate: int, streamOf: string -> Stream) returns (r: MediaResult)
    ensures r == Media(ps, codec, priority, alternative, maxBitDepth, maxSampleRate, streamOf)
  {
    var choice: Result<Option<Choice>>;
    var best := FindBestCodec(ps, codec, maxBitDepth, maxSampleRate);
    if best.Failure? {
      return MediaResult.Raised(best.error);
    }
    choice := Success(if best.value.Some? then Some(Choice(best.value.value, codec)) else None);
    if best.value.None? && alternative {
      choice := FallbackLoop(ps, priority, maxBitDepth, maxSampleRate);
      if choice.Failure? {
        return MediaResult.Raised(choice.error);
      }
    }
    if choice.value.None? {
      return CodecNotFound("Codec " + codec + " not available");
    }
    var c := choice.value.value;
    var stream := streamOf(c.playlist.uri);
    var keys := SelectKeys(SkdUris(stream.keyUris), KeySuffixFor(c.codec));
    var bitDepth, sampleRate := None, None;
    if c.codec == Alac {
      sampleRate := Some(c.playlist.sampleRate.GetOr(0));
      bitDepth := Some(c.playlist.bitDepth.GetOr(0));
    }
    return Found(M3U8Info(stream.segmentUri, keys, c.playlist.groupId, bitDepth, sampleRate), c.codec);
  }

  // ---------------------------------------------------------------- extract_song: the samples

  /** An `NHNTSample` of the NHML: its byte length and its duration. */
  datatype NhntSample = NhntSample(dataLength: nat, duration: int)

  /**
   * A `MovieFragmentBox`: the `SampleDescriptionIndex` of its header (`None` when absent or
   * empty) and the `SampleCount` of each of its track runs.
   */
  datatype Fragment = Fragment(sampleDescriptionIndex: Option<int>, runs: seq<nat>)

  function DescIndexOf(f: Fragment): int
  {
    if f.sampleDescriptionIndex.None? then 0 else f.sampleDescriptionIndex.value - 1
  }

  /** `nhnt_samples.update(...)` per `NHNTSample`: a later sample with the same number replaces an earlier one. */
  function NhntMap(entries: seq<(int, NhntSample)>): map<int, NhntSample>
  {
    if entries == [] then map[]
    else NhntMap(entries[..|entries| - 1])[entries[|entries| - 1].0 := entries[|entries| - 1].1]
  }

  /** A number is mapped exactly when some sample has it, and to the last sample that has it. */
  lemma {:induction false} NhntMapSpec(entries: seq<(int, NhntSample)>, n: int)
    ensures n in NhntMap(entries) <==> exists i :: 0 <= i < |entries| && entries[i].0 == n
    ensures n in NhntMap(entries) ==>
      exists i :: (0 <= i < |entries| && entries[i].0 == n
                   && NhntMap(entries)[n] == entries[i].1 && forall j :: i < j < |entries| ==> entries[j].0 != n)
  {
    if entries != [] {
      var m := |entries| - 1;
      var front := entries[..m];
      NhntMapSpec(front, n);
      assert forall i :: 0 <= i < m ==> front[i] == entries[i];
      if entries[m].0 != n && n in NhntMap(entries) {
        var i :| 0 <= i < m && front[i].0 == n && NhntMap(front)[n] == front[i].1
          && forall j :: i < j < m ==> front[j].0 != n;
        assert entries[i].0 == n && NhntMap(entries)[n] == entries[i].1;
      }
    }
  }

  /** The loop over the NHML's samples that fills `nhnt_samples`. */
  method IndexNhnt(entries: seq<(int, NhntSample)>) returns (m: map<int, NhntSample>)
    ensures m == NhntMap(entries)
  {
    m := map[];
    var i := 0;
    while i < |entries|
      invariant 0 <= i <= |entries|
      invariant m == NhntMap(entries[..i])
    {
      assert entries[..i + 1][..i] == entries[..i];
      m := m[entries[i].0 := entries[i].1];
      i := i + 1;
    }
    assert entries[..i] == entries;
  }

  function Min(a: int, b: int): int
  {
    if a <= b then a else b
  }

  /** The samples read so far and the position in the media. */
  datatype Reading = Reading(samples: seq<Rip.SampleInfo>, pos: nat)

  /** Sample `number`: skipped when the NHML lacks it, otherwise its bytes are read from the media. */
  function Step(nhnt: map<int, NhntSample>, media: Bytes, st: Reading, number: int, desc: int): Reading
  {
    if number !in nhnt then st
    else
      var e := nhnt[number];
      var end := Min(st.pos + e.dataLength, |media|);
      var data := if st.pos <= end then media[st.pos..end] else [];
      Reading(st.samples + [Rip.SampleInfo(data, e.duration, desc)], if st.pos <= end then end else st.pos)
  }

  /** The `count` samples of one run, numbered from `number + 1`. */
  function ReadRun(nhnt: map<int, NhntSample>, media: Bytes, st: Reading, number: nat, desc: int, count: nat): Reading
  {
    if count == 0 then st else Step(nhnt, media, ReadRun(nhnt, media, st, number, desc, count - 1), number + count, desc)
  }

  function Total(runs: seq<nat>): nat
  {
    if runs == [] then 0 else Total(runs[..|runs| - 1]) + runs[|runs| - 1]
  }

  /** The runs of one fragment, numbered on from `number`. */
  function ReadRuns(nhnt: map<int, NhntSample>, media: Bytes, st: Reading, number: nat, desc: int, runs: seq<nat>): Reading
  {
    if runs == [] then st
    else
      var front := runs[..|runs| - 1];
      ReadRun(nhnt, media, ReadRuns(nhnt, media, st, number, desc, front), number + Total(front), desc, runs[|runs| - 1])
  }

  /** How many samples the fragments number. */
  function Numbered(fs: seq<Fragment>): nat
  {
    if fs == [] then 0 else Numbered(fs[..|fs| - 1]) + Total(fs[|fs| - 1].runs)
  }

  /** The fragments read in order from the start of the media. */
  function ReadFragments(nhnt: map<int, NhntSample>, media: Bytes, fs: seq<Fragment>): Reading
  {
    if fs == [] then Reading([], 0)
    else
      var front := fs[..|fs| - 1];
      ReadRuns(nhnt, media, ReadFragments(nhnt, media, front), Numbered(front), DescIndexOf(fs[|fs| - 1]), fs[|fs| - 1].runs)
  }

  // The same reading stated flat: one description index per sample number.

  /** The description index of every numbered sample: sample `n` (from 1) has `DescSlots(fs)[n - 1]`. */
  function DescSlots(fs: seq<Fragment>): (r: seq<int>)
    ensures |r| == Numbered(fs)
  {
    if fs == [] then []
    else DescSlots(fs[..|fs| - 1]) + seq(Total(fs[|fs| - 1].runs), _ => DescIndexOf(fs[|fs| - 1]))
  }

  /** Samples 1 to `m` read in number order. */
  function ReadUpTo(nhnt: map<int, NhntSample>, media: Bytes, descs: seq<int>, m: nat): Reading
    requires m <= |descs|
  {
    if m == 0 then Reading([], 0) else Step(nhnt, media, ReadUpTo(nhnt, media, descs, m - 1), m, descs[m - 1])
  }

  /** Reading the first `m` samples looks only at the first `m` description indexes. */
  lemma {:induction false} ReadUpToPrefix(nhnt: map<int, NhntSample>, media: Bytes, a: seq<int>, b: seq<int>, m: nat)
    requires m <= |a|
    ensures ReadUpTo(nhnt, media, a, m) == ReadUpTo(nhnt, media, a + b, m)
  {
    if m > 0 {
      ReadUpToPrefix(nhnt, media, a, b, m - 1);
    }
  }

  /** A run whose numbers all carry `desc` continues the flat reading. */
  lemma {:induction false} RunFlat(nhnt: map<int, NhntSample>, media: Bytes, descs: seq<int>, number: nat, desc: int, count: nat)
    requires number + count <= |descs|
    requires forall t :: number <= t < number + count ==> descs[t] == desc
    ensures ReadRun(nhnt, media, ReadUpTo(nhnt, media, descs, number), number, desc, count) == ReadUpTo(nhnt, media, descs, number + count)
  {
    if count > 0 {
      RunFlat(nhnt, media, descs, number, desc, count - 1);
    }
  }

  /** A fragment's runs, all carrying `desc`, continue the flat reading. */
  lemma {:induction false} RunsFlat(nhnt: map<int, NhntSample>, media: Bytes, descs: seq<int>, number: nat, desc: int, runs: seq<nat>)
    requires number + Total(runs) <= |descs|
    requires forall t :: number <= t < number + Total(runs) ==> descs[t] == desc
    ensures ReadRuns(nhnt, media, ReadUpTo(nhnt, media, descs, number), number, desc, runs) == ReadUpTo(nhnt, media, descs, number + Total(runs))
  {
    if runs != [] {
      var front := runs[..|runs| - 1];
      RunsFlat(nhnt, media, descs, number, desc, front);
      RunFlat(nhnt, media, descs, number + Total(front), desc, runs[|runs| - 1]);
    }
  }

  /**
   * Reading fragment by fragment and run by run is reading samples 1, 2, ... in order, where
   * every sample carries the description index of the fragment it is numbered in.
   */
  lemma {:induction false} FragmentsFlat(nhnt: map<int, NhntSample>, media: Bytes, fs: seq<Fragment>)
    ensures ReadFragments(nhnt, media, fs) == ReadUpTo(nhnt, media, DescSlots(fs), Numbered(fs))
  {
    if fs != [] {
      var front := fs[..|fs| - 1];
      var last := fs[|fs| - 1];
      var d := DescSlots(front);
      var tail := seq(Total(last.runs), _ => DescIndexOf(last));
      FragmentsFlat(nhnt, media, front);
      ReadUpToPrefix(nhnt, media, d, tail, |d|);
      RunsFlat(nhnt, media, d + tail, |d|, DescIndexOf(last), last.runs);
    }
  }

  /** The sample numbers up to `m` that the NHML has, in increasing order. */
  function Present(nhnt: map<int, NhntSample>, m: nat): (r: seq<nat>)
    ensures forall k :: 0 <= k < |r| ==> 1 <= r[k] <= m && r[k] in nhnt
  {
    if m == 0 then [] else Present(nhnt, m - 1) + (if m in nhnt then [m] else [])
  }

  /** Every number the NHML has appears once, in increasing order. */
  lemma {:induction false} PresentSpec(nhnt: map<int, NhntSample>, m: nat)
    ensures forall k, l :: 0 <= k < l < |Present(nhnt, m)| ==> Present(nhnt, m)[k] < Present(nhnt, m)[l]
    ensures forall n :: 1 <= n <= m && n in nhnt ==> n in Present(nhnt, m)
  {
    if m > 0 {
      PresentSpec(nhnt, m - 1);
    }
  }

  /**
   * The k-th sample read is the k-th number the NHML has: its duration is that NHML sample's,
   * its description index that of the slot it was numbered in, and it has at most that
   * sample's byte length.
   */
  lemma {:induction false} ReadUpToSamples(nhnt: map<int, NhntSample>, media: Bytes, descs: seq<int>, m: nat)
    requires m <= |descs|
    ensures var r := ReadUpTo(nhnt, media, descs, m); var ns := Present(nhnt, m);
      |r.samples| == |ns|
      && forall k :: 0 <= k < |ns| ==>
           r.samples[k].duration == nhnt[ns[k]].duration && r.samples[k].descIndex == descs[ns[k] - 1]
           && |r.samples[k].data| <= nhnt[ns[k]].dataLength
  {
    if m > 0 {
      ReadUpToSamples(nhnt, media, descs, m - 1);
    }
  }

  function AllData(samples: seq<Rip.SampleInfo>): Bytes
  {
    if samples == [] then [] else AllData(samples[..|samples| - 1]) + samples[|samples| - 1].data
  }

  /** The media is read front to back: the samples' bytes, joined, are the media up to the position. */
  lemma {:induction false} ReadUpToContiguous(nhnt: map<int, NhntSample>, media: Bytes, descs: seq<int>, m: nat)
    requires m <= |descs|
    ensures var r := ReadUpTo(nhnt, media, descs, m);
      r.pos <= |media| && AllData(r.samples) == media[..r.pos]
  {
    if m > 0 {
      ReadUpToContiguous(nhnt, media, descs, m - 1);
      var st := ReadUpTo(nhnt, media, descs, m - 1);
      if m in nhnt {
        var r := ReadUpTo(nhnt, media, descs, m);
        var s := r.samples;
        assert s[..|s| - 1] == st.samples;
        assert media[..r.pos] == media[..st.pos] + media[st.pos..r.pos];
      }
    }
  }

  /** The samples of one run (the innermost loop), counting the sample number on. */
  method ReadRunLoop(nhnt: map<int, NhntSample>, media: Bytes, samples0: seq<Rip.SampleInfo>, pos0: nat,
                     number0: nat, desc: int, count: nat) returns (samples: seq<Rip.SampleInfo>, pos: nat, number: nat)
    ensures Reading(samples, pos) == ReadRun(nhnt, media, Reading(samples0, pos0), number0, desc, count)
    ensures number == number0 + count
  {
    samples, pos, number := samples0, pos0, number0;
    var k := 0;
    while k < count
      invariant 0 <= k <= count && number == number0 + k
      invariant Reading(samples, pos) == ReadRun(nhnt, media, Reading(samples0, pos0), number0, desc, k)
    {
      number := number + 1;
      if number in nhnt {
        var e := nhnt[number];
        var end := Min(pos + e.dataLength, |media|);
        var data := if pos <= end then media[pos..end] else [];
        samples := samples + [Rip.SampleInfo(data, e.duration, desc)];
        pos := if pos <= end then end else pos;
      }
      k := k + 1;
    }
  }

  /** The runs of one fragment (the middle loop). */
  method ReadRunsLoop(nhnt: map<int, NhntSample>, media: Bytes, samples0: seq<Rip.SampleInfo>, pos0: nat,
                      number0: nat, desc: int, runs: seq<nat>) returns (samples: seq<Rip.SampleInfo>, pos: nat, number: nat)
    ensures Reading(samples, pos) == ReadRuns(nhnt, media, Reading(samples0, pos0), number0, desc, runs)
    ensures number == number0 + Total(runs)
  {
    samples, pos, number := samples0, pos0, number0;
    var j := 0;
    while j < |runs|
      invariant 0 <= j <= |runs| && number == number0 + Total(runs[..j])
      invariant Reading(samples, pos) == ReadRuns(nhnt, media, Reading(samples0, pos0), number0, desc, runs[..j])
    {
      assert runs[..j + 1][..j] == runs[..j];
      samples, pos, number := ReadRunLoop(nhnt, media, samples, pos, number, desc, runs[j]);
      j := j + 1;
    }
    assert runs[..j] == runs;
  }

  /**
   * `extract_song`'s sample loop: the samples of the fragments, numbered from 1 across all runs;
   * numbers the NHML lacks are skipped, and every sample carries its fragment's description
   * index.
   */
  method ExtractSamples(fragments: seq<Fragment>, nhnt: map<int, NhntSample>, media: Bytes) returns (samples: seq<Rip.SampleInfo>)
    ensures samples == ReadFragments(nhnt, media, fragments).samples
  {
    samples := [];
    var pos: nat := 0;
    var number: nat := 0;
    var i := 0;
    while i < |fragments|
      invariant 0 <= i <= |fragments| && number == Numbered(fragments[..i])
      invariant Reading(samples, pos) == ReadFragments(nhnt, media, fragments[..i])
    {
      assert fragments[..i + 1][..i] == fragments[..i];
      var index := if fragments[i].sampleDescriptionIndex.None? then 0 else fragments[i].sampleDescriptionIndex.value - 1;
      samples, pos, number := ReadRunsLoop(nhnt, media, samples, pos, number, index, fragments[i].runs);
      i := i + 1;
    }
    assert fragments[..i] == fragments;
  }
}
