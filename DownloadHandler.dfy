/**
 * The download command handler: the song-only link gate, the quality chosen on the command line
 * or in the interactive session, and the per-user limit on pending tasks.
 */
module DownloadHandler {
  import opened Wrappers
  import opened Text
  import opened UrlParser
  import QueueTask

  // ---------------------------------------------------------------- the song-only gate

  /** `parse(url)` kept only when its type is `song`. */
  function SongLink(url: string): Option<Parsed>
  {
    var p := Parse(url);
    if p.Some? && TypeOf(p.value) == "song" then p else None
  }

  /** A link passes the gate exactly when one of the two song patterns accepts the stripped link. */
  lemma SongLinkSpec(url: string)
    ensures SongLink(url).Some? <==> Match(SongP, Strip(url)).Some? || Match(SongDirectP, Strip(url)).Some?
    ensures SongLink(url).Some? ==> SongLink(url).value.SongInAlbum? || SongLink(url).value.DirectSong?
  {
    ParseSongs(url);
  }

  // ---------------------------------------------------------------- quality on the command line

  /** The configured default quality, with anything but `alac` and `aac` replaced by `alac`. */
  function DefaultQuality(configured: string): (r: string)
    ensures r == "alac" || r == "aac"
    ensures configured == "alac" || configured == "aac" ==> r == configured
    ensures configured != "alac" && configured != "aac" ==> r == "alac"
  {
    if configured == "alac" || configured == "aac" then configured else "alac"
  }

  /** The command's quality argument, lower-cased, looked up in the direct table; `None` means refused. */
  function DirectQuality(quality: string, default: string): Option<string>
  {
    var key := Lower(quality);
    if key == "" then Some(default)
    else if key == "alac" || key == "无损" || key == "lossless" then Some("alac")
    else if key == "aac" then Some("aac")
    else None
  }

  /**
   * With the default resolved from the configuration, an empty argument takes the default, the
   * three lossless names give `alac`, `aac` gives `aac` and every other argument is refused.
   */
  lemma DirectQualitySpec(quality: string, configured: string)
    ensures var r := DirectQuality(quality, DefaultQuality(configured));
            var key := Lower(quality);
            && (r.Some? <==> key == "" || key == "alac" || key == "无损" || key == "lossless" || key == "aac")
            && (r.Some? ==> r.value == "alac" || r.value == "aac")
            && (r == Some("aac") <==> key == "aac" || (key == "" && DefaultQuality(configured) == "aac"))
  {
  }

  /** Letter case does not matter: `ALAC` and `alac` are the same choice. */
  lemma DirectQualityCase(a: string, b: string, default: string)
    requires Lower(a) == Lower(b)
    ensures DirectQuality(a, default) == DirectQuality(b, default)
  {
  }

  // ---------------------------------------------------------------- the interactive session

  /** `user_input.lower() in ("取消", "cancel", "exit", "quit")`. */
  predicate IsCancel(input: string)
  {
    var key := Lower(input);
    key == "取消" || key == "cancel" || key == "exit" || key == "quit"
  }

  /** The interactive quality table. */
  function InteractiveQuality(key: string): Option<string>
  {
    if key == "" || key == " " || key == "1" || key == "alac" || key == "无损" then Some("alac")
    else if key == "2" || key == "aac" then Some("aac")
    else None
  }

  /** `session_data["state"]` with what it remembers; `Finished` once the controller has stopped. */
  datatype SessionState = AwaitUrl | AwaitQuality(url: string, parsed: Parsed) | Finished

  /** What one message does; the kept sessions wait 60 s for a link and 30 s for a quality. */
  datatype StepOutcome = Cancelled | InvalidLink | LinkAccepted | BadQuality | Download(url: string, quality: string, parsed: Parsed) | Ignored

  /** How long the session is kept after an outcome, or `None` when the controller stops. */
  function KeepSeconds(o: StepOutcome): Option<nat>
  {
    match o
    case InvalidLink => Some(60)
    case LinkAccepted => Some(30)
    case BadQuality => Some(30)
    case _ => None
  }

  /** `interactive_session` on one message: the outcome and the next state. */
  function Step(state: SessionState, message: string): (StepOutcome, SessionState)
  {
    var input := Strip(message);
    if state.Finished? then (Ignored, Finished)
    else if IsCancel(input) then (Cancelled, Finished)
    else if state.AwaitUrl? then
      var link := SongLink(input);
      if link.None? then (InvalidLink, AwaitUrl) else (LinkAccepted, AwaitQuality(input, link.value))
    else
      var q := InteractiveQuality(Lower(input));
      if q.None? then (BadQuality, state) else (Download(state.url, q.value, state.parsed), Finished)
  }

  /** The states a session can reach: one waiting for a quality holds a song link and its parse. */
  predicate GoodState(s: SessionState)
  {
    s.AwaitQuality? ==> SongLink(s.url) == Some(s.parsed)
  }

  /** Every step keeps the session's state reachable. */
  lemma StepKeepsGood(state: SessionState, message: string)
    requires GoodState(state)
    ensures GoodState(Step(state, message).1)
  {
    var input := Strip(message);
    var next := Step(state, message).1;
    if !state.Finished? && !IsCancel(input) && state.AwaitUrl? {
      var link := SongLink(input);
      if link.Some? {
        assert next == AwaitQuality(input, link.value);
      } else {
        assert next == AwaitUrl;
      }
    }
  }

  /**
   * A download is only ever started for the song link stored when the session moved on to the
   * quality, with `alac` or `aac`.
   */
  lemma StepDownloads(state: SessionState, message: string)
    requires GoodState(state)
    ensures Step(state, message).0.Download? ==>
              var d := Step(state, message).0;
              state.AwaitQuality? && d.url == state.url && d.parsed == state.parsed
              && TypeOf(d.parsed) == "song" && (d.quality == "alac" || d.quality == "aac")
  {
    var input := Strip(message);
    if state.Finished? {
      assert Step(state, message).0 == Ignored;
    } else if IsCancel(input) {
      assert Step(state, message).0 == Cancelled;
    } else if state.AwaitUrl? {
      assert !Step(state, message).0.Download?;
    } else {
      var q := InteractiveQuality(Lower(input));
      if q.Some? {
        assert q.value == "alac" || q.value == "aac";
        assert Step(state, message).0 == Download(state.url, q.value, state.parsed);
      } else {
        assert Step(state, message).0 == BadQuality;
      }
    }
  }

  /** A cancel word stops a running session at either step, and nothing else stops one waiting for a link. */
  lemma CancelStops(state: SessionState, message: string)
    requires !state.Finished?
    ensures IsCancel(Strip(message)) ==> Step(state, message) == (Cancelled, Finished)
    ensures state.AwaitUrl? && !IsCancel(Strip(message)) ==> KeepSeconds(Step(state, message).0).Some?
  {
    var input := Strip(message);
    if IsCancel(input) {
      assert Step(state, message) == (Cancelled, Finished);
    } else if state.AwaitUrl? {
      if SongLink(input).None? {
        assert Step(state, message).0 == InvalidLink;
      } else {
        assert Step(state, message).0 == LinkAccepted;
      }
    }
  }

  /** A session waiting for a link moves on exactly for a song link. */
  lemma UrlStep(message: string)
    ensures Step(AwaitUrl, message).1.AwaitQuality? <==> !IsCancel(Strip(message)) && SongLink(Strip(message)).Some?
  {
    var input := Strip(message);
    if IsCancel(input) {
      assert Step(AwaitUrl, message).1 == Finished;
    } else if SongLink(input).None? {
      assert Step(AwaitUrl, message).1 == AwaitUrl;
    } else {
      assert Step(AwaitUrl, message).1 == AwaitQuality(input, SongLink(input).value);
    }
  }

  /**
   * The interactive table: `""`, `"1"`, `alac` and `无损` give `alac`; `"2"` and `aac` give `aac`;
   * the `" "` entry is never looked up, since the message is stripped first.
   */
  lemma InteractiveQualitySpec(message: string)
    ensures var key := Lower(Strip(message));
            && key != " "
            && (InteractiveQuality(key) == Some("alac") <==> key == "" || key == "1" || key == "alac" || key == "无损")
            && (InteractiveQuality(key) == Some("aac") <==> key == "2" || key == "aac")
  {
    var t := Strip(message);
    if |t| == 1 {
      assert Lower(t)[0] == LowerChar(t[0]);
    }
  }

  /** The session of one `/am` command without a link. */
  class InteractiveSession {
    var state: SessionState

    constructor()
      ensures state == AwaitUrl
    {
      state := AwaitUrl;
    }

    /** One message to the session waiter. */
    method Receive(message: string) returns (outcome: StepOutcome)
      modifies this
      ensures (outcome, state) == Step(old(state), message)
    {
      var input := Strip(message);
      if state.Finished? {
        return Ignored;
      }
      if IsCancel(input) {
        state := Finished;
        return Cancelled;
      }
      if state.AwaitUrl? {
        var parsed := Parse(input);
        if parsed.None? || TypeOf(parsed.value) != "song" {
          return InvalidLink;
        }
        state := AwaitQuality(input, parsed.value);
        return LinkAccepted;
      }
      var q := InteractiveQuality(Lower(input));
      if q.None? {
        return BadQuality;
      }
      outcome := Download(state.url, q.value, state.parsed);
      state := Finished;
    }
  }

  // ---------------------------------------------------------------- _process_download

  /** The display name of a quality. */
  function QualityDisplay(q: string): (r: string)
  {
    if q == "alac" then "无损 ALAC" else if q == "aac" then "高品质 AAC" else q
  }

  /** Both qualities the handler produces have their own display name. */
  lemma QualityDisplayKnown(q: string)
    requires q == "alac" || q == "aac"
    ensures QualityDisplay(q) != q
    ensures QualityDisplay(q) == (if q == "alac" then "无损 ALAC" else "高品质 AAC")
  {
  }

  /** `parsed.get("storefront")`, falling back to the configured storefront when it is missing or empty. */
  function StorefrontFor(parsed: map<string, string>, configured: string): string
  {
    if "storefront" in parsed && parsed["storefront"] != "" then parsed["storefront"] else configured
  }

  /** A song link always carries its storefront, so the configured one is never used for it. */
  lemma StorefrontFromLink(url: string, configured: string)
    requires SongLink(url).Some?
    ensures StorefrontFor(Dict(SongLink(url).value), configured) == SongLink(url).value.storefront
  {
    ParseSound(url);
  }

  /** `parsed.get("id")` as written: the key only the non-song results carry. */
  function MetadataIdAsWritten(parsed: map<string, string>): Option<string>
  {
    if "id" in parsed && parsed["id"] != "" then Some(parsed["id"]) else None
  }

  /** As written, no song that passes the gate has an id to look up, so the song name is never fetched. */
  lemma MetadataNeverFetched(url: string)
    requires SongLink(url).Some?
    ensures MetadataIdAsWritten(Dict(SongLink(url).value)).None?
  {
    SongLinkSpec(url);
    SongDictKeys(SongLink(url).value);
  }

  /** The song id of a parsed song: the `song_id` entry both song results carry. */
  function MetadataId(parsed: map<string, string>): Option<string>
  {
    if "song_id" in parsed && parsed["song_id"] != "" then Some(parsed["song_id"]) else None
  }

  /** With the `song_id` key every song that passes the gate has its digit id looked up. */
  lemma MetadataIdFound(url: string)
    requires SongLink(url).Some?
    ensures !SongLink(url).value.Other?
    ensures MetadataId(Dict(SongLink(url).value)) == Some(SongLink(url).value.songId)
    ensures IsDigits(SongLink(url).value.songId)
  {
    SongLinkSpec(url);
    ParseSound(url);
    SongDictKeys(SongLink(url).value);
  }

  /** The number of pending tasks among the user's tasks. */
  function PendingCount(ts: seq<QueueTask.DownloadTask>): nat
    reads ts
  {
    if ts == [] then 0
    else PendingCount(ts[..|ts| - 1]) + (if ts[|ts| - 1].status == QueueTask.Pending then 1 else 0)
  }

  /** The positions of the pending tasks. */
  function PendingAt(ts: seq<QueueTask.DownloadTask>): set<nat>
    reads ts
  {
    set i: nat | i < |ts| && ts[i].status == QueueTask.Pending
  }

  /** The count is the number of positions holding a pending task. */
  lemma {:induction false} PendingCountSpec(ts: seq<QueueTask.DownloadTask>)
    ensures PendingCount(ts) == |PendingAt(ts)|
    ensures PendingCount(ts) <= |ts|
  {
    if ts != [] {
      var p := ts[..|ts| - 1];
      PendingCountSpec(p);
      var n := |ts| - 1;
      if ts[n].status == QueueTask.Pending {
        assert PendingAt(ts) == PendingAt(p) + {n};
      } else {
        assert PendingAt(ts) == PendingAt(p);
      }
    }
  }

  /** `len(pending_tasks) >= max_tasks_per_user`: the request is refused and nothing is enqueued. */
  predicate LimitReached(ts: seq<QueueTask.DownloadTask>, maxTasks: int)
    reads ts
  {
    PendingCount(ts) >= maxTasks
  }

  /**
   * The limit counts the pending tasks and nothing else: a user none of whose tasks is pending is
   * refused only by a limit of zero or less, and one with as many pending tasks as the limit always is.
   */
  lemma LimitSpec(ts: seq<QueueTask.DownloadTask>, maxTasks: int)
    ensures LimitReached(ts, maxTasks) <==> |PendingAt(ts)| >= maxTasks
    ensures (forall i :: 0 <= i < |ts| ==> ts[i].status != QueueTask.Pending) ==> (LimitReached(ts, maxTasks) <==> maxTasks <= 0)
  {
    PendingCountSpec(ts);
    if forall i :: 0 <= i < |ts| ==> ts[i].status != QueueTask.Pending {
      assert PendingAt(ts) == {};
    }
  }
}
