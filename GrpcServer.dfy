/**
 * The wrapper-manager service: the reply each request gets (Status, Login, Logout, Decrypt,
 * M3U8, Lyrics), built from the instance manager, the dispatcher and the login handler.
 */
module GrpcServer {
  import opened Wrappers
  import opened Text
  import opened WrapperProxy
  import opened InstanceManager
  import opened Dispatcher
  import opened LoginHandler

  const SuccessMsg := "SUCCESS"
  const Keepalive := "KEEPALIVE"
  const NoAccount := "账户不存在"
  const NoActiveInstance := "没有可用的实例"
  const InvalidInstance := "实例无效"
  const NoAccountInfo := "无法获取账户信息"
  const NoLyricsData := "未找到歌词数据"

  datatype StatusReply = StatusReply(code: int, msg: string, status: bool, regions: set<string>, clientCount: nat, ready: bool)

  datatype LoginRequest = LoginRequest(username: string, password: string, twoStepCode: string)
  datatype LoginReply = LoginReply(code: int, msg: string, username: string)

  datatype LogoutReply = LogoutReply(code: int, msg: string, username: string)

  datatype DecryptRequest = DecryptRequest(adamId: string, key: string, sampleIndex: int, sample: Bytes)
  datatype DecryptReply = DecryptReply(code: int, msg: string, adamId: string, key: string, sampleIndex: int, sample: Bytes)

  datatype M3u8ServiceReply = M3u8ServiceReply(code: int, msg: string, adamId: string, m3u8: string)

  datatype LyricsReply = LyricsReply(code: int, msg: string, lyrics: string)

  /** `(code, msg)` of a reply header for a success flag and an optional error. */
  function HeaderCode(ok: bool): int { if ok then 0 else -1 }

  function ErrorOr(error: Option<string>): string
  {
    match error
    case Some(e) => if e == "" then SuccessMsg else e
    case None => SuccessMsg
  }

  /** A message that is answered as "two-factor code needed". */
  predicate MentionsSecondFactor(msg: string)
  {
    Contains(msg, "2FA") || Contains(msg, "双因素")
  }

  /**
   * The code of a reply to a password frame: 1 when the message mentions a second factor, else
   * 0 on success and -1 on failure.
   */
  function StartReplyCode(ok: bool, msg: string): (c: int)
    ensures c == 1 <==> MentionsSecondFactor(msg)
    ensures c == 0 <==> ok && !MentionsSecondFactor(msg)
    ensures c == -1 <==> !ok && !MentionsSecondFactor(msg)
  {
    if ok || MentionsSecondFactor(msg) then (if MentionsSecondFactor(msg) then 1 else 0) else -1
  }

  /** A submitted login is answered 0, and a session that waits for its code is answered 1. */
  lemma StartReplyCodes()
    ensures StartReplyCode(true, LoginSubmitted) == 0
    ensures StartReplyCode(false, AwaitingCode) == 1
  {
    assert MentionsSecondFactor(AwaitingCode) by {
      assert AwaitingCode[4..7] == "双因素";
      ContainsAt(AwaitingCode, "双因素", 4);
    }
    assert !MentionsSecondFactor(LoginSubmitted) by {
      NotContainsFirst(LoginSubmitted, "2FA");
      NotContainsFirst(LoginSubmitted, "双因素");
    }
  }

  /** How the client side of the login stream reacts to a reply code. */
  datatype ClientReaction = RaiseError | LoginDone | AskForCode | KeepWaiting

  /** The `match` on `reply.header.code` in the client's login loop. */
  function ClientReactionTo(code: int): ClientReaction
  {
    if code == -1 then RaiseError else if code == 0 then LoginDone else if code == 2 then AskForCode else KeepWaiting
  }

  /**
   * The servicer signals a pending second factor with code 1, but the client asks for the code
   * only on code 2: on that reply it neither asks nor finishes, it keeps waiting.
   */
  lemma PendingCodeNotRecognised()
    ensures ClientReactionTo(StartReplyCode(false, AwaitingCode)) == KeepWaiting
    ensures ClientReactionTo(StartReplyCode(true, LoginSubmitted)) == LoginDone
  {
    StartReplyCodes();
  }

  /** Python's `str(bool)`. */
  function PyBool(b: bool): string { if b then "True" else "False" }

  predicate Truthy(s: Option<string>) { s.Some? && s.value != "" }

  datatype AccountInfo = AccountInfo(devToken: Option<string>, musicToken: Option<string>)

  /** One element of the response's `data` list: its `attributes.ttmlLocalizations`, if any. */
  datatype LyricsItem = LyricsItem(ttml: Option<string>)

  /** The decoded JSON body: the text of its "errors" entry, if any, and its "data" list. */
  datatype LyricsJson = LyricsJson(errors: Option<string>, data: Option<seq<LyricsItem>>)

  /** What the HTTP request for the lyrics produced. */
  datatype LyricsFetch = Fetched(status: int, body: LyricsJson) | FetchRaised(message: string)

  /**
   * The first active instance whose region matches `region` ignoring case, else the first
   * active instance.
   */
  function LyricsInstance(active: seq<WrapperInstance>, region: string): (r: nat)
    requires active != []
    ensures r < |active|
    ensures Lower(active[r].region) == Lower(region) ==> forall k :: 0 <= k < r ==> Lower(active[k].region) != Lower(region)
    ensures Lower(active[r].region) != Lower(region) ==> r == 0 && forall k :: 0 <= k < |active| ==> Lower(active[k].region) != Lower(region)
  {
    match FirstRegion(active, region)
    case Some(i) => i
    case None => 0
  }

  function FirstRegion(xs: seq<WrapperInstance>, region: string): (r: Option<nat>)
    ensures r.Some? ==> r.value < |xs| && Lower(xs[r.value].region) == Lower(region)
                        && forall k :: 0 <= k < r.value ==> Lower(xs[k].region) != Lower(region)
    ensures r.None? ==> forall k :: 0 <= k < |xs| ==> Lower(xs[k].region) != Lower(region)
  {
    if xs == [] then None
    else if Lower(xs[0].region) == Lower(region) then Some(0)
    else match FirstRegion(xs[1..], region)
      case None => None
      case Some(k) => Some(k + 1)
  }

  /**
   * The reply once an instance with a proxy is chosen: account tokens, then the HTTP status, then
   * the body's "errors", then the first data element's TTML.
   */
  function LyricsOutcome(info: Option<AccountInfo>, fetch: LyricsFetch): (r: LyricsReply)
    ensures r.code == 0 <==> info.Some? && Truthy(info.value.devToken) && Truthy(info.value.musicToken)
                             && fetch.Fetched? && fetch.status == 200 && fetch.body.errors.None?
                             && fetch.body.data.Some? && |fetch.body.data.value| > 0
                             && Truthy(fetch.body.data.value[0].ttml)
    ensures r.code == 0 ==> r.msg == SuccessMsg && r.lyrics == fetch.body.data.value[0].ttml.value
    ensures r.code != 0 ==> r.code == -1 && r.lyrics == ""
  {
    if info.None? then LyricsReply(-1, NoAccountInfo, "")
    else if !Truthy(info.value.devToken) || !Truthy(info.value.musicToken) then
      LyricsReply(-1, "Token 缺失: dev_token=" + PyBool(Truthy(info.value.devToken))
                      + ", music_token=" + PyBool(Truthy(info.value.musicToken)), "")
    else match fetch
      case FetchRaised(message) => LyricsReply(-1, message, "")
      case Fetched(status, body) =>
        if status != 200 then LyricsReply(-1, "歌词 API 失败: HTTP " + IntToString(status), "")
        else if body.errors.Some? then LyricsReply(-1, "API 错误: " + body.errors.value, "")
        else if body.data.Some? && |body.data.value| > 0 && Truthy(body.data.value[0].ttml) then
          LyricsReply(0, SuccessMsg, body.data.value[0].ttml.value)
        else LyricsReply(-1, NoLyricsData, "")
  }

  /**
   * The reply to one `Decrypt` frame, `chosen` being the instance it was dispatched to: it echoes
   * the frame's identity; a KEEPALIVE frame gets 0 "SUCCESS" and an empty sample; without an
   * instance the reply is -1 with the dispatcher's error; otherwise the code is 0 exactly when
   * the chosen proxy is active, the worker accepts the connection, the handshake and length fit
   * and the worker sends the whole sample back, which is then the reply's sample.
   */
  ghost predicate Answers(frame: DecryptRequest, conn: Connection<WorkerReply>, reply: DecryptReply, chosen: WrapperInstance?)
    reads if chosen != null && chosen.proxy != null then {chosen.proxy} else {}
  {
    && reply.adamId == frame.adamId && reply.key == frame.key && reply.sampleIndex == frame.sampleIndex
    && (frame.adamId == Keepalive ==> reply == DecryptReply(0, SuccessMsg, Keepalive, frame.key, frame.sampleIndex, []))
    && (frame.adamId != Keepalive && chosen == null ==>
          reply.code == -1 && reply.msg == NoAvailableInstance && reply.sample == [])
    && (frame.adamId != Keepalive && chosen != null ==>
          && chosen.proxy != null
          && (reply.code == 0 <==>
                chosen.proxy.IsActive() && conn.Accepts? && Handshake(frame.adamId, frame.key).Some?
                && |frame.sample| < U32Limit && ReadsFully(ReplyAt(conn.replies, 0), |frame.sample|))
          && (reply.code == 0 ==>
                reply.msg == SuccessMsg && reply.sample == ReadBytes(ReplyAt(conn.replies, 0), |frame.sample|))
          && (reply.code != 0 ==> reply.code == -1 && reply.sample == [])
          && (!chosen.proxy.IsActive() ==> reply.msg == NotActive))
  }

  class Servicer {
    const manager: InstanceManager
    const dispatcher: DecryptDispatcher
    const loginHandler: LoginHandler
    var ready: bool

    /** The three components share one instance manager. */
    ghost predicate Wired()
    {
      dispatcher.manager == manager && loginHandler.manager == manager
    }

    constructor (manager: InstanceManager, dispatcher: DecryptDispatcher, loginHandler: LoginHandler)
      ensures this.manager == manager && this.dispatcher == dispatcher && this.loginHandler == loginHandler
      ensures !ready
    {
      this.manager := manager;
      this.dispatcher := dispatcher;
      this.loginHandler := loginHandler;
      ready := false;
    }

    method SetReady(ready: bool)
      modifies this
      ensures this.ready == ready
    {
      this.ready := ready;
    }

    /** `Status`: serving iff some instance is active; regions and count from the manager. */
    function Status(): (r: StatusReply)
      reads this, manager, manager.instances.Values
      requires manager.Valid()
      ensures r.code == 0 && r.msg == SuccessMsg && r.ready == ready
      ensures r.clientCount == |manager.ActiveIds()| && r.regions == manager.GetRegions()
      ensures r.status <==> r.regions != {}
    {
      manager.ClientCountMatchesRegions();
      StatusReply(0, SuccessMsg, manager.GetClientCount() > 0, manager.GetRegions(), manager.GetClientCount(), ready)
    }

    /**
     * One frame of the `Login` stream: a frame carrying a code goes to `provide_2fa_code`
     * (0 on success, else -1); any other frame starts a login (see `StartReplyCode`). `freshId`
     * and `now` are the new session's id and creation time.
     */
    method LoginFrame(frame: LoginRequest, freshId: string, now: int) returns (reply: LoginReply, accepted: bool)
      requires Wired() && manager.Valid() && loginHandler.Valid()
      modifies loginHandler, loginHandler.sessions.Values
      ensures loginHandler.Valid()
      ensures reply.username == frame.username
      ensures frame.twoStepCode != "" ==> reply.code == HeaderCode(accepted)
      ensures frame.twoStepCode == "" ==> reply.code == StartReplyCode(accepted, reply.msg)
      ensures frame.twoStepCode == "" ==>
        (accepted <==> manager.GetInstanceByUsername(frame.username) == null
                       && (old(loginHandler.CurrentSession(frame.username)) == null
                           || old(loginHandler.CurrentSession(frame.username).state) != Pending2FA))
      ensures frame.twoStepCode == "" && accepted ==> reply.msg == LoginSubmitted && reply.code == 0
      ensures frame.twoStepCode == "" && manager.GetInstanceByUsername(frame.username) == null
              && old(loginHandler.CurrentSession(frame.username)) != null
              && old(loginHandler.CurrentSession(frame.username).state) == Pending2FA ==>
        reply.msg == AwaitingCode && reply.code == 1
    {
      StartReplyCodes();
      if frame.twoStepCode != "" {
        var msg;
        accepted, msg := loginHandler.Provide2FACode(frame.username, frame.twoStepCode);
        return LoginReply(HeaderCode(accepted), msg, frame.username), accepted;
      }
      var msg, sessionId;
      accepted, msg, sessionId := loginHandler.StartLogin(frame.username, frame.password, freshId, now);
      reply := LoginReply(StartReplyCode(accepted, msg), msg, frame.username);
    }

    /** `Logout`: an unknown username is answered -1; otherwise its instance is removed. */
    method Logout(username: string) returns (reply: LogoutReply)
      requires manager.Valid()
      modifies manager, manager.Proxies()
      ensures manager.Valid()
      ensures reply.username == username
      ensures old(manager.GetInstanceByUsername(username)) == null ==>
        reply.code == -1 && reply.msg == NoAccount && manager.instances == old(manager.instances)
      ensures old(manager.GetInstanceByUsername(username)) != null ==>
        reply.code == 0 && manager.instances == old(manager.instances) - {old(manager.usernameToId[username])}
    {
      var inst := manager.GetInstanceByUsername(username);
      if inst == null {
        return LogoutReply(-1, NoAccount, username);
      }
      manager.ProxyOfInSet(inst.instanceId);
      var ok, msg := manager.RemoveInstance(inst.instanceId);
      reply := LogoutReply(HeaderCode(ok), msg, username);
    }

    /**
     * One frame of the `Decrypt` stream: a KEEPALIVE frame is echoed with an empty sample and
     * not dispatched; any other frame is dispatched at clock reading `now`, `conn` being how the
     * chosen proxy's worker behaves, and `chosen` names the instance the dispatcher picked.
     */
    method DecryptFrame(frame: DecryptRequest, now: int, conn: Connection<WorkerReply>)
      returns (reply: DecryptReply, ghost chosen: WrapperInstance?)
      requires Wired() && manager.Valid()
      modifies manager.instances.Values
      ensures Answers(frame, conn, reply, chosen)
      ensures frame.adamId == Keepalive ==> chosen == null && unchanged(manager.instances.Values)
      ensures frame.adamId != Keepalive ==>
        (chosen == null <==> old(dispatcher.ActiveList()) == [])
        && (chosen != null ==> chosen in old(dispatcher.ActiveList()) && chosen.lastUsed == now)
    {
      if frame.adamId == Keepalive {
        return DecryptReply(0, SuccessMsg, Keepalive, frame.key, frame.sampleIndex, []), null;
      }
      var task := DecryptTask(frame.adamId, frame.key, frame.sample, frame.sampleIndex);
      var result;
      result, chosen := dispatcher.Dispatch(task, now, conn);
      reply := DecryptReply(HeaderCode(result.success), ErrorOr(result.error), frame.adamId, frame.key,
                            frame.sampleIndex, result.data);
    }

    /** The `Decrypt` stream: one reply per frame, in order, each answering its frame. */
    method DecryptStream(frames: seq<DecryptRequest>, now: int, conns: seq<Connection<WorkerReply>>)
      returns (replies: seq<DecryptReply>, ghost chosen: seq<WrapperInstance?>)
      requires Wired() && manager.Valid() && |conns| == |frames|
      modifies manager.instances.Values
      ensures |replies| == |frames| && |chosen| == |frames|
      ensures forall i :: 0 <= i < |frames| ==> Answers(frames[i], conns[i], replies[i], chosen[i])
    {
      replies, chosen := [], [];
      var i := 0;
      while i < |frames|
        invariant 0 <= i <= |frames| && |replies| == i && |chosen| == i
        invariant manager.Valid()
        invariant forall k :: 0 <= k < i ==> Answers(frames[k], conns[k], replies[k], chosen[k])
      {
        var reply, c := DecryptFrame(frames[i], now, conns[i]);
        replies, chosen := replies + [reply], chosen + [c];
        i := i + 1;
      }
    }

    /**
     * `M3U8`: asks the first active instance's proxy, whose decorated `get_m3u8` runs attempt i
     * on `conns[i - 1]`. An exception it raises after its retries is answered by the handler's
     * `except`: code -1, the exception's text, and no data.
     */
    method M3u8(adamId: string, conns: seq<Connection<LineReply>>) returns (reply: M3u8ServiceReply)
      requires manager.Valid() && |conns| == 3
      ensures Actives(manager.ListInstances()) == [] ==>
        reply == M3u8ServiceReply(-1, NoActiveInstance, "", "")
      ensures reply.code == 0 ==>
        reply.msg == SuccessMsg && reply.adamId == adamId && StartsWith(reply.m3u8, "http")
        && exists k :: 0 <= k < 3 && ServesUrl(adamId, conns[k]) && reply.m3u8 == Strip(conns[k].replies[0].text)
      ensures reply.code != 0 ==> reply.code == -1 && reply.m3u8 == ""
      ensures var a := Actives(manager.ListInstances());
        a != [] ==>
          (a[0].proxy == null ==> reply == M3u8ServiceReply(-1, InvalidInstance, "", ""))
          && (a[0].proxy != null && !a[0].proxy.IsActive() ==> reply == M3u8ServiceReply(-1, NotActive, adamId, ""))
          && (a[0].proxy != null && a[0].proxy.IsActive() && conns[0].Refused? ==>
                reply == M3u8ServiceReply(-1, ConnectionRefused, adamId, ""))
          && (a[0].proxy != null && a[0].proxy.IsActive()
              && DropsRetried(adamId, conns[0]) && DropsRetried(adamId, conns[1]) && DropsRetried(adamId, conns[2]) ==>
                reply == M3u8ServiceReply(-1, conns[2].replies[0].reason, "", ""))
          && (a[0].proxy != null && a[0].proxy.IsActive() && conns[0].Accepts? && |Utf8(adamId)| < 256
              && |conns[0].replies| > 0 && conns[0].replies[0].LineDrops? && !conns[0].replies[0].connectionError ==>
                reply == M3u8ServiceReply(-1, conns[0].replies[0].reason, "", ""))
      ensures reply.code == 0 <==>
        var a := Actives(manager.ListInstances());
        a != [] && a[0].proxy != null && a[0].proxy.IsActive() && ServedWithin(adamId, conns)
    {
      var active := Actives(manager.ListInstances());
      if active == [] {
        return M3u8ServiceReply(-1, NoActiveInstance, "", "");
      }
      var inst := active[0];
      if inst.proxy == null {
        return M3u8ServiceReply(-1, InvalidInstance, "", "");
      }
      var run := inst.proxy.GetM3u8Retrying(adamId, conns);
      M3u8RetryOk(inst.proxy.IsActive(), adamId, conns);
      if inst.proxy.IsActive() && DropsRetried(adamId, conns[0]) && DropsRetried(adamId, conns[1])
         && DropsRetried(adamId, conns[2]) {
        M3u8ThreeDropsRaise(true, adamId, conns);
      }
      if inst.proxy.IsActive() && conns[0].Accepts? && |Utf8(adamId)| < 256 && |conns[0].replies| > 0
         && conns[0].replies[0].LineDrops? && !conns[0].replies[0].connectionError {
        M3u8OtherDropRaises(true, adamId, conns);
      }
      if !inst.proxy.IsActive() || conns[0].Refused? {
        M3u8FirstReturns(inst.proxy.IsActive(), adamId, conns);
      }
      if run.result.Raise? {
        reply := M3u8ServiceReply(-1, run.result.error, "", "");
      } else {
        var r := run.result.value;
        reply := M3u8ServiceReply(HeaderCode(r.ok), ErrorOr(r.error), adamId, r.url);
      }
    }

    /**
     * `Lyrics`: picks an active instance by region, then `LyricsOutcome` decides the reply from
     * the account tokens `info` and the HTTP outcome `fetch`.
     */
    method Lyrics(region: string, info: Option<AccountInfo>, fetch: LyricsFetch)
      returns (reply: LyricsReply, chosen: Option<nat>)
      requires manager.Valid()
      ensures var a := Actives(manager.ListInstances());
        (a == [] ==> reply == LyricsReply(-1, NoActiveInstance, "") && chosen == None)
        && (a != [] ==> chosen == Some(LyricsInstance(a, region)) && reply == LyricsOutcome(info, fetch))
    {
      var active := Actives(manager.ListInstances());
      if active == [] {
        return LyricsReply(-1, NoActiveInstance, ""), None;
      }
      var i := LyricsInstance(active, region);
      chosen := Some(i);
      if active[i].proxy == null {
        return LyricsReply(-1, InvalidInstance, ""), chosen;
      }
      reply := LyricsOutcome(info, fetch);
    }
  }
}
