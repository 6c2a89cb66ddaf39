/**
 * The login handler: login sessions keyed by session id, one current session per username, and
 * the outcomes of the two login steps (password, then an optional two-factor code), both of which
 * register the account with the instance manager.
 */
module LoginHandler {
  import opened Wrappers
  import opened Text
  import opened WrapperProxy
  import opened InstanceManager

  datatype LoginState = PendingPassword | Pending2FA | Completed | LoginFailed

  /** The enum's `.value`. */
  function StateValue(s: LoginState): string
  {
    match s
    case PendingPassword => "pending_password"
    case Pending2FA => "pending_2fa"
    case Completed => "completed"
    case LoginFailed => "failed"
  }

  const AwaitingCode := "等待输入双因素验证码"
  const LoginSubmitted := "登录请求已提交"
  const NoSession := "未找到登录会话"
  const InvalidSession := "登录会话无效"
  const CodeSubmitted := "双因素验证码已提交"
  const DefaultRegion := "us"
  /** Seconds a completed session stays registered before it is dropped. */
  const CompletedGraceSeconds := 60

  function AlreadyLoggedIn(username: string): string
  {
    "账户 " + username + " 已登录"
  }

  function WrongState(s: LoginState): string
  {
    "登录状态错误: " + StateValue(s)
  }

  /** A failed add whose message mentions a second factor asks for the code instead of failing. */
  predicate NeedsSecondFactor(msg: string)
  {
    Contains(msg, "2FA") || Contains(msg, "双因素") || Contains(msg, "验证码")
  }

  class LoginSession {
    const sessionId: string
    const username: string
    const password: string
    const createdAt: int
    var state: LoginState
    var error: Option<string>
    var twoFactorCode: Option<string>

    constructor (sessionId: string, username: string, password: string, createdAt: int)
      ensures this.sessionId == sessionId && this.username == username && this.password == password
      ensures this.createdAt == createdAt
      ensures state == PendingPassword && error == None && twoFactorCode == None
    {
      this.sessionId := sessionId;
      this.username := username;
      this.password := password;
      this.createdAt := createdAt;
      state := PendingPassword;
      error := None;
      twoFactorCode := None;
    }

    /**
     * The password step's result: success completes the session, a failure mentioning a second
     * factor waits for a code, any other failure fails the session with the message.
     */
    method RecordPasswordStep(added: bool, msg: string)
      modifies this
      ensures twoFactorCode == old(twoFactorCode)
      ensures state == Completed <==> added
      ensures !added ==> (state == Pending2FA <==> NeedsSecondFactor(msg))
      ensures added || state == Pending2FA ==> error == old(error)
      ensures !added && state != Pending2FA ==> state == LoginFailed && error == Some(msg)
    {
      if added {
        state := Completed;
      } else if NeedsSecondFactor(msg) {
        state := Pending2FA;
      } else {
        state := LoginFailed;
        error := Some(msg);
      }
    }

    /** The code step's result: success completes the session, failure fails it with the message. */
    method RecordCodeStep(added: bool, msg: string)
      modifies this
      ensures twoFactorCode == old(twoFactorCode)
      ensures added ==> state == Completed && error == old(error)
      ensures !added ==> state == LoginFailed && error == Some(msg)
    {
      if added {
        state := Completed;
      } else {
        state := LoginFailed;
        error := Some(msg);
      }
    }
  }

  class LoginHandler {
    const manager: InstanceManager
    var sessions: map<string, LoginSession>
    var usernameToSession: map<string, string>

    /** Every session is stored under its own id. */
    ghost predicate Valid()
      reads this, sessions.Values
    {
      forall sid :: sid in sessions ==> sessions[sid].sessionId == sid
    }

    constructor (manager: InstanceManager)
      ensures this.manager == manager && sessions == map[] && usernameToSession == map[] && Valid()
    {
      this.manager := manager;
      sessions := map[];
      usernameToSession := map[];
    }

    /** The session a username is mapped to, if it is still registered. */
    function CurrentSession(username: string): (s: LoginSession?)
      reads this
      ensures s != null ==> username in usernameToSession && usernameToSession[username] in sessions
                            && s == sessions[usernameToSession[username]]
    {
      if username in usernameToSession && usernameToSession[username] in sessions
      then sessions[usernameToSession[username]] else null
    }

    /**
     * `start_login`: refused when the account is already registered, or when the username's
     * current session waits for a code; otherwise a PENDING_PASSWORD session under `freshId`
     * (the uuid4 the source draws) becomes the username's current session.
     */
    method StartLogin(username: string, password: string, freshId: string, now: int)
      returns (ok: bool, msg: string, sessionId: Option<string>)
      requires Valid() && manager.Valid()
      modifies this
      ensures Valid()
      ensures manager.GetInstanceByUsername(username) != null ==>
        !ok && msg == AlreadyLoggedIn(username) && sessionId == None
      ensures manager.GetInstanceByUsername(username) == null && old(CurrentSession(username)) != null
              && old(CurrentSession(username).state) == Pending2FA ==>
        !ok && msg == AwaitingCode && sessionId == Some(old(usernameToSession[username]))
      ensures !ok ==> sessions == old(sessions) && usernameToSession == old(usernameToSession)
      ensures ok <==> manager.GetInstanceByUsername(username) == null
                      && (old(CurrentSession(username)) == null || old(CurrentSession(username).state) != Pending2FA)
      ensures ok ==>
        msg == LoginSubmitted && sessionId == Some(freshId) && freshId in sessions
        && fresh(sessions[freshId]) && sessions[freshId].username == username
        && sessions[freshId].password == password && sessions[freshId].createdAt == now
        && sessions[freshId].state == PendingPassword
        && sessions.Keys == old(sessions.Keys) + {freshId}
        && (forall sid | sid in old(sessions) && sid != freshId :: sessions[sid] == old(sessions[sid]))
        && usernameToSession == old(usernameToSession)[username := freshId]
    {
      var existing := manager.GetInstanceByUsername(username);
      if existing != null {
        return false, AlreadyLoggedIn(username), None;
      }
      if username in usernameToSession {
        var current := usernameToSession[username];
        if current in sessions && sessions[current].state == Pending2FA {
          return false, AwaitingCode, Some(current);
        }
      }
      var session := new LoginSession(freshId, username, password, now);
      sessions := sessions[freshId := session];
      usernameToSession := usernameToSession[username := freshId];
      return true, LoginSubmitted, Some(freshId);
    }

    /**
     * `provide_2fa_code`: stores the code on the username's session, which must exist and be
     * waiting for one.
     */
    method Provide2FACode(username: string, code: string) returns (ok: bool, msg: string)
      modifies sessions.Values
      ensures username !in usernameToSession || usernameToSession[username] == "" ==> !ok && msg == NoSession
      ensures (username in usernameToSession && usernameToSession[username] != ""
               && usernameToSession[username] !in sessions) ==> !ok && msg == InvalidSession
      ensures ok <==> CurrentSession(username) != null && usernameToSession[username] != ""
                      && old(CurrentSession(username).state) == Pending2FA
      ensures ok ==> msg == CodeSubmitted && CurrentSession(username).twoFactorCode == Some(code)
      ensures CurrentSession(username) != null && usernameToSession[username] != ""
              && old(CurrentSession(username).state) != Pending2FA ==>
        msg == WrongState(old(CurrentSession(username).state))
      ensures forall s | s in sessions.Values ::
        s.state == old(s.state) && s.error == old(s.error)
        && (s != CurrentSession(username) || !ok ==> s.twoFactorCode == old(s.twoFactorCode))
    {
      if username !in usernameToSession || usernameToSession[username] == "" {
        return false, NoSession;
      }
      var sid := usernameToSession[username];
      if sid !in sessions {
        return false, InvalidSession;
      }
      var session := sessions[sid];
      if session.state != Pending2FA {
        return false, WrongState(session.state);
      }
      session.twoFactorCode := Some(code);
      return true, CodeSubmitted;
    }

    /** `get_session_status`. */
    function GetSessionStatus(sessionId: string): (s: LoginSession?)
      reads this
      ensures s == null <==> sessionId !in sessions
      ensures s != null ==> s == sessions[sessionId]
    {
      if sessionId in sessions then sessions[sessionId] else null
    }

    /**
     * `_perform_login`: registers the session's account with the manager (region "us");
     * `startError` is what starting its proxy raises. Success completes the session, a failure
     * that mentions a second factor waits for a code, any other failure fails it with the
     * manager's message. The source's exception branch is not reachable, because the manager
     * returns every failure as a tuple.
     */
    method PerformLogin(sessionId: string, now: int, startError: Option<string>) returns (added: bool, msg: string)
      requires Valid() && manager.Valid()
      modifies manager, sessions.Values
      ensures manager.Valid()
      ensures sessionId !in sessions ==> !added && unchanged(manager) && unchanged(sessions.Values)
      ensures sessionId in sessions ==>
        var s := sessions[sessionId];
        s.twoFactorCode == old(s.twoFactorCode)
        && AddMessage(added, msg, s.username, CreateInstanceId(s.username) in old(manager.instances), startError)
        && (added ==> s.state == Completed && s.error == old(s.error)
                      && manager.GetInstanceByUsername(s.username) != null)
        && (!added ==> manager.instances == old(manager.instances)
                       && (s.state == Pending2FA <==> NeedsSecondFactor(msg))
                       && (s.state == Pending2FA ==> s.error == old(s.error))
                       && (s.state != Pending2FA ==> s.state == LoginFailed && s.error == Some(msg)))
      ensures forall x | x in sessions.Values && x.sessionId != sessionId :: unchanged(x)
    {
      if sessionId !in sessions {
        return false, "";
      }
      var session := sessions[sessionId];
      var inst;
      added, msg, inst := manager.AddInstance(session.username, session.password, DefaultRegion, now, startError);
      if added {
        RegisteredIsFound(session.username);
      }
      session.RecordPasswordStep(added, msg);
    }

    /**
     * `_continue_login_with_2fa`: does nothing unless the session exists and holds a non-empty
     * code; otherwise registers the account as the first step does, completing the session on
     * success and failing it with the manager's message otherwise.
     */
    method ContinueLoginWith2FA(sessionId: string, now: int, startError: Option<string>)
      returns (attempted: bool, added: bool, msg: string)
      requires Valid() && manager.Valid()
      modifies manager, sessions.Values
      ensures manager.Valid()
      ensures attempted <==> sessionId in sessions && sessions[sessionId].twoFactorCode.Some?
                             && sessions[sessionId].twoFactorCode.value != ""
      ensures !attempted ==> !added && unchanged(manager) && unchanged(sessions.Values)
      ensures attempted ==>
        var s := sessions[sessionId];
        s.twoFactorCode == old(s.twoFactorCode)
        && AddMessage(added, msg, s.username, CreateInstanceId(s.username) in old(manager.instances), startError)
        && (added ==> s.state == Completed && s.error == old(s.error)
                      && manager.GetInstanceByUsername(s.username) != null)
        && (!added ==> manager.instances == old(manager.instances) && s.state == LoginFailed && s.error == Some(msg))
      ensures forall x | x in sessions.Values && x.sessionId != sessionId :: unchanged(x)
    {
      if sessionId !in sessions {
        return false, false, "";
      }
      var session := sessions[sessionId];
      if session.twoFactorCode.None? || session.twoFactorCode.value == "" {
        return false, false, "";
      }
      attempted := true;
      var inst;
      added, msg, inst := manager.AddInstance(session.username, session.password, DefaultRegion, now, startError);
      if added {
        RegisteredIsFound(session.username);
      }
      session.RecordCodeStep(added, msg);
    }

    /** After an add, the username resolves to the new instance. */
    lemma RegisteredIsFound(username: string)
      requires manager.Valid() && username in manager.usernameToId
      requires manager.usernameToId[username] == CreateInstanceId(username)
      ensures manager.GetInstanceByUsername(username) != null
    {
      assert CreateInstanceId(username)[0] == '7';
    }

    /**
     * The delayed clean-up after a completed login: the session and the username's mapping
     * (whichever session it names by then) are dropped.
     */
    method ReleaseCompleted(sessionId: string, username: string)
      requires Valid()
      modifies this
      ensures Valid()
      ensures sessions == old(sessions) - {sessionId}
      ensures usernameToSession == old(usernameToSession) - {username}
    {
      sessions := sessions - {sessionId};
      usernameToSession := usernameToSession - {username};
    }

    /** The sessions older than `maxAgeSeconds` at clock reading `now`. */
    function Expired(now: int, maxAgeSeconds: int): (e: set<string>)
      reads this, sessions.Values
      ensures forall sid :: sid in e <==> sid in sessions && now - sessions[sid].createdAt > maxAgeSeconds
    {
      set sid | sid in sessions && now - sessions[sid].createdAt > maxAgeSeconds
    }

    /**
     * `cleanup_expired_sessions`: collects every session older than `maxAgeSeconds`, whatever its
     * state, then drops each of them and its username's mapping.
     */
    method CleanupExpiredSessions(now: int, maxAgeSeconds: int) returns (removed: set<string>)
      requires Valid()
      modifies this
      ensures Valid()
      ensures removed == old(Expired(now, maxAgeSeconds))
      ensures sessions == old(sessions) - removed
      ensures usernameToSession == old(usernameToSession) - UsernamesOf(old(sessions), removed)
    {
      var toRemove: set<string> := {};
      var pending := sessions.Keys;
      while pending != {}
        invariant pending <= sessions.Keys
        invariant toRemove == (set sid | sid in sessions.Keys - pending && now - sessions[sid].createdAt > maxAgeSeconds)
        decreases pending
      {
        var sid :| sid in pending;
        if now - sessions[sid].createdAt > maxAgeSeconds {
          toRemove := toRemove + {sid};
        }
        pending := pending - {sid};
      }
      removed := toRemove;
      ghost var all := sessions;
      ghost var done: set<string> := {};
      while toRemove != {}
        invariant toRemove <= removed && done == removed - toRemove
        invariant sessions == all - done
        invariant usernameToSession == old(usernameToSession) - UsernamesOf(all, done)
        invariant forall sid :: sid in sessions ==> sessions[sid].sessionId == sid
        decreases toRemove
      {
        var sid :| sid in toRemove;
        var username := sessions[sid].username;
        sessions := sessions - {sid};
        usernameToSession := usernameToSession - {username};
        UsernamesOfAdd(all, done, sid);
        done := done + {sid};
        toRemove := toRemove - {sid};
      }
    }
  }

  /** The usernames of the sessions `ids` names in `m`. */
  function UsernamesOf(m: map<string, LoginSession>, ids: set<string>): set<string>
    reads m.Values
  {
    set sid | sid in ids && sid in m :: m[sid].username
  }

  lemma UsernamesOfAdd(m: map<string, LoginSession>, ids: set<string>, sid: string)
    requires sid in m
    ensures UsernamesOf(m, ids + {sid}) == UsernamesOf(m, ids) + {m[sid].username}
  {
  }

  /** The manager's reply to `add_instance`, as `_perform_login` sees it. */
  predicate AddMessage(added: bool, msg: string, username: string, registered: bool, startError: Option<string>)
  {
    (registered ==> !added && msg == "账户 " + username + " 已存在")
    && (!registered && startError.Some? ==> !added && msg == "添加账户失败: " + startError.value)
    && (added <==> !registered && startError.None?)
  }
}
