/**
 * The account command handler: e-mail masking, the six-digit 2FA code check and the table of
 * sessions waiting for a 2FA code (`_pending_2fa`), which `/am_login` fills and `/am_2fa` answers.
 */
module Account {
  import opened Wrappers
  import opened Text
  import Url

  // ---------------------------------------------------------------- _mask_email

  /** `"*" * n`. */
  function Stars(n: nat): (r: string)
    ensures |r| == n && forall k :: 0 <= k < n ==> r[k] == '*'
  {
    if n == 0 then "" else Stars(n - 1) + "*"
  }

  /** The message of the `IndexError` that `local[0]` raises on an empty local part. */
  const StringIndexError := "string index out of range"

  /** Where `email.split("@", 1)` cuts: the first `@`. */
  function At(email: string): nat
  {
    Url.FirstOf(email, {'@'})
  }

  /** The part before the first `@`. */
  function Local(email: string): string
  {
    email[..At(email)]
  }

  /** The part after the first `@`. */
  function Domain(email: string): string
    requires '@' in email
  {
    email[At(email) + 1..]
  }

  /** The masked local part: its first character, then stars, then its last character when it is longer than two. */
  function MaskLocal(local: string): string
    requires |local| > 0
  {
    if |local| <= 2 then [local[0]] + "*"
    else [local[0]] + Stars(|local| - 2) + [local[|local| - 1]]
  }

  /** `_mask_email`. */
  function MaskEmail(email: string): Result<string>
  {
    if '@' !in email then
      if |email| <= 4 then Success(email) else Success(email[..2] + "***" + email[|email| - 2..])
    else
      var local := Local(email);
      if |local| == 0 then Failure(StringIndexError)
      else Success(MaskLocal(local) + "@" + Domain(email))
  }

  lemma AtSplit(email: string)
    requires '@' in email
    ensures At(email) < |email| && email[At(email)] == '@' && '@' !in Local(email)
    ensures email == Local(email) + "@" + Domain(email)
  {
  }

  /** Splitting `m + "@" + d` at its first `@` gives `m` and `d` back when `m` has no `@`. */
  lemma SplitAt(m: string, d: string)
    requires '@' !in m
    ensures var e := m + "@" + d;
            '@' in e && Local(e) == m && Domain(e) == d
  {
    var e := m + "@" + d;
    assert Url.NoneOf(m, {'@'});
    assert e == m + ("@" + d);
    Url.FirstOfAfter(m, "@" + d, {'@'});
    assert ("@" + d)[0] == '@';
    assert e[|m|] == '@';
  }

  lemma MaskLocalShape(local: string)
    requires |local| > 0 && '@' !in local
    ensures var m := MaskLocal(local);
            && '@' !in m
            && |m| == (if |local| <= 2 then 2 else |local|)
            && m[0] == local[0]
            && (|local| > 2 ==> m[|m| - 1] == local[|local| - 1])
            && forall k :: 1 <= k < |m| - (if |local| > 2 then 1 else 0) ==> m[k] == '*'
  {
    var m := MaskLocal(local);
    if |local| > 2 {
      var s := Stars(|local| - 2);
      assert m == [local[0]] + s + [local[|local| - 1]];
      forall k | 1 <= k < |m| - 1
        ensures m[k] == '*'
      {
        assert m[k] == s[k - 1];
      }
      assert '@' !in m by {
        forall k | 0 <= k < |m|
          ensures m[k] != '@'
        {
          if 0 < k < |m| - 1 {
            assert m[k] == s[k - 1];
          }
        }
      }
    }
  }

  /** Without `@`: up to four characters are shown as they are, a longer name as its first two, three stars and its last two. */
  lemma MaskPlain(email: string)
    requires '@' !in email
    ensures MaskEmail(email).Success?
    ensures |email| <= 4 ==> MaskEmail(email).value == email
    ensures |email| > 4 ==> var r := MaskEmail(email).value;
              && |r| == 7 && r[..2] == email[..2] && r[5..] == email[|email| - 2..]
              && forall k :: 2 <= k < 5 ==> r[k] == '*'
  {
  }

  /**
   * With `@`: an empty local part raises; otherwise the result has the same domain, and a local
   * part that keeps the first character, is at least two long, keeps the last character of a
   * local part longer than two and is stars in between.
   */
  lemma MaskAddress(email: string)
    requires '@' in email
    ensures MaskEmail(email).Failure? <==> Local(email) == ""
    ensures MaskEmail(email).Success? ==>
              var r := MaskEmail(email).value;
              var local, m := Local(email), Local(MaskEmail(email).value);
              && '@' in r && Domain(r) == Domain(email)
              && |m| == (if |local| <= 2 then 2 else |local|)
              && m[0] == local[0]
              && (|local| > 2 ==> m[|m| - 1] == local[|local| - 1])
              && (forall k :: 1 <= k < |m| - (if |local| > 2 then 1 else 0) ==> m[k] == '*')
  {
    AtSplit(email);
    var local := Local(email);
    if local != "" {
      MaskLocalShape(local);
      SplitAt(MaskLocal(local), Domain(email));
    }
  }

  /** An address whose local part has at least two characters keeps its length. */
  lemma MaskKeepsLength(email: string)
    requires '@' in email && |Local(email)| >= 2
    ensures MaskEmail(email).Success? && |MaskEmail(email).value| == |email|
  {
    AtSplit(email);
    MaskLocalShape(Local(email));
  }

  /** Masking a masked name changes nothing. */
  lemma MaskIdempotent(email: string)
    requires MaskEmail(email).Success?
    ensures MaskEmail(MaskEmail(email).value) == MaskEmail(email)
  {
    var r := MaskEmail(email).value;
    if '@' !in email {
      if |email| > 4 {
        assert '@' !in r by {
          forall k | 0 <= k < |r|
            ensures r[k] != '@'
          {
            if k < 2 {
              assert r[k] == email[k];
            } else if k >= 5 {
              assert r[k] == email[|email| - 7 + k];
            }
          }
        }
        assert r[..2] + "***" + r[|r| - 2..] == r;
      }
    } else {
      AtSplit(email);
      var local := Local(email);
      var m := MaskLocal(local);
      MaskLocalShape(local);
      SplitAt(m, Domain(email));
      assert Local(r) == m;
      MaskLocalShape(m);
      if |m| <= 2 {
        assert MaskLocal(m) == [m[0]] + "*";
        assert MaskLocal(m) == m;
      } else {
        var n := MaskLocal(m);
        assert |n| == |m|;
        forall k | 0 <= k < |m|
          ensures n[k] == m[k]
        {
        }
        assert n == m;
      }
    }
  }

  // ---------------------------------------------------------------- 2FA codes

  /** A 2FA code as `handle_2fa_code` accepts it: `code.isdigit() and len(code) == 6`. */
  predicate IsTwoFactorCode(code: string)
  {
    IsDigits(code) && |code| == 6
  }

  /** An entry of `_pending_2fa`: the credentials, the code once given, and the waiter's event. */
  datatype Pending = Pending(username: string, password: string, code: Option<string>, hasWaiter: bool, signalled: bool)

  /** The replies of `/am_2fa`. */
  datatype TwoFactorReply = MissingCode | BadFormat | NoSession | Verifying(code: string) | SessionExpired

  /** `handle_2fa_code` on the table: the reply and the new table. */
  function TwoFactor(pending: map<string, Pending>, user: string, code: string): (TwoFactorReply, map<string, Pending>)
  {
    if code == "" then (MissingCode, pending)
    else if !IsTwoFactorCode(code) then (BadFormat, pending)
    else if user !in pending then (NoSession, pending)
    else
      var s := pending[user].(code := Some(code));
      if s.hasWaiter then (Verifying(code), pending[user := s.(signalled := true)])
      else (SessionExpired, pending[user := s])
  }

  /**
   * A code is taken only when it is six digits and the sender has a pending session: then it is
   * stored in that session, the waiter is woken, and every other session is untouched.
   */
  lemma TwoFactorStores(pending: map<string, Pending>, user: string, code: string)
    ensures var (reply, after) := TwoFactor(pending, user, code);
            && (after != pending ==> IsTwoFactorCode(code) && user in pending)
            && (IsTwoFactorCode(code) && user in pending <==> reply.Verifying? || reply.SessionExpired?)
            && (reply.Verifying? ==> reply.code == code)
            && after.Keys == pending.Keys
            && (user in after ==> after[user].username == pending[user].username && after[user].password == pending[user].password)
            && (IsTwoFactorCode(code) && user in pending ==> after[user].code == Some(code) && (pending[user].hasWaiter ==> after[user].signalled))
            && (forall u :: u in pending && u != user ==> after[u] == pending[u])
  {
  }

  /** A code that is not six digits is refused whatever the table holds. */
  lemma BadCodesRefused(pending: map<string, Pending>, user: string, code: string)
    requires !IsTwoFactorCode(code)
    ensures TwoFactor(pending, user, code).1 == pending
    ensures TwoFactor(pending, user, code).0 == (if code == "" then MissingCode else BadFormat)
  {
  }

  // ---------------------------------------------------------------- /am_login routing

  /** What `handle_login` does with its arguments before calling the manager. */
  datatype LoginRoute = NotConnected | NoManager | AsTwoFactor(code: string) | Usage | NeedPassword | Attempt(username: string, password: string)

  /** The checks of `handle_login` in source order; `pending` says the sender has a pending 2FA session. */
  function RouteLogin(connected: bool, hasManager: bool, pending: bool, username: string, password: string): LoginRoute
  {
    if !connected then NotConnected
    else if !hasManager then NoManager
    else if pending && username != "" && password == "" && IsTwoFactorCode(username) then AsTwoFactor(username)
    else if username == "" then Usage
    else if password == "" then NeedPassword
    else Attempt(username, password)
  }

  /**
   * A lone argument is taken as a 2FA code exactly when the service is up, the sender has a
   * pending session and the argument is six digits; a manager login needs both arguments.
   */
  lemma RouteLoginSpec(connected: bool, hasManager: bool, pending: bool, username: string, password: string)
    ensures RouteLogin(connected, hasManager, pending, username, password).AsTwoFactor? <==>
              connected && hasManager && pending && password == "" && IsTwoFactorCode(username)
    ensures RouteLogin(connected, hasManager, pending, username, password).Attempt? <==>
              connected && hasManager && username != "" && password != ""
    ensures RouteLogin(connected, hasManager, pending, username, password) == NeedPassword <==>
              connected && hasManager && username != "" && password == "" && !(pending && IsTwoFactorCode(username))
  {
  }

  /** How a failed manager login is reported: by the first phrase found in the lower-cased error. */
  datatype LoginFailure = AlreadyLoggedIn | BadCredentials | NoSubscription | OtherFailure(message: string)

  function ClassifyLoginError(message: string): LoginFailure
  {
    var m := Lower(message);
    if Contains(m, "already login") then AlreadyLoggedIn
    else if Contains(m, "login failed") then BadCredentials
    else if Contains(m, "no active subscription") then NoSubscription
    else OtherFailure(message)
  }

  /** The raw message is shown only when none of the three phrases occurs, in any letter case. */
  lemma ClassifySpec(message: string)
    ensures ClassifyLoginError(message).OtherFailure? <==>
              !Contains(Lower(message), "already login") && !Contains(Lower(message), "login failed")
              && !Contains(Lower(message), "no active subscription")
    ensures ClassifyLoginError(message).OtherFailure? ==> ClassifyLoginError(message).message == message
    ensures Contains(Lower(message), "already login") ==> ClassifyLoginError(message) == AlreadyLoggedIn
  {
  }

  // ---------------------------------------------------------------- the handler's table

  const NoCode := "未收到验证码"
  const CodeTimeout := "验证码输入超时"
  const MissingSession := "KeyError"

  /** `AccountHandler`: the sessions waiting for a 2FA code, by sender. */
  class AccountHandler {
    var pending: map<string, Pending>

    constructor()
      ensures pending == map[]
    {
      pending := map[];
    }

    /** `handle_2fa_code`. */
    method HandleTwoFactorCode(user: string, code: string) returns (reply: TwoFactorReply)
      modifies this
      ensures (reply, pending) == TwoFactor(old(pending), user, code)
    {
      if code == "" {
        return MissingCode;
      }
      if !IsTwoFactorCode(code) {
        return BadFormat;
      }
      if user !in pending {
        return NoSession;
      }
      var session := pending[user].(code := Some(code));
      if session.hasWaiter {
        session := session.(signalled := true);
        reply := Verifying(code);
      } else {
        reply := SessionExpired;
      }
      pending := pending[user := session];
    }

    /**
     * The first half of the `on_2fa` callback: the sender's entry is replaced by one holding the
     * credentials, a waiter and no code.
     */
    method BeginTwoFactor(user: string, username: string, password: string)
      modifies this
      ensures pending == old(pending)[user := Pending(username, password, None, true, false)]
    {
      pending := pending[user := Pending(username, password, None, false, false)];
      pending := pending[user := pending[user].(hasWaiter := true)];
    }

    /**
     * The second half of `on_2fa`, once the wait ends (`timedOut` when the 300 s passed): the
     * stored code if there is a non-empty one, an error otherwise; the entry is removed either way.
     */
    method FinishTwoFactor(user: string, timedOut: bool) returns (r: Result<string>)
      modifies this
      ensures pending == old(pending) - {user}
      ensures r.Success? <==> !timedOut && user in old(pending) && old(pending)[user].code.Some? && old(pending)[user].code.value != ""
      ensures r.Success? ==> r.value == old(pending)[user].code.value
      ensures r.Failure? ==> r.error == (if timedOut then CodeTimeout else if user !in old(pending) then MissingSession else NoCode)
    {
      if timedOut {
        r := Failure(CodeTimeout);
      } else if user !in pending {
        r := Failure(MissingSession);
      } else {
        var code := pending[user].code;
        if code.Some? && code.value != "" {
          r := Success(code.value);
        } else {
          r := Failure(NoCode);
        }
      }
      pending := pending - {user};
    }

    /**
     * `handle_login` up to the manager call: a lone six-digit argument of a sender with a pending
     * session is answered as `/am_2fa` would answer it; every other route leaves the table alone.
     */
    method HandleLogin(user: string, connected: bool, hasManager: bool, username: string, password: string)
      returns (route: LoginRoute, reply: Option<TwoFactorReply>)
      modifies this
      ensures route == RouteLogin(connected, hasManager, user in old(pending), username, password)
      ensures route.AsTwoFactor? ==> reply.Some? && (reply.value, pending) == TwoFactor(old(pending), user, username)
      ensures !route.AsTwoFactor? ==> reply.None? && pending == old(pending)
    {
      route := RouteLogin(connected, hasManager, user in pending, username, password);
      if route.AsTwoFactor? {
        var answer := HandleTwoFactorCode(user, username);
        reply := Some(answer);
      } else {
        reply := None;
      }
    }
  }

  /** A code given through `/am_login` while a session waits is stored and wakes the waiter. */
  lemma LoginCodeWakesWaiter(pending: map<string, Pending>, user: string, code: string)
    requires user in pending && pending[user].hasWaiter && IsTwoFactorCode(code)
    ensures RouteLogin(true, true, user in pending, code, "") == AsTwoFactor(code)
    ensures var (reply, after) := TwoFactor(pending, user, code);
            reply == Verifying(code) && after[user].code == Some(code) && after[user].signalled
  {
  }
}
