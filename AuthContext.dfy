// The authentication provider: the signed-in user and the loading flag as a
// small state machine driven by session checks, login, registration and
// logout, and the presence flag it writes on the way.

module AuthContext {
  import opened Docs
  import AppwriteService

  /** A call the provider issued to the backend, in the order issued,
      whether or not it then succeeded. */
  datatype Request =
    | SetPresence(userDocId: Id, online: bool)
    | CreateSession(email: string)
    | DeleteSession
    | CreateAccount(email: string, name: string)
    | CreateUserDocument(fields: UserFields)

  /** The presence an application state change would write: online when the
      app becomes active, offline when it goes to the background or becomes
      inactive, and no write for any other state. */
  function PresenceFor(appState: string): (r: Option<bool>)
    ensures r == Some(true) <==> appState == "active"
    ensures r == Some(false) <==> appState == "background" || appState == "inactive"
    ensures r.None? <==> appState != "active" && appState != "background" && appState != "inactive"
  {
    if appState == "active" then Some(true)
    else if appState == "background" || appState == "inactive" then Some(false)
    else None
  }

  /** `checkUserStatus` got past every awaited call with a session. */
  predicate SessionResolved(session: Reply<bool>, account: Reply<Account>, listed: Reply<seq<UserDoc>>)
  {
    session.Ok? && session.value && account.Ok? && listed.Ok?
  }

  /** The presence write of `checkUserStatus`: online, for the user document
      that becomes the user, and only when one was found. */
  function StatusRequests(session: Reply<bool>, account: Reply<Account>, listed: Reply<seq<UserDoc>>): (rs: seq<Request>)
    ensures |rs| <= 1
    ensures rs != [] <==> SessionResolved(session, account, listed) && listed.value != []
    ensures rs != [] ==>
              rs[0] == SetPresence(AppwriteService.CurrentUserOf(account.value, listed.value).DocId(), true)
  {
    if SessionResolved(session, account, listed) && |listed.value| > 0
    then [SetPresence(listed.value[0].id, true)]
    else []
  }

  class AuthProvider {
    var user: Option<Principal>
    var loading: bool
    /** The user the installed `[user]` effect captured; its cleanup marks
        that user offline. */
    var effectUser: Option<Principal>
    var requests: seq<Request>

    constructor ()
      ensures user.None? && loading && effectUser.None? && requests == []
    {
      user := None;
      loading := true;
      effectUser := None;
      requests := [];
    }

    /** `updateUserStatus`: a failure of the write is logged and swallowed. */
    method UpdateUserStatus(userDocId: Id, online: bool)
      modifies this`requests
      ensures requests == old(requests) + [SetPresence(userDocId, online)]
    {
      requests := requests + [SetPresence(userDocId, online)];
    }

    /** `checkUserStatus`: with a session, the user becomes the first user
        document found (whose presence is then set online) or else the
        account details; every error is swallowed, and loading ends on every
        path. */
    method CheckUserStatus(session: Reply<bool>, account: Reply<Account>, listed: Reply<seq<UserDoc>>)
      modifies this`user, this`loading, this`requests
      ensures !loading
      ensures SessionResolved(session, account, listed) ==>
                user == Some(AppwriteService.CurrentUserOf(account.value, listed.value))
      ensures !SessionResolved(session, account, listed) ==> user == old(user)
      ensures requests == old(requests) + StatusRequests(session, account, listed)
    {
      if session.Ok? && session.value && account.Ok? && listed.Ok? {
        user := Some(AppwriteService.CurrentUserOf(account.value, listed.value));
        if |listed.value| > 0 {
          UpdateUserStatus(listed.value[0].id, true);
        }
      }
      loading := false;
    }

    /** `login`: create a session, then check the user status. Since the
        status check swallows its own errors, login succeeds exactly when the
        session is created. */
    method Login(email: string, created: Reply<()>,
                 session: Reply<bool>, account: Reply<Account>, listed: Reply<seq<UserDoc>>)
      returns (ok: bool)
      modifies this`user, this`loading, this`requests
      ensures ok <==> created.Ok?
      ensures !ok ==> user == old(user) && loading == old(loading) && requests == old(requests) + [CreateSession(email)]
      ensures ok ==> requests == old(requests) + [CreateSession(email)] + StatusRequests(session, account, listed)
      ensures ok ==> !loading
      ensures ok && SessionResolved(session, account, listed) ==>
                user == Some(AppwriteService.CurrentUserOf(account.value, listed.value))
      ensures ok && !SessionResolved(session, account, listed) ==> user == old(user)
    {
      requests := requests + [CreateSession(email)];
      if created.Threw? {
        return false;
      }
      CheckUserStatus(session, account, listed);
      ok := true;
    }

    /** `register`: create the account, then its user document (keyed by the
        new account's id and marked online), then log in. The outcome of the
        login is not consulted. */
    method Register(email: string, name: string, now: Time,
                    account: Reply<Account>, created: Reply<Id>,
                    sessionCreated: Reply<()>, session: Reply<bool>, accountAgain: Reply<Account>,
                    listed: Reply<seq<UserDoc>>)
      returns (ok: bool)
      modifies this`user, this`loading, this`requests
      ensures ok <==> account.Ok? && created.Ok?
      ensures account.Threw? ==> requests == old(requests) + [CreateAccount(email, name)]
      ensures account.Ok? ==>
                var document := CreateUserDocument(AppwriteService.NewUserFields(account.value.id, name, email, now));
                && (created.Threw? ==> requests == old(requests) + [CreateAccount(email, name), document])
                && (created.Ok? ==> requests == old(requests) + [CreateAccount(email, name), document, CreateSession(email)]
                                                + (if sessionCreated.Ok? then StatusRequests(session, accountAgain, listed) else []))
      ensures !ok ==> user == old(user) && loading == old(loading)
      ensures ok && sessionCreated.Threw? ==> user == old(user) && loading == old(loading)
      ensures ok && sessionCreated.Ok? ==> !loading
      ensures ok && sessionCreated.Ok? && SessionResolved(session, accountAgain, listed) ==>
                user == Some(AppwriteService.CurrentUserOf(accountAgain.value, listed.value))
      ensures ok && sessionCreated.Ok? && !SessionResolved(session, accountAgain, listed) ==> user == old(user)
    {
      requests := requests + [CreateAccount(email, name)];
      if account.Threw? {
        return false;
      }
      requests := requests + [CreateUserDocument(AppwriteService.NewUserFields(account.value.id, name, email, now))];
      if created.Threw? {
        return false;
      }
      var _ := Login(email, sessionCreated, session, accountAgain, listed);
      ok := true;
    }

    /** `logout`: mark the user offline (a failure there is swallowed), then
        delete the session, and only then forget the user. When deleting the
        session throws, the user is kept. */
    method Logout(deleted: Reply<()>) returns (ok: bool)
      modifies this`user, this`requests
      ensures ok <==> deleted.Ok?
      ensures requests == old(requests)
                          + (if old(user).Some? then [SetPresence(old(user).value.DocId(), false)] else [])
                          + [DeleteSession]
      ensures user == (if ok then None else old(user))
    {
      if user.Some? {
        UpdateUserStatus(user.value.DocId(), false);
      }
      requests := requests + [DeleteSession];
      if deleted.Threw? {
        return false;
      }
      user := None;
      ok := true;
    }

    /** The effect on `[user]`, run after the user changed: first the cleanup
        of the previous run (the user it captured goes offline), then, with a
        user, mark that user online and capture it. */
    method RunUserEffect()
      modifies this`effectUser, this`requests
      ensures effectUser == user
      ensures requests == old(requests)
                          + (if old(effectUser).Some? then [SetPresence(old(effectUser).value.DocId(), false)] else [])
                          + (if user.Some? then [SetPresence(user.value.DocId(), true)] else [])
    {
      if effectUser.Some? {
        UpdateUserStatus(effectUser.value.DocId(), false);
      }
      if user.Some? {
        UpdateUserStatus(user.value.DocId(), true);
      }
      effectUser := user;
    }

    /** Unmounting the provider runs the last cleanup. */
    method Unmount()
      modifies this`effectUser, this`requests
      ensures effectUser.None?
      ensures requests == old(requests)
                          + (if old(effectUser).Some? then [SetPresence(old(effectUser).value.DocId(), false)] else [])
    {
      if effectUser.Some? {
        UpdateUserStatus(effectUser.value.DocId(), false);
      }
      effectUser := None;
    }
  }

  /** One session from login to logout, with the `[user]` effect running after
      each change of user: the presence is set online twice (by the status
      check and by the effect) and offline twice (by logout, before the
      session is deleted, and by the effect's cleanup). */
  method SessionScenario(email: string, u: UserDoc, a: Account) returns (trace: seq<Request>, signedIn: Option<Principal>)
    ensures trace == [CreateSession(email), SetPresence(u.id, true), SetPresence(u.id, true),
                      SetPresence(u.id, false), DeleteSession, SetPresence(u.id, false)]
    ensures signedIn.None?
  {
    var auth := new AuthProvider();
    var ok := auth.Login(email, Ok(()), Ok(true), Ok(a), Ok([u]));
    auth.RunUserEffect();
    ok := auth.Logout(Ok(()));
    auth.RunUserEffect();
    trace := auth.requests;
    signedIn := auth.user;
  }
}
