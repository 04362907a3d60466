/** The credential store as one state machine shared by the components: login
    writes both tokens, the guard reads them and overwrites both on a
    successful refresh, and logout and the Sign Up button empty the store. */
module Session {
  import opened Browser
  import opened ProtectedRoutes
  import Login
  import Dashboard
  import Signup

  /** A login whose access token is current is admitted by the next
      activation of the guard, without a refresh request. */
  lemma LoginThenGuardAdmits(storage: map<string, string>, access: string, refresh: Option<string>,
                             decode: string -> DecodeResult, now: int, reply: RefreshReply)
    requires access != "" && decode(access).Payload? && !Expired(decode(access).exp, now)
    ensures var after := Login.StorageAfterLogin(storage, Login.Tokens(Some(access), refresh));
            && Lookup(after, ACCESS_TOKEN) == Some(access)
            && !RefreshAttempted(Lookup(after, ACCESS_TOKEN), decode, now)
            && Verdict(Lookup(after, ACCESS_TOKEN), decode, now, reply)
            && StorageAfter(after, decode, now, reply) == after
  {
  }

  /** An emptied store (after logout or a Sign Up click) is denied by the
      guard without decoding or refreshing. */
  lemma EmptyStoreDenied(decode: string -> DecodeResult, now: int, reply: RefreshReply)
    ensures !Truthy(Lookup(map[], ACCESS_TOKEN))
    ensures !RefreshAttempted(Lookup(map[], ACCESS_TOKEN), decode, now)
    ensures !Verdict(Lookup(map[], ACCESS_TOKEN), decode, now, reply)
  {
  }

  /** Log in, pass the guard, log out, and be turned away by the guard. */
  method LoginLogoutFlow(decode: string -> DecodeResult, now: int)
    requires decode("jwt") == Payload(None)
  {
    var w := new Window(map[]);
    var login := new Login.LoginPage(w);
    login.SetUsername("ana");
    login.SetPassword("pw");
    login.HandleSubmit(Login.Tokens(Some("jwt"), Some("r")));
    assert login.requests == [Login.Credentials("ana", "pw")];

    var guard := new Guard(w);
    guard.Auth(decode, now, Thrown);
    assert Render(guard.isAuthorized) == Children;

    var app := new Dashboard.App(w);
    app.HandleLogout();
    var again := new Guard(w);
    again.Auth(decode, now, Thrown);
    assert Render(again.isAuthorized) == Redirect("/login");
    assert w.visits == [Visit("/", map[ACCESS_TOKEN := "jwt", REFRESH_TOKEN := "r"]), Visit("/login", map[])];
  }

  /** Pressing Sign Up while logged in logs the user out, even if the
      registration fails or the incomplete form is never submitted. */
  method SignUpClearsSession(decode: string -> DecodeResult, now: int, formValid: bool, error: Signup.HttpError)
  {
    var w := new Window(map[ACCESS_TOKEN := "jwt", REFRESH_TOKEN := "r"]);
    var page := new Signup.SignupPage(w);
    page.PressSignUp(formValid, Signup.RegisterFailed(error));
    var guard := new Guard(w);
    guard.Auth(decode, now, Thrown);
    assert Render(guard.isAuthorized) == Redirect("/login") && guard.decoded == [];
  }
}
