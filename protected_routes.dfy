/** The session guard wrapped around the protected routes: on activation it
    reads the stored access token, decodes its expiry claim, makes at most one
    refresh request, and resolves a tri-state flag (unknown, admitted, denied)
    that decides what is rendered. Every failure resolves to "denied". */
module ProtectedRoutes {
  import opened Browser

  /** Result of the token decoder: a decode failure, or the claim set, of which
      only the optional `exp` (seconds since the epoch) is used. */
  datatype DecodeResult = DecodeFailed | Payload(exp: Option<int>)

  /** Outcome of the POST to the refresh endpoint: a response with its status
      and the two fields the guard reads (a field missing from the object
      body is None), a response whose body is JSON null, or a thrown error.
      On a null body with status 200, reading `accessToken` throws before
      anything is stored, and the handler's catch denies. */
  datatype RefreshReply =
    | Response(status: int, accessToken: Option<string>, refreshToken: Option<string>)
    | NullBody(status: int)
    | Thrown

  /** What the guard renders. */
  datatype View = Waiting | Children | Redirect(path: string)

  /** The expiry test `exp && exp * 1000 < now`: a missing or zero `exp` is
      falsy, so it never counts as expired; `now` is in milliseconds. */
  predicate Expired(exp: Option<int>, now: int) {
    exp.Some? && exp.value != 0 && exp.value * 1000 < now
  }

  predicate RefreshSucceeded(reply: RefreshReply) {
    reply.Response? && reply.status == 200
  }

  /** Whether an activation holding `token` sends a refresh request. */
  predicate RefreshAttempted(token: Option<string>, decode: string -> DecodeResult, now: int) {
    Truthy(token) && decode(token.value).Payload? && Expired(decode(token.value).exp, now)
  }

  /** The boolean the guard resolves to for one activation. */
  function Verdict(token: Option<string>, decode: string -> DecodeResult, now: int, reply: RefreshReply): (admitted: bool)
    ensures !Truthy(token) ==> !admitted
    ensures Truthy(token) && decode(token.value).DecodeFailed? ==> !admitted
    ensures RefreshAttempted(token, decode, now) ==> (admitted <==> RefreshSucceeded(reply))
    ensures admitted <==> Truthy(token) && decode(token.value).Payload?
                          && (Expired(decode(token.value).exp, now) ==> RefreshSucceeded(reply))
  {
    if !Truthy(token) then false
    else match decode(token.value)
      case DecodeFailed => false
      case Payload(exp) => if Expired(exp, now) then RefreshSucceeded(reply) else true
  }

  /** localStorage after one activation: only a refresh answered with 200
      writes, and it overwrites both credentials. */
  function StorageAfter(storage: map<string, string>, decode: string -> DecodeResult, now: int, reply: RefreshReply): (r: map<string, string>)
    ensures var token := Lookup(storage, ACCESS_TOKEN);
            if RefreshAttempted(token, decode, now) && RefreshSucceeded(reply) then
              r.Keys == storage.Keys + {ACCESS_TOKEN, REFRESH_TOKEN}
              && r[ACCESS_TOKEN] == Stored(reply.accessToken)
              && r[REFRESH_TOKEN] == Stored(reply.refreshToken)
              && (forall k :: k in storage && k != ACCESS_TOKEN && k != REFRESH_TOKEN ==> r[k] == storage[k])
            else r == storage
  {
    var token := Lookup(storage, ACCESS_TOKEN);
    if RefreshAttempted(token, decode, now) && RefreshSucceeded(reply) then
      storage[ACCESS_TOKEN := Stored(reply.accessToken)][REFRESH_TOKEN := Stored(reply.refreshToken)]
    else storage
  }

  /** The render decision on the tri-state flag. */
  function Render(isAuthorized: Option<bool>): (v: View)
    ensures v == Waiting <==> isAuthorized == None
    ensures v == Children <==> isAuthorized == Some(true)
    ensures v == Redirect("/login") <==> isAuthorized == Some(false)
  {
    match isAuthorized
    case None => Waiting
    case Some(true) => Children
    case Some(false) => Redirect("/login")
  }

  class Guard {
    const window: Window
    /** The `isAuthorized` state cell. */
    var isAuthorized: Option<bool>
    /** Every value written to the state cell, in order. */
    ghost var writes: seq<bool>
    /** Every token handed to the decoder. */
    var decoded: seq<string>
    /** The `refresh` field of every request sent to the refresh endpoint
        (None stands for the null that getItem returns for a missing key). */
    var refreshRequests: seq<Option<string>>

    /** The state cell holds the last value written, and is null only before
        the first write. */
    ghost predicate Valid()
      reads this
    {
      isAuthorized == if writes == [] then None else Some(writes[|writes| - 1])
    }

    constructor (w: Window)
      ensures Valid() && window == w
      ensures isAuthorized == None && writes == [] && decoded == [] && refreshRequests == []
    {
      window := w;
      isAuthorized := None;
      writes := [];
      decoded := [];
      refreshRequests := [];
    }

    /** `setIsAuthorized(b)`. */
    method SetIsAuthorized(b: bool)
      requires Valid()
      modifies this
      ensures Valid() && isAuthorized == Some(b) && writes == old(writes) + [b]
      ensures decoded == old(decoded) && refreshRequests == old(refreshRequests)
    {
      isAuthorized := Some(b);
      writes := writes + [b];
    }

    /** `refreshToken`: one POST carrying the stored refresh token; a 200
        overwrites both stored tokens and admits, anything else denies and
        leaves localStorage alone. Nothing is thrown out of it. */
    method RefreshToken(reply: RefreshReply)
      requires Valid()
      modifies this, window
      ensures Valid()
      ensures refreshRequests == old(refreshRequests) + [old(window.GetItem(REFRESH_TOKEN))]
      ensures writes == old(writes) + [RefreshSucceeded(reply)]
      ensures window.storage == if RefreshSucceeded(reply) then
                old(window.storage)[ACCESS_TOKEN := Stored(reply.accessToken)][REFRESH_TOKEN := Stored(reply.refreshToken)]
              else old(window.storage)
      ensures decoded == old(decoded)
      ensures window.visits == old(window.visits) && window.alerts == old(window.alerts)
    {
      var refresh := window.GetItem(REFRESH_TOKEN);
      refreshRequests := refreshRequests + [refresh];
      match reply
      case Thrown =>
        SetIsAuthorized(false);
      case NullBody(_) =>
        SetIsAuthorized(false);
      case Response(status, accessToken, refreshToken) =>
        if status == 200 {
          window.SetItem(ACCESS_TOKEN, Stored(accessToken));
          window.SetItem(REFRESH_TOKEN, Stored(refreshToken));
          SetIsAuthorized(true);
        } else {
          SetIsAuthorized(false);
        }
    }

    /** `auth`, run once when the guard mounts. `decode` stands for the token
        decoder, `now` for `Date.now()`, `reply` for what the refresh endpoint
        would answer if asked. */
    method Auth(decode: string -> DecodeResult, now: int, reply: RefreshReply)
      requires Valid()
      modifies this, window
      ensures Valid()
      ensures writes == old(writes) + [Verdict(old(window.GetItem(ACCESS_TOKEN)), decode, now, reply)]
      ensures isAuthorized == Some(Verdict(old(window.GetItem(ACCESS_TOKEN)), decode, now, reply))
      ensures var token := old(window.GetItem(ACCESS_TOKEN));
              decoded == old(decoded) + if Truthy(token) then [token.value] else []
      ensures refreshRequests == old(refreshRequests) +
                if RefreshAttempted(old(window.GetItem(ACCESS_TOKEN)), decode, now)
                then [old(window.GetItem(REFRESH_TOKEN))] else []
      ensures window.storage == StorageAfter(old(window.storage), decode, now, reply)
      ensures window.visits == old(window.visits) && window.alerts == old(window.alerts)
      ensures Render(isAuthorized) != Waiting
    {
      var token := window.GetItem(ACCESS_TOKEN);
      if !Truthy(token) {
        SetIsAuthorized(false);
        return;
      }
      decoded := decoded + [token.value];
      match decode(token.value)
      case DecodeFailed =>
        SetIsAuthorized(false);
      case Payload(exp) =>
        if Expired(exp, now) {
          RefreshToken(reply);
        } else {
          SetIsAuthorized(true);
        }
    }
  }

  /** The activation after a successful refresh decodes whatever the refresh
      stored. Login stores `data.access`, but the refresh handler reads
      `data.accessToken`: if the refresh endpoint answers in the login shape,
      the literal "undefined" is stored, and when the decoder rejects it the
      next activation denies. */
  lemma LoginShapedRefreshReplyDeniesNextActivation(
    storage: map<string, string>, decode: string -> DecodeResult, now: int, later: int, reply: RefreshReply, reply2: RefreshReply)
    requires ACCESS_TOKEN in storage
    requires RefreshAttempted(Some(storage[ACCESS_TOKEN]), decode, now)
    requires reply.Response? && reply.status == 200 && reply.accessToken.None?
    requires decode("undefined").DecodeFailed?
    ensures Verdict(Some(storage[ACCESS_TOKEN]), decode, now, reply)
    ensures var next := StorageAfter(storage, decode, now, reply);
            ACCESS_TOKEN in next && next[ACCESS_TOKEN] == "undefined"
            && !Verdict(Some(next[ACCESS_TOKEN]), decode, later, reply2)
  {
  }

  /** A refresh answered 200 with a null body denies and leaves localStorage
      as it was: the failing field read is caught before any write. */
  lemma NullRefreshBodyDeniesAndKeepsStorage(storage: map<string, string>, decode: string -> DecodeResult, now: int)
    requires ACCESS_TOKEN in storage
    requires RefreshAttempted(Some(storage[ACCESS_TOKEN]), decode, now)
    ensures !Verdict(Some(storage[ACCESS_TOKEN]), decode, now, NullBody(200))
    ensures StorageAfter(storage, decode, now, NullBody(200)) == storage
  {
  }

  /** Scenarios: an empty store redirects; a current token renders the
      children without a refresh; an expired token with a refused refresh
      redirects and keeps the stored tokens. */
  method Scenarios(decode: string -> DecodeResult, now: int)
    requires decode("fresh") == Payload(Some(now / 1000 + 3600))
    requires decode("stale") == Payload(Some(now / 1000 - 3600))
    requires now / 1000 - 3600 != 0
  {
    var w := new Window(map[]);
    var g := new Guard(w);
    assert Render(g.isAuthorized) == Waiting;
    g.Auth(decode, now, Thrown);
    assert Render(g.isAuthorized) == Redirect("/login") && g.decoded == [];

    var w2 := new Window(map[ACCESS_TOKEN := "fresh"]);
    var g2 := new Guard(w2);
    g2.Auth(decode, now, Thrown);
    assert Render(g2.isAuthorized) == Children && g2.refreshRequests == [];

    var stored := map[ACCESS_TOKEN := "stale", REFRESH_TOKEN := "r"];
    var w3 := new Window(stored);
    var g3 := new Guard(w3);
    g3.Auth(decode, now, Response(401, None, None));
    assert g3.refreshRequests == [Some("r")];
    assert Render(g3.isAuthorized) == Redirect("/login") && w3.storage == stored;
  }
}
