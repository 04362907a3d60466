/** The login form: two controlled fields and a submit handler that posts them
    to the token endpoint, stores the two returned tokens and goes home. */
module Login {
  import opened Browser

  datatype Credentials = Credentials(username: string, password: string)

  /** Outcome of the POST to the token endpoint: the `access` and `refresh`
      fields of the response body, or the thrown error as `alert` shows it. */
  datatype TokenReply = Tokens(access: Option<string>, refresh: Option<string>) | Rejected(error: string)

  /** localStorage after a submit answered by `reply`. */
  function StorageAfterLogin(storage: map<string, string>, reply: TokenReply): (r: map<string, string>)
    ensures reply.Rejected? ==> r == storage
    ensures reply.Tokens? ==>
      && r.Keys == storage.Keys + {ACCESS_TOKEN, REFRESH_TOKEN}
      && r[ACCESS_TOKEN] == Stored(reply.access)
      && r[REFRESH_TOKEN] == Stored(reply.refresh)
      && forall k :: k in storage && k != ACCESS_TOKEN && k != REFRESH_TOKEN ==> r[k] == storage[k]
  {
    match reply
    case Tokens(access, refresh) => storage[ACCESS_TOKEN := Stored(access)][REFRESH_TOKEN := Stored(refresh)]
    case Rejected(_) => storage
  }

  class LoginPage {
    const window: Window
    /** The `formData` state cell. */
    var formData: Credentials
    /** Every body posted to the token endpoint. */
    var requests: seq<Credentials>

    constructor (w: Window)
      ensures window == w && formData == Credentials("", "") && requests == []
    {
      window := w;
      formData := Credentials("", "");
      requests := [];
    }

    /** The username input's change handler. */
    method SetUsername(value: string)
      modifies this
      ensures formData.username == value && formData.password == old(formData.password)
      ensures requests == old(requests)
    {
      formData := formData.(username := value);
    }

    /** The password input's change handler. */
    method SetPassword(value: string)
      modifies this
      ensures formData.password == value && formData.username == old(formData.username)
      ensures requests == old(requests)
    {
      formData := formData.(password := value);
    }

    /** `handleSubmit`: posts exactly the form, then on success stores both
        tokens and navigates to "/" with both already stored; on failure it
        alerts and neither stores nor navigates. */
    method HandleSubmit(reply: TokenReply)
      modifies this, window
      ensures requests == old(requests) + [old(formData)] && formData == old(formData)
      ensures window.storage == StorageAfterLogin(old(window.storage), reply)
      ensures reply.Tokens? ==>
        && window.visits == old(window.visits) + [Visit("/", window.storage)]
        && window.alerts == old(window.alerts)
      ensures reply.Tokens? ==> var v := window.visits[|window.visits| - 1];
                               ACCESS_TOKEN in v.storageThen && REFRESH_TOKEN in v.storageThen
      ensures reply.Rejected? ==>
        && window.visits == old(window.visits)
        && window.alerts == old(window.alerts) + [reply.error]
    {
      requests := requests + [formData];
      match reply
      case Tokens(access, refresh) =>
        window.SetItem(ACCESS_TOKEN, Stored(access));
        window.SetItem(REFRESH_TOKEN, Stored(refresh));
        window.Navigate("/");
      case Rejected(error) =>
        window.Alert(error);
    }
  }
}
