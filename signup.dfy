/** The registration form: four controlled fields, a submit handler that posts
    all of them except the confirmation and explains a failure in an alert,
    and a Sign Up button that empties localStorage when clicked. */
module Signup {
  import opened Browser

  const CONFIRM_PASSWORD := "confirmPassword"

  /** The initial `formData`. */
  const EMPTY_FORM: map<string, string> :=
    map["username" := "", "email" := "", "password" := "", CONFIRM_PASSWORD := ""]

  const HTML_ALERT := "Server returned HTML (likely 404 or 500). Check console."
  const NO_RESPONSE_ALERT := "No response received from server."

  /** A response body: a string, or any other JSON value given by the text
      `JSON.stringify` produces for it. */
  datatype ResponseBody = Text(text: string) | Other(serialized: string)

  /** The fields of a thrown request error that the handler inspects. */
  datatype HttpError = HttpError(message: string, response: Option<ResponseBody>, requestSent: bool)

  datatype RegisterReply = Registered | RegisterFailed(error: HttpError)

  /** `const { confirmPassword, ...registerData } = formData`. */
  function RegisterPayload(form: map<string, string>): (payload: map<string, string>)
    ensures payload.Keys == form.Keys - {CONFIRM_PASSWORD}
    ensures forall k :: k in payload ==> payload[k] == form[k]
  {
    map k | k in form && k != CONFIRM_PASSWORD :: form[k]
  }

  /** The confirmation field never reaches the server, so what is sent does
      not depend on it, whether or not it matches the password. */
  lemma PayloadIgnoresConfirmation(form: map<string, string>, confirmation: string)
    ensures RegisterPayload(form[CONFIRM_PASSWORD := confirmation]) == RegisterPayload(form)
  {
  }

  predicate StartsWith(s: string, prefix: string) {
    |prefix| <= |s| && s[..|prefix|] == prefix
  }

  /** A string body that begins with the HTML document type declaration
      (case-sensitive, as `startsWith` is). */
  predicate IsHtmlPage(body: ResponseBody) {
    body.Text? && StartsWith(body.text, "<!DOCTYPE")
  }

  function HexDigit(n: nat): char
    requires n < 16
  {
    "0123456789abcdef"[n]
  }

  function HexValue(c: char): Option<nat> {
    if '0' <= c <= '9' then Some(c as int - '0' as int)
    else if 'a' <= c <= 'f' then Some(c as int - 'a' as int + 10)
    else if 'A' <= c <= 'F' then Some(c as int - 'A' as int + 10)
    else None
  }

  lemma HexRoundTrip(n: nat)
    requires n < 16
    ensures HexValue(HexDigit(n)) == Some(n)
  {
  }

  /** How `JSON.stringify` writes one character inside a string literal: the
      two-character escapes, `\u00xx` for the other control characters, and
      the character itself otherwise. */
  function EscapeChar(c: char): string {
    if c == '\U{8}' then "\\b"
    else if c == '\t' then "\\t"
    else if c == '\n' then "\\n"
    else if c == '\U{C}' then "\\f"
    else if c == '\r' then "\\r"
    else if c == '"' then "\\\""
    else if c == '\\' then "\\\\"
    else if c < ' ' then ['\\', 'u', '0', '0', HexDigit(c as int / 16), HexDigit(c as int % 16)]
    else [c]
  }

  function Escape(s: string): string {
    if s == [] then "" else EscapeChar(s[0]) + Escape(s[1..])
  }

  /** `JSON.stringify` of a string. */
  function Quote(s: string): (json: string)
    ensures |json| >= |s| + 2 && json[0] == '"' && json[|json| - 1] == '"'
  {
    EscapeLength(s);
    "\"" + Escape(s) + "\""
  }

  lemma {:induction false} EscapeLength(s: string)
    ensures |Escape(s)| >= |s|
  {
    if s != [] {
      EscapeLength(s[1..]);
    }
  }

  /** The character a two-character escape `\x` stands for. */
  function SimpleEscape(x: char): Option<char> {
    if x == 'b' then Some('\U{8}')
    else if x == 't' then Some('\t')
    else if x == 'n' then Some('\n')
    else if x == 'f' then Some('\U{C}')
    else if x == 'r' then Some('\r')
    else if x == '"' then Some('"')
    else if x == '\\' then Some('\\')
    else if x == '/' then Some('/')
    else None
  }

  /** The character four hex digits stand for in a `\uXXXX` escape. */
  function HexCode(d: string): Option<char>
    requires |d| == 4
  {
    var h := [HexValue(d[0]), HexValue(d[1]), HexValue(d[2]), HexValue(d[3])];
    if h[0].None? || h[1].None? || h[2].None? || h[3].None? then None
    else
      var code := 4096 * h[0].value + 256 * h[1].value + 16 * h[2].value + h[3].value;
      if 0xD800 <= code < 0xE000 then None else Some(code as char)
  }

  function Prepend(c: char, rest: Option<string>): Option<string> {
    match rest
    case Some(s) => Some([c] + s)
    case None => None
  }

  /** Reads back the body of a JSON string literal. */
  function Unescape(t: string): Option<string> {
    if t == [] then Some([])
    else if t[0] == '"' then None
    else if t[0] != '\\' then Prepend(t[0], Unescape(t[1..]))
    else if |t| >= 2 && SimpleEscape(t[1]).Some? then Prepend(SimpleEscape(t[1]).value, Unescape(t[2..]))
    else if |t| >= 6 && t[1] == 'u' && HexCode(t[2..6]).Some? then Prepend(HexCode(t[2..6]).value, Unescape(t[6..]))
    else None
  }

  /** Reads back a JSON string literal. */
  function Unquote(json: string): Option<string> {
    if |json| >= 2 && json[0] == '"' && json[|json| - 1] == '"' then Unescape(json[1..|json| - 1])
    else None
  }

  lemma UnescapeControl(c: char, rest: string)
    requires c < ' ' && c != '\U{8}' && c != '\t' && c != '\n' && c != '\U{C}' && c != '\r'
    ensures Unescape(EscapeChar(c) + rest) == Prepend(c, Unescape(rest))
  {
    var t := EscapeChar(c) + rest;
    HexRoundTrip(c as int / 16);
    HexRoundTrip(c as int % 16);
    HexRoundTrip(0);
    assert t[2..6] == ['0', '0', HexDigit(c as int / 16), HexDigit(c as int % 16)];
    assert HexCode(t[2..6]) == Some(c);
    assert t[6..] == rest;
  }

  lemma UnescapeChar(c: char, rest: string)
    ensures Unescape(EscapeChar(c) + rest) == Prepend(c, Unescape(rest))
  {
    var e := EscapeChar(c);
    if c < ' ' && c != '\U{8}' && c != '\t' && c != '\n' && c != '\U{C}' && c != '\r' {
      UnescapeControl(c, rest);
    } else if |e| == 2 {
      assert (e + rest)[2..] == rest;
    } else {
      assert (e + rest)[1..] == rest;
    }
  }

  /** Reading back the escaped text gives the original string. */
  lemma {:induction false} UnescapeEscape(s: string)
    ensures Unescape(Escape(s)) == Some(s)
  {
    if s != [] {
      UnescapeEscape(s[1..]);
      UnescapeChar(s[0], Escape(s[1..]));
      assert [s[0]] + s[1..] == s;
    }
  }

  /** `JSON.stringify` of a string body loses nothing: the alert shows a text
      from which the body can be read back. */
  lemma UnquoteQuote(s: string)
    ensures Unquote(Quote(s)) == Some(s)
  {
    var json := Quote(s);
    assert json[1..|json| - 1] == Escape(s);
    UnescapeEscape(s);
  }

  /** `JSON.stringify(data)` for a response body. */
  function Stringify(body: ResponseBody): string {
    match body
    case Text(text) => Quote(text)
    case Other(serialized) => serialized
  }

  /** The text alerted for a failed registration. */
  function AlertMessage(error: HttpError): (message: string)
    ensures error.response.Some? && IsHtmlPage(error.response.value) ==> message == HTML_ALERT
    ensures error.response.Some? && error.response.value.Text? && !IsHtmlPage(error.response.value) ==>
      && message == Quote(error.response.value.text)
      && message != HTML_ALERT
      && Unquote(message) == Some(error.response.value.text)
    ensures error.response.Some? && error.response.value.Other? ==> message == error.response.value.serialized
    ensures error.response.None? && error.requestSent ==> message == NO_RESPONSE_ALERT
    ensures error.response.None? && !error.requestSent ==> message == "Error: " + error.message
  {
    match error.response
    case Some(body) =>
      if IsHtmlPage(body) then HTML_ALERT
      else if body.Text? then
        UnquoteQuote(body.text);
        Stringify(body)
      else Stringify(body)
    case None =>
      if error.requestSent then NO_RESPONSE_ALERT else "Error: " + error.message
  }

  class SignupPage {
    const window: Window
    /** The `formData` state cell, keyed by input name. */
    var formData: map<string, string>
    /** Every body posted to the registration endpoint. */
    var requests: seq<map<string, string>>

    constructor (w: Window)
      ensures window == w && formData == EMPTY_FORM && requests == []
    {
      window := w;
      formData := EMPTY_FORM;
      requests := [];
    }

    /** `handleChange`: the field named by the input takes its value; every
        other field keeps its own. */
    method HandleChange(name: string, value: string)
      modifies this
      ensures formData.Keys == old(formData).Keys + {name} && formData[name] == value
      ensures forall k :: k in old(formData) && k != name ==> formData[k] == old(formData)[k]
      ensures requests == old(requests)
    {
      formData := formData[name := value];
    }

    /** `handleSubmit`: posts the form without the confirmation, with no check
        that it matches the password; success goes to "/login", failure
        alerts the classified message. */
    method HandleSubmit(reply: RegisterReply)
      modifies this, window
      ensures requests == old(requests) + [RegisterPayload(old(formData))] && formData == old(formData)
      ensures window.storage == old(window.storage)
      ensures reply.Registered? ==>
        && window.visits == old(window.visits) + [Visit("/login", window.storage)]
        && window.alerts == old(window.alerts)
      ensures reply.RegisterFailed? ==>
        && window.visits == old(window.visits)
        && window.alerts == old(window.alerts) + [AlertMessage(reply.error)]
    {
      requests := requests + [RegisterPayload(formData)];
      match reply
      case Registered =>
        window.Navigate("/login");
      case RegisterFailed(error) =>
        window.Alert(AlertMessage(error));
    }

    /** The Sign Up button's click handler: empties localStorage. The element
        it returns is discarded by the browser, so it does not navigate. */
    method ClickSignUp()
      modifies window
      ensures window.storage == map[]
      ensures window.visits == old(window.visits) && window.alerts == old(window.alerts)
    {
      window.Clear();
    }

    /** Pressing Sign Up: the click handler runs, then the form submits only
        if `formValid`, that is, every `required` input (the four text
        fields and the terms checkbox) is filled; otherwise the browser
        cancels the submission. The stored credentials are gone either way,
        whatever the server answers. */
    method PressSignUp(formValid: bool, reply: RegisterReply)
      modifies this, window
      ensures window.storage == map[]
      ensures formData == old(formData)
      ensures requests == old(requests) + if formValid then [RegisterPayload(old(formData))] else []
      ensures window.visits == old(window.visits) +
                if formValid && reply.Registered? then [Visit("/login", map[])] else []
      ensures window.alerts == old(window.alerts) +
                if formValid && reply.RegisterFailed? then [AlertMessage(reply.error)] else []
    {
      ClickSignUp();
      if formValid {
        HandleSubmit(reply);
      }
    }
  }

  /** Scenarios: a mismatched confirmation is sent anyway; an incomplete form
      sends nothing yet still loses the stored credentials; a lower-case
      doctype is not recognised as HTML and is shown quoted. */
  method Scenarios()
  {
    var w := new Window(map[ACCESS_TOKEN := "a"]);
    var page := new SignupPage(w);
    page.HandleChange("password", "one");
    page.HandleChange(CONFIRM_PASSWORD, "two");
    page.PressSignUp(true, Registered);
    assert page.requests[0]["password"] == "one" && CONFIRM_PASSWORD !in page.requests[0];
    assert w.storage == map[] && w.visits == [Visit("/login", map[])];

    var w2 := new Window(map[ACCESS_TOKEN := "a"]);
    var page2 := new SignupPage(w2);
    page2.PressSignUp(false, Registered);
    assert page2.requests == [] && w2.visits == [] && w2.storage == map[];

    var lower := HttpError("Request failed", Some(Text("<!doctype html>")), true);
    assert "<!doctype html>"[2] == 'd' != "<!DOCTYPE"[2];
    assert !IsHtmlPage(Text("<!doctype html>"));
    assert AlertMessage(lower) != HTML_ALERT;
  }
}
