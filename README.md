# Rants front end: session guard and component state rules

This project models the logic inside "Rants", a React blogging front end. It covers:

- the session guard that wraps the protected routes;
- the login and sign-up forms;
- the dashboard's post list and profile;
- the post page.

The credentials live in the browser's localStorage, which every component shares. This model has one `Browser.Window` object holding:

- the storage map;
- the navigation history, each visit with a snapshot of storage at that moment;
- the alerts shown.

The components are classes whose fields are their React state cells. Their methods are the event handlers and effects, run one at a time. Network replies, the JWT decoder's result and `Date.now()` are parameters.

Modules:

- `Browser`: localStorage, navigation and alerts; JavaScript truthiness; the string `setItem` stores for a missing field.
- `ProtectedRoutes`: the guard. The `isAuthorized` cell starts null. Each activation writes it exactly once, always with a boolean. A missing or empty token, a token that will not decode, and a refused or failed refresh all resolve to `false`. An expired token causes exactly one refresh request. Only a 200 reply writes to storage, and it overwrites both tokens.
- `Login`, `Dashboard` (App.tsx), `PostDetail`, `Signup`: one module per component.
- `Session`: lemmas and client methods that chain the components over one store: login, then the guard, then logout or Sign Up.

Behaviour as written that the model keeps:

- Login stores `data.access` and `data.refresh`, but the guard's refresh reads `data.accessToken` and `data.refreshToken`. If the refresh endpoint answers in the login shape, the literal `"undefined"` is stored, and the next activation denies (`ProtectedRoutes.LoginShapedRefreshReplyDeniesNextActivation`).
- An `exp` claim of 0 is falsy, so it is treated like a missing claim: the token is admitted without a refresh.
- A refresh that fails leaves the stored tokens in place. Nothing in the guard clears them.
- The post page keeps its `post` cell when `pk` changes. A failed query for the new id therefore still shows the previous post (`PostDetail.Scenarios`).
- Clicking Sign Up empties localStorage before the form submits, whatever the server answers.
- The HTML check on a sign-up error body is case-sensitive: `<!doctype html>` is shown quoted, not as the HTML message.

In src/main.tsx:14-43 only `/` and `/rants` are wrapped by the guard. `/rants/:pk` (the post page), `/login` and `/signup` are not. The dashboard's "Read More" button navigates to `/posts/:id` (src/App.tsx:248), and no route matches that path.

Behaviour of the code worth noting:

- A failed refresh does not clear the stored credentials.
- The refresh reply fields are `accessToken`/`refreshToken`.
- Expiry uses the strict `exp * 1000 < now`.
- The guard checks a stored token only; the hosted-backend client appears only in the post page's query.

## Model

| member | source | states |
|---|---|---|
| `ProtectedRoutes.Verdict` | src/components/ProtectedRoutes.tsx:20-55 | admitted iff the token is truthy, decodes, and is either not expired or refreshed with status 200; a missing token or a decode failure always denies; after a refresh attempt the verdict is exactly "status was 200 and the body was an object" (a null body makes the field read throw, which the catch turns into a denial) |
| `ProtectedRoutes.StorageAfter` | src/components/ProtectedRoutes.tsx:20-37 | storage changes only when a refresh was attempted and answered 200 with an object body; then both token keys hold the reply's `accessToken`/`refreshToken` (or "undefined") and every other key is kept; otherwise storage is unchanged |
| `ProtectedRoutes.Render` | src/components/ProtectedRoutes.tsx:57-61 | null shows the waiting text, true the children, false a redirect to /login, each in both directions |
| `ProtectedRoutes.Guard.constructor` | src/components/ProtectedRoutes.tsx:12 | the state cell starts null, with nothing written, decoded or requested |
| `ProtectedRoutes.Guard.SetIsAuthorized` | src/components/ProtectedRoutes.tsx:12 | the cell takes the boolean and the write is recorded; the cell is always the last write |
| `ProtectedRoutes.Guard.RefreshToken` | src/components/ProtectedRoutes.tsx:20-37 | one request carrying the stored refresh token (or null); a 200 overwrites both tokens and writes true; any other status, a 200 with a null body (the field read throws and is caught) or a thrown error writes false and leaves storage as it was |
| `ProtectedRoutes.Guard.Auth` | src/components/ProtectedRoutes.tsx:39-55 | exactly one write appended to the cell's history, equal to `Verdict` of the token stored before; the token is decoded only when truthy; a refresh request is sent only when the decoded `exp` is present, non-zero and `exp*1000 < now`; storage becomes `StorageAfter`; the guard no longer renders the waiting text |
| `ProtectedRoutes.NullRefreshBodyDeniesAndKeepsStorage` | src/components/ProtectedRoutes.tsx:26-35 | a refresh answered 200 with a null body denies and leaves storage unchanged |
| `ProtectedRoutes.LoginShapedRefreshReplyDeniesNextActivation` | src/components/ProtectedRoutes.tsx:26-28 | a 200 refresh reply without `accessToken` admits now but stores "undefined", which the next activation denies if it does not decode |
| `Login.StorageAfterLogin` | src/components/Login.tsx:17-24 | success sets the access key to `data.access` and the refresh key to `data.refresh`, keeping other keys; failure leaves storage unchanged |
| `Login.LoginPage.constructor` | src/components/Login.tsx:7-10 | both fields start empty and no request has been sent |
| `Login.LoginPage.SetUsername` | src/components/Login.tsx:50-52 | the username takes the input's value; the password is unchanged |
| `Login.LoginPage.SetPassword` | src/components/Login.tsx:66-68 | the password takes the input's value; the username is unchanged |
| `Login.LoginPage.HandleSubmit` | src/components/Login.tsx:13-25 | the request body is exactly the form; on success both tokens are stored and then "/" is visited with both keys already present; on failure the error is alerted, with no storage write and no navigation |
| `Dashboard.DisplayName` | src/App.tsx:21-28 | `username` if truthy, else `name` if truthy, else "User"; "Writer" when the request fails or the body is null; never empty |
| `Dashboard.ToUpper` | src/App.tsx:78 | ASCII lower-case letters map to their upper case and nothing else changes; the result is never a lower-case letter |
| `Dashboard.UserInitial` | src/App.tsx:78 | one character: the upper-cased first character of a non-empty name, else "?" |
| `Dashboard.RemoveById` | src/App.tsx:70 | no kept post has the id; every post with another id is kept as often as it occurred; nothing new appears |
| `Dashboard.RemoveByIdAppend` | src/App.tsx:70 | the filter distributes over concatenation, so kept posts stay in their original order |
| `Dashboard.RemoveByIdAbsent` | src/App.tsx:70 | a list without the id is returned unchanged |
| `Dashboard.RemoveByIdIdempotent` | src/App.tsx:70 | filtering twice by the same id equals filtering once |
| `Dashboard.InitialAfterProfile` | src/App.tsx:78 | once the profile request settles, the avatar is the upper-cased first letter of the shown name and not "?", unless the name starts with "?" |
| `Dashboard.App.constructor` | src/App.tsx:17-19 | user null, empty draft, empty post list |
| `Dashboard.App.GetUserProfile` | src/App.tsx:21-28 | the user cell becomes the `DisplayName` of the reply; the other cells are unchanged |
| `Dashboard.App.GetPosts` | src/App.tsx:30-35 | a successful fetch replaces the list; a failure keeps it |
| `Dashboard.App.CreatePost` | src/App.tsx:37-46 | the draft is posted; on success the list is refetched and the draft reset to empty title and content; on failure draft and list are kept |
| `Dashboard.App.HandleLogout` | src/App.tsx:58-62 | storage is emptied, then "/login" is visited with storage already empty |
| `Dashboard.App.DeletePost` | src/App.tsx:64-76 | no confirmation: no request and no change; otherwise one delete request for the id, and only a 204 reply removes the posts with that id (via `RemoveById`) |
| `Dashboard.App.Initial` | src/App.tsx:78 | one character, equal to "?" exactly when the name is missing or empty or its upper-cased first character is "?" |
| `PostDetail.Split` | src/components/PostDetail.tsx:120 | `split(" ")` yields one more piece than the content has spaces, and no piece contains a space |
| `PostDetail.JoinSplit` | src/components/PostDetail.tsx:120 | joining the pieces with a space gives back the content |
| `PostDetail.ReadTime` | src/components/PostDetail.tsx:120 | at least 1; the ceiling of words/200 (200·(r−1) < words ≤ 200·r); equal to spaces/200 + 1, so the `max(1, …)` never takes effect |
| `PostDetail.AuthorInitial` | src/components/PostDetail.tsx:87 | the first character of a non-empty author name, else "C" |
| `PostDetail.AuthorLabel` | src/components/PostDetail.tsx:94 | the author name if non-empty, else "Community Member" |
| `PostDetail.Render` | src/components/PostDetail.tsx:34-61 | spinner iff loading; not-found iff loaded with no post; otherwise the article of the held post |
| `PostDetail.PostPage.constructor` | src/components/PostDetail.tsx:7-10 | no post, loading, nothing queried |
| `PostDetail.PostPage.FetchPost` | src/components/PostDetail.tsx:13-29 | one query for `pk`; afterwards not loading; the post becomes the returned row, and on error the previous post is kept |
| `PostDetail.PostPage.OnPk` | src/components/PostDetail.tsx:12-32 | a fetch happens only for a truthy `pk`; otherwise loading, post and the query log are untouched |
| `Signup.RegisterPayload` | src/components/Signup.tsx:19 | the payload has exactly the form's keys minus `confirmPassword`, each with the form's value |
| `Signup.PayloadIgnoresConfirmation` | src/components/Signup.tsx:19-22 | the payload does not depend on the confirmation, so a mismatched confirmation is sent all the same |
| `Signup.Quote` | src/components/Signup.tsx:41 | `JSON.stringify` of a string starts and ends with a double quote and is at least two characters longer |
| `Signup.UnescapeEscape` | src/components/Signup.tsx:41 | reading back the escaped body of the literal gives the original string |
| `Signup.UnquoteQuote` | src/components/Signup.tsx:41 | the stringified text of a string body reads back to that body |
| `Signup.AlertMessage` | src/components/Signup.tsx:33-50 | response with a string body starting "<!DOCTYPE": the fixed HTML message; other string body: its JSON literal `Quote(text)`, which reads back to the body and differs from the HTML message; non-string body: its serialisation; no response but a request: "No response received from server."; otherwise "Error: " + message |
| `Signup.SignupPage.constructor` | src/components/Signup.tsx:6-11 | the four fields start empty |
| `Signup.SignupPage.HandleChange` | src/components/Signup.tsx:54-59 | the named field takes the value; every other field keeps its value |
| `Signup.SignupPage.HandleSubmit` | src/components/Signup.tsx:14-52 | `RegisterPayload` of the form is posted with no password check; success visits "/login"; failure alerts `AlertMessage`; storage is untouched |
| `Signup.SignupPage.ClickSignUp` | src/components/Signup.tsx:157-160 | storage is emptied and there is no navigation |
| `Signup.SignupPage.PressSignUp` | src/components/Signup.tsx:154-163 | the click empties storage before the submit, so storage ends empty whatever the registration reply, and also when the `required` inputs (lines 81, 96, 111, 126, 138) cancel the submission; the form is kept; only a submitted form sends a request, and only its reply adds a visit (success) or an alert (failure) |
| `Session.LoginThenGuardAdmits` | src/components/ProtectedRoutes.tsx:45-51 | after a login whose access token decodes to a current or missing `exp`, the guard admits without a refresh and without writing storage |
| `Session.EmptyStoreDenied` | src/components/ProtectedRoutes.tsx:40-44 | after logout or a Sign Up click the guard denies, with no decode and no refresh |

## Left out

- JSX layout and styling, src/components/Rants.tsx (mock posts, a menu toggle) and src/components/Error.tsx (a static page). The dashboard's `openNav` menu toggle is also left out. All of these are presentation only.
- Route matching in src/main.tsx is done by the router library. Only which routes are guarded is recorded, above.
- The axios `api` module and the hosted-backend client are not part of this model. Their replies are parameters: a status and fields, or a thrown error. Any interceptor they install is not modelled. `status` is a free integer, although axios by default throws for non-2xx statuses.
- The JWT decoder is a parameter `string -> DecodeResult`. Only an integer `exp` is modelled, not fractional or NaN claims.
- Asynchronous scheduling, React re-rendering and StrictMode running effects twice are not modelled. Every handler runs to completion, one at a time, with its reply already known. For the same reason, protection against a late reply from a stale activation is not modelled: the source has none.
- Exceptions thrown by localStorage itself (quota, disabled storage) are not modelled. In the source such an error between the two `setItem` calls of a refresh would leave a half-written store.
- `toast`, `console` and date formatting (`toLocaleDateString`, `created_at`) are not modelled. The text of the confirm dialog is not modelled either; only its boolean answer is a parameter.
- `Dashboard.ToUpper`: only ASCII letters are upper-cased. JavaScript's `toUpperCase` also maps other scripts and can return two characters (for example "ß" becomes "SS").
- `Dashboard.UserInitial`: it indexes code points, where JavaScript indexes UTF-16 code units. The two differ for a name that begins outside the Basic Multilingual Plane.
- `PostDetail.AuthorInitial`: it indexes code points, where JavaScript's `[0]` takes a UTF-16 code unit. The two differ for a name that begins outside the Basic Multilingual Plane.
- `Signup.Quote`: lone surrogates are not modelled, because strings here are sequences of Unicode scalar values. `JSON.stringify` of a non-string body is given as its text (`ResponseBody.Other`), not computed.
- `Signup.AlertMessage`: it takes `error.message` as a string, so an error without a message ("Error: undefined") is not distinguished.
- A post row whose `content` is null makes the read-time expression throw. That case is not modelled: content is always a string.
