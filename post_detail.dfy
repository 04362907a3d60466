/** The page of one post, reached at "/rants/:pk": fetches the row whose id is
    the route parameter, and renders a spinner, a not-found notice or the
    article with its author and reading time. */
module PostDetail {
  import opened Browser

  /** The fields of a post row this page reads. */
  datatype Post = Post(title: string, content: string, authorName: Option<string>)

  /** Outcome of the single-row query: the row, or an error. */
  datatype QueryReply = Row(post: Post) | QueryError(message: string)

  datatype Screen = Spinner | NotFound | Article(post: Post)

  /** Number of occurrences of `c` in `s`. */
  function Occurrences(s: string, c: char): nat {
    if s == [] then 0 else (if s[0] == c then 1 else 0) + Occurrences(s[1..], c)
  }

  /** `s.split(" ")`: the pieces between single spaces; two adjacent spaces
      give an empty piece, and the empty string gives one empty piece. */
  function Split(s: string): (pieces: seq<string>)
    ensures |pieces| == Occurrences(s, ' ') + 1
    ensures forall i :: 0 <= i < |pieces| ==> ' ' !in pieces[i]
  {
    if s == [] then [""]
    else
      var rest := Split(s[1..]);
      if s[0] == ' ' then [""] + rest
      else [[s[0]] + rest[0]] + rest[1..]
  }

  /** `pieces.join(sep)`. */
  function Join(pieces: seq<string>, sep: string): string {
    if pieces == [] then ""
    else if |pieces| == 1 then pieces[0]
    else pieces[0] + sep + Join(pieces[1..], sep)
  }

  /** Splitting loses nothing: joining the pieces with a space gives back
      the content. */
  lemma {:induction false} JoinSplit(s: string)
    ensures Join(Split(s), " ") == s
  {
    if s != [] {
      var rest := Split(s[1..]);
      JoinSplit(s[1..]);
      if s[0] == ' ' {
        assert Split(s) == [""] + rest;
        assert ([""] + rest)[1..] == rest;
        assert s == [' '] + s[1..];
      } else if |rest| == 1 {
        assert Split(s) == [[s[0]] + rest[0]];
        assert s == [s[0]] + s[1..];
      } else {
        assert Split(s) == [[s[0]] + rest[0]] + rest[1..];
        assert ([[s[0]] + rest[0]] + rest[1..])[1..] == rest[1..];
        assert Join(rest, " ") == rest[0] + " " + Join(rest[1..], " ");
        assert s == [s[0]] + s[1..];
      }
    }
  }

  /** `Math.max(1, Math.ceil(content.split(" ").length / 200))` minutes, with
      the ceiling taken by integer division. */
  function ReadTime(content: string): (minutes: int)
    ensures minutes >= 1
    ensures 200 * (minutes - 1) < |Split(content)| <= 200 * minutes
    ensures minutes == Occurrences(content, ' ') / 200 + 1
  {
    var words := |Split(content)|;
    var ceiling := (words + 199) / 200;
    if ceiling < 1 then 1 else ceiling
  }

  /** The avatar letter: the first character of the author's name, or "C"
      when the name is missing or empty. */
  function AuthorInitial(authorName: Option<string>): (initial: string)
    ensures |initial| == 1
    ensures Truthy(authorName) ==> initial[0] == authorName.value[0]
    ensures !Truthy(authorName) ==> initial == "C"
  {
    if Truthy(authorName) then [authorName.value[0]] else "C"
  }

  /** The author line: the name, or "Community Member" when it is missing or
      empty. */
  function AuthorLabel(authorName: Option<string>): (shown: string)
    ensures shown != ""
    ensures Truthy(authorName) ==> shown == authorName.value
    ensures !Truthy(authorName) ==> shown == "Community Member"
  {
    if Truthy(authorName) then authorName.value else "Community Member"
  }

  /** What the page renders: the spinner while loading, then the not-found
      notice while no post is held, then the article. */
  function Render(loading: bool, post: Option<Post>): (screen: Screen)
    ensures screen == Spinner <==> loading
    ensures screen == NotFound <==> !loading && post.None?
    ensures screen.Article? <==> !loading && post.Some?
    ensures screen.Article? ==> screen.post == post.value
  {
    if loading then Spinner
    else if post.None? then NotFound
    else Article(post.value)
  }

  class PostPage {
    /** The `:pk` route parameter; None when it is undefined. */
    var pk: Option<string>
    /** The `post` state cell. */
    var post: Option<Post>
    /** The `loading` state cell. */
    var loading: bool
    /** Every id the page queried. */
    var queries: seq<string>

    constructor (routePk: Option<string>)
      ensures pk == routePk && post == None && loading && queries == []
    {
      pk := routePk;
      post := None;
      loading := true;
      queries := [];
    }

    /** `fetchPost`: loading on, one query for `pk`, the row kept on success
        and the previous post kept on error, loading off in both cases. */
    method FetchPost(reply: QueryReply)
      requires Truthy(pk)
      modifies this
      ensures pk == old(pk) && queries == old(queries) + [pk.value]
      ensures !loading
      ensures post == if reply.Row? then Some(reply.post) else old(post)
    {
      loading := true;
      queries := queries + [pk.value];
      if reply.Row? {
        post := Some(reply.post);
      }
      loading := false;
    }

    /** The effect that runs on mount and whenever `pk` changes to `newPk`:
        it fetches only when the parameter is truthy. */
    method OnPk(newPk: Option<string>, reply: QueryReply)
      modifies this
      ensures pk == newPk
      ensures Truthy(newPk) ==>
        && queries == old(queries) + [newPk.value] && !loading
        && post == (if reply.Row? then Some(reply.post) else old(post))
      ensures !Truthy(newPk) ==> queries == old(queries) && loading == old(loading) && post == old(post)
    {
      pk := newPk;
      if Truthy(pk) {
        FetchPost(reply);
      }
    }

    /** The screen for the current state cells. */
    function View(): Screen
      reads this
    {
      Render(loading, post)
    }
  }

  /** Scenarios: a failed first query shows the not-found notice; a page
      without a parameter never stops loading; moving from a loaded post to
      one whose query fails keeps showing the first post. */
  method Scenarios(p: Post)
  {
    var page := new PostPage(Some("7"));
    page.OnPk(Some("7"), QueryError("no rows"));
    assert page.View() == NotFound;

    var empty := new PostPage(None);
    empty.OnPk(None, QueryError("unused"));
    assert empty.View() == Spinner && empty.queries == [];

    var moved := new PostPage(Some("1"));
    moved.OnPk(Some("1"), Row(p));
    moved.OnPk(Some("2"), QueryError("no rows"));
    assert moved.View() == Article(p);
  }
}
