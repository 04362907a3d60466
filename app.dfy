/** The dashboard (the component mounted at "/"): the signed-in user's name and
    initial, the draft being written, the list of the user's posts, deletion
    of a post, and logout. */
module Dashboard {
  import opened Browser

  datatype PostItem = PostItem(id: int, title: string, content: string)
  datatype Draft = Draft(title: string, content: string)

  /** Outcome of the profile request: the response body's `username` and
      `name` fields, a body that is null (reading a field of it throws inside
      the success callback), or a failed request. */
  datatype ProfileReply = Profile(username: Option<string>, name: Option<string>) | NullBody | ProfileFailed

  datatype PostsReply = Posts(data: seq<PostItem>) | PostsFailed
  datatype PublishReply = Published | PublishFailed
  datatype DeleteReply = Status(code: int) | DeleteFailed

  const EMPTY_DRAFT := Draft("", "")

  /** The name shown after the profile request: `username || name || "User"`,
      and "Writer" when the request or its callback failed. */
  function DisplayName(reply: ProfileReply): (name: string)
    ensures name != ""
    ensures reply.Profile? && Truthy(reply.username) ==> name == reply.username.value
    ensures reply.Profile? && !Truthy(reply.username) && Truthy(reply.name) ==> name == reply.name.value
    ensures reply.Profile? && !Truthy(reply.username) && !Truthy(reply.name) ==> name == "User"
    ensures !reply.Profile? ==> name == "Writer"
  {
    match reply
    case Profile(username, name) =>
      if Truthy(username) then username.value
      else if Truthy(name) then name.value
      else "User"
    case _ => "Writer"
  }

  predicate IsAsciiLower(c: char) {
    'a' <= c <= 'z'
  }

  /** `toUpperCase` on one character, for the ASCII letters. */
  function ToUpper(c: char): (u: char)
    ensures IsAsciiLower(c) ==> u as int == c as int - 32 && 'A' <= u <= 'Z'
    ensures !IsAsciiLower(c) ==> u == c
    ensures !IsAsciiLower(u)
  {
    if IsAsciiLower(c) then (c as int - 32) as char else c
  }

  /** The avatar letter: the upper-cased first character of a non-empty name,
      otherwise "?". */
  function UserInitial(user: Option<string>): (initial: string)
    ensures |initial| == 1
    ensures !Truthy(user) ==> initial == "?"
    ensures Truthy(user) ==> initial[0] == ToUpper(user.value[0])
    ensures !IsAsciiLower(initial[0])
  {
    if Truthy(user) then [ToUpper(user.value[0])] else "?"
  }

  /** `posts.filter(post => post.id !== id)`. */
  function RemoveById(posts: seq<PostItem>, id: int): (kept: seq<PostItem>)
    ensures |kept| <= |posts|
    ensures forall i :: 0 <= i < |kept| ==> kept[i].id != id
    ensures forall p: PostItem :: p.id != id ==> multiset(kept)[p] == multiset(posts)[p]
    ensures forall p: PostItem :: p in kept ==> p in posts
  {
    if posts == [] then []
    else
      var rest := RemoveById(posts[1..], id);
      assert posts == [posts[0]] + posts[1..];
      assert multiset(posts) == multiset([posts[0]]) + multiset(posts[1..]);
      if posts[0].id == id then rest
      else
        assert multiset([posts[0]] + rest) == multiset([posts[0]]) + multiset(rest);
        [posts[0]] + rest
  }

  /** The filter keeps the surviving posts in their original order: it
      distributes over concatenation. */
  lemma {:induction false} RemoveByIdAppend(a: seq<PostItem>, b: seq<PostItem>, id: int)
    ensures RemoveById(a + b, id) == RemoveById(a, id) + RemoveById(b, id)
  {
    if a == [] {
      assert a + b == b;
    } else {
      assert (a + b)[1..] == a[1..] + b;
      RemoveByIdAppend(a[1..], b, id);
    }
  }

  /** A list without the id is returned unchanged. */
  lemma {:induction false} RemoveByIdAbsent(posts: seq<PostItem>, id: int)
    requires forall i :: 0 <= i < |posts| ==> posts[i].id != id
    ensures RemoveById(posts, id) == posts
  {
    if posts != [] {
      RemoveByIdAbsent(posts[1..], id);
    }
  }

  /** Deleting the same id twice removes nothing more. */
  lemma RemoveByIdIdempotent(posts: seq<PostItem>, id: int)
    ensures RemoveById(RemoveById(posts, id), id) == RemoveById(posts, id)
  {
    RemoveByIdAbsent(RemoveById(posts, id), id);
  }

  class App {
    const window: Window
    /** The `user` state cell: null, or the object holding `name`. */
    var user: Option<string>
    /** The `makePost` state cell. */
    var makePost: Draft
    /** The `myPosts` state cell. */
    var myPosts: seq<PostItem>
    /** Every body posted to the create endpoint. */
    var published: seq<Draft>
    /** Every id sent to the delete endpoint. */
    var deleteRequests: seq<int>

    constructor (w: Window)
      ensures window == w && user == None && makePost == EMPTY_DRAFT && myPosts == []
      ensures published == [] && deleteRequests == []
    {
      window := w;
      user := None;
      makePost := EMPTY_DRAFT;
      myPosts := [];
      published := [];
      deleteRequests := [];
    }

    /** `getUserProfile`. */
    method GetUserProfile(reply: ProfileReply)
      modifies this
      ensures user == Some(DisplayName(reply))
      ensures makePost == old(makePost) && myPosts == old(myPosts)
      ensures published == old(published) && deleteRequests == old(deleteRequests)
    {
      user := Some(DisplayName(reply));
    }

    /** `getPosts`: a successful fetch replaces the list, a failed one keeps it. */
    method GetPosts(reply: PostsReply)
      modifies this
      ensures myPosts == if reply.Posts? then reply.data else old(myPosts)
      ensures user == old(user) && makePost == old(makePost)
      ensures published == old(published) && deleteRequests == old(deleteRequests)
    {
      if reply.Posts? {
        myPosts := reply.data;
      }
    }

    /** `createPost`: posts the draft; on success refetches the list (whose
        answer is `refetch`) and clears the draft, on failure keeps both. */
    method CreatePost(reply: PublishReply, refetch: PostsReply)
      modifies this
      ensures published == old(published) + [old(makePost)]
      ensures reply.Published? ==>
        && makePost == EMPTY_DRAFT
        && myPosts == (if refetch.Posts? then refetch.data else old(myPosts))
      ensures reply.PublishFailed? ==> makePost == old(makePost) && myPosts == old(myPosts)
      ensures user == old(user) && deleteRequests == old(deleteRequests)
    {
      published := published + [makePost];
      if reply.Published? {
        GetPosts(refetch);
        makePost := EMPTY_DRAFT;
      }
    }

    /** `handleLogout`: empties localStorage, then goes to "/login". */
    method HandleLogout()
      modifies window
      ensures window.storage == map[]
      ensures window.visits == old(window.visits) + [Visit("/login", map[])]
      ensures window.alerts == old(window.alerts)
    {
      window.Clear();
      window.Navigate("/login");
    }

    /** `deletePost`: nothing without confirmation; otherwise one delete
        request, and only a 204 answer removes the posts with that id. */
    method DeletePost(id: int, confirmed: bool, reply: DeleteReply)
      modifies this
      ensures deleteRequests == old(deleteRequests) + if confirmed then [id] else []
      ensures myPosts == if confirmed && reply == Status(204) then RemoveById(old(myPosts), id) else old(myPosts)
      ensures user == old(user) && makePost == old(makePost) && published == old(published)
    {
      if confirmed {
        deleteRequests := deleteRequests + [id];
        if reply.Status? && reply.code == 204 {
          myPosts := RemoveById(myPosts, id);
        }
      }
    }

    /** The avatar letter for the current `user`. */
    function Initial(): (initial: string)
      reads this
      ensures |initial| == 1
      ensures initial == "?" <==> !Truthy(user) || ToUpper(user.value[0]) == '?'
    {
      UserInitial(user)
    }
  }

  /** Once the profile request has settled the avatar shows a letter of the
      name, never the placeholder, unless the name itself begins with "?". */
  lemma InitialAfterProfile(reply: ProfileReply)
    ensures DisplayName(reply)[0] != '?' ==> UserInitial(Some(DisplayName(reply))) != "?"
    ensures UserInitial(Some(DisplayName(reply))) == [ToUpper(DisplayName(reply)[0])]
  {
  }
}
