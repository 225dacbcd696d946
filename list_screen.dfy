/**
 * The post list: the entries fetched from the space, a refresh that
 * replaces them, and a delete that asks for confirmation in a dialog,
 * removes the post from the list in place and shows a snackbar.
 * `fetchEntries` and `deleteEntry` are calls whose outcome is passed in.
 */
module ListScreen {
  import opened Wrappers

  /** An entry as listed: its `sys.id` and its `fields.shortDescription`,
      a localized object that may be missing. */
  datatype Post = Post(id: string, shortDescription: Option<map<string, string>>)

  datatype Status = Loading | PostsLoaded | DeletePending | Deleted

  const NoTitle := "No Title"

  // ------------------------------------------------ findIndex and splice

  /** `posts.findIndex(post => post.sys.id === id)`: the first position
      holding the id, or -1 when no post has it. */
  function FindIndex(posts: seq<Post>, id: string): (k: int)
    ensures -1 <= k < |posts|
    ensures k == -1 <==> forall i :: 0 <= i < |posts| ==> posts[i].id != id
    ensures k >= 0 ==> posts[k].id == id && forall i :: 0 <= i < k ==> posts[i].id != id
    decreases |posts|
  {
    if |posts| == 0 then -1
    else if posts[0].id == id then 0
    else
      var k := FindIndex(posts[1..], id);
      if k == -1 then -1 else k + 1
  }

  /** `a.splice(start, 1)`, as the array left behind: a negative start
      counts back from the end (and is clamped to 0), a start past the end
      is clamped to the length, and at most one element is removed. */
  function SpliceOne<T>(a: seq<T>, start: int): seq<T>
  {
    var from := if start < 0 then (if |a| + start < 0 then 0 else |a| + start)
                else (if start > |a| then |a| else start);
    var count := if |a| - from < 1 then |a| - from else 1;
    a[..from] + a[from + count..]
  }

  /** What `removePostFromList(id)` leaves in `posts`. */
  function RemoveById(posts: seq<Post>, id: string): seq<Post>
  {
    SpliceOne(posts, FindIndex(posts, id))
  }

  /** When the id occurs, exactly its first occurrence is removed: the
      list is one shorter, the posts before and after it keep their order,
      and the removed post is the only one gone. */
  lemma RemoveFound(posts: seq<Post>, id: string, i: int)
    requires 0 <= i < |posts| && posts[i].id == id
    ensures var k := FindIndex(posts, id);
      && 0 <= k <= i && posts[k].id == id
      && (forall j :: 0 <= j < k ==> posts[j].id != id)
      && RemoveById(posts, id) == posts[..k] + posts[k + 1..]
      && |RemoveById(posts, id)| == |posts| - 1
      && multiset(RemoveById(posts, id)) + multiset{posts[k]} == multiset(posts)
  {
    var k := FindIndex(posts, id);
    assert posts == posts[..k] + [posts[k]] + posts[k + 1..];
  }

  /** When no post has the id, findIndex gives -1 and the splice removes
      the last post; an empty list stays empty. */
  lemma RemoveMissing(posts: seq<Post>, id: string)
    requires forall i :: 0 <= i < |posts| ==> posts[i].id != id
    ensures posts == [] ==> RemoveById(posts, id) == []
    ensures posts != [] ==> RemoveById(posts, id) == posts[..|posts| - 1]
  {
    assert FindIndex(posts, id) == -1;
  }

  // --------------------------------------------------------------- titles

  /** The title a post is listed under: "No Title" when it has no short
      description; otherwise its en-US text, which is undefined (None)
      when the object lacks that locale. An empty text is still used,
      because the object itself is truthy. */
  function Title(post: Post): (t: Option<string>)
    ensures post.shortDescription.None? ==> t == Some(NoTitle)
    ensures post.shortDescription.Some? ==>
      t == (if "en-US" in post.shortDescription.value
            then Some(post.shortDescription.value["en-US"]) else None)
  {
    match post.shortDescription
    case None => Some(NoTitle)
    case Some(localized) => if "en-US" in localized then Some(localized["en-US"]) else None
  }

  function Titles(posts: seq<Post>): (titles: seq<Option<string>>)
    ensures |titles| == |posts|
    ensures forall i :: 0 <= i < |posts| ==> titles[i] == Title(posts[i])
    decreases |posts|
  {
    if posts == [] then [] else [Title(posts[0])] + Titles(posts[1..])
  }

  // ---------------------------------------------------------- the screen

  class PostList {
    var status: Status
    var posts: seq<Post>
    var selectedPost: Option<Post>

    /** The dialog reads the selected post, so one is set whenever the
        dialog is open. */
    predicate Valid()
      reads this
    {
      status == DeletePending ==> selectedPost.Some?
    }

    constructor()
      ensures status == Loading && posts == [] && selectedPost == None
      ensures Valid()
    {
      status := Loading;
      posts := [];
      selectedPost := None;
    }

    /** The mount effect: the fetched items replace the list and the status
        becomes POSTS_LOADED. A failed fetch rejects the promise and changes
        nothing. */
    method FetchAllPosts(fetched: Option<seq<Post>>)
      requires Valid()
      modifies this`posts, this`status
      ensures fetched.Some? ==> posts == fetched.value && status == PostsLoaded
      ensures fetched.None? ==> posts == old(posts) && status == old(status)
      ensures Valid()
    {
      if fetched.Some? {
        posts := fetched.value;
        status := PostsLoaded;
      }
    }

    /** Pull to refresh: LOADING first, then, once the fetch answers, the
        fetched items and POSTS_LOADED. A failed fetch leaves the status at
        LOADING, so the list stays hidden. */
    method OnRefresh(fetched: Option<seq<Post>>)
      requires Valid()
      modifies this`posts, this`status
      ensures fetched.Some? ==> posts == fetched.value && status == PostsLoaded
      ensures fetched.None? ==> posts == old(posts) && status == Loading
      ensures Valid()
    {
      status := Loading;
      if fetched.Some? {
        posts := fetched.value;
        status := PostsLoaded;
      }
    }

    /** A post's Delete button: select it and open the dialog. */
    method PressDelete(post: Post)
      modifies this`selectedPost, this`status
      ensures selectedPost == Some(post) && status == DeletePending
      ensures Valid()
    {
      selectedPost := Some(post);
      status := DeletePending;
    }

    /** The dialog's Cancel button. */
    method CancelDelete()
      requires Valid()
      modifies this`status
      ensures status == PostsLoaded
      ensures Valid()
    {
      status := PostsLoaded;
    }

    /** Tapping outside the dialog. */
    method DismissDialog()
      requires Valid()
      modifies this`status
      ensures status == PostsLoaded
      ensures Valid()
    {
      status := PostsLoaded;
    }

    /** The snackbar closing after a delete. */
    method DismissSnackbar()
      requires Valid()
      modifies this`status
      ensures status == PostsLoaded
      ensures Valid()
    {
      status := PostsLoaded;
    }

    /** `removePostFromList`: the splice at the found index, in place. */
    method RemovePostFromList(id: string)
      requires Valid()
      modifies this`posts
      ensures posts == RemoveById(old(posts), id)
      ensures Valid()
    {
      var index := FindIndex(posts, id);
      posts := SpliceOne(posts, index);
    }

    /** `handleDelete`: when the server call succeeds the post is removed
        and the status becomes DELETED; when it throws, the error is logged
        and neither the list nor the status changes. */
    method HandleDelete(id: string, deleted: bool)
      requires Valid()
      modifies this`posts, this`status
      ensures deleted ==> posts == RemoveById(old(posts), id) && status == Deleted
      ensures !deleted ==> posts == old(posts) && status == old(status)
      ensures Valid()
    {
      if deleted {
        RemovePostFromList(id);
        status := Deleted;
      }
    }

    /** The dialog's Delete button, which deletes the selected post. */
    method ConfirmDelete(deleted: bool)
      requires Valid() && status == DeletePending
      modifies this`posts, this`status
      ensures deleted ==> posts == RemoveById(old(posts), old(selectedPost).value.id) && status == Deleted
      ensures !deleted ==> posts == old(posts) && status == DeletePending
      ensures Valid()
    {
      HandleDelete(selectedPost.value.id, deleted);
    }

    /** The list as rendered: nothing while LOADING, otherwise one title
        per post in list order. */
    function VisibleTitles(): (titles: seq<Option<string>>)
      reads this
      ensures status == Loading ==> titles == []
      ensures status != Loading ==>
        |titles| == |posts| && forall i :: 0 <= i < |posts| ==> titles[i] == Title(posts[i])
    {
      if status == Loading then [] else Titles(posts)
    }
  }

  /** A delete confirmed in the dialog that the server accepts removes the
      selected post from a list holding it and shows the snackbar, whose
      dismissal brings the list back. */
  method DeleteScenario(posts: seq<Post>, i: int) returns (after: seq<Post>, shown: seq<Status>)
    requires 0 <= i < |posts|
    ensures |after| == |posts| - 1
    ensures shown == [DeletePending, Deleted, PostsLoaded]
  {
    var screen := new PostList();
    screen.FetchAllPosts(Some(posts));
    screen.PressDelete(posts[i]);
    var s1 := screen.status;
    screen.ConfirmDelete(true);
    var s2 := screen.status;
    RemoveFound(posts, posts[i].id, i);
    after := screen.posts;
    screen.DismissSnackbar();
    shown := [s1, s2, screen.status];
  }
}
