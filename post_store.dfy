/**
 * The post list store (data/stores/posts/usePostStore.ts): the list of posts,
 * the selected post and the edit-mode flag. Each action computes its new list
 * with a pure expression (spread, `map`, `filter`), given here as functions,
 * and then overwrites the store's fields.
 */
module Posts {
  import opened Wrappers

  /** `PostInterface`; only `id` takes part in the store's logic. */
  datatype Post = Post(id: int, title: string, body: string, tags: seq<string>,
                       likes: int, dislikes: int, views: int, userId: int)

  /** How many posts in `s` carry `id`. */
  function CountId(s: seq<Post>, id: int): (n: nat)
    ensures n <= |s|
    ensures n == 0 <==> forall i :: 0 <= i < |s| ==> s[i].id != id
  {
    if s == [] then 0 else (if s[0].id == id then 1 else 0) + CountId(s[1..], id)
  }

  /** `posts.map(p => p.id === id ? post : p)`. */
  function ReplaceById(s: seq<Post>, id: int, p: Post): (r: seq<Post>)
    ensures |r| == |s|
    ensures forall i :: 0 <= i < |s| ==> r[i] == (if s[i].id == id then p else s[i])
  {
    if s == [] then [] else [if s[0].id == id then p else s[0]] + ReplaceById(s[1..], id, p)
  }

  /** `posts.filter(p => p.id !== id)`. */
  function RemoveById(s: seq<Post>, id: int): (r: seq<Post>)
    ensures |r| == |s| - CountId(s, id)
    ensures forall x :: x in r <==> x in s && x.id != id
    ensures CountId(s, id) == 0 ==> r == s
  {
    if s == [] then [] else (if s[0].id == id then [] else [s[0]]) + RemoveById(s[1..], id)
  }

  /** Filtering distributes over concatenation, so the survivors keep their relative order. */
  lemma {:induction false} RemoveByIdAppend(a: seq<Post>, b: seq<Post>, id: int)
    ensures RemoveById(a + b, id) == RemoveById(a, id) + RemoveById(b, id)
  {
    if a == [] {
      assert a + b == b;
    } else {
      assert (a + b)[1..] == a[1..] + b;
      RemoveByIdAppend(a[1..], b, id);
    }
  }

  /** Deleting twice is deleting once. */
  lemma RemoveByIdIdempotent(s: seq<Post>, id: int)
    ensures RemoveById(RemoveById(s, id), id) == RemoveById(s, id)
  {
  }

  /** Replacing twice with the same post is replacing once (the replacement either matches again or no longer matches). */
  lemma ReplaceByIdIdempotent(s: seq<Post>, id: int, p: Post)
    ensures ReplaceById(ReplaceById(s, id, p), id, p) == ReplaceById(s, id, p)
  {
  }

  /** When the replacement keeps the id, deleting that id afterwards forgets the update. */
  lemma {:induction false} RemoveAfterReplace(s: seq<Post>, id: int, p: Post)
    requires p.id == id
    ensures RemoveById(ReplaceById(s, id, p), id) == RemoveById(s, id)
  {
    if s != [] {
      var r := ReplaceById(s, id, p);
      assert r == [r[0]] + ReplaceById(s[1..], id, p);
      assert r[1..] == ReplaceById(s[1..], id, p);
      RemoveAfterReplace(s[1..], id, p);
    }
  }

  class PostStore {
    /** The post being acted on, edited or selected. */
    var post: Option<Post>
    var posts: seq<Post>
    var isEdit: bool

    /** Initial state (lines 20-22). */
    constructor ()
      ensures post == None && posts == [] && !isEdit
    {
      post := None;
      posts := [];
      isEdit := false;
    }

    /** `addPost`: the new post goes to the front. */
    method AddPost(p: Post)
      modifies this
      ensures posts == [p] + old(posts)
      ensures |posts| == |old(posts)| + 1 && posts[0] == p && posts[1..] == old(posts)
      ensures post == old(post) && isEdit == old(isEdit)
    {
      posts := [p] + posts;
    }

    /** `setPost`. */
    method SetPost(p: Post)
      modifies this`post
      ensures post == Some(p)
    {
      post := Some(p);
    }

    /** `setPosts`. */
    method SetPosts(s: seq<Post>)
      modifies this`posts
      ensures posts == s
    {
      posts := s;
    }

    /** `toggleEdit`: edit mode exactly when a post with a truthy (non-zero) id is given. */
    method ToggleEdit(p: Option<Post>)
      modifies this`post, this`isEdit
      ensures post == p
      ensures isEdit <==> p.Some? && p.value.id != 0
    {
      isEdit := p.Some? && p.value.id != 0;
      post := p;
    }

    /** `updatePost`: replace by id, then reset the selection and edit mode. */
    method UpdatePost(id: int, p: Post)
      modifies this
      ensures posts == ReplaceById(old(posts), id, p)
      ensures post == None && !isEdit
    {
      posts := ReplaceById(posts, id, p);
      post := None;
      isEdit := false;
    }

    /** `deletePost`: remove by id, then reset the selection and edit mode. */
    method DeletePost(id: int)
      modifies this
      ensures posts == RemoveById(old(posts), id)
      ensures post == None && !isEdit
    {
      posts := RemoveById(posts, id);
      post := None;
      isEdit := false;
    }
  }
}
