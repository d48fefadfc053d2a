/** The client's posts slice: the global feed, the viewed profile's posts,
    and the request flags, with one transition per reducer case. */
module PostSlice {
  import opened Identity
  import opened PostSchema

  /** `list.filter(post => post._id !== id)`. */
  function RemoveById(list: seq<PostView>, id: Id): (r: seq<PostView>)
    ensures forall p :: p in r <==> p in list && p.id != id
    ensures |r| <= |list|
  {
    if list == [] then []
    else (if list[0].id == id then [] else [list[0]]) + RemoveById(list[1..], id)
  }

  /** The filter keeps the rest in order: it distributes over concatenation. */
  lemma {:induction false} RemoveByIdConcat(a: seq<PostView>, b: seq<PostView>, id: Id)
    ensures RemoveById(a + b, id) == RemoveById(a, id) + RemoveById(b, id)
  {
    if a == [] {
      assert a + b == b;
    } else {
      assert (a + b)[0] == a[0];
      assert (a + b)[1..] == a[1..] + b;
      RemoveByIdConcat(a[1..], b, id);
    }
  }

  /** A list without that id is left exactly as it is. */
  lemma {:induction false} RemoveByIdAbsent(list: seq<PostView>, id: Id)
    requires forall i | 0 <= i < |list| :: list[i].id != id
    ensures RemoveById(list, id) == list
  {
    if list != [] {
      RemoveByIdAbsent(list[1..], id);
      assert list == [list[0]] + list[1..];
    }
  }

  /** `list.map(post => post._id === id ? { ...post, likes } : post)`:
      the same positions, with the likes replaced where the id matches and
      every other entry, and every other field, as it was. */
  function WithLikes(list: seq<PostView>, id: Id, likes: seq<Id>): (r: seq<PostView>)
    ensures |r| == |list|
    ensures forall i | 0 <= i < |list| ::
      && r[i].id == list[i].id && r[i].content == list[i].content
      && r[i].author == list[i].author && r[i].createdAt == list[i].createdAt
      && r[i].likes == (if list[i].id == id then likes else list[i].likes)
  {
    if list == [] then []
    else
      var head := if list[0].id == id then list[0].(likes := likes) else list[0];
      var tail := WithLikes(list[1..], id, likes);
      assert forall i | 1 <= i < |list| :: ([head] + tail)[i] == tail[i - 1];
      [head] + tail
  }

  /** Every entry with post `id` in a list carries `likes`. */
  predicate LikesAgree(list: seq<PostView>, id: Id, likes: seq<Id>) {
    forall i | 0 <= i < |list| && list[i].id == id :: list[i].likes == likes
  }

  /** Replacing the likes twice for the same post keeps only the second. */
  lemma {:induction false} WithLikesLastWins(list: seq<PostView>, id: Id, first: seq<Id>, second: seq<Id>)
    ensures WithLikes(WithLikes(list, id, first), id, second) == WithLikes(list, id, second)
  {
    if list != [] {
      WithLikesLastWins(list[1..], id, first, second);
    }
  }

  class PostState {
    var posts: seq<PostView>
    var userPosts: seq<PostView>
    var isError: bool
    var isSuccess: bool
    var isLoading: bool
    var message: string

    /** The initial state: both lists empty, no flag set. */
    constructor ()
      ensures posts == [] && userPosts == []
      ensures !isError && !isSuccess && !isLoading && message == ""
    {
      posts, userPosts := [], [];
      isError, isSuccess, isLoading := false, false, false;
      message := "";
    }

    /** `reset`: the flags and the message cleared, both lists kept. */
    method Reset()
      modifies this`isLoading, this`isSuccess, this`isError, this`message
      ensures !isLoading && !isSuccess && !isError && message == ""
    {
      isLoading := false;
      isSuccess := false;
      isError := false;
      message := "";
    }

    /** `createPost.pending`, `getPosts.pending`, `getUserPosts.pending`. */
    method Pending()
      modifies this`isLoading
      ensures isLoading
    {
      isLoading := true;
    }

    /** `createPost.rejected`, `getPosts.rejected`, `getUserPosts.rejected`:
        both lists stay as they were. */
    method Rejected(payload: string)
      modifies this`isLoading, this`isError, this`message
      ensures !isLoading && isError && message == payload
    {
      isLoading := false;
      isError := true;
      message := payload;
    }

    /** `createPost.fulfilled`: the new post in front of the feed; the
        profile's list is left alone even when it is the author's. */
    method CreateFulfilled(payload: PostView)
      modifies this`isLoading, this`isSuccess, this`posts
      ensures !isLoading && isSuccess
      ensures posts == [payload] + old(posts)
    {
      isLoading := false;
      isSuccess := true;
      posts := [payload] + posts;
    }

    /** `getPosts.fulfilled`: the feed replaced by the response. */
    method GetPostsFulfilled(payload: seq<PostView>)
      modifies this`isLoading, this`isSuccess, this`posts
      ensures !isLoading && isSuccess
      ensures posts == payload
    {
      isLoading := false;
      isSuccess := true;
      posts := payload;
    }

    /** `getUserPosts.fulfilled`: the profile's list replaced by the response. */
    method GetUserPostsFulfilled(payload: seq<PostView>)
      modifies this`isLoading, this`isSuccess, this`userPosts
      ensures !isLoading && isSuccess
      ensures userPosts == payload
    {
      isLoading := false;
      isSuccess := true;
      userPosts := payload;
    }

    /** `deletePost.fulfilled`: the post removed from both lists, the rest in
        order; the flags are not touched. */
    method DeleteFulfilled(postId: Id)
      modifies this`posts, this`userPosts
      ensures posts == RemoveById(old(posts), postId)
      ensures userPosts == RemoveById(old(userPosts), postId)
      ensures forall i | 0 <= i < |posts| :: posts[i].id != postId
      ensures forall i | 0 <= i < |userPosts| :: userPosts[i].id != postId
    {
      posts := RemoveById(posts, postId);
      userPosts := RemoveById(userPosts, postId);
    }

    /** `likePost.fulfilled` and `unlikePost.fulfilled` (the same reducer):
        the likes of that post replaced in both lists, after which both
        lists agree on them. */
    method LikesFulfilled(postId: Id, likes: seq<Id>)
      modifies this`posts, this`userPosts
      ensures posts == WithLikes(old(posts), postId, likes)
      ensures userPosts == WithLikes(old(userPosts), postId, likes)
      ensures LikesAgree(posts, postId, likes) && LikesAgree(userPosts, postId, likes)
    {
      posts := WithLikes(posts, postId, likes);
      userPosts := WithLikes(userPosts, postId, likes);
    }
  }
}
