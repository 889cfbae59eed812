/** The post handlers of controllers/post.js: creation, lookup, deletion, the
    like toggle and the three comment operations. The store maps a post's id
    to its document. */
module Posts {
  import opened Common
  import opened PostModel

  /** The like toggle: if `user` has any like entry, all of them are removed;
      otherwise one entry is appended. */
  function ToggleLike(likes: seq<UserId>, user: UserId): (r: seq<UserId>)
    ensures user in likes ==> user !in r && IsSubsequence(r, likes)
    ensures user in likes ==> forall y :: y != user ==> Count(r, y) == Count(likes, y)
    ensures user !in likes ==> |r| == |likes| + 1 && r[..|likes|] == likes && r[|likes|] == user
    ensures Count(r, user) <= 1
  {
    if user in likes then RemoveAll(likes, user)
    else
      CountAppend(likes, user, user);
      likes + [user]
  }

  /** The message `likePost` reports, decided before the toggle. */
  function LikeMessage(likes: seq<UserId>, user: UserId): (m: string)
    ensures m == "Post Disliked" <==> user in likes
    ensures m == "Post Liked" <==> user !in likes
  {
    if user in likes then "Post Disliked" else "Post Liked"
  }

  /** Toggling twice from a list the user has not liked gives the list back,
      reporting "Post Liked" and then "Post Disliked". */
  lemma {:induction false} ToggleTwiceRestores(likes: seq<UserId>, user: UserId)
    requires user !in likes
    ensures ToggleLike(ToggleLike(likes, user), user) == likes
    ensures LikeMessage(likes, user) == "Post Liked"
    ensures LikeMessage(ToggleLike(likes, user), user) == "Post Disliked"
  {
    RemoveAllAppended(likes, user);
  }

  /** If every user has at most one like entry, a toggle keeps it so. */
  lemma {:induction false} ToggleKeepsLikesUnique(likes: seq<UserId>, user: UserId)
    requires forall y :: Count(likes, y) <= 1
    ensures forall y :: Count(ToggleLike(likes, user), y) <= 1
  {
    if user !in likes {
      forall y
        ensures Count(likes + [user], y) <= 1
      {
        CountAppend(likes, user, y);
      }
    }
  }

  /** `comments.filter(c => c._id != commentId)`: exactly the comments with
      that id go, the others keep their order. */
  function RemoveComments(cs: seq<Comment>, commentId: CommentId): (r: seq<Comment>)
    ensures forall c: Comment :: c in r <==> c in cs && c.id != commentId
    ensures forall c: Comment :: c.id != commentId ==> Count(r, c) == Count(cs, c)
    ensures IsSubsequence(r, cs)
    ensures (forall c :: c in cs ==> c.id != commentId) ==> r == cs
  {
    if cs == [] then []
    else if cs[0].id == commentId then RemoveComments(cs[1..], commentId)
    else [cs[0]] + RemoveComments(cs[1..], commentId)
  }

  /** `comments.map(...)` setting `text` on the comments with that id: length,
      order, ids, authors and dates stay; only matching texts change. */
  function SetCommentText(cs: seq<Comment>, commentId: CommentId, text: string): (r: seq<Comment>)
    ensures |r| == |cs|
    ensures forall i :: 0 <= i < |cs| ==>
              r[i].id == cs[i].id && r[i].user == cs[i].user && r[i].date == cs[i].date
    ensures forall i :: 0 <= i < |cs| ==> r[i].text == if cs[i].id == commentId then text else cs[i].text
  {
    if cs == [] then []
    else [if cs[0].id == commentId then cs[0].(text := text) else cs[0]]
         + SetCommentText(cs[1..], commentId, text)
  }

  /** An id no comment carries leaves the list as it is. */
  lemma {:induction false} SetCommentTextAbsentId(cs: seq<Comment>, commentId: CommentId, text: string)
    requires forall c :: c in cs ==> c.id != commentId
    ensures SetCommentText(cs, commentId, text) == cs
  {
    var r := SetCommentText(cs, commentId, text);
    forall i | 0 <= i < |cs|
      ensures r[i] == cs[i]
    {
      assert cs[i] in cs;
    }
  }

  class PostStore {
    var posts: map<PostId, Post>
    /** The `date` default of every comment, fixed when the schema is built. */
    const commentDate: int

    constructor (schemaDate: int)
      ensures posts == map[] && commentDate == schemaDate
    {
      posts := map[];
      commentDate := schemaDate;
    }

    /** `addPost`: rejects a post with neither media nor caption. That path
        hands a plain string to `next`, which the error handler answers
        with 500. Otherwise `Post.create` stores the post under a fresh id. */
    method AddPost(user: UserId, mediaUrl: string, caption: string, visibility: Option<string>,
                   newId: PostId, now: int) returns (r: Result<Post>)
      requires newId !in posts
      modifies this
      ensures mediaUrl == "" && caption == "" ==> r == Err(Fault)
      ensures (mediaUrl != "" || caption != "") && NewPost(user, mediaUrl, caption, visibility, now).None? ==>
        r == Err(Fault)
      ensures r.Err? ==> posts == old(posts)
      ensures r.Ok? <==> (mediaUrl != "" || caption != "") && NewPost(user, mediaUrl, caption, visibility, now).Some?
      ensures r.Ok? ==> r == Ok(NewPost(user, mediaUrl, caption, visibility, now).value) &&
                        posts == old(posts)[newId := r.value]
    {
      if mediaUrl == "" && caption == "" {
        return Err(Fault);
      }
      var post := NewPost(user, mediaUrl, caption, visibility, now);
      if post.None? {
        return Err(Fault);
      }
      posts := posts[newId := post.value];
      r := Ok(post.value);
    }

    /** `getAllPosts`: every stored post under its id, private and disabled
        ones included. */
    method GetAllPosts() returns (message: string, r: map<PostId, Post>)
      ensures r.Keys == posts.Keys
      ensures forall id :: id in r ==> r[id] == posts[id]
      ensures message == (if |posts| > 0 then "Posts Found" else "No Posts Found")
    {
      r := posts;
      message := if |r| > 0 then "Posts Found" else "No Posts Found";
    }

    /** `getOnePost`. */
    method GetOnePost(postId: PostId) returns (r: Result<Post>)
      ensures postId !in posts ==> r == Err(Error(BadRequest, "No such post found"))
      ensures postId in posts ==> r == Ok(posts[postId])
    {
      if postId !in posts {
        return Err(Error(BadRequest, "No such post found"));
      }
      r := Ok(posts[postId]);
    }

    /** `deletePost`: any caller may delete any post. */
    method DeletePost(postId: PostId) returns (r: Result<Post>)
      modifies this
      ensures postId !in old(posts) ==> r == Err(Error(BadRequest, "No such post found")) && posts == old(posts)
      ensures postId in old(posts) ==> r == Ok(old(posts)[postId]) && posts == old(posts) - {postId}
    {
      if postId !in posts {
        return Err(Error(BadRequest, "No such post found"));
      }
      r := Ok(posts[postId]);
      posts := posts - {postId};
    }

    /** `likePost`. The likes are loaded with their users populated; a like
        whose user document no longer exists (`liveUsers` are those that do)
        populates to null, and reading its `_id` throws. */
    method LikePost(user: UserId, postId: PostId, liveUsers: set<UserId>) returns (r: Result<string>)
      modifies this
      ensures postId !in old(posts) ==> r == Err(Error(BadRequest, "No such post found"))
      ensures postId in old(posts) && (exists l :: l in old(posts)[postId].likes && l !in liveUsers) ==>
        r == Err(Fault)
      ensures r.Err? ==> posts == old(posts)
      ensures r.Ok? <==> postId in old(posts) && forall l :: l in old(posts)[postId].likes ==> l in liveUsers
      ensures r.Ok? ==>
        var post := old(posts)[postId];
        r.value == LikeMessage(post.likes, user) &&
        posts == old(posts)[postId := post.(likes := ToggleLike(post.likes, user))]
    {
      if postId !in posts {
        return Err(Error(BadRequest, "No such post found"));
      }
      var post := posts[postId];
      if exists l :: l in post.likes && l !in liveUsers {
        return Err(Fault);
      }
      r := Ok(LikeMessage(post.likes, user));
      post := post.(likes := ToggleLike(post.likes, user));
      posts := posts[postId := post];
    }

    /** `addComment`: the text is checked before the post is looked up. The
        new comment gets a fresh id and the schema's fixed date. */
    method AddComment(user: UserId, postId: PostId, text: string, newCommentId: CommentId)
      returns (r: Result<Post>)
      requires postId in posts ==> forall c :: c in posts[postId].comments ==> c.id != newCommentId
      modifies this
      ensures text == "" ==> r == Err(Error(BadRequest, "Please pass text to add a comment"))
      ensures text != "" && postId !in old(posts) ==> r == Err(Error(BadRequest, "No such post found"))
      ensures r.Err? ==> posts == old(posts)
      ensures r.Ok? <==> text != "" && postId in old(posts)
      ensures r.Ok? ==>
        var post := old(posts)[postId];
        r.value == post.(comments := post.comments + [Comment(newCommentId, user, text, commentDate)]) &&
        posts == old(posts)[postId := r.value]
    {
      if text == "" {
        return Err(Error(BadRequest, "Please pass text to add a comment"));
      }
      if postId !in posts {
        return Err(Error(BadRequest, "No such post found"));
      }
      var post := posts[postId];
      post := post.(comments := post.comments + [Comment(newCommentId, user, text, commentDate)]);
      posts := posts[postId := post];
      r := Ok(post);
    }

    /** `removeComment`: no author check; an id that matches nothing leaves
        the post as it was and still succeeds. */
    method RemoveComment(user: UserId, postId: PostId, commentId: CommentId) returns (r: Result<Post>)
      modifies this
      ensures postId !in old(posts) ==> r == Err(Error(BadRequest, "Post does not exist")) && posts == old(posts)
      ensures postId in old(posts) ==>
        var post := old(posts)[postId];
        r == Ok(post.(comments := RemoveComments(post.comments, commentId))) &&
        posts == old(posts)[postId := r.value]
    {
      if postId !in posts {
        return Err(Error(BadRequest, "Post does not exist"));
      }
      var post := posts[postId];
      post := post.(comments := RemoveComments(post.comments, commentId));
      posts := posts[postId := post];
      r := Ok(post);
    }

    /** `updateComment`: no author check and no check on the new text; an id
        that matches nothing leaves the post as it was and still succeeds. */
    method UpdateComment(user: UserId, postId: PostId, commentId: CommentId, text: string)
      returns (r: Result<Post>)
      modifies this
      ensures postId !in old(posts) ==> r == Err(Error(BadRequest, "Post doesn't exist")) && posts == old(posts)
      ensures postId in old(posts) ==>
        var post := old(posts)[postId];
        r == Ok(post.(comments := SetCommentText(post.comments, commentId, text))) &&
        posts == old(posts)[postId := r.value]
    {
      if postId !in posts {
        return Err(Error(BadRequest, "Post doesn't exist"));
      }
      var post := posts[postId];
      post := post.(comments := SetCommentText(post.comments, commentId, text));
      posts := posts[postId := post];
      r := Ok(post);
    }
  }
}
