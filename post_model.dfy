/** The post document of models/post.js: its fields, the `visibility` enum
    with its default, and the defaults a freshly created post receives. */
module PostModel {
  import opened Common

  datatype Visibility = Private | Public

  function VisibilityName(v: Visibility): string
  {
    match v
    case Private => "private"
    case Public => "public"
  }

  /** The enum validator on `visibility`: only "private" and "public" are
      accepted. */
  function ParseVisibility(s: string): (r: Option<Visibility>)
    ensures r.Some? <==> s == "private" || s == "public"
    ensures r.Some? ==> VisibilityName(r.value) == s
  {
    if s == "private" then Some(Private)
    else if s == "public" then Some(Public)
    else None
  }

  /** One entry of `comments`. Its `date` is the schema's default, a single
      `Date` value computed when the schema is defined. */
  datatype Comment = Comment(id: CommentId, user: UserId, text: string, date: int)

  /** A post document. `likes` holds one user id per like entry; neither list
      carries a uniqueness constraint. The empty string stands for an unset
      `mediaUrl` or `caption`. */
  datatype Post = Post(
    user: UserId,
    mediaUrl: string,
    caption: string,
    likes: seq<UserId>,
    comments: seq<Comment>,
    visibility: Visibility,
    isDisabled: bool,
    createdAt: int)

  /** `Post.create`: applies the schema defaults and validates the enum. An
      absent visibility becomes "public"; a visibility outside the enum makes
      the validation fail, and no post is created. */
  function NewPost(user: UserId, mediaUrl: string, caption: string, visibility: Option<string>, now: int)
    : (r: Option<Post>)
    ensures r.Some? <==> visibility.None? || visibility.value == "private" || visibility.value == "public"
    ensures r.Some? ==> r.value.likes == [] && r.value.comments == [] && !r.value.isDisabled
    ensures r.Some? ==> r.value.user == user && r.value.mediaUrl == mediaUrl && r.value.caption == caption
    ensures r.Some? ==> r.value.createdAt == now
    ensures r.Some? && visibility.None? ==> r.value.visibility == Public
    ensures r.Some? && visibility.Some? ==> VisibilityName(r.value.visibility) == visibility.value
  {
    var v := if visibility.None? then Some(Public) else ParseVisibility(visibility.value);
    if v.None? then None
    else Some(Post(user, mediaUrl, caption, [], [], v.value, false, now))
  }

  /** Every visibility a post can hold is one of the two enum names. */
  lemma VisibilityIsEnumValue(p: Post)
    ensures VisibilityName(p.visibility) == "private" || VisibilityName(p.visibility) == "public"
    ensures ParseVisibility(VisibilityName(p.visibility)) == Some(p.visibility)
  {
  }
}
