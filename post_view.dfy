/**
 * The demonstration feed of src/features/posts/PostView.jsx: posts held in
 * the page's own state, with like, save, comment, comment-like and reply
 * toggles. Every handler computes a new value with `map` and spreads and
 * hands it to a setter, so each one is a function from the old page state to
 * the new one.
 *
 * The page's sample posts all have integer ids and counts; a post keeps the
 * fields no handler touches (author, avatar, image, title, description,
 * hashtags, timestamp) in `details`.
 */
module PostView {
  import opened Js

  datatype Comment = Comment(
    id: int,
    username: string,
    avatar: string,
    text: string,
    likes: int,
    dislikes: int,
    timestamp: string,
    replies: seq<Obj>,
    showReplies: bool)

  datatype Post = Post(
    id: int,
    details: Obj,
    likes: int,
    isLiked: bool,
    isSaved: bool,
    comments: seq<Comment>)

  /** The page state: the posts and the three dictionaries keyed by id. */
  datatype Page = Page(
    posts: seq<Post>,
    commentInputs: map<int, string>,
    replyInputs: map<int, string>,
    showComments: map<int, bool>)

  /** `posts.map(post => post.id === id ? f(post) : post)`. */
  function UpdatePosts(posts: seq<Post>, id: int, f: Post -> Post): (r: seq<Post>)
    ensures |r| == |posts|
    ensures forall i :: 0 <= i < |posts| && posts[i].id != id ==> r[i] == posts[i]
    ensures forall i :: 0 <= i < |posts| && posts[i].id == id ==> r[i] == f(posts[i])
  {
    seq(|posts|, i requires 0 <= i < |posts| => if posts[i].id == id then f(posts[i]) else posts[i])
  }

  /** `comments.map(comment => comment.id === id ? f(comment) : comment)`. */
  function UpdateComments(comments: seq<Comment>, id: int, f: Comment -> Comment): (r: seq<Comment>)
    ensures |r| == |comments|
    ensures forall i :: 0 <= i < |comments| && comments[i].id != id ==> r[i] == comments[i]
    ensures forall i :: 0 <= i < |comments| && comments[i].id == id ==> r[i] == f(comments[i])
  {
    seq(|comments|, i requires 0 <= i < |comments| => if comments[i].id == id then f(comments[i]) else comments[i])
  }

  // ---------------------------------------------------------------------------
  // Post-level handlers

  /** handleLike on one post: flip the flag and move the count towards the new state. */
  function ToggleLike(p: Post): (q: Post)
    ensures q.isLiked == !p.isLiked
    ensures q.likes == if p.isLiked then p.likes - 1 else p.likes + 1
    ensures q.(isLiked := p.isLiked, likes := p.likes) == p
  {
    p.(isLiked := !p.isLiked, likes := if p.isLiked then p.likes - 1 else p.likes + 1)
  }

  /**
   * handleLike: the posts with that id are liked or unliked, their counts
   * moving by one; every other post, and every other field, stays.
   */
  function HandleLike(posts: seq<Post>, id: int): (r: seq<Post>)
    ensures |r| == |posts|
    ensures forall i :: 0 <= i < |posts| && posts[i].id != id ==> r[i] == posts[i]
    ensures forall i :: 0 <= i < |posts| && posts[i].id == id ==>
              && r[i].isLiked == !posts[i].isLiked
              && r[i].likes == (if posts[i].isLiked then posts[i].likes - 1 else posts[i].likes + 1)
              && r[i].(isLiked := posts[i].isLiked, likes := posts[i].likes) == posts[i]
  {
    UpdatePosts(posts, id, ToggleLike)
  }

  /** Liking twice gives back the feed: the flag and the count both return. */
  lemma LikeTwiceRestores(posts: seq<Post>, id: int)
    ensures HandleLike(HandleLike(posts, id), id) == posts
  {
    var once := HandleLike(posts, id);
    var twice := HandleLike(once, id);
    forall i | 0 <= i < |posts|
      ensures twice[i] == posts[i]
    {
      if posts[i].id == id {
        assert twice[i] == ToggleLike(ToggleLike(posts[i]));
      }
    }
  }

  /** handleSave on one post: only the saved flag flips. */
  function ToggleSave(p: Post): (q: Post)
    ensures q.isSaved == !p.isSaved
    ensures q.(isSaved := p.isSaved) == p
  {
    p.(isSaved := !p.isSaved)
  }

  /** handleSave: only the saved flag of the posts with that id flips. */
  function HandleSave(posts: seq<Post>, id: int): (r: seq<Post>)
    ensures |r| == |posts|
    ensures forall i :: 0 <= i < |posts| && posts[i].id != id ==> r[i] == posts[i]
    ensures forall i :: 0 <= i < |posts| && posts[i].id == id ==>
              r[i].isSaved == !posts[i].isSaved && r[i].(isSaved := posts[i].isSaved) == posts[i]
  {
    UpdatePosts(posts, id, ToggleSave)
  }

  /** Saving changes nothing a like depends on: the two handlers commute. */
  lemma SaveAndLikeCommute(posts: seq<Post>, id: int, other: int)
    ensures HandleSave(HandleLike(posts, id), other) == HandleLike(HandleSave(posts, other), id)
  {
    var a := HandleSave(HandleLike(posts, id), other);
    var b := HandleLike(HandleSave(posts, other), id);
    forall i | 0 <= i < |posts|
      ensures a[i] == b[i]
    {
    }
  }

  /** toggleComments: flip that post's entry, a missing entry counting as hidden. */
  function ToggleComments(show: map<int, bool>, id: int): (r: map<int, bool>)
    ensures r.Keys == show.Keys + {id}
    ensures r[id] == !(id in show && show[id])
    ensures forall k :: k in show && k != id ==> r[k] == show[k]
  {
    show[id := !(id in show && show[id])]
  }

  // ---------------------------------------------------------------------------
  // Comments

  /** handleCommentChange: store the text typed under one post. */
  function HandleCommentChange(inputs: map<int, string>, id: int, value: string): (r: map<int, string>)
    ensures r.Keys == inputs.Keys + {id} && r[id] == value
    ensures forall k :: k in inputs && k != id ==> r[k] == inputs[k]
  {
    inputs[id := value]
  }

  /** The comment handleAddComment appends: the text as typed, no likes or dislikes, no replies. */
  function NewComment(id: int, text: string): (c: Comment)
    ensures c.id == id && c.text == text
    ensures c.likes == 0 && c.dislikes == 0 && c.replies == [] && c.showReplies
    ensures c.username == "CurrentUser" && c.timestamp == "Just now"
  {
    Comment(id, "CurrentUser", "https://picsum.photos/seed/currentuser/200/200", text, 0, 0, "Just now", [], true)
  }

  /**
   * handleAddComment: nothing happens unless the post's input holds
   * non-blank text; then a comment with the text as typed (not trimmed) is
   * appended to that post and the input is emptied. `now` stands for
   * `Date.now()`, the new comment's id.
   */
  function HandleAddComment(page: Page, postId: int, now: int): (r: Page)
    ensures postId !in page.commentInputs || Trim(page.commentInputs[postId]) == "" ==> r == page
    ensures postId in page.commentInputs && Trim(page.commentInputs[postId]) != "" ==>
              var text := page.commentInputs[postId];
              && r.replyInputs == page.replyInputs && r.showComments == page.showComments
              && r.commentInputs == page.commentInputs[postId := ""]
              && |r.posts| == |page.posts|
              && (forall i :: 0 <= i < |page.posts| && page.posts[i].id != postId ==> r.posts[i] == page.posts[i])
              && (forall i :: 0 <= i < |page.posts| && page.posts[i].id == postId ==>
                    r.posts[i] == page.posts[i].(comments := page.posts[i].comments + [NewComment(now, text)]))
  {
    if postId !in page.commentInputs then page
    else
      var text := page.commentInputs[postId];
      if text == "" || Trim(text) == "" then page
      else
        page.(posts := UpdatePosts(page.posts, postId, (p: Post) => p.(comments := p.comments + [NewComment(now, text)])),
              commentInputs := page.commentInputs[postId := ""])
  }

  /** handleCommentLike on one comment: "like" adds a like, any other kind a dislike. */
  function Rate(c: Comment, kind: string): (d: Comment)
    ensures kind == "like" ==> d == c.(likes := c.likes + 1)
    ensures kind != "like" ==> d == c.(dislikes := c.dislikes + 1)
  {
    if kind == "like" then c.(likes := c.likes + 1) else c.(dislikes := c.dislikes + 1)
  }

  function HandleCommentLike(posts: seq<Post>, postId: int, commentId: int, kind: string): (r: seq<Post>)
    ensures |r| == |posts|
    ensures forall i :: 0 <= i < |posts| && posts[i].id != postId ==> r[i] == posts[i]
  {
    UpdatePosts(posts, postId, (p: Post) => p.(comments := UpdateComments(p.comments, commentId, (c: Comment) => Rate(c, kind))))
  }

  /**
   * A rating touches one count of the matching comments under the matching
   * posts; every other comment and every other field stays.
   */
  lemma CommentLikeTouchesOneCount(posts: seq<Post>, postId: int, commentId: int, kind: string, i: nat, j: nat)
    requires i < |posts| && posts[i].id == postId && j < |posts[i].comments|
    ensures var r := HandleCommentLike(posts, postId, commentId, kind);
            var c := posts[i].comments[j];
            && |r[i].comments| == |posts[i].comments|
            && r[i].(comments := posts[i].comments) == posts[i]
            && r[i].comments[j] == (if c.id != commentId then c
                                    else if kind == "like" then c.(likes := c.likes + 1)
                                    else c.(dislikes := c.dislikes + 1))
  {
  }

  /** toggleReplies on one comment: only showReplies flips. */
  function HandleToggleReplies(posts: seq<Post>, postId: int, commentId: int): (r: seq<Post>)
    ensures |r| == |posts|
    ensures forall i :: 0 <= i < |posts| && posts[i].id != postId ==> r[i] == posts[i]
  {
    UpdatePosts(posts, postId, (p: Post) => p.(comments := UpdateComments(p.comments, commentId,
                                                                   (c: Comment) => c.(showReplies := !c.showReplies))))
  }

  /**
   * toggleReplies flips showReplies of the matching comments under the
   * matching posts; every other comment and every other field stays.
   */
  lemma ToggleRepliesFlipsOneFlag(posts: seq<Post>, postId: int, commentId: int, i: nat, j: nat)
    requires i < |posts| && posts[i].id == postId && j < |posts[i].comments|
    ensures var r := HandleToggleReplies(posts, postId, commentId);
            var c := posts[i].comments[j];
            && |r[i].comments| == |posts[i].comments|
            && r[i].(comments := posts[i].comments) == posts[i]
            && r[i].comments[j] == (if c.id == commentId then c.(showReplies := !c.showReplies) else c)
  {
  }

  /** Toggling the replies of a comment twice puts everything back. */
  lemma ToggleRepliesTwiceRestores(posts: seq<Post>, postId: int, commentId: int)
    ensures HandleToggleReplies(HandleToggleReplies(posts, postId, commentId), postId, commentId) == posts
  {
    var once := HandleToggleReplies(posts, postId, commentId);
    var twice := HandleToggleReplies(once, postId, commentId);
    forall i | 0 <= i < |posts|
      ensures twice[i] == posts[i]
    {
      if posts[i].id == postId {
        var cs := posts[i].comments;
        assert twice[i].comments == cs;
      }
    }
  }
}
