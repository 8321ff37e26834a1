/**
 * The employee profile slice of src/features/dashboard/profileSlice.js: the
 * signed-in employee's profile, their posts (newest first) and the comments
 * loaded for each post, keyed by post id.
 */
module ProfileSlice {
  import opened Js

  const FetchProfileFallback := "Failed to fetch profile."
  const UpdateProfileFallback := "Failed to update profile."
  const CreatePostFallback := "Failed to create post."
  const FetchPostsFallback := "Failed to fetch posts for this employee."
  const FetchCommentsFallback := "Failed to load comments."
  const AddCommentFallback := "Failed to add comment."

  /** The thunks whose rejection the shared rejected case stores. */
  datatype Thunk = FetchProfile | UpdateProfile | CreatePost | FetchComments | AddComment

  /** Each thunk's own fixed text. */
  function Fallback(thunk: Thunk): (text: string)
    ensures text != ""
  {
    match thunk
    case FetchProfile => FetchProfileFallback
    case UpdateProfile => UpdateProfileFallback
    case CreatePost => CreatePostFallback
    case FetchComments => FetchCommentsFallback
    case AddComment => AddCommentFallback
  }

  /**
   * The value these thunks reject with: the server's `message`, or the
   * thunk's fixed text when the body (undefined without an answer) has none.
   */
  function Rejection(thunk: Thunk, data: Value): (payload: Value)
    ensures Truthy(payload)
    ensures Truthy(Member(data, "message")) ==> payload == Member(data, "message")
    ensures !Truthy(Member(data, "message")) ==> payload == Str(Fallback(thunk))
  {
    MessageOr(data, Fallback(thunk))
  }

  /**
   * The value fetchPostsByEmployeeId rejects with, as written. Its catch
   * block logs `error.response.data` without `?.`, so when no answer arrived
   * (`response` is None) that read throws, the thunk fails with the
   * TypeError instead of `rejectWithValue`, and the rejected action carries
   * no payload at all.
   */
  function FetchPostsRejectionAsWritten(response: Option<Value>): (payload: Value)
    ensures response.None? ==> payload == Undefined
    ensures response.Some? ==> payload == MessageOr(response.value, FetchPostsFallback)
  {
    match response
    case None => Undefined
    case Some(data) => MessageOr(data, FetchPostsFallback)
  }

  /** The value the catch block evidently means to reject with: always a message. */
  function FetchPostsRejection(response: Option<Value>): (payload: Value)
    ensures Truthy(payload)
    ensures response.None? ==> payload == Str(FetchPostsFallback)
    ensures response.Some? && Truthy(Member(response.value, "message")) ==>
              payload == Member(response.value, "message")
  {
    var data := if response.Some? then response.value else Undefined;
    MessageOr(data, FetchPostsFallback)
  }

  /**
   * With no answer from the server, the code as written leaves the store's
   * error falsy, so the page shows no error, while the intended rejection
   * carries the fixed message; with an answer the two agree.
   */
  lemma FetchPostsNetworkFailureLosesMessage(response: Option<Value>)
    ensures response.None? ==> !Truthy(FetchPostsRejectionAsWritten(response)) &&
                               FetchPostsRejection(response) == Str(FetchPostsFallback)
    ensures response.Some? ==> FetchPostsRejectionAsWritten(response) == FetchPostsRejection(response)
  {
  }

  /**
   * The comment map after `addCommentToPost.fulfilled`: the post's list (an
   * empty one when it had none) with the comment appended at the end; every
   * other post's list is unchanged.
   */
  function WithComment(byPost: map<string, seq<Value>>, postId: string, comment: Value): (r: map<string, seq<Value>>)
    ensures r.Keys == byPost.Keys + {postId}
    ensures postId in byPost ==> r[postId] == byPost[postId] + [comment]
    ensures postId !in byPost ==> r[postId] == [comment]
    ensures forall k :: k in byPost && k != postId ==> r[k] == byPost[k]
  {
    var existing := if postId in byPost then byPost[postId] else [];
    byPost[postId := existing + [comment]]
  }

  datatype ProfileState = ProfileState(
    profile: Value,
    posts: seq<Value>,
    commentsByPost: map<string, seq<Value>>,
    loading: bool,
    error: Value,
    success: bool)

  const Initial := ProfileState(Null, [], map[], false, Null, false)

  class ProfileStore {
    var profile: Value
    var posts: seq<Value>
    var commentsByPost: map<string, seq<Value>>
    var loading: bool
    var error: Value
    var success: bool

    function State(): ProfileState
      reads this
    {
      ProfileState(profile, posts, commentsByPost, loading, error, success)
    }

    constructor ()
      ensures State() == Initial
    {
      profile := Null;
      posts := [];
      commentsByPost := map[];
      loading := false;
      error := Null;
      success := false;
    }

    /** resetProfileState: the flags are cleared; profile, posts and comments stay. */
    method ResetProfileState()
      modifies this
      ensures State() == old(State()).(loading := false, error := Null, success := false)
    {
      loading := false;
      error := Null;
      success := false;
    }

    /** Every pending case of the slice: only `loading` changes. */
    method Pending()
      modifies this
      ensures State() == old(State()).(loading := true)
    {
      loading := true;
    }

    /**
     * Every rejected case except fetchPostsByEmployeeId's, with the payload
     * the thunk's catch block builds from the server's body: always a message.
     */
    method Rejected(thunk: Thunk, data: Value)
      modifies this
      ensures State() == old(State()).(loading := false, error := Rejection(thunk, data))
      ensures Truthy(error)
    {
      loading := false;
      error := Rejection(thunk, data);
    }

    /**
     * fetchPostsByEmployeeId.rejected with the payload its catch block
     * produces as written: the store shows an error exactly when the server
     * answered, and a network failure leaves it with none.
     */
    method FetchPostsRejected(response: Option<Value>)
      modifies this
      ensures State() == old(State()).(loading := false, error := FetchPostsRejectionAsWritten(response))
      ensures Truthy(error) <==> response.Some?
    {
      loading := false;
      error := FetchPostsRejectionAsWritten(response);
    }

    method FetchProfileFulfilled(payload: Value)
      modifies this
      ensures State() == old(State()).(loading := false, profile := payload)
    {
      loading := false;
      profile := payload;
    }

    method UpdateProfileFulfilled(payload: Value)
      modifies this
      ensures State() == old(State()).(loading := false, profile := payload, success := true)
    {
      loading := false;
      profile := payload;
      success := true;
    }

    /** createEmployeePost.fulfilled: `posts.unshift(post)`. */
    method CreatePostFulfilled(post: Value)
      modifies this
      ensures State() == old(State()).(loading := false, posts := [post] + old(posts), success := true)
      ensures |posts| == |old(posts)| + 1 && posts[0] == post && posts[1..] == old(posts)
    {
      loading := false;
      posts := [post] + posts;
      success := true;
    }

    /** fetchPostsByEmployeeId.fulfilled: the posts are replaced wholesale. */
    method FetchPostsFulfilled(payload: seq<Value>)
      modifies this
      ensures State() == old(State()).(loading := false, posts := payload)
    {
      loading := false;
      posts := payload;
    }

    /** fetchCommentsByPostId.fulfilled: only that post's list is replaced. */
    method FetchCommentsFulfilled(postId: string, comments: seq<Value>)
      modifies this
      ensures State() == old(State()).(loading := false, commentsByPost := old(commentsByPost)[postId := comments])
    {
      loading := false;
      commentsByPost := commentsByPost[postId := comments];
    }

    /** addCommentToPost.fulfilled: create the list when it is missing, then push. */
    method AddCommentFulfilled(postId: string, comment: Value)
      modifies this
      ensures State() == old(State()).(loading := false,
                                       commentsByPost := WithComment(old(commentsByPost), postId, comment))
    {
      loading := false;
      if postId !in commentsByPost {
        commentsByPost := commentsByPost[postId := []];
      }
      commentsByPost := commentsByPost[postId := commentsByPost[postId] + [comment]];
    }
  }
}
