/**
 * The public feed slice of src/features/posts/postSlice.js: one page of posts,
 * the page counters, and the comments loaded for each post, keyed by post id.
 *
 * Posts and comments are plain objects matched on their `id` property. The
 * like reducer changes `likes_count` with JavaScript's `+= 1` and `-= 1`,
 * which treat a count that is not a number each in their own way; where the
 * result is NaN the model writes `Undefined`, which is falsy like NaN.
 */
module PostSlice {
  import opened Js
  import Forms

  const LikedMessage := Str("Post liked")

  function Id(o: Obj): Value {
    Field(o, "id")
  }

  /** `posts.find(p => p.id === id)`, as a position: the first post with that id. */
  function FirstWithId(posts: seq<Obj>, id: Value): (k: Option<nat>)
    ensures k.Some? ==> k.value < |posts| && Id(posts[k.value]) == id &&
                        forall j :: 0 <= j < k.value ==> Id(posts[j]) != id
    ensures k.None? ==> forall j :: 0 <= j < |posts| ==> Id(posts[j]) != id
    decreases |posts|
  {
    if posts == [] then None
    else if Id(posts[0]) == id then Some(0)
    else
      match FirstWithId(posts[1..], id)
      case None => None
      case Some(k) => Some(k + 1)
  }

  /**
   * `count += 1`: a string, an array or an object is turned into text and
   * "1" is appended to it; undefined gives NaN; null, booleans and numbers
   * are added to as numbers (null and false count 0, true counts 1).
   */
  function PlusOne(count: Value): (r: Value)
    ensures count.Num? ==> r == Num(count.n + 1)
    ensures count == Null ==> r == Num(1)
    ensures count.Bool? ==> r == Num(if count.b then 2 else 1)
    ensures count == Undefined ==> !Truthy(r)
    ensures count.Str? ==> r == Str(count.s + "1")
    ensures count.Arr? || count.Object? ==> r == Str(Forms.StringOf(count) + "1")
  {
    match count
    case Undefined => Undefined
    case Str(s) => Str(s + "1")
    case Arr(_) => Str(Forms.StringOf(count) + "1")
    case Object(_) => Str(Forms.StringOf(count) + "1")
    case _ => Num(ToNumber(count).value + 1)
  }

  /**
   * `Number(count)`: an array converts through its text (so `[]` is 0 and
   * `[5]` is 5); None is NaN.
   */
  function NumberOf(count: Value): (r: Option<int>)
    ensures !count.Arr? ==> r == ToNumber(count)
    ensures count.Arr? ==> r == ToNumber(Str(Forms.StringOf(count)))
  {
    if count.Arr? then ToNumber(Str(Forms.StringOf(count))) else ToNumber(count)
  }

  /** `count -= 1`: always numeric, so a numeric string counts down and anything else gives NaN. */
  function MinusOne(count: Value): (r: Value)
    ensures NumberOf(count).Some? ==> r == Num(NumberOf(count).value - 1)
    ensures NumberOf(count).None? ==> !Truthy(r)
  {
    match NumberOf(count)
    case Some(n) => Num(n - 1)
    case None => Undefined
  }

  /** On a numeric count, `-= 1` undoes `+= 1`. */
  lemma MinusOneUndoesPlusOne(n: int)
    ensures MinusOne(PlusOne(Num(n))) == Num(n)
  {
  }

  /**
   * On a count the server sent as digits, a like appends "1" to the text and
   * the unlike that follows subtracts as a number: "5" becomes "51" and then
   * 50, not 5 again.
   */
  lemma TextCountDoesNotRestore(digits: string)
    requires digits != [] && AllDigits(digits)
    ensures PlusOne(Str(digits)) == Str(digits + "1")
    ensures MinusOne(PlusOne(Str(digits))) == Num(DigitsValue(digits) * 10)
  {
    var t := digits + "1";
    AppendOne(digits);
    MinusOneOfDigits(t);
    assert PlusOne(Str(digits)) == Str(t);
  }

  /** `-= 1` on a digit string counts down from the number it spells. */
  lemma MinusOneOfDigits(t: string)
    requires t != [] && AllDigits(t)
    ensures MinusOne(Str(t)) == Num(DigitsValue(t) - 1)
  {
    NumberOfDigits(t);
  }

  /** Appending the digit 1 to a digit string spells ten times its number, plus one. */
  lemma AppendOne(digits: string)
    requires AllDigits(digits)
    ensures AllDigits(digits + "1") && digits + "1" != []
    ensures DigitsValue(digits + "1") == DigitsValue(digits) * 10 + 1
  {
    var t := digits + "1";
    assert forall i :: 0 <= i < |digits| ==> t[i] == digits[i];
    assert t[|t| - 1] == '1';
    assert t[..|t| - 1] == digits;
  }

  /**
   * The like reducer's change to one post: "Post liked" marks it liked and
   * adds one like; any other message marks it unliked and removes one, with
   * no lower bound. Every other property is kept.
   */
  function Toggled(post: Obj, message: Value): (r: Obj)
    ensures r.Keys == post.Keys + {"is_liked", "likes_count"}
    ensures r["is_liked"] == Bool(message == LikedMessage)
    ensures message == LikedMessage ==> r["likes_count"] == PlusOne(Field(post, "likes_count"))
    ensures message != LikedMessage ==> r["likes_count"] == MinusOne(Field(post, "likes_count"))
    ensures forall k :: k in post && k != "is_liked" && k != "likes_count" ==> r[k] == post[k]
  {
    var liked := message == LikedMessage;
    var count := Field(post, "likes_count");
    post["is_liked" := Bool(liked)]["likes_count" := if liked then PlusOne(count) else MinusOne(count)]
  }

  /** The posts after `likePost.fulfilled`: at most one post changes, the first with the id. */
  function Liked(posts: seq<Obj>, id: Value, message: Value): (r: seq<Obj>)
    ensures |r| == |posts|
    ensures FirstWithId(posts, id).None? ==> r == posts
    ensures FirstWithId(posts, id).Some? ==>
              var k := FirstWithId(posts, id).value;
              r[k] == Toggled(posts[k], message) && forall j :: 0 <= j < |posts| && j != k ==> r[j] == posts[j]
  {
    match FirstWithId(posts, id)
    case None => posts
    case Some(k) => posts[k := Toggled(posts[k], message)]
  }

  /**
   * Liking a post that was not liked and then unliking it gives back the
   * original feed.
   */
  lemma {:induction false} LikeThenUnlikeRestores(posts: seq<Obj>, id: Value, other: Value)
    requires other != LikedMessage
    requires FirstWithId(posts, id).Some?
    requires var p := posts[FirstWithId(posts, id).value];
             "is_liked" in p && p["is_liked"] == Bool(false) && "likes_count" in p && p["likes_count"].Num?
    ensures Liked(Liked(posts, id, LikedMessage), id, other) == posts
  {
    var k := FirstWithId(posts, id).value;
    var once := Liked(posts, id, LikedMessage);
    FirstWithIdStable(posts, id, k, Toggled(posts[k], LikedMessage));
    var p := posts[k];
    var back := Toggled(once[k], other);
    assert back.Keys == p.Keys;
    assert back == p;
  }

  /** Replacing the first match by an object with the same id keeps it the first match. */
  lemma {:induction false} FirstWithIdStable(posts: seq<Obj>, id: Value, k: nat, q: Obj)
    requires FirstWithId(posts, id) == Some(k) && Id(q) == id
    ensures FirstWithId(posts[k := q], id) == Some(k)
    decreases |posts|
  {
    if k > 0 {
      assert posts[k := q][1..] == posts[1..][k - 1 := q];
      FirstWithIdStable(posts[1..], id, k - 1, q);
    }
  }

  /** `list.filter(c => c.id !== id)`. */
  function WithoutId(list: seq<Obj>, id: Value): (r: seq<Obj>)
    ensures |r| <= |list|
    ensures forall i :: 0 <= i < |r| ==> Id(r[i]) != id
    ensures forall c :: c in list && Id(c) != id ==> c in r
    ensures forall c :: c in r ==> c in list
    decreases |list|
  {
    if list == [] then []
    else if Id(list[0]) == id then WithoutId(list[1..], id)
    else [list[0]] + WithoutId(list[1..], id)
  }

  /** The filter keeps relative order: it distributes over concatenation. */
  lemma {:induction false} WithoutIdDistributes(a: seq<Obj>, b: seq<Obj>, id: Value)
    ensures WithoutId(a + b, id) == WithoutId(a, id) + WithoutId(b, id)
    decreases |a|
  {
    if a == [] {
      assert a + b == b;
    } else {
      assert (a + b)[0] == a[0];
      assert (a + b)[1..] == a[1..] + b;
      WithoutIdDistributes(a[1..], b, id);
    }
  }

  /** A list with no comment of that id is left exactly as it was. */
  lemma {:induction false} WithoutAbsentId(list: seq<Obj>, id: Value)
    requires forall i :: 0 <= i < |list| ==> Id(list[i]) != id
    ensures WithoutId(list, id) == list
    decreases |list|
  {
    if list != [] {
      WithoutAbsentId(list[1..], id);
    }
  }

  /** The comment map after `deleteComment.fulfilled`: every list filtered, same post keys. */
  function WithoutComment(comments: map<string, seq<Obj>>, id: Value): (r: map<string, seq<Obj>>)
    ensures r.Keys == comments.Keys
    ensures forall k :: k in r ==> r[k] == WithoutId(comments[k], id)
  {
    map k | k in comments :: WithoutId(comments[k], id)
  }

  /** One page of `/post/all-posts/`: `{results, current, total}`. */
  datatype Page = Page(results: seq<Obj>, current: Value, total: Value)

  datatype FeedState = FeedState(
    posts: seq<Obj>,
    loading: bool,
    currentPage: Value,
    totalPages: Value,
    comments: map<string, seq<Obj>>,
    error: Value)

  const Initial := FeedState([], false, Num(1), Num(1), map[], Null)

  class FeedStore {
    var posts: seq<Obj>
    var loading: bool
    var currentPage: Value
    var totalPages: Value
    var comments: map<string, seq<Obj>>
    var error: Value

    function State(): FeedState
      reads this
    {
      FeedState(posts, loading, currentPage, totalPages, comments, error)
    }

    constructor ()
      ensures State() == Initial
    {
      posts := [];
      loading := false;
      currentPage := Num(1);
      totalPages := Num(1);
      comments := map[];
      error := Null;
    }

    method FetchAllPending()
      modifies this
      ensures State() == old(State()).(loading := true)
    {
      loading := true;
    }

    method FetchAllFulfilled(page: Page)
      modifies this
      ensures State() == old(State()).(loading := false, posts := page.results,
                                       currentPage := page.current, totalPages := page.total)
    {
      loading := false;
      posts := page.results;
      currentPage := page.current;
      totalPages := page.total;
    }

    /** fetchAllPosts.rejected: the posts on screen stay. */
    method FetchAllRejected(payload: Value)
      modifies this
      ensures State() == old(State()).(loading := false, error := payload)
    {
      loading := false;
      error := payload;
    }

    /** likePost.fulfilled: find the first post with the id, then flip it in place. */
    method LikeFulfilled(postId: Value, message: Value)
      modifies this
      ensures State() == old(State()).(posts := Liked(old(posts), postId, message))
    {
      var i := 0;
      while i < |posts| && Id(posts[i]) != postId
        invariant 0 <= i <= |posts|
        invariant forall j :: 0 <= j < i ==> Id(posts[j]) != postId
      {
        i := i + 1;
      }
      if i < |posts| {
        assert FirstWithId(posts, postId) == Some(i);
        posts := posts[i := Toggled(posts[i], message)];
      }
    }

    /** fetchComments.fulfilled: only that post's list is replaced. */
    method FetchCommentsFulfilled(postId: string, list: seq<Obj>)
      modifies this
      ensures State() == old(State()).(comments := old(comments)[postId := list])
    {
      comments := comments[postId := list];
    }

    /**
     * addComment.fulfilled: `comments[postId].unshift(comment)`. With no list
     * loaded for the post the reducer throws, and the store keeps its state;
     * `ok` says which happened.
     */
    method AddCommentFulfilled(postId: string, comment: Obj) returns (ok: bool)
      modifies this
      ensures ok <==> postId in old(comments)
      ensures ok ==> State() == old(State()).(comments := old(comments)[postId := [comment] + old(comments)[postId]])
      ensures !ok ==> State() == old(State())
    {
      if postId !in comments {
        return false;
      }
      comments := comments[postId := [comment] + comments[postId]];
      return true;
    }

    /** deleteComment.fulfilled: filter every post's list, one key at a time. */
    method DeleteCommentFulfilled(id: Value)
      modifies this
      ensures State() == old(State()).(comments := WithoutComment(old(comments), id))
    {
      ghost var target := WithoutComment(comments, id);
      var filtered := comments;
      var pending := comments.Keys;
      while pending != {}
        invariant pending <= comments.Keys
        invariant filtered.Keys == target.Keys
        invariant forall k :: k in filtered ==> filtered[k] == if k in pending then comments[k] else target[k]
        decreases pending
      {
        var postId :| postId in pending;
        var next := filtered[postId := WithoutId(comments[postId], id)];
        forall k | k in next
          ensures next[k] == if k in pending - {postId} then comments[k] else target[k]
        {
          if k != postId {
            assert next[k] == filtered[k];
          }
        }
        filtered := next;
        pending := pending - {postId};
      }
      assert filtered == target;
      comments := filtered;
    }
  }

  /**
   * After a deletion no list holds a comment with that id, and a list that
   * never held it is unchanged.
   */
  lemma DeletedCommentIsGone(comments: map<string, seq<Obj>>, id: Value, postId: string)
    requires postId in comments
    ensures var r := WithoutComment(comments, id);
            && (forall c :: c in r[postId] ==> Id(c) != id)
            && ((forall i :: 0 <= i < |comments[postId]| ==> Id(comments[postId][i]) != id) ==>
                  r[postId] == comments[postId])
  {
    var r := WithoutComment(comments, id);
    forall c | c in r[postId] ensures Id(c) != id {
      var i :| 0 <= i < |r[postId]| && r[postId][i] == c;
    }
    if forall i :: 0 <= i < |comments[postId]| ==> Id(comments[postId][i]) != id {
      WithoutAbsentId(comments[postId], id);
    }
  }
}
