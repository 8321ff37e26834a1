/**
 * An employee's public profile with their posts,
 * src/features/dashboard/employee/PostsProfileView.jsx: the "time ago"
 * stamp, the image tests and URLs, the display name of a comment's author,
 * the comment box of the post modal, and the like and comment totals.
 *
 * Reading the clock and parsing the date are left to the caller: `timeAgo`
 * receives the elapsed whole seconds, `Math.floor((now - date) / 1000)`, with
 * None for a date that does not parse (NaN).
 */
module PostsProfileView {
  import opened Js
  import Forms

  const BaseUrl := Forms.BaseUrl

  // ---------------------------------------------------------------------------
  // Time ago

  datatype Unit = Unit(name: string, size: nat)

  /** The units `timeAgo` tries, largest first, with their length in seconds. */
  const Units: seq<Unit> := [
    Unit("year", 31536000), Unit("month", 2592000), Unit("day", 86400),
    Unit("hour", 3600), Unit("minute", 60), Unit("second", 1)
  ]

  const JustNow := "just now"

  /** The first unit from position `start` on that fits at least once into `seconds`. */
  function FirstUnitFrom(seconds: int, start: nat): (k: Option<nat>)
    ensures k.Some? ==> start <= k.value < |Units| && seconds / Units[k.value].size >= 1 &&
                        forall j :: start <= j < k.value ==> seconds / Units[j].size < 1
    ensures k.None? ==> forall j :: start <= j < |Units| ==> seconds / Units[j].size < 1
    decreases |Units| - start
  {
    if start >= |Units| then None
    else if seconds / Units[start].size >= 1 then Some(start)
    else FirstUnitFrom(seconds, start + 1)
  }

  /** "1 day ago", or "3 days ago" for a count above one. */
  function Phrase(count: nat, unit: string): (r: string)
    ensures EndsWith(r, " ago")
    ensures count <= 1 ==> r == "1 " + unit + " ago"
    ensures count > 1 ==> StartsWith(r, DecimalString(count) + " ") && EndsWith(r, unit + "s ago")
  {
    if count > 1 then DecimalString(count) + " " + unit + "s ago" else "1 " + unit + " ago"
  }

  /** The stamp for an elapsed time: the largest unit that fits, or "just now". */
  function Ago(seconds: int): (r: string)
    ensures seconds < 1 ==> r == JustNow
    ensures seconds >= 1 ==> EndsWith(r, " ago")
  {
    assert seconds >= 1 ==> seconds / Units[5].size >= 1;
    match FirstUnitFrom(seconds, 0)
    case None => JustNow
    case Some(k) => Phrase(seconds / Units[k].size, Units[k].name)
  }

  /** The stamp for a post: empty without a date, "just now" for a date that does not parse. */
  function TimeAgoText(dateString: Value, elapsed: Option<int>): (r: string)
    ensures !Truthy(dateString) ==> r == ""
    ensures Truthy(dateString) && (elapsed.None? || elapsed.value < 1) ==> r == JustNow
    ensures Truthy(dateString) && elapsed.Some? && elapsed.value >= 1 ==> EndsWith(r, " ago")
  {
    if !Truthy(dateString) then ""
    else if elapsed.None? then JustNow
    else Ago(elapsed.value)
  }

  /** timeAgo: walk the units in order and stop at the first whose count is at least one. */
  method TimeAgo(dateString: Value, elapsed: Option<int>) returns (text: string)
    ensures text == TimeAgoText(dateString, elapsed)
  {
    if !Truthy(dateString) {
      return "";
    }
    if elapsed.None? {
      return JustNow;
    }
    var seconds := elapsed.value;
    var k := 0;
    while k < |Units|
      invariant 0 <= k <= |Units|
      invariant FirstUnitFrom(seconds, 0) == FirstUnitFrom(seconds, k)
    {
      var count := seconds / Units[k].size;
      if count > 1 {
        return DecimalString(count) + " " + Units[k].name + "s ago";
      }
      if count == 1 {
        return "1 " + Units[k].name + " ago";
      }
      k := k + 1;
    }
    return JustNow;
  }

  /** "just now" exactly when less than a second has passed, future dates included. */
  lemma JustNowIffUnderASecond(seconds: int)
    ensures Ago(seconds) == JustNow <==> seconds < 1
  {
    match FirstUnitFrom(seconds, 0)
    case None =>
      assert seconds / Units[5].size < 1;
    case Some(k) =>
      var p := Phrase(seconds / Units[k].size, Units[k].name);
      assert p[|p| - 1] == 'o';
      assert JustNow[|JustNow| - 1] == 'w';
      assert seconds >= 1 by {
        assert seconds / Units[k].size >= 1;
      }
  }

  /** The stamp names the largest unit that fits, and says how many whole ones. */
  lemma AgoNamesLargestUnit(seconds: int, k: nat)
    requires k < |Units| && Units[k].size <= seconds
    requires forall j :: 0 <= j < k ==> seconds < Units[j].size
    ensures Ago(seconds) == Phrase(seconds / Units[k].size, Units[k].name)
  {
    assert seconds / Units[k].size >= 1;
    assert forall j :: 0 <= j < k ==> seconds / Units[j].size < 1;
  }

  /** Anything from one minute up to two shows as "1 minute ago". */
  lemma OneMinuteAgo(seconds: int)
    requires 60 <= seconds < 120
    ensures Ago(seconds) == "1 minute ago"
  {
    assert FirstUnitFrom(seconds, 0) == Some(4);
  }

  /** A whole number of hours, two up to a day, shows as that many hours. */
  lemma WholeHoursAgo(hours: nat)
    requires 2 <= hours < 24
    ensures Ago(hours * 3600) == DecimalString(hours) + " hours ago"
  {
    assert FirstUnitFrom(hours * 3600, 0) == Some(3);
    assert hours * 3600 / 3600 == hours;
  }

  // ---------------------------------------------------------------------------
  // Images

  const ImageExtensions := [".jpg", ".jpeg", ".png", ".gif", ".webp"]

  /** `/\.(jpg|jpeg|png|gif|webp)$/i`. */
  predicate HasImageExtension(path: string)
    ensures HasImageExtension(path) ==> |path| >= 4
    ensures |path| >= 4 && Lower(path[|path| - 4..]) in {".jpg", ".png", ".gif"} ==> HasImageExtension(path)
    ensures |path| >= 5 && Lower(path[|path| - 5..]) in {".jpeg", ".webp"} ==> HasImageExtension(path)
  {
    LowerSuffixes(path);
    assert ImageExtensions[0] == ".jpg" && ImageExtensions[1] == ".jpeg" && ImageExtensions[2] == ".png";
    assert ImageExtensions[3] == ".gif" && ImageExtensions[4] == ".webp";
    exists i :: 0 <= i < |ImageExtensions| && EndsWith(Lower(path), ImageExtensions[i])
  }

  /** Lower-casing the last four or five characters is lower-casing the tail of the whole path. */
  lemma LowerSuffixes(path: string)
    ensures |path| >= 4 ==> Lower(path)[|path| - 4..] == Lower(path[|path| - 4..])
    ensures |path| >= 5 ==> Lower(path)[|path| - 5..] == Lower(path[|path| - 5..])
  {
  }

  /**
   * hasImage on `post.post`: a non-empty path that starts with "http" or
   * "/media", or ends with an image extension in any case. A truthy value
   * that is not a string has no `startsWith` and throws (None).
   */
  function HasImage(path: Value): (shown: Option<bool>)
    ensures !Truthy(path) ==> shown == Some(false)
    ensures Truthy(path) && !path.Str? ==> shown.None?
    ensures path.Str? && path.s != "" ==>
              shown == Some(StartsWith(path.s, "http") || StartsWith(path.s, "/media") || HasImageExtension(path.s))
  {
    if !Truthy(path) then Some(false)
    else if !path.Str? then None
    else Some(StartsWith(path.s, "http") || StartsWith(path.s, "/media") || HasImageExtension(path.s))
  }

  const NoImage := "https://via.placeholder.com/300x300/4F46E5/FFFFFF?text=No+Image"
  const TextPost := "https://via.placeholder.com/300x300/4F46E5/FFFFFF?text=Text+Post"

  /** getImageUrl on `post.post`; None where `startsWith` would throw. */
  function ImageUrl(path: Value): (url: Option<string>)
    ensures !Truthy(path) ==> url == Some(NoImage)
    ensures Truthy(path) && !path.Str? ==> url.None?
    ensures path.Str? && StartsWith(path.s, "http") ==> url == Some(path.s)
    ensures path.Str? && !StartsWith(path.s, "http") && StartsWith(path.s, "/media") ==> url == Some(BaseUrl + path.s)
    ensures path.Str? && path.s != "" && !StartsWith(path.s, "http") && !StartsWith(path.s, "/media") ==>
              url == Some(TextPost)
  {
    if !Truthy(path) then Some(NoImage)
    else if !path.Str? then None
    else if StartsWith(path.s, "http") then Some(path.s)
    else if StartsWith(path.s, "/media") then Some(BaseUrl + path.s)
    else Some(TextPost)
  }

  /**
   * A path accepted only for its extension, such as "photo.JPG", counts as an
   * image but is displayed with the text-post placeholder.
   */
  lemma ExtensionOnlyImageGetsPlaceholder()
    ensures HasImage(Str("photo.JPG")) == Some(true)
    ensures ImageUrl(Str("photo.JPG")) == Some(TextPost)
  {
    assert Lower("photo.JPG") == "photo.jpg";
    assert EndsWith(Lower("photo.JPG"), ImageExtensions[0]);
    assert !StartsWith("photo.JPG", "http") by { assert "photo.JPG"[0] != "http"[0]; }
    assert !StartsWith("photo.JPG", "/media") by { assert "photo.JPG"[0] != "/media"[0]; }
  }

  /**
   * The profile picture: `profile?.profile_image || userprofile?.profile_image
   * || ""`, then a full URL as it is, another non-empty path under the
   * server, and a fixed placeholder when there is none. A truthy value that
   * is not a string throws (None).
   */
  function ProfileImageUrl(profile: Value, userprofile: Value): (url: Option<string>)
    ensures var raw := Or(Member(profile, "profile_image"), Or(Member(userprofile, "profile_image"), Str("")));
            && (!raw.Str? <==> url.None?)
            && (raw.Str? && StartsWith(raw.s, "http") ==> url == Some(raw.s))
            && (raw.Str? && raw.s != "" && !StartsWith(raw.s, "http") ==> url == Some(BaseUrl + raw.s))
            && (raw == Str("") ==> url == Some("https://via..com/120"))
  {
    Forms.ImageUrl(Or(Member(profile, "profile_image"), Or(Member(userprofile, "profile_image"), Str(""))),
                   "https://via..com/120")
  }

  lemma OwnPictureWins(profile: Value, userprofile: Value, path: string)
    requires Member(profile, "profile_image") == Str("http" + path)
    ensures ProfileImageUrl(profile, userprofile) == Some("http" + path)
  {
    assert StartsWith("http" + path, "http");
  }

  // ---------------------------------------------------------------------------
  // Comment author

  /**
   * getCommentUserName as written: user.username, user.full_name,
   * user_name, username, then `comment.user || "User"`. That last step
   * returns a `user` object that lacked both names, which is not text.
   */
  function CommentUserNameAsWritten(comment: Value): (name: Value)
    ensures !Truthy(comment) ==> name == Str("User")
    ensures Truthy(comment) && Truthy(Member(Member(comment, "user"), "username")) ==>
              name == Member(Member(comment, "user"), "username")
    ensures Truthy(comment) && !Truthy(Member(Member(comment, "user"), "username")) &&
            !Truthy(Member(Member(comment, "user"), "full_name")) &&
            !Truthy(Member(comment, "user_name")) && !Truthy(Member(comment, "username")) ==>
              name == Or(Member(comment, "user"), Str("User"))
  {
    if !Truthy(comment) then Str("User")
    else
      var user := Member(comment, "user");
      Or(Member(user, "username"), Or(Member(user, "full_name"),
        Or(Member(comment, "user_name"), Or(Member(comment, "username"), Or(user, Str("User"))))))
  }

  /** An author object carrying neither name is returned as the object itself. */
  lemma NamelessUserObjectIsReturned()
    ensures var user := Object(map["id" := Num(3)]);
            CommentUserNameAsWritten(Object(map["user" := user])) == user
  {
  }

  /**
   * The display name as the fallback chain means it: the same candidates,
   * but the final `user` only when it is a string, so a nameless author
   * object shows "User".
   */
  function CommentUserName(comment: Value): (name: Value)
    ensures Truthy(name)
    ensures !Truthy(comment) ==> name == Str("User")
    ensures Member(comment, "user").Str? || !Truthy(Member(comment, "user")) ==>
              name == CommentUserNameAsWritten(comment)
    ensures Truthy(comment) && Member(comment, "user").Object? &&
            !Truthy(Member(Member(comment, "user"), "username")) &&
            !Truthy(Member(Member(comment, "user"), "full_name")) &&
            !Truthy(Member(comment, "user_name")) && !Truthy(Member(comment, "username")) ==>
              name == Str("User")
  {
    if !Truthy(comment) then Str("User")
    else
      var user := Member(comment, "user");
      var last := if user.Str? then user else Str("User");
      Or(Member(user, "username"), Or(Member(user, "full_name"),
        Or(Member(comment, "user_name"), Or(Member(comment, "username"), Or(last, Str("User"))))))
  }

  // ---------------------------------------------------------------------------
  // The post modal's comment box

  /** One `addCommentToPost` dispatch. */
  datatype CommentRequest = CommentRequest(postId: Value, text: string)

  datatype ModalState = ModalState(
    selectedPost: Value,
    isModalOpen: bool,
    commentText: string,
    addingComment: bool,
    sent: seq<CommentRequest>,
    fetched: seq<Value>)

  class PostModal {
    var selectedPost: Value
    var isModalOpen: bool
    var commentText: string
    var addingComment: bool
    /** The comments dispatched so far, oldest first. */
    var sent: seq<CommentRequest>
    /** The post ids whose comments were requested (`fetchCommentsByPostId`), oldest first. */
    var fetched: seq<Value>

    function State(): ModalState
      reads this
    {
      ModalState(selectedPost, isModalOpen, commentText, addingComment, sent, fetched)
    }

    constructor ()
      ensures State() == ModalState(Null, false, "", false, [], [])
    {
      selectedPost := Null;
      isModalOpen := false;
      commentText := "";
      addingComment := false;
      sent := [];
      fetched := [];
    }

    /**
     * handleImageClick: select the post, open the modal and request the
     * post's comments. The post is one the page rendered, so reading its
     * `id` does not throw.
     */
    method HandleImageClick(post: Value)
      modifies this
      ensures State() == old(State()).(selectedPost := post, isModalOpen := true,
                                       fetched := old(fetched) + [Member(post, "id")])
    {
      selectedPost := post;
      isModalOpen := true;
      fetched := fetched + [Member(post, "id")];
    }

    method SetCommentText(text: string)
      modifies this
      ensures State() == old(State()).(commentText := text)
    {
      commentText := text;
    }

    /** closeModal: nothing selected, box empty, not sending. */
    method CloseModal()
      modifies this
      ensures State() == old(State()).(selectedPost := Null, isModalOpen := false, commentText := "",
                                       addingComment := false)
    {
      isModalOpen := false;
      selectedPost := Null;
      commentText := "";
      addingComment := false;
    }

    /**
     * handleAddComment: with blank text or no post selected, nothing
     * happens; otherwise the trimmed text is sent for the selected post, the
     * box is emptied only when the server accepted it (`accepted`), and the
     * sending flag ends false either way.
     */
    method HandleAddComment(accepted: bool)
      modifies this
      ensures Trim(old(commentText)) == "" || !Truthy(old(selectedPost)) ==> State() == old(State())
      ensures Trim(old(commentText)) != "" && Truthy(old(selectedPost)) ==>
                State() == old(State()).(
                  sent := old(sent) + [CommentRequest(Member(old(selectedPost), "id"), Trim(old(commentText)))],
                  commentText := if accepted then "" else old(commentText),
                  addingComment := false)
    {
      var text := Trim(commentText);
      if text == "" || !Truthy(selectedPost) {
        return;
      }
      addingComment := true;
      sent := sent + [CommentRequest(Member(selectedPost, "id"), text)];
      if accepted {
        commentText := "";
      }
      addingComment := false;
    }
  }

  /** What gets sent is never blank and never starts or ends with whitespace. */
  lemma SentCommentIsTrimmed(text: string)
    requires Trim(text) != ""
    ensures !IsSpace(Trim(text)[0]) && !IsSpace(Trim(text)[|Trim(text)| - 1])
    ensures Trim(Trim(text)) == Trim(text)
  {
    TrimIsIdempotent(text);
  }

  // ---------------------------------------------------------------------------
  // Totals

  /**
   * `posts.reduce((acc, p) => acc + (p[key] || 0), 0)` for numeric counts; a
   * count that is present but not a number (which `+` would concatenate as
   * text) gives None.
   */
  function Total(posts: seq<Obj>, key: string): (sum: Option<int>)
    ensures (forall i :: 0 <= i < |posts| ==> !Truthy(Field(posts[i], key))) ==> sum == Some(0)
    ensures (forall i :: 0 <= i < |posts| ==> Or(Field(posts[i], key), Num(0)).Num?) <==> sum.Some?
    decreases |posts|
  {
    if posts == [] then Some(0)
    else
      assert forall i :: 1 <= i < |posts| ==> posts[i] == posts[1..][i - 1];
      var count := Or(Field(posts[0], key), Num(0));
      match Total(posts[1..], key)
      case None => None
      case Some(rest) => if count.Num? then Some(count.n + rest) else None
  }

  /** A single post's total is its own count, read as 0 when falsy. */
  lemma TotalOfOne(p: Obj, key: string)
    requires Or(Field(p, key), Num(0)).Num?
    ensures Total([p], key) == Some(Or(Field(p, key), Num(0)).n)
  {
    assert [p][1..] == [];
  }

  /**
   * The `reduce` itself: left to right from the accumulator `acc`, adding each
   * post's `p[key] || 0`; a count that is not a number makes the rest None.
   */
  function ReduceCounts(acc: Option<int>, posts: seq<Obj>, key: string): (r: Option<int>)
    ensures acc.None? ==> r.None?
    decreases |posts|
  {
    if posts == [] then acc
    else
      var count := Or(Field(posts[0], key), Num(0));
      var next := if acc.Some? && count.Num? then Some(acc.value + count.n) else None;
      ReduceCounts(next, posts[1..], key)
  }

  /** Folding from any accumulator adds the total of the posts to it. */
  lemma {:induction false} ReduceCountsAddsTotal(acc: Option<int>, posts: seq<Obj>, key: string)
    ensures ReduceCounts(acc, posts, key) ==
              (if acc.Some? && Total(posts, key).Some? then Some(acc.value + Total(posts, key).value) else None)
    decreases |posts|
  {
    if posts != [] {
      var count := Or(Field(posts[0], key), Num(0));
      var next := if acc.Some? && count.Num? then Some(acc.value + count.n) else None;
      ReduceCountsAddsTotal(next, posts[1..], key);
    }
  }

  /** The page's `posts.reduce(..., 0)` is exactly `Total`. */
  lemma TotalIsReduce(posts: seq<Obj>, key: string)
    ensures Total(posts, key) == ReduceCounts(Some(0), posts, key)
  {
    ReduceCountsAddsTotal(Some(0), posts, key);
  }

  /** A post without the count adds nothing: it is read as 0. */
  lemma MissingCountAddsNothing(p: Obj, rest: seq<Obj>, key: string)
    requires key !in p
    ensures Total([p] + rest, key) == Total(rest, key)
  {
    assert ([p] + rest)[1..] == rest;
  }

  /** The totals of two runs of posts add up. */
  lemma {:induction false} TotalAppend(a: seq<Obj>, b: seq<Obj>, key: string)
    requires Total(a, key).Some? && Total(b, key).Some?
    ensures Total(a + b, key) == Some(Total(a, key).value + Total(b, key).value)
    decreases |a|
  {
    if a == [] {
      assert a + b == b;
      assert Total(a, key) == Some(0);
    } else {
      assert (a + b)[0] == a[0];
      assert (a + b)[1..] == a[1..] + b;
      TotalAppend(a[1..], b, key);
      assert Total(a, key) == Some(Or(Field(a[0], key), Num(0)).n + Total(a[1..], key).value);
    }
  }
}
