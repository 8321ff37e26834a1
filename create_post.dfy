/**
 * The post composer, src/features/dashboard/employee/CreatePost.jsx: the
 * form (title, description, the picked file), its handlers, the ordered
 * checks of handleSubmit and the multipart body it sends, and the effect
 * that reacts to the profile store.
 *
 * `URL.createObjectURL` is a parameter (the preview URL); the dispatch of
 * `createEmployeePost` is the `Dispatched` outcome carrying the body.
 */
module CreatePost {
  import opened Js
  import Forms
  import ProfileSlice

  datatype PostForm = PostForm(title: Value, description: Value, post: Value)

  const EmptyForm := PostForm(Str(""), Str(""), Null)

  /**
   * handleInputChange: the named field takes the typed text; a name that is
   * not a field of the form adds a key the page never reads.
   */
  function WithInput(form: PostForm, name: string, value: string): (r: PostForm)
    ensures name == "title" ==> r == form.(title := Str(value))
    ensures name == "description" ==> r == form.(description := Str(value))
    ensures name == "post" ==> r == form.(post := Str(value))
    ensures name !in ["title", "description", "post"] ==> r == form
  {
    if name == "title" then form.(title := Str(value))
    else if name == "description" then form.(description := Str(value))
    else if name == "post" then form.(post := Str(value))
    else form
  }

  /** Which check stopped handleSubmit, in the order they run. */
  datatype Missing = NoTitle | NoDescription | NoFile

  datatype Submission = Stopped(missing: Missing) | Dispatched(body: seq<Forms.Entry>)

  /** The body: the title, the description, then the file. */
  function PostBody(form: PostForm): (body: seq<Forms.Entry>)
    ensures Forms.Names(body) == ["title", "description", "post"]
  {
    [Forms.Appended("title", form.title),
     Forms.Appended("description", form.description),
     Forms.Upload("post", form.post)]
  }

  /** handleSubmit as a decision: the first missing field in order stops it. */
  function Submit(form: PostForm): (s: Submission)
    ensures s == Stopped(NoTitle) <==> !Truthy(form.title)
    ensures s == Stopped(NoDescription) <==> Truthy(form.title) && !Truthy(form.description)
    ensures s == Stopped(NoFile) <==> Truthy(form.title) && Truthy(form.description) && !Truthy(form.post)
    ensures s.Dispatched? <==> Truthy(form.title) && Truthy(form.description) && Truthy(form.post)
    ensures s.Dispatched? ==> s.body == PostBody(form)
  {
    if !Truthy(form.title) then Stopped(NoTitle)
    else if !Truthy(form.description) then Stopped(NoDescription)
    else if !Truthy(form.post) then Stopped(NoFile)
    else Dispatched(PostBody(form))
  }

  /**
   * A form whose title was reset sends nothing, whatever the description
   * and the file hold: it stops at the title.
   */
  lemma EmptyFormStopsAtTitle(description: Value, post: Value)
    ensures Submit(EmptyForm.(description := description, post := post)) == Stopped(NoTitle)
  {
    assert !Truthy(EmptyForm.title);
  }

  /** What the effect on `[error, success]` does. The two checks are independent. */
  datatype Reaction = Reaction(errorToast: Option<Value>, cleared: bool, resets: nat)

  function OnStoreChange(error: Value, success: bool): (r: Reaction)
    ensures r.errorToast.Some? <==> Truthy(error)
    ensures r.errorToast.Some? ==> r.errorToast.value == error
    ensures r.cleared == success
    ensures r.resets == (if Truthy(error) then 1 else 0) + (if success then 1 else 0)
  {
    Reaction(
      errorToast := if Truthy(error) then Some(error) else None,
      cleared := success,
      resets := (if Truthy(error) then 1 else 0) + (if success then 1 else 0))
  }

  /**
   * The reset the effect dispatches leaves the store with no error and no
   * success, so the effect's next run does nothing: no second toast, no
   * second clear.
   */
  lemma ResetStoreIsQuiet(s: ProfileSlice.ProfileState)
    ensures var reset := s.(loading := false, error := Null, success := false);
            OnStoreChange(reset.error, reset.success) == Reaction(None, false, 0)
  {
  }

  class PostComposer {
    var formData: PostForm
    var preview: Option<string>

    constructor()
      ensures formData == EmptyForm && preview == None
    {
      formData := EmptyForm;
      preview := None;
    }

    method HandleInputChange(name: string, value: string)
      modifies this
      ensures formData == WithInput(old(formData), name, value)
      ensures preview == old(preview)
    {
      formData := WithInput(formData, name, value);
    }

    /** handleFileChange: a picked file is kept and previewed; no file changes nothing. */
    method HandleFileChange(file: Value, objectUrl: string)
      modifies this
      ensures !Truthy(file) ==> formData == old(formData) && preview == old(preview)
      ensures Truthy(file) ==> formData == old(formData).(post := file) && preview == Some(objectUrl)
    {
      if Truthy(file) {
        formData := formData.(post := file);
        preview := Some(objectUrl);
      }
    }

    /** handleSubmit: the three checks return early; then the body is built part by part. */
    method HandleSubmit() returns (s: Submission)
      ensures s == Submit(formData)
    {
      if !Truthy(formData.title) {
        return Stopped(NoTitle);
      }
      if !Truthy(formData.description) {
        return Stopped(NoDescription);
      }
      if !Truthy(formData.post) {
        return Stopped(NoFile);
      }
      var data: seq<Forms.Entry> := [];
      data := data + [Forms.Appended("title", formData.title)];
      data := data + [Forms.Appended("description", formData.description)];
      data := data + [Forms.Upload("post", formData.post)];
      s := Dispatched(data);
    }

    /** The effect's state change: on success the form and the preview are emptied. */
    method ReactToStore(error: Value, success: bool) returns (r: Reaction)
      modifies this
      ensures r == OnStoreChange(error, success)
      ensures success ==> formData == EmptyForm && preview == None
      ensures !success ==> formData == old(formData) && preview == old(preview)
    {
      r := OnStoreChange(error, success);
      if success {
        formData := EmptyForm;
        preview := None;
      }
    }
  }
}
