/**
 * The employee's own profile editor,
 * src/features/dashboard/employee/ProfileSection.jsx: the form filled from
 * the fetched profile, the field, picture and map-location handlers, and the
 * multipart body that handleSave sends.
 *
 * The page state is a class: `localProfile` (the form, a dictionary of
 * fields), `selectedImage` (the file picked, `null` before) and `latLng`
 * (the marker, `null` before). The browser's `URL.createObjectURL` and
 * `localStorage` are parameters; `parseFloat` of the stored coordinates is
 * not modelled, so a coordinate keeps the value the server sent.
 */
module ProfileSection {
  import opened Js
  import Forms
  import ApiClient

  const Placeholder := "https://via.placeholder.com/120"

  /**
   * The form (`localProfile`). The fields the server fills keep the value it
   * sent; the experience, availability, skills and picture fields are always
   * text, and so is every value handleChange stores.
   */
  datatype ProfileForm = ProfileForm(
    fullName: Value, email: Value, phone: Value, location: Value,
    latitude: Value, longitude: Value, title: Value, bio: Value,
    experience: string, rate: Value, availability: string, skills: string,
    profileImage: string)

  /** The form before the profile arrives: every field empty, availability "available". */
  const InitialForm := ProfileForm(Str(""), Str(""), Str(""), Str(""), Str(""), Str(""), Str(""), Str(""),
                                   "", Str(""), "available", "", "")

  /** The marker position: the two coordinates as the page holds them. */
  datatype LatLng = LatLng(latitude: Value, longitude: Value)

  // ---------------------------------------------------------------------------
  // Filling the form

  /** One source of skills: an array joined with ", ", a string as it is, anything else "". */
  function SkillsFrom(skills: Value): (text: string)
    ensures skills.Str? ==> text == skills.s
    ensures !skills.Arr? && !skills.Str? ==> text == ""
  {
    match skills
    case Arr(items) => Forms.ArrayJoin(items, ", ")
    case Str(s) => s
    case _ => ""
  }

  /**
   * The skills text of the form: the employee record's skills when they are
   * truthy, otherwise the user record's skills when those are truthy,
   * otherwise "".
   */
  function SkillsText(profile: Value): (text: string)
    ensures var own := Member(Or(Member(profile, "employee_profile"), Object(map[])), "skills");
            && (Truthy(own) ==> text == SkillsFrom(own))
            && (!Truthy(own) && Truthy(Member(profile, "skills")) ==> text == SkillsFrom(Member(profile, "skills")))
            && (!Truthy(own) && !Truthy(Member(profile, "skills")) ==> text == "")
  {
    var emp := Or(Member(profile, "employee_profile"), Object(map[]));
    if Truthy(Member(emp, "skills")) then SkillsFrom(Member(emp, "skills"))
    else if Truthy(Member(profile, "skills")) then SkillsFrom(Member(profile, "skills"))
    else ""
  }

  /** `emp.experience?.toString() || ""`. */
  function ExperienceText(experience: Value): (text: string)
    ensures experience == Undefined || experience == Null ==> text == ""
    ensures experience.Str? ==> text == experience.s
  {
    if experience == Undefined || experience == Null then "" else Forms.StringOf(experience)
  }

  /**
   * The form the profile fills, or None when computing the picture throws (a
   * `profile_image` that is present but not a string). Text fields of the
   * user record fall back to "", the coordinates prefer the employee record,
   * the availability follows the employee's flag.
   */
  function LoadedForm(profile: Value): (form: Option<ProfileForm>)
    ensures form.None? <==> Forms.ImageUrl(Member(profile, "profile_image"), Placeholder).None?
    ensures form.Some? ==>
              var emp := Or(Member(profile, "employee_profile"), Object(map[]));
              && form.value.fullName == Or(Member(profile, "full_name"), Str(""))
              && form.value.email == Or(Member(profile, "email"), Str(""))
              && form.value.phone == Or(Member(profile, "phone"), Str(""))
              && form.value.location == Or(Member(profile, "location"), Str(""))
              && form.value.title == Or(Member(emp, "title"), Str(""))
              && form.value.bio == Or(Member(emp, "bio"), Str(""))
              && form.value.experience == ExperienceText(Member(emp, "experience"))
              && form.value.rate == Or(Member(emp, "hourly_rate"), Str(""))
              && form.value.latitude == Or(Or(Member(emp, "latitude"), Member(profile, "latitude")), Str(""))
              && form.value.longitude == Or(Or(Member(emp, "longitude"), Member(profile, "longitude")), Str(""))
              && form.value.availability == (if Truthy(Member(emp, "available")) then "available" else "unavailable")
              && form.value.skills == SkillsText(profile)
              && form.value.profileImage == Forms.ImageUrl(Member(profile, "profile_image"), Placeholder).value
  {
    var emp := Or(Member(profile, "employee_profile"), Object(map[]));
    match Forms.ImageUrl(Member(profile, "profile_image"), Placeholder)
    case None => None
    case Some(imageUrl) =>
      Some(ProfileForm(
        fullName := Or(Member(profile, "full_name"), Str("")),
        email := Or(Member(profile, "email"), Str("")),
        phone := Or(Member(profile, "phone"), Str("")),
        location := Or(Member(profile, "location"), Str("")),
        latitude := Or(Or(Member(emp, "latitude"), Member(profile, "latitude")), Str("")),
        longitude := Or(Or(Member(emp, "longitude"), Member(profile, "longitude")), Str("")),
        title := Or(Member(emp, "title"), Str("")),
        bio := Or(Member(emp, "bio"), Str("")),
        experience := ExperienceText(Member(emp, "experience")),
        rate := Or(Member(emp, "hourly_rate"), Str("")),
        availability := if Truthy(Member(emp, "available")) then "available" else "unavailable",
        skills := SkillsText(profile),
        profileImage := imageUrl))
  }

  /** The marker the profile places: only when the employee record has both coordinates. */
  function LoadedMarker(profile: Value): (marker: Option<LatLng>)
    ensures var emp := Or(Member(profile, "employee_profile"), Object(map[]));
            marker.Some? <==> Truthy(Member(emp, "latitude")) && Truthy(Member(emp, "longitude"))
  {
    var emp := Or(Member(profile, "employee_profile"), Object(map[]));
    if Truthy(Member(emp, "latitude")) && Truthy(Member(emp, "longitude"))
    then Some(LatLng(Member(emp, "latitude"), Member(emp, "longitude")))
    else None
  }

  // ---------------------------------------------------------------------------
  // The skills sent

  /** `.map(s => s.trim()).filter(Boolean)`. */
  function Clean(pieces: seq<string>): (kept: seq<string>)
    ensures |kept| <= |pieces|
    decreases |pieces|
  {
    if pieces == [] then []
    else (if Trim(pieces[0]) == "" then [] else [Trim(pieces[0])]) + Clean(pieces[1..])
  }

  /**
   * The skills handleSave sends: the text split on ",", trimmed, empty
   * pieces dropped; no more skills than pieces, and none for an empty text.
   */
  function SkillList(text: string): (skills: seq<string>)
    ensures |skills| <= |Split(text, ',')|
    ensures text == "" ==> skills == []
  {
    var pieces := Split(text, ',');
    assert text == "" ==> pieces == [""] && Trim("") == "" && pieces[1..] == [];
    Clean(pieces)
  }

  /** A skill as the list holds it: non-empty, without commas, not padded with whitespace. */
  predicate CleanSkill(p: string) {
    p != "" && ',' !in p && !IsSpace(p[0]) && !IsSpace(p[|p| - 1])
  }

  lemma TrimKeepsOut(s: string, c: char)
    requires c !in s
    ensures c !in Trim(s)
  {
    var t := TrimStart(s);
    assert c !in t by {
      forall j | 0 <= j < |t| ensures t[j] != c { assert t[j] == s[|s| - |t| + j]; }
    }
    var r := TrimEnd(t);
    forall j | 0 <= j < |r| ensures r[j] != c { assert r[j] == t[j]; }
  }

  lemma {:induction false} CleanIsClean(pieces: seq<string>)
    requires forall i :: 0 <= i < |pieces| ==> ',' !in pieces[i]
    ensures forall i :: 0 <= i < |Clean(pieces)| ==> CleanSkill(Clean(pieces)[i])
    decreases |pieces|
  {
    if pieces != [] {
      var t := Trim(pieces[0]);
      assert Clean(pieces) == (if t == "" then [] else [t]) + Clean(pieces[1..]);
      CleanIsClean(pieces[1..]);
      TrimKeepsOut(pieces[0], ',');
      assert t != "" ==> CleanSkill(t);
    }
  }

  /** Every skill sent is non-empty, comma-free and trimmed. */
  lemma SkillListIsClean(text: string)
    ensures forall i :: 0 <= i < |SkillList(text)| ==> CleanSkill(SkillList(text)[i])
  {
    CleanIsClean(Split(text, ','));
  }

  /** The array reaches FormData as its elements joined with ",". */
  function SkillsPart(text: string): (part: string)
    ensures SkillList(text) == [] ==> part == ""
    ensures |SkillList(text)| == 1 ==> part == SkillList(text)[0]
    ensures SkillList(text) != [] ==> StartsWith(part, SkillList(text)[0])
  {
    Join(SkillList(text), ",")
  }

  /** The server, splitting the part on ",", gets the list back whenever it is not empty. */
  lemma SkillsPartRoundTrip(text: string)
    requires SkillList(text) != []
    ensures Split(SkillsPart(text), ',') == SkillList(text)
  {
    SkillListIsClean(text);
    SplitJoin(SkillList(text), ',');
  }

  lemma {:induction false} TrimStartAfterSpaces(lead: string, p: string)
    requires forall i :: 0 <= i < |lead| ==> IsSpace(lead[i])
    ensures TrimStart(lead + p) == TrimStart(p)
    decreases |lead|
  {
    if lead == [] {
      assert lead + p == p;
    } else {
      assert (lead + p)[0] == lead[0] && IsSpace(lead[0]);
      assert (lead + p)[1..] == lead[1..] + p;
      TrimStartAfterSpaces(lead[1..], p);
    }
  }

  /** Whitespace in front of a clean skill, or of nothing, is trimmed away. */
  lemma TrimAfterSpaces(lead: string, p: string)
    requires forall i :: 0 <= i < |lead| ==> IsSpace(lead[i])
    requires p == "" || CleanSkill(p)
    ensures Trim(lead + p) == p
  {
    TrimStartAfterSpaces(lead, p);
    assert TrimStart(p) == p;
    assert TrimEnd(p) == p;
  }

  lemma CleanCons(x: string, tail: seq<string>)
    ensures Clean([x] + tail) == (if Trim(x) == "" then [] else [Trim(x)]) + Clean(tail)
  {
    assert ([x] + tail)[0] == x;
    assert ([x] + tail)[1..] == tail;
  }

  /** A piece of leading whitespace holds no comma. */
  lemma SpacesHaveNoComma(lead: string)
    requires forall i :: 0 <= i < |lead| ==> IsSpace(lead[i])
    ensures ',' !in lead
  {
    forall j | 0 <= j < |lead| ensures lead[j] != ',' { assert IsSpace(lead[j]); }
  }

  /** The last piece: whitespace and then one clean skill, or nothing. */
  lemma CleanOfLastPiece(lead: string, p: string)
    requires forall i :: 0 <= i < |lead| ==> IsSpace(lead[i])
    requires p == "" || CleanSkill(p)
    ensures Clean(Split(lead + p, ',')) == if p == "" then [] else [p]
  {
    SpacesHaveNoComma(lead);
    assert ',' !in lead + p;
    SplitWithoutSeparator(lead + p, ',');
    TrimAfterSpaces(lead, p);
    CleanCons(lead + p, []);
  }

  /** A first piece: whitespace, a clean skill, then the separator ", " and the rest. */
  lemma CleanOfFirstPiece(lead: string, p: string, rest: string)
    requires forall i :: 0 <= i < |lead| ==> IsSpace(lead[i])
    requires CleanSkill(p)
    ensures Clean(Split(lead + (p + ", " + rest), ',')) == [p] + Clean(Split(" " + rest, ','))
  {
    assert lead + (p + ", " + rest) == (lead + p) + [','] + (" " + rest);
    SpacesHaveNoComma(lead);
    assert ',' !in lead + p;
    SplitPieceThenRest(lead + p, ',', " " + rest);
    CleanCons(lead + p, Split(" " + rest, ','));
    TrimAfterSpaces(lead, p);
  }

  lemma {:induction false} CleanAfterSplit(lead: string, parts: seq<string>)
    requires forall i :: 0 <= i < |lead| ==> IsSpace(lead[i])
    requires forall i :: 0 <= i < |parts| ==> CleanSkill(parts[i])
    ensures Clean(Split(lead + Join(parts, ", "), ',')) == parts
    decreases |parts|
  {
    if parts == [] {
      assert lead + Join(parts, ", ") == lead + "";
      CleanOfLastPiece(lead, "");
    } else if |parts| == 1 {
      assert Join(parts, ", ") == parts[0];
      CleanOfLastPiece(lead, parts[0]);
    } else {
      var rest := Join(parts[1..], ", ");
      assert Join(parts, ", ") == parts[0] + ", " + rest;
      CleanOfFirstPiece(lead, parts[0], rest);
      CleanAfterSplit(" ", parts[1..]);
      assert [parts[0]] + parts[1..] == parts;
    }
  }

  /**
   * Skills the server lists come back unchanged when the form is saved: the
   * page shows them joined with ", " and handleSave splits that text on ","
   * and trims the pieces.
   */
  lemma SkillsSurviveReload(parts: seq<string>)
    requires forall i :: 0 <= i < |parts| ==> CleanSkill(parts[i])
    ensures SkillList(Join(parts, ", ")) == parts
  {
    CleanAfterSplit("", parts);
    assert "" + Join(parts, ", ") == Join(parts, ", ");
  }

  /** A profile whose employee record lists clean skills saves exactly those skills. */
  lemma LoadedSkillsAreSavedUnchanged(profile: Value, parts: seq<string>)
    requires Member(Or(Member(profile, "employee_profile"), Object(map[])), "skills")
             == Arr(seq(|parts|, i requires 0 <= i < |parts| => Str(parts[i])))
    requires parts != []
    requires forall i :: 0 <= i < |parts| ==> CleanSkill(parts[i])
    ensures SkillList(SkillsText(profile)) == parts
  {
    Forms.ArrayJoinOfStrings(parts, ", ");
    SkillsSurviveReload(parts);
  }

  // ---------------------------------------------------------------------------
  // Editing

  /** The names of the form's fields, as the inputs carry them. */
  const FieldNames := {"full_name", "email", "phone", "location", "latitude", "longitude", "title",
                       "bio", "experience", "rate", "availability", "skills", "profile_image"}

  /**
   * handleChange: the input named `name` takes the typed text. A name that is
   * not a field of the form adds a key the page never reads, so the form
   * stays as it was.
   */
  function WithInput(form: ProfileForm, name: string, value: string): (r: ProfileForm)
    ensures name == "full_name" ==> r == form.(fullName := Str(value))
    ensures name == "email" ==> r == form.(email := Str(value))
    ensures name == "phone" ==> r == form.(phone := Str(value))
    ensures name == "location" ==> r == form.(location := Str(value))
    ensures name == "latitude" ==> r == form.(latitude := Str(value))
    ensures name == "longitude" ==> r == form.(longitude := Str(value))
    ensures name == "title" ==> r == form.(title := Str(value))
    ensures name == "bio" ==> r == form.(bio := Str(value))
    ensures name == "experience" ==> r == form.(experience := value)
    ensures name == "rate" ==> r == form.(rate := Str(value))
    ensures name == "availability" ==> r == form.(availability := value)
    ensures name == "skills" ==> r == form.(skills := value)
    ensures name == "profile_image" ==> r == form.(profileImage := value)
    ensures name !in FieldNames ==> r == form
  {
    if name == "full_name" then form.(fullName := Str(value))
    else if name == "email" then form.(email := Str(value))
    else if name == "phone" then form.(phone := Str(value))
    else if name == "location" then form.(location := Str(value))
    else if name == "latitude" then form.(latitude := Str(value))
    else if name == "longitude" then form.(longitude := Str(value))
    else if name == "title" then form.(title := Str(value))
    else if name == "bio" then form.(bio := Str(value))
    else if name == "experience" then form.(experience := value)
    else if name == "rate" then form.(rate := Str(value))
    else if name == "availability" then form.(availability := value)
    else if name == "skills" then form.(skills := value)
    else if name == "profile_image" then form.(profileImage := value)
    else form
  }

  // ---------------------------------------------------------------------------
  // Saving

  datatype SaveOutcome =
    | NoToken                                 // "Unauthorized! Please log in again."
    | NoLocation                              // "Please select your location on the map."
    | Dispatched(body: seq<Forms.Entry>)      // updateEmployeeProfile(formData)

  /** The skills as handleSave appends them: an array of strings. */
  function SkillsArray(text: string): (v: Value)
    ensures v.Arr? && |v.items| == |SkillList(text)|
  {
    var skills := SkillList(text);
    Arr(seq(|skills|, i requires 0 <= i < |skills| => Str(skills[i])))
  }

  /** FormData carries the array as its strings joined with ",". */
  lemma SkillsArrayText(text: string)
    ensures Forms.StringOf(SkillsArray(text)) == SkillsPart(text)
  {
    Forms.ArrayJoinOfStrings(SkillList(text), ",");
  }

  /** The value parts of the body, in the order handleSave appends them. */
  function ValueParts(form: ProfileForm, marker: LatLng): (parts: seq<Forms.Entry>)
    ensures |parts| == 8
    ensures parts[4] == Forms.Appended("available", Bool(form.availability == "available"))
    ensures parts[5] == Forms.Appended("skills", SkillsArray(form.skills))
  {
    [Forms.Appended("title", form.title),
     Forms.Appended("bio", form.bio),
     Forms.Appended("experience", Str(form.experience)),
     Forms.Appended("hourly_rate", form.rate),
     Forms.Appended("available", Bool(form.availability == "available")),
     Forms.Appended("skills", SkillsArray(form.skills)),
     Forms.Appended("latitude", marker.latitude),
     Forms.Appended("longitude", marker.longitude)]
  }

  /** The whole body: the value parts, then the picture only when a file was picked. */
  function SaveBody(form: ProfileForm, marker: LatLng, image: Value): (body: seq<Forms.Entry>)
    ensures |body| == if Truthy(image) then 9 else 8
    ensures body[..8] == ValueParts(form, marker)
    ensures Truthy(image) ==> body[8] == Forms.Upload("profile_image", image)
  {
    ValueParts(form, marker) + if Truthy(image) then [Forms.Upload("profile_image", image)] else []
  }

  /** The "available" part reads "true" exactly when the availability field is "available". */
  lemma AvailablePartText(form: ProfileForm, marker: LatLng, image: Value)
    ensures Forms.PartText(SaveBody(form, marker, image)[4]) == "true" <==> form.availability == "available"
  {
    assert SaveBody(form, marker, image)[4] == ValueParts(form, marker)[4];
  }

  /** The part names, in order; the picture goes last and only when one was picked. */
  lemma SaveBodyNames(form: ProfileForm, marker: LatLng, image: Value)
    ensures Forms.Names(SaveBody(form, marker, image))
            == ["title", "bio", "experience", "hourly_rate", "available", "skills", "latitude", "longitude"]
               + (if Truthy(image) then ["profile_image"] else [])
  {
  }

  /** handleSave's decision: the token is checked first, the marker second. */
  function SaveRequest(storage: map<string, string>, form: ProfileForm, marker: Option<LatLng>, image: Value)
    : (outcome: SaveOutcome)
    ensures ApiClient.StoredToken(storage, ApiClient.AccessTokenKey).None? <==> outcome == NoToken
    ensures outcome == NoLocation <==>
              ApiClient.StoredToken(storage, ApiClient.AccessTokenKey).Some? && marker.None?
    ensures outcome.Dispatched? ==> marker.Some? && outcome.body == SaveBody(form, marker.value, image)
  {
    if ApiClient.StoredToken(storage, ApiClient.AccessTokenKey).None? then NoToken
    else if marker.None? then NoLocation
    else Dispatched(SaveBody(form, marker.value, image))
  }

  class ProfileEditor {
    var localProfile: ProfileForm
    var selectedImage: Value
    var latLng: Option<LatLng>

    constructor()
      ensures localProfile == InitialForm && selectedImage == Null && latLng == None
    {
      localProfile := InitialForm;
      selectedImage := Null;
      latLng := None;
    }

    /**
     * The effect run when the profile arrives: a falsy profile changes
     * nothing; otherwise the form is replaced (unless computing the picture
     * throws, `ok` false) and the marker placed when the employee record has
     * both coordinates. The picked file is kept.
     */
    method LoadProfile(profile: Value) returns (ok: bool)
      modifies this
      ensures ok <==> !Truthy(profile) || LoadedForm(profile).Some?
      ensures !ok || !Truthy(profile) ==> unchanged(this)
      ensures ok && Truthy(profile) ==>
                && localProfile == LoadedForm(profile).value
                && selectedImage == old(selectedImage)
                && latLng == (if LoadedMarker(profile).Some? then LoadedMarker(profile) else old(latLng))
    {
      if !Truthy(profile) {
        return true;
      }
      var form := LoadedForm(profile);
      if form.None? {
        return false;
      }
      localProfile := form.value;
      var marker := LoadedMarker(profile);
      if marker.Some? {
        latLng := marker;
      }
      ok := true;
    }

    /** handleChange: one text field takes the typed value. */
    method HandleChange(name: string, value: string)
      modifies this
      ensures localProfile == WithInput(old(localProfile), name, value)
      ensures selectedImage == old(selectedImage) && latLng == old(latLng)
    {
      localProfile := WithInput(localProfile, name, value);
    }

    /**
     * handleImageChange: a picked file becomes the selected image and its
     * object URL (`objectUrl`) the preview; no file changes nothing.
     */
    method HandleImageChange(file: Value, objectUrl: string)
      modifies this
      ensures !Truthy(file) ==> unchanged(this)
      ensures Truthy(file) ==>
                && selectedImage == file
                && localProfile == old(localProfile).(profileImage := objectUrl)
                && latLng == old(latLng)
    {
      if Truthy(file) {
        selectedImage := file;
        localProfile := localProfile.(profileImage := objectUrl);
      }
    }

    /** A click on the map moves the marker there. */
    method PickLocation(lat: Value, lng: Value)
      modifies this
      ensures latLng == Some(LatLng(lat, lng))
      ensures localProfile == old(localProfile) && selectedImage == old(selectedImage)
    {
      latLng := Some(LatLng(lat, lng));
    }

    /** handleSave: the guards in order, then the body appended part by part. */
    method HandleSave(storage: map<string, string>) returns (outcome: SaveOutcome)
      ensures outcome == SaveRequest(storage, localProfile, latLng, selectedImage)
    {
      if ApiClient.StoredToken(storage, ApiClient.AccessTokenKey).None? {
        return NoToken;
      }
      if latLng.None? {
        return NoLocation;
      }
      var form, marker, image := localProfile, latLng.value, selectedImage;
      var body: seq<Forms.Entry> := [];
      body := body + [Forms.Appended("title", form.title)];
      body := body + [Forms.Appended("bio", form.bio)];
      body := body + [Forms.Appended("experience", Str(form.experience))];
      body := body + [Forms.Appended("hourly_rate", form.rate)];
      assert body == ValueParts(form, marker)[..4];
      body := body + [Forms.Appended("available", Bool(form.availability == "available"))];
      body := body + [Forms.Appended("skills", SkillsArray(form.skills))];
      body := body + [Forms.Appended("latitude", marker.latitude)];
      body := body + [Forms.Appended("longitude", marker.longitude)];
      assert body == ValueParts(form, marker);
      if Truthy(image) {
        body := body + [Forms.Upload("profile_image", image)];
      }
      assert body == SaveBody(form, marker, image);
      outcome := Dispatched(body);
    }
  }

  /** Whatever the picked file, the skills typed reach the server as their cleaned list. */
  lemma SavedSkillsAreTheTypedList(storage: map<string, string>, form: ProfileForm, marker: LatLng, image: Value)
    requires ApiClient.StoredToken(storage, ApiClient.AccessTokenKey).Some?
    requires SkillList(form.skills) != []
    ensures var outcome := SaveRequest(storage, form, Some(marker), image);
            outcome.Dispatched? && Split(Forms.PartText(outcome.body[5]), ',') == SkillList(form.skills)
  {
    var body := SaveBody(form, marker, image);
    assert body[5] == ValueParts(form, marker)[5];
    SkillsArrayText(form.skills);
    SkillsPartRoundTrip(form.skills);
  }
}
