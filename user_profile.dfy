/**
 * A client's own profile page, src/features/dashboard/user/UserProfile.jsx:
 * the form filled from the fetched profile, the field, picture and map
 * handlers, the multipart body handleSave sends, and the loading view shown
 * while the page has no coordinates.
 *
 * The page state is a class: the form, the marker coordinates `lat` and
 * `lng` (`null` before) and the picked file (`null` before). The browser's
 * `URL.createObjectURL` is a parameter.
 */
module UserProfile {
  import opened Js
  import Forms

  const Placeholder := "https://via.placeholder.com/120"

  /** The form (`formData`): the fields the server fills keep the value it sent. */
  datatype UserForm = UserForm(
    fullName: Value, phone: Value, location: Value,
    latitude: Value, longitude: Value, profileImage: string)

  const InitialForm := UserForm(Str(""), Str(""), Str(""), Str(""), Str(""), "")

  /**
   * The picture as written: any present path is put after the server's
   * address, even one that already is a full URL.
   */
  function ImageUrlAsWritten(image: Value): (url: string)
    ensures Truthy(image) ==> url == Forms.BaseUrl + Forms.StringOf(image)
    ensures !Truthy(image) ==> url == Placeholder
  {
    if Truthy(image) then Forms.BaseUrl + Forms.StringOf(image) else Placeholder
  }

  /**
   * A full URL from the server, such as "http://127.0.0.1:8000/media/a.png",
   * is shown with the server's address twice.
   */
  lemma FullUrlGetsPrefixedTwice(path: string)
    ensures ImageUrlAsWritten(Str(Forms.BaseUrl + path)) == Forms.BaseUrl + Forms.BaseUrl + path
  {
    assert (Forms.BaseUrl + path)[0] == 'h';
  }

  /**
   * The picture as the employee profile page computes it: a full URL as it
   * is, another present path under the server's address, the placeholder
   * when there is none.
   */
  function ImageUrl(image: Value): (url: string)
    ensures image.Str? && StartsWith(image.s, "http") ==> url == image.s
    ensures Truthy(image) && !(image.Str? && StartsWith(image.s, "http")) ==> url == ImageUrlAsWritten(image)
    ensures !Truthy(image) ==> url == Placeholder
  {
    if image.Str? && StartsWith(image.s, "http") then image.s else ImageUrlAsWritten(image)
  }

  /** The two agree on every relative path; they differ only on full URLs. */
  lemma ImageUrlFixesOnlyFullUrls(path: string)
    requires !StartsWith(path, "http")
    ensures ImageUrl(Str(path)) == ImageUrlAsWritten(Str(path))
  {
  }

  /** The full URL that the page as written doubles is shown once. */
  lemma FullUrlShownOnce(path: string)
    ensures ImageUrl(Str(Forms.BaseUrl + path)) == Forms.BaseUrl + path
  {
    assert (Forms.BaseUrl + path)[..4] == "http";
  }

  /**
   * The form a fetched profile fills: each text field the profile's value or
   * "", the picture resolved as the page writes it (every present path put
   * after the server's address).
   */
  function LoadedForm(userprofile: Value): (form: UserForm)
    ensures form.fullName == Or(Member(userprofile, "full_name"), Str(""))
    ensures form.phone == Or(Member(userprofile, "phone"), Str(""))
    ensures form.location == Or(Member(userprofile, "location"), Str(""))
    ensures form.latitude == Or(Member(userprofile, "latitude"), Str(""))
    ensures form.longitude == Or(Member(userprofile, "longitude"), Str(""))
    ensures form.profileImage == ImageUrlAsWritten(Member(userprofile, "profile_image"))
  {
    UserForm(
      fullName := Or(Member(userprofile, "full_name"), Str("")),
      phone := Or(Member(userprofile, "phone"), Str("")),
      location := Or(Member(userprofile, "location"), Str("")),
      latitude := Or(Member(userprofile, "latitude"), Str("")),
      longitude := Or(Member(userprofile, "longitude"), Str("")),
      profileImage := ImageUrlAsWritten(Member(userprofile, "profile_image")))
  }

  /**
   * The loaded picture is the intended one for a relative path, and doubles
   * the server's address for a full URL from that server.
   */
  lemma LoadedPictureDoublesOnlyFullUrls(fields: map<string, Value>, path: string)
    ensures !StartsWith(path, "http") ==>
              LoadedForm(Object(fields["profile_image" := Str(path)])).profileImage == ImageUrl(Str(path))
    ensures LoadedForm(Object(fields["profile_image" := Str(Forms.BaseUrl + path)])).profileImage
            == Forms.BaseUrl + Forms.BaseUrl + path
  {
    if !StartsWith(path, "http") {
      ImageUrlFixesOnlyFullUrls(path);
    }
    FullUrlGetsPrefixedTwice(path);
  }

  /**
   * handleChange: the input named `name` takes the typed text; a name that is
   * not a field of the form adds a key the page never reads.
   */
  function WithInput(form: UserForm, name: string, value: string): (r: UserForm)
    ensures name == "full_name" ==> r == form.(fullName := Str(value))
    ensures name == "phone" ==> r == form.(phone := Str(value))
    ensures name == "location" ==> r == form.(location := Str(value))
    ensures name == "latitude" ==> r == form.(latitude := Str(value))
    ensures name == "longitude" ==> r == form.(longitude := Str(value))
    ensures name == "profile_image" ==> r == form.(profileImage := value)
    ensures name !in ["full_name", "phone", "location", "latitude", "longitude", "profile_image"] ==> r == form
  {
    if name == "full_name" then form.(fullName := Str(value))
    else if name == "phone" then form.(phone := Str(value))
    else if name == "location" then form.(location := Str(value))
    else if name == "latitude" then form.(latitude := Str(value))
    else if name == "longitude" then form.(longitude := Str(value))
    else if name == "profile_image" then form.(profileImage := value)
    else form
  }

  /**
   * The body handleSave sends: the three text fields, then the marker's
   * coordinates (not the form's), then the picked file if there is one.
   */
  function SaveBody(form: UserForm, lat: Value, lng: Value, image: Value): (body: seq<Forms.Entry>)
    ensures |body| == if Truthy(image) then 6 else 5
    ensures body[3] == Forms.Appended("latitude", lat)
    ensures body[4] == Forms.Appended("longitude", lng)
    ensures Truthy(image) ==> body[5] == Forms.Upload("profile_image", image)
  {
    [Forms.Appended("full_name", form.fullName),
     Forms.Appended("phone", form.phone),
     Forms.Appended("location", form.location),
     Forms.Appended("latitude", lat),
     Forms.Appended("longitude", lng)]
    + (if Truthy(image) then [Forms.Upload("profile_image", image)] else [])
  }

  /** What is sent does not depend on the form's own coordinate fields or picture preview. */
  lemma SaveIgnoresFormCoordinates(form: UserForm, lat: Value, lng: Value, image: Value,
                                   latitude: Value, longitude: Value, preview: string)
    ensures SaveBody(form.(latitude := latitude, longitude := longitude, profileImage := preview), lat, lng, image)
            == SaveBody(form, lat, lng, image)
  {
  }

  /**
   * Saving straight after the profile arrives sends back what the server
   * sent: its three text fields (or "") and its coordinates.
   */
  lemma LoadThenSaveSendsProfileBack(userprofile: Value, image: Value)
    ensures var body := SaveBody(LoadedForm(userprofile), Member(userprofile, "latitude"),
                                 Member(userprofile, "longitude"), image);
            && Forms.Names(body[..5]) == ["full_name", "phone", "location", "latitude", "longitude"]
            && body[0].value == Or(Member(userprofile, "full_name"), Str(""))
            && body[1].value == Or(Member(userprofile, "phone"), Str(""))
            && body[2].value == Or(Member(userprofile, "location"), Str(""))
            && body[3].value == Member(userprofile, "latitude")
            && body[4].value == Member(userprofile, "longitude")
  {
    var body := SaveBody(LoadedForm(userprofile), Member(userprofile, "latitude"),
                         Member(userprofile, "longitude"), image);
    assert body[..5] == [Forms.Appended("full_name", Or(Member(userprofile, "full_name"), Str(""))),
                         Forms.Appended("phone", Or(Member(userprofile, "phone"), Str(""))),
                         Forms.Appended("location", Or(Member(userprofile, "location"), Str(""))),
                         Forms.Appended("latitude", Member(userprofile, "latitude")),
                         Forms.Appended("longitude", Member(userprofile, "longitude"))];
  }

  /** The page shows "Loading..." instead of the form while either coordinate is falsy. */
  predicate Loading(lat: Value, lng: Value)
    ensures lat in {Undefined, Null, Num(0), Str("")} ==> Loading(lat, lng)
    ensures lng in {Undefined, Null, Num(0), Str("")} ==> Loading(lat, lng)
    ensures !Loading(lat, lng) ==> lat.Num? || lat.Str? || lat.Bool? || lat.Arr? || lat.Object?
  {
    !Truthy(lat) || !Truthy(lng)
  }

  /**
   * A fresh page shows "Loading..." until a profile arrives; after a profile
   * is loaded the form shows exactly when the profile has both coordinates,
   * whatever the form's own coordinate fields hold.
   */
  lemma FormWaitsForCoordinates(userprofile: Value)
    ensures Loading(Null, Null)
    ensures !Loading(Member(userprofile, "latitude"), Member(userprofile, "longitude")) <==>
              Truthy(Member(userprofile, "latitude")) && Truthy(Member(userprofile, "longitude"))
  {
  }

  class UserProfileEditor {
    var formData: UserForm
    var lat: Value
    var lng: Value
    var selectedImage: Value

    constructor()
      ensures formData == InitialForm && lat == Null && lng == Null && selectedImage == Null
    {
      formData := InitialForm;
      lat := Null;
      lng := Null;
      selectedImage := Null;
    }

    /**
     * The effect run when the profile arrives: a truthy profile sets the
     * marker to its coordinates and refills the form; the picked file stays.
     */
    method LoadProfile(userprofile: Value)
      modifies this
      ensures !Truthy(userprofile) ==> unchanged(this)
      ensures Truthy(userprofile) ==>
                && lat == Member(userprofile, "latitude") && lng == Member(userprofile, "longitude")
                && formData == LoadedForm(userprofile)
                && selectedImage == old(selectedImage)
    {
      if Truthy(userprofile) {
        lat := Member(userprofile, "latitude");
        lng := Member(userprofile, "longitude");
        formData := LoadedForm(userprofile);
      }
    }

    /** handleChange. */
    method HandleChange(name: string, value: string)
      modifies this
      ensures formData == WithInput(old(formData), name, value)
      ensures lat == old(lat) && lng == old(lng) && selectedImage == old(selectedImage)
    {
      formData := WithInput(formData, name, value);
    }

    /** handleImageChange: a picked file is kept and previewed; no file changes nothing. */
    method HandleImageChange(file: Value, objectUrl: string)
      modifies this
      ensures !Truthy(file) ==> unchanged(this)
      ensures Truthy(file) ==>
                && selectedImage == file && formData == old(formData).(profileImage := objectUrl)
                && lat == old(lat) && lng == old(lng)
    {
      if Truthy(file) {
        selectedImage := file;
        formData := formData.(profileImage := objectUrl);
      }
    }

    /** A click on the map moves the marker there. */
    method PickLocation(clickedLat: Value, clickedLng: Value)
      modifies this
      ensures lat == clickedLat && lng == clickedLng
      ensures formData == old(formData) && selectedImage == old(selectedImage)
    {
      lat := clickedLat;
      lng := clickedLng;
    }

    /** handleSave: the parts appended one by one; there is no guard. */
    method HandleSave() returns (body: seq<Forms.Entry>)
      ensures body == SaveBody(formData, lat, lng, selectedImage)
    {
      body := [];
      body := body + [Forms.Appended("full_name", formData.fullName)];
      body := body + [Forms.Appended("phone", formData.phone)];
      body := body + [Forms.Appended("location", formData.location)];
      body := body + [Forms.Appended("latitude", lat)];
      body := body + [Forms.Appended("longitude", lng)];
      if Truthy(selectedImage) {
        body := body + [Forms.Upload("profile_image", selectedImage)];
      }
    }
  }
}
