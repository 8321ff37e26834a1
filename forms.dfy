/**
 * What the form pages share: `{ ...form, [name]: value }` field updates,
 * JavaScript's conversion of values to text (`String(v)`, `arr.join(sep)`),
 * the entries of a `FormData` body, and the server-relative image URLs.
 */
module Forms {
  import opened Js

  /** The backend every relative media path is served from. */
  const BaseUrl := "http://127.0.0.1:8000"

  /** `{ ...form, [name]: value }`: the field is set, every other field kept. */
  function WithField(form: Obj, name: string, value: Value): (r: Obj)
    ensures r.Keys == form.Keys + {name}
    ensures r[name] == value
    ensures forall k :: k in form && k != name ==> r[k] == form[k]
  {
    form[name := value]
  }

  // ---------------------------------------------------------------------------
  // Values as text

  /** `String(n)` for an integer. */
  function IntString(n: int): (s: string)
    ensures s != []
    ensures n >= 0 ==> s == DecimalString(n)
    ensures n < 0 ==> s == "-" + DecimalString(-n)
  {
    if n < 0 then "-" + DecimalString(-n) else DecimalString(n)
  }

  /**
   * `String(v)`, which is also what a template literal and `FormData.append`
   * make of a value. An array becomes its elements joined with ",".
   */
  function StringOf(v: Value): (r: string)
    ensures v.Str? ==> r == v.s
    ensures v.Num? ==> r == IntString(v.n)
    ensures v == Undefined ==> r == "undefined"
    ensures v == Null ==> r == "null"
    ensures v.Arr? && v.items == [] ==> r == ""
    ensures v.Arr? && |v.items| == 1 && v.items[0].Str? ==> r == v.items[0].s
    ensures v.Arr? && |v.items| == 1 && (v.items[0] == Undefined || v.items[0] == Null) ==> r == ""
    decreases v, 1
  {
    match v
    case Undefined => "undefined"
    case Null => "null"
    case Bool(b) => if b then "true" else "false"
    case Num(n) => IntString(n)
    case Str(s) => s
    case Arr(items) => Join(JoinPieces(items, v), ",")
    case Object(_) => "[object Object]"
  }

  /**
   * The texts `Array.prototype.join` puts between its separators: undefined
   * and null elements become "". `whole` is the array the items belong to.
   */
  function JoinPieces(items: seq<Value>, whole: Value): (pieces: seq<string>)
    requires whole == Arr(items)
    ensures |pieces| == |items|
    ensures forall i :: 0 <= i < |items| && items[i].Str? ==> pieces[i] == items[i].s
    decreases whole, 0
  {
    seq(|items|, i requires 0 <= i < |items| =>
      if items[i] == Undefined || items[i] == Null then "" else StringOf(items[i]))
  }

  /** `items.join(sep)`. */
  function ArrayJoin(items: seq<Value>, sep: string): (r: string)
    ensures items == [] ==> r == ""
    ensures |items| == 1 && items[0].Str? ==> r == items[0].s
    ensures |items| > 1 && items[0].Str? ==> StartsWith(r, items[0].s + sep)
  {
    Join(JoinPieces(items, Arr(items)), sep)
  }

  /** The text of a number reads back as that number. */
  lemma IntStringRoundTrip(n: int)
    ensures ToNumber(Str(IntString(n))) == Some(n)
  {
    var d := DecimalString(if n < 0 then -n else n);
    DecimalStringRoundTrip(if n < 0 then -n else n);
    if n >= 0 {
      NumberOfDigits(d);
    } else {
      var t := "-" + d;
      assert t[|t| - 1] == d[|d| - 1];
      TrimOfUnpadded(t);
      assert t[1..] == d;
      DecimalValueOfDigits(d);
    }
  }

  /** An array of strings joins to the strings themselves, joined. */
  lemma ArrayJoinOfStrings(parts: seq<string>, sep: string)
    ensures ArrayJoin(seq(|parts|, i requires 0 <= i < |parts| => Str(parts[i])), sep) == Join(parts, sep)
  {
    var items := seq(|parts|, i requires 0 <= i < |parts| => Str(parts[i]));
    assert JoinPieces(items, Arr(items)) == parts;
  }

  // ---------------------------------------------------------------------------
  // FormData

  /**
   * One `FormData.append(name, value)`: a value, which the body carries as
   * `String(value)`, or a selected file, which it carries as a file.
   */
  datatype Entry = Appended(name: string, value: Value) | Upload(name: string, file: Value)

  /** The text a value part carries. */
  function PartText(e: Entry): (text: string)
    requires e.Appended?
    ensures e.value.Str? ==> text == e.value.s
  {
    StringOf(e.value)
  }

  /** The names of a body's parts, in order. */
  function Names(entries: seq<Entry>): (names: seq<string>)
    ensures |names| == |entries|
    ensures forall i :: 0 <= i < |entries| ==> names[i] == entries[i].name
  {
    seq(|entries|, i requires 0 <= i < |entries| => entries[i].name)
  }

  // ---------------------------------------------------------------------------
  // Image URLs

  /**
   * An image path from the server as the profile pages show it: a full URL
   * as it is, another non-empty path under BaseUrl, the placeholder when it
   * is missing or empty. Only a string has `startsWith`; any other present
   * value throws (None).
   */
  function ImageUrl(raw: Value, placeholder: string): (url: Option<string>)
    ensures raw == Undefined || raw == Null || raw == Str("") ==> url == Some(placeholder)
    ensures raw.Str? && StartsWith(raw.s, "http") ==> url == Some(raw.s)
    ensures raw.Str? && raw.s != "" && !StartsWith(raw.s, "http") ==> url == Some(BaseUrl + raw.s)
    ensures url.None? <==> !raw.Str? && raw != Undefined && raw != Null
  {
    if raw == Undefined || raw == Null then Some(placeholder)
    else if !raw.Str? then None
    else if StartsWith(raw.s, "http") then Some(raw.s)
    else if raw.s != "" then Some(BaseUrl + raw.s)
    else Some(placeholder)
  }
}
