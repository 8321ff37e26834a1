/**
 * JavaScript values and the handful of built-in string operations the client
 * relies on, stated once so that every other module can share them.
 *
 * - `Value` is a JSON-like value as the backend and `localStorage` hand it to
 *   the client, with `Undefined` for a missing property.
 * - `Truthy`, `Or`, `Member` and `At` are JavaScript's truthiness, `a || b`,
 *   `v?.key` and `v?.[i]`.
 * - `Lower` is `String.prototype.toLowerCase` restricted to ASCII letters.
 * - `Trim`, `Split`, `Join`, `StartsWith`, `EndsWith`, `Includes` and
 *   `ReplaceFirst` are `trim`, `split(c)`, `join(sep)`, `startsWith`,
 *   `endsWith`, `includes` and `replace(c, d)` with a one-character pattern.
 */
module Js {

  datatype Option<+T> = None | Some(value: T)

  /** A JavaScript value as it arrives in a JSON body (numbers are integers here). */
  datatype Value =
    | Undefined
    | Null
    | Bool(b: bool)
    | Num(n: int)
    | Str(s: string)
    | Arr(items: seq<Value>)
    | Object(fields: map<string, Value>)

  /** A plain object such as a booking or a post: property name to value. */
  type Obj = map<string, Value>

  /** JavaScript truthiness: undefined, null, false, 0 and "" are falsy. */
  predicate Truthy(v: Value)
    ensures Truthy(v) ==> v !in {Undefined, Null, Bool(false), Num(0), Str("")}
    ensures v.Arr? || v.Object? || v == Bool(true) ==> Truthy(v)
    ensures v.Num? && v.n != 0 ==> Truthy(v)
    ensures v.Str? && v.s != "" ==> Truthy(v)
  {
    match v
    case Undefined => false
    case Null => false
    case Bool(b) => b
    case Num(n) => n != 0
    case Str(s) => s != ""
    case Arr(_) => true
    case Object(_) => true
  }

  /** `a || b`: the left operand when it is truthy, else the right one. */
  function Or(a: Value, b: Value): (r: Value)
    ensures Truthy(a) ==> r == a
    ensures !Truthy(a) ==> r == b
  {
    if Truthy(a) then a else b
  }

  /** `v?.key`: a property of an object, undefined for anything else. */
  function Member(v: Value, key: string): (r: Value)
    ensures v.Object? ==> r == Field(v.fields, key)
    ensures !v.Object? ==> r == Undefined
  {
    if v.Object? && key in v.fields then v.fields[key] else Undefined
  }

  /** A property of a plain object, undefined when it is missing. */
  function Field(o: Obj, key: string): (r: Value)
    ensures r != Undefined ==> key in o && o[key] == r
    ensures key in o ==> r == o[key]
  {
    if key in o then o[key] else Undefined
  }

  /** Setting a property changes what reading that property gives and nothing else. */
  lemma FieldAfterSet(o: Obj, key: string, v: Value, other: string)
    ensures Field(o[key := v], key) == v
    ensures other != key ==> Field(o[key := v], other) == Field(o, other)
  {
  }

  /**
   * `v?.[i]`: the element of an array, the one-character string of a string,
   * the property of an object named by the decimal text of `i`; undefined
   * past the end, and for undefined and null (where `?.` stops) or a number
   * or boolean (which has no such property).
   */
  function At(v: Value, i: nat): (r: Value)
    ensures v.Arr? && i < |v.items| ==> r == v.items[i]
    ensures v.Str? && i < |v.s| ==> r == Str([v.s[i]]) && Truthy(r)
    ensures v.Object? ==> r == Field(v.fields, DecimalString(i))
    ensures (v.Arr? && i >= |v.items|) || (v.Str? && i >= |v.s|) ==> r == Undefined
    ensures !v.Arr? && !v.Str? && !v.Object? ==> r == Undefined
  {
    match v
    case Arr(items) => if i < |items| then items[i] else Undefined
    case Str(s) => if i < |s| then Str([s[i]]) else Undefined
    case Object(fields) => Field(fields, DecimalString(i))
    case _ => Undefined
  }

  /** Index 0 of an object reads its property "0". */
  lemma AtZeroOfObject(fields: map<string, Value>)
    ensures At(Object(fields), 0) == Field(fields, "0")
  {
    assert DecimalString(0) == "0";
  }

  /**
   * The first truthy candidate, or the fallback when none is: the value of
   * `c0 || c1 || ... || fallback`.
   */
  function FirstTruthy(candidates: seq<Value>, fallback: Value): (r: Value)
    ensures forall i :: 0 <= i < |candidates| && Truthy(candidates[i]) &&
                        (forall j :: 0 <= j < i ==> !Truthy(candidates[j])) ==>
                          r == candidates[i]
    ensures (forall i :: 0 <= i < |candidates| ==> !Truthy(candidates[i])) ==> r == fallback
    ensures Truthy(fallback) ==> Truthy(r)
    decreases |candidates|
  {
    if candidates == [] then fallback
    else if Truthy(candidates[0]) then candidates[0]
    else FirstTruthy(candidates[1..], fallback)
  }

  /**
   * `data?.message || fallback`, the message most thunks reject with, where
   * `data` is the server's error body (undefined when no answer arrived).
   */
  function MessageOr(data: Value, fallback: string): (msg: Value)
    requires fallback != ""
    ensures Truthy(msg)
    ensures Truthy(Member(data, "message")) ==> msg == Member(data, "message")
    ensures !Truthy(Member(data, "message")) ==> msg == Str(fallback)
  {
    Or(Member(data, "message"), Str(fallback))
  }

  // ---------------------------------------------------------------------------
  // Numbers

  predicate IsDigit(c: char) {
    '0' <= c <= '9'
  }

  predicate AllDigits(s: string) {
    forall i :: 0 <= i < |s| ==> IsDigit(s[i])
  }

  /** The value of a string of decimal digits, most significant first. */
  function DigitsValue(s: string): nat
    requires AllDigits(s)
    decreases |s|
  {
    if s == [] then 0 else DigitsValue(s[..|s| - 1]) * 10 + (s[|s| - 1] as int - '0' as int)
  }

  predicate AllZeros(s: string) {
    forall i :: 0 <= i < |s| ==> s[i] == '0'
  }

  /** The position of the first `c` in `s`, or `|s|` when there is none. */
  function IndexOf(s: string, c: char): (k: nat)
    ensures k <= |s|
    ensures k < |s| ==> s[k] == c
    ensures forall i :: 0 <= i < k ==> s[i] != c
    decreases |s|
  {
    if s == [] || s[0] == c then 0 else 1 + IndexOf(s[1..], c)
  }

  /**
   * The integer a trimmed, non-empty numeric text spells: an optional sign,
   * decimal digits, then optionally "." and nothing but zeros, with at least
   * one digit in all ("7", "-7", "150.00", "150.", ".0"). None for any other
   * text, including one with a non-zero fraction.
   */
  function DecimalValue(t: string): Option<int> {
    var signed := |t| > 0 && (t[0] == '-' || t[0] == '+');
    var body := if signed then t[1..] else t;
    var k := IndexOf(body, '.');
    var whole := body[..k];
    var fraction := if k < |body| then body[k + 1..] else "";
    if AllDigits(whole) && AllZeros(fraction) && (whole != "" || fraction != "") then
      Some(if signed && t[0] == '-' then -(DigitsValue(whole) as int) else DigitsValue(whole))
    else None
  }

  /**
   * `Number(v)` for the integer-valued cases, with None standing for NaN. A
   * string is trimmed first; the empty string is 0; otherwise it is
   * `DecimalValue` of the trimmed text. An array or an object is NaN here.
   */
  function ToNumber(v: Value): (r: Option<int>)
    ensures v.Num? ==> r == Some(v.n)
    ensures v == Null || v == Bool(false) ==> r == Some(0)
    ensures v == Bool(true) ==> r == Some(1)
    ensures v == Undefined ==> r == None
  {
    match v
    case Undefined => None
    case Null => Some(0)
    case Bool(b) => Some(if b then 1 else 0)
    case Num(n) => Some(n)
    case Str(s) =>
      var t := Trim(s);
      if t == "" then Some(0) else DecimalValue(t)
    case Arr(_) => None
    case Object(_) => None
  }

  /** Text with no whitespace at either end is its own trim. */
  lemma TrimOfUnpadded(t: string)
    requires t != [] && !IsSpace(t[0]) && !IsSpace(t[|t| - 1])
    ensures Trim(t) == t
  {
    assert TrimStart(t) == t;
    assert TrimEnd(t) == t;
  }

  /** Digits, a point and zeros spell the number the digits spell. */
  lemma DecimalValueOfZeroFraction(digits: string, zeros: string)
    requires digits != "" && AllDigits(digits) && AllZeros(zeros)
    ensures DecimalValue(digits + "." + zeros) == Some(DigitsValue(digits))
  {
    var t := digits + "." + zeros;
    assert t[0] == digits[0];
    assert forall i :: 0 <= i < |digits| ==> t[i] == digits[i];
    assert t[|digits|] == '.';
    assert IndexOf(t, '.') == |digits|;
    assert t[..|digits|] == digits;
    assert t[|digits| + 1..] == zeros;
  }

  /** Plain digits spell the number they spell. */
  lemma DecimalValueOfDigits(digits: string)
    requires digits != "" && AllDigits(digits)
    ensures DecimalValue(digits) == Some(DigitsValue(digits))
  {
    assert IndexOf(digits, '.') == |digits|;
    assert digits[..|digits|] == digits;
  }

  /**
   * A whole number written with a zero fraction, as a decimal field arrives
   * from the server ("150.00"), converts to that whole number.
   */
  lemma ZeroFractionIsWhole(digits: string, zeros: string)
    requires digits != "" && AllDigits(digits) && AllZeros(zeros)
    ensures ToNumber(Str(digits + "." + zeros)) == Some(DigitsValue(digits))
  {
    var t := digits + "." + zeros;
    assert t[0] == digits[0];
    assert t[|t| - 1] == '.' || t[|t| - 1] == '0';
    TrimOfUnpadded(t);
    DecimalValueOfZeroFraction(digits, zeros);
  }

  /** `String(n)` for a natural number: its decimal digits, no leading zeros. */
  function DecimalString(n: nat): (s: string)
    ensures s != [] && AllDigits(s)
    ensures |s| > 1 ==> s[0] != '0'
    decreases n
  {
    var digit := ('0' as int + n % 10) as char;
    if n < 10 then [digit] else DecimalString(n / 10) + [digit]
  }

  /** Reading back the digits of a number gives the number. */
  lemma {:induction false} DecimalStringRoundTrip(n: nat)
    ensures DigitsValue(DecimalString(n)) == n
    decreases n
  {
    var s := DecimalString(n);
    if n >= 10 {
      DecimalStringRoundTrip(n / 10);
      assert s[..|s| - 1] == DecimalString(n / 10);
    }
  }

  /** A non-empty string of digits converts to the number it spells. */
  lemma NumberOfDigits(s: string)
    requires s != [] && AllDigits(s)
    ensures ToNumber(Str(s)) == Some(DigitsValue(s))
  {
    assert !IsSpace(s[0]) && !IsSpace(s[|s| - 1]);
    TrimOfUnpadded(s);
    DecimalValueOfDigits(s);
  }

  // ---------------------------------------------------------------------------
  // Characters and case

  /** `toLowerCase` on one character, for the ASCII letters only. */
  function LowerChar(c: char): char {
    if 'A' <= c <= 'Z' then (c as int + 32) as char else c
  }

  function Lower(s: string): (r: string)
    ensures |r| == |s|
    ensures forall i :: 0 <= i < |s| ==> r[i] == LowerChar(s[i])
  {
    seq(|s|, i requires 0 <= i < |s| => LowerChar(s[i]))
  }

  lemma LowerIsIdempotent(s: string)
    ensures Lower(Lower(s)) == Lower(s)
  {
  }

  // ---------------------------------------------------------------------------
  // Prefixes, suffixes, substrings

  /** `s.startsWith(prefix)`: the first characters of `s` are those of `prefix`. */
  predicate StartsWith(s: string, prefix: string)
    ensures StartsWith(s, prefix) ==> |prefix| <= |s|
    ensures prefix == "" || prefix == s ==> StartsWith(s, prefix)
  {
    |prefix| <= |s| && s[..|prefix|] == prefix
  }

  predicate EndsWith(s: string, suffix: string) {
    |suffix| <= |s| && s[|s| - |suffix|..] == suffix
  }

  /** `sub` occurs in `s` starting at position `k`. */
  predicate OccursAt(s: string, sub: string, k: nat) {
    k + |sub| <= |s| && s[k..k + |sub|] == sub
  }

  /** `s.includes(sub)`: `sub` occurs in `s` at some position. */
  predicate Includes(s: string, sub: string)
    ensures StartsWith(s, sub) ==> Includes(s, sub)
    ensures Includes(s, sub) ==> |sub| <= |s|
    decreases |s|
  {
    StartsWith(s, sub) || (s != [] && Includes(s[1..], sub))
  }

  lemma {:induction false} IncludesAt(s: string, sub: string, k: nat)
    requires OccursAt(s, sub, k)
    ensures Includes(s, sub)
    decreases k
  {
    if k > 0 {
      assert s[1..][k - 1..k - 1 + |sub|] == sub;
      IncludesAt(s[1..], sub, k - 1);
    }
  }

  lemma {:induction false} IncludesHasPosition(s: string, sub: string)
    requires Includes(s, sub)
    ensures exists k: nat :: OccursAt(s, sub, k)
    decreases |s|
  {
    if !StartsWith(s, sub) {
      IncludesHasPosition(s[1..], sub);
      var k: nat :| OccursAt(s[1..], sub, k);
      assert s[k + 1..k + 1 + |sub|] == s[1..][k..k + |sub|];
      assert OccursAt(s, sub, k + 1);
    } else {
      assert OccursAt(s, sub, 0);
    }
  }

  // ---------------------------------------------------------------------------
  // Whitespace and trim

  /**
   * The characters `String.prototype.trim` removes: ECMAScript WhiteSpace
   * (tab, vertical tab, form feed, the byte-order mark and every space
   * separator) and LineTerminator (LF, CR, U+2028, U+2029).
   */
  predicate IsSpace(c: char) {
    var k := c as int;
    (0x09 <= k <= 0x0D) || k == 0x20 || k == 0xA0 || k == 0x1680 || (0x2000 <= k <= 0x200A) ||
    k == 0x2028 || k == 0x2029 || k == 0x202F || k == 0x205F || k == 0x3000 || k == 0xFEFF
  }

  function TrimStart(s: string): (r: string)
    ensures |r| <= |s| && r == s[|s| - |r|..]
    ensures forall i :: 0 <= i < |s| - |r| ==> IsSpace(s[i])
    ensures r != [] ==> !IsSpace(r[0])
    decreases |s|
  {
    if s != [] && IsSpace(s[0]) then TrimStart(s[1..]) else s
  }

  function TrimEnd(s: string): (r: string)
    ensures |r| <= |s| && r == s[..|r|]
    ensures forall i :: |r| <= i < |s| ==> IsSpace(s[i])
    ensures r != [] ==> !IsSpace(r[|r| - 1])
    decreases |s|
  {
    if s != [] && IsSpace(s[|s| - 1]) then TrimEnd(s[..|s| - 1]) else s
  }

  /** `s.trim()`: `s` without its leading and trailing whitespace. */
  function Trim(s: string): (r: string)
    ensures |r| <= |s|
    ensures r != [] ==> !IsSpace(r[0]) && !IsSpace(r[|r| - 1])
  {
    TrimEnd(TrimStart(s))
  }

  /** `s.trim()` is empty exactly when `s` is all whitespace. */
  lemma TrimEmptyIffBlank(s: string)
    ensures Trim(s) == "" <==> forall i :: 0 <= i < |s| ==> IsSpace(s[i])
  {
    var t := TrimStart(s);
    var r := TrimEnd(t);
    var d := |s| - |t|;
    assert r != "" ==> r[0] == t[0] == s[d];
    assert r == "" ==> t == "";
  }

  lemma TrimIsIdempotent(s: string)
    ensures Trim(Trim(s)) == Trim(s)
  {
    var r := Trim(s);
    if r != [] {
      assert TrimStart(r) == r;
      assert TrimEnd(r) == r;
    }
  }

  // ---------------------------------------------------------------------------
  // split and join on a one-character separator

  /** `s.split(sep)` for a one-character separator: never empty, pieces free of `sep`. */
  function Split(s: string, sep: char): (parts: seq<string>)
    ensures |parts| >= 1
    ensures forall i :: 0 <= i < |parts| ==> sep !in parts[i]
    decreases |s|
  {
    if s == [] then [""]
    else
      var rest := Split(s[1..], sep);
      if s[0] == sep then [""] + rest
      else [[s[0]] + rest[0]] + rest[1..]
  }

  /** `parts.join(sep)`. */
  function Join(parts: seq<string>, sep: string): (r: string)
    ensures parts == [] ==> r == ""
    ensures parts != [] ==> |parts[0]| <= |r| && r[..|parts[0]|] == parts[0]
    ensures |parts| > 1 ==> |r| >= |parts[0]| + |sep|
    decreases |parts|
  {
    if parts == [] then ""
    else if |parts| == 1 then parts[0]
    else parts[0] + sep + Join(parts[1..], sep)
  }

  /** Splitting on a character and joining back with it gives the original string. */
  lemma {:induction false} JoinSplit(s: string, sep: char)
    ensures Join(Split(s, sep), [sep]) == s
    decreases |s|
  {
    if s != [] {
      var rest := Split(s[1..], sep);
      JoinSplit(s[1..], sep);
      if s[0] == sep {
        assert ([""] + rest)[1..] == rest;
      } else if |rest| > 1 {
        assert ([[s[0]] + rest[0]] + rest[1..])[1..] == rest[1..];
      }
    }
  }

  lemma {:induction false} SplitPieceThenRest(piece: string, sep: char, rest: string)
    requires sep !in piece
    ensures Split(piece + [sep] + rest, sep) == [piece] + Split(rest, sep)
    decreases |piece|
  {
    var s := piece + [sep] + rest;
    if piece == [] {
      assert s[1..] == rest;
    } else {
      assert s[1..] == piece[1..] + [sep] + rest;
      SplitPieceThenRest(piece[1..], sep, rest);
      assert [piece[0]] + piece[1..] == piece;
    }
  }

  lemma {:induction false} SplitWithoutSeparator(piece: string, sep: char)
    requires sep !in piece
    ensures Split(piece, sep) == [piece]
    decreases |piece|
  {
    if piece != [] {
      SplitWithoutSeparator(piece[1..], sep);
      assert [piece[0]] + piece[1..] == piece;
    }
  }

  /** Joining separator-free pieces and splitting again gives the pieces back. */
  lemma {:induction false} SplitJoin(parts: seq<string>, sep: char)
    requires |parts| >= 1
    requires forall i :: 0 <= i < |parts| ==> sep !in parts[i]
    ensures Split(Join(parts, [sep]), sep) == parts
    decreases |parts|
  {
    if |parts| == 1 {
      SplitWithoutSeparator(parts[0], sep);
    } else {
      SplitJoin(parts[1..], sep);
      SplitPieceThenRest(parts[0], sep, Join(parts[1..], [sep]));
      assert [parts[0]] + parts[1..] == parts;
    }
  }

  // ---------------------------------------------------------------------------
  // replace with a one-character pattern

  /** `s.replace(from, to)` with one-character strings: only the first occurrence changes. */
  function ReplaceFirst(s: string, from: char, to: char): (r: string)
    ensures |r| == |s|
    ensures from !in s ==> r == s
    decreases |s|
  {
    if s == [] then s
    else if s[0] == from then [to] + s[1..]
    else [s[0]] + ReplaceFirst(s[1..], from, to)
  }

  /** The occurrence at `k`, with none before it, is the one replaced; the rest is kept. */
  lemma {:induction false} ReplaceFirstAt(s: string, from: char, to: char, k: nat)
    requires k < |s| && s[k] == from && from !in s[..k]
    ensures ReplaceFirst(s, from, to) == s[..k] + [to] + s[k + 1..]
    decreases k
  {
    if k > 0 {
      assert s[0] == s[..k][0];
      assert s[1..][..k - 1] == s[1..k];
      assert s[1..k] == s[..k][1..];
      ReplaceFirstAt(s[1..], from, to, k - 1);
      assert s[..k] == [s[0]] + s[1..][..k - 1];
      assert s[k + 1..] == s[1..][k..];
    }
  }
}
