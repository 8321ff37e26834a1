/**
 * The list of nearby employees a client can book,
 * src/features/booking/EmployeeLists.jsx: the search and filter criteria, the
 * filtered list, and the skill chips on each card.
 *
 * The filter callback reads `emp.full_name.toLowerCase()` and
 * `(emp.location || "").toLowerCase()` without guards, so an employee whose
 * name is not a string, or whose location is truthy but not a string, makes
 * the callback throw and the page fail to render. The model writes that as
 * None.
 */
module EmployeeLists {
  import opened Js

  /** The four controls above the list. */
  datatype Criteria = Criteria(searchText: string, availability: string, minRating: int, locationFilter: string)

  /** Their initial values: empty search, "all", 0 and empty location. */
  const NoFilter := Criteria("", "all", 0, "")

  /**
   * The name test: a case-insensitive substring test. An empty search
   * matches every name; a search longer than the name matches none.
   */
  predicate NameMatch(name: string, search: string)
    ensures search == "" ==> NameMatch(name, search)
    ensures NameMatch(name, search) ==> |search| <= |name|
  {
    Includes(Lower(name), Lower(search))
  }

  /** "all" accepts everyone, "available" a truthy flag, any other value a falsy one. */
  predicate AvailabilityMatch(available: Value, availability: string)
    ensures availability == "all" ==> AvailabilityMatch(available, availability)
    ensures availability != "all" ==>
              (AvailabilityMatch(available, availability) <==> (Truthy(available) <==> availability == "available"))
  {
    if availability == "all" then true
    else if availability == "available" then Truthy(available)
    else !Truthy(available)
  }

  /** `(rating || 0) >= minRating`; a rating that is not a number compares false. */
  predicate RatingMatch(rating: Value, minRating: int)
    ensures rating.Num? && rating.n >= minRating ==> RatingMatch(rating, minRating)
    ensures rating.Num? && rating.n != 0 && rating.n < minRating ==> !RatingMatch(rating, minRating)
    ensures !Truthy(rating) ==> (RatingMatch(rating, minRating) <==> minRating <= 0)
    ensures rating.Arr? || rating.Object? ==> !RatingMatch(rating, minRating)
  {
    var n := ToNumber(Or(rating, Num(0)));
    n.Some? && n.value >= minRating
  }

  /**
   * The filter callback on one element of the list: Some(verdict), or None
   * when evaluating it throws.
   */
  function Accepts(emp: Value, c: Criteria): (verdict: Option<bool>)
    ensures verdict.None? <==> !Member(emp, "full_name").Str? || !Or(Member(emp, "location"), Str("")).Str?
    ensures verdict.Some? ==>
              (verdict.value <==>
                 && NameMatch(Member(emp, "full_name").s, c.searchText)
                 && AvailabilityMatch(Member(Member(emp, "employee_profile"), "available"), c.availability)
                 && RatingMatch(Member(Member(emp, "employee_profile"), "average_rating"), c.minRating)
                 && Includes(Lower(Or(Member(emp, "location"), Str("")).s), Lower(c.locationFilter)))
  {
    var name := Member(emp, "full_name");
    var location := Or(Member(emp, "location"), Str(""));
    if !name.Str? || !location.Str? then None
    else
      var profile := Member(emp, "employee_profile");
      Some(NameMatch(name.s, c.searchText) &&
           AvailabilityMatch(Member(profile, "available"), c.availability) &&
           RatingMatch(Member(profile, "average_rating"), c.minRating) &&
           Includes(Lower(location.s), Lower(c.locationFilter)))
  }

  /** `list.filter(...)` over the elements, None as soon as the callback throws on one. */
  function FilterList(list: seq<Value>, c: Criteria): (kept: Option<seq<Value>>)
    ensures kept.Some? <==> forall i :: 0 <= i < |list| ==> Accepts(list[i], c).Some?
    ensures kept.Some? ==> |kept.value| <= |list|
    decreases |list|
  {
    if list == [] then Some([])
    else
      assert forall i :: 1 <= i < |list| ==> list[i] == list[1..][i - 1];
      match Accepts(list[0], c)
      case None => None
      case Some(keep) =>
        match FilterList(list[1..], c)
        case None => None
        case Some(rest) => Some(if keep then [list[0]] + rest else rest)
  }

  /** The filter keeps exactly the elements the callback accepts. */
  lemma {:induction false} FilterListKeepsAccepted(list: seq<Value>, c: Criteria)
    requires FilterList(list, c).Some?
    ensures forall e :: e in FilterList(list, c).value ==> e in list && Accepts(e, c) == Some(true)
    ensures forall i :: 0 <= i < |list| && Accepts(list[i], c) == Some(true) ==> list[i] in FilterList(list, c).value
    decreases |list|
  {
    if list != [] {
      assert forall i :: 1 <= i < |list| ==> list[i] == list[1..][i - 1];
      FilterListKeepsAccepted(list[1..], c);
    }
  }

  /** The filter keeps relative order: it distributes over concatenation. */
  lemma {:induction false} FilterListDistributes(a: seq<Value>, b: seq<Value>, c: Criteria)
    requires FilterList(a, c).Some? && FilterList(b, c).Some?
    ensures FilterList(a + b, c) == Some(FilterList(a, c).value + FilterList(b, c).value)
    decreases |a|
  {
    if a == [] {
      assert a + b == b;
      assert FilterList(a, c) == Some([]);
      assert FilterList(a, c).value + FilterList(b, c).value == FilterList(b, c).value;
    } else {
      assert (a + b)[0] == a[0];
      assert (a + b)[1..] == a[1..] + b;
      var keep := Accepts(a[0], c).value;
      var restA := FilterList(a[1..], c).value;
      assert FilterList(a, c) == Some(if keep then [a[0]] + restA else restA);
      FilterListDistributes(a[1..], b, c);
      assert FilterList(a + b, c) == Some(if keep then [a[0]] + (restA + FilterList(b, c).value)
                                          else restA + FilterList(b, c).value);
      assert [a[0]] + (restA + FilterList(b, c).value) == ([a[0]] + restA) + FilterList(b, c).value;
    }
  }

  /** `(employeeList || []).filter(...)`: a falsy list gives []; a truthy non-array throws. */
  function FilteredEmployees(employeeList: Value, c: Criteria): (shown: Option<seq<Value>>)
    ensures !Truthy(employeeList) ==> shown == Some([])
    ensures employeeList.Arr? ==> shown == FilterList(employeeList.items, c)
    ensures Truthy(employeeList) && !employeeList.Arr? ==> shown.None?
  {
    if !Truthy(employeeList) then Some([])
    else if employeeList.Arr? then FilterList(employeeList.items, c)
    else None
  }

  /** An empty search matches every name. */
  lemma EmptySearchMatchesEveryName(name: string)
    ensures NameMatch(name, "")
  {
    assert Lower("") == "";
    assert StartsWith(Lower(name), "");
  }

  /** The name test only sees lower-cased text, so case never matters. */
  lemma NameMatchIgnoresCase(name: string, search: string)
    ensures NameMatch(name, search) == NameMatch(Lower(name), Lower(search))
  {
    LowerIsIdempotent(name);
    LowerIsIdempotent(search);
  }

  /**
   * With the initial criteria, every employee whose callback does not throw
   * and whose rating is missing or a non-negative number is kept.
   */
  lemma InitialCriteriaKeepEveryone(emp: Value)
    requires Accepts(emp, NoFilter).Some?
    requires RatingMatch(Member(Member(emp, "employee_profile"), "average_rating"), 0)
    ensures Accepts(emp, NoFilter) == Some(true)
  {
    EmptySearchMatchesEveryName(Member(emp, "full_name").s);
    EmptySearchMatchesEveryName(Or(Member(emp, "location"), Str("")).s);
  }

  /** A missing rating counts as 0, which passes the "All Ratings" choice. */
  lemma MissingRatingCountsAsZero(minRating: int)
    ensures RatingMatch(Undefined, minRating) <==> minRating <= 0
  {
  }

  /** A non-empty location filter rejects every employee without a location. */
  lemma LocationFilterNeedsLocation(emp: Value, c: Criteria)
    requires c.locationFilter != ""
    requires !Truthy(Member(emp, "location")) && Member(emp, "full_name").Str?
    ensures Accepts(emp, c) == Some(false)
  {
    assert Lower(Or(Member(emp, "location"), Str("")).s) == "";
    assert !Includes("", Lower(c.locationFilter));
  }

  // ---------------------------------------------------------------------------
  // Skill chips

  const MaxChips := 3

  /**
   * The chips on a card: an array of skills as it is, or a string split on
   * ","; at most the first three. A missing value gives no chips; any other
   * value has no `split` and throws (None).
   */
  function Chips(skills: Value): (chips: Option<seq<Value>>)
    ensures chips.Some? <==> skills.Arr? || skills.Str? || skills == Undefined || skills == Null
    ensures chips.Some? ==> |chips.value| <= MaxChips
    ensures skills.Arr? ==> chips.value == skills.items[..if |skills.items| < MaxChips then |skills.items| else MaxChips]
    ensures skills.Str? ==>
              var pieces := Split(skills.s, ',');
              |chips.value| == (if |pieces| < MaxChips then |pieces| else MaxChips) &&
              forall i :: 0 <= i < |chips.value| ==> chips.value[i] == Str(pieces[i])
  {
    match skills
    case Arr(items) => Some(items[..if |items| < MaxChips then |items| else MaxChips])
    case Str(s) =>
      var pieces := Split(s, ',');
      var n := if |pieces| < MaxChips then |pieces| else MaxChips;
      Some(seq(n, i requires 0 <= i < n => Str(pieces[i])))
    case Undefined => Some([])
    case Null => Some([])
    case _ => None
  }

  /** How many skills the card has before truncation. */
  function SkillCount(skills: Value): (n: nat)
    ensures skills.Arr? ==> n == |skills.items|
    ensures skills.Str? ==> n >= 1
    ensures skills.Str? && ',' !in skills.s ==> n == 1
    ensures !skills.Arr? && !skills.Str? ==> n == 0
  {
    match skills
    case Arr(items) => |items|
    case Str(s) =>
      if ',' in s then |Split(s, ',')|
      else
        SplitWithoutSeparator(s, ',');
        |Split(s, ',')|
    case _ => 0
  }

  /** The "..." chip as written: any array, or a string of more than three pieces. */
  predicate MoreChipAsWritten(skills: Value)
    ensures skills.Arr? ==> MoreChipAsWritten(skills)
    ensures !skills.Arr? ==> (MoreChipAsWritten(skills) <==> MoreChip(skills))
  {
    skills.Arr? || (skills.Str? && |Split(skills.s, ',')| > MaxChips)
  }

  /** The "..." chip as its comment means it: shown when some skill was cut off. */
  predicate MoreChip(skills: Value)
    ensures MoreChip(skills) ==> skills.Arr? || skills.Str?
    ensures skills.Arr? ==> (MoreChip(skills) <==> |skills.items| > MaxChips)
    ensures skills.Str? && ',' !in skills.s ==> !MoreChip(skills)
  {
    SkillCount(skills) > MaxChips
  }

  /** The intended chip appears exactly when the chips shown are fewer than the skills. */
  lemma MoreChipMeansTruncated(skills: Value)
    requires Chips(skills).Some?
    ensures MoreChip(skills) <==> |Chips(skills).value| < SkillCount(skills)
  {
  }

  /** For a string the two agree; an array with a single skill shows "..." as written. */
  lemma MoreChipOnShortArray()
    ensures forall s: string :: MoreChipAsWritten(Str(s)) == MoreChip(Str(s))
    ensures MoreChipAsWritten(Arr([Str("Plumbing")])) && !MoreChip(Arr([Str("Plumbing")]))
  {
  }
}
