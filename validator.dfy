/**
 * `validateInputData` of routes/mapa-astral.js: checks the five fields of a
 * birth-chart request independently, collects one error per bad field, and
 * normalises the accepted data.
 */
module Validator {
  import opened Wrappers
  import opened JsValues
  import opened JsStrings

  /** The request body, destructured into the five fields the validator reads. */
  datatype Body = Body(date: Value, time: Value, lat: Value, lng: Value, name: Value)

  datatype Field = Date | Time | Lat | Lng | Name

  /** One message of the `errors` array; the Portuguese texts are not modelled. */
  datatype FieldError =
    | DateRequired | DateFormat
    | TimeRequired | TimeFormat
    | LatRequired | LatRange
    | LngRequired | LngRange
    | NameInvalid
  {
    function Field(): Field
    {
      match this
      case DateRequired | DateFormat => Date
      case TimeRequired | TimeFormat => Time
      case LatRequired | LatRange => Lat
      case LngRequired | LngRange => Lng
      case NameInvalid => Name
    }
  }

  /** The normalised data handed to the computation: coordinates as numbers, the name trimmed or absent. */
  datatype BirthData = BirthData(date: Value, time: Value, lat: real, lng: real, name: Option<string>)

  /** `{isValid, errors, data}`; `data` is kept only when the input is valid, the only case that reads it. */
  datatype Validation = Validation(isValid: bool, errors: seq<FieldError>, data: Option<BirthData>)
  {
    predicate WellFormed()
    {
      (isValid <==> errors == []) && (isValid <==> data.Some?)
    }
  }

  /**
   * Where `validateInputData` throws a TypeError: converting a field to a string
   * (lines 61, 68, 97 and 98), or calling `trim` on a name that has none (line 99).
   */
  datatype Thrown = ConversionAt(field: Field) | TrimNotAFunction
  {
    /** The message the runtime gives the error. */
    function Message(): string
    {
      match this
      case ConversionAt(_) => "Cannot convert object to primitive value"
      case TrimNotAFunction => "name?.trim is not a function"
    }
  }

  /** How a call of `validateInputData` ends: it returns a result, or it throws. */
  datatype Outcome = Returned(validation: Validation) | Threw(thrown: Thrown)

  /** `/^\d{4}-\d{2}-\d{2}$/` */
  const DatePattern: seq<CharClass> :=
    [Digit, Digit, Digit, Digit, Exactly('-'), Digit, Digit, Exactly('-'), Digit, Digit]

  /** `/^\d{2}:\d{2}:\d{2}$/` */
  const TimePattern: seq<CharClass> :=
    [Digit, Digit, Exactly(':'), Digit, Digit, Exactly(':'), Digit, Digit]

  /**
   * The text `RegExp.prototype.test` matches `v` against, when that text can
   * match a pattern made of digits, '-' and ':'. The decimal text of a number
   * and "true"/"false" never do (a numeral has no ':', and one with a '-' past
   * its first character also holds an 'e'), so those values give `None`.
   */
  function TestedText(v: Value): Option<string>
  {
    match v
    case Str(s) => Some(s)
    case Obj(t) => t
    case _ => None
  }

  /** Converting `v` to a string throws. */
  predicate ConversionThrows(v: Value)
  {
    v.Obj? && v.text.None?
  }

  /**
   * The first field whose string conversion throws, in the order the source
   * converts them: the date (line 61), the time (line 68), then the
   * coordinates (lines 97-98). An object is truthy, so lines 61 and 68 always
   * reach the conversion of an object.
   */
  function FirstConversionFailure(b: Body): (r: Option<Field>)
    ensures r.None? <==> !ConversionThrows(b.date) && !ConversionThrows(b.time) && !ConversionThrows(b.lat) && !ConversionThrows(b.lng)
    ensures r.Some? ==> r.value != Name
  {
    if ConversionThrows(b.date) then Some(Date)
    else if ConversionThrows(b.time) then Some(Time)
    else if ConversionThrows(b.lat) then Some(Lat)
    else if ConversionThrows(b.lng) then Some(Lng)
    else None
  }

  predicate Matches(v: Value, p: seq<CharClass>)
  {
    TestedText(v).Some? && FullMatch(TestedText(v).value, p)
  }

  /** `typeof v === 'number' && -bound <= v && v <= bound` */
  predicate NumberWithin(v: Value, bound: real)
  {
    v.Num? && -bound <= v.x <= bound
  }

  // One optional message per field (lines 59-89).

  function DateErrors(date: Value): seq<FieldError>
  {
    if !Truthy(date) then [DateRequired]
    else if !Matches(date, DatePattern) then [DateFormat]
    else []
  }

  function TimeErrors(time: Value): seq<FieldError>
  {
    if !Truthy(time) then [TimeRequired]
    else if !Matches(time, TimePattern) then [TimeFormat]
    else []
  }

  function LatErrors(lat: Value): seq<FieldError>
  {
    if IsNullish(lat) then [LatRequired]
    else if !NumberWithin(lat, 90.0) then [LatRange]
    else []
  }

  function LngErrors(lng: Value): seq<FieldError>
  {
    if IsNullish(lng) then [LngRequired]
    else if !NumberWithin(lng, 180.0) then [LngRange]
    else []
  }

  /** `name && (typeof name !== 'string' || name.trim().length < 1)` */
  function NameErrors(name: Value): seq<FieldError>
  {
    if Truthy(name) && (!name.Str? || Trim(name.s) == []) then [NameInvalid] else []
  }

  /** The errors array: the fields' messages in the order the source pushes them. */
  function Errors(b: Body): (errs: seq<FieldError>)
    ensures |errs| <= 5
  {
    DateErrors(b.date) + TimeErrors(b.time) + LatErrors(b.lat) + LngErrors(b.lng) + NameErrors(b.name)
  }

  function FieldErrors(b: Body, f: Field): seq<FieldError>
  {
    match f
    case Date => DateErrors(b.date)
    case Time => TimeErrors(b.time)
    case Lat => LatErrors(b.lat)
    case Lng => LngErrors(b.lng)
    case Name => NameErrors(b.name)
  }

  /** The messages of `errs` that concern field `f`, in order. */
  function About(errs: seq<FieldError>, f: Field): seq<FieldError>
  {
    if errs == [] then []
    else (if errs[0].Field() == f then [errs[0]] else []) + About(errs[1..], f)
  }

  /**
   * `name?.trim() || null` (line 99): `None` when the expression throws, which
   * it does for every name that is neither nullish nor a string, since such a
   * value has no `trim` method and `?.` only guards against null and undefined.
   */
  function NormalisedName(name: Value): (r: Option<Option<string>>)
    ensures r.Some? <==> IsNullish(name) || name.Str?
    ensures r.Some? && r.value.Some? ==> name.Str? && r.value.value == Trim(name.s) && r.value.value != []
    ensures name.Str? && Trim(name.s) != [] ==> r == Some(Some(Trim(name.s)))
  {
    match name
    case Undefined => Some(None)
    case Null => Some(None)
    case Str(s) => if Trim(s) == [] then Some(None) else Some(Some(Trim(s)))
    case _ => None
  }

  /** What `validateInputData(body)` does, as a function of the body. */
  function Validate(b: Body): (o: Outcome)
    ensures o.Returned? <==> FirstConversionFailure(b).None? && (IsNullish(b.name) || b.name.Str?)
    ensures FirstConversionFailure(b).Some? ==> o == Threw(ConversionAt(FirstConversionFailure(b).value))
    ensures o.Returned? ==> o.validation.WellFormed() && o.validation.errors == Errors(b)
    ensures o.Returned? && o.validation.isValid ==>
      && b.lat.Num? && b.lng.Num?
      && o.validation.data == Some(BirthData(b.date, b.time, b.lat.x, b.lng.x, NormalisedName(b.name).value))
  {
    var errs := Errors(b);
    match FirstConversionFailure(b)
    case Some(f) => Threw(ConversionAt(f))
    case None =>
      match NormalisedName(b.name)
      case None => Threw(TrimNotAFunction)
      case Some(name) =>
        if errs == [] then
          Returned(Validation(true, errs, Some(BirthData(b.date, b.time, b.lat.x, b.lng.x, name))))
        else
          Returned(Validation(false, errs, None))
  }

  /**
   * Lines 59-63 and 66-70: a missing value, or one whose pattern test fails;
   * the test converts the value to a string, which may throw.
   */
  method CheckPattern(v: Value, p: seq<CharClass>, field: Field, required: FieldError, format: FieldError)
    returns (r: Result<seq<FieldError>, Thrown>)
    ensures r.Failure? <==> ConversionThrows(v)
    ensures r.Failure? ==> r.error == ConversionAt(field)
    ensures r.Success? ==> r.value == if !Truthy(v) then [required] else if !Matches(v, p) then [format] else []
  {
    if !Truthy(v) {
      return Success([required]);
    } else if ConversionThrows(v) {
      return Failure(ConversionAt(field));
    } else if !Matches(v, p) {
      return Success([format]);
    }
    return Success([]);
  }

  /**
   * Lines 56-89: one push onto `errors` per failing field, every field checked,
   * unless testing the date or the time against its pattern throws.
   */
  method CollectErrors(b: Body) returns (r: Result<seq<FieldError>, Thrown>)
    ensures r.Failure? <==> ConversionThrows(b.date) || ConversionThrows(b.time)
    ensures r.Failure? ==> r.error == ConversionAt(if ConversionThrows(b.date) then Date else Time)
    ensures r.Success? ==> r.value == Errors(b)
  {
    var date := CheckPattern(b.date, DatePattern, Date, DateRequired, DateFormat);
    if date.Failure? {
      return date;
    }
    var time := CheckPattern(b.time, TimePattern, Time, TimeRequired, TimeFormat);
    if time.Failure? {
      return time;
    }
    var errors := date.value + time.value;
    if IsNullish(b.lat) {
      errors := errors + [LatRequired];
    } else if !b.lat.Num? || b.lat.x < -90.0 || b.lat.x > 90.0 {
      errors := errors + [LatRange];
    }
    assert errors == DateErrors(b.date) + TimeErrors(b.time) + LatErrors(b.lat);
    if IsNullish(b.lng) {
      errors := errors + [LngRequired];
    } else if !b.lng.Num? || b.lng.x < -180.0 || b.lng.x > 180.0 {
      errors := errors + [LngRange];
    }
    assert errors == DateErrors(b.date) + TimeErrors(b.time) + LatErrors(b.lat) + LngErrors(b.lng);
    if Truthy(b.name) && (!b.name.Str? || Trim(b.name.s) == []) {
      errors := errors + [NameInvalid];
    }
    return Success(errors);
  }

  /**
   * The validator as the source writes it: collect the errors, then build the
   * result, converting the coordinates (lines 97-98) and trimming the name
   * (line 99); any of these steps may throw.
   */
  method ValidateInputData(b: Body) returns (o: Outcome)
    ensures o == Validate(b)
  {
    var collected := CollectErrors(b);
    if collected.Failure? {
      return Threw(collected.error);
    }
    var errors := collected.value;
    var isValid := errors == [];
    if ConversionThrows(b.lat) {
      return Threw(ConversionAt(Lat));
    }
    if ConversionThrows(b.lng) {
      return Threw(ConversionAt(Lng));
    }
    var name: Option<string>;
    match b.name {
      case Undefined => name := None;
      case Null => name := None;
      case Str(s) =>
        var trimmed := Trim(s);
        name := if trimmed == [] then None else Some(trimmed);
      case _ =>
        return Threw(TrimNotAFunction);
    }
    assert NormalisedName(b.name) == Some(name);
    ValidateReturns(b, name);
    if isValid {
      o := Returned(Validation(true, errors, Some(BirthData(b.date, b.time, b.lat.x, b.lng.x, name))));
    } else {
      o := Returned(Validation(false, errors, None));
    }
  }

  lemma ValidateReturns(b: Body, name: Option<string>)
    requires FirstConversionFailure(b).None? && NormalisedName(b.name) == Some(name)
    ensures Validate(b) == if Errors(b) == [] then
        Returned(Validation(true, Errors(b), Some(BirthData(b.date, b.time, b.lat.x, b.lng.x, name))))
      else
        Returned(Validation(false, Errors(b), None))
  {
  }

  // Field by field.

  lemma {:induction false} AboutConcat(a: seq<FieldError>, b: seq<FieldError>, f: Field)
    ensures About(a + b, f) == About(a, f) + About(b, f)
  {
    if a != [] {
      assert (a + b)[0] == a[0];
      assert (a + b)[1..] == a[1..] + b;
      AboutConcat(a[1..], b, f);
    } else {
      assert a + b == b;
    }
  }

  /** Each field's messages in the errors array are exactly what that field's own check gives: no short-circuit. */
  lemma ErrorsOfField(b: Body, f: Field)
    ensures About(Errors(b), f) == FieldErrors(b, f)
    ensures |About(Errors(b), f)| <= 1
  {
    AboutOfParts(DateErrors(b.date), TimeErrors(b.time), LatErrors(b.lat), LngErrors(b.lng), NameErrors(b.name), f);
  }

  /** Selecting one field's messages from a sequence whose messages all concern one field `g`. */
  lemma {:induction false} AboutOneField(s: seq<FieldError>, g: Field, f: Field)
    requires forall e :: e in s ==> e.Field() == g
    ensures About(s, f) == if f == g then s else []
  {
    if s != [] {
      AboutOneField(s[1..], g, f);
    }
  }

  lemma AboutOfParts(d: seq<FieldError>, t: seq<FieldError>, la: seq<FieldError>, ln: seq<FieldError>, n: seq<FieldError>, f: Field)
    requires forall e :: e in d ==> e.Field() == Date
    requires forall e :: e in t ==> e.Field() == Time
    requires forall e :: e in la ==> e.Field() == Lat
    requires forall e :: e in ln ==> e.Field() == Lng
    requires forall e :: e in n ==> e.Field() == Name
    ensures About(d + t + la + ln + n, f) ==
      match f
      case Date => d
      case Time => t
      case Lat => la
      case Lng => ln
      case Name => n
  {
    AboutConcat(d + t + la + ln, n, f);
    AboutConcat(d + t + la, ln, f);
    AboutConcat(d + t, la, f);
    AboutConcat(d, t, f);
    assert About(d + t + la + ln + n, f) == About(d, f) + About(t, f) + About(la, f) + About(ln, f) + About(n, f);
    AboutOneField(d, Date, f);
    AboutOneField(t, Time, f);
    AboutOneField(la, Lat, f);
    AboutOneField(ln, Lng, f);
    AboutOneField(n, Name, f);
    match f {
      case Date => assert About(d, f) + [] + [] + [] + [] == d;
      case Time => assert [] + About(t, f) + [] + [] + [] == t;
      case Lat => assert [] + [] + About(la, f) + [] + [] == la;
      case Lng => assert [] + [] + [] + About(ln, f) + [] == ln;
      case Name => assert [] + [] + [] + [] + About(n, f) == n;
    }
  }

  /** A valid result has no errors and an invalid one has at least one. */
  lemma ValidIffNoErrors(b: Body)
    requires Validate(b).Returned?
    ensures Validate(b).validation.isValid <==> forall f :: About(Errors(b), f) == []
  {
    if !Validate(b).validation.isValid {
      var e := Errors(b)[0];
      ErrorsOfField(b, e.Field());
      assert About(Errors(b), e.Field()) != [];
    } else {
      forall f ensures About(Errors(b), f) == [] { ErrorsOfField(b, f); }
    }
  }

  /** `\d{4}-\d{2}-\d{2}`, position by position. */
  predicate IsDateShape(s: string)
  {
    && |s| == 10 && s[4] == '-' && s[7] == '-'
    && forall i :: 0 <= i < 10 && i != 4 && i != 7 ==> IsDigit(s[i])
  }

  /** `\d{2}:\d{2}:\d{2}`, position by position. */
  predicate IsTimeShape(s: string)
  {
    && |s| == 8 && s[2] == ':' && s[5] == ':'
    && forall i :: 0 <= i < 8 && i != 2 && i != 5 ==> IsDigit(s[i])
  }

  lemma DatePatternShape(s: string)
    ensures FullMatch(s, DatePattern) <==> IsDateShape(s)
  {
    if IsDateShape(s) {
      forall i | 0 <= i < |s| ensures InClass(s[i], DatePattern[i]) {
        if i != 4 && i != 7 { assert IsDigit(s[i]); }
      }
    }
  }

  lemma TimePatternShape(s: string)
    ensures FullMatch(s, TimePattern) <==> IsTimeShape(s)
  {
    if IsTimeShape(s) {
      forall i | 0 <= i < |s| ensures InClass(s[i], TimePattern[i]) {
        if i != 2 && i != 5 { assert IsDigit(s[i]); }
      }
    }
  }

  /**
   * The date is accepted exactly when its text has the shape DDDD-DD-DD; an
   * empty or missing date gives the "required" message alone.
   */
  lemma DateAcceptedIff(b: Body)
    ensures About(Errors(b), Date) == [] <==> TestedText(b.date).Some? && IsDateShape(TestedText(b.date).value)
    ensures !Truthy(b.date) ==> About(Errors(b), Date) == [DateRequired]
    ensures Truthy(b.date) && About(Errors(b), Date) != [] ==> About(Errors(b), Date) == [DateFormat]
  {
    ErrorsOfField(b, Date);
    if TestedText(b.date).Some? {
      DatePatternShape(TestedText(b.date).value);
    }
  }

  /** The time is accepted exactly when its text has the shape DD:DD:DD. */
  lemma TimeAcceptedIff(b: Body)
    ensures About(Errors(b), Time) == [] <==> TestedText(b.time).Some? && IsTimeShape(TestedText(b.time).value)
    ensures !Truthy(b.time) ==> About(Errors(b), Time) == [TimeRequired]
    ensures Truthy(b.time) && About(Errors(b), Time) != [] ==> About(Errors(b), Time) == [TimeFormat]
  {
    ErrorsOfField(b, Time);
    if TestedText(b.time).Some? {
      TimePatternShape(TestedText(b.time).value);
    }
  }

  /** No calendar or clock check: month 13, day 99 and hour 99 are accepted. */
  lemma NoCalendarCheck()
    ensures IsDateShape("2024-13-99") && IsTimeShape("99:99:99")
    ensures FullMatch("2024-13-99", DatePattern) && FullMatch("99:99:99", TimePattern)
  {
    DatePatternShape("2024-13-99");
    TimePatternShape("99:99:99");
  }

  /**
   * Latitude is accepted exactly when it is a number in [-90, 90]; missing
   * gives "required", and a present non-number the range message.
   */
  lemma LatAcceptedIff(b: Body)
    ensures About(Errors(b), Lat) == [] <==> b.lat.Num? && -90.0 <= b.lat.x <= 90.0
    ensures About(Errors(b), Lat) == [LatRequired] <==> IsNullish(b.lat)
    ensures !IsNullish(b.lat) && !b.lat.Num? ==> About(Errors(b), Lat) == [LatRange]
  {
    ErrorsOfField(b, Lat);
  }

  /** Longitude is accepted exactly when it is a number in [-180, 180]. */
  lemma LngAcceptedIff(b: Body)
    ensures About(Errors(b), Lng) == [] <==> b.lng.Num? && -180.0 <= b.lng.x <= 180.0
    ensures About(Errors(b), Lng) == [LngRequired] <==> IsNullish(b.lng)
    ensures !IsNullish(b.lng) && !b.lng.Num? ==> About(Errors(b), Lng) == [LngRange]
  {
    ErrorsOfField(b, Lng);
  }

  /**
   * The name: absent or empty gives no error and no name; a string that is
   * not blank gives no error and is kept trimmed; a non-empty blank string
   * gives the one name message.
   */
  lemma NameOutcomes(b: Body)
    ensures (IsNullish(b.name) || b.name == Str("")) ==>
      About(Errors(b), Name) == [] && NormalisedName(b.name) == Some(None)
    ensures b.name.Str? && Trim(b.name.s) != [] ==>
      About(Errors(b), Name) == [] && NormalisedName(b.name) == Some(Some(Trim(b.name.s)))
    ensures b.name.Str? && b.name.s != [] && Trim(b.name.s) == [] ==>
      About(Errors(b), Name) == [NameInvalid] && NormalisedName(b.name) == Some(None)
    ensures About(Errors(b), Name) == [NameInvalid] <==>
      Truthy(b.name) && (!b.name.Str? || forall i :: 0 <= i < |b.name.s| ==> IsWhitespace(b.name.s[i]))
  {
    ErrorsOfField(b, Name);
    NameCases(b.name);
  }

  lemma NameCases(name: Value)
    ensures (IsNullish(name) || name == Str("")) ==> NameErrors(name) == [] && NormalisedName(name) == Some(None)
    ensures name.Str? && Trim(name.s) != [] ==> NameErrors(name) == [] && NormalisedName(name) == Some(Some(Trim(name.s)))
    ensures name.Str? && name.s != [] && Trim(name.s) == [] ==> NameErrors(name) == [NameInvalid] && NormalisedName(name) == Some(None)
    ensures NameErrors(name) == [NameInvalid] <==>
      Truthy(name) && (!name.Str? || forall i :: 0 <= i < |name.s| ==> IsWhitespace(name.s[i]))
  {
    match name {
      case Str(s) =>
        BlankStringName(s);
        StringNameCases(s);
      case _ =>
    }
  }

  lemma BlankStringName(s: string)
    ensures NameErrors(Str(s)) == [NameInvalid] <==> s != "" && forall i :: 0 <= i < |s| ==> IsWhitespace(s[i])
  {
    TrimEmptyIff(s);
  }

  lemma StringNameCases(s: string)
    ensures s == "" ==> NameErrors(Str(s)) == [] && NormalisedName(Str(s)) == Some(None)
    ensures Trim(s) != [] ==> NameErrors(Str(s)) == [] && NormalisedName(Str(s)) == Some(Some(Trim(s)))
    ensures s != "" && Trim(s) == [] ==> NameErrors(Str(s)) == [NameInvalid] && NormalisedName(Str(s)) == Some(None)
  {
    assert s == "" ==> Trim(s) == [];
  }
}

/**
 * The validator with line 99 corrected: the name is trimmed only when it is a
 * string, so a present non-string name is reported by the check of line 87
 * instead of escaping as a TypeError.
 */
module ValidatorFixed {
  import opened Wrappers
  import opened JsValues
  import opened JsStrings
  import opened Validator

  /** `typeof name === 'string' ? name.trim() || null : null` */
  function FixedName(name: Value): Option<string>
  {
    if name.Str? && Trim(name.s) != [] then Some(Trim(name.s)) else None
  }

  /**
   * The validator with line 99 corrected and nothing else: the conversions of
   * lines 61, 68, 97 and 98 still throw for a value that cannot be converted.
   */
  function ValidateFixed(b: Body): (o: Outcome)
    ensures o.Returned? <==> FirstConversionFailure(b).None?
    ensures o.Threw? ==> o == Threw(ConversionAt(FirstConversionFailure(b).value))
    ensures o.Returned? ==> o.validation.WellFormed() && o.validation.errors == Errors(b)
    ensures o.Returned? && o.validation.isValid ==>
      && b.lat.Num? && b.lng.Num?
      && o.validation.data == Some(BirthData(b.date, b.time, b.lat.x, b.lng.x, FixedName(b.name)))
  {
    var errs := Errors(b);
    match FirstConversionFailure(b)
    case Some(f) => Threw(ConversionAt(f))
    case None =>
      if errs == [] then Returned(Validation(true, errs, Some(BirthData(b.date, b.time, b.lat.x, b.lng.x, FixedName(b.name)))))
      else Returned(Validation(false, errs, None))
  }

  /**
   * As written, every present name that is not a string makes the validator
   * throw, dropping the errors it collected: at line 99, unless a conversion
   * throws first. A truthy one has already been given the name message.
   */
  lemma NonStringNameThrows(b: Body)
    requires !IsNullish(b.name) && !b.name.Str?
    ensures Validate(b).Threw?
    ensures FirstConversionFailure(b).None? ==> Validate(b) == Threw(TrimNotAFunction)
    ensures Truthy(b.name) ==> About(Errors(b), Name) == [NameInvalid]
  {
    NameOutcomes(b);
  }

  /** Concretely: a well-formed request whose name is the number 5. */
  lemma NumericNameThrows()
    ensures Validate(Body(Str("1990-05-20"), Str("14:30:00"), Num(-23.55), Num(-46.63), Num(5.0))) == Threw(TrimNotAFunction)
  {
  }

  /**
   * Concretely: a latitude object whose `toString` member is not a function.
   * Line 75 records the latitude message, then `parseFloat` at line 97 throws.
   */
  lemma UnconvertibleLatitudeThrows()
    ensures var b := Body(Str("1990-05-20"), Str("14:30:00"), Obj(None), Num(0.0), Undefined);
      Errors(b) == [LatRange] && Validate(b) == Threw(ConversionAt(Lat)) && ValidateFixed(b) == Validate(b)
  {
  }

  /**
   * Corrected, a truthy non-string name is answered with the name message and
   * an invalid result, unless a conversion throws first.
   */
  lemma FixedReportsNonStringName(b: Body)
    requires Truthy(b.name) && !b.name.Str?
    ensures ValidateFixed(b).Returned? <==> FirstConversionFailure(b).None?
    ensures ValidateFixed(b).Returned? ==> NameInvalid in ValidateFixed(b).validation.errors && !ValidateFixed(b).validation.isValid
  {
    NameOutcomes(b);
    assert NameInvalid in About(Errors(b), Name);
    AboutIn(Errors(b), Name, NameInvalid);
  }

  /** Wherever the source's validator returns, the corrected one returns the same result. */
  lemma FixedAgreesWhereSourceReturns(b: Body)
    requires Validate(b).Returned?
    ensures ValidateFixed(b) == Validate(b)
  {
  }

  /** The two validators differ only where line 99 throws: the source throws there, the corrected one returns. */
  lemma FixedDiffersOnlyAtTrim(b: Body)
    ensures ValidateFixed(b) != Validate(b) <==> Validate(b) == Threw(TrimNotAFunction)
  {
  }

  lemma {:induction false} AboutIn(errs: seq<FieldError>, f: Field, e: FieldError)
    requires e in About(errs, f)
    ensures e in errs
  {
    if errs != [] && e !in (if errs[0].Field() == f then [errs[0]] else []) {
      AboutIn(errs[1..], f, e);
    }
  }
}
