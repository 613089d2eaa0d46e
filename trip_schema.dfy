/** backend/src/trip/trip.schema.ts: the server's trip validators. A rejected body yields the
    list of its issues, one entry per issue, each naming the field it is attached to. */
module TripSchema {
  import opened Wrappers
  import opened Schema
  import opened Http
  import opened IsoDate
  import opened JsText

  /** The fields of a create-trip request body. */
  datatype TripBody = TripBody(title: Field, description: Field, status: Field, startDate: Field, endDate: Field)

  /** A validated trip. */
  datatype NewTrip = NewTrip(title: string, description: Option<string>, status: TripStatus,
                             startDate: string, endDate: string)

  const MaxLength: int := 250
  const MinTitleLength: int := 4

  /** `title: pipe(string(), maxLength(250), minLength(4))`, lengths in UTF-16 code units: both
      length actions run. */
  function TitleIssues(f: Field): (r: seq<string>)
    ensures r == [] <==> f.Text? && MinTitleLength <= Utf16Length(f.value) <= MaxLength
    ensures forall i :: 0 <= i < |r| ==> r[i] == "title"
  {
    if !f.Text? then ["title"]
    else
      var n := Utf16Length(f.value);
      (if n > MaxLength then ["title"] else []) + (if n < MinTitleLength then ["title"] else [])
  }

  /** `description: optional(pipe(string(), maxLength(250)))`: a missing key passes. */
  function DescriptionIssues(f: Field): (r: seq<string>)
    ensures r == [] <==> f.Absent? || (f.Text? && Utf16Length(f.value) <= MaxLength)
    ensures |r| <= 1 && forall i :: 0 <= i < |r| ==> r[i] == "description"
  {
    match f
    case Absent => []
    case Text(d) => if Utf16Length(d) > MaxLength then ["description"] else []
    case Other => ["description"]
  }

  /** `status: enum(tripStatus)`. */
  function StatusIssues(f: Field): (r: seq<string>)
    ensures r == [] <==> f.Text? && ParseTripStatus(f.value).Some?
    ensures |r| <= 1 && forall i :: 0 <= i < |r| ==> r[i] == "status"
  {
    if f.Text? && ParseTripStatus(f.value).Some? then [] else ["status"]
  }

  /** `pipe(string(), isoDate())` on the field named `name`. */
  function DateIssues(f: Field, name: string): (r: seq<string>)
    ensures r == [] <==> f.Text? && IsIsoDate(f.value)
    ensures |r| <= 1 && forall i :: 0 <= i < |r| ==> r[i] == name
  {
    if f.Text? && IsIsoDate(f.value) then [] else [name]
  }

  /** The issues of the field rules, in field order. A body none of whose fields has an issue is
      typed. */
  function FieldIssues(b: TripBody): (r: seq<string>)
    ensures r == [] ==> Typed(b)
  {
    TitleIssues(b.title) + DescriptionIssues(b.description) + StatusIssues(b.status)
    + DateIssues(b.startDate, "startDate") + DateIssues(b.endDate, "endDate")
  }

  /** The object schema leaves its output typed, so that the pipe goes on to the object-level
      check, when every field has the type its schema expects: a string title and dates, a
      string or missing description and a known status. A failed length or format action leaves
      its field typed. */
  predicate Typed(b: TripBody) {
    && b.title.Text? && !b.description.Other? && b.status.Text? && ParseTripStatus(b.status.value).Some?
    && b.startDate.Text? && b.endDate.Text?
  }

  /** `forward(check(...), ['endDate'])`: on a typed body, an issue on `endDate` unless the end
      date follows the start date. */
  function OrderIssues(b: TripBody): (r: seq<string>)
    ensures r == [] <==> !Typed(b) || DatesOrdered(b.startDate.value, b.endDate.value)
    ensures r != [] ==> r == ["endDate"]
  {
    if Typed(b) && !DatesOrdered(b.startDate.value, b.endDate.value) then ["endDate"] else []
  }

  /** `createTripBody`: the fields in declaration order, then the date order check whenever the
      body is typed, even when some field rule failed. */
  function CreateTripBody(b: TripBody): (r: Result<NewTrip, seq<string>>)
    ensures r.Success? <==>
              && b.title.Text? && MinTitleLength <= Utf16Length(b.title.value) <= MaxLength
              && (b.description.Absent? || (b.description.Text? && Utf16Length(b.description.value) <= MaxLength))
              && b.status.Text? && ParseTripStatus(b.status.value).Some?
              && b.startDate.Text? && IsIsoDate(b.startDate.value)
              && b.endDate.Text? && IsIsoDate(b.endDate.value)
              && EndsAfter(b.startDate.value, b.endDate.value)
    ensures r.Success? ==>
              r.value == NewTrip(b.title.value, if b.description.Text? then Some(b.description.value) else None,
                                 ParseTripStatus(b.status.value).value, b.startDate.value, b.endDate.value)
    ensures r.Failure? ==> |r.error| > 0
    ensures r.Success? ==> IsIsoDate(r.value.startDate) && IsIsoDate(r.value.endDate)
  {
    var issues := FieldIssues(b) + OrderIssues(b);
    if issues != [] then Failure(issues)
    else
      var description := if b.description.Text? then Some(b.description.value) else None;
      Success(NewTrip(b.title.value, description, ParseTripStatus(b.status.value).value,
                      b.startDate.value, b.endDate.value))
  }

  /** An otherwise valid body whose end date does not follow its start date is refused with one
      issue, attached to `endDate`. */
  lemma DateOrderIssueOnEndDate(b: TripBody)
    requires FieldIssues(b) == []
    requires !EndsAfter(b.startDate.value, b.endDate.value)
    ensures CreateTripBody(b) == Failure(["endDate"])
  {
    DateOrderCheckedDespiteFieldIssues(b);
    assert FieldIssues(b) + ["endDate"] == ["endDate"];
  }

  /** A typed body whose dates are out of order gets the `endDate` order issue after its field
      issues, whatever those are: a short title with reversed dates is refused on both counts. */
  lemma DateOrderCheckedDespiteFieldIssues(b: TripBody)
    requires Typed(b) && !DatesOrdered(b.startDate.value, b.endDate.value)
    ensures CreateTripBody(b) == Failure(FieldIssues(b) + ["endDate"])
  {
    assert OrderIssues(b) == ["endDate"];
  }

  /** A body that is not typed, such as one with an unknown status, is refused with its field
      issues alone: the date order is not checked. */
  lemma UntypedSkipsDateOrder(b: TripBody)
    requires !Typed(b)
    ensures CreateTripBody(b) == Failure(FieldIssues(b))
    ensures FieldIssues(b) != []
  {
    assert OrderIssues(b) == [];
    assert FieldIssues(b) + [] == FieldIssues(b);
  }

  /** The decimal value of a string of digits. */
  function DigitsValue(s: string): (n: nat)
    requires forall i :: 0 <= i < |s| ==> IsDigit(s[i])
  {
    if s == [] then 0 else 10 * DigitsValue(s[..|s| - 1]) + DigitValue(s[|s| - 1])
  }

  /** `Number(s)` followed by `number()`, for the forms the model covers: a string of decimal
      digits gives its value (the empty string gives 0); anything else is refused as `NaN`. */
  function NumberOf(s: string): (r: Option<int>)
    ensures r.Some? <==> forall i :: 0 <= i < |s| ==> IsDigit(s[i])
    ensures r.Some? ==> r.value >= 0
  {
    if forall i :: 0 <= i < |s| ==> IsDigit(s[i]) then Some(DigitsValue(s)) else None
  }

  /** The decimal rendering of a number, as a template literal writes it. */
  function Decimal(n: nat): (s: string)
    ensures |s| > 0 && forall i :: 0 <= i < |s| ==> IsDigit(s[i])
  {
    var last := ['0' + (n % 10) as char];
    if n < 10 then last else Decimal(n / 10) + last
  }

  /** Parsing a rendered id gives the id back, so a trip id survives the round trip through a
      route parameter. */
  lemma {:induction false} NumberOfDecimal(n: nat)
    ensures NumberOf(Decimal(n)) == Some(n)
  {
    var s := Decimal(n);
    assert DigitValue(s[|s| - 1]) == n % 10;
    if n >= 10 {
      NumberOfDecimal(n / 10);
      assert s[..|s| - 1] == Decimal(n / 10);
      assert DigitsValue(s) == 10 * (n / 10) + n % 10;
    } else {
      assert s[..|s| - 1] == [];
      assert DigitsValue(s) == n % 10;
    }
  }

  /** `createTripCityParams`: the `id` parameter, converted to a number. */
  function CreateTripCityParams(id: string): (r: Option<int>)
    ensures r.Some? <==> forall i :: 0 <= i < |id| ==> IsDigit(id[i])
    ensures forall n: nat :: id == Decimal(n) ==> r == Some(n)
  {
    forall n: nat | id == Decimal(n) ensures NumberOf(id) == Some(n) {
      NumberOfDecimal(n);
    }
    NumberOf(id)
  }

  /** `createTripCityBody`: `citiesId`, an array of numbers with at least one entry. `None` for
      the array models a value that is not an array of numbers. */
  function CreateTripCityBody(citiesId: Option<seq<int>>): (r: Option<seq<int>>)
    ensures r.Some? <==> citiesId.Some? && |citiesId.value| >= 1
    ensures r.Some? ==> r.value == citiesId.value
  {
    if citiesId.Some? && |citiesId.value| >= 1 then citiesId else None
  }
}
