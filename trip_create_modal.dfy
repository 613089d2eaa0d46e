/** frontend/src/components/TripCreateModal.tsx: the client's trip schema and the create
    handler, with the schema set side by side against the server's `createTripBody`. */
module TripCreateModal {
  import opened Wrappers
  import opened Schema
  import opened IsoDate
  import opened ClientApi
  import opened FormErrors
  import opened JsText
  import Http
  import TripSchema

  /** `CreateTripData`: every field of the form is a string. */
  datatype CreateTripData = CreateTripData(title: string, description: string, status: string,
                                           startDate: string, endDate: string)

  const TitleRequired: string := "Title required"
  const MinChars: string := "Min 4 chars"
  const DescriptionRequired: string := "Description required"
  const InvalidStatus: string := "Invalid status"
  const InvalidDate: string := "Invalid date"
  const EndBeforeStart: string := "End date must be after start"
  const MinTitleLength: int := 4

  /** The status a new form starts with. */
  const DefaultStatus: string := "WISHLIST"

  /** The fields of `tripErrors`. */
  const TripKeys: set<string> := {"title", "description", "status", "startDate", "endDate"}

  /** The empty form. */
  const EmptyForm: CreateTripData := CreateTripData("", "", DefaultStatus, "", "")

  /** The field rules of `CreateTripSchema`, in field order, lengths in UTF-16 code units; a pipe
      runs all its validation actions, so an empty title yields both of its issues. */
  function FieldIssues(d: CreateTripData): (r: seq<Issue>)
    ensures r == [] <==>
              && Utf16Length(d.title) >= MinTitleLength && d.description != ""
              && ParseTripStatus(d.status).Some? && IsIsoDate(d.startDate) && IsIsoDate(d.endDate)
    ensures forall i :: 0 <= i < |r| ==> r[i].key in TripKeys
  {
    (if d.title == "" then [Issue("title", TitleRequired)] else [])
    + (if Utf16Length(d.title) < MinTitleLength then [Issue("title", MinChars)] else [])
    + (if d.description == "" then [Issue("description", DescriptionRequired)] else [])
    + (if ParseTripStatus(d.status).None? then [Issue("status", InvalidStatus)] else [])
    + (if !IsIsoDate(d.startDate) then [Issue("startDate", InvalidDate)] else [])
    + (if !IsIsoDate(d.endDate) then [Issue("endDate", InvalidDate)] else [])
  }

  /** `forward(check(...), ['endDate'])`. The object's output is typed, so the check runs, unless
      the status is unknown: every other field is a string, and failed `nonEmpty`, `minLength`
      and `isoDate` actions leave it typed. */
  function OrderIssues(d: CreateTripData): (r: seq<Issue>)
    ensures r == [] <==> ParseTripStatus(d.status).None? || DatesOrdered(d.startDate, d.endDate)
    ensures r != [] ==> r == [Issue("endDate", EndBeforeStart)]
  {
    if ParseTripStatus(d.status).Some? && !DatesOrdered(d.startDate, d.endDate) then
      [Issue("endDate", EndBeforeStart)]
    else []
  }

  /** `CreateTripSchema`: the field rules, then the date order check. */
  function CreateTripIssues(d: CreateTripData): (r: seq<Issue>)
    ensures r == [] <==>
              && Utf16Length(d.title) >= MinTitleLength && d.description != ""
              && ParseTripStatus(d.status).Some? && IsIsoDate(d.startDate) && IsIsoDate(d.endDate)
              && EndsAfter(d.startDate, d.endDate)
    ensures forall i :: 0 <= i < |r| ==> r[i].key in TripKeys
    ensures FieldIssues(d) == [] && !EndsAfter(d.startDate, d.endDate) ==> r == [Issue("endDate", EndBeforeStart)]
  {
    FieldIssues(d) + OrderIssues(d)
  }

  /** With a known status and dates out of order, the `endDate` field shows the order message,
      whatever else the form gets wrong: the date order issue comes last and overwrites an
      'Invalid date' on the same field. */
  lemma EndDateShowsOrderMessage(entries: map<string, string>, d: CreateTripData)
    requires ParseTripStatus(d.status).Some? && !DatesOrdered(d.startDate, d.endDate)
    ensures var shown := Written(entries, CreateTripIssues(d));
            "endDate" in shown && shown["endDate"] == EndBeforeStart
  {
    var issues := CreateTripIssues(d);
    assert issues[|issues| - 1] == Issue("endDate", EndBeforeStart);
    LastIssueWins(entries, issues, |issues| - 1);
  }

  /** The issues of a form left blank except for a known status, such as the empty form: both
      title issues, the description, the start date's format, then the end date's format and its
      order. */
  lemma BlankFormIssues(d: CreateTripData)
    requires d.title == "" && d.description == "" && d.startDate == "" && d.endDate == ""
    requires ParseTripStatus(d.status).Some?
    ensures CreateTripIssues(d) ==
              [Issue("title", TitleRequired), Issue("title", MinChars),
               Issue("description", DescriptionRequired), Issue("startDate", InvalidDate),
               Issue("endDate", InvalidDate), Issue("endDate", EndBeforeStart)]
  {
    assert !IsIsoDate("");
  }

  /** On such a form the title shows 'Min 4 chars': the length issue comes after the required
      one. */
  lemma BlankFormTitleMessage(d: CreateTripData)
    requires d.title == "" && d.description == "" && d.startDate == "" && d.endDate == ""
    requires ParseTripStatus(d.status).Some?
    ensures Written(Blank(TripKeys), CreateTripIssues(d))["title"] == MinChars
  {
    BlankFormIssues(d);
    LastIssueWins(Blank(TripKeys), CreateTripIssues(d), 1);
  }

  /** On such a form the description shows 'Description required' and the status nothing. */
  lemma BlankFormDescriptionAndStatusMessages(d: CreateTripData)
    requires d.title == "" && d.description == "" && d.startDate == "" && d.endDate == ""
    requires ParseTripStatus(d.status).Some?
    ensures var shown := Written(Blank(TripKeys), CreateTripIssues(d));
            shown["description"] == DescriptionRequired && shown["status"] == ""
  {
    var blank := Blank(TripKeys);
    var issues := CreateTripIssues(d);
    BlankFormIssues(d);
    assert Written(blank, issues)["description"] == DescriptionRequired by {
      LastIssueWins(blank, issues, 2);
    }
    assert "status" in TripKeys;
    UnnamedFieldKept(blank, issues, "status");
  }

  /** On such a form the start date shows 'Invalid date' and the end date the order message. */
  lemma BlankFormDateMessages(d: CreateTripData)
    requires d.title == "" && d.description == "" && d.startDate == "" && d.endDate == ""
    requires ParseTripStatus(d.status).Some?
    ensures var shown := Written(Blank(TripKeys), CreateTripIssues(d));
            && shown["startDate"] == InvalidDate && shown["endDate"] == EndBeforeStart
  {
    var blank := Blank(TripKeys);
    var issues := CreateTripIssues(d);
    BlankFormIssues(d);
    LastIssueWins(blank, issues, 3);
    LastIssueWins(blank, issues, 5);
  }

  /** Submitting the empty form shows 'Min 4 chars' under the title, 'Description required',
      'Invalid date' under the start date and the order message under the end date, and leaves
      the status without a message. */
  lemma EmptyFormMessages()
    ensures var shown := Written(Blank(TripKeys), CreateTripIssues(EmptyForm));
            && shown["title"] == MinChars && shown["description"] == DescriptionRequired
            && shown["status"] == "" && shown["startDate"] == InvalidDate && shown["endDate"] == EndBeforeStart
  {
    assert ParseTripStatus(EmptyForm.status) == Some(WISHLIST);
    BlankFormTitleMessage(EmptyForm);
    BlankFormDescriptionAndStatusMessages(EmptyForm);
    BlankFormDateMessages(EmptyForm);
  }

  /** The form as the server's validator receives it: every field a JSON string. */
  function ServerBody(d: CreateTripData): TripSchema.TripBody {
    TripSchema.TripBody(Http.Text(d.title), Http.Text(d.description), Http.Text(d.status),
                        Http.Text(d.startDate), Http.Text(d.endDate))
  }

  /** A form the client accepts is accepted by the server when its title and description are
      within the server's cap of 250 code units, which the client does not check. */
  lemma ClientAcceptedWithinCapIsServerAccepted(d: CreateTripData)
    requires CreateTripIssues(d) == []
    requires Utf16Length(d.title) <= TripSchema.MaxLength && Utf16Length(d.description) <= TripSchema.MaxLength
    ensures TripSchema.CreateTripBody(ServerBody(d)) ==
              Success(TripSchema.NewTrip(d.title, Some(d.description), ParseTripStatus(d.status).value,
                                         d.startDate, d.endDate))
  {
  }

  /** A form the server accepts is accepted by the client unless its description is empty. */
  lemma ServerAcceptedDescribedIsClientAccepted(d: CreateTripData)
    requires TripSchema.CreateTripBody(ServerBody(d)).Success?
    requires d.description != ""
    ensures CreateTripIssues(d) == []
  {
  }

  /** The description is required only by the client: an empty one is refused by the client,
      while the server judges the form as if the description were left out. */
  lemma DescriptionRequiredOnlyOnClient(d: CreateTripData)
    requires d.description == ""
    ensures CreateTripIssues(d) != []
    ensures TripSchema.CreateTripBody(ServerBody(d)).Success?
            <==> TripSchema.CreateTripBody(ServerBody(d).(description := Http.Absent)).Success?
  {
  }

  /** Both sides run the date order check on the same forms: the client's form is typed exactly
      when the server's copy of it is. */
  lemma OrderCheckAgrees(d: CreateTripData)
    ensures OrderIssues(d) == [] <==> TripSchema.OrderIssues(ServerBody(d)) == []
  {
  }

  /** The title cap of 250 code units is only on the server: a longer title is refused there,
      while the client judges it as it judges any title of four or more units. */
  lemma TitleCapOnlyOnServer(d: CreateTripData)
    requires Utf16Length(d.title) > TripSchema.MaxLength
    ensures TripSchema.CreateTripBody(ServerBody(d)).Failure?
    ensures CreateTripIssues(d) == CreateTripIssues(d.(title := "Trip"))
  {
  }

  /** `/trips/${result.data.tripId}`, the page shown after a trip is created; a body without a
      trip id renders as `undefined`. The id in the path reads back as the created id. */
  function TripPath(data: Data): (p: string)
    ensures |p| > 7 && p[..7] == "/trips/"
    ensures data.TripCreatedData? ==> TripSchema.CreateTripCityParams(p[7..]) == Some(data.tripId)
  {
    if data.TripCreatedData? then
      TripSchema.NumberOfDecimal(data.tripId);
      "/trips/" + TripSchema.Decimal(data.tripId)
    else "/trips/undefined"
  }

  /** The body `createTrip` posts. */
  function AsBody(d: CreateTripData): Body {
    TripBody(d.title, d.description, d.status, d.startDate, d.endDate)
  }

  /** The create-trip modal: the form's data, its error store and where the router was sent. */
  class TripCreate {
    var data: CreateTripData
    const errors: ErrorStore
    var navigatedTo: Option<string>
    const client: ApiClient

    constructor(client: ApiClient)
      ensures data == EmptyForm && fresh(errors) && errors.entries == Blank(TripKeys)
      ensures navigatedTo == None && this.client == client
    {
      data := EmptyForm;
      errors := new ErrorStore(TripKeys);
      navigatedTo := None;
      this.client := client;
    }

    /** `handleTripCreate`: every error is cleared, then the form is either sent or its issues
        are written; a failed `createTrip` shows nothing. */
    method HandleTripCreate()
      modifies this, errors, client
      ensures data == old(data)
      ensures CreateTripIssues(data) != [] ==>
                && errors.entries == Written(old(errors.entries) + Blank(TripKeys), CreateTripIssues(data))
                && navigatedTo == old(navigatedTo) && client.Snapshot() == old(client.Snapshot())
      ensures CreateTripIssues(data) == [] ==>
                var x := Send(client.server, client.deviceId, old(client.session), TripsUrl, AsBody(data), false);
                var r := CaughtOutcome(x.settled, ServerTag);
                && errors.entries == old(errors.entries) + Blank(TripKeys)
                && client.Snapshot() == After(old(client.Snapshot()), x)
                && navigatedTo == (if r.Done? then Some(TripPath(r.data)) else old(navigatedTo))
    {
      errors.Clear(TripKeys);
      var issues := CreateTripIssues(data);
      if issues == [] {
        var result := client.CreateTrip(AsBody(data));
        if result.Done? {
          navigatedTo := Some(TripPath(result.data));
        }
      } else {
        errors.WriteIssues(issues);
      }
    }
  }
}
