/** frontend/src/pages/trips/Trips.tsx: the trips list with its title search and status filter,
    the status buttons, and the load on mount. */
module TripsPage {
  import opened Wrappers
  import opened SeqUtil
  import opened ClientApi

  const LoadFailed: string := "We were unable to load your adventures. Please try again later"

  /** `toLowerCase` on one character, for the ASCII letters. */
  function LowerChar(c: char): (l: char)
    ensures 'A' <= c <= 'Z' ==> l as int == c as int + 32
    ensures !('A' <= c <= 'Z') ==> l == c
    ensures !('A' <= l <= 'Z')
  {
    if 'A' <= c <= 'Z' then (c as int + 32) as char else c
  }

  /** `toLowerCase`. */
  function Lower(s: string): (r: string)
    ensures |r| == |s| && forall i :: 0 <= i < |s| ==> r[i] == LowerChar(s[i])
  {
    if s == [] then [] else [LowerChar(s[0])] + Lower(s[1..])
  }

  /** Lowering a lowered string changes nothing. */
  lemma LowerIdempotent(s: string)
    ensures Lower(Lower(s)) == Lower(s)
  {
    assert forall i :: 0 <= i < |s| ==> LowerChar(LowerChar(s[i])) == LowerChar(s[i]);
  }

  /** `s.startsWith(prefix)`. */
  predicate StartsWith(s: string, prefix: string) {
    |prefix| <= |s| && s[..|prefix|] == prefix
  }

  /** The test of `displayTrips`: the lowered title starts with the lowered query, or the query
      is empty; and the status is the chosen one, or none is chosen. */
  predicate Shown(trip: TripCard, query: string, status: Option<string>) {
    (Lower(query) == "" || StartsWith(Lower(trip.title), Lower(query)))
    && (status.None? || trip.status == status.value)
  }

  /** `displayTrips`: the loaded trips the filter keeps, in their order. */
  function DisplayTrips(trips: seq<TripCard>, query: string, status: Option<string>): (r: seq<TripCard>)
    ensures forall t :: t in r <==> t in trips && Shown(t, query, status)
    ensures IsSubsequence(r, trips)
    ensures forall t :: multiset(r)[t] == if Shown(t, query, status) then multiset(trips)[t] else 0
  {
    if trips == [] then []
    else
      assert trips == [trips[0]] + trips[1..];
      if Shown(trips[0], query, status) then [trips[0]] + DisplayTrips(trips[1..], query, status)
      else DisplayTrips(trips[1..], query, status)
  }

  /** With an empty query and no status chosen, every loaded trip is shown. */
  lemma {:induction false} NoFilterShowsAll(trips: seq<TripCard>)
    ensures DisplayTrips(trips, "", None) == trips
  {
    if trips != [] {
      NoFilterShowsAll(trips[1..]);
    }
  }

  /** The search ignores the case of the query. */
  lemma SearchIgnoresCase(trips: seq<TripCard>, query: string, status: Option<string>)
    ensures DisplayTrips(trips, Lower(query), status) == DisplayTrips(trips, query, status)
  {
    LowerIdempotent(query);
    SameFilterSameList(trips, Lower(query), query, status);
  }

  lemma {:induction false} SameFilterSameList(trips: seq<TripCard>, q1: string, q2: string, status: Option<string>)
    requires Lower(q1) == Lower(q2)
    ensures DisplayTrips(trips, q1, status) == DisplayTrips(trips, q2, status)
  {
    if trips != [] {
      SameFilterSameList(trips[1..], q1, q2, status);
    }
  }

  /** The status buttons: the active status clears the filter, any other selects it. */
  function Toggled(current: Option<string>, clicked: string): (r: Option<string>)
    ensures r == None <==> current == Some(clicked)
    ensures r != None ==> r == Some(clicked)
  {
    if current == Some(clicked) then None else Some(clicked)
  }

  /** The trips a successful load answers with; any other body gives no trips. */
  function TripsOf(data: Data): (t: seq<TripCard>)
    ensures data.TripList? ==> t == data.trips
    ensures t != [] ==> data.TripList?
  {
    if data.TripList? then data.trips else []
  }

  /** The page's signals. */
  class Trips {
    var tripList: seq<TripCard>
    var tripStatus: Option<string>
    var searchedTitle: string
    var isLoading: bool
    var error: Option<string>
    const client: ApiClient

    constructor(client: ApiClient)
      ensures tripList == [] && tripStatus == None && searchedTitle == "" && isLoading && error == None
      ensures this.client == client
    {
      tripList := [];
      tripStatus := None;
      searchedTitle := "";
      isLoading := true;
      error := None;
      this.client := client;
    }

    /** A click on a status button. */
    method ToggleStatus(status: string)
      modifies this
      ensures tripStatus == Toggled(old(tripStatus), status)
      ensures tripList == old(tripList) && searchedTitle == old(searchedTitle)
      ensures isLoading == old(isLoading) && error == old(error)
    {
      if tripStatus == Some(status) {
        tripStatus := None;
      } else {
        tripStatus := Some(status);
      }
    }

    /** `onMount`: loads the caller's trips; a failed load shows the error and leaves the list
        as it was. Loading ends either way. The helper catches every error, so the page's own
        catch block never runs. */
    method OnMount()
      modifies this, client
      ensures var x := Send(client.server, client.deviceId, old(client.session), TripsUrl, NoBody, false);
              && client.Snapshot() == After(old(client.Snapshot()), x)
              && !isLoading && tripStatus == old(tripStatus) && searchedTitle == old(searchedTitle)
              && (x.settled.Resolved? ==> tripList == TripsOf(x.settled.data) && error == old(error))
              && (!x.settled.Resolved? ==> tripList == old(tripList) && error == Some(LoadFailed))
    {
      var result := client.FindTripsByUserId();
      if result.Done? {
        tripList := TripsOf(result.data);
      } else {
        error := Some(LoadFailed);
      }
      isLoading := false;
    }
  }
}
