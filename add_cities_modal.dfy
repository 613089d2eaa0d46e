/** frontend/src/components/AddCitiesModal.tsx: picking cities for a trip and submitting them.
    The selection never holds two cities with the same id, so the ids sent are distinct. */
module AddCitiesModal {
  import opened Wrappers
  import opened SeqUtil
  import opened ClientApi
  import TripSchema

  const SubmitFailed: string := "Error adding cities to this trip"

  /** The parent's callbacks, in the order they were run. */
  datatype Callback = OnSuccess | OnClose

  /** No two selected cities share an id. */
  predicate DistinctIds(cities: seq<City>) {
    forall i, j :: 0 <= i < j < |cities| ==> cities[i].id != cities[j].id
  }

  /** `selectedCities().some(selected => selected.id === id)`. */
  predicate HasId(cities: seq<City>, id: int) {
    exists i :: 0 <= i < |cities| && cities[i].id == id
  }

  /** `selectedCities().map(c => c.id)`. */
  function Ids(cities: seq<City>): (ids: seq<int>)
    ensures |ids| == |cities| && forall i :: 0 <= i < |cities| ==> ids[i] == cities[i].id
  {
    if cities == [] then [] else [cities[0].id] + Ids(cities[1..])
  }

  /** `prev.filter(c => c.id !== cityId)`. */
  function Without(cities: seq<City>, id: int): (r: seq<City>)
    ensures forall c :: c in r <==> c in cities && c.id != id
    ensures IsSubsequence(r, cities)
    ensures forall c :: multiset(r)[c] == if c.id != id then multiset(cities)[c] else 0
  {
    if cities == [] then []
    else
      assert cities == [cities[0]] + cities[1..];
      if cities[0].id == id then Without(cities[1..], id)
      else [cities[0]] + Without(cities[1..], id)
  }

  /** Distinct ids stay distinct when cities are filtered out. */
  lemma {:induction false} WithoutKeepsDistinct(cities: seq<City>, id: int)
    requires DistinctIds(cities)
    ensures DistinctIds(Without(cities, id))
  {
    if cities != [] {
      var tail := cities[1..];
      assert DistinctIds(tail) by {
        forall i, j | 0 <= i < j < |tail| ensures tail[i].id != tail[j].id {
          assert tail[i] == cities[i + 1] && tail[j] == cities[j + 1];
        }
      }
      WithoutKeepsDistinct(tail, id);
      if cities[0].id != id {
        var r := Without(cities, id);
        var rest := Without(tail, id);
        assert r == [cities[0]] + rest;
        forall j | 1 <= j < |r| ensures r[0].id != r[j].id {
          assert r[j] == rest[j - 1];
          assert rest[j - 1] in tail;
        }
        forall i, j | 0 <= i < j < |r| ensures r[i].id != r[j].id {
          if i > 0 {
            assert r[i] == rest[i - 1] && r[j] == rest[j - 1];
          }
        }
      }
    }
  }

  /** A selection with distinct city ids sends distinct ids, the only kind the server's
      add-cities handler accepts. */
  lemma DistinctIdsSendDistinct(cities: seq<City>)
    requires DistinctIds(cities)
    ensures Distinct(Ids(cities))
  {
  }

  /** The selection after picking `city`: unchanged if its id is already there, otherwise the
      city appended at the end. */
  function Selected(cities: seq<City>, city: City): (r: seq<City>)
    ensures DistinctIds(cities) ==> DistinctIds(r)
    ensures HasId(r, city.id)
    ensures HasId(cities, city.id) ==> r == cities
    ensures !HasId(cities, city.id) ==> r == cities + [city]
  {
    if HasId(cities, city.id) then cities
    else
      assert (cities + [city])[|cities|] == city;
      cities + [city]
  }

  /** `/trips/${tripId}/cities`. */
  function CitiesPath(tripId: nat): string {
    "/trips/" + TripSchema.Decimal(tripId) + "/cities"
  }

  /** The modal's signals: the typed query, the suggestions (`None` for `null`), the
      selection, the loading flag and the error; `callbacks` records the parent's callbacks. */
  class AddCities {
    var cityName: string
    var cities: Option<seq<City>>
    var selected: seq<City>
    var isLoading: bool
    var error: Option<string>
    var callbacks: seq<Callback>
    const tripId: nat
    const client: ApiClient

    ghost predicate Valid()
      reads this
    {
      DistinctIds(selected)
    }

    constructor(tripId: nat, client: ApiClient)
      ensures Valid()
      ensures cityName == "" && cities == None && selected == [] && !isLoading && error == None
      ensures callbacks == [] && this.tripId == tripId && this.client == client
    {
      cityName := "";
      cities := None;
      selected := [];
      isLoading := false;
      error := None;
      callbacks := [];
      this.tripId := tripId;
      this.client := client;
    }

    /** `handleSelectCity`: a city already selected changes nothing; a new one is appended and
        the query and suggestions are cleared. */
    method SelectCity(city: City)
      requires Valid()
      modifies this
      ensures Valid()
      ensures selected == Selected(old(selected), city)
      ensures HasId(old(selected), city.id) ==> cityName == old(cityName) && cities == old(cities)
      ensures !HasId(old(selected), city.id) ==> cityName == "" && cities == None
      ensures isLoading == old(isLoading) && error == old(error) && callbacks == old(callbacks)
    {
      if HasId(selected, city.id) {
        return;
      }
      selected := selected + [city];
      cityName := "";
      cities := None;
    }

    /** `removeSelectedCity`. */
    method RemoveSelectedCity(cityId: int)
      requires Valid()
      modifies this
      ensures Valid()
      ensures selected == Without(old(selected), cityId)
      ensures cityName == old(cityName) && cities == old(cities) && isLoading == old(isLoading)
      ensures error == old(error) && callbacks == old(callbacks)
    {
      WithoutKeepsDistinct(selected, cityId);
      selected := Without(selected, cityId);
    }

    /** `handleSubmit`: an empty selection does nothing; otherwise the ids are sent in selection
        order; a failure shows the error and keeps the modal open, a success runs `onSuccess`
        and then `onClose`. */
    method HandleSubmit()
      requires Valid()
      modifies this, client
      ensures Valid() && selected == old(selected) && cityName == old(cityName) && cities == old(cities)
      ensures old(selected) == [] ==>
                isLoading == old(isLoading) && error == old(error) && callbacks == old(callbacks)
                && client.Snapshot() == old(client.Snapshot())
      ensures old(selected) != [] ==>
                var x := Send(client.server, client.deviceId, old(client.session), CitiesPath(tripId),
                              CityIdsBody(Ids(selected)), false);
                && Distinct(Ids(selected))
                && client.Snapshot() == After(old(client.Snapshot()), x)
                && !isLoading
                && (x.settled.Resolved? ==> error == old(error) && callbacks == old(callbacks) + [OnSuccess, OnClose])
                && (!x.settled.Resolved? ==> error == Some(SubmitFailed) && callbacks == old(callbacks))
    {
      if |selected| == 0 {
        return;
      }
      isLoading := true;
      var citiesToTrip := Ids(selected);
      DistinctIdsSendDistinct(selected);
      var response := client.CreateTripCities(CitiesPath(tripId), citiesToTrip);
      if !response.Done? {
        isLoading := false;
        error := Some(SubmitFailed);
        return;
      }
      callbacks := callbacks + [OnSuccess];
      callbacks := callbacks + [OnClose];
      isLoading := false;
    }

    /** The effect on the query: an empty query clears the suggestions; any other asks the
        server for matching cities. A failed search stores the helper's missing `data`, shown
        here as `None`. */
    method QueryEffect()
      requires Valid()
      modifies this, client
      ensures Valid() && selected == old(selected) && cityName == old(cityName)
      ensures isLoading == old(isLoading) && error == old(error) && callbacks == old(callbacks)
      ensures cityName == "" ==> cities == None && client.Snapshot() == old(client.Snapshot())
      ensures cityName != "" ==>
                var x := Send(client.server, client.deviceId, old(client.session), "/cities/" + cityName, NoBody, false);
                && client.Snapshot() == After(old(client.Snapshot()), x)
                && cities == (if x.settled.Resolved? && x.settled.data.CityList? then Some(x.settled.data.cities) else None)
    {
      if |cityName| == 0 {
        cities := None;
        return;
      }
      var result := client.FindCitiesByName("/cities/" + cityName);
      if result.Done? && result.data.CityList? {
        cities := Some(result.data.cities);
      } else {
        cities := None;
      }
    }
  }
}
