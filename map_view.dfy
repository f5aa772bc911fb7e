/**
 * The map page: it loads the disasters (falling back to five built-in sample records),
 * keeps only items with a usable coordinate pair, draws one marker per disaster with a
 * colour chosen by the exact alert level, and moves the map to a searched place.
 *
 * The two HTTP requests are parameters: the method that handles a response receives it.
 */
module MapView {
  import opened Js
  import opened ClientRecords
  import HeatMapLayer

  // ---------------------------------------------------------------------------
  // Loading the disasters

  /** The API's filter: a location whose `coordinates` has exactly two entries, neither NaN as a number. */
  predicate Accepted(p: Parsers, item: Item)
    requires !item.Nullish?
  {
    && item.Record?
    && item.fields.location.Coords?
    && |item.fields.location.values| == 2
    && !IsNaN(p, item.fields.location.values[0])
    && !IsNaN(p, item.fields.location.values[1])
  }

  /** The items `response.data.filter` keeps, or None when an item is `null`/`undefined` and the filter throws. */
  function ValidData(p: Parsers, items: seq<Item>): (r: Option<seq<Item>>)
    ensures r.None? <==> Nullish in items
    ensures r.Some? ==> |r.value| <= |items| && (forall x :: x in r.value ==> x in items && Accepted(p, x))
    ensures r.Some? ==> forall x :: x in items && Accepted(p, x) ==> x in r.value
    decreases |items|
  {
    if items == [] then Some([])
    else if items[0].Nullish? then None
    else match ValidData(p, items[1..])
      case None => None
      case Some(rest) => Some(if Accepted(p, items[0]) then [items[0]] + rest else rest)
  }

  /** One item: a `null` makes the filter throw; otherwise the item is kept exactly when accepted. */
  lemma ValidDataSingle(p: Parsers, x: Item)
    ensures ValidData(p, [x]) == if x.Nullish? then None else Some(if Accepted(p, x) then [x] else [])
  {
    assert [x][1..] == [];
    assert [x] + [] == [x];
  }

  /**
   * The filter keeps order and multiplicity: the items kept from a concatenation are
   * those kept from each part, in turn; it throws when either part does.
   */
  lemma {:induction false} ValidDataAppend(p: Parsers, a: seq<Item>, b: seq<Item>)
    ensures ValidData(p, a + b) ==
      if ValidData(p, a).Some? && ValidData(p, b).Some? then Some(ValidData(p, a).value + ValidData(p, b).value)
      else None
    decreases |a|
  {
    if a == [] {
      assert a + b == b;
      if ValidData(p, b).Some? {
        assert [] + ValidData(p, b).value == ValidData(p, b).value;
      }
    } else {
      var ab := a + b;
      assert ab[0] == a[0] && ab[1..] == a[1..] + b;
      ValidDataAppend(p, a[1..], b);
      if !a[0].Nullish? && ValidData(p, a[1..]).Some? && ValidData(p, b).Some? {
        var ra, rb := ValidData(p, a[1..]).value, ValidData(p, b).value;
        assert ValidData(p, ab[1..]) == Some(ra + rb);
        if Accepted(p, a[0]) {
          assert ValidData(p, a) == Some([a[0]] + ra);
          assert ValidData(p, ab) == Some([a[0]] + (ra + rb));
          assert [a[0]] + (ra + rb) == ([a[0]] + ra) + rb;
        } else {
          assert ValidData(p, a) == Some(ra);
          assert ValidData(p, ab) == Some(ra + rb);
        }
      }
    }
  }

  /** The sample records shown when the API fails or returns nothing; `now` stands for `new Date()`. */
  function MockDisasters(now: real): (ms: seq<Item>)
    ensures |ms| == 5
  {
    [ Sample("Earthquake in Japan", "6.5 magnitude earthquake", "EQ", "Orange", now, 139.767, 35.682, 0.7),
      Sample("Flooding in Thailand", "Severe flooding affecting Bangkok area", "FL", "Red", now, 100.501, 13.754, 0.9),
      Sample("Tropical Cyclone in Philippines", "Category 3 tropical cyclone", "TC", "Red", now, 120.984, 14.599, 0.85),
      Sample("Drought in Australia", "Ongoing drought conditions", "DR", "Green", now, 151.209, -33.868, 0.4),
      Sample("Volcanic Activity in Indonesia", "Increased activity at Mt. Merapi", "VO", "Orange", now, 110.446, -7.541, 0.65) ]
  }

  function Sample(title: string, description: string, kind: string, alertLevel: string, now: real,
                  lng: real, lat: real, severity: real): Item {
    Record(Fields(
      location := Coords([Num(Finite(lng)), Num(Finite(lat))]),
      alertLevel := Text(alertLevel),
      severity := Num(Finite(severity)),
      kind := Text(kind),
      date := Instant(Finite(now)),
      title := Text(title),
      description := Text(description)))
  }

  /** A record the API filter keeps, the heat map keeps, and whose heat is its own severity. */
  predicate Usable(p: Parsers, log10: real -> real, t: real, m: Item) {
    && !m.Nullish? && Accepted(p, m) && HeatMapLayer.Kept(m)
    && m.fields.severity.Num? && HeatMapLayer.CalculateIntensity(p, log10, t, m.fields) == m.fields.severity.n
  }

  /** A sample record with a severity in [0, 1] and non-zero coordinates on the globe passes both filters. */
  lemma SampleUsable(p: Parsers, log10: real -> real, t: real, title: string, description: string, kind: string,
                     alertLevel: string, now: real, lng: real, lat: real, severity: real)
    requires 0.0 <= severity <= 1.0
    requires lng != 0.0 && lat != 0.0 && -180.0 <= lng <= 180.0 && -90.0 <= lat <= 90.0
    ensures var m := Sample(title, description, kind, alertLevel, now, lng, lat, severity);
      && Usable(p, log10, t, m) && m.fields.severity.n == Finite(severity)
      && HeatMapLayer.PointOf(p, log10, t, m) == HeatMapLayer.HeatPoint(lat, lng, Finite(severity))
  {
  }

  /** Every sample record passes the API filter and the heat map's filter, and its heat is its severity. */
  lemma MockDisastersUsable(p: Parsers, log10: real -> real, now: real, t: real)
    ensures forall m :: m in MockDisasters(now) ==> Usable(p, log10, t, m)
    ensures ValidData(p, MockDisasters(now)) == Some(MockDisasters(now))
  {
    var m0 := Sample("Earthquake in Japan", "6.5 magnitude earthquake", "EQ", "Orange", now, 139.767, 35.682, 0.7);
    var m1 := Sample("Flooding in Thailand", "Severe flooding affecting Bangkok area", "FL", "Red", now, 100.501, 13.754, 0.9);
    var m2 := Sample("Tropical Cyclone in Philippines", "Category 3 tropical cyclone", "TC", "Red", now, 120.984, 14.599, 0.85);
    var m3 := Sample("Drought in Australia", "Ongoing drought conditions", "DR", "Green", now, 151.209, -33.868, 0.4);
    var m4 := Sample("Volcanic Activity in Indonesia", "Increased activity at Mt. Merapi", "VO", "Orange", now, 110.446, -7.541, 0.65);
    SampleUsable(p, log10, t, "Earthquake in Japan", "6.5 magnitude earthquake", "EQ", "Orange", now, 139.767, 35.682, 0.7);
    SampleUsable(p, log10, t, "Flooding in Thailand", "Severe flooding affecting Bangkok area", "FL", "Red", now, 100.501, 13.754, 0.9);
    SampleUsable(p, log10, t, "Tropical Cyclone in Philippines", "Category 3 tropical cyclone", "TC", "Red", now, 120.984, 14.599, 0.85);
    SampleUsable(p, log10, t, "Drought in Australia", "Ongoing drought conditions", "DR", "Green", now, 151.209, -33.868, 0.4);
    SampleUsable(p, log10, t, "Volcanic Activity in Indonesia", "Increased activity at Mt. Merapi", "VO", "Orange", now, 110.446, -7.541, 0.65);
    var ms := MockDisasters(now);
    assert ms == [m0, m1, m2, m3, m4];
    assert forall m :: m in ms ==> m == m0 || m == m1 || m == m2 || m == m3 || m == m4;
    ValidDataKeepsAccepted(p, ms);
  }

  /** A list with no `null` item whose items all pass the filter is kept whole. */
  lemma {:induction false} ValidDataKeepsAccepted(p: Parsers, items: seq<Item>)
    requires forall x :: x in items ==> !x.Nullish? && Accepted(p, x)
    ensures ValidData(p, items) == Some(items)
    decreases |items|
  {
    if items != [] {
      assert forall x :: x in items[1..] ==> x in items;
      ValidDataKeepsAccepted(p, items[1..]);
      assert [items[0]] + items[1..] == items;
    }
  }

  /** The sample records give five heat points, in order, with intensities 0.7, 0.9, 0.85, 0.4 and 0.65. */
  lemma MockHeatPoints(p: Parsers, log10: real -> real, now: real, t: real)
    ensures var pts := HeatMapLayer.HeatPoints(p, log10, t, MockDisasters(now));
      |pts| == 5 &&
      pts[0] == HeatMapLayer.HeatPoint(35.682, 139.767, Finite(0.7)) &&
      pts[1] == HeatMapLayer.HeatPoint(13.754, 100.501, Finite(0.9)) &&
      pts[2] == HeatMapLayer.HeatPoint(14.599, 120.984, Finite(0.85)) &&
      pts[3] == HeatMapLayer.HeatPoint(-33.868, 151.209, Finite(0.4)) &&
      pts[4] == HeatMapLayer.HeatPoint(-7.541, 110.446, Finite(0.65))
  {
    var ms := MockDisasters(now);
    MockDisastersUsable(p, log10, now, t);
    HeatMapLayer.HeatPointsAllKept(p, log10, t, ms);
    SampleUsable(p, log10, t, "Earthquake in Japan", "6.5 magnitude earthquake", "EQ", "Orange", now, 139.767, 35.682, 0.7);
    SampleUsable(p, log10, t, "Flooding in Thailand", "Severe flooding affecting Bangkok area", "FL", "Red", now, 100.501, 13.754, 0.9);
    SampleUsable(p, log10, t, "Tropical Cyclone in Philippines", "Category 3 tropical cyclone", "TC", "Red", now, 120.984, 14.599, 0.85);
    SampleUsable(p, log10, t, "Drought in Australia", "Ongoing drought conditions", "DR", "Green", now, 151.209, -33.868, 0.4);
    SampleUsable(p, log10, t, "Volcanic Activity in Indonesia", "Increased activity at Mt. Merapi", "VO", "Orange", now, 110.446, -7.541, 0.65);
  }

  /** What the disaster request yields: a failure, a body that is not a list, or a list. */
  datatype ApiResponse = ApiFailed | NotAList | List(items: seq<Item>)

  const LoadFailedMessage: string := "Failed to load disaster data. Using sample data instead."

  // ---------------------------------------------------------------------------
  // Markers

  datatype Icon = RedIcon | OrangeIcon | GreenIcon | BlueIcon

  /** The icon of an alert level, compared exactly and case-sensitively; anything else is blue. */
  function IconFor(alertLevel: JsValue): (icon: Icon)
    ensures icon == RedIcon <==> alertLevel == Text("Red")
    ensures icon == OrangeIcon <==> alertLevel == Text("Orange")
    ensures icon == GreenIcon <==> alertLevel == Text("Green")
  {
    if alertLevel == Text("Red") then RedIcon
    else if alertLevel == Text("Orange") then OrangeIcon
    else if alertLevel == Text("Green") then GreenIcon
    else BlueIcon
  }

  /** A marker at `[lat, lng]`. */
  datatype Marker = Marker(lat: JsValue, lng: JsValue, icon: Icon)

  /** `coordinates[i] || 0` */
  function OrZero(v: JsValue): JsValue {
    if Truthy(v) then v else Num(Finite(0.0))
  }

  /**
   * The marker of one disaster, or None: reading a missing location or coordinates throws
   * (the marker is dropped), and a pair whose entries are both falsy is skipped.
   */
  function MarkerFor(item: Item): (m: Option<Marker>)
    ensures !item.Record? || !item.fields.location.Coords? ==> m.None?
    ensures m.Some? ==> m.value.icon == IconFor(item.fields.alertLevel)
    ensures m.Some? ==> m.value.lat != Num(Finite(0.0)) || m.value.lng != Num(Finite(0.0))
  {
    if !item.Record? || !item.fields.location.Coords? then None
    else
      var vs := item.fields.location.values;
      var lat, lng := OrZero(At(vs, 1)), OrZero(At(vs, 0));
      if lat == Num(Finite(0.0)) && lng == Num(Finite(0.0)) then None
      else Some(Marker(lat, lng, IconFor(item.fields.alertLevel)))
  }

  /**
   * A disaster with coordinates is skipped exactly when both entries are falsy; otherwise
   * a falsy entry is drawn at 0 and a truthy one as it is.
   */
  lemma MarkerSkippedIff(item: Item)
    requires item.Record? && item.fields.location.Coords?
    ensures var vs := item.fields.location.values;
      && (MarkerFor(item).None? <==> !Truthy(At(vs, 0)) && !Truthy(At(vs, 1)))
      && (MarkerFor(item).Some? ==>
            && MarkerFor(item).value.lat == (if Truthy(At(vs, 1)) then At(vs, 1) else Num(Finite(0.0)))
            && MarkerFor(item).value.lng == (if Truthy(At(vs, 0)) then At(vs, 0) else Num(Finite(0.0)))
            && MarkerFor(item).value.icon == IconFor(item.fields.alertLevel))
  {
  }

  /** The markers of a list, in order. */
  function Markers(items: seq<Item>): (ms: seq<Marker>)
    ensures |ms| <= |items|
    decreases |items|
  {
    if items == [] then []
    else (match MarkerFor(items[0]) case Some(m) => [m] case None => []) + Markers(items[1..])
  }

  /** One disaster gives its own marker, or none. */
  lemma MarkersSingle(x: Item)
    ensures Markers([x]) == match MarkerFor(x) case Some(m) => [m] case None => []
  {
    assert [x][1..] == [];
  }

  /** The markers of a concatenation are those of each part, in turn. */
  lemma {:induction false} MarkersAppend(a: seq<Item>, b: seq<Item>)
    ensures Markers(a + b) == Markers(a) + Markers(b)
    decreases |a|
  {
    if a == [] {
      assert a + b == b;
    } else {
      assert (a + b)[0] == a[0] && (a + b)[1..] == a[1..] + b;
      MarkersAppend(a[1..], b);
    }
  }

  /** An item the API filter accepts is never dropped for a missing location. */
  lemma AcceptedHasMarkerUnlessAtOrigin(p: Parsers, item: Item)
    requires !item.Nullish? && Accepted(p, item)
    ensures var vs := item.fields.location.values;
      MarkerFor(item).None? <==> !Truthy(vs[0]) && !Truthy(vs[1])
  {
  }

  // ---------------------------------------------------------------------------
  // Searching a place

  /** The first search hit: `lat`, `lon` and `display_name`. */
  datatype Place = Place(lat: JsValue, lon: JsValue, displayName: JsValue)

  /** What the geocoding request yields: a failure, or its list of hits. */
  datatype SearchResponse = SearchFailed | Found(places: seq<Place>)

  datatype SearchResult = SearchResult(position: seq<Number>, name: JsValue)

  const EmptySearchMessage: string := "Please enter a location"
  const NotFoundMessage: string := "Location not found. Please try another search."
  const SearchFailedMessage: string := "An error occurred while searching. Please try again."

  /** The page's state. */
  class MapState {
    var location: string
    var mapCenter: seq<Number>
    var disasters: seq<Item>
    var showHeatMap: bool
    var loading: bool
    var error: Option<string>
    var searchError: string
    var usingMockData: bool
    var searchResult: Option<SearchResult>

    constructor()
      ensures location == "" && mapCenter == [Finite(20.0), Finite(77.0)] && disasters == []
      ensures showHeatMap && loading && error == None && searchError == ""
      ensures !usingMockData && searchResult == None
    {
      location := "";
      mapCenter := [Finite(20.0), Finite(77.0)];
      disasters := [];
      showHeatMap := true;
      loading := true;
      error := None;
      searchError := "";
      usingMockData := false;
      searchResult := None;
    }

    /** Whether the heat layer is rendered. */
    predicate HeatMapShown()
      reads this
    {
      showHeatMap && |disasters| > 0
    }

    /**
     * Loading the disasters: a non-empty list is filtered and shown, even when nothing
     * survives; an empty list or a non-list body gives the samples; a failed request, or a
     * `null` item that makes the filter throw, gives the samples and an error message.
     */
    method FetchDisasters(p: Parsers, now: real, response: ApiResponse)
      modifies this
      ensures !loading
      ensures response.List? && |response.items| > 0 && ValidData(p, response.items).Some? ==>
        disasters == ValidData(p, response.items).value && !usingMockData && error == None
      ensures response.NotAList? || (response.List? && |response.items| == 0) ==>
        disasters == MockDisasters(now) && usingMockData && error == None
      ensures response.ApiFailed? || (response.List? && Nullish in response.items) ==>
        disasters == MockDisasters(now) && usingMockData && error == Some(LoadFailedMessage)
      ensures location == old(location) && mapCenter == old(mapCenter) && showHeatMap == old(showHeatMap)
      ensures searchError == old(searchError) && searchResult == old(searchResult)
    {
      loading := true;
      error := None;
      var valid: Option<seq<Item>> := None;
      if response.List? && |response.items| > 0 {
        valid := ValidData(p, response.items);
      }
      if response.ApiFailed? || (response.List? && |response.items| > 0 && valid.None?) {
        error := Some(LoadFailedMessage);
        disasters := MockDisasters(now);
        usingMockData := true;
      } else if valid.Some? {
        disasters := valid.value;
        usingMockData := false;
      } else {
        disasters := MockDisasters(now);
        usingMockData := true;
      }
      loading := false;
    }

    /**
     * The search: a blank query only sets a message and sends no request; otherwise the
     * first hit recentres the map on `[parseFloat(lat), parseFloat(lon)]`, no hit or a
     * failed request sets a message and clears the result. Returns whether a request was sent.
     */
    method HandleSearch(p: Parsers, response: SearchResponse) returns (requested: bool)
      modifies this
      ensures requested <==> exists i :: 0 <= i < |location| && !IsSpace(location[i])
      ensures !requested ==>
        searchError == EmptySearchMessage && mapCenter == old(mapCenter) &&
        searchResult == old(searchResult) && loading == old(loading)
      ensures requested ==> !loading
      ensures requested && response.Found? && |response.places| > 0 ==>
        var hit := response.places[0];
        var center := [ParseFloat(p, hit.lat), ParseFloat(p, hit.lon)];
        searchError == "" &&
        mapCenter == center && searchResult == Some(SearchResult(center, hit.displayName))
      ensures requested && response.Found? && |response.places| == 0 ==>
        searchError == NotFoundMessage && searchResult == None && mapCenter == old(mapCenter)
      ensures requested && response.SearchFailed? ==>
        searchError == SearchFailedMessage && searchResult == None && mapCenter == old(mapCenter)
      ensures location == old(location) && disasters == old(disasters) && usingMockData == old(usingMockData)
      ensures error == old(error) && showHeatMap == old(showHeatMap)
    {
      TrimEmptyIffBlank(location);
      if Trim(location) == "" {
        searchError := EmptySearchMessage;
        return false;
      }
      requested := true;
      searchError := "";
      loading := true;
      match response {
        case SearchFailed =>
          searchError := SearchFailedMessage;
          searchResult := None;
        case Found(places) =>
          if |places| > 0 {
            var hit := places[0];
            var center := [ParseFloat(p, hit.lat), ParseFloat(p, hit.lon)];
            mapCenter := center;
            searchResult := Some(SearchResult(center, hit.displayName));
          } else {
            searchError := NotFoundMessage;
            searchResult := None;
          }
      }
      loading := false;
    }
  }
}
