/**
 * Ingestion of the GDACS feed: every item of a received feed becomes one disaster record,
 * scored by a severity that combines the alert level with a per-type magnitude factor.
 * The network request itself is not modelled; a `FeedResponse` is what it delivered.
 */
module GdacsService {
  import opened Js
  import opened DisasterSchema

  /** The fields of a feed item the transform reads; each may be absent (`Undefined`). */
  datatype FeedEvent = FeedEvent(
    eventType: JsValue,
    longitude: JsValue,
    latitude: JsValue,
    pubDate: JsValue,
    alertLevel: JsValue,
    title: JsValue,
    description: JsValue,
    magnitude: JsValue,
    windSpeed: JsValue,
    affectedArea: JsValue)

  /** An item of the feed list: `null`/`undefined` (reading a field of it throws) or an event. */
  datatype FeedItem = NullItem | Event(event: FeedEvent)

  /** `response.data.items`: absent or falsy, something truthy that is not a list, or a list. */
  datatype FeedItems = NoItems | NotAList | Items(items: seq<FeedItem>)

  /** What the feed request produced: it failed (threw), or it delivered a body. */
  datatype FeedResponse = RequestFailed | Received(items: FeedItems)

  /**
   * A record in the application's format. `coordinates` is `[longitude, latitude]`;
   * `date` is the time value of the parsed publication date; `None` in the three
   * type-specific fields is `null`.
   */
  datatype FeedRecord = FeedRecord(
    kind: JsValue,
    coordinates: seq<Number>,
    date: Number,
    alertLevel: JsValue,
    severity: Number,
    title: JsValue,
    description: JsValue,
    source: string,
    magnitude: Option<Number>,
    windSpeed: Option<Number>,
    affectedArea: Option<Number>)

  /** The exact-case alert-level table of the feed. */
  const AlertLevelToIntensity: map<string, real> := map["Red" := 1.0, "Orange" := 0.7, "Green" := 0.4]

  /** Used when the alert level is not a key of the table. */
  const FallbackIntensity: real := 0.3

  /** Multiplier of every event type other than EQ, TC and FL. */
  const OtherTypeMultiplier: real := 0.7

  /** The table entry for the alert level, or the fallback when it is missing or zero. */
  function BaseIntensity(alertLevel: JsValue): (r: real)
    ensures 0.0 < r <= 1.0
  {
    if alertLevel.Text? && alertLevel.s in AlertLevelToIntensity && AlertLevelToIntensity[alertLevel.s] != 0.0
    then AlertLevelToIntensity[alertLevel.s]
    else FallbackIntensity
  }

  /** `field ? Math.min(field / divisor, 1) : 1` */
  function CappedRatio(p: Parsers, field: JsValue, divisor: real): (r: Number)
    requires divisor > 0.0
    ensures r.Finite? ==> r.x <= 1.0
  {
    if Truthy(field) then MathMin(Div(ToNumber(p, field), divisor), Finite(1.0)) else Finite(1.0)
  }

  /** The per-type factor: magnitude for EQ, wind speed for TC, affected area for FL, 0.7 otherwise. */
  function Multiplier(p: Parsers, e: FeedEvent): (r: Number)
    ensures r.Finite? ==> r.x <= 1.0
  {
    if e.eventType == Text("EQ") then CappedRatio(p, e.magnitude, 10.0)
    else if e.eventType == Text("TC") then CappedRatio(p, e.windSpeed, 200.0)
    else if e.eventType == Text("FL") then CappedRatio(p, e.affectedArea, 10000.0)
    else Finite(OtherTypeMultiplier)
  }

  /** `calculateSeverity`: base intensity times the type factor, capped at 1 (and only above). */
  function CalculateSeverity(p: Parsers, e: FeedEvent): (r: Number)
    ensures r.Finite? ==> r.x <= 1.0 && r.x <= BaseIntensity(e.alertLevel)
  {
    MathMin(Mul(Finite(BaseIntensity(e.alertLevel)), Multiplier(p, e)), Finite(1.0))
  }

  /** The field the factor of an EQ, TC or FL event reads, with the value that maps to a factor of 1. */
  function SignalOf(e: FeedEvent): Option<(JsValue, real)> {
    if e.eventType == Text("EQ") then Some((e.magnitude, 10.0))
    else if e.eventType == Text("TC") then Some((e.windSpeed, 200.0))
    else if e.eventType == Text("FL") then Some((e.affectedArea, 10000.0))
    else None
  }

  /** The base is an exact-case lookup: Red, Orange and Green map to 1.0, 0.7 and 0.4; anything else, "red" included, to 0.3. */
  lemma BaseIntensityTable(v: JsValue)
    ensures BaseIntensity(v) == (if v == Text("Red") then 1.0
                                 else if v == Text("Orange") then 0.7
                                 else if v == Text("Green") then 0.4
                                 else 0.3)
  {
  }

  /** `x` capped at 1, as `Math.min(x, 1)` does for a finite `x`. */
  function CapAtOne(x: real): real {
    if x <= 1.0 then x else 1.0
  }

  lemma ScaledAtMostOne(base: real, f: real)
    requires 0.0 < base <= 1.0 && f <= 1.0
    ensures base * f <= 1.0
  {
    if f >= 0.0 {
      assert base * f <= 1.0 * f;
    } else {
      assert base * f < 0.0;
    }
  }

  /** `Math.min(base * f, 1)` is the product itself for a base in (0, 1] and a factor at most 1. */
  lemma CappedProduct(base: real, f: real)
    requires 0.0 < base <= 1.0 && f <= 1.0
    ensures MathMin(Mul(Finite(base), Finite(f)), Finite(1.0)) == Finite(base * f)
  {
    ScaledAtMostOne(base, f);
  }

  lemma ScaledMonotone(base: real, f1: real, f2: real)
    requires 0.0 < base && f1 <= f2
    ensures base * f1 <= base * f2
  {
    assert base * f2 - base * f1 == base * (f2 - f1);
  }

  /** A factor that is a number scales the base, and the cap at 1 never bites. */
  lemma SeverityOfFactor(p: Parsers, e: FeedEvent, f: real)
    requires Multiplier(p, e) == Finite(f)
    ensures CalculateSeverity(p, e) == Finite(BaseIntensity(e.alertLevel) * f)
  {
    CappedProduct(BaseIntensity(e.alertLevel), f);
  }

  /**
   * The factor in closed form: EQ reads the magnitude against 10, TC the wind speed against
   * 200, FL the affected area against 10000; a falsy field gives 1, a numeric one its ratio
   * to the divisor capped at 1; every other type gives 0.7.
   */
  lemma MultiplierClosedForm(p: Parsers, e: FeedEvent)
    ensures SignalOf(e).None? ==> Multiplier(p, e) == Finite(OtherTypeMultiplier)
    ensures SignalOf(e).Some? && !Truthy(SignalOf(e).value.0) ==> Multiplier(p, e) == Finite(1.0)
    ensures SignalOf(e).Some? && Truthy(SignalOf(e).value.0) && ToNumber(p, SignalOf(e).value.0).Finite? ==>
      Multiplier(p, e) == Finite(CapAtOne(ToNumber(p, SignalOf(e).value.0).x / SignalOf(e).value.1))
  {
  }

  /** The severity is NaN exactly when the event's signal field is truthy but does not convert to a number. */
  lemma SeverityNaNIff(p: Parsers, e: FeedEvent)
    ensures CalculateSeverity(p, e).NaN? <==>
      SignalOf(e).Some? && Truthy(SignalOf(e).value.0) && ToNumber(p, SignalOf(e).value.0).NaN?
  {
  }

  /** Without a negative signal the severity lies in [0, 1], the range the schema admits. */
  lemma SeverityNonNegative(p: Parsers, e: FeedEvent)
    requires SignalOf(e).Some? && Truthy(SignalOf(e).value.0) ==>
      ToNumber(p, SignalOf(e).value.0).Finite? && ToNumber(p, SignalOf(e).value.0).x >= 0.0
    ensures CalculateSeverity(p, e).Finite?
    ensures 0.0 <= CalculateSeverity(p, e).x <= 1.0
  {
    MultiplierClosedForm(p, e);
    var f := Multiplier(p, e).x;
    assert Multiplier(p, e) == Finite(f);
    assert 0.0 <= f;
    SeverityOfFactor(p, e, f);
    ScaledMonotone(BaseIntensity(e.alertLevel), 0.0, f);
  }

  /** There is no lower clamp: a negative magnitude gives a negative severity (Red, magnitude -5: severity -0.5). */
  lemma NegativeMagnitudeGivesNegativeSeverity(p: Parsers)
    ensures CalculateSeverity(p, FeedEvent(Text("EQ"), Undefined, Undefined, Undefined, Text("Red"),
                                           Undefined, Undefined, Num(Finite(-5.0)), Undefined, Undefined))
            == Finite(-0.5)
  {
  }

  /** A Red earthquake of magnitude 7.8 scores 0.78. */
  lemma RedEarthquakeExample(p: Parsers)
    ensures CalculateSeverity(p, FeedEvent(Text("EQ"), Undefined, Undefined, Undefined, Text("Red"),
                                           Undefined, Undefined, Num(Finite(7.8)), Undefined, Undefined))
            == Finite(0.78)
  {
  }

  /** A larger EQ magnitude never lowers the severity. */
  lemma SeverityMonotoneInMagnitude(p: Parsers, e: FeedEvent, m1: real, m2: real)
    requires e.eventType == Text("EQ")
    requires 0.0 < m1 <= m2
    ensures var s1 := CalculateSeverity(p, e.(magnitude := Num(Finite(m1))));
            var s2 := CalculateSeverity(p, e.(magnitude := Num(Finite(m2))));
            s1.Finite? && s2.Finite? && s1.x <= s2.x
  {
    var e1, e2 := e.(magnitude := Num(Finite(m1))), e.(magnitude := Num(Finite(m2)));
    assert Multiplier(p, e1) == Finite(CapAtOne(m1 / 10.0));
    assert Multiplier(p, e2) == Finite(CapAtOne(m2 / 10.0));
    SeverityOfFactor(p, e1, CapAtOne(m1 / 10.0));
    SeverityOfFactor(p, e2, CapAtOne(m2 / 10.0));
    ScaledMonotone(BaseIntensity(e.alertLevel), CapAtOne(m1 / 10.0), CapAtOne(m2 / 10.0));
  }

  /** The `events.map` callback: one record in the application's format. */
  function FormatEvent(p: Parsers, e: FeedEvent): (r: FeedRecord)
    ensures r.coordinates == [ParseFloat(p, e.longitude), ParseFloat(p, e.latitude)]
    ensures r.source == DefaultSource
    ensures r.magnitude.Some? <==> e.eventType == Text("EQ")
    ensures r.windSpeed.Some? <==> e.eventType == Text("TC")
    ensures r.affectedArea.Some? <==> e.eventType == Text("FL")
    ensures r.kind == e.eventType && r.alertLevel == e.alertLevel && r.title == e.title
    ensures r.description == e.description && r.date == DateOf(p, e.pubDate)
    ensures r.severity == CalculateSeverity(p, e)
    ensures r.magnitude.Some? ==> r.magnitude.value == ParseFloat(p, e.magnitude)
    ensures r.windSpeed.Some? ==> r.windSpeed.value == ParseFloat(p, e.windSpeed)
    ensures r.affectedArea.Some? ==> r.affectedArea.value == ParseFloat(p, e.affectedArea)
  {
    FeedRecord(
      kind := e.eventType,
      coordinates := [ParseFloat(p, e.longitude), ParseFloat(p, e.latitude)],
      date := DateOf(p, e.pubDate),
      alertLevel := e.alertLevel,
      severity := CalculateSeverity(p, e),
      title := e.title,
      description := e.description,
      source := "GDACS",
      magnitude := if e.eventType == Text("EQ") then Some(ParseFloat(p, e.magnitude)) else None,
      windSpeed := if e.eventType == Text("TC") then Some(ParseFloat(p, e.windSpeed)) else None,
      affectedArea := if e.eventType == Text("FL") then Some(ParseFloat(p, e.affectedArea)) else None)
  }

  /**
   * The stored severity of a formatted event is in [0, 1] when the field its type reads is
   * absent, zero or a non-negative number; for an earthquake it is the base times the capped
   * magnitude ratio.
   */
  lemma FormattedSeverity(p: Parsers, e: FeedEvent)
    requires SignalOf(e).Some? && Truthy(SignalOf(e).value.0) ==>
      ToNumber(p, SignalOf(e).value.0).Finite? && ToNumber(p, SignalOf(e).value.0).x >= 0.0
    ensures var s := FormatEvent(p, e).severity; s.Finite? && 0.0 <= s.x <= 1.0
    ensures e.eventType == Text("EQ") && Truthy(e.magnitude) ==>
      FormatEvent(p, e).severity == Finite(BaseIntensity(e.alertLevel) * CapAtOne(ToNumber(p, e.magnitude).x / 10.0))
  {
    SeverityNonNegative(p, e);
    if e.eventType == Text("EQ") && Truthy(e.magnitude) {
      MultiplierClosedForm(p, e);
      SeverityOfFactor(p, e, CapAtOne(ToNumber(p, e.magnitude).x / 10.0));
    }
  }

  /** The list of events when the body holds one and reading every item succeeds. */
  predicate AllEvents(items: FeedItems) {
    items.Items? && forall i :: 0 <= i < |items.items| ==> items.items[i].Event?
  }

  /** `fetchGDACSData`: one record per feed item, in order; an empty list when anything throws. */
  function FetchGdacsData(p: Parsers, response: FeedResponse): (r: seq<FeedRecord>)
    ensures response.Received? && AllEvents(response.items) ==>
      |r| == |response.items.items| &&
      forall i :: 0 <= i < |r| ==> r[i] == FormatEvent(p, response.items.items[i].event)
    ensures !(response.Received? && AllEvents(response.items)) ==> r == []
  {
    if response.Received? && AllEvents(response.items) then
      var xs := response.items.items;
      seq(|xs|, i requires 0 <= i < |xs| => FormatEvent(p, xs[i].event))
    else []
  }

  /** A null item anywhere in the feed loses the whole batch. */
  lemma NullItemLosesBatch(p: Parsers, xs: seq<FeedItem>, i: nat)
    requires i < |xs| && xs[i] == NullItem
    ensures FetchGdacsData(p, Received(Items(xs))) == []
  {
  }

  /** The record as the schema sees it: `location` holds only the coordinates, `lastUpdated` is not set. */
  function ToDocument(r: FeedRecord): (d: Document)
    ensures d.coordinates.Some? && |d.coordinates.value| == |r.coordinates|
    ensures forall i :: 0 <= i < |r.coordinates| ==> d.coordinates.value[i] == Num(r.coordinates[i])
  {
    Document(
      kind := r.kind,
      locationType := Undefined,
      coordinates := Some(seq(|r.coordinates|, i requires 0 <= i < |r.coordinates| => Num(r.coordinates[i]))),
      date := Instant(r.date),
      alertLevel := r.alertLevel,
      severity := Num(r.severity),
      title := r.title,
      description := r.description,
      source := Text(r.source),
      magnitude := if r.magnitude.Some? then Num(r.magnitude.value) else Null,
      windSpeed := if r.windSpeed.Some? then Num(r.windSpeed.value) else Null,
      affectedArea := if r.affectedArea.Some? then Num(r.affectedArea.value) else Null,
      lastUpdated := Undefined)
  }

  predicate FiniteIfSet(o: Option<Number>) {
    o.Some? ==> o.value.Finite?
  }

  /** What the schema demands of a record in the application's format. */
  predicate RecordConforms(r: FeedRecord) {
    && r.kind.Text? && r.kind.s in EventTypes
    && r.alertLevel.Text? && r.alertLevel.s in AlertLevels
    && r.title.Text? && r.title.s != ""
    && OptionalString(r.description)
    && r.date.Finite?
    && (forall i :: 0 <= i < |r.coordinates| ==> r.coordinates[i].Finite?)
    && r.severity.Finite? && 0.0 <= r.severity.x <= 1.0
    && r.source != ""
    && FiniteIfSet(r.magnitude) && FiniteIfSet(r.windSpeed) && FiniteIfSet(r.affectedArea)
  }

  /** A record would be saved exactly when it conforms; the defaults supply only `location.type` and `lastUpdated`. */
  lemma RecordConformsIff(p: Parsers, r: FeedRecord, now: real)
    ensures Save(p, ToDocument(r), now).Saved? <==> RecordConforms(r)
  {
    var d := ApplyDefaults(ToDocument(r), now);
    assert Fails(p, d, TypePath) <==> !(r.kind.Text? && r.kind.s in EventTypes);
    assert Fails(p, d, AlertLevelPath) <==> !(r.alertLevel.Text? && r.alertLevel.s in AlertLevels);
    assert Fails(p, d, TitlePath) <==> !(r.title.Text? && r.title.s != "");
    assert Fails(p, d, DescriptionPath) <==> !OptionalString(r.description);
    assert Fails(p, d, DatePath) <==> !r.date.Finite?;
    assert Fails(p, d, CoordinatesPath) <==> !(forall i :: 0 <= i < |r.coordinates| ==> r.coordinates[i].Finite?);
    assert Fails(p, d, SeverityPath) <==> !(r.severity.Finite? && 0.0 <= r.severity.x <= 1.0);
    assert Fails(p, d, SourcePath) <==> r.source == "";
    assert Fails(p, d, MagnitudePath) <==> !FiniteIfSet(r.magnitude);
    assert Fails(p, d, WindSpeedPath) <==> !FiniteIfSet(r.windSpeed);
    assert Fails(p, d, AffectedAreaPath) <==> !FiniteIfSet(r.affectedArea);
    assert !Fails(p, d, LocationTypePath) && !Fails(p, d, LastUpdatedPath);
    if RecordConforms(r) {
      forall path ensures !Fails(p, d, path) { }
      assert Errors(p, d) == {};
    }
  }
}
