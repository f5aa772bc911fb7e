/**
 * The heat-map layer: each disaster with usable coordinates becomes a weighted point
 * `[lat, lng, intensity]`, and the layer on the map is swapped whenever the data changes.
 * The intensity is a numeric severity when there is one; otherwise it combines an alert
 * level, an event-type weight and a recency factor, clamped into [0.25, 1].
 *
 * `Math.log10` is a parameter (`log10`), the current time is a parameter (`now`, in ms),
 * and drawing the layer is not modelled: a layer is represented by its points.
 */
module HeatMapLayer {
  import opened Js
  import opened ClientRecords

  /** The intensity of each normalised alert level. */
  const AlertLevelMap: map<string, real> := map["Red" := 1.0, "Orange" := 0.75, "Green" := 0.5, "Unknown" := 0.3]

  /** The weight of each event type; an unlisted type weighs 1.0. */
  const EventTypeWeights: map<string, real> :=
    map["EQ" := 1.3, "TC" := 1.2, "FL" := 1.1, "DR" := 0.9, "VO" := 1.2, "WF" := 1.0, "TS" := 1.1]

  const MinIntensity: real := 0.25
  const MinRecency: real := 0.4
  /** Returned when reading the record throws. */
  const ErrorIntensity: real := 0.5

  /** `Math.min(Math.max(x, lo), hi)` */
  function Clamp(x: Number, lo: real, hi: real): Number {
    MathMin(MathMax(x, Finite(lo)), Finite(hi))
  }

  /** Lower-case, then look for "red", then "orange", then "green"; nothing found is "Unknown". */
  function NormalizeText(s: string): (r: string)
    ensures r in AlertLevelMap
  {
    var level := ToLower(s);
    if Includes(level, "red") then "Red"
    else if Includes(level, "orange") then "Orange"
    else if Includes(level, "green") then "Green"
    else "Unknown"
  }

  /** The normalised alert level of a value that is a string or falsy. */
  function NormalizeAlertLevel(alertLevel: JsValue): (r: string)
    requires alertLevel.Text? || !Truthy(alertLevel)
    ensures r in AlertLevelMap
  {
    if Truthy(alertLevel) then NormalizeText(alertLevel.s) else "Unknown"
  }

  /** `alertLevelMap[level] || 0.5` */
  function BaseIntensity(level: string): real {
    if level in AlertLevelMap && AlertLevelMap[level] != 0.0 then AlertLevelMap[level] else 0.5
  }

  /** `eventTypeWeights[type] || 1.0` */
  function TypeWeight(kind: JsValue): real {
    if kind.Text? && kind.s in EventTypeWeights && EventTypeWeights[kind.s] != 0.0
    then EventTypeWeights[kind.s]
    else 1.0
  }

  /** Days from the event to `now`, as a fraction (not rounded), never below 0; NaN for an unparseable date. */
  function DaysSince(p: Parsers, now: real, date: JsValue): (r: Number)
    ensures r.Finite? ==> r.x >= 0.0
  {
    MathMax(Finite(0.0), Div(Sub(Finite(now), DateOf(p, date)), MsPerDay))
  }

  /** Full weight for the last day, then `max(0.4, 1 - 0.15 * log10(days + 1))`. */
  function RecencyFactor(log10: real -> real, days: Number): (r: Number)
    ensures days.Finite? ==> r.Finite? && r.x >= MinRecency
    ensures days.NaN? ==> r.NaN?
  {
    if days.NaN? then NaN
    else if days.x <= 1.0 then Finite(1.0)
    else MathMax(Finite(MinRecency), Finite(1.0 - 0.15 * log10(days.x + 1.0)))
  }

  /** `calculateIntensity`: NaN or a value in [0, 1]. */
  function CalculateIntensity(p: Parsers, log10: real -> real, now: real, d: Fields): (r: Number)
    ensures r.Finite? ==> 0.0 <= r.x <= 1.0
  {
    if IsNumber(d.severity) then Clamp(d.severity.n, 0.0, 1.0)
    else if Truthy(d.alertLevel) && !d.alertLevel.Text? then
      // `toLowerCase` is not a method of a non-string value: the catch answers 0.5
      Finite(ErrorIntensity)
    else Clamp(Weighted(p, log10, now, d), MinIntensity, 1.0)
  }

  /** The alert level's base intensity times the type weight. */
  function BaseWeight(alertLevel: JsValue, kind: JsValue): real
    requires alertLevel.Text? || !Truthy(alertLevel)
  {
    BaseIntensity(NormalizeAlertLevel(alertLevel)) * TypeWeight(kind)
  }

  /** The alert level's base times the type weight, times the recency factor when there is a date. */
  function Weighted(p: Parsers, log10: real -> real, now: real, d: Fields): Number
    requires d.alertLevel.Text? || !Truthy(d.alertLevel)
  {
    var base := BaseWeight(d.alertLevel, d.kind);
    if Truthy(d.date) then Mul(Finite(base), RecencyFactor(log10, DaysSince(p, now, d.date)))
    else Finite(base)
  }

  /** A numeric severity decides alone: clamped into [0, 1], whatever the alert level, type and date. */
  lemma SeverityBypassesClamp(p: Parsers, log10: real -> real, now: real, d: Fields)
    requires IsNumber(d.severity)
    ensures var s := d.severity.n.x;
      CalculateIntensity(p, log10, now, d) == Finite(if s < 0.0 then 0.0 else if s > 1.0 then 1.0 else s)
  {
  }

  /** So a severity of 0.1 gives an intensity of 0.1, below the 0.25 floor of the other path. */
  lemma SeverityBelowFloor(p: Parsers, log10: real -> real, now: real, d: Fields)
    requires d.severity == Num(Finite(0.1))
    ensures CalculateIntensity(p, log10, now, d) == Finite(0.1)
    ensures CalculateIntensity(p, log10, now, d).x < MinIntensity
  {
  }

  /** "red" anywhere (in any case) wins over "orange", which wins over "green"; no match is "Unknown". */
  lemma NormalizePriority(s: string)
    ensures NormalizeText(s) == "Red" <==> Includes(ToLower(s), "red")
    ensures NormalizeText(s) == "Orange" <==> !Includes(ToLower(s), "red") && Includes(ToLower(s), "orange")
    ensures NormalizeText(s) == "Green" <==>
      !Includes(ToLower(s), "red") && !Includes(ToLower(s), "orange") && Includes(ToLower(s), "green")
    ensures NormalizeText(s) == "Unknown" <==>
      !Includes(ToLower(s), "red") && !Includes(ToLower(s), "orange") && !Includes(ToLower(s), "green")
  {
  }

  /** Case does not matter, and "red" wins over "orange": "ORANGE/RED" normalises to Red. */
  lemma NormalizeRedFirst()
    ensures NormalizeText("ORANGE/RED") == "Red"
  {
    var a := ToLower("ORANGE/RED");
    assert a == "orange/red";
    assert OccursAt(a, "red", 7);
  }

  /** A level spelt "orange" (any case) normalises to Orange. */
  lemma NormalizeOrange()
    ensures NormalizeText("Orange") == "Orange"
  {
    var b := ToLower("Orange");
    assert b == "orange";
    assert OccursAt(b, "orange", 0);
    forall i | 0 <= i <= |b| - 3 ensures !OccursAt(b, "red", i) {
      assert b[i] != 'r' || b[i + 1] != 'e';
    }
  }

  /** The base intensity is 1.0, 0.75, 0.5 or 0.3; the `|| 0.5` fallback is never taken. */
  lemma BaseIntensityTable(v: JsValue)
    requires v.Text? || !Truthy(v)
    ensures var level := NormalizeAlertLevel(v);
      && AlertLevelMap[level] != 0.0
      && BaseIntensity(level) == AlertLevelMap[level]
      && BaseIntensity(level) in {1.0, 0.75, 0.5, 0.3}
      && (level == "Red" ==> BaseIntensity(level) == 1.0)
      && (level == "Orange" ==> BaseIntensity(level) == 0.75)
      && (level == "Green" ==> BaseIntensity(level) == 0.5)
      && (level == "Unknown" ==> BaseIntensity(level) == 0.3)
  {
  }

  /** The type weight is the table's entry for a listed type and 1.0 for anything else. */
  lemma TypeWeightTable(v: JsValue)
    ensures v.Text? && v.s in EventTypeWeights ==> TypeWeight(v) == EventTypeWeights[v.s]
    ensures !(v.Text? && v.s in EventTypeWeights) ==> TypeWeight(v) == 1.0
    ensures 0.9 <= TypeWeight(v) <= 1.3
  {
  }

  /** A date in the future counts as 0 days old and keeps full weight; the last day keeps full weight too. */
  lemma FutureAndRecentDatesFullWeight(p: Parsers, log10: real -> real, now: real, date: JsValue)
    requires DateOf(p, date).Finite? && (now - DateOf(p, date).x) / MsPerDay <= 1.0
    ensures DaysSince(p, now, date).Finite? && DaysSince(p, now, date).x <= 1.0
    ensures RecencyFactor(log10, DaysSince(p, now, date)) == Finite(1.0)
    ensures DateOf(p, date).x >= now ==> DaysSince(p, now, date) == Finite(0.0)
  {
    var t := DateOf(p, date).x;
    if t >= now {
      assert (now - t) / MsPerDay <= 0.0;
    }
  }

  /**
   * With a `log10` that grows (and is 0 at 1) the factor never grows with age, and it is at
   * most 1: older events never weigh more.
   */
  lemma RecencyNonIncreasing(log10: real -> real, d1: real, d2: real)
    requires forall x, y :: 1.0 <= x <= y ==> log10(x) <= log10(y)
    requires log10(1.0) == 0.0
    requires 0.0 <= d1 <= d2
    ensures var f1, f2 := RecencyFactor(log10, Finite(d1)), RecencyFactor(log10, Finite(d2));
      f1.x >= f2.x && f1.x <= 1.0
  {
    if d1 > 1.0 {
      assert log10(d1 + 1.0) <= log10(d2 + 1.0);
      assert log10(1.0) <= log10(d1 + 1.0);
    } else if d2 > 1.0 {
      assert log10(1.0) <= log10(d2 + 1.0);
    }
  }

  /**
   * Without a numeric severity the intensity is NaN (an unparseable date) or lies in
   * [0.25, 1], though type weights exceed 1; an alert level that is not a string makes the
   * computation throw, and the answer is then 0.5.
   */
  lemma NonSeverityRange(p: Parsers, log10: real -> real, now: real, d: Fields)
    requires !IsNumber(d.severity)
    ensures var r := CalculateIntensity(p, log10, now, d);
      && (r.Finite? ==> MinIntensity <= r.x <= 1.0)
      && (r.NaN? <==> (d.alertLevel.Text? || !Truthy(d.alertLevel)) && Truthy(d.date) && DateOf(p, d.date).NaN?)
      && (Truthy(d.alertLevel) && !d.alertLevel.Text? ==> r == Finite(ErrorIntensity))
  {
  }

  /**
   * Without a numeric severity or a date, the intensity is the table value of the
   * normalised alert level times the type weight, clamped into [0.25, 1]; recency plays no part.
   */
  lemma IntensityUndated(p: Parsers, log10: real -> real, now: real, d: Fields)
    requires !IsNumber(d.severity) && (d.alertLevel.Text? || !Truthy(d.alertLevel)) && !Truthy(d.date)
    ensures CalculateIntensity(p, log10, now, d)
      == Clamp(Finite(AlertLevelMap[NormalizeAlertLevel(d.alertLevel)] * TypeWeight(d.kind)), MinIntensity, 1.0)
  {
    TableBase(NormalizeAlertLevel(d.alertLevel));
  }

  /**
   * With a date, the weight the record would have undated (its table base times its type
   * weight) is first scaled by the recency factor of the event's age, then clamped.
   */
  lemma IntensityDated(p: Parsers, log10: real -> real, now: real, d: Fields)
    requires !IsNumber(d.severity) && (d.alertLevel.Text? || !Truthy(d.alertLevel)) && Truthy(d.date)
    ensures CalculateIntensity(p, log10, now, d)
      == Clamp(Mul(Weighted(p, log10, now, d.(date := Undefined)), RecencyFactor(log10, DaysSince(p, now, d.date))),
               MinIntensity, 1.0)
    ensures Weighted(p, log10, now, d.(date := Undefined))
      == Finite(AlertLevelMap[NormalizeAlertLevel(d.alertLevel)] * TypeWeight(d.kind))
  {
    IntensityIsClampedWeight(p, log10, now, d);
    WeightedDated(p, log10, now, d);
    UndatedWeight(p, log10, now, d.(date := Undefined));
  }

  lemma IntensityIsClampedWeight(p: Parsers, log10: real -> real, now: real, d: Fields)
    requires !IsNumber(d.severity) && (d.alertLevel.Text? || !Truthy(d.alertLevel))
    ensures CalculateIntensity(p, log10, now, d) == Clamp(Weighted(p, log10, now, d), MinIntensity, 1.0)
  {
  }

  lemma WeightedDated(p: Parsers, log10: real -> real, now: real, d: Fields)
    requires (d.alertLevel.Text? || !Truthy(d.alertLevel)) && Truthy(d.date)
    ensures Weighted(p, log10, now, d)
      == Mul(Weighted(p, log10, now, d.(date := Undefined)), RecencyFactor(log10, DaysSince(p, now, d.date)))
  {
  }

  lemma UndatedWeight(p: Parsers, log10: real -> real, now: real, d: Fields)
    requires (d.alertLevel.Text? || !Truthy(d.alertLevel)) && !Truthy(d.date)
    ensures Weighted(p, log10, now, d) == Finite(AlertLevelMap[NormalizeAlertLevel(d.alertLevel)] * TypeWeight(d.kind))
  {
    TableBase(NormalizeAlertLevel(d.alertLevel));
  }

  /**
   * Without a numeric severity, moving a record's valid date earlier (the event is older)
   * never raises its intensity: the weight is the same, the recency factor does not grow,
   * and the clamp keeps the order.
   */
  lemma IntensityNonIncreasingInAge(p: Parsers, log10: real -> real, now: real, d: Fields, date1: JsValue, date2: JsValue)
    requires !IsNumber(d.severity) && (d.alertLevel.Text? || !Truthy(d.alertLevel))
    requires Truthy(date1) && Truthy(date2)
    requires DateOf(p, date1).Finite? && DateOf(p, date2).Finite? && DateOf(p, date2).x <= DateOf(p, date1).x
    requires forall x, y :: 1.0 <= x <= y ==> log10(x) <= log10(y)
    requires log10(1.0) == 0.0
    ensures var i1, i2 := CalculateIntensity(p, log10, now, d.(date := date1)), CalculateIntensity(p, log10, now, d.(date := date2));
      i1.Finite? && i2.Finite? && i2.x <= i1.x
  {
    var d1, d2 := d.(date := date1), d.(date := date2);
    assert d1.(date := Undefined) == d.(date := Undefined) == d2.(date := Undefined);
    IntensityDated(p, log10, now, d1);
    IntensityDated(p, log10, now, d2);
    var w := Weighted(p, log10, now, d.(date := Undefined));
    UndatedWeightPositive(p, log10, now, d);
    var days1, days2 := DaysSince(p, now, date1), DaysSince(p, now, date2);
    DaysMono(p, now, date1, date2);
    var f1, f2 := RecencyFactor(log10, days1), RecencyFactor(log10, days2);
    RecencyNonIncreasing(log10, days1.x, days2.x);
    MulMono(w, f1, f2);
    ClampMono(Mul(w, f2), Mul(w, f1), MinIntensity, 1.0);
  }

  lemma UndatedWeightPositive(p: Parsers, log10: real -> real, now: real, d: Fields)
    requires d.alertLevel.Text? || !Truthy(d.alertLevel)
    ensures var w := Weighted(p, log10, now, d.(date := Undefined)); w.Finite? && w.x > 0.0
  {
    var base, weight := BaseIntensity(NormalizeAlertLevel(d.alertLevel)), TypeWeight(d.kind);
    BaseIntensityTable(d.alertLevel);
    TypeWeightTable(d.kind);
    PositiveProduct(base, weight);
  }

  lemma PositiveProduct(a: real, b: real)
    requires a > 0.0 && b > 0.0
    ensures a * b > 0.0
  {
  }

  /** A later date (a younger event) is fewer days ago. */
  lemma DaysMono(p: Parsers, now: real, date1: JsValue, date2: JsValue)
    requires DateOf(p, date1).Finite? && DateOf(p, date2).Finite? && DateOf(p, date2).x <= DateOf(p, date1).x
    ensures DaysSince(p, now, date1).Finite? && DaysSince(p, now, date2).Finite?
    ensures DaysSince(p, now, date1).x <= DaysSince(p, now, date2).x
  {
    var t1, t2 := DateOf(p, date1).x, DateOf(p, date2).x;
    assert (now - t1) / MsPerDay <= (now - t2) / MsPerDay;
  }

  /** Scaling by a non-negative weight keeps the order of two factors. */
  lemma MulMono(w: Number, f1: Number, f2: Number)
    requires w.Finite? && w.x >= 0.0 && f1.Finite? && f2.Finite? && f2.x <= f1.x
    ensures Mul(w, f1).Finite? && Mul(w, f2).Finite? && Mul(w, f2).x <= Mul(w, f1).x
  {
    assert w.x * f1.x - w.x * f2.x == w.x * (f1.x - f2.x);
  }

  lemma ClampMono(a: Number, b: Number, lo: real, hi: real)
    requires a.Finite? && b.Finite? && a.x <= b.x && lo <= hi
    ensures Clamp(a, lo, hi).Finite? && Clamp(b, lo, hi).Finite?
    ensures Clamp(a, lo, hi).x <= Clamp(b, lo, hi).x
  {
  }

  /** A normalised level's base intensity is its table entry. */
  lemma TableBase(level: string)
    requires level in AlertLevelMap
    ensures BaseIntensity(level) == AlertLevelMap[level]
  {
  }

  /** Without a date, a type-weighted Red record reaches the cap: an EQ at level "Red" scores exactly 1. */
  lemma RedEarthquakeCapped(p: Parsers, log10: real -> real, now: real, d: Fields)
    requires !IsNumber(d.severity) && d.alertLevel == Text("Red") && d.kind == Text("EQ") && !Truthy(d.date)
    ensures CalculateIntensity(p, log10, now, d) == Finite(1.0)
  {
    assert NormalizeText("Red") == "Red" by {
      assert ToLower("Red") == "red";
      assert OccursAt("red", "red", 0);
    }
  }

  // ---------------------------------------------------------------------------
  // Heat points

  /** One weighted point, `[lat, lng, intensity]`. */
  datatype HeatPoint = HeatPoint(lat: real, lng: real, intensity: Number)

  /** Both coordinates are numbers, neither is 0, and they lie on the globe. */
  predicate ValidCoordinates(lng: JsValue, lat: JsValue) {
    && IsNumber(lng) && IsNumber(lat)
    && lat.n.x != 0.0 && lng.n.x != 0.0
    && -90.0 <= lat.n.x <= 90.0
    && -180.0 <= lng.n.x <= 180.0
  }

  /** The filter: an object whose `location.coordinates` starts with valid `[lng, lat]`. */
  predicate Kept(item: Item) {
    item.Record? && item.fields.location.Coords? &&
    ValidCoordinates(At(item.fields.location.values, 0), At(item.fields.location.values, 1))
  }

  /** The map step: `[coordinates[1], coordinates[0], intensity]`. */
  function PointOf(p: Parsers, log10: real -> real, now: real, item: Item): (pt: HeatPoint)
    requires Kept(item)
    ensures pt.lat == At(item.fields.location.values, 1).n.x
    ensures pt.lng == At(item.fields.location.values, 0).n.x
  {
    var vs := item.fields.location.values;
    HeatPoint(At(vs, 1).n.x, At(vs, 0).n.x, CalculateIntensity(p, log10, now, item.fields))
  }

  /** `data.filter(...).map(...)` */
  function HeatPoints(p: Parsers, log10: real -> real, now: real, data: seq<Item>): (pts: seq<HeatPoint>)
    ensures |pts| <= |data|
    decreases |data|
  {
    if data == [] then []
    else
      var front, last := data[..|data| - 1], data[|data| - 1];
      HeatPoints(p, log10, now, front) + (if Kept(last) then [PointOf(p, log10, now, last)] else [])
  }

  /** Filtering and mapping keep the order: the points of a concatenation are the points of each part, in turn. */
  lemma {:induction false} HeatPointsAppend(p: Parsers, log10: real -> real, now: real, a: seq<Item>, b: seq<Item>)
    ensures HeatPoints(p, log10, now, a + b) == HeatPoints(p, log10, now, a) + HeatPoints(p, log10, now, b)
    decreases |b|
  {
    if b == [] {
      assert a + b == a;
    } else {
      var front := b[..|b| - 1];
      assert (a + b)[..|a + b| - 1] == a + front;
      assert (a + b)[|a + b| - 1] == b[|b| - 1];
      HeatPointsAppend(p, log10, now, a, front);
    }
  }

  /** A single item yields its point exactly when it passes the filter. */
  lemma HeatPointsSingle(p: Parsers, log10: real -> real, now: real, x: Item)
    ensures HeatPoints(p, log10, now, [x]) == if Kept(x) then [PointOf(p, log10, now, x)] else []
  {
    assert [x][..0] == [];
  }

  /** When every item passes the filter, each yields its point at its own position. */
  lemma {:induction false} HeatPointsAllKept(p: Parsers, log10: real -> real, now: real, data: seq<Item>)
    requires forall x :: x in data ==> Kept(x)
    ensures var pts := HeatPoints(p, log10, now, data);
      |pts| == |data| && forall i :: 0 <= i < |data| ==> pts[i] == PointOf(p, log10, now, data[i])
    decreases |data|
  {
    if data != [] {
      var front := data[..|data| - 1];
      assert forall x :: x in front ==> x in data;
      HeatPointsAllKept(p, log10, now, front);
    }
  }

  /** The number of items that pass the filter. */
  function KeptCount(data: seq<Item>): (n: nat)
    ensures n <= |data|
    decreases |data|
  {
    if data == [] then 0 else KeptCount(data[..|data| - 1]) + (if Kept(data[|data| - 1]) then 1 else 0)
  }

  /** One point per kept item. */
  lemma {:induction false} HeatPointsCount(p: Parsers, log10: real -> real, now: real, data: seq<Item>)
    ensures |HeatPoints(p, log10, now, data)| == KeptCount(data)
    decreases |data|
  {
    if data != [] {
      HeatPointsCount(p, log10, now, data[..|data| - 1]);
    }
  }

  /**
   * The conversion with its counters: the points of the kept items, in order; `validCount`
   * counts the kept items and `invalidCount` the others.
   */
  method FilterPoints(p: Parsers, log10: real -> real, now: real, data: seq<Item>)
    returns (points: seq<HeatPoint>, validCount: nat, invalidCount: nat)
    ensures points == HeatPoints(p, log10, now, data)
    ensures validCount == KeptCount(data) && validCount == |points|
    ensures validCount + invalidCount == |data|
  {
    points, validCount, invalidCount := [], 0, 0;
    var i := 0;
    while i < |data|
      invariant 0 <= i <= |data|
      invariant points == HeatPoints(p, log10, now, data[..i])
      invariant validCount == KeptCount(data[..i])
      invariant validCount + invalidCount == i
    {
      var item := data[i];
      assert data[..i + 1][..i] == data[..i];
      if Kept(item) {
        validCount := validCount + 1;
        points := points + [PointOf(p, log10, now, item)];
      } else {
        invalidCount := invalidCount + 1;
      }
      i := i + 1;
    }
    assert data[..i] == data;
    HeatPointsCount(p, log10, now, data);
  }

  /**
   * The heat layer of one map. `current` is the layer the component keeps a reference to
   * and `shown` the heat layers it has put on the map; each layer is represented by its points.
   */
  class HeatLayerHost {
    var current: Option<seq<HeatPoint>>
    var shown: seq<seq<HeatPoint>>

    ghost predicate Valid()
      reads this
    {
      shown == (if current.Some? then [current.value] else [])
    }

    constructor()
      ensures Valid() && current == None
    {
      current := None;
      shown := [];
    }

    /** The cleanup returned by the effect: take the referenced layer off the map. */
    method Cleanup()
      requires Valid()
      modifies this
      ensures Valid() && current == None && shown == []
    {
      if current.Some? {
        shown := [];
        current := None;
      }
    }

    /**
     * The effect: with no data nothing changes; otherwise the old layer is removed and,
     * when any point survives the filter, a new layer with those points is added.
     */
    method Effect(p: Parsers, log10: real -> real, now: real, data: Option<seq<Item>>)
      requires Valid()
      modifies this
      ensures Valid()
      ensures data.None? || data.value == [] ==> current == old(current)
      ensures data.Some? && data.value != [] ==>
        var pts := HeatPoints(p, log10, now, data.value);
        current == if pts == [] then None else Some(pts)
    {
      if data.None? || |data.value| == 0 {
        return;
      }
      if current.Some? {
        shown := [];
        current := None;
      }
      var points, validCount, invalidCount := FilterPoints(p, log10, now, data.value);
      if |points| == 0 {
        return;
      }
      shown := shown + [points];
      current := Some(points);
    }

    /**
     * A change of data: the previous run's cleanup, then the effect. Afterwards the map
     * shows at most one heat layer, holding the points of the new data.
     */
    method DataChanged(p: Parsers, log10: real -> real, now: real, data: Option<seq<Item>>)
      requires Valid()
      modifies this
      ensures Valid()
      ensures |shown| <= 1
      ensures var pts := if data.Some? then HeatPoints(p, log10, now, data.value) else [];
        shown == if pts == [] then [] else [pts]
    {
      Cleanup();
      Effect(p, log10, now, data);
    }
  }
}
