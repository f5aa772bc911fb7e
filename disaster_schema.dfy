/**
 * The disaster document schema: which fields a document must have, which values they
 * may take, and the defaults filled in before validation. Saving a document applies the
 * defaults and then reports every path that fails; the document is stored only when none
 * does.
 */
module DisasterSchema {
  import opened Js

  /** The event codes the schema admits. */
  const EventTypes: set<string> := {"EQ", "TC", "FL", "VO", "DR", "WF"}

  /** The alert levels the schema admits, case included. */
  const AlertLevels: set<string> := {"Red", "Orange", "Green"}

  const DefaultLocationType: string := "Point"
  const DefaultSource: string := "GDACS"

  /** A document before validation; `coordinates` is `None` when the array is absent. */
  datatype Document = Document(
    kind: JsValue,
    locationType: JsValue,
    coordinates: Option<seq<JsValue>>,
    date: JsValue,
    alertLevel: JsValue,
    severity: JsValue,
    title: JsValue,
    description: JsValue,
    source: JsValue,
    magnitude: JsValue,
    windSpeed: JsValue,
    affectedArea: JsValue,
    lastUpdated: JsValue)

  /** The schema paths a validation error can name. */
  datatype Path =
    | TypePath | LocationTypePath | CoordinatesPath | DatePath | AlertLevelPath | SeverityPath
    | TitlePath | DescriptionPath | SourcePath | MagnitudePath | WindSpeedPath | AffectedAreaPath
    | LastUpdatedPath

  /** Fills the defaults: `location.type` is 'Point', an absent array is empty, `source` is 'GDACS', `lastUpdated` is now. */
  function ApplyDefaults(doc: Document, now: real): (d: Document)
    ensures d.locationType != Undefined && d.coordinates.Some? && d.source != Undefined && d.lastUpdated != Undefined
    ensures d.kind == doc.kind && d.date == doc.date && d.alertLevel == doc.alertLevel
    ensures d.severity == doc.severity && d.title == doc.title
  {
    doc.(
      locationType := if doc.locationType == Undefined then Text(DefaultLocationType) else doc.locationType,
      coordinates := if doc.coordinates.None? then Some([]) else doc.coordinates,
      source := if doc.source == Undefined then Text(DefaultSource) else doc.source,
      lastUpdated := if doc.lastUpdated == Undefined then Instant(Finite(now)) else doc.lastUpdated)
  }

  /** A required string restricted to `allowed` (the empty string never passes `required`). */
  predicate RequiredChoice(v: JsValue, allowed: set<string>) {
    v.Text? && v.s in allowed
  }

  predicate RequiredString(v: JsValue) {
    v.Text? && v.s != ""
  }

  predicate OptionalString(v: JsValue) {
    v == Undefined || v == Null || v.Text?
  }

  predicate OptionalNumber(v: JsValue) {
    v == Undefined || v == Null || IsNumber(v)
  }

  /** A value cast to a date: a `Date`, a number of milliseconds, or a string the runtime parses. */
  function CastDate(p: Parsers, v: JsValue): Number {
    match v
    case Instant(t) => t
    case Num(n) => n
    case Text(s) => p.parseDate(s)
    case _ => NaN
  }

  predicate RequiredDate(p: Parsers, v: JsValue) {
    v != Undefined && v != Null && CastDate(p, v).Finite?
  }

  predicate OptionalDate(p: Parsers, v: JsValue) {
    v == Undefined || v == Null || CastDate(p, v).Finite?
  }

  predicate NumberArray(cs: Option<seq<JsValue>>) {
    cs.Some? && forall i :: 0 <= i < |cs.value| ==> IsNumber(cs.value[i])
  }

  /** Whether `doc` breaks the schema rule at `path`. */
  predicate Fails(p: Parsers, doc: Document, path: Path) {
    match path
    case TypePath => !RequiredChoice(doc.kind, EventTypes)
    case LocationTypePath => !(doc.locationType == Undefined || doc.locationType == Text(DefaultLocationType))
    case CoordinatesPath => !NumberArray(doc.coordinates)
    case DatePath => !RequiredDate(p, doc.date)
    case AlertLevelPath => !RequiredChoice(doc.alertLevel, AlertLevels)
    case SeverityPath => !(IsNumber(doc.severity) && 0.0 <= doc.severity.n.x <= 1.0)
    case TitlePath => !RequiredString(doc.title)
    case DescriptionPath => !OptionalString(doc.description)
    case SourcePath => !RequiredString(doc.source)
    case MagnitudePath => !OptionalNumber(doc.magnitude)
    case WindSpeedPath => !OptionalNumber(doc.windSpeed)
    case AffectedAreaPath => !OptionalNumber(doc.affectedArea)
    case LastUpdatedPath => !OptionalDate(p, doc.lastUpdated)
  }

  const AllPaths: set<Path> := {
    TypePath, LocationTypePath, CoordinatesPath, DatePath, AlertLevelPath, SeverityPath,
    TitlePath, DescriptionPath, SourcePath, MagnitudePath, WindSpeedPath, AffectedAreaPath,
    LastUpdatedPath}

  /** Every path of `doc` that fails its schema rule; validation reports all of them at once. */
  function Errors(p: Parsers, doc: Document): (e: set<Path>)
    ensures forall path :: path in e <==> Fails(p, doc, path)
  {
    set path | path in AllPaths && Fails(p, doc, path)
  }

  datatype SaveOutcome = Saved(doc: Document) | Rejected(paths: set<Path>)

  /** `save()`: defaults, then validation; a document with any failing path is rejected with all of them. */
  function Save(p: Parsers, doc: Document, now: real): (r: SaveOutcome)
    ensures r.Saved? ==> r.doc == ApplyDefaults(doc, now) && Errors(p, r.doc) == {}
    ensures r.Rejected? ==> r.paths == Errors(p, ApplyDefaults(doc, now)) && r.paths != {}
  {
    var d := ApplyDefaults(doc, now);
    var errors := Errors(p, d);
    if errors == {} then Saved(d) else Rejected(errors)
  }

  /**
   * A missing field is reported exactly when it is required and has no default: `type`,
   * `date`, `alertLevel`, `severity` and `title` are, `location.type`, `location.coordinates`,
   * `source` and `lastUpdated` are filled in, and the optional fields may be left out.
   */
  lemma MissingFieldReportedIffRequired(p: Parsers, doc: Document, now: real)
    ensures var e := Errors(p, ApplyDefaults(doc, now));
      && (doc.kind == Undefined ==> TypePath in e)
      && (doc.date == Undefined ==> DatePath in e)
      && (doc.alertLevel == Undefined ==> AlertLevelPath in e)
      && (doc.severity == Undefined ==> SeverityPath in e)
      && (doc.title == Undefined ==> TitlePath in e)
      && (doc.locationType == Undefined ==> LocationTypePath !in e)
      && (doc.coordinates.None? ==> CoordinatesPath !in e)
      && (doc.source == Undefined ==> SourcePath !in e)
      && (doc.lastUpdated == Undefined ==> LastUpdatedPath !in e)
      && (doc.description == Undefined ==> DescriptionPath !in e)
      && (doc.magnitude == Undefined ==> MagnitudePath !in e)
      && (doc.windSpeed == Undefined ==> WindSpeedPath !in e)
      && (doc.affectedArea == Undefined ==> AffectedAreaPath !in e)
  {
  }

  /** Defaults only repair: they never add an error, and they clear the errors of the absent defaulted fields. */
  lemma DefaultsOnlyRepair(p: Parsers, doc: Document, now: real)
    ensures Errors(p, ApplyDefaults(doc, now)) <= Errors(p, doc)
    ensures doc.source == Undefined ==> SourcePath in Errors(p, doc) - Errors(p, ApplyDefaults(doc, now))
    ensures doc.coordinates.None? ==> CoordinatesPath in Errors(p, doc) - Errors(p, ApplyDefaults(doc, now))
  {
  }

  /** What a saved document is guaranteed to hold. */
  lemma SavedDocumentConforms(p: Parsers, doc: Document, now: real)
    requires Save(p, doc, now).Saved?
    ensures var d := Save(p, doc, now).doc;
      && d.kind.Text? && d.kind.s in EventTypes
      && d.alertLevel.Text? && d.alertLevel.s in AlertLevels
      && IsNumber(d.severity) && 0.0 <= d.severity.n.x <= 1.0
      && d.title.Text? && d.title.s != ""
      && d.locationType == Text("Point")
      && d.coordinates.Some? && (forall i :: 0 <= i < |d.coordinates.value| ==> IsNumber(d.coordinates.value[i]))
      && CastDate(p, d.date).Finite?
      && d.source.Text? && d.source.s != ""
  {
    var d := Save(p, doc, now).doc;
    assert Errors(p, d) == {};
    assert !Fails(p, d, TypePath) && !Fails(p, d, AlertLevelPath) && !Fails(p, d, SeverityPath);
    assert !Fails(p, d, TitlePath) && !Fails(p, d, LocationTypePath) && !Fails(p, d, CoordinatesPath);
    assert !Fails(p, d, DatePath) && !Fails(p, d, SourcePath);
  }
}
