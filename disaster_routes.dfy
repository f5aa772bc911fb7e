/**
 * The handlers of the disaster router: the capped newest-first listing, the area query,
 * and the creation of a reported disaster. They are modelled as functions of what the
 * database answers; the router is not tied to URL paths here.
 */
module DisasterRoutes {
  import opened Js
  import opened DisasterSchema
  import opened GdacsService
  import opened DisasterController

  /** The cap of the unfiltered listing. */
  const ListLimit: nat := 1000

  /** The full listing: every stored record newest first, at most 1000; a database failure answers 500 with its message. */
  function ListDisasters(store: StoreState): (r: Reply<seq<FeedRecord>>)
    ensures r.Failure? <==> store.Offline?
    ensures r.Failure? ==> r.status == 500 && r.message == store.reason
    ensures r.Success? ==>
      && r.status == 200
      && |r.value| == (if |store.docs| < ListLimit then |store.docs| else ListLimit)
      && NewestFirstOrder(r.value)
      && multiset(r.value) <= multiset(store.docs)
      && (forall x, y :: x in r.value && y in multiset(store.docs) - multiset(r.value) ==> NoOlder(x, y))
  {
    if store.Offline? then Failure(500, store.reason) else Success(200, Newest(store.docs, ListLimit))
  }

  /** A store of at most 1000 records is listed whole. */
  lemma SmallStoreListedWhole(docs: seq<FeedRecord>)
    requires |docs| <= ListLimit
    ensures ListDisasters(Online(docs)).Success?
    ensures multiset(ListDisasters(Online(docs)).value) == multiset(docs)
  {
    var r := ListDisasters(Online(docs)).value;
    assert |multiset(r)| == |multiset(docs)|;
    assert multiset(docs) - multiset(r) == multiset{} by {
      assert |multiset(docs) - multiset(r)| == |multiset(docs)| - |multiset(r)|;
    }
  }

  /** `$near` around a `[longitude, latitude]` point within a distance in metres. */
  datatype NearQuery = NearQuery(point: seq<Number>, maxDistance: Number)

  /** The area query: the point is `[lng, lat]` and the radius, given in kilometres, becomes metres. */
  function AreaQueryOf(p: Parsers, lat: JsValue, lng: JsValue, radius: JsValue): (q: NearQuery)
    ensures |q.point| == 2 && q.point[0] == ParseFloat(p, lng) && q.point[1] == ParseFloat(p, lat)
    ensures ParseFloat(p, radius).Finite? ==> q.maxDistance == Finite(ParseFloat(p, radius).x * 1000.0)
    ensures ParseFloat(p, radius).NaN? ==> q.maxDistance.NaN?
  {
    NearQuery([ParseFloat(p, lng), ParseFloat(p, lat)], Mul(ParseFloat(p, radius), Finite(1000.0)))
  }

  /**
   * The area handler: the database (`near`, not modelled) answers the query; its records
   * are returned as they come, and a failure answers 500 with its message.
   */
  function AreaDisasters(p: Parsers, lat: JsValue, lng: JsValue, radius: JsValue,
                         near: NearQuery -> StoreState): (r: Reply<seq<FeedRecord>>)
    ensures var answer := near(AreaQueryOf(p, lat, lng, radius));
      && (r.Failure? <==> answer.Offline?)
      && (r.Failure? ==> r.status == 500 && r.message == answer.reason)
      && (r.Success? ==> r.status == 200 && r.value == answer.docs)
  {
    var answer := near(AreaQueryOf(p, lat, lng, radius));
    if answer.Offline? then Failure(500, answer.reason) else Success(200, answer.docs)
  }

  /** The request body of a reported disaster; any field may be missing. */
  datatype PostBody = PostBody(
    kind: JsValue,
    longitude: JsValue,
    latitude: JsValue,
    severity: JsValue,
    description: JsValue,
    affectedArea: JsValue,
    casualties: JsValue,
    status: JsValue,
    date: JsValue,
    alertLevel: JsValue,
    title: JsValue)

  /** The answer to a POST: 201 with the saved document, or 400 naming the failing paths. */
  datatype PostReply = Created(doc: Document) | BadRequest(paths: set<Path>)

  /**
   * The document the handler builds. Only `type`, `location`, `severity` and `description`
   * reach the schema: `affectedArea`, `casualties` and `status` are not schema paths
   * (the schema's field is `affected_area`) and are dropped, and `date`, `alertLevel` and
   * `title` are never copied.
   */
  function NewDisaster(body: PostBody): (d: Document)
    ensures d.locationType == Text(DefaultLocationType)
    ensures d.coordinates == Some([body.longitude, body.latitude])
    ensures d.date == Undefined && d.alertLevel == Undefined && d.title == Undefined
  {
    Document(
      kind := body.kind,
      locationType := Text("Point"),
      coordinates := Some([body.longitude, body.latitude]),
      date := Undefined,
      alertLevel := Undefined,
      severity := body.severity,
      title := Undefined,
      description := body.description,
      source := Undefined,
      magnitude := Undefined,
      windSpeed := Undefined,
      affectedArea := Undefined,
      lastUpdated := Undefined)
  }

  function PostAnswer(outcome: SaveOutcome): PostReply {
    match outcome
    case Saved(d) => Created(d)
    case Rejected(paths) => BadRequest(paths)
  }

  /** The POST handler as written. */
  function PostDisaster(p: Parsers, body: PostBody, now: real): (r: PostReply)
    ensures r.Created? ==> r.doc == ApplyDefaults(NewDisaster(body), now) && Errors(p, r.doc) == {}
    ensures r.BadRequest? ==> r.paths == Errors(p, ApplyDefaults(NewDisaster(body), now)) && r.paths != {}
  {
    PostAnswer(Save(p, NewDisaster(body), now))
  }

  /** As written, every POST is answered 400: `date`, `alertLevel` and `title` are required and always missing. */
  lemma PostAlwaysRejected(p: Parsers, body: PostBody, now: real)
    ensures PostDisaster(p, body, now).BadRequest?
    ensures {DatePath, AlertLevelPath, TitlePath} <= PostDisaster(p, body, now).paths
  {
    MissingFieldReportedIffRequired(p, NewDisaster(body), now);
  }

  /** The document with the required fields copied from the body and `affectedArea` stored as `affected_area`. */
  function NewDisasterCorrected(body: PostBody): (d: Document)
    ensures d.locationType == Text(DefaultLocationType)
    ensures d.coordinates == Some([body.longitude, body.latitude])
    ensures d.date == body.date && d.alertLevel == body.alertLevel && d.title == body.title
  {
    NewDisaster(body).(date := body.date, alertLevel := body.alertLevel, title := body.title,
                       affectedArea := body.affectedArea)
  }

  function PostDisasterCorrected(p: Parsers, body: PostBody, now: real): PostReply {
    PostAnswer(Save(p, NewDisasterCorrected(body), now))
  }

  /** What a body must hold for the schema to accept it. */
  predicate WellFormedReport(p: Parsers, body: PostBody) {
    && RequiredChoice(body.kind, EventTypes)
    && IsNumber(body.longitude) && IsNumber(body.latitude)
    && RequiredDate(p, body.date)
    && RequiredChoice(body.alertLevel, AlertLevels)
    && IsNumber(body.severity) && 0.0 <= body.severity.n.x <= 1.0
    && RequiredString(body.title)
    && OptionalString(body.description)
    && OptionalNumber(body.affectedArea)
  }

  /** With the fields copied, a report is created exactly when it is well formed, and then as sent. */
  lemma PostCorrectedCreatedIff(p: Parsers, body: PostBody, now: real)
    ensures PostDisasterCorrected(p, body, now).Created? <==> WellFormedReport(p, body)
    ensures PostDisasterCorrected(p, body, now).Created? ==>
      var d := PostDisasterCorrected(p, body, now).doc;
      d.kind == body.kind && d.date == body.date && d.alertLevel == body.alertLevel &&
      d.title == body.title && d.severity == body.severity && d.source == Text(DefaultSource)
  {
    var d := ApplyDefaults(NewDisasterCorrected(body), now);
    assert d.coordinates.value == [body.longitude, body.latitude];
    assert Fails(p, d, TypePath) <==> !RequiredChoice(body.kind, EventTypes);
    assert Fails(p, d, CoordinatesPath) <==> !(IsNumber(body.longitude) && IsNumber(body.latitude)) by {
      var cs := d.coordinates.value;
      assert cs[0] == body.longitude && cs[1] == body.latitude;
      assert NumberArray(d.coordinates) <==> IsNumber(cs[0]) && IsNumber(cs[1]);
    }
    assert Fails(p, d, DatePath) <==> !RequiredDate(p, body.date);
    assert Fails(p, d, AlertLevelPath) <==> !RequiredChoice(body.alertLevel, AlertLevels);
    assert Fails(p, d, SeverityPath) <==> !(IsNumber(body.severity) && 0.0 <= body.severity.n.x <= 1.0);
    assert Fails(p, d, TitlePath) <==> !RequiredString(body.title);
    assert Fails(p, d, DescriptionPath) <==> !OptionalString(body.description);
    assert Fails(p, d, AffectedAreaPath) <==> !OptionalNumber(body.affectedArea);
    assert !Fails(p, d, LocationTypePath) && !Fails(p, d, SourcePath) && !Fails(p, d, MagnitudePath);
    assert !Fails(p, d, WindSpeedPath) && !Fails(p, d, LastUpdatedPath);
    if WellFormedReport(p, body) {
      forall path ensures !Fails(p, d, path) { }
      assert Errors(p, d) == {};
    }
  }
}
