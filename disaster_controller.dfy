/**
 * The disaster store and the three controller operations on it: the GDACS refresh
 * (one keyed upsert per fetched record), the filtered newest-first listing, and the
 * per-type statistics. The database is modelled as a sequence of records; what the
 * database engine computes (matching, sorting, grouping) is stated as functions.
 */
module DisasterController {
  import opened Js
  import opened KeyedSeq
  import opened GdacsService

  /** The upsert filter of a record: `type`, `location.coordinates` and `date`. */
  datatype NaturalKey = NaturalKey(kind: JsValue, coordinates: seq<Number>, date: Number)

  function KeyOf(r: FeedRecord): NaturalKey {
    NaturalKey(r.kind, r.coordinates, r.date)
  }

  /** `updateOne` with a filter, a `$set` of a whole record, and the upsert flag. */
  datatype UpsertOp = UpdateOne(filter: NaturalKey, update: FeedRecord, upsert: bool)

  /** The first stored record the filter matches, then: overwrite it; none: insert when upserting. */
  function ApplyOp(docs: seq<FeedRecord>, op: UpsertOp): seq<FeedRecord> {
    match IndexOfKey(docs, KeyOf, op.filter)
    case Some(i) => docs[i := op.update]
    case None => if op.upsert then docs + [op.update] else docs
  }

  /** The operations of a bulk write, applied in order. */
  function ApplyOps(docs: seq<FeedRecord>, ops: seq<UpsertOp>): seq<FeedRecord>
    decreases |ops|
  {
    if ops == [] then docs else ApplyOps(ApplyOp(docs, ops[0]), ops[1..])
  }

  /** One upsert per fetched record, filtered on its natural key, setting the whole record. */
  function Operations(batch: seq<FeedRecord>): (ops: seq<UpsertOp>)
    ensures |ops| == |batch|
    ensures forall i :: 0 <= i < |batch| ==>
      ops[i].upsert && ops[i].update == batch[i] && ops[i].filter == KeyOf(batch[i])
  {
    seq(|batch|, i requires 0 <= i < |batch| => UpdateOne(KeyOf(batch[i]), batch[i], true))
  }

  /** An upsert of a record keyed by its own key is the keyed insert-or-replace. */
  lemma ApplyOpIsPut(docs: seq<FeedRecord>, r: FeedRecord)
    ensures ApplyOp(docs, UpdateOne(KeyOf(r), r, true)) == Put(docs, KeyOf, r)
  {
  }

  lemma {:induction false} ApplyOpsAppend(docs: seq<FeedRecord>, ops: seq<UpsertOp>, op: UpsertOp)
    ensures ApplyOps(docs, ops + [op]) == ApplyOp(ApplyOps(docs, ops), op)
    decreases |ops|
  {
    if ops == [] {
      assert ops + [op] == [op];
    } else {
      assert (ops + [op])[1..] == ops[1..] + [op];
      ApplyOpsAppend(ApplyOp(docs, ops[0]), ops[1..], op);
    }
  }

  /** Applying the bulk write of a batch is the batch's keyed insert-or-replace, record by record. */
  lemma {:induction false} BulkWriteIsPutAll(docs: seq<FeedRecord>, batch: seq<FeedRecord>)
    ensures ApplyOps(docs, Operations(batch)) == PutAll(docs, KeyOf, batch)
    decreases |batch|
  {
    if batch != [] {
      var front, last := batch[..|batch| - 1], batch[|batch| - 1];
      assert batch == front + [last];
      BulkWriteIsPutAll(docs, front);
      assert PutAll(docs, KeyOf, batch) == Put(PutAll(docs, KeyOf, front), KeyOf, last);
      var ops, opsFront := Operations(batch), Operations(front);
      assert ops == opsFront + [UpdateOne(KeyOf(last), last, true)] by {
        assert |ops| == |opsFront| + 1;
        forall i | 0 <= i < |ops| ensures ops[i] == (opsFront + [UpdateOne(KeyOf(last), last, true)])[i] {
          if i < |front| {
            assert batch[i] == front[i];
          }
        }
      }
      ApplyOpsAppend(docs, Operations(front), UpdateOne(KeyOf(last), last, true));
      ApplyOpIsPut(ApplyOps(docs, Operations(front)), last);
    }
  }

  /**
   * An operation whose filter is its record's own key keeps the natural keys distinct:
   * it overwrites the record with that key, appends a new key, or changes nothing.
   */
  lemma ApplyOpKeepsDistinct(docs: seq<FeedRecord>, op: UpsertOp)
    requires DistinctKeys(docs, KeyOf) && op.filter == KeyOf(op.update)
    ensures DistinctKeys(ApplyOp(docs, op), KeyOf)
  {
    if op.upsert || IndexOfKey(docs, KeyOf, op.filter).Some? {
      assert ApplyOp(docs, op) == ApplyOp(docs, UpdateOne(KeyOf(op.update), op.update, true));
      ApplyOpIsPut(docs, op.update);
    }
  }

  lemma {:induction false} ApplyOpsKeepDistinct(docs: seq<FeedRecord>, ops: seq<UpsertOp>)
    requires DistinctKeys(docs, KeyOf)
    requires forall op :: op in ops ==> op.filter == KeyOf(op.update)
    ensures DistinctKeys(ApplyOps(docs, ops), KeyOf)
    decreases |ops|
  {
    if ops != [] {
      assert ops[0] in ops;
      ApplyOpKeepsDistinct(docs, ops[0]);
      assert forall op :: op in ops[1..] ==> op in ops;
      ApplyOpsKeepDistinct(ApplyOp(docs, ops[0]), ops[1..]);
    }
  }

  /** The stored records: at most one per natural key, which every write keeps. */
  class DisasterStore {
    var docs: seq<FeedRecord>

    ghost predicate Valid()
      reads this
    {
      DistinctKeys(docs, KeyOf)
    }

    constructor()
      ensures docs == [] && Valid()
    {
      docs := [];
    }

    /** `bulkWrite`: the database applies the operations in order. */
    method BulkWrite(ops: seq<UpsertOp>)
      modifies this
      ensures docs == ApplyOps(old(docs), ops)
      ensures old(Valid()) && (forall op :: op in ops ==> op.filter == KeyOf(op.update)) ==> Valid()
    {
      if Valid() && forall op :: op in ops ==> op.filter == KeyOf(op.update) {
        ApplyOpsKeepDistinct(docs, ops);
      }
      docs := ApplyOps(docs, ops);
    }

    /**
     * `updateGDACSData`: fetch, build one upsert per record, write them when there is at
     * least one, and report how many operations were sent (not how many records are new).
     * `rejectedAt` is where the database rejects the ordered bulk write, if it does: the
     * operations before it are applied, and the handler's catch answers 500.
     */
    method UpdateGdacsData(p: Parsers, response: FeedResponse, rejectedAt: Option<nat>) returns (reply: Reply<nat>)
      requires Valid()
      modifies this
      ensures Valid()
      ensures var batch := FetchGdacsData(p, response);
        if rejectedAt.Some? && rejectedAt.value < |batch| then
          && reply == Failure(500, UpdateFailedMessage)
          && docs == PutAll(old(docs), KeyOf, batch[..rejectedAt.value])
        else
          && reply == Success(200, |batch|)
          && docs == PutAll(old(docs), KeyOf, batch)
      ensures FetchGdacsData(p, response) == [] ==> docs == old(docs) && reply == Success(200, 0)
    {
      var batch := FetchGdacsData(p, response);
      var ops := Operations(batch);
      if |ops| > 0 {
        if rejectedAt.Some? && rejectedAt.value < |ops| {
          var k := rejectedAt.value;
          assert Operations(batch[..k]) == ops[..k];
          BulkWrite(ops[..k]);
          BulkWriteIsPutAll(old(docs), batch[..k]);
          PutAllFacts(old(docs), KeyOf, batch[..k]);
          return Failure(500, UpdateFailedMessage);
        }
        BulkWrite(ops);
        BulkWriteIsPutAll(old(docs), batch);
      }
      PutAllFacts(old(docs), KeyOf, batch);
      reply := Success(200, |ops|);
    }
  }

  const UpdateFailedMessage: string := "Failed to update GDACS data"

  /**
   * After a refresh every fetched key has exactly one stored record, the last fetched one
   * with that key; records of other keys are untouched; and refreshing again with the same
   * feed changes nothing.
   */
  lemma RefreshFacts(docs: seq<FeedRecord>, batch: seq<FeedRecord>)
    requires DistinctKeys(docs, KeyOf)
    ensures var t := PutAll(docs, KeyOf, batch);
      && DistinctKeys(t, KeyOf)
      && Keys(t, KeyOf) == Keys(docs, KeyOf) + Keys(batch, KeyOf)
      && |docs| <= |t|
      && (forall i :: 0 <= i < |t| && KeyOf(t[i]) in Keys(batch, KeyOf) ==>
            t[i] == LastWithKey(batch, KeyOf, KeyOf(t[i])))
      && (forall i :: 0 <= i < |docs| && KeyOf(docs[i]) !in Keys(batch, KeyOf) ==> t[i] == docs[i])
      && PutAll(t, KeyOf, batch) == t
  {
    PutAllFacts(docs, KeyOf, batch);
    PutAllIdempotent(docs, KeyOf, batch);
  }

  // ---------------------------------------------------------------------------
  // Filtered listing

  /** The query-string parameters of the listing; each is absent or a string. */
  datatype QueryParams = QueryParams(kind: Option<string>, alertLevel: Option<string>, days: Option<string>)

  /** The query object: exact `type`, exact `alertLevel`, and a lower bound on `date` (a time value). */
  datatype DisasterQuery = DisasterQuery(kind: Option<string>, alertLevel: Option<string>, since: Option<Number>)

  /** A query parameter takes effect when it is a non-empty string. */
  predicate Supplied(o: Option<string>) {
    o.Some? && o.value != ""
  }

  /** `days` days before `now`, a day counting 86400000 ms; a count that does not parse gives an invalid date. */
  function DaysAgo(p: Parsers, days: string, now: real): (r: Number)
    ensures r.NaN? <==> p.parseInt(days).NaN?
    ensures r.Finite? && p.parseInt(days).x >= 0.0 ==> r.x <= now
  {
    var n := p.parseInt(days);
    Sub(Finite(now), Mul(n, Finite(MsPerDay)))
  }

  /** The query `getDisasters` builds. */
  function QueryOf(p: Parsers, params: QueryParams, now: real): (q: DisasterQuery)
    ensures q.kind.Some? ==> q.kind.value != "" && q.kind == params.kind
    ensures q.alertLevel.Some? ==> q.alertLevel.value != "" && q.alertLevel == params.alertLevel
    ensures q.since.Some? <==> Supplied(params.days)
  {
    DisasterQuery(
      if Supplied(params.kind) then params.kind else None,
      if Supplied(params.alertLevel) then params.alertLevel else None,
      if Supplied(params.days) then Some(DaysAgo(p, params.days.value, now)) else None)
  }

  /** The query is built field by field, each only when its parameter is supplied. */
  method BuildQuery(p: Parsers, params: QueryParams, now: real) returns (q: DisasterQuery)
    ensures q == QueryOf(p, params, now)
  {
    q := DisasterQuery(None, None, None);
    if Supplied(params.kind) {
      q := q.(kind := params.kind);
    }
    if Supplied(params.alertLevel) {
      q := q.(alertLevel := params.alertLevel);
    }
    if Supplied(params.days) {
      var daysAgo := DaysAgo(p, params.days.value, now);
      q := q.(since := Some(daysAgo));
    }
  }

  /** Mongo's `$gte` on dates: a record with an invalid date never meets a date bound, nor does an invalid bound. */
  predicate Matches(q: DisasterQuery, r: FeedRecord)
    ensures Matches(q, r) && q.since.Some? ==> r.date.Finite? && q.since.value.Finite?
  {
    && (q.kind.Some? ==> r.kind == Text(q.kind.value))
    && (q.alertLevel.Some? ==> r.alertLevel == Text(q.alertLevel.value))
    && (q.since.Some? ==> q.since.value.Finite? && r.date.Finite? && r.date.x >= q.since.value.x)
  }

  /** A record matches exactly when it has each supplied type and alert level and is no older than `days` days. */
  lemma MatchesIff(p: Parsers, params: QueryParams, now: real, r: FeedRecord)
    requires Supplied(params.days) ==> p.parseInt(params.days.value).Finite?
    ensures Matches(QueryOf(p, params, now), r) <==>
      && (Supplied(params.kind) ==> r.kind == Text(params.kind.value))
      && (Supplied(params.alertLevel) ==> r.alertLevel == Text(params.alertLevel.value))
      && (Supplied(params.days) ==>
            r.date.Finite? && r.date.x >= now - p.parseInt(params.days.value).x * MsPerDay)
  {
  }

  function Filter(q: DisasterQuery, docs: seq<FeedRecord>): (r: seq<FeedRecord>)
    ensures multiset(r) <= multiset(docs)
    ensures forall x :: x in r <==> x in docs && Matches(q, x)
  {
    if docs == [] then []
    else
      var rest := Filter(q, docs[1..]);
      assert docs == [docs[0]] + docs[1..];
      if Matches(q, docs[0]) then [docs[0]] + rest else rest
  }

  /** `a` sorts before or level with `b` under `sort({date: -1})`; an invalid date sorts last. */
  predicate NoOlder(a: FeedRecord, b: FeedRecord) {
    b.date.NaN? || (a.date.Finite? && a.date.x >= b.date.x)
  }

  predicate NewestFirstOrder(s: seq<FeedRecord>) {
    forall i, j :: 0 <= i < j < |s| ==> NoOlder(s[i], s[j])
  }

  lemma NoOlderTransitive(a: FeedRecord, b: FeedRecord, c: FeedRecord)
    requires NoOlder(a, b) && NoOlder(b, c)
    ensures NoOlder(a, c)
  {
  }

  /** A record no older than every record of a sorted sequence can go in front of it. */
  lemma PrependSorted(x: FeedRecord, s: seq<FeedRecord>)
    requires NewestFirstOrder(s)
    requires forall y :: y in s ==> NoOlder(x, y)
    ensures NewestFirstOrder([x] + s)
  {
    var r := [x] + s;
    forall i, j | 0 <= i < j < |r| ensures NoOlder(r[i], r[j]) {
      if i == 0 {
        assert r[j] == s[j - 1];
      } else {
        assert r[i] == s[i - 1] && r[j] == s[j - 1];
      }
    }
  }

  function Insert(x: FeedRecord, s: seq<FeedRecord>): (r: seq<FeedRecord>)
    requires NewestFirstOrder(s)
    ensures NewestFirstOrder(r)
    ensures multiset(r) == multiset(s) + multiset{x}
  {
    if s == [] then [x]
    else if NoOlder(x, s[0]) then
      assert forall y :: y in s ==> NoOlder(x, y) by {
        forall y | y in s ensures NoOlder(x, y) {
          var j :| 0 <= j < |s| && s[j] == y;
          if j > 0 {
            NoOlderTransitive(x, s[0], y);
          }
        }
      }
      PrependSorted(x, s);
      [x] + s
    else
      var rest := Insert(x, s[1..]);
      assert s == [s[0]] + s[1..];
      assert forall y :: y in rest ==> NoOlder(s[0], y) by {
        forall y | y in rest ensures NoOlder(s[0], y) {
          assert y in multiset(rest);
          if y != x {
            assert y in multiset(s[1..]);
            var j :| 0 <= j < |s[1..]| && s[1..][j] == y;
            assert s[j + 1] == y;
          }
        }
      }
      PrependSorted(s[0], rest);
      [s[0]] + rest
  }

  /** The records sorted newest first. */
  function SortNewestFirst(s: seq<FeedRecord>): (r: seq<FeedRecord>)
    ensures NewestFirstOrder(r)
    ensures multiset(r) == multiset(s)
  {
    if s == [] then []
    else
      assert s == [s[0]] + s[1..];
      Insert(s[0], SortNewestFirst(s[1..]))
  }

  /** A prefix of a sorted sequence is sorted, and none of the records after it is newer than one in it. */
  lemma SortedPrefixIsTop(t: seq<FeedRecord>, k: nat)
    requires NewestFirstOrder(t) && k <= |t|
    ensures NewestFirstOrder(t[..k])
    ensures multiset(t) - multiset(t[..k]) == multiset(t[k..])
    ensures forall x, y :: x in t[..k] && y in multiset(t) - multiset(t[..k]) ==> NoOlder(x, y)
  {
    var r := t[..k];
    assert t == r + t[k..];
    forall x, y | x in r && y in multiset(t) - multiset(r) ensures NoOlder(x, y) {
      var i :| 0 <= i < k && r[i] == x;
      assert y in t[k..];
      var j :| k <= j < |t| && t[j] == y;
    }
  }

  /**
   * `sort({date: -1}).limit(cap)`: at most `cap` records, newest first, drawn from `s`,
   * and no record left out is newer than one returned.
   */
  function Newest(s: seq<FeedRecord>, cap: nat): (r: seq<FeedRecord>)
    ensures |r| == if |s| < cap then |s| else cap
    ensures NewestFirstOrder(r)
    ensures multiset(r) <= multiset(s)
    ensures forall x, y :: x in r && y in multiset(s) - multiset(r) ==> NoOlder(x, y)
  {
    var t := SortNewestFirst(s);
    var k := if |s| < cap then |s| else cap;
    assert |t| == |s| by {
      assert |multiset(t)| == |multiset(s)|;
    }
    SortedPrefixIsTop(t, k);
    var r := t[..k];
    r
  }

  /** The cap of the filtered listing. */
  const QueryLimit: nat := 100

  /** What the database answers: its records, or a failure with its message. */
  datatype StoreState = Online(docs: seq<FeedRecord>) | Offline(reason: string)

  /** A handler's answer: a JSON body with its status, or an error status with its message. */
  datatype Reply<T> = Success(status: nat, value: T) | Failure(status: nat, message: string)

  const FetchFailedMessage: string := "Failed to fetch disasters"

  /**
   * `getDisasters`: the matching records, newest first, at most 100. A `days` that does
   * not parse gives an invalid date bound, which the database rejects.
   */
  function GetDisasters(p: Parsers, params: QueryParams, now: real, store: StoreState): (r: Reply<seq<FeedRecord>>)
    ensures r.Failure? <==> store.Offline? || (Supplied(params.days) && p.parseInt(params.days.value).NaN?)
    ensures r.Failure? ==> r.status == 500 && r.message == FetchFailedMessage
    ensures r.Success? ==>
      && r.status == 200
      && NewestFirstOrder(r.value)
      && (forall x :: x in r.value ==> x in store.docs && Matches(QueryOf(p, params, now), x))
    ensures r.Success? ==>
      var m := Filter(QueryOf(p, params, now), store.docs);
      && |r.value| == (if |m| < QueryLimit then |m| else QueryLimit)
      && multiset(r.value) <= multiset(m)
      && (forall x, y :: x in r.value && y in multiset(m) - multiset(r.value) ==> NoOlder(x, y))
  {
    var q := QueryOf(p, params, now);
    if store.Offline? || (q.since.Some? && q.since.value.NaN?) then Failure(500, FetchFailedMessage)
    else
      var r := Newest(Filter(q, store.docs), QueryLimit);
      assert forall x :: x in r ==> x in multiset(Filter(q, store.docs));
      Success(200, r)
  }

  // ---------------------------------------------------------------------------
  // Statistics

  /** One `byAlertLevel` entry. */
  datatype AlertEntry = AlertEntry(alertLevel: JsValue, severity: Number)

  /** One group of `$group` by `type`. */
  datatype StatsGroup = StatsGroup(id: JsValue, count: nat, avgSeverity: Number, byAlertLevel: seq<AlertEntry>)

  /** The entries of the records of type `k`, in store order. */
  function Entries(docs: seq<FeedRecord>, k: JsValue): (r: seq<AlertEntry>)
    ensures |r| <= |docs|
  {
    if docs == [] then []
    else
      var rest := Entries(docs[1..], k);
      if docs[0].kind == k then [AlertEntry(docs[0].alertLevel, docs[0].severity)] + rest else rest
  }

  /** The types present in the store. */
  ghost function KindSet(docs: seq<FeedRecord>): set<JsValue> {
    set i | 0 <= i < |docs| :: docs[i].kind
  }

  /** The distinct types, in order of first occurrence (the database leaves group order unspecified). */
  function DistinctKinds(docs: seq<FeedRecord>): (ks: seq<JsValue>)
    ensures |ks| <= |docs|
    ensures forall i, j :: 0 <= i < j < |ks| ==> ks[i] != ks[j]
    ensures forall k :: k in ks <==> k in KindSet(docs)
    decreases |docs|
  {
    if docs == [] then []
    else
      var front := docs[..|docs| - 1];
      var ks := DistinctKinds(front);
      var k := docs[|docs| - 1].kind;
      assert KindSet(docs) == KindSet(front) + {k} by {
        assert forall i :: 0 <= i < |front| ==> docs[i] == front[i];
      }
      if k in ks then ks else ks + [k]
  }

  function SumSeverity(es: seq<AlertEntry>): Number {
    if es == [] then Finite(0.0)
    else
      var rest := SumSeverity(es[1..]);
      if es[0].severity.Finite? && rest.Finite? then Finite(es[0].severity.x + rest.x) else NaN
  }

  /** `$avg` of the severities: NaN as soon as one is NaN. */
  function AverageSeverity(es: seq<AlertEntry>): Number {
    if es == [] then NaN else Div(SumSeverity(es), |es| as real)
  }

  function GroupOf(docs: seq<FeedRecord>, k: JsValue): StatsGroup {
    var es := Entries(docs, k);
    StatsGroup(k, |es|, AverageSeverity(es), es)
  }

  /** `$group` by type: never more groups than records, each for a type present in the store. */
  function Groups(docs: seq<FeedRecord>): (gs: seq<StatsGroup>)
    ensures |gs| <= |docs|
    ensures forall i :: 0 <= i < |gs| ==> gs[i].id in KindSet(docs)
  {
    var ks := DistinctKinds(docs);
    seq(|ks|, i requires 0 <= i < |ks| => GroupOf(docs, ks[i]))
  }

  const StatsFailedMessage: string := "Failed to fetch disaster statistics"

  /** `getDisasterStats`: one group per type present in the store. */
  function GetDisasterStats(store: StoreState): (r: Reply<seq<StatsGroup>>)
    ensures r.Failure? <==> store.Offline?
    ensures r.Failure? ==> r.status == 500 && r.message == StatsFailedMessage
    ensures r.Success? ==> r.status == 200 && r.value == Groups(store.docs)
  {
    if store.Offline? then Failure(500, StatsFailedMessage) else Success(200, Groups(store.docs))
  }

  function TotalCount(gs: seq<StatsGroup>): nat {
    if gs == [] then 0 else gs[0].count + TotalCount(gs[1..])
  }

  /** How many of the types `ks` are `k`. */
  function Occurrences(ks: seq<JsValue>, k: JsValue): nat {
    if ks == [] then 0 else (if ks[0] == k then 1 else 0) + Occurrences(ks[1..], k)
  }

  function SumEntries(docs: seq<FeedRecord>, ks: seq<JsValue>): nat {
    if ks == [] then 0 else |Entries(docs, ks[0])| + SumEntries(docs, ks[1..])
  }

  lemma {:induction false} OccurrencesOfDistinct(ks: seq<JsValue>, k: JsValue)
    requires forall i, j :: 0 <= i < j < |ks| ==> ks[i] != ks[j]
    ensures Occurrences(ks, k) == if k in ks then 1 else 0
  {
    if ks != [] {
      OccurrencesOfDistinct(ks[1..], k);
      if ks[0] == k {
        assert k !in ks[1..] by {
          forall j | 0 <= j < |ks[1..]| ensures ks[1..][j] != k {
            assert ks[1..][j] == ks[j + 1];
          }
        }
      }
    }
  }

  /** Removing the first record takes one entry from its own type's count and none from the others. */
  lemma {:induction false} SumEntriesStep(docs: seq<FeedRecord>, ks: seq<JsValue>)
    requires docs != []
    ensures SumEntries(docs, ks) == SumEntries(docs[1..], ks) + Occurrences(ks, docs[0].kind)
  {
    if ks != [] {
      SumEntriesStep(docs, ks[1..]);
    }
  }

  /** Over distinct types that cover every record, the group sizes add up to the number of records. */
  lemma {:induction false} SumEntriesCovers(docs: seq<FeedRecord>, ks: seq<JsValue>)
    requires forall i, j :: 0 <= i < j < |ks| ==> ks[i] != ks[j]
    requires forall i :: 0 <= i < |docs| ==> docs[i].kind in ks
    ensures SumEntries(docs, ks) == |docs|
  {
    if docs == [] {
      SumEntriesEmpty(ks);
    } else {
      SumEntriesStep(docs, ks);
      OccurrencesOfDistinct(ks, docs[0].kind);
      assert forall i :: 0 <= i < |docs[1..]| ==> docs[1..][i] == docs[i + 1];
      SumEntriesCovers(docs[1..], ks);
    }
  }

  lemma {:induction false} SumEntriesEmpty(ks: seq<JsValue>)
    ensures SumEntries([], ks) == 0
  {
    if ks != [] {
      SumEntriesEmpty(ks[1..]);
    }
  }

  lemma {:induction false} TotalCountOfGroups(docs: seq<FeedRecord>, ks: seq<JsValue>)
    ensures TotalCount(seq(|ks|, i requires 0 <= i < |ks| => GroupOf(docs, ks[i]))) == SumEntries(docs, ks)
  {
    var gs := seq(|ks|, i requires 0 <= i < |ks| => GroupOf(docs, ks[i]));
    if ks != [] {
      TotalCountOfGroups(docs, ks[1..]);
      assert gs[1..] == seq(|ks[1..]|, i requires 0 <= i < |ks[1..]| => GroupOf(docs, ks[1..][i]));
    }
  }

  /** The statistics have one group per type present in the store, each type once. */
  lemma StatsGroupPerType(docs: seq<FeedRecord>)
    ensures var gs := Groups(docs);
      && (forall i, j :: 0 <= i < j < |gs| ==> gs[i].id != gs[j].id)
      && (set i | 0 <= i < |gs| :: gs[i].id) == KindSet(docs)
  {
    var ks := DistinctKinds(docs);
    var gs := Groups(docs);
    assert forall i :: 0 <= i < |gs| ==> gs[i].id == ks[i];
    forall k | k in KindSet(docs) ensures k in (set i | 0 <= i < |gs| :: gs[i].id) {
      var i :| 0 <= i < |ks| && ks[i] == k;
      assert gs[i].id == k;
    }
  }

  /** Every group is non-empty and its count is its number of entries. */
  lemma StatsGroupsNonEmpty(docs: seq<FeedRecord>)
    ensures var gs := Groups(docs);
      forall i :: 0 <= i < |gs| ==> gs[i].count == |gs[i].byAlertLevel| && gs[i].count > 0
  {
    var ks := DistinctKinds(docs);
    var gs := Groups(docs);
    forall i | 0 <= i < |gs| ensures gs[i].count == |gs[i].byAlertLevel| && gs[i].count > 0 {
      assert gs[i] == GroupOf(docs, ks[i]);
      assert ks[i] in KindSet(docs);
      var j :| 0 <= j < |docs| && docs[j].kind == ks[i];
      EntriesNonEmpty(docs, ks[i], j);
    }
  }

  /** The group counts add up to the number of stored records. */
  lemma StatsCountsSumToStoreSize(docs: seq<FeedRecord>)
    ensures TotalCount(Groups(docs)) == |docs|
  {
    var ks := DistinctKinds(docs);
    assert forall i :: 0 <= i < |docs| ==> docs[i].kind in KindSet(docs);
    SumEntriesCovers(docs, ks);
    TotalCountOfGroups(docs, ks);
  }

  lemma {:induction false} EntriesNonEmpty(docs: seq<FeedRecord>, k: JsValue, j: nat)
    requires j < |docs| && docs[j].kind == k
    ensures |Entries(docs, k)| > 0
  {
    if docs[0].kind != k {
      EntriesNonEmpty(docs[1..], k, j - 1);
    }
  }

  /** Each group's entries are exactly its type's records, in store order. */
  lemma {:induction false} EntriesAreTheTypesRecords(docs: seq<FeedRecord>, k: JsValue, e: AlertEntry)
    ensures e in Entries(docs, k) <==>
      exists i :: 0 <= i < |docs| && docs[i].kind == k && e == AlertEntry(docs[i].alertLevel, docs[i].severity)
  {
    if docs != [] {
      EntriesAreTheTypesRecords(docs[1..], k, e);
      assert forall i :: 1 <= i < |docs| ==> docs[i] == docs[1..][i - 1];
      if e in Entries(docs[1..], k) {
        var i :| 0 <= i < |docs[1..]| && docs[1..][i].kind == k && e == AlertEntry(docs[1..][i].alertLevel, docs[1..][i].severity);
        assert docs[i + 1] == docs[1..][i];
      }
    }
  }

  /** When every severity of a group lies in [0, 1], so does its average. */
  lemma {:induction false} SumSeverityBounds(es: seq<AlertEntry>)
    requires forall i :: 0 <= i < |es| ==> es[i].severity.Finite? && 0.0 <= es[i].severity.x <= 1.0
    ensures SumSeverity(es).Finite? && 0.0 <= SumSeverity(es).x <= |es| as real
  {
    if es != [] {
      SumSeverityBounds(es[1..]);
    }
  }

  lemma AverageSeverityInRange(es: seq<AlertEntry>)
    requires es != []
    requires forall i :: 0 <= i < |es| ==> es[i].severity.Finite? && 0.0 <= es[i].severity.x <= 1.0
    ensures AverageSeverity(es).Finite? && 0.0 <= AverageSeverity(es).x <= 1.0
  {
    SumSeverityBounds(es);
    var n := |es| as real;
    var s := SumSeverity(es).x;
    assert s / n <= 1.0 by {
      assert s <= n;
      assert s / n <= n / n;
    }
  }
}
