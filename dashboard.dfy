/**
 * The reports dashboard: an infinitely scrolling list of humanitarian reports, fetched a
 * page at a time. Each page is de-duplicated by report id before it is appended; an empty
 * page, or a failed request, ends the scrolling.
 *
 * The request itself is a parameter: `FetchReports` receives what it yielded.
 */
module Dashboard {
  import opened Js
  import opened KeyedSeq

  /** A report: its id, and the title and creation date shown on its card. */
  datatype Report = Report(id: JsValue, title: JsValue, created: JsValue)

  function ReportId(r: Report): JsValue {
    r.id
  }

  /**
   * `[...new Map(page.map(r => [r.id, r])).values()]`: a JavaScript Map keeps the position
   * where a key was first set and the value it was last set to.
   */
  function UniqueReports(page: seq<Report>): (u: seq<Report>)
    ensures DistinctKeys(u, ReportId) && Keys(u, ReportId) == Keys(page, ReportId)
  {
    PutAllFacts([], ReportId, page);
    PutAll([], ReportId, page)
  }

  /**
   * A de-duplicated page holds one report per id of the page, and no other; each is the
   * page's last report with that id; ids appear in the order of their first occurrence.
   */
  lemma UniqueReportsFacts(page: seq<Report>)
    ensures var u := UniqueReports(page);
      && DistinctKeys(u, ReportId)
      && Keys(u, ReportId) == Keys(page, ReportId)
      && |u| <= |page|
      && (forall i :: 0 <= i < |u| ==> u[i] == LastWithKey(page, ReportId, u[i].id))
      && (forall i, j :: 0 <= i < j < |u| ==>
            FirstIndex(page, ReportId, u[i].id) < FirstIndex(page, ReportId, u[j].id))
  {
    PutAllFacts([], ReportId, page);
    PutAllFirstOccurrenceOrder(ReportId, page);
    UniquePageNoLonger(page);
  }

  lemma {:induction false} UniquePageNoLonger(page: seq<Report>)
    ensures |UniqueReports(page)| <= |page|
    decreases |page|
  {
    if page != [] {
      UniquePageNoLonger(page[..|page| - 1]);
    }
  }

  /** A page without repeated ids is kept as it is. */
  lemma {:induction false} DistinctPageKept(page: seq<Report>)
    requires DistinctKeys(page, ReportId)
    ensures UniqueReports(page) == page
    decreases |page|
  {
    if page != [] {
      var front, last := page[..|page| - 1], page[|page| - 1];
      assert DistinctKeys(front, ReportId) by {
        forall i, j | 0 <= i < j < |front| ensures front[i].id != front[j].id {
          assert front[i] == page[i] && front[j] == page[j];
        }
      }
      DistinctPageKept(front);
      assert last.id !in Keys(front, ReportId);
      assert front + [last] == page;
    }
  }

  /**
   * De-duplication is per page: an id present in two pages is shown twice once both are
   * appended (cards stay distinct because their React key also holds the position).
   */
  lemma DuplicatesAcrossPagesKept(a: seq<Report>, b: seq<Report>, k: JsValue)
    requires k in Keys(a, ReportId) && k in Keys(b, ReportId)
    ensures !DistinctKeys(UniqueReports(a) + UniqueReports(b), ReportId)
  {
    UniqueReportsFacts(a);
    UniqueReportsFacts(b);
    var ua, ub := UniqueReports(a), UniqueReports(b);
    var i :| 0 <= i < |ua| && ua[i].id == k;
    var j :| 0 <= j < |ub| && ub[j].id == k;
    var both := ua + ub;
    assert both[i] == ua[i] && both[|ua| + j] == ub[j];
  }

  /** What one request yields: a failure (including a body without `data`), or the page's reports. */
  datatype PageResponse = FetchFailed | Page(items: seq<Report>)

  const NoDateText: string := "No Date Available"

  /** `formatDateTime`: a falsy value has no date; otherwise the locale rendering (a parameter) of the parsed date. */
  function FormatDateTime(p: Parsers, render: Number -> string, iso: JsValue): (s: string)
    ensures !Truthy(iso) ==> s == NoDateText
    ensures Truthy(iso) ==> s == render(DateOf(p, iso))
  {
    if !Truthy(iso) then NoDateText else render(DateOf(p, iso))
  }

  /** The dashboard's state. */
  class DashboardState {
    var reports: seq<Report>
    var loading: bool
    var page: nat
    var hasMore: bool

    constructor()
      ensures reports == [] && loading && page == 1 && hasMore
    {
      reports := [];
      loading := true;
      page := 1;
      hasMore := true;
    }

    /**
     * `fetchReports`: a non-empty page is de-duplicated and appended; an empty page ends the
     * scrolling and leaves `loading` as it was; a failure ends the scrolling and the loading.
     */
    method FetchReports(response: PageResponse)
      modifies this
      ensures page == old(page)
      ensures response.Page? && response.items != [] ==>
        reports == old(reports) + UniqueReports(response.items) && !loading && hasMore == old(hasMore)
      ensures response.Page? && response.items == [] ==>
        reports == old(reports) && loading == old(loading) && !hasMore
      ensures response.FetchFailed? ==> reports == old(reports) && !loading && !hasMore
    {
      match response {
        case FetchFailed =>
          loading := false;
          hasMore := false;
        case Page(items) =>
          if |items| == 0 {
            hasMore := false;
            return;
          }
          var unique := UniqueReports(items);
          reports := reports + unique;
          loading := false;
      }
    }

    /** The scroll's `next`: ask for the following page. */
    method Next()
      modifies this
      ensures page == old(page) + 1
      ensures reports == old(reports) && loading == old(loading) && hasMore == old(hasMore)
    {
      page := page + 1;
    }
  }
}
