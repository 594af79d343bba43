/**
 * Listing the issues of a saved filter: the server returns pages of ten, the
 * connector reads the reported total from the first page and fetches the
 * remaining pages one after the other, appending their issues.
 */
module Pagination {
  import opened Wrappers
  import opened Documents
  import opened Transport

  /** The fixed number of issues requested per page. */
  const PageSize: nat := 10

  /** The search request for the page that starts at item `startAt` of filter `filterId`. */
  function SearchRequest(filterId: string, startAt: nat): Request
  {
    Request(Get, "search", [],
            [("jql", Text("filter=" + filterId)),
             ("maxResults", Number(PageSize)),
             ("startAt", Number(startAt))],
            None)
  }

  /** The request of the k-th fetch (k = 0 is the first page). */
  function PageRequest(filterId: string, k: nat): Request
  {
    SearchRequest(filterId, k * PageSize)
  }

  /** Reads a response body as a search page; any other document cannot be read. */
  function AsSearchPage(doc: Doc): (r: Result<SearchPage>)
    ensures r.Ok? <==> doc.SearchResult?
    ensures r.Ok? ==> r.value == doc.page
    ensures r.Err? ==> r.error == Malformed
  {
    if doc.SearchResult? then Ok(doc.page) else Err(Malformed)
  }

  /** What the k-th fetch yields: the page, or the failure that aborts the listing. */
  function PageAt(server: Request -> Response, filterId: string, k: nat): Result<SearchPage>
  {
    match Classify(server(PageRequest(filterId, k)), OK)
    case Err(e) => Err(e)
    case Ok(doc) => AsSearchPage(doc)
  }

  /** The issues of the k-th page (none when that fetch fails). */
  function PageIssues(server: Request -> Response, filterId: string, k: nat): seq<Issue>
  {
    match PageAt(server, filterId, k)
    case Err(_) => []
    case Ok(p) => ConvertToIssues(p.issues)
  }

  /** Integer division as the source language does it: truncated toward zero. */
  function TruncDiv(a: int, b: int): (q: int)
    requires b > 0
    ensures a >= 0 ==> q * b <= a < q * b + b
    ensures a < 0 ==> q * b - b < a <= q * b
  {
    if a >= 0 then a / b else -((-a) / b)
  }

  /** The remainder that goes with TruncDiv: it has the sign of the dividend. */
  function TruncRem(a: int, b: int): (r: int)
    requires b > 0
    ensures a == TruncDiv(a, b) * b + r
    ensures a >= 0 ==> 0 <= r < b
    ensures a < 0 ==> -b < r <= 0
  {
    a - TruncDiv(a, b) * b
  }

  /** The least number of pages that hold `n` items. */
  function PagesFor(n: nat): (k: nat)
    ensures k * PageSize >= n
    ensures k > 0 ==> (k - 1) * PageSize < n
  {
    (n + PageSize - 1) / PageSize
  }

  /** The number of fetches when the first page reports `total`. */
  function PageCount(total: int): (c: nat)
    ensures c >= 1
    ensures total <= PageSize ==> c == 1
  {
    if total <= PageSize then 1 else 1 + PagesFor(total - PageSize)
  }

  /**
   * The page model: the issues gathered so far, in server order, and the total
   * the first page reported, which is fixed when the object is built.
   */
  class JiraIssues {
    var issues: seq<Issue>
    const totalAvailable: int

    constructor (responseContent: SearchPage)
      ensures issues == ConvertToIssues(responseContent.issues)
      ensures totalAvailable == responseContent.total
    {
      issues := ConvertToIssues(responseContent.issues);
      totalAvailable := responseContent.total;
    }

    /** Appends the issues of a further page after the ones already held. */
    method AddIssues(responseContent: SearchPage)
      modifies this`issues
      ensures issues == old(issues) + ConvertToIssues(responseContent.issues)
    {
      var allIssues := issues;
      allIssues := allIssues + ConvertToIssues(responseContent.issues);
      issues := allIssues;
    }
  }

  /**
   * The number of pages still to fetch after the first one: the ceiling of
   * (total - 10) / 10, computed with truncating division and a remainder test.
   * When the total fits in one page the result is not positive, so a loop
   * bounded by it fetches nothing more.
   */
  method CalculateAdditionalPages(issues: JiraIssues) returns (timesToRepeat: int)
    ensures issues.totalAvailable > PageSize ==>
              timesToRepeat == PagesFor(issues.totalAvailable - PageSize)
    ensures issues.totalAvailable <= PageSize ==> timesToRepeat <= 0
  {
    var remainingItems := issues.totalAvailable - PageSize;
    timesToRepeat := TruncDiv(remainingItems, PageSize);
    var remainder := TruncRem(remainingItems, PageSize);
    if remainder > 0 {
      timesToRepeat := timesToRepeat + 1;
    }
  }

  /**
   * The fetch loop from page i to page last, appending to acc; the first
   * failing fetch ends it with that failure.
   */
  function CollectPages(server: Request -> Response, filterId: string, i: nat, last: int,
                        acc: seq<Issue>): Result<seq<Issue>>
    decreases last + 1 - i
  {
    if i > last then Ok(acc)
    else match PageAt(server, filterId, i)
      case Err(e) => Err(e)
      case Ok(p) => CollectPages(server, filterId, i + 1, last, acc + ConvertToIssues(p.issues))
  }

  /** The requests the fetch loop from page i to page last sends. */
  function CollectSent(server: Request -> Response, filterId: string, i: nat, last: int): seq<Request>
    decreases last + 1 - i
  {
    if i > last then []
    else [PageRequest(filterId, i)] +
         if PageAt(server, filterId, i).Err? then [] else CollectSent(server, filterId, i + 1, last)
  }

  /** How a listing goes on from its first fetch: what it returns and what it sends. */
  lemma AfterFirstPage(server: Request -> Response, filterId: string)
    ensures PageAt(server, filterId, 0).Err? ==>
              Aggregate(server, filterId) == Err(PageAt(server, filterId, 0).error) &&
              Sent(server, filterId) == [PageRequest(filterId, 0)]
    ensures PageAt(server, filterId, 0).Ok? && PageAt(server, filterId, 0).value.total <= PageSize ==>
              Aggregate(server, filterId) == Ok(ConvertToIssues(PageAt(server, filterId, 0).value.issues)) &&
              Sent(server, filterId) == [PageRequest(filterId, 0)]
    ensures PageAt(server, filterId, 0).Ok? && PageAt(server, filterId, 0).value.total > PageSize ==>
              var first := PageAt(server, filterId, 0).value;
              Aggregate(server, filterId) ==
                CollectPages(server, filterId, 1, PagesFor(first.total - PageSize), ConvertToIssues(first.issues)) &&
              Sent(server, filterId) ==
                [PageRequest(filterId, 0)] + CollectSent(server, filterId, 1, PagesFor(first.total - PageSize))
  {
  }

  /** One turn of the fetch loop: a failing fetch ends it, a successful one appends its page and goes on. */
  lemma CollectStep(server: Request -> Response, filterId: string, i: nat, last: int, acc: seq<Issue>)
    requires i <= last
    ensures PageAt(server, filterId, i).Err? ==>
              CollectPages(server, filterId, i, last, acc) == Err(PageAt(server, filterId, i).error) &&
              CollectSent(server, filterId, i, last) == [PageRequest(filterId, i)]
    ensures PageAt(server, filterId, i).Ok? ==>
              CollectPages(server, filterId, i, last, acc) ==
                CollectPages(server, filterId, i + 1, last, acc + ConvertToIssues(PageAt(server, filterId, i).value.issues)) &&
              CollectSent(server, filterId, i, last) ==
                [PageRequest(filterId, i)] + CollectSent(server, filterId, i + 1, last)
  {
  }

  lemma AppendAssoc<T>(a: seq<T>, b: seq<T>, c: seq<T>)
    ensures a + (b + c) == (a + b) + c
  {
  }

  /** The outcome of listing the issues of filter `filterId`. */
  function Aggregate(server: Request -> Response, filterId: string): Result<seq<Issue>>
  {
    match PageAt(server, filterId, 0)
    case Err(e) => Err(e)
    case Ok(first) =>
      if first.total <= PageSize then Ok(ConvertToIssues(first.issues))
      else CollectPages(server, filterId, 1, PagesFor(first.total - PageSize), ConvertToIssues(first.issues))
  }

  /** The requests sent while listing the issues of filter `filterId`. */
  function Sent(server: Request -> Response, filterId: string): seq<Request>
  {
    [PageRequest(filterId, 0)] +
    match PageAt(server, filterId, 0)
    case Err(_) => []
    case Ok(first) =>
      if first.total <= PageSize then []
      else CollectSent(server, filterId, 1, PagesFor(first.total - PageSize))
  }

  /** The fetches of pages i to last, in order. */
  function PlanBetween(filterId: string, i: nat, last: int): (p: seq<Request>)
    decreases last + 1 - i
    ensures |p| == if i > last then 0 else last + 1 - i
    ensures forall j | 0 <= j < |p| :: p[j] == PageRequest(filterId, i + j)
  {
    if i > last then [] else [PageRequest(filterId, i)] + PlanBetween(filterId, i + 1, last)
  }

  /** The issues of pages i to last, page by page. */
  function PagesBetween(server: Request -> Response, filterId: string, i: nat, last: int): (ps: seq<seq<Issue>>)
    decreases last + 1 - i
    ensures |ps| == if i > last then 0 else last + 1 - i
    ensures forall j | 0 <= j < |ps| :: ps[j] == PageIssues(server, filterId, i + j)
  {
    if i > last then [] else [PageIssues(server, filterId, i)] + PagesBetween(server, filterId, i + 1, last)
  }

  /** The fetches of a complete listing whose first page reports `total`. */
  function Plan(filterId: string, total: int): (p: seq<Request>)
    ensures |p| == PageCount(total)
    ensures forall k | 0 <= k < |p| :: p[k] == PageRequest(filterId, k)
  {
    PlanBetween(filterId, 0, PageCount(total) - 1)
  }

  /** The concatenation of a sequence of pages, first page first. */
  function Flatten(ps: seq<seq<Issue>>): seq<Issue>
  {
    if ps == [] then [] else ps[0] + Flatten(ps[1..])
  }

  /** One page needs one fetch; more need the first page plus the ceiling of the rest. */
  lemma PageCountIsCeiling(n: nat)
    ensures PageCount(n) == if n == 0 then 1 else PagesFor(n)
    ensures n <= PageSize ==> PageCount(n) == 1
  {
  }

  /** The boundary cases, and the 23-issue listing: three fetches at items 0, 10 and 20. */
  lemma PageCountExamples(filterId: string)
    ensures PageCount(0) == 1 && PageCount(10) == 1 && PageCount(11) == 2
    ensures PageCount(20) == 2 && PageCount(23) == 3
    ensures Plan(filterId, 23) ==
              [SearchRequest(filterId, 0), SearchRequest(filterId, 10), SearchRequest(filterId, 20)]
  {
    var p := Plan(filterId, 23);
    assert |p| == 3;
    assert p[0] == PageRequest(filterId, 0) && p[1] == PageRequest(filterId, 1) && p[2] == PageRequest(filterId, 2);
  }

  /** The fetch loop only completes when every one of its fetches succeeds. */
  lemma {:induction false} CollectPagesOk(server: Request -> Response, filterId: string, i: nat, last: int,
                                          acc: seq<Issue>)
    requires CollectPages(server, filterId, i, last, acc).Ok?
    ensures forall k | i <= k <= last :: PageAt(server, filterId, k).Ok?
    decreases last + 1 - i
  {
    if i <= last {
      var p := PageAt(server, filterId, i).value;
      CollectPagesOk(server, filterId, i + 1, last, acc + ConvertToIssues(p.issues));
    }
  }

  /**
   * When every fetch of the loop succeeds, it appends the pages' issues in
   * fetch order and sends exactly one request per page.
   */
  lemma {:induction false} CollectPagesSucceeds(server: Request -> Response, filterId: string, i: nat,
                                                last: int, acc: seq<Issue>)
    requires forall k | i <= k <= last :: PageAt(server, filterId, k).Ok?
    ensures CollectPages(server, filterId, i, last, acc) ==
              Ok(acc + Flatten(PagesBetween(server, filterId, i, last)))
    ensures CollectSent(server, filterId, i, last) == PlanBetween(filterId, i, last)
    decreases last + 1 - i
  {
    if i <= last {
      var p := PageAt(server, filterId, i).value;
      var acc' := acc + ConvertToIssues(p.issues);
      CollectPagesSucceeds(server, filterId, i + 1, last, acc');
      var ps := PagesBetween(server, filterId, i, last);
      assert ps[0] == ConvertToIssues(p.issues);
      assert ps[1..] == PagesBetween(server, filterId, i + 1, last);
      assert acc' + Flatten(ps[1..]) == acc + Flatten(ps);
    } else {
      assert acc + Flatten([]) == acc;
    }
  }

  /**
   * When the fetch loop fails, the failure is that of its first failing fetch,
   * and no request is sent after that one.
   */
  lemma {:induction false} CollectPagesFails(server: Request -> Response, filterId: string, i: nat,
                                             last: int, acc: seq<Issue>, e: JiraError)
    requires CollectPages(server, filterId, i, last, acc) == Err(e)
    ensures exists k: nat :: i <= k <= last && PageAt(server, filterId, k) == Err(e) &&
              (forall j | i <= j < k :: PageAt(server, filterId, j).Ok?) &&
              CollectSent(server, filterId, i, last) == PlanBetween(filterId, i, k)
    decreases last + 1 - i
  {
    if PageAt(server, filterId, i).Err? {
      assert PlanBetween(filterId, i, i) == [PageRequest(filterId, i)];
    } else {
      var p := PageAt(server, filterId, i).value;
      CollectPagesFails(server, filterId, i + 1, last, acc + ConvertToIssues(p.issues), e);
      var k: nat :| i + 1 <= k <= last && PageAt(server, filterId, k) == Err(e) &&
                    (forall j | i + 1 <= j < k :: PageAt(server, filterId, j).Ok?) &&
                    CollectSent(server, filterId, i + 1, last) == PlanBetween(filterId, i + 1, k);
      assert PlanBetween(filterId, i, k) == [PageRequest(filterId, i)] + PlanBetween(filterId, i + 1, k);
    }
  }

  /**
   * A listing succeeds exactly when every planned fetch succeeds. It then
   * returns the pages' issues concatenated in fetch order, having sent exactly
   * the planned requests: one per page, at items 0, 10, 20, ...
   */
  lemma AggregateSucceeds(server: Request -> Response, filterId: string)
    ensures Aggregate(server, filterId).Ok? <==>
              PageAt(server, filterId, 0).Ok? &&
              forall k | 0 <= k < PageCount(PageAt(server, filterId, 0).value.total) ::
                PageAt(server, filterId, k).Ok?
    ensures Aggregate(server, filterId).Ok? ==>
              var total := PageAt(server, filterId, 0).value.total;
              Aggregate(server, filterId).value == Flatten(PagesBetween(server, filterId, 0, PageCount(total) - 1)) &&
              Sent(server, filterId) == Plan(filterId, total)
  {
    AfterFirstPage(server, filterId);
    if PageAt(server, filterId, 0).Ok? {
      var first := PageAt(server, filterId, 0).value;
      var c := PageCount(first.total);
      var ps := PagesBetween(server, filterId, 0, c - 1);
      var firstIssues := ConvertToIssues(first.issues);
      assert ps[0] == firstIssues;
      if first.total <= PageSize {
        assert ps == [firstIssues];
        assert Plan(filterId, first.total) == [PageRequest(filterId, 0)];
      } else {
        var last := PagesFor(first.total - PageSize);
        assert ps[1..] == PagesBetween(server, filterId, 1, last);
        assert Plan(filterId, first.total) == [PageRequest(filterId, 0)] + PlanBetween(filterId, 1, last);
        if Aggregate(server, filterId).Ok? {
          CollectPagesOk(server, filterId, 1, last, firstIssues);
        }
        if forall k | 0 <= k < c :: PageAt(server, filterId, k).Ok? {
          CollectPagesSucceeds(server, filterId, 1, last, firstIssues);
        }
      }
    }
  }

  /**
   * A failed listing returns no issues: its failure is that of the first
   * failing planned fetch, and no request is sent after that fetch.
   */
  lemma AggregateFails(server: Request -> Response, filterId: string, e: JiraError)
    requires Aggregate(server, filterId) == Err(e)
    ensures exists k: nat ::
              PageAt(server, filterId, k) == Err(e) &&
              (forall j | 0 <= j < k :: PageAt(server, filterId, j).Ok?) &&
              (k > 0 ==> PageAt(server, filterId, 0).Ok? &&
                         k < PageCount(PageAt(server, filterId, 0).value.total)) &&
              Sent(server, filterId) == PlanBetween(filterId, 0, k)
  {
    AfterFirstPage(server, filterId);
    if PageAt(server, filterId, 0).Err? {
      assert PlanBetween(filterId, 0, 0) == [PageRequest(filterId, 0)];
    } else {
      var first := PageAt(server, filterId, 0).value;
      var last := PagesFor(first.total - PageSize);
      CollectPagesFails(server, filterId, 1, last, ConvertToIssues(first.issues), e);
      var k: nat :| 1 <= k <= last && PageAt(server, filterId, k) == Err(e) &&
                    (forall j | 1 <= j < k :: PageAt(server, filterId, j).Ok?) &&
                    CollectSent(server, filterId, 1, last) == PlanBetween(filterId, 1, k);
      assert PlanBetween(filterId, 0, k) == [PageRequest(filterId, 0)] + PlanBetween(filterId, 1, k);
    }
  }

  /** Concatenating pages that are all full except possibly the last one. */
  lemma {:induction false} FlattenFullPages(ps: seq<seq<Issue>>)
    requires |ps| >= 1
    requires forall k | 0 <= k < |ps| - 1 :: |ps[k]| == PageSize
    requires |ps[|ps| - 1]| <= PageSize
    ensures |Flatten(ps)| == (|ps| - 1) * PageSize + |ps[|ps| - 1]|
    ensures forall g | 0 <= g < |Flatten(ps)| :: Flatten(ps)[g] == ps[g / PageSize][g % PageSize]
  {
    if |ps| == 1 {
      assert Flatten(ps) == ps[0];
    } else {
      var rest := ps[1..];
      FlattenFullPages(rest);
      assert Flatten(ps) == ps[0] + Flatten(rest);
      forall g | 0 <= g < |Flatten(ps)|
        ensures Flatten(ps)[g] == ps[g / PageSize][g % PageSize]
      {
        if g >= PageSize {
          assert (g - PageSize) / PageSize + 1 == g / PageSize;
          assert (g - PageSize) % PageSize == g % PageSize;
        }
      }
    }
  }

  /** With `total` items, every page but the last holds ten and the last holds the rest. */
  lemma PageFill(total: nat, k: nat)
    requires k < PageCount(total)
    ensures k < PageCount(total) - 1 ==> total - k * PageSize >= PageSize
    ensures k == PageCount(total) - 1 ==> 0 <= total - k * PageSize <= PageSize
  {
  }

  /** Pages filled as far as `total` allows concatenate to exactly `total` issues. */
  lemma FilledPages(ps: seq<seq<Issue>>, total: nat)
    requires |ps| == PageCount(total)
    requires forall k | 0 <= k < |ps| ::
               |ps[k]| == if total - k * PageSize < PageSize then total - k * PageSize else PageSize
    ensures |Flatten(ps)| == total
    ensures forall g | 0 <= g < total :: Flatten(ps)[g] == ps[g / PageSize][g % PageSize]
  {
    var c := |ps|;
    forall k | 0 <= k < c - 1
      ensures |ps[k]| == PageSize
    {
      PageFill(total, k);
    }
    PageFill(total, c - 1);
    FlattenFullPages(ps);
  }

  /**
   * When every page is as full as the reported total allows, a listing returns
   * exactly `total` issues, and issue g is issue g mod 10 of page g div 10.
   */
  lemma FullPagesListing(server: Request -> Response, filterId: string, v: seq<Issue>)
    requires Aggregate(server, filterId) == Ok(v)
    requires PageAt(server, filterId, 0).Ok? && PageAt(server, filterId, 0).value.total >= 0
    requires var total := PageAt(server, filterId, 0).value.total;
             forall k | 0 <= k < PageCount(total) ::
               |PageIssues(server, filterId, k)| ==
                 if total - k * PageSize < PageSize then total - k * PageSize else PageSize
    ensures |v| == PageAt(server, filterId, 0).value.total
    ensures forall g | 0 <= g < |v| :: v[g] == PageIssues(server, filterId, g / PageSize)[g % PageSize]
  {
    var total: nat := PageAt(server, filterId, 0).value.total;
    var c := PageCount(total);
    AggregateSucceeds(server, filterId);
    var ps := PagesBetween(server, filterId, 0, c - 1);
    assert v == Flatten(ps);
    FilledPages(ps, total);
  }
}
