/**
 * The HTTP function of functions/ratings-aggregate/index.js: request
 * guards, then a paginated scan of the ratings collection for one item,
 * summing every rating that converts to a number, answered as `{avg, count}`.
 * The collection is a sequence of documents in the order the database lists
 * them; a failing database call is an input.
 */
module RatingsAggregate {
  import opened JsValues

  const PageSize: nat := 100

  /** A rating document: its `$id`, its `itemId`, and `Number(doc.value)` (`None` for NaN). */
  datatype Doc = Doc(id: string, itemId: string, value: Option<real>)

  datatype Request = Request(httpMethod: string, itemId: Option<Json>)

  /** The function's environment: `DB_ID` and `RATINGS_COLLECTION_ID`. */
  datatype Env = Env(dbId: Option<string>, ratingsCollection: Option<string>)

  /** `res.json(body, status)`. */
  datatype Response =
    | Failure(status: int, error: string)
    /** The 200 answer `{ avg, count }`. */
    | Success(avg: real, count: nat)

  /** The collection's guarantee: no two documents share an `$id`. */
  ghost predicate UniqueIds(docs: seq<Doc>) {
    forall i, j :: 0 <= i < j < |docs| ==> docs[i].id != docs[j].id
  }

  /** The documents `equal("itemId", [itemId])` selects, in listing order. */
  function Matching(coll: seq<Doc>, itemId: string): (m: seq<Doc>)
    ensures |m| <= |coll|
    ensures forall i :: 0 <= i < |m| ==> m[i].itemId == itemId
  {
    if coll == [] then []
    else if coll[0].itemId == itemId then [coll[0]] + Matching(coll[1..], itemId)
    else Matching(coll[1..], itemId)
  }

  /** The position of the document with this `$id`, or -1. */
  function IdIndex(docs: seq<Doc>, id: string): (r: int)
    ensures -1 <= r < |docs|
    ensures r >= 0 ==> docs[r].id == id
    ensures r == -1 ==> forall i :: 0 <= i < |docs| ==> docs[i].id != id
  {
    if docs == [] then -1
    else if docs[0].id == id then 0
    else
      var j := IdIndex(docs[1..], id);
      if j < 0 then -1 else j + 1
  }

  function Min(a: int, b: int): int {
    if a < b then a else b
  }

  /**
   * `listDocuments` with `limit(100)` and, given a cursor, `cursorAfter`:
   * up to 100 matching documents following the cursor document.
   */
  function ListPage(coll: seq<Doc>, itemId: string, cursor: Option<string>): (page: seq<Doc>)
    ensures |page| <= PageSize
  {
    var m := Matching(coll, itemId);
    var start := if cursor.None? then 0 else IdIndex(m, cursor.value) + 1;
    m[start..Min(start + PageSize, |m|)]
  }

  /** The sum of the ratings that are numbers, folded in listing order. */
  function SumOf(docs: seq<Doc>): real {
    if docs == [] then 0.0
    else SumOf(docs[..|docs| - 1]) + (if docs[|docs| - 1].value.Some? then docs[|docs| - 1].value.value else 0.0)
  }

  /** How many ratings are numbers. */
  function CountOf(docs: seq<Doc>): (n: nat)
    ensures n <= |docs|
  {
    if docs == [] then 0
    else CountOf(docs[..|docs| - 1]) + (if docs[|docs| - 1].value.Some? then 1 else 0)
  }

  /** `count ? sum / count : 0`. */
  function Average(sum: real, count: nat): (avg: real)
    ensures count == 0 ==> avg == 0.0
    ensures count > 0 ==> avg * (count as real) == sum
  {
    if count == 0 then 0.0 else sum / (count as real)
  }

  /** How many pages the scan requests: full pages, then one short (possibly empty) page. */
  function PagesRead(n: nat): nat {
    n / 100 + 1
  }

  /**
   * The answer over the whole collection at once. `failingCall` is the
   * zero-based number of the `listDocuments` call that throws, if any.
   */
  function Expected(req: Request, env: Env, coll: seq<Doc>, failingCall: Option<nat>): (r: Response)
    ensures req.httpMethod != "GET" ==> r == Failure(405, "Method not allowed")
    ensures req.httpMethod == "GET" && !(req.itemId.Some? && req.itemId.value.JStr? && req.itemId.value.s != "") ==>
              r == Failure(400, "Missing itemId")
    ensures req.httpMethod == "GET" && req.itemId.Some? && req.itemId.value.JStr? && req.itemId.value.s != "" &&
            (env.dbId.None? || env.dbId.value == "" || env.ratingsCollection.None? || env.ratingsCollection.value == "") ==>
              r == Failure(500, "Missing env: DB_ID or RATINGS_COLLECTION_ID")
    ensures r.Success? ==> r.count <= |coll|
  {
    if req.httpMethod != "GET" then Failure(405, "Method not allowed")
    else if !(req.itemId.Some? && req.itemId.value.JStr? && req.itemId.value.s != "") then Failure(400, "Missing itemId")
    else if env.dbId.None? || env.dbId.value == "" || env.ratingsCollection.None? || env.ratingsCollection.value == "" then
      Failure(500, "Missing env: DB_ID or RATINGS_COLLECTION_ID")
    else Scanned(coll, req.itemId.value.s, failingCall)
  }

  /** The outcome of the page loop and the reply after it, computed over the item's whole document list. */
  function Scanned(coll: seq<Doc>, itemId: string, failingCall: Option<nat>): (r: Response)
    ensures r.Success? ==> r.count <= |coll|
    ensures r.Failure? ==> r == Failure(500, "Internal error")
    ensures failingCall.None? ==> r.Success? && r.count == CountOf(Matching(coll, itemId))
  {
    var m := Matching(coll, itemId);
    if failingCall.Some? && failingCall.value < PagesRead(|m|) then Failure(500, "Internal error")
    else Success(Average(SumOf(m), CountOf(m)), CountOf(m))
  }

  // ---------------------------------------------------------------------------
  // Lemmas
  // ---------------------------------------------------------------------------

  lemma {:induction false} SumCountConcat(a: seq<Doc>, b: seq<Doc>)
    ensures SumOf(a + b) == SumOf(a) + SumOf(b)
    ensures CountOf(a + b) == CountOf(a) + CountOf(b)
    decreases |b|
  {
    if b == [] {
      assert a + b == a;
    } else {
      assert (a + b)[..|a + b| - 1] == a + b[..|b| - 1];
      SumCountConcat(a, b[..|b| - 1]);
    }
  }

  lemma {:induction false} MatchingFromColl(coll: seq<Doc>, itemId: string)
    ensures forall d :: d in Matching(coll, itemId) ==> d in coll
  {
    if coll != [] {
      MatchingFromColl(coll[1..], itemId);
    }
  }

  /** Selecting one item's documents keeps their ids distinct. */
  lemma {:induction false} MatchingUnique(coll: seq<Doc>, itemId: string)
    requires UniqueIds(coll)
    ensures UniqueIds(Matching(coll, itemId))
  {
    if coll != [] {
      var rest := Matching(coll[1..], itemId);
      MatchingUnique(coll[1..], itemId);
      MatchingFromColl(coll[1..], itemId);
      if coll[0].itemId == itemId {
        var m := [coll[0]] + rest;
        forall i, j | 0 <= i < j < |m|
          ensures m[i].id != m[j].id
        {
          if i == 0 {
            assert m[j] == rest[j - 1] && rest[j - 1] in coll[1..];
          } else {
            assert m[i] == rest[i - 1] && m[j] == rest[j - 1];
          }
        }
      }
    }
  }

  /** With unique ids the cursor document is found where it was read. */
  lemma {:induction false} IdIndexOfUnique(docs: seq<Doc>, k: nat)
    requires UniqueIds(docs) && k < |docs|
    ensures IdIndex(docs, docs[k].id) == k
  {
    if k > 0 {
      assert UniqueIds(docs[1..]);
      assert docs[1..][k - 1] == docs[k];
      IdIndexOfUnique(docs[1..], k - 1);
    }
  }

  /** The page after the cursor `docs[pos - 1].id` starts at `pos`. */
  lemma PageAt(coll: seq<Doc>, itemId: string, pos: nat)
    requires UniqueIds(coll) && pos <= |Matching(coll, itemId)|
    ensures var m := Matching(coll, itemId);
            ListPage(coll, itemId, CursorAt(m, pos)) == m[pos..Min(pos + PageSize, |m|)]
  {
    if pos > 0 {
      var m := Matching(coll, itemId);
      MatchingUnique(coll, itemId);
      IdIndexOfUnique(m, pos - 1);
    }
  }

  // ---------------------------------------------------------------------------
  // The handler
  // ---------------------------------------------------------------------------

  /** The cursor after reading the first `pos` matching documents. */
  function CursorAt(m: seq<Doc>, pos: nat): Option<string>
    requires pos <= |m|
  {
    if pos == 0 then None else Some(m[pos - 1].id)
  }

  /** One page, read against the item's whole document list `m`: where it ends and what its last document is. */
  lemma ScanStep(m: seq<Doc>, pos: nat, page: seq<Doc>)
    requires pos <= |m| && page == m[pos..Min(pos + PageSize, |m|)]
    ensures pos + |page| <= |m| && page == m[pos..pos + |page|]
    ensures |page| < PageSize ==> pos + |page| == |m|
    ensures |page| >= PageSize ==> |page| == PageSize && page[|page| - 1] == m[pos + |page| - 1]
  {
  }

  /** A call that throws before the short page has been read makes the answer a 500. */
  lemma ScanFails(coll: seq<Doc>, itemId: string, failingCall: Option<nat>, calls: nat)
    requires 100 * calls <= |Matching(coll, itemId)| && failingCall == Some(calls)
    ensures Scanned(coll, itemId, failingCall) == Failure(500, "Internal error")
  {
    assert calls < PagesRead(|Matching(coll, itemId)|);
  }

  /**
   * One page of the scan: with the cursor after the first `100 * calls`
   * matching documents, the page adds the next ones to those read so far. A
   * short page is the last one and completes the answer; a full one puts the
   * cursor after its last document.
   */
  lemma ScanIter(coll: seq<Doc>, itemId: string, failingCall: Option<nat>, calls: nat, done: seq<Doc>, page: seq<Doc>)
    requires UniqueIds(coll)
    requires 100 * calls <= |Matching(coll, itemId)| && done == Matching(coll, itemId)[..100 * calls]
    requires page == ListPage(coll, itemId, CursorAt(Matching(coll, itemId), 100 * calls))
    requires failingCall.Some? ==> failingCall.value > calls
    ensures SumOf(done + page) == SumOf(done) + SumOf(page) && CountOf(done + page) == CountOf(done) + CountOf(page)
    ensures |page| < PageSize ==>
              Scanned(coll, itemId, failingCall) == Success(Average(SumOf(done + page), CountOf(done + page)), CountOf(done + page))
    ensures |page| >= PageSize ==>
              var m := Matching(coll, itemId);
              100 * (calls + 1) <= |m| && done + page == m[..100 * (calls + 1)] &&
              |page| > 0 && Some(page[|page| - 1].id) == CursorAt(m, 100 * (calls + 1))
  {
    var m := Matching(coll, itemId);
    var pos := 100 * calls;
    PageAt(coll, itemId, pos);
    ScanStep(m, pos, page);
    assert m[..pos] + m[pos..pos + |page|] == m[..pos + |page|];
    SumCountConcat(done, page);
    if |page| < PageSize {
      assert done + page == m;
      assert PagesRead(|m|) == calls + 1;
    }
  }

  /** The `for (const doc of page.documents)` loop: the page's numeric ratings, summed and counted. */
  method SumPage(page: seq<Doc>) returns (sum: real, count: nat)
    ensures sum == SumOf(page) && count == CountOf(page)
  {
    sum, count := 0.0, 0;
    var j := 0;
    while j < |page|
      invariant 0 <= j <= |page|
      invariant sum == SumOf(page[..j]) && count == CountOf(page[..j])
    {
      assert page[..j + 1][..j] == page[..j];
      if page[j].value.Some? {
        sum := sum + page[j].value.value;
        count := count + 1;
      }
      j := j + 1;
    }
    assert page[..j] == page;
  }

  /**
   * The handler: the guards in order, then the page loop. Each page adds its
   * numeric ratings; a short page ends the scan, otherwise the last document's
   * `$id` becomes the cursor.
   */
  method Handle(req: Request, env: Env, coll: seq<Doc>, failingCall: Option<nat>) returns (resp: Response)
    requires UniqueIds(coll)
    ensures resp == Expected(req, env, coll, failingCall)
  {
    if req.httpMethod != "GET" {
      return Failure(405, "Method not allowed");
    }
    if !(req.itemId.Some? && req.itemId.value.JStr? && req.itemId.value.s != "") {
      return Failure(400, "Missing itemId");
    }
    var itemId := req.itemId.value.s;
    if env.dbId.None? || env.dbId.value == "" || env.ratingsCollection.None? || env.ratingsCollection.value == "" {
      return Failure(500, "Missing env: DB_ID or RATINGS_COLLECTION_ID");
    }
    resp := Scan(coll, itemId, failingCall);
  }

  /**
   * The `while (true)` loop: request a page after the cursor, add its
   * numeric ratings, stop after a short page, else move the cursor to the
   * page's last `$id`.
   */
  method Scan(coll: seq<Doc>, itemId: string, failingCall: Option<nat>) returns (resp: Response)
    requires UniqueIds(coll)
    ensures resp == Scanned(coll, itemId, failingCall)
  {
    ghost var m := Matching(coll, itemId);
    var sum := 0.0;
    var count := 0;
    var cursor: Option<string> := None;
    var calls := 0;
    ghost var done: seq<Doc> := [];
    while true
      invariant 100 * calls <= |m| && done == m[..100 * calls]
      invariant cursor == CursorAt(m, 100 * calls)
      invariant sum == SumOf(done) && count == CountOf(done)
      invariant failingCall.Some? ==> failingCall.value >= calls
      decreases |m| - 100 * calls
    {
      if failingCall.Some? && failingCall.value == calls {
        ScanFails(coll, itemId, failingCall, calls);
        return Failure(500, "Internal error");
      }
      var page := ListPage(coll, itemId, cursor);
      ScanIter(coll, itemId, failingCall, calls, done, page);
      var pageSum, pageCount := SumPage(page);
      sum := sum + pageSum;
      count := count + pageCount;
      done := done + page;
      if |page| < PageSize {
        return Success(Average(sum, count), count);
      }
      cursor := Some(page[|page| - 1].id);
      calls := calls + 1;
    }
  }

  // ---------------------------------------------------------------------------
  // Properties
  // ---------------------------------------------------------------------------

  /** A non-GET request is answered 405 whatever else is wrong with it. */
  lemma MethodCheckedFirst(coll: seq<Doc>, env: Env, itemId: Option<Json>, failingCall: Option<nat>)
    ensures Expected(Request("POST", itemId), env, coll, failingCall) == Failure(405, "Method not allowed")
  {
  }

  /** A non-string `itemId` (for example a repeated query key) is a 400. */
  lemma NonStringItemIdRejected(coll: seq<Doc>, env: Env, values: seq<Json>)
    ensures Expected(Request("GET", Some(JArr(values))), env, coll, None) == Failure(400, "Missing itemId")
  {
  }

  /** An item without numeric ratings averages 0 over a count of 0. */
  lemma NoRatingsAverageZero(coll: seq<Doc>, itemId: string, env: Env)
    requires itemId != "" && env.dbId == Some("db") && env.ratingsCollection == Some("ratings")
    requires forall i :: 0 <= i < |coll| ==> coll[i].itemId != itemId || coll[i].value.None?
    ensures Expected(Request("GET", Some(JStr(itemId))), env, coll, None) == Success(0.0, 0)
  {
    var m := Matching(coll, itemId);
    MatchingFromColl(coll, itemId);
    assert forall i :: 0 <= i < |m| ==> m[i] in coll;
    CountNone(m);
  }

  lemma {:induction false} CountNone(docs: seq<Doc>)
    requires forall i :: 0 <= i < |docs| ==> docs[i].value.None?
    ensures CountOf(docs) == 0
  {
    if docs != [] {
      CountNone(docs[..|docs| - 1]);
    }
  }

  /**
   * A full last page costs one more, empty, request: 100 matching ratings
   * take two `listDocuments` calls, so a failure of the second is a 500.
   */
  lemma FullPageNeedsOneMoreCall()
    ensures PagesRead(100) == 2 && PagesRead(99) == 1 && PagesRead(0) == 1
  {
  }

  /** A rating that is not a number is read but neither summed nor counted. */
  lemma NaNRatingSkipped(docs: seq<Doc>, d: Doc)
    requires d.value.None?
    ensures SumOf(docs + [d]) == SumOf(docs) && CountOf(docs + [d]) == CountOf(docs)
  {
    assert (docs + [d])[..|docs|] == docs;
  }
}
