/** The Athena reader: a query is started, polled until it ends or its time is up,
    and its pages are read whole or not at all. The server and the clock may do
    anything; absent tokens and cells are empty strings. */
module Athena {
  import opened Arithmetic
  import opened Domain
  import opened Pagination
  import Text

  const COST_COLUMNS := ["window", "currency", "cost_basis", "amount"]
  const TAG_COLUMNS := ["window", "currency", "cost_basis", "amount", "tag_key", "tag_value"]

  // ---------------------------------------------------------------- one page

  /** A result column; its type in lower case. */
  datatype Column = Column(name: string, kind: string)

  datatype Answer =
    | CallFailed(message: string)
    | NoResultSet
    | ResultSet(hasMetadata: bool, columns: seq<Column>, rows: seq<seq<string>>, token: string)

  predicate Numeric(kind: string) {
    kind in ["decimal", "double", "float", "real", "bigint", "integer", "smallint", "tinyint"]
  }

  predicate ColumnFine(c: Column, name: string) {
    c.name == name && (if name == "amount" then Numeric(c.kind) else c.kind == "varchar")
  }

  predicate MetadataFine(a: Answer, expected: seq<string>)
    requires a.ResultSet?
  {
    && a.hasMetadata && |a.columns| == |expected|
    && forall i :: 0 <= i < |expected| ==> ColumnFine(a.columns[i], expected[i])
  }

  predicate RowFine(row: seq<string>, expected: seq<string>) { |row| == |expected| && row != expected }

  /** The data rows of a page: all of it, without the header on the first one. */
  function Body(a: Answer, k: nat): seq<seq<string>>
    requires a.ResultSet?
  {
    if k > 0 then a.rows else if a.rows == [] then [] else a.rows[1..]
  }

  predicate PageFine(a: Answer, k: nat, expected: seq<string>) {
    && a.ResultSet? && MetadataFine(a, expected)
    && (k == 0 ==> a.rows != [] && a.rows[0] == expected)
    && forall row :: row in Body(a, k) ==> RowFine(row, expected)
  }

  /** The server as a paginated source: malformed pages count as failures. */
  function Pages(server: nat -> Answer, expected: seq<string>): Server<seq<string>> {
    (k: nat) =>
      if PageFine(server(k), k, expected) then Page(Body(server(k), k), server(k).token) else Failed("malformed page")
  }

  function Never(): nat -> bool { (k: nat) => false }

  /** What `results` must return: the rows of all pages up to the one without a
      token, if there are not too many of either. */
  ghost predicate Listed(server: nat -> Answer, expected: seq<string>, maxPages: int, maxRows: int, n: nat) {
    && n <= maxPages && Complete(Pages(server, expected), Never(), "", n)
    && |Rows(Pages(server, expected), n)| <= maxRows
  }

  /** `equalColumns`. */
  method EqualColumns(left: seq<string>, right: seq<string>) returns (equal: bool)
    ensures equal <==> left == right
  {
    if |left| != |right| {
      return false;
    }
    for i := 0 to |left|
      invariant left[..i] == right[..i]
    {
      if left[i] != right[i] {
        return false;
      }
    }
    assert left == left[..|left|] && right == right[..|left|];
    equal := true;
  }

  /** `validateResultMetadata`. */
  method ValidateMetadata(a: Answer, expected: seq<string>) returns (ok: bool)
    requires a.ResultSet?
    ensures ok <==> MetadataFine(a, expected)
  {
    if !a.hasMetadata || |a.columns| != |expected| {
      return false;
    }
    for i := 0 to |expected|
      invariant forall k :: 0 <= k < i ==> ColumnFine(a.columns[k], expected[k])
    {
      if !ColumnFine(a.columns[i], expected[i]) {
        return false;
      }
    }
    ok := true;
  }

  /** The loop over a page's data rows. It stops at the first malformed row, at a
      second header, or when there are too many rows. */
  method AppendRows(rows: seq<seq<string>>, body: seq<seq<string>>, expected: seq<string>, maxRows: int)
    returns (ok: bool, all: seq<seq<string>>)
    requires |rows| <= maxRows
    ensures ok <==> (forall row :: row in body ==> RowFine(row, expected)) && |rows| + |body| <= maxRows
    ensures ok ==> all == rows + body
  {
    all := rows;
    for i := 0 to |body|
      invariant all == rows + body[..i] && |all| <= maxRows
      invariant forall row :: row in body[..i] ==> RowFine(row, expected)
    {
      assert body[i] in body && body[..i + 1] == body[..i] + [body[i]];
      if |body[i]| != |expected| {
        return false, all;
      }
      var header := EqualColumns(body[i], expected);
      if header {
        return false, all;
      }
      all := all + [body[i]];
      if |all| > maxRows {
        return false, all;
      }
    }
    assert body[..|body|] == body;
    ok := true;
  }

  /** Everything `results` does with one answer. */
  method AcceptPage(a: Answer, page: nat, rows: seq<seq<string>>, expected: seq<string>, maxRows: int)
    returns (ok: bool, all: seq<seq<string>>)
    requires |rows| <= maxRows
    ensures ok <==> PageFine(a, page, expected) && |rows| + |Body(a, page)| <= maxRows
    ensures ok ==> all == rows + Body(a, page)
  {
    all := rows;
    if !a.ResultSet? {
      return false, all;
    }
    var fine := ValidateMetadata(a, expected);
    if !fine {
      return false, all;
    }
    var body := a.rows;
    if page == 0 {
      if |body| == 0 {
        return false, all;
      }
      var header := EqualColumns(body[0], expected);
      if |body[0]| != |expected| || !header {
        return false, all;
      }
      body := body[1..];
    }
    ok, all := AppendRows(rows, body, expected, maxRows);
  }

  lemma {:induction false} RowsGrow(server: Server<seq<string>>, m: nat, n: nat)
    requires m <= n
    ensures |Rows(server, m)| <= |Rows(server, n)|
    decreases n - m
  {
    if m < n {
      RowsGrow(server, m + 1, n);
    }
  }

  lemma PageFacts(server: nat -> Answer, expected: seq<string>, k: nat)
    ensures var pages := Pages(server, expected);
            && (Answered(pages, Never(), k) <==> PageFine(server(k), k, expected))
            && (PageFine(server(k), k, expected) ==> TokenAfter(pages, k) == server(k).token)
  {
  }

  ghost predicate NoListing(server: nat -> Answer, expected: seq<string>, maxPages: int, maxRows: int) {
    forall n: nat :: !Listed(server, expected, maxPages, maxRows, n)
  }

  /** Why `results` fails once page i is not accepted, repeats a token or is beyond
      the budget. */
  lemma NotListed(server: nat -> Answer, expected: seq<string>, maxPages: int, maxRows: int, i: nat)
    requires Leads(Pages(server, expected), Never(), "", i)
    requires || maxPages <= i || !PageFine(server(i), i, expected) || |Rows(Pages(server, expected), i + 1)| > maxRows
             || (server(i).token != "" && server(i).token in Sent(Pages(server, expected), "", i + 1))
    ensures NoListing(server, expected, maxPages, maxRows)
  {
    PageFacts(server, expected, i);
    forall n: nat ensures !Listed(server, expected, maxPages, maxRows, n) {
      if Listed(server, expected, maxPages, maxRows, n) {
        CompleteFrom(Pages(server, expected), Never(), "", i, n);
        RowsGrow(Pages(server, expected), i + 1, n);
        BeyondFirstDefect(server, expected, i);
      }
    }
  }

  lemma BeyondFirstDefect(server: nat -> Answer, expected: seq<string>, i: nat)
    ensures Leads(Pages(server, expected), Never(), "", i + 1) ==>
              PageFine(server(i), i, expected) && server(i).token !in Sent(Pages(server, expected), "", i + 1)
  {
  }

  // ------------------------------------------- what a whole result looks like

  /** The data rows of page k: all but the header of the first page. */
  function DataRows(server: nat -> Answer, k: nat): nat {
    if !server(k).ResultSet? then 0
    else if k == 0 && server(k).rows != [] then |server(k).rows| - 1
    else |server(k).rows|
  }

  /** How many data rows come before page k. */
  function DataBefore(server: nat -> Answer, k: nat): nat {
    if k == 0 then 0 else DataBefore(server, k - 1) + DataRows(server, k - 1)
  }

  predicate Placed(server: nat -> Answer, rows: seq<seq<string>>, k: nat, i: nat) {
    && i < DataRows(server, k) && DataBefore(server, k) + i < |rows|
    && rows[DataBefore(server, k) + i] == server(k).rows[if k == 0 then i + 1 else i]
  }

  predicate Described(a: Answer, expected: seq<string>) {
    && a.ResultSet? && a.hasMetadata && |a.columns| == |expected|
    && forall i :: 0 <= i < |expected| ==>
         && a.columns[i].name == expected[i]
         && (if expected[i] == "amount" then Numeric(a.columns[i].kind) else a.columns[i].kind == "varchar")
  }

  /** n pages, each described as expected and each but the last leading to the next
      with a new token; the first begins with the one header; their data rows, in
      order, within both limits, each as wide as the header and different from it. */
  ghost predicate Delivered(
    server: nat -> Answer, expected: seq<string>, maxPages: int, maxRows: int, n: nat, rows: seq<seq<string>>)
  {
    && 0 < n <= maxPages && |rows| <= maxRows
    && (forall k: nat :: k < n ==> Described(server(k), expected))
    && server(0).rows != [] && server(0).rows[0] == expected
    && (forall k: nat :: k < n - 1 ==> server(k).token != "") && server(n - 1).token == ""
    && (forall j: nat, k: nat :: j < k < n - 1 ==> server(j).token != server(k).token)
    && |rows| == DataBefore(server, n)
    && (forall k: nat, i: nat :: k < n && i < DataRows(server, k) ==> Placed(server, rows, k, i))
    && (forall row :: row in rows ==> |row| == |expected| && row != expected)
  }

  lemma {:induction false} PagesHoldData(server: nat -> Answer, expected: seq<string>, n: nat)
    requires forall k: nat :: k < n ==> PageFine(server(k), k, expected)
    ensures |Rows(Pages(server, expected), n)| == DataBefore(server, n)
    ensures forall k: nat, i: nat :: k < n && i < DataRows(server, k) ==>
              Placed(server, Rows(Pages(server, expected), n), k, i)
    ensures forall row :: row in Rows(Pages(server, expected), n) ==> RowFine(row, expected)
  {
    if n > 0 {
      var pages := Pages(server, expected);
      PagesHoldData(server, expected, n - 1);
      assert PageFine(server(n - 1), n - 1, expected);
      assert Rows(pages, n) == Rows(pages, n - 1) + Body(server(n - 1), n - 1);
      forall k: nat, i: nat | k < n && i < DataRows(server, k) ensures Placed(server, Rows(pages, n), k, i) {
        assert k < n - 1 ==> Placed(server, Rows(pages, n - 1), k, i);
      }
    }
  }

  /** Leading on, in the reader's own pages. */
  lemma FinePagesDeliver(server: nat -> Answer, expected: seq<string>, n: nat)
    ensures Delivers(Pages(server, expected), Never(), "", n) <==>
              && n > 0
              && (forall k: nat :: k < n ==> PageFine(server(k), k, expected)) && server(n - 1).ResultSet?
              && (forall k: nat :: k < n - 1 ==> server(k).token != "") && server(n - 1).token == ""
              && (forall j: nat, k: nat :: j < k < n - 1 ==> server(j).token != server(k).token)
  {
    var pages := Pages(server, expected);
    forall k: nat
      ensures pages(k).Page? <==> PageFine(server(k), k, expected)
      ensures pages(k).Page? ==> pages(k).token == server(k).token
    {
    }
    if n > 0 && forall k: nat :: k < n ==> PageFine(server(k), k, expected) {
      assert forall k: nat :: k < n ==> pages(k).Page? && !Never()(k);
      assert (forall k: nat :: k < n - 1 ==> server(k).token != "")
        <==> forall k: nat :: k < n - 1 ==> pages(k).token != "";
    }
  }

  lemma ListedIsDelivered(server: nat -> Answer, expected: seq<string>, maxPages: int, maxRows: int, n: nat)
    requires Listed(server, expected, maxPages, maxRows, n)
    ensures Delivered(server, expected, maxPages, maxRows, n, Rows(Pages(server, expected), n))
  {
    CompleteIff(Pages(server, expected), Never(), "", n);
    FinePagesDeliver(server, expected, n);
    PagesHoldData(server, expected, n);
    assert PageFine(server(0), 0, expected);
    forall k: nat | k < n ensures Described(server(k), expected) {
      assert PageFine(server(k), k, expected);
    }
  }

  lemma DeliveredPageIsFine(
    server: nat -> Answer, expected: seq<string>, maxPages: int, maxRows: int, n: nat, rows: seq<seq<string>>, k: nat)
    requires Delivered(server, expected, maxPages, maxRows, n, rows) && k < n
    ensures PageFine(server(k), k, expected)
  {
    assert Described(server(k), expected);
    forall row | row in Body(server(k), k) ensures RowFine(row, expected) {
      var i :| 0 <= i < |Body(server(k), k)| && Body(server(k), k)[i] == row;
      assert Placed(server, rows, k, i);
      assert rows[DataBefore(server, k) + i] in rows;
    }
  }

  lemma DeliveredIsListed(
    server: nat -> Answer, expected: seq<string>, maxPages: int, maxRows: int, n: nat, rows: seq<seq<string>>)
    requires Delivered(server, expected, maxPages, maxRows, n, rows)
    ensures Listed(server, expected, maxPages, maxRows, n)
  {
    forall k: nat | k < n ensures PageFine(server(k), k, expected) {
      DeliveredPageIsFine(server, expected, maxPages, maxRows, n, rows, k);
    }
    FinePagesDeliver(server, expected, n);
    CompleteIff(Pages(server, expected), Never(), "", n);
    PagesHoldData(server, expected, n);
  }

  ghost predicate Deliverable(server: nat -> Answer, expected: seq<string>, maxPages: int, maxRows: int) {
    exists n: nat, rows :: Delivered(server, expected, maxPages, maxRows, n, rows)
  }

  ghost predicate Fetched(
    server: nat -> Answer, expected: seq<string>, maxPages: int, maxRows: int, rows: seq<seq<string>>)
  {
    exists n: nat :: Delivered(server, expected, maxPages, maxRows, n, rows)
  }

  /** `results`: all data rows of all pages in order, or nothing. */
  method Results(server: nat -> Answer, expected: seq<string>, maxPages: int, maxRows: int)
    returns (ok: bool, rows: seq<seq<string>>, sent: seq<string>)
    requires maxRows > 0
    ensures ok <==> Deliverable(server, expected, maxPages, maxRows)
    ensures ok ==> Delivered(server, expected, maxPages, maxRows, |sent|, rows)
    ensures ok ==> Fetched(server, expected, maxPages, maxRows, rows)
    ensures !ok ==> rows == []
    ensures |sent| == 0 || |sent| <= maxPages
  {
    ok, rows, sent := ListPages(server, expected, maxPages, maxRows);
    if ok {
      ListedIsDelivered(server, expected, maxPages, maxRows, |sent|);
    } else {
      forall n: nat, all ensures !Delivered(server, expected, maxPages, maxRows, n, all) {
        if Delivered(server, expected, maxPages, maxRows, n, all) {
          DeliveredIsListed(server, expected, maxPages, maxRows, n, all);
        }
      }
    }
  }

  /** The loop of `results`. */
  method ListPages(server: nat -> Answer, expected: seq<string>, maxPages: int, maxRows: int)
    returns (ok: bool, rows: seq<seq<string>>, sent: seq<string>)
    requires maxRows > 0
    ensures ok || NoListing(server, expected, maxPages, maxRows)
    ensures ok ==> Listed(server, expected, maxPages, maxRows, |sent|) && rows == Rows(Pages(server, expected), |sent|)
    ensures !ok ==> rows == []
    ensures |sent| == 0 || |sent| <= maxPages
  {
    ghost var pages := Pages(server, expected);
    rows, sent := [], [];
    var all: seq<seq<string>> := [];
    var token := "";
    var seen: set<string> := {};
    while |sent| < maxPages
      invariant |sent| == 0 || |sent| <= maxPages
      invariant rows == []
      invariant sent == Sent(pages, "", |sent|) && sent + [token] == Sent(pages, "", |sent| + 1)
      invariant Seen(seen, sent + [token])
      invariant Leads(pages, Never(), "", |sent|)
      invariant all == Rows(pages, |sent|) && |all| <= maxRows
    {
      var page := |sent|;
      sent := sent + [token];
      var output := server(page);
      ok, all := AcceptPage(output, page, all, expected, maxRows);
      if !ok {
        NotListed(server, expected, maxPages, maxRows, page);
        return;
      }
      if output.token == "" {
        assert Listed(server, expected, maxPages, maxRows, page + 1);
        return true, all, sent;
      }
      if output.token in seen {
        NotListed(server, expected, maxPages, maxRows, page);
        return false, rows, sent;
      }
      seen := seen + {output.token};
      token := output.token;
    }
    NotListed(server, expected, maxPages, maxRows, |sent|);
    ok := false;
  }

  // --------------------------------------------------------------- the query

  datatype Reader = Reader(maxPages: int, maxRows: int, queryTimeout: int, pollInterval: int)

  predicate ValidReader(r: Reader) {
    r.maxPages > 0 && r.maxRows > 0 && 0 < r.pollInterval < r.queryTimeout
  }

  datatype Start = StartFailed | NoId | Id(id: string)

  datatype Status = PollFailed | NoStatus | Succeeded | QueryFailed | QueryCancelled | Unknown | Pending

  predicate Terminal(s: Status) { s == Succeeded || s == QueryFailed || s == QueryCancelled }

  /** What server and clock do: the answers, when the query's context is done, how
      late each poll comes after its timer was set, and which way `select` goes
      when both of its cases are ready. */
  datatype World = World(
    start: Start, status: nat -> Status, pages: nat -> Answer,
    started: int, doneAt: int, first: nat, late: nat -> nat, quit: nat -> bool)

  /** The context is done no later than the query timeout after it was made. */
  predicate Timely(r: Reader, w: World) { w.doneAt <= w.started + r.queryTimeout }

  /** When the context is examined before poll k. */
  function CheckAt(r: Reader, w: World, k: nat): int {
    if k == 0 then w.started + w.first else CheckAt(r, w, k - 1) + r.pollInterval + w.late(k - 1)
  }

  lemma {:induction false} PollsAreSpaced(r: Reader, w: World, k: nat)
    requires ValidReader(r)
    ensures CheckAt(r, w, k) >= w.started + k * r.pollInterval
  {
    if k > 0 {
      PollsAreSpaced(r, w, k - 1);
      assert k * r.pollInterval == (k - 1) * r.pollInterval + r.pollInterval;
    }
  }

  function CeilDiv(a: int, b: int): int
    requires b > 0
  {
    (a + b - 1) / b
  }

  /** A poll before the context is done is one of the first so many. */
  lemma PollsAreFew(r: Reader, w: World, polls: nat)
    requires ValidReader(r) && Timely(r, w) && (polls > 0 ==> CheckAt(r, w, polls - 1) < w.doneAt)
    ensures polls <= CeilDiv(r.queryTimeout, r.pollInterval)
  {
    var q, p := r.queryTimeout, r.pollInterval;
    if polls > 0 {
      PollsAreSpaced(r, w, polls - 1);
      assert (polls - 1) * p < q;
      assert polls * p == (polls - 1) * p + p;
    }
    AtMostQuotient(q + p - 1, p, polls);
  }

  lemma AtMostQuotient(a: int, b: int, k: int)
    requires b > 0 && k * b <= a
    ensures k <= a / b
  {
    var q := a / b;
    assert (q + 1) * b == q * b + b > a;
    if k >= q + 1 {
      MulMonotone(b, q + 1, k);
    }
  }

  predicate Begun(w: World) { w.start.Id? && w.start.id != "" }

  /** `stopPendingQuery` is one call with the query's id. */
  datatype Lifecycle = Lifecycle(polls: nat, stops: seq<string>)

  /** The polls went out in time, and only a pending status led to the next. */
  ghost predicate Polled(r: Reader, w: World, polls: nat) {
    && (forall k :: 0 <= k < polls ==> CheckAt(r, w, k) < w.doneAt)
    && (forall k :: 0 <= k < polls - 1 ==> w.status(k) == Pending)
  }

  /** Why no further poll followed: the last status was not pending, or time was up. */
  ghost predicate Exhausted(r: Reader, w: World, polls: nat) {
    (polls > 0 && w.status(polls - 1) != Pending) || CheckAt(r, w, polls) >= w.doneAt
  }

  predicate LastPollInTime(r: Reader, w: World, polls: nat) { polls > 0 ==> CheckAt(r, w, polls - 1) < w.doneAt }

  ghost predicate AllPending(w: World, n: nat) { forall k :: 0 <= k < n ==> w.status(k) == Pending }

  lemma {:induction false} EarlierPollsInTime(r: Reader, w: World, polls: nat)
    requires ValidReader(r) && LastPollInTime(r, w, polls)
    ensures forall k :: 0 <= k < polls ==> CheckAt(r, w, k) < w.doneAt
  {
    if polls > 1 {
      EarlierPollsInTime(r, w, polls - 1);
    }
  }

  /** The polling loop: until a status that is not pending, or until time is up. */
  method Poll(r: Reader, w: World) returns (polls: nat, last: Status, ended: bool)
    requires ValidReader(r)
    ensures LastPollInTime(r, w, polls)
    ensures ended ==> polls > 0 && last == w.status(polls - 1) != Pending && AllPending(w, polls - 1)
    ensures !ended ==> AllPending(w, polls) && CheckAt(r, w, polls) >= w.doneAt
  {
    polls, last, ended := 0, Pending, false;
    var now := w.started + w.first;
    while true
      invariant now == CheckAt(r, w, polls) && LastPollInTime(r, w, polls)
      invariant !ended && AllPending(w, polls)
      decreases w.doneAt - now
    {
      if now >= w.doneAt {
        return;
      }
      last := w.status(polls);
      polls := polls + 1;
      if last != Pending {
        return polls, last, true;
      }
      now := now + r.pollInterval + w.late(polls - 1);
      if now >= w.doneAt && w.quit(polls - 1) {
        return;
      }
    }
  }

  /** The polls are few, in time and only as long as the query is pending; and it is
      stopped exactly once exactly if none of them saw it end. */
  ghost predicate Awaited(r: Reader, w: World, life: Lifecycle)
    requires ValidReader(r)
  {
    && life.polls <= CeilDiv(r.queryTimeout, r.pollInterval)
    && Polled(r, w, life.polls) && Exhausted(r, w, life.polls)
    && (w.start.Id? ==>
          life.stops == (if exists k :: 0 <= k < life.polls && Terminal(w.status(k)) then [] else [w.start.id]))
  }

  /** Polls a begun query and stops it unless it was seen to end. */
  method Await(r: Reader, w: World) returns (succeeded: bool, life: Lifecycle)
    requires ValidReader(r) && Timely(r, w) && Begun(w)
    ensures Awaited(r, w, life)
    ensures succeeded <==> life.polls > 0 && w.status(life.polls - 1) == Succeeded
  {
    var polls, last, ended := Poll(r, w);
    PollsAreFew(r, w, polls);
    EarlierPollsInTime(r, w, polls);
    succeeded := ended && last == Succeeded;
    if ended && (last == Succeeded || last == QueryFailed || last == QueryCancelled) {
      life := Lifecycle(polls, []);
    } else {
      life := Lifecycle(polls, [w.start.id]);
    }
  }

  /** What `query` must do with its time and what it must return. */
  ghost predicate QueryDone(
    r: Reader, w: World, query: string, expected: seq<string>, ok: bool, rows: seq<seq<string>>, life: Lifecycle)
    requires ValidReader(r)
  {
    if query == "" || !Begun(w) then !ok && rows == [] && life == Lifecycle(0, [])
    else
      && Awaited(r, w, life)
      && (ok <==> && life.polls > 0 && w.status(life.polls - 1) == Succeeded
                  && Deliverable(w.pages, expected, r.maxPages, r.maxRows))
      && (if ok then Fetched(w.pages, expected, r.maxPages, r.maxRows, rows) else rows == [])
  }

  /** `query`: starts, polls, then reads the results; stops the query exactly once
      exactly when it leaves it without having seen it end. */
  method Query(r: Reader, w: World, query: string, tags: bool)
    returns (ok: bool, rows: seq<seq<string>>, life: Lifecycle)
    requires ValidReader(r) && Timely(r, w)
    ensures QueryDone(r, w, query, if tags then TAG_COLUMNS else COST_COLUMNS, ok, rows, life)
  {
    ok, rows, life := Execute(r, w, query, if tags then TAG_COLUMNS else COST_COLUMNS);
  }

  method Execute(r: Reader, w: World, query: string, expected: seq<string>)
    returns (ok: bool, rows: seq<seq<string>>, life: Lifecycle)
    requires ValidReader(r) && Timely(r, w)
    ensures QueryDone(r, w, query, expected, ok, rows, life)
  {
    ok, rows, life := false, [], Lifecycle(0, []);
    if query == "" || !Begun(w) {
      return;
    }
    var succeeded;
    succeeded, life := Await(r, w);
    if succeeded {
      var sent;
      ok, rows, sent := Results(w.pages, expected, r.maxPages, r.maxRows);
    }
  }

  /** `NewReader`: the bounds every reader comes with. */
  function NewReader(maxPages: int, maxRows: int, queryTimeout: int, pollInterval: int): (r: Result<Reader, string>)
    ensures r.Ok? ==> ValidReader(r.value) && r.value == Reader(maxPages, maxRows, queryTimeout, pollInterval)
    ensures r.Ok? <==> ValidReader(Reader(maxPages, maxRows, queryTimeout, pollInterval))
  {
    if maxPages <= 0 || maxRows <= 0 then Err("athena bounds must be positive")
    else if queryTimeout <= 0 || pollInterval <= 0 || pollInterval >= queryTimeout then Err("athena query timing")
    else Ok(Reader(maxPages, maxRows, queryTimeout, pollInterval))
  }

  // ------------------------------------------------------------ decoded rows

  /** `strconv.ParseFloat`. */
  type Parser = string -> Result<real, string>

  /** A row that can be mapped: its width, a number, a currency, and known values. */
  predicate Mappable(parse: Parser, row: seq<string>, width: int) {
    && |row| == width && width >= 4
    && parse(row[3]).Ok? && Text.TrimSpace(row[1]) != "" && ValidBasis(row[2]) && KnownWindow(row[0])
  }

  function MapTagRow(target: string, parse: Parser, row: seq<string>): Result<TagCost, string> {
    if |row| != |TAG_COLUMNS| then Err("unexpected column count")
    else if parse(row[3]).Err? then Err(parse(row[3]).error)
    else
      var money := NewMoney(parse(row[3]).value, row[1]);
      if money.Err? then Err(money.error)
      else if !ValidBasis(row[2]) then Err("unsupported CUR cost basis")
      else if !KnownWindow(row[0]) then Err("unsupported CUR window")
      else Ok(TagCost(target, CUR_ATHENA, row[2], row[0], row[4], row[5], money.value))
  }

  /** Which column lands in which field. */
  predicate TagOfRow(target: string, parse: Parser, row: seq<string>, t: TagCost) {
    && |row| == 6 && t.target == target && t.provider == "cur_athena"
    && t.window == row[0] && t.amount.currency == Text.TrimSpace(row[1]) && t.basis == row[2]
    && parse(row[3]) == Ok(t.amount.amount) && t.tagKey == row[4] && t.tagValue == row[5]
  }

  lemma MapTagRowMeaning(target: string, parse: Parser, row: seq<string>)
    ensures MapTagRow(target, parse, row).Ok? <==> Mappable(parse, row, 6)
    ensures MapTagRow(target, parse, row).Ok? ==> TagOfRow(target, parse, row, MapTagRow(target, parse, row).value)
  {
  }

  /** `mapTagCosts`: all rows or none, each column in its field. */
  method MapTagCosts(target: string, parse: Parser, rows: seq<seq<string>>) returns (r: Result<seq<TagCost>, string>)
    ensures r.Ok? <==> forall row :: row in rows ==> Mappable(parse, row, 6)
    ensures r.Ok? ==> |r.value| == |rows|
    ensures r.Ok? ==> forall i :: 0 <= i < |rows| ==> TagOfRow(target, parse, rows[i], r.value[i])
    ensures r.Ok? ==> forall t :: t in r.value ==>
              && t.provider == CUR_ATHENA && ValidBasis(t.basis) && KnownWindow(t.window)
              && Proper(t.amount) && t.amount.currency != ""
  {
    var values: seq<TagCost> := [];
    for i := 0 to |rows|
      invariant |values| == i
      invariant forall k :: 0 <= k < i ==>
                  Mappable(parse, rows[k], 6) && TagOfRow(target, parse, rows[k], values[k])
    {
      assert rows[i] in rows;
      MapTagRowMeaning(target, parse, rows[i]);
      var value := MapTagRow(target, parse, rows[i]);
      if value.Err? {
        return Err(value.error);
      }
      values := values + [value.value];
    }
    forall k | 0 <= k < |rows| ensures Proper(values[k].amount) {
      Text.TrimTwice(rows[k][1]);
    }
    r := Ok(values);
  }

  function MapCostRow(target: string, parse: Parser, day: Period, month: Period, row: seq<string>): Result<Cost, string>
  {
    if |row| != |COST_COLUMNS| then Err("unexpected column count")
    else if parse(row[3]).Err? then Err(parse(row[3]).error)
    else
      var money := NewMoney(parse(row[3]).value, row[1]);
      if money.Err? then Err(money.error)
      else if !ValidBasis(row[2]) then Err("unsupported CUR cost basis")
      else if !KnownWindow(row[0]) then Err("unsupported CUR window")
      else Ok(Cost(target, CUR_ATHENA, row[2], row[0], if row[0] == MONTH_TO_DATE then month else day,
                   Dimension(TOTAL, ""), money.value))
  }

  predicate CostOfRow(target: string, parse: Parser, day: Period, month: Period, row: seq<string>, c: Cost) {
    && |row| == 4 && c.target == target && c.provider == "cur_athena" && c.dimension == Dimension("total", "")
    && c.window == row[0] && c.period == (if row[0] == "month_to_date" then month else day)
    && c.amount.currency == Text.TrimSpace(row[1]) && c.basis == row[2] && parse(row[3]) == Ok(c.amount.amount)
  }

  lemma MapCostRowMeaning(target: string, parse: Parser, day: Period, month: Period, row: seq<string>)
    ensures MapCostRow(target, parse, day, month, row).Ok? <==> Mappable(parse, row, 4)
    ensures MapCostRow(target, parse, day, month, row).Ok? ==>
              CostOfRow(target, parse, day, month, row, MapCostRow(target, parse, day, month, row).value)
  {
  }

  /** `mapCosts`: all rows or none, as totals of the day or the month. */
  method MapCosts(target: string, parse: Parser, day: Period, month: Period, rows: seq<seq<string>>)
    returns (r: Result<seq<Cost>, string>)
    ensures r.Ok? <==> forall row :: row in rows ==> Mappable(parse, row, 4)
    ensures r.Ok? ==> |r.value| == |rows|
    ensures r.Ok? ==> forall i :: 0 <= i < |rows| ==> CostOfRow(target, parse, day, month, rows[i], r.value[i])
  {
    var values: seq<Cost> := [];
    for i := 0 to |rows|
      invariant |values| == i
      invariant forall k :: 0 <= k < i ==>
                  Mappable(parse, rows[k], 4) && CostOfRow(target, parse, day, month, rows[k], values[k])
    {
      assert rows[i] in rows;
      MapCostRowMeaning(target, parse, day, month, rows[i]);
      var value := MapCostRow(target, parse, day, month, rows[i]);
      if value.Err? {
        return Err(value.error);
      }
      values := values + [value.value];
    }
    r := Ok(values);
  }
}
