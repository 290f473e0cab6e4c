/** All-or-nothing pagination against a server that may answer anything. The n-th
    answer is an arbitrary value; an absent token is the empty one. */
module Pagination {
  import opened Domain

  datatype Error = NilInput | Cancelled | PageLimitExceeded | CallFailed(message: string) | InvalidPage | DuplicateToken

  datatype Reply<+R> = Failed(message: string) | Nil | Page(rows: seq<R>, token: string)

  datatype Input = NoInput | Input(token: string)

  type Server<!R> = nat -> Reply<R>

  function TokenAfter<R>(server: Server<R>, k: nat): string {
    match server(k)
    case Page(_, token) => token
    case _ => ""
  }

  /** The tokens of the first n calls: the caller's, then each answer's. */
  function Sent<R>(server: Server<R>, first: string, n: nat): (r: seq<string>)
    ensures |r| == n
  {
    if n == 0 then []
    else Sent(server, first, n - 1) + [if n == 1 then first else TokenAfter(server, n - 2)]
  }

  function Rows<R>(server: Server<R>, n: nat): seq<R> {
    if n == 0 then []
    else Rows(server, n - 1) + (match server(n - 1) case Page(rows, _) => rows case _ => [])
  }

  predicate Answered<R>(server: Server<R>, cancelled: nat -> bool, k: nat) { !cancelled(k) && server(k).Page? }

  /** Calls 0 to n - 1 are answered by pages whose tokens lead on: none is empty and
      none was sent before. */
  predicate Leads<R>(server: Server<R>, cancelled: nat -> bool, first: string, n: nat) {
    n == 0
    || (&& Leads(server, cancelled, first, n - 1) && Answered(server, cancelled, n - 1)
        && TokenAfter(server, n - 1) != "" && TokenAfter(server, n - 1) !in Sent(server, first, n))
  }

  /** The n-th page is the first without a token, and all before it lead on. */
  predicate Complete<R>(server: Server<R>, cancelled: nat -> bool, first: string, n: nat) {
    && n > 0 && Leads(server, cancelled, first, n - 1)
    && Answered(server, cancelled, n - 1) && TokenAfter(server, n - 1) == ""
  }

  ghost predicate NoRepeats(sent: seq<string>) {
    forall j, k :: 0 <= j < k < |sent| && sent[k] != "" ==> sent[j] != sent[k]
  }

  /** While pages lead on, no token is sent twice. */
  lemma {:induction false} LeadingTokensAreFresh<R>(server: Server<R>, cancelled: nat -> bool, first: string, n: nat)
    requires Leads(server, cancelled, first, n)
    ensures NoRepeats(Sent(server, first, n + 1))
  {
    if n > 0 {
      LeadingTokensAreFresh(server, cancelled, first, n - 1);
    }
  }

  lemma {:induction false} LeadsBefore<R>(server: Server<R>, cancelled: nat -> bool, first: string, m: nat, n: nat)
    requires m <= n && Leads(server, cancelled, first, n)
    ensures Leads(server, cancelled, first, m)
    ensures m < n ==> Answered(server, cancelled, m) && TokenAfter(server, m) != ""
                      && TokenAfter(server, m) !in Sent(server, first, m + 1)
    decreases n - m
  {
    if m < n {
      LeadsBefore(server, cancelled, first, m + 1, n);
    }
  }

  /** Nothing is complete before call i while pages lead on, and nothing after it
      unless call i leads on too. */
  lemma CompleteFrom<R>(server: Server<R>, cancelled: nat -> bool, first: string, i: nat, n: nat)
    requires Leads(server, cancelled, first, i) && Complete(server, cancelled, first, n)
    ensures n > i && Answered(server, cancelled, i)
    ensures TokenAfter(server, i) != "" ==> n > i + 1 && Leads(server, cancelled, first, i + 1)
  {
    if n <= i {
      NotCompleteYet(server, cancelled, first, i, n);
    } else if n > i + 1 {
      LeadsBefore(server, cancelled, first, i + 1, n - 1);
    }
  }

  lemma NotCompleteYet<R>(server: Server<R>, cancelled: nat -> bool, first: string, i: nat, n: nat)
    requires Leads(server, cancelled, first, i) && 0 < n <= i
    ensures TokenAfter(server, n - 1) != ""
  {
    LeadsBefore(server, cancelled, first, n - 1, i);
  }

  ghost predicate Readable<R>(server: Server<R>, cancelled: nat -> bool, first: string, maxPages: int) {
    exists n: nat :: n <= maxPages && Complete(server, cancelled, first, n)
  }

  /** A read that has come to call i and cannot go on. */
  predicate Stuck<R>(server: Server<R>, cancelled: nat -> bool, first: string, maxPages: int, i: nat) {
    && Leads(server, cancelled, first, i)
    && (|| maxPages <= i || !Answered(server, cancelled, i)
        || (TokenAfter(server, i) != "" && TokenAfter(server, i) in Sent(server, first, i + 1)))
  }

  /** Why a read that stops after call i, or before it, cannot succeed. */
  lemma Unreadable<R>(server: Server<R>, cancelled: nat -> bool, first: string, maxPages: int, i: nat)
    requires Stuck(server, cancelled, first, maxPages, i)
    ensures !Readable(server, cancelled, first, maxPages)
  {
    forall n: nat ensures !(n <= maxPages && Complete(server, cancelled, first, n)) {
      if n <= maxPages && Complete(server, cancelled, first, n) {
        CompleteFrom(server, cancelled, first, i, n);
      }
    }
  }

  // -------------------------------------------- what a whole read looks like

  /** How many rows the first n answers hold. */
  function Offset<R>(server: Server<R>, n: nat): nat {
    if n == 0 then 0 else Offset(server, n - 1) + (if server(n - 1).Page? then |server(n - 1).rows| else 0)
  }

  /** Row i of page k stands behind all rows of the pages before. */
  predicate InPlace<R(==)>(server: Server<R>, rows: seq<R>, k: nat, i: nat) {
    && server(k).Page? && i < |server(k).rows| && Offset(server, k) + i < |rows|
    && rows[Offset(server, k) + i] == server(k).rows[i]
  }

  /** The first n answers' rows, page after page, and nothing else. */
  ghost predicate InOrder<R>(server: Server<R>, n: nat, rows: seq<R>) {
    && |rows| == Offset(server, n)
    && forall k: nat, i: nat :: k < n && server(k).Page? && i < |server(k).rows| ==> InPlace(server, rows, k, i)
  }

  lemma {:induction false} RowsInOrder<R>(server: Server<R>, n: nat)
    ensures InOrder(server, n, Rows(server, n))
  {
    if n > 0 {
      RowsInOrder(server, n - 1);
      forall k: nat, i: nat | k < n && server(k).Page? && i < |server(k).rows|
        ensures InPlace(server, Rows(server, n), k, i)
      {
        assert k < n - 1 ==> InPlace(server, Rows(server, n - 1), k, i);
      }
    }
  }

  /** The server answers calls 0 to n - 1 with pages; each but the last leads on with
      a token that is neither empty, nor the caller's, nor an earlier one. */
  ghost predicate Delivers<R>(server: Server<R>, cancelled: nat -> bool, first: string, n: nat) {
    && n > 0
    && (forall k: nat :: k < n ==> !cancelled(k) && server(k).Page?)
    && (forall k: nat :: k < n - 1 ==> server(k).token != "" && server(k).token != first)
    && (forall j: nat, k: nat :: j < k < n - 1 ==> server(j).token != server(k).token)
    && server(n - 1).token == ""
  }

  lemma {:induction false} SentTokens<R>(server: Server<R>, first: string, n: nat, t: string)
    ensures t in Sent(server, first, n) <==>
            n > 0 && (t == first || exists k: nat :: k < n - 1 && TokenAfter(server, k) == t)
  {
    if n > 1 {
      SentTokens(server, first, n - 1, t);
      var last := TokenAfter(server, n - 2);
      assert t in Sent(server, first, n) <==> t in Sent(server, first, n - 1) || t == last;
      if k: nat :| k < n - 2 && TokenAfter(server, k) == t {
        assert k < n - 1;
      }
      if t == last {
        assert n - 2 < n - 1 && TokenAfter(server, n - 2) == t;
      }
    }
  }

  /** The pages so far lead on: all are answered, and their tokens are new. */
  ghost predicate LedOn<R>(server: Server<R>, cancelled: nat -> bool, first: string, n: nat) {
    && (forall k: nat :: k < n ==> !cancelled(k) && server(k).Page?)
    && (forall k: nat :: k < n ==> TokenAfter(server, k) != "" && TokenAfter(server, k) != first)
    && (forall j: nat, k: nat :: j < k < n ==> TokenAfter(server, j) != TokenAfter(server, k))
  }

  lemma {:induction false} LeadsIff<R>(server: Server<R>, cancelled: nat -> bool, first: string, n: nat)
    ensures Leads(server, cancelled, first, n) <==> LedOn(server, cancelled, first, n)
  {
    if n > 0 {
      LeadsIff(server, cancelled, first, n - 1);
      SentTokens(server, first, n, TokenAfter(server, n - 1));
      OneMoreLeads(server, cancelled, first, n - 1);
    }
  }

  lemma OneMoreLeads<R>(server: Server<R>, cancelled: nat -> bool, first: string, n: nat)
    ensures LedOn(server, cancelled, first, n + 1) <==>
              && LedOn(server, cancelled, first, n) && Answered(server, cancelled, n)
              && TokenAfter(server, n) != "" && TokenAfter(server, n) != first
              && forall j: nat :: j < n ==> TokenAfter(server, j) != TokenAfter(server, n)
  {
  }

  lemma CompleteIff<R>(server: Server<R>, cancelled: nat -> bool, first: string, n: nat)
    ensures Complete(server, cancelled, first, n) <==> Delivers(server, cancelled, first, n)
  {
    if n > 0 {
      LeadsIff(server, cancelled, first, n - 1);
      forall k: nat | k < n && server(k).Page? ensures TokenAfter(server, k) == server(k).token {
      }
    }
  }

  /** The seen map: every non-empty token sent, or about to be. */
  ghost predicate Seen(seen: set<string>, sent: seq<string>) {
    forall t :: t in seen <==> t != "" && t in sent
  }

  /** The loop of `Read`. */
  method ReadPages<R>(maxPages: int, first: string, server: Server<R>, cancelled: nat -> bool)
    returns (r: Result<seq<R>, Error>, sent: seq<string>, ghost i: nat)
    ensures |sent| == 0 || |sent| <= maxPages
    ensures sent == Sent(server, first, |sent|)
    ensures Leads(server, cancelled, first, if |sent| == 0 then 0 else |sent| - 1)
    ensures r.Err? ==> Stuck(server, cancelled, first, maxPages, i)
    ensures r.Ok? ==> Complete(server, cancelled, first, |sent|) && r.value == Rows(server, |sent|) && sent != []
  {
    sent := [];
    var token := first;
    var seen: set<string> := if token != "" then {token} else {};
    var results: seq<R> := [];
    i := 0;
    while true
      invariant i == |sent| && (i == 0 || i <= maxPages)
      invariant sent == Sent(server, first, i) && sent + [token] == Sent(server, first, i + 1)
      invariant Seen(seen, sent + [token])
      invariant Leads(server, cancelled, first, i)
      invariant results == Rows(server, i)
      decreases maxPages - i
    {
      var page := |sent| + 1;
      if cancelled(page - 1) {
        r := Err(Cancelled);
        break;
      }
      if page > maxPages {
        r := Err(PageLimitExceeded);
        break;
      }
      sent := sent + [token];
      var output := server(page - 1);
      if !output.Page? {
        r := Err(if output.Failed? then CallFailed(output.message) else InvalidPage);
        break;
      }
      results := results + output.rows;
      if output.token == "" {
        assert Complete(server, cancelled, first, page);
        return Ok(results), sent, i;
      }
      if output.token in seen {
        r := Err(DuplicateToken);
        break;
      }
      seen := seen + {output.token};
      token := output.token;
      i := i + 1;
    }
  }

  /** `Read`: never more calls than the page budget, never the same token twice, and
      either every row up to the page without a token, in order, or none at all.
      `sent` lists the tokens of the calls made. */
  method Read<R>(maxPages: int, input: Input, server: Server<R>, cancelled: nat -> bool)
    returns (r: Result<seq<R>, Error>, sent: seq<string>)
    ensures (|sent| == 0 || |sent| <= maxPages) && NoRepeats(sent)
    ensures input.Input? ==> sent == Sent(server, input.token, |sent|)
    ensures r.Ok? <==> input.Input? && exists n: nat :: n <= maxPages && Delivers(server, cancelled, input.token, n)
    ensures r.Ok? ==> Delivers(server, cancelled, input.token, |sent|) && InOrder(server, |sent|, r.value)
  {
    if input.NoInput? {
      return Err(NilInput), [];
    }
    ghost var i;
    r, sent, i := ReadPages(maxPages, input.token, server, cancelled);
    if r.Err? {
      Unreadable(server, cancelled, input.token, maxPages, i);
    }
    if sent != [] {
      LeadingTokensAreFresh(server, cancelled, input.token, |sent| - 1);
    }
    forall n: nat ensures Complete(server, cancelled, input.token, n) <==> Delivers(server, cancelled, input.token, n) {
      CompleteIff(server, cancelled, input.token, n);
    }
    RowsInOrder(server, |sent|);
  }
}
