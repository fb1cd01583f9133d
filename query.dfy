/**
 * One query against the target: deciding whether results are dropped,
 * building the HTTP request, rewriting SQL for drop-results, classifying the
 * response and deriving the latency breakdown (`run_query` in executors.py,
 * and its older copy in rsload.py).
 *
 * The HTTP exchange itself is an input: the response the server sends and the
 * measured round trip in whole milliseconds.
 */
module Query {
  import opened Common

  /** A JSON value (parameters, paginate, ...) that is copied verbatim, as its text. */
  type Json = string

  /** Which copy of `run_query`: executors.py (current) or rsload.py (legacy). */
  datatype Variant = Current | Legacy

  /**
   * The `target` section of the configuration. `overrides` is None both when
   * the key is missing and when it holds null: the code treats them alike.
   */
  datatype Target = Target(
    apiServer: string,
    apiKey: string,
    executionMode: Option<string>,
    overrides: Option<map<string, Json>>)

  /**
   * One query definition. `dropResults` is the truth value of the query's
   * `drop_results` entry, false when the entry is absent.
   */
  datatype QueryDef = QueryDef(
    name: Option<string>,
    lambda: Option<string>,
    sql: Option<string>,
    parameters: Option<Json>,
    paginate: Option<Json>,
    initialDocCount: Option<Json>,
    dropResults: bool)

  /** What the server answered; `resultCount` is the length of its `results` array. */
  datatype Response = Response(
    status: int,
    reason: string,
    text: string,
    elapsedMs: int,
    throttledMicros: int,
    resultCount: nat)

  /** One HTTP round trip: the response and its measured duration in milliseconds. */
  datatype Exchange = Exchange(response: Response, roundTripMs: int)

  datatype SqlBody = SqlBody(
    query: string,
    parameters: Option<Json>,
    paginate: Option<Json>,
    initialDocCount: Option<Json>)

  datatype Body = LambdaBody(parameters: Option<Json>) | SqlQueryBody(sql: SqlBody)

  /** A POST request: its URL, its Authorization and Content-Type headers and its JSON body. */
  datatype Request = Request(url: string, authorization: string, contentType: string, body: Body)

  /** Whether the query leads to a call at all. */
  datatype Prepared = NoCall | Call(request: Request)

  datatype RowCount = Rows(n: nat) | Dropped

  /** The classified outcome of one query: the `status` field and what goes with it. */
  datatype Outcome =
    | Success(roundTripMs: int, serverMs: int, queuedMicros: int, queryMs: int,
              networkMs: int, rowCount: RowCount)
    | Error(message: string)
    | Timeout
    | Exhausted
    | Invalid(message: string)

  datatype QueryResult = QueryResult(queryNum: int, name: string, outcome: Outcome)

  const QueriesPath := "/v1/orgs/self/queries"
  const DropHint := " HINT(final_aggregator_drop_results=true)"
  const JsonContentType := "application/json"
  const InvalidMessage := "Query definition has neither lambda or sql specified"

  /** The name a result gets when its query has none; the two copies spell it differently. */
  function DefaultName(v: Variant): (name: string)
    ensures name == "unnamed" <==> v.Current?
    ensures name == "(unnamed)" <==> v.Legacy?
  {
    match v
    case Current => "unnamed"
    case Legacy => "(unnamed)"
  }

  /**
   * The target-level override: set as soon as the key `drop_results` is
   * present among the overrides, whatever value it holds.
   */
  predicate DropOverride(t: Target): (b: bool)
    ensures t.overrides.None? ==> !b
    ensures b ==> "drop_results" in t.overrides.value.Keys
  {
    t.overrides.Some? && "drop_results" in t.overrides.value
  }

  /**
   * Only the presence of the key counts: any value under `drop_results` sets
   * the override, and a target without overrides, or whose overrides lack the
   * key, does not have it.
   */
  lemma DropOverrideKeyOnly(t: Target, m: map<string, Json>, value: Json)
    ensures DropOverride(t.(overrides := Some(m["drop_results" := value])))
    ensures !DropOverride(t.(overrides := None))
    ensures !DropOverride(t.(overrides := Some(m - {"drop_results"})))
  {
  }

  /** Drop-results is asked for by the query itself or by the target override. */
  predicate DropRequested(t: Target, q: QueryDef): (b: bool)
    ensures q.dropResults ==> b
    ensures DropOverride(t) ==> b
    ensures !q.dropResults && !DropOverride(t) ==> !b
  {
    q.dropResults || DropOverride(t)
  }

  /** A lambda path with a leading `/` added when it lacks one. */
  function NormalisePath(p: string): (r: string)
    requires p != []
    ensures r != [] && r[0] == '/'
    ensures |p| <= |r| <= |p| + 1 && r[|r| - |p|..] == p
    ensures r == p <==> p[0] == '/'
  {
    if p[0] != '/' then "/" + p else p
  }

  lemma NormalisePathIdempotent(p: string)
    requires p != []
    ensures NormalisePath(NormalisePath(p)) == NormalisePath(p)
  {
  }

  /** The text after the kept part of a query: whitespace, possibly after one `;`. */
  predicate IsTrailer(x: string) {
    (forall i :: 0 <= i < |x| ==> IsSpace(x[i])) ||
    (x != [] && x[0] == ';' && forall i :: 1 <= i < |x| ==> IsSpace(x[i]))
  }

  /**
   * What the drop-results rewrite keeps of a query: the text with trailing
   * whitespace stripped, then one trailing `;` removed. It is a prefix of the
   * query, what it leaves behind is a trailer, and it is the stripped text
   * less exactly one `;` when the stripped text ends in one.
   */
  function Kept(s: string): (kept: string)
    ensures |kept| <= |s| && kept == s[..|kept|] && IsTrailer(s[|kept|..])
    ensures RStrip(s) != [] && RStrip(s)[|RStrip(s)| - 1] == ';' ==> kept + ";" == RStrip(s)
    ensures RStrip(s) == [] || RStrip(s)[|RStrip(s)| - 1] != ';' ==> kept == RStrip(s)
  {
    var base := RStrip(s);
    if base != [] && base[|base| - 1] == ';' then
      var k := |base| - 1;
      KeptTrailer(s, k, true);
      assert base[..k] + ";" == base;
      base[..k]
    else
      KeptTrailer(s, |base|, false);
      base
  }

  /** The text past the stripped part, with or without the `;` before it, is a trailer. */
  lemma KeptTrailer(s: string, k: nat, semicolon: bool)
    requires |RStrip(s)| == k + (if semicolon then 1 else 0)
    requires semicolon ==> s[k] == ';'
    ensures IsTrailer(s[k..])
  {
    var x := s[k..];
    var n := |RStrip(s)|;
    if semicolon {
      forall i | 1 <= i < |x|
        ensures IsSpace(x[i])
      {
        assert x[i] == s[k + i] && n <= k + i;
      }
    } else {
      forall i | 0 <= i < |x|
        ensures IsSpace(x[i])
      {
        assert x[i] == s[k + i] && n <= k + i;
      }
    }
  }

  /**
   * The SQL rewrite under drop-results: strip trailing whitespace, then one
   * trailing `;`, then append the hint. Blank text raises, as indexing the
   * last character of an empty string does.
   */
  function DropResultsSql(s: string): (r: Result<string>)
    ensures r.Raised? <==> forall i :: 0 <= i < |s| ==> IsSpace(s[i])
    ensures r.Raised? ==> r.fault == BlankSqlUnderDropResults
    ensures r.Returned? ==> r.value == Kept(s) + DropHint
  {
    RStripEmptyIff(s);
    if RStrip(s) == [] then Raised(BlankSqlUnderDropResults) else Returned(Kept(s) + DropHint)
  }

  /**
   * A statement ended by `;` and any whitespace is sent as the statement
   * followed by the hint, whatever the statement is: `a ;` is sent as `a `
   * plus the hint, and `;` alone as the hint alone.
   */
  lemma DropResultsSqlOfTerminated(t: string, ws: string)
    requires forall i :: 0 <= i < |ws| ==> IsSpace(ws[i])
    ensures DropResultsSql(t + ";" + ws) == Returned(t + DropHint)
  {
    RStripAppended(t + ";", ws);
    assert (t + ";" + ws)[|t|] == ';';
    assert (t + ";")[..|t|] == t;
  }

  /**
   * Trailing whitespace does not change the rewrite: a statement that ends
   * neither in whitespace nor in `;`, followed by any whitespace, is sent as
   * the statement followed by the hint.
   */
  lemma DropResultsSqlOfStatement(t: string, ws: string)
    requires t != [] && !IsSpace(t[|t| - 1]) && t[|t| - 1] != ';'
    requires forall i :: 0 <= i < |ws| ==> IsSpace(ws[i])
    ensures DropResultsSql(t + ws) == Returned(t + DropHint)
  {
    RStripAppended(t, ws);
    assert (t + ws)[..|t|] == t;
  }

  /** Only one `;` is stripped: `t;;` is sent as `t;` followed by the hint. */
  lemma DropResultsSqlStripsOneSemicolon(t: string)
    ensures DropResultsSql(t + ";;") == Returned(t + ";" + DropHint)
  {
    DropResultsSqlOfTerminated(t + ";", []);
    assert t + ";" + ";" + [] == t + ";;";
  }

  /** The request `run_query` builds, or `NoCall` for a query with no body. */
  function Prepare(t: Target, q: QueryDef): (r: Result<Prepared>)
    ensures r == Returned(NoCall) <==> q.lambda.None? && q.sql.None?
    ensures r.Raised? <==>
      (q.lambda == Some([])) ||
      (q.lambda.None? && q.sql.Some? && DropRequested(t, q) &&
       forall i :: 0 <= i < |q.sql.value| ==> IsSpace(q.sql.value[i]))
    ensures q.lambda == Some([]) ==> r == Raised(EmptyLambdaPath)
    ensures r.Raised? && q.lambda != Some([]) ==> r == Raised(BlankSqlUnderDropResults)
    ensures r.Returned? && r.value.Call? ==>
      r.value.request.authorization == "ApiKey " + t.apiKey &&
      r.value.request.contentType == "application/json" &&
      "https://" + t.apiServer <= r.value.request.url
  {
    if q.lambda.Some? then
      var path := q.lambda.value;
      if path == [] then Raised(EmptyLambdaPath)
      else
        Returned(Call(Request("https://" + t.apiServer + NormalisePath(path),
                              "ApiKey " + t.apiKey, JsonContentType, LambdaBody(q.parameters))))
    else if q.sql.Some? then
      var text := if DropRequested(t, q) then DropResultsSql(q.sql.value) else Returned(q.sql.value);
      if text.Raised? then Raised(text.fault)
      else
        var body := SqlBody(text.value, q.parameters, q.paginate, q.initialDocCount);
        Returned(Call(Request("https://" + t.apiServer + QueriesPath,
                              "ApiKey " + t.apiKey, JsonContentType, SqlQueryBody(body))))
    else Returned(NoCall)
  }

  /**
   * A lambda body wins over SQL: the call goes to the server's address
   * followed by the path with its leading `/`, carries the query's parameters,
   * and is never rewritten for drop-results.
   */
  lemma LambdaRequest(t: Target, q: QueryDef)
    requires q.lambda.Some? && q.lambda.value != []
    ensures Prepare(t, q).Returned? && Prepare(t, q).value.Call?
    ensures var req := Prepare(t, q).value.request;
      req.url == "https://" + t.apiServer + NormalisePath(q.lambda.value) &&
      req.url[|"https://" + t.apiServer|] == '/' &&
      req.body == LambdaBody(q.parameters)
    ensures Prepare(t, q) == Prepare(t.(overrides := None), q.(dropResults := false))
  {
    var p := NormalisePath(q.lambda.value);
    assert ("https://" + t.apiServer + p)[|"https://" + t.apiServer|] == p[0];
  }

  /**
   * The SQL text sent: the rewrite when drop-results is asked for (by the
   * query or by the target), the query's own text otherwise; the optional
   * fields are copied unchanged.
   */
  lemma SqlRequest(t: Target, q: QueryDef)
    requires q.lambda.None? && q.sql.Some?
    requires !DropRequested(t, q) || DropResultsSql(q.sql.value).Returned?
    ensures Prepare(t, q).Returned? && Prepare(t, q).value.Call?
    ensures var req := Prepare(t, q).value.request;
      req.url == "https://" + t.apiServer + "/v1/orgs/self/queries" &&
      req.body.SqlQueryBody? &&
      req.body.sql.query ==
        (if DropRequested(t, q) then DropResultsSql(q.sql.value).value else q.sql.value) &&
      req.body.sql.parameters == q.parameters &&
      req.body.sql.paginate == q.paginate &&
      req.body.sql.initialDocCount == q.initialDocCount
  {
  }

  /**
   * The status table. 408 is a timeout, 429 resource exhaustion (only in the
   * current copy; the legacy one reports it as an error), any other status
   * but 200 an error carrying "reason. text", and 200 a success whose timings
   * come from the reported statistics.
   */
  function Classify(v: Variant, resp: Response, roundTripMs: int, dropped: bool): (o: Outcome)
    ensures !o.Invalid?
    ensures o.Timeout? <==> resp.status == 408
    ensures o.Exhausted? <==> v == Current && resp.status == 429
    ensures o.Success? <==> resp.status == 200
    ensures o.Error? ==> o.message == resp.reason + ". " + resp.text
    ensures o.Success? ==>
      o.roundTripMs == roundTripMs &&
      o.serverMs == resp.elapsedMs &&
      o.queuedMicros == resp.throttledMicros &&
      o.networkMs + o.serverMs == roundTripMs &&
      o.queryMs == RoundThousandths(1000 * resp.elapsedMs - resp.throttledMicros) &&
      (o.rowCount == Dropped <==> dropped) &&
      (!dropped ==> o.rowCount == Rows(resp.resultCount))
  {
    if resp.status == 408 then Timeout
    else if v == Current && resp.status == 429 then Exhausted
    else if resp.status != 200 then Error(resp.reason + ". " + resp.text)
    else
      var server := resp.elapsedMs;
      var queued := resp.throttledMicros;
      Success(roundTripMs, server, queued, RoundThousandths(1000 * server - queued),
              roundTripMs - server, if dropped then Dropped else Rows(resp.resultCount))
  }

  /** The two copies classify alike except for status 429. */
  lemma LegacyClassifyAgrees(resp: Response, roundTripMs: int, dropped: bool)
    ensures resp.status != 429 ==>
      Classify(Legacy, resp, roundTripMs, dropped) == Classify(Current, resp, roundTripMs, dropped)
    ensures resp.status == 429 ==>
      Classify(Legacy, resp, roundTripMs, dropped) == Error(resp.reason + ". " + resp.text)
  {
  }

  /** One query run: the numbered, named result, or the fault building its request raised. */
  function RunQuery(v: Variant, queryNum: int, t: Target, q: QueryDef, ex: Exchange): (r: Result<QueryResult>)
    ensures r.Raised? <==> Prepare(t, q).Raised?
    ensures r.Returned? ==>
      r.value.queryNum == queryNum &&
      r.value.name == (if q.name.Some? then q.name.value else DefaultName(v))
    ensures r.Returned? ==>
      (r.value.outcome.Invalid? <==> q.lambda.None? && q.sql.None?)
    ensures r.Returned? && !(q.lambda.None? && q.sql.None?) ==>
      r.value.outcome == Classify(v, ex.response, ex.roundTripMs, DropOverride(t))
  {
    var name := if q.name.Some? then q.name.value else DefaultName(v);
    var p := Prepare(t, q);
    if p.Raised? then Raised(p.fault)
    else if p.value.NoCall? then Returned(QueryResult(queryNum, name, Invalid(InvalidMessage)))
    else Returned(QueryResult(queryNum, name, Classify(v, ex.response, ex.roundTripMs, DropOverride(t))))
  }

  /** A query with neither body is invalid with the fixed message, and no request is built. */
  lemma InvalidWithoutBody(v: Variant, queryNum: int, t: Target, q: QueryDef, ex: Exchange)
    requires q.lambda.None? && q.sql.None?
    ensures RunQuery(v, queryNum, t, q, ex).Returned?
    ensures RunQuery(v, queryNum, t, q, ex).value.outcome ==
      Invalid("Query definition has neither lambda or sql specified")
  {
  }

  /**
   * A row count of "dropped" is reported exactly when the target override is
   * set: a per-query drop flag rewrites the SQL but still counts the rows, and
   * the override marks a lambda's rows as dropped although the lambda is not
   * rewritten.
   */
  lemma DroppedOnlyUnderOverride(v: Variant, queryNum: int, t: Target, q: QueryDef, ex: Exchange)
    requires RunQuery(v, queryNum, t, q, ex).Returned?
    requires RunQuery(v, queryNum, t, q, ex).value.outcome.Success?
    ensures RunQuery(v, queryNum, t, q, ex).value.outcome.rowCount == Dropped <==> DropOverride(t)
    ensures !DropOverride(t) ==>
      RunQuery(v, queryNum, t, q, ex).value.outcome.rowCount == Rows(ex.response.resultCount)
  {
  }

  /**
   * Query and queued milliseconds are rounded separately, so together they
   * can miss the server time by one millisecond, never by more.
   */
  lemma QueryPlusQueuedNearServer(o: Outcome)
    requires o.Success?
    requires 2 * Abs(1000 * o.queryMs - (1000 * o.serverMs - o.queuedMicros)) <= 1000
    ensures Abs(o.queryMs + RoundThousandths(o.queuedMicros) - o.serverMs) <= 1
  {
  }

  /** A 200 with 101 ms elapsed and 500 us throttled: 100 ms of query and 0 ms queued. */
  lemma QueryPlusQueuedMissesByOne()
    ensures var o := Classify(Current, Response(200, "OK", "", 101, 500, 1), 120, false);
      o.queryMs == 100 && RoundThousandths(o.queuedMicros) == 0 && o.serverMs == 101
  {
  }

  /** Round trip 120 ms, 100 ms elapsed, 5000 us throttled: 5 queued, 95 query, 20 network. */
  lemma TimingExample()
    ensures var o := Classify(Current, Response(200, "OK", "", 100, 5000, 10), 120, false);
      o == Success(120, 100, 5000, 95, 20, Rows(10)) && RoundThousandths(o.queuedMicros) == 5
  {
    RoundThousandthsExact(95);
    RoundThousandthsExact(5);
  }
}
