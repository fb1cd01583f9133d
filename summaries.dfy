/**
 * Reducing a query set's results to a summary: latency sums over successful
 * queries, one warning per result that deserves one, and whether the set ran
 * clean (`summarize_qs_results` in testModes.py and its older copy in
 * rsload.py).
 */
module Summaries {
  import opened Common
  import opened Query

  datatype Warning = Warning(queryNum: int, name: string, message: string)

  /** The summary of testModes.py. */
  datatype Summary = Summary(
    totalMs: int, queryMs: int, queuedMs: int, networkMs: int,
    warnings: seq<Warning>, clean: bool)

  /** The summary of rsload.py: the same sums and warnings, no `clean` flag. */
  datatype LegacySummary = LegacySummary(
    total: int, query: int, queued: int, network: int, warnings: seq<Warning>)

  /** The four latency sums a summary carries. */
  datatype Metric = Total | QueryTime | Queued | Network

  /** What one result adds to a sum: its timing if it succeeded, nothing otherwise. */
  function Contribution(r: QueryResult, m: Metric): int {
    match r.outcome
    case Success(roundTrip, _, queuedMicros, query, network, _) =>
      (match m
       case Total => roundTrip
       case QueryTime => query
       case Queued => RoundThousandths(queuedMicros)
       case Network => network)
    case _ => 0
  }

  function Sum(rs: seq<QueryResult>, m: Metric): int {
    if rs == [] then 0 else Sum(rs[..|rs| - 1], m) + Contribution(rs[|rs| - 1], m)
  }

  /** A summary sums over a set of results piece by piece. */
  lemma {:induction false} SumAppend(a: seq<QueryResult>, b: seq<QueryResult>, m: Metric)
    ensures Sum(a + b, m) == Sum(a, m) + Sum(b, m)
  {
    if b == [] {
      assert a + b == a;
    } else {
      assert (a + b)[..|a + b| - 1] == a + b[..|b| - 1];
      SumAppend(a, b[..|b| - 1], m);
    }
  }

  function Successes(rs: seq<QueryResult>): (s: seq<QueryResult>)
    ensures forall i :: 0 <= i < |s| ==> s[i].outcome.Success?
  {
    if rs == [] then []
    else
      var last := rs[|rs| - 1];
      Successes(rs[..|rs| - 1]) + (if last.outcome.Success? then [last] else [])
  }

  /** Sums are taken over the successful results only: the others add zero. */
  lemma {:induction false} SumOverSuccesses(rs: seq<QueryResult>, m: Metric)
    ensures Sum(rs, m) == Sum(Successes(rs), m)
  {
    if rs != [] {
      var init, last := rs[..|rs| - 1], rs[|rs| - 1];
      var tail := if last.outcome.Success? then [last] else [];
      assert Successes(rs) == Successes(init) + tail;
      assert Sum(rs, m) == Sum(init, m) + Contribution(last, m);
      SumOverSuccesses(init, m);
      SumAppend(Successes(init), tail, m);
      assert Sum(tail, m) == Contribution(last, m) by {
        assert [last][..0] == [];
      }
    }
  }

  /**
   * Which results deserve a warning. The current copy warns on an error, a
   * timeout, an exhausted query and a success with no rows; the legacy copy
   * only on an error and a success with no rows. An invalid result and a
   * "dropped" row count never do.
   */
  predicate NeedsWarning(v: Variant, r: QueryResult): (b: bool)
    ensures r.outcome.Invalid? ==> !b
    ensures r.outcome.Error? ==> b
    ensures r.outcome.Success? ==> (b <==> r.outcome.rowCount == Rows(0))
    ensures r.outcome.Timeout? || r.outcome.Exhausted? ==> (b <==> v.Current?)
  {
    match r.outcome
    case Success(_, _, _, _, _, rows) => rows == Rows(0)
    case Error(_) => true
    case Timeout => v == Current
    case Exhausted => v == Current
    case Invalid(_) => false
  }

  /** The legacy copy warns on a subset of what the current one warns on. */
  lemma LegacyWarnsOnSubset(r: QueryResult)
    ensures NeedsWarning(Legacy, r) ==> NeedsWarning(Current, r)
    ensures NeedsWarning(Current, r) && !NeedsWarning(Legacy, r) <==> r.outcome.Timeout? || r.outcome.Exhausted?
  {
  }

  function WarningFor(v: Variant, r: QueryResult): (w: seq<Warning>)
    ensures |w| <= 1
    ensures w != [] <==> NeedsWarning(v, r)
    ensures w != [] ==> w[0].queryNum == r.queryNum && w[0].name == r.name
    ensures w != [] && r.outcome.Error? ==> w[0].message == "Errored with message: " + r.outcome.message
    ensures w != [] && r.outcome.Timeout? ==> w[0].message == "Query timed out"
    ensures w != [] && r.outcome.Exhausted? ==> w[0].message == "Resources exhausted"
    ensures w != [] && r.outcome.Success? ==> w[0].message == "Returned no rows"
  {
    var message :=
      match r.outcome
      case Success(_, _, _, _, _, _) => "Returned no rows"
      case Error(m) => "Errored with message: " + m
      case Timeout => "Query timed out"
      case Exhausted => "Resources exhausted"
      case Invalid(_) => "";
    if NeedsWarning(v, r) then [Warning(r.queryNum, r.name, message)] else []
  }

  function Warnings(v: Variant, rs: seq<QueryResult>): seq<Warning> {
    if rs == [] then [] else Warnings(v, rs[..|rs| - 1]) + WarningFor(v, rs[|rs| - 1])
  }

  /** Warnings come in result order: those of a prefix, then those of the rest. */
  lemma {:induction false} WarningsAppend(v: Variant, a: seq<QueryResult>, b: seq<QueryResult>)
    ensures Warnings(v, a + b) == Warnings(v, a) + Warnings(v, b)
  {
    if b == [] {
      assert a + b == a;
    } else {
      var init := b[..|b| - 1];
      assert (a + b)[..|a + b| - 1] == a + init && (a + b)[|a + b| - 1] == b[|b| - 1];
      assert Warnings(v, a + b) == Warnings(v, a + init) + WarningFor(v, b[|b| - 1]);
      WarningsAppend(v, a, init);
    }
  }

  /**
   * Result i contributes its own warning, if any, between the warnings of the
   * results before it and those of the results after it.
   */
  lemma WarningOfResult(v: Variant, rs: seq<QueryResult>, i: nat)
    requires i < |rs|
    ensures Warnings(v, rs) == Warnings(v, rs[..i]) + WarningFor(v, rs[i]) + Warnings(v, rs[i + 1..])
  {
    assert rs == rs[..i] + [rs[i]] + rs[i + 1..];
    WarningsAppend(v, rs[..i] + [rs[i]], rs[i + 1..]);
    WarningsAppend(v, rs[..i], [rs[i]]);
    assert Warnings(v, [rs[i]]) == WarningFor(v, rs[i]) by {
      assert [rs[i]][..0] == [];
    }
  }

  /** There are no warnings exactly when no result deserves one. */
  lemma {:induction false} NoWarningsIff(v: Variant, rs: seq<QueryResult>)
    ensures Warnings(v, rs) == [] <==> forall i :: 0 <= i < |rs| ==> !NeedsWarning(v, rs[i])
  {
    if rs != [] {
      var init := rs[..|rs| - 1];
      NoWarningsIff(v, init);
      assert forall i :: 0 <= i < |init| ==> init[i] == rs[i];
    }
  }

  /** The legacy copy warns on the same results, except timeouts and exhausted queries. */
  lemma {:induction false} LegacyWarningsAgree(rs: seq<QueryResult>)
    requires forall i :: 0 <= i < |rs| ==> !rs[i].outcome.Timeout? && !rs[i].outcome.Exhausted?
    ensures Warnings(Legacy, rs) == Warnings(Current, rs)
  {
    if rs != [] {
      LegacyWarningsAgree(rs[..|rs| - 1]);
    }
  }

  /** The summary of a result list: its four sums, its warnings, clean when there are none. */
  function SummaryOf(rs: seq<QueryResult>): Summary {
    var w := Warnings(Current, rs);
    Summary(Sum(rs, Total), Sum(rs, QueryTime), Sum(rs, Queued), Sum(rs, Network), w, w == [])
  }

  /** An empty result list sums to zero, raises no warning and is clean. */
  lemma EmptySummary()
    ensures SummaryOf([]) == Summary(0, 0, 0, 0, [], true)
  {
  }

  /**
   * The summariser of testModes.py: one pass that adds up the timings of
   * successful results, appends warnings in result order and clears `clean`
   * whenever it appends one.
   */
  method Summarize(results: seq<QueryResult>) returns (s: Summary)
    ensures s.totalMs == Sum(results, Total) && s.queryMs == Sum(results, QueryTime)
    ensures s.queuedMs == Sum(results, Queued) && s.networkMs == Sum(results, Network)
    ensures s.warnings == Warnings(Current, results)
    ensures s.clean <==> (forall i :: 0 <= i < |results| ==> !NeedsWarning(Current, results[i]))
    ensures s == SummaryOf(results)
  {
    var total, query, queued, network := 0, 0, 0, 0;
    var warnings: seq<Warning> := [];
    var clean := true;
    var k := 0;
    while k < |results|
      invariant 0 <= k <= |results|
      invariant total == Sum(results[..k], Total) && query == Sum(results[..k], QueryTime)
      invariant queued == Sum(results[..k], Queued) && network == Sum(results[..k], Network)
      invariant warnings == Warnings(Current, results[..k])
      invariant clean <==> warnings == []
    {
      var result := results[k];
      assert results[..k + 1][..k] == results[..k];
      match result.outcome {
        case Success(roundTrip, _, queuedMicros, queryMs, networkMs, rows) =>
          total := total + roundTrip;
          query := query + queryMs;
          queued := queued + RoundThousandths(queuedMicros);
          network := network + networkMs;
          if rows == Rows(0) {
            clean := false;
            warnings := warnings + [Warning(result.queryNum, result.name, "Returned no rows")];
          }
        case Error(message) =>
          clean := false;
          warnings := warnings + [Warning(result.queryNum, result.name, "Errored with message: " + message)];
        case Timeout =>
          clean := false;
          warnings := warnings + [Warning(result.queryNum, result.name, "Query timed out")];
        case Exhausted =>
          clean := false;
          warnings := warnings + [Warning(result.queryNum, result.name, "Resources exhausted")];
        case Invalid(_) =>
      }
      k := k + 1;
    }
    assert results[..k] == results;
    NoWarningsIff(Current, results);
    s := Summary(total, query, queued, network, warnings, clean);
  }

  /** The summariser of rsload.py: the same sums, warnings only on errors and empty successes. */
  method SummarizeLegacy(results: seq<QueryResult>) returns (s: LegacySummary)
    ensures s.total == Sum(results, Total) && s.query == Sum(results, QueryTime)
    ensures s.queued == Sum(results, Queued) && s.network == Sum(results, Network)
    ensures s.warnings == Warnings(Legacy, results)
  {
    var total, query, queued, network := 0, 0, 0, 0;
    var warnings: seq<Warning> := [];
    var k := 0;
    while k < |results|
      invariant 0 <= k <= |results|
      invariant total == Sum(results[..k], Total) && query == Sum(results[..k], QueryTime)
      invariant queued == Sum(results[..k], Queued) && network == Sum(results[..k], Network)
      invariant warnings == Warnings(Legacy, results[..k])
    {
      var result := results[k];
      assert results[..k + 1][..k] == results[..k];
      match result.outcome {
        case Success(roundTrip, _, queuedMicros, queryMs, networkMs, rows) =>
          total := total + roundTrip;
          query := query + queryMs;
          queued := queued + RoundThousandths(queuedMicros);
          network := network + networkMs;
          if rows == Rows(0) {
            warnings := warnings + [Warning(result.queryNum, result.name, "Returned no rows")];
          }
        case Error(message) =>
          warnings := warnings + [Warning(result.queryNum, result.name, "Errored with message: " + message)];
        case _ =>
      }
      k := k + 1;
    }
    assert results[..k] == results;
    s := LegacySummary(total, query, queued, network, warnings);
  }

  /**
   * Three queries: 10 rows, a timeout, and no rows. Two warnings (the
   * timeout, then the empty result), not clean, and all four sums taken over
   * the first and third query only.
   */
  lemma ThreeQueryExample(a: Outcome, c: Outcome)
    requires a.Success? && a.rowCount == Rows(10)
    requires c.Success? && c.rowCount == Rows(0)
    ensures var s := SummaryOf([QueryResult(1, "q1", a), QueryResult(2, "q2", Timeout), QueryResult(3, "q3", c)]);
      s.warnings == [Warning(2, "q2", "Query timed out"), Warning(3, "q3", "Returned no rows")] &&
      !s.clean &&
      s.totalMs == a.roundTripMs + c.roundTripMs &&
      s.queryMs == a.queryMs + c.queryMs &&
      s.queuedMs == RoundThousandths(a.queuedMicros) + RoundThousandths(c.queuedMicros) &&
      s.networkMs == a.networkMs + c.networkMs
  {
    var rs := [QueryResult(1, "q1", a), QueryResult(2, "q2", Timeout), QueryResult(3, "q3", c)];
    assert rs[..2][..1] == rs[..1] && rs[..1][..0] == [];
    assert rs[..|rs| - 1] == rs[..2];
    assert Warnings(Current, rs[..1]) == [];
    assert Warnings(Current, rs[..2]) == [Warning(2, "q2", "Query timed out")];
    forall m: Metric
      ensures Sum(rs, m) == Contribution(rs[0], m) + Contribution(rs[2], m)
    {
      assert Sum(rs[..1], m) == Contribution(rs[0], m);
      assert Sum(rs[..2], m) == Sum(rs[..1], m) + Contribution(rs[1], m);
      assert Contribution(rs[1], m) == 0;
    }
    assert Sum(rs, Total) == a.roundTripMs + c.roundTripMs;
    assert Sum(rs, QueryTime) == a.queryMs + c.queryMs;
    assert Sum(rs, Queued) == RoundThousandths(a.queuedMicros) + RoundThousandths(c.queuedMicros);
    assert Sum(rs, Network) == a.networkMs + c.networkMs;
  }

}
