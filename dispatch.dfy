/**
 * Running a whole query set: the serial and parallel executors of
 * executors.py and the older `run_queryset` of rsload.py. Each query runs
 * at most once (the serial executor stops at the first query that raises);
 * results are put back at `query_num - 1`, so the output order is the
 * order of the query set whatever order the worker pool finishes in.
 *
 * The worker pool is modelled by its effect: every task runs to completion,
 * in an order given as an input, before results are gathered. An exception
 * raised inside a task is re-raised when its result is fetched.
 */
module Dispatch {
  import opened Common
  import opened Query

  /** `order` lists each of 0 .. n-1 exactly once. */
  predicate IsOrdering(order: seq<int>, n: nat) {
    |order| == n &&
    (forall j :: 0 <= j < n ==> 0 <= order[j] < n) &&
    (forall j, m :: 0 <= j < m < n ==> order[j] != order[m]) &&
    (forall i :: 0 <= i < n ==> i in order)
  }

  /** Positions listed in their own order form an ordering. */
  lemma InOrderIsOrdering(order: seq<int>)
    requires forall j :: 0 <= j < |order| ==> order[j] == j
    ensures IsOrdering(order, |order|)
  {
    forall i | 0 <= i < |order|
      ensures i in order
    {
      assert order[i] == i;
    }
  }

  /** The slot each result belongs in, `query_num - 1`, in arrival order. */
  function Slots(tasks: seq<QueryResult>): (s: seq<int>)
    ensures |s| == |tasks|
    ensures forall k :: 0 <= k < |tasks| ==> s[k] == tasks[k].queryNum - 1
  {
    seq(|tasks|, k requires 0 <= k < |tasks| => tasks[k].queryNum - 1)
  }

  /**
   * The reassembly loop: each result is written to the slot its own query
   * number names. When the arrivals carry each number 1 .. n once, in any
   * order, every slot is filled and slot i holds query number i + 1.
   */
  method Place(tasks: seq<QueryResult>) returns (placed: seq<QueryResult>)
    requires IsOrdering(Slots(tasks), |tasks|)
    ensures |placed| == |tasks|
    ensures forall i :: 0 <= i < |placed| ==> placed[i].queryNum == i + 1
    ensures forall k :: 0 <= k < |tasks| ==> placed[tasks[k].queryNum - 1] == tasks[k]
  {
    var n := |tasks|;
    ghost var slotOf := Slots(tasks);
    var queryResults := new Option<QueryResult>[n](_ => None);
    var k := 0;
    while k < n
      invariant 0 <= k <= n
      invariant forall m :: 0 <= m < k ==> queryResults[slotOf[m]] == Some(tasks[m])
      invariant forall i :: 0 <= i < n && queryResults[i].Some? ==> queryResults[i].value.queryNum == i + 1
    {
      var offset := tasks[k].queryNum;
      assert offset - 1 == slotOf[k];
      assert forall m :: 0 <= m < k ==> slotOf[m] != slotOf[k];
      queryResults[offset - 1] := Some(tasks[k]);
      k := k + 1;
    }
    var filled := queryResults[..];
    placed := [];
    var i := 0;
    while i < n
      invariant 0 <= i <= n && |placed| == i
      invariant forall j :: 0 <= j < i ==> filled[j] == Some(placed[j])
    {
      assert filled[i].Some? by {
        assert i in slotOf;
        var m :| 0 <= m < n && slotOf[m] == i;
      }
      placed := placed + [filled[i].value];
      i := i + 1;
    }
    forall m | 0 <= m < n
      ensures placed[tasks[m].queryNum - 1] == tasks[m]
    {
      assert filled[slotOf[m]] == Some(tasks[m]);
    }
  }

  /** The first fault among the outcomes, or every result when none raised. */
  function Collect(outs: seq<Result<QueryResult>>): Result<seq<QueryResult>>
  {
    if outs == [] then Returned([])
    else if outs[0].Raised? then Raised(outs[0].fault)
    else
      var rest := Collect(outs[1..]);
      if rest.Raised? then rest else Returned([outs[0].value] + rest.value)
  }

  /** Collecting yields all results, in order, exactly when no outcome raised. */
  lemma {:induction false} CollectReturned(outs: seq<Result<QueryResult>>)
    ensures Collect(outs).Returned? <==> forall i :: 0 <= i < |outs| ==> outs[i].Returned?
    ensures Collect(outs).Returned? ==>
      |Collect(outs).value| == |outs| &&
      forall i :: 0 <= i < |outs| ==> outs[i] == Returned(Collect(outs).value[i])
  {
    if outs != [] {
      CollectReturned(outs[1..]);
      assert forall i :: 1 <= i < |outs| ==> outs[i] == outs[1..][i - 1];
    }
  }

  /** A fault is the one raised by the first query that raised. */
  lemma {:induction false} CollectRaised(outs: seq<Result<QueryResult>>, k: nat)
    requires k < |outs| && outs[k].Raised?
    requires forall i :: 0 <= i < k ==> outs[i].Returned?
    ensures Collect(outs) == Raised(outs[k].fault)
  {
    if k > 0 {
      CollectRaised(outs[1..], k - 1);
    }
  }

  /** The outcome of every query of the set, numbered from 1, in set order. */
  function Outcomes(v: Variant, t: Target, qs: seq<QueryDef>, io: seq<Exchange>): (outs: seq<Result<QueryResult>>)
    requires |io| == |qs|
    ensures |outs| == |qs|
    ensures forall i {:trigger io[i]} :: 0 <= i < |qs| ==> outs[i] == RunQuery(v, i + 1, t, qs[i], io[i])
  {
    seq(|qs|, i requires 0 <= i < |qs| => RunQuery(v, i + 1, t, qs[i], io[i]))
  }

  /**
   * What running a query set yields, whichever executor runs it: an empty
   * set cannot start a pool; otherwise the first fault, or every result.
   */
  function Dispatched(v: Variant, t: Target, qs: seq<QueryDef>, io: seq<Exchange>): (r: Result<seq<QueryResult>>)
    requires |io| == |qs|
    ensures qs == [] ==> r == Raised(EmptyQuerySet)
    ensures r.Returned? ==> |r.value| == |qs| && forall i :: 0 <= i < |qs| ==> r.value[i].queryNum == i + 1
  {
    if qs == [] then Raised(EmptyQuerySet)
    else
      CollectReturned(Outcomes(v, t, qs, io));
      Collect(Outcomes(v, t, qs, io))
  }

  /**
   * A dispatched set has one result per query, and entry i is query i's own
   * result, numbered i + 1; a classified failure of one query never stops
   * the others.
   */
  lemma DispatchedIndexStable(v: Variant, t: Target, qs: seq<QueryDef>, io: seq<Exchange>)
    requires |io| == |qs|
    requires Dispatched(v, t, qs, io).Returned?
    ensures var rs := Dispatched(v, t, qs, io).value;
      |rs| == |qs| &&
      forall i :: 0 <= i < |qs| ==>
        rs[i].queryNum == i + 1 && RunQuery(v, i + 1, t, qs[i], io[i]) == Returned(rs[i])
  {
    CollectReturned(Outcomes(v, t, qs, io));
  }

  /**
   * Dispatch raises exactly when the set is empty or building some query's
   * request raises, and then the fault is that of the first such query.
   */
  lemma DispatchedRaises(v: Variant, t: Target, qs: seq<QueryDef>, io: seq<Exchange>)
    requires |io| == |qs|
    ensures Dispatched(v, t, qs, io).Raised? <==>
      qs == [] || exists i :: 0 <= i < |qs| && Prepare(t, qs[i]).Raised?
    ensures qs == [] ==> Dispatched(v, t, qs, io) == Raised(EmptyQuerySet)
    ensures forall k ::
      (0 <= k < |qs| && Prepare(t, qs[k]).Raised? &&
       (forall i :: 0 <= i < k ==> Prepare(t, qs[i]).Returned?)) ==>
      Dispatched(v, t, qs, io) == Raised(Prepare(t, qs[k]).fault)
  {
    var outs := Outcomes(v, t, qs, io);
    CollectReturned(outs);
    forall k | 0 <= k < |qs| && Prepare(t, qs[k]).Raised? &&
      (forall i :: 0 <= i < k ==> Prepare(t, qs[i]).Returned?)
      ensures Dispatched(v, t, qs, io) == Raised(Prepare(t, qs[k]).fault)
    {
      CollectRaised(outs, k);
    }
  }

  /** The request one query puts on the wire: none when building it raises or it has no body. */
  function SentBy(t: Target, q: QueryDef): (sent: seq<Request>)
    ensures |sent| <= 1
    ensures sent != [] <==> Prepare(t, q).Returned? && Prepare(t, q).value.Call?
    ensures sent != [] ==> sent[0] == Prepare(t, q).value.request
  {
    var p := Prepare(t, q);
    if p.Returned? && p.value.Call? then [p.value.request] else []
  }

  /** The requests sent when the queries at the positions of `order` run, in that order. */
  function SentInOrder(t: Target, qs: seq<QueryDef>, order: seq<int>): seq<Request>
    requires forall j :: 0 <= j < |order| ==> 0 <= order[j] < |qs|
  {
    if order == [] then []
    else SentInOrder(t, qs, order[..|order| - 1]) + SentBy(t, qs[order[|order| - 1]])
  }

  /** Every request sent carries the target's own key and goes to the target's server. */
  lemma {:induction false} SentInOrderCarriesKey(t: Target, qs: seq<QueryDef>, order: seq<int>)
    requires forall j :: 0 <= j < |order| ==> 0 <= order[j] < |qs|
    ensures forall k :: 0 <= k < |SentInOrder(t, qs, order)| ==>
      SentInOrder(t, qs, order)[k].authorization == "ApiKey " + t.apiKey &&
      "https://" + t.apiServer <= SentInOrder(t, qs, order)[k].url
  {
    if order != [] {
      SentInOrderCarriesKey(t, qs, order[..|order| - 1]);
    }
  }

  /** Running one more query of the order sends what that query sends, after the rest. */
  lemma SentInOrderSnoc(t: Target, qs: seq<QueryDef>, order: seq<int>, j: nat)
    requires forall m :: 0 <= m < |order| ==> 0 <= order[m] < |qs|
    requires j < |order|
    ensures SentInOrder(t, qs, order[..j + 1]) == SentInOrder(t, qs, order[..j]) + SentBy(t, qs[order[j]])
  {
    assert order[..j + 1][..j] == order[..j];
  }

  /** The positions 0 .. n-1 in their own order: the order the serial executor runs in. */
  function Positions(n: nat): (order: seq<int>)
    ensures |order| == n && forall j :: 0 <= j < n ==> order[j] == j
  {
    seq(n, j => j)
  }

  /** One task of either executor: query `x` runs under query number `x + 1`. */
  method RunTask(v: Variant, t: Target, qs: seq<QueryDef>, io: seq<Exchange>, x: nat)
    returns (result: Result<QueryResult>)
    requires |io| == |qs| && x < |qs|
    ensures result == Outcomes(v, t, qs, io)[x]
  {
    result := RunQuery(v, x + 1, t, qs[x], io[x]);
  }

  /** Every slot in `ran` holds a result, and every result is its query's outcome. */
  predicate Filled(slots: seq<Option<Result<QueryResult>>>, outs: seq<Result<QueryResult>>, ran: set<int>)
  {
    |slots| == |outs| &&
    (forall i :: i in ran ==> 0 <= i < |slots| && slots[i].Some?) &&
    (forall i :: 0 <= i < |slots| && slots[i].Some? ==> slots[i].value == outs[i])
  }

  /** Storing task `x`'s outcome in its slot keeps the slots filled. */
  lemma FilledSnoc(slots: seq<Option<Result<QueryResult>>>, outs: seq<Result<QueryResult>>, ran: set<int>, x: int)
    requires Filled(slots, outs, ran) && 0 <= x < |slots|
    ensures Filled(slots[x := Some(outs[x])], outs, ran + {x})
  {
  }

  /** Once every position of an ordering has run, every slot holds its outcome. */
  lemma FilledAll(slots: seq<Option<Result<QueryResult>>>, outs: seq<Result<QueryResult>>, ran: set<int>, completion: seq<int>)
    requires Filled(slots, outs, ran) && IsOrdering(completion, |slots|)
    requires forall m :: 0 <= m < |completion| ==> completion[m] in ran
    ensures forall i :: 0 <= i < |slots| ==> slots[i] == Some(outs[i])
  {
    forall i | 0 <= i < |slots|
      ensures slots[i] == Some(outs[i])
    {
      assert i in completion;
      assert i in ran;
    }
  }

  /**
   * The worker pool: task x runs query x+1, and the tasks finish in the order
   * `completion`. Once every task has finished, slot i holds task i's outcome
   * whatever that order was.
   */
  method RunPool(v: Variant, t: Target, qs: seq<QueryDef>, io: seq<Exchange>, completion: seq<int>)
    returns (finished: seq<Option<Result<QueryResult>>>, sent: seq<Request>)
    requires |io| == |qs|
    requires IsOrdering(completion, |qs|)
    ensures |finished| == |qs|
    ensures forall i :: 0 <= i < |qs| ==> finished[i] == Some(Outcomes(v, t, qs, io)[i])
    ensures sent == SentInOrder(t, qs, completion)
  {
    var n := |qs|;
    ghost var outs := Outcomes(v, t, qs, io);
    var tasks := new Option<Result<QueryResult>>[n](_ => None);
    sent := [];
    ghost var ran: set<int> := {};
    var j := 0;
    while j < n
      invariant 0 <= j <= n
      invariant Filled(tasks[..], outs, ran)
      invariant forall m :: 0 <= m < j ==> completion[m] in ran
      invariant sent == SentInOrder(t, qs, completion[..j])
    {
      var x := completion[j];
      SentInOrderSnoc(t, qs, completion, j);
      sent := sent + SentBy(t, qs[x]);
      var result := RunTask(v, t, qs, io, x);
      ghost var before := tasks[..];
      tasks[x] := Some(result);
      assert tasks[..] == before[x := Some(result)];
      FilledSnoc(before, outs, ran, x);
      ran := ran + {x};
      j := j + 1;
    }
    assert completion[..n] == completion;
    finished := tasks[..];
    FilledAll(finished, outs, ran, completion);
  }

  /**
   * Once every query's result has been fetched in submission order, placing
   * them by query number yields the collected results of the set.
   */
  method Reassemble(v: Variant, t: Target, qs: seq<QueryDef>, io: seq<Exchange>, fetched: seq<QueryResult>)
    returns (r: Result<seq<QueryResult>>)
    requires |io| == |qs| == |fetched|
    requires forall i :: 0 <= i < |qs| ==> Outcomes(v, t, qs, io)[i] == Returned(fetched[i])
    ensures r == Collect(Outcomes(v, t, qs, io))
  {
    ghost var outs := Outcomes(v, t, qs, io);
    CollectReturned(outs);
    assert fetched == Collect(outs).value;
    InOrderIsOrdering(Slots(fetched));
    var placed := Place(fetched);
    assert placed == fetched;
    r := Returned(placed);
  }

  /**
   * Fetching the finished tasks in submission order: the first fault fetched
   * is re-raised, otherwise the results are placed by query number.
   */
  method Fetch(v: Variant, t: Target, qs: seq<QueryDef>, io: seq<Exchange>, finished: seq<Option<Result<QueryResult>>>)
    returns (r: Result<seq<QueryResult>>)
    requires |io| == |qs| == |finished| && qs != []
    requires forall i :: 0 <= i < |qs| ==> finished[i] == Some(Outcomes(v, t, qs, io)[i])
    ensures r == Dispatched(v, t, qs, io)
  {
    var n := |qs|;
    ghost var outs := Outcomes(v, t, qs, io);
    var gathered: seq<QueryResult> := [];
    var k := 0;
    while k < n
      invariant 0 <= k <= n && |gathered| == k
      invariant forall i :: 0 <= i < k ==> outs[i] == Returned(gathered[i])
    {
      var result := finished[k].value;
      if result.Raised? {
        CollectRaised(outs, k);
        return Raised(result.fault);
      }
      gathered := gathered + [result.value];
      k := k + 1;
    }
    r := Reassemble(v, t, qs, io, gathered);
  }

  /**
   * The parallel executor: every task is submitted, the pool finishes them in
   * the order `completion`, then results are fetched in submission order (the
   * first fetched fault is re-raised) and placed by query number.
   */
  method RunParallel(v: Variant, t: Target, qs: seq<QueryDef>, io: seq<Exchange>, completion: seq<int>)
    returns (r: Result<seq<QueryResult>>, sent: seq<Request>)
    requires |io| == |qs|
    requires IsOrdering(completion, |qs|)
    ensures r == Dispatched(v, t, qs, io)
    ensures sent == SentInOrder(t, qs, completion)
  {
    var n := |qs|;
    if n == 0 {
      return Raised(EmptyQuerySet), [];
    }
    var finished;
    finished, sent := RunPool(v, t, qs, io, completion);
    r := Fetch(v, t, qs, io, finished);
  }

  /**
   * The position of the first query whose request cannot be built, or the
   * length of the set when every request can be built.
   */
  function FirstFault(t: Target, qs: seq<QueryDef>, from: nat): (k: nat)
    requires from <= |qs|
    ensures from <= k <= |qs|
    ensures forall i :: from <= i < k ==> Prepare(t, qs[i]).Returned?
    ensures k < |qs| ==> Prepare(t, qs[k]).Raised?
    decreases |qs| - from
  {
    if from == |qs| || Prepare(t, qs[from]).Raised? then from else FirstFault(t, qs, from + 1)
  }

  /**
   * The requests the first `k` queries of a set send when run one after
   * another. This equals `SentInOrder` over the first `k` set positions
   * (`SentSeriallyInOrder`); the serial loop's invariant is stated with it
   * because it unfolds by one query without going through an ordering, which
   * keeps that loop's proof small.
   */
  function SentSerially(t: Target, qs: seq<QueryDef>, k: nat): seq<Request>
    requires k <= |qs|
  {
    if k == 0 then [] else SentSerially(t, qs, k - 1) + SentBy(t, qs[k - 1])
  }

  /** Running in set order sends what the set-order positions send. */
  lemma {:induction false} SentSeriallyInOrder(t: Target, qs: seq<QueryDef>, k: nat)
    requires k <= |qs|
    ensures SentSerially(t, qs, k) == SentInOrder(t, qs, Positions(|qs|)[..k])
  {
    if k > 0 {
      SentSeriallyInOrder(t, qs, k - 1);
      SentInOrderSnoc(t, qs, Positions(|qs|), k - 1);
    }
  }

  /** Where the outcomes first raise is where building the requests first fails. */
  lemma FirstFaultOfOutcomes(v: Variant, t: Target, qs: seq<QueryDef>, io: seq<Exchange>, x: nat)
    requires |io| == |qs| && x <= |qs|
    requires forall i :: 0 <= i < x ==> Outcomes(v, t, qs, io)[i].Returned?
    requires x < |qs| ==> Outcomes(v, t, qs, io)[x].Raised?
    ensures FirstFault(t, qs, 0) == x
  {
    var outs := Outcomes(v, t, qs, io);
    forall i | 0 <= i < x
      ensures Prepare(t, qs[i]).Returned?
    {
      assert outs[i] == RunQuery(v, i + 1, t, qs[i], io[i]);
    }
    if x < |qs| {
      assert outs[x] == RunQuery(v, x + 1, t, qs[x], io[x]);
    }
    FirstFaultFrom(t, qs, 0, x);
  }

  lemma {:induction false} FirstFaultFrom(t: Target, qs: seq<QueryDef>, from: nat, x: nat)
    requires from <= x <= |qs|
    requires forall i :: from <= i < x ==> Prepare(t, qs[i]).Returned?
    requires x < |qs| ==> Prepare(t, qs[x]).Raised?
    ensures FirstFault(t, qs, from) == x
    decreases x - from
  {
    if from < x {
      FirstFaultFrom(t, qs, from + 1, x);
    }
  }

  /**
   * The serial executor: each query runs to completion before the next is
   * submitted, so a fault stops the set at the query that raised it; the
   * results are then placed by query number.
   */
  method RunSerial(v: Variant, t: Target, qs: seq<QueryDef>, io: seq<Exchange>)
    returns (r: Result<seq<QueryResult>>, sent: seq<Request>)
    requires |io| == |qs|
    ensures r == Dispatched(v, t, qs, io)
    ensures sent == SentInOrder(t, qs, Positions(|qs|)[..FirstFault(t, qs, 0)])
  {
    var n := |qs|;
    if n == 0 {
      return Raised(EmptyQuerySet), [];
    }
    var tasks, failure;
    tasks, sent, failure := RunUntilFault(v, t, qs, io);
    FirstFaultOfOutcomes(v, t, qs, io, |tasks|);
    SentSeriallyInOrder(t, qs, |tasks|);
    if failure.Some? {
      CollectRaised(Outcomes(v, t, qs, io), |tasks|);
      return Raised(failure.value), sent;
    }
    r := Reassemble(v, t, qs, io, tasks);
  }

  /** One query of the serial loop: it runs, and what it sends joins the trace. */
  method SerialStep(v: Variant, t: Target, qs: seq<QueryDef>, io: seq<Exchange>, x: nat, sent0: seq<Request>)
    returns (result: Result<QueryResult>, sent: seq<Request>)
    requires |io| == |qs| && x < |qs|
    requires sent0 == SentSerially(t, qs, x)
    ensures result == Outcomes(v, t, qs, io)[x]
    ensures result.Raised? ==> sent == sent0
    ensures result.Returned? ==> sent == SentSerially(t, qs, x + 1)
  {
    result := RunTask(v, t, qs, io, x);
    if result.Raised? {
      return result, sent0;
    }
    sent := sent0 + SentBy(t, qs[x]);
  }

  /** A result that returned extends the run of returned outcomes by one. */
  lemma ReturnedSnoc(outs: seq<Result<QueryResult>>, tasks: seq<QueryResult>, task: QueryResult)
    requires |tasks| < |outs| && outs[|tasks|] == Returned(task)
    requires forall i :: 0 <= i < |tasks| ==> outs[i] == Returned(tasks[i])
    ensures forall i :: 0 <= i < |tasks| + 1 ==> outs[i] == Returned((tasks + [task])[i])
  {
  }

  /**
   * The serial executor's loop: each query runs to completion, in set order,
   * and the first query that raises stops the loop with its fault.
   */
  method RunUntilFault(v: Variant, t: Target, qs: seq<QueryDef>, io: seq<Exchange>)
    returns (tasks: seq<QueryResult>, sent: seq<Request>, failure: Option<Fault>)
    requires |io| == |qs|
    ensures |tasks| <= |qs|
    ensures forall i :: 0 <= i < |tasks| ==> Outcomes(v, t, qs, io)[i] == Returned(tasks[i])
    ensures failure.Some? <==> |tasks| < |qs|
    ensures failure.Some? ==> Outcomes(v, t, qs, io)[|tasks|] == Raised(failure.value)
    ensures sent == SentSerially(t, qs, |tasks|)
  {
    var n := |qs|;
    ghost var outs := Outcomes(v, t, qs, io);
    tasks, sent := [], [];
    var x := 0;
    while x < n
      invariant 0 <= x <= n && |tasks| == x
      invariant forall i :: 0 <= i < x ==> outs[i] == Returned(tasks[i])
      invariant sent == SentSerially(t, qs, x)
    {
      var result;
      result, sent := SerialStep(v, t, qs, io, x, sent);
      if result.Raised? {
        return tasks, sent, Some(result.fault);
      }
      ReturnedSnoc(outs, tasks, result.value);
      tasks := tasks + [result.value];
      x := x + 1;
    }
    failure := None;
  }

  /** A query set as the legacy configuration holds it: a name and its queries. */
  datatype QuerySetDoc = QuerySetDoc(name: Option<string>, queries: seq<QueryDef>)

  /** The legacy result set: the ordered results tagged with the set's name. */
  datatype ResultSet = ResultSet(queryResults: seq<QueryResult>, querySetName: string)

  /**
   * The legacy `run_queryset`: the parallel strategy over the set's queries
   * with the legacy classification, then the set's name is looked up, which
   * raises when the set has none.
   */
  method RunQuerysetLegacy(t: Target, qset: QuerySetDoc, io: seq<Exchange>, completion: seq<int>)
    returns (r: Result<ResultSet>)
    requires |io| == |qset.queries|
    requires IsOrdering(completion, |qset.queries|)
    ensures var d := Dispatched(Legacy, t, qset.queries, io);
      (d.Raised? ==> r == Raised(d.fault)) &&
      (d.Returned? && qset.name.None? ==> r == Raised(MissingQuerySetName)) &&
      (d.Returned? && qset.name.Some? ==> r == Returned(ResultSet(d.value, qset.name.value)))
  {
    var results, _ := RunParallel(Legacy, t, qset.queries, io, completion);
    if results.Raised? {
      return Raised(results.fault);
    }
    if qset.name.None? {
      return Raised(MissingQuerySetName);
    }
    r := Returned(ResultSet(results.value, qset.name.value));
  }
}
