/**
 * Running a test: choosing the executor from the target's execution mode,
 * masking the API key once the queries have run, summarising, and handing
 * results and summary to the display and log collaborators (testModes.py);
 * plus the configuration fix-ups of rsload.py that belong to the core
 * (stripping the protocol from the server address, masking the key).
 */
module RunControl {
  import opened Common
  import opened Query
  import opened Dispatch
  import opened Summaries

  datatype Mode = Serial | Parallel

  /**
   * The executor for a target's `execution_mode`: serial when the key is
   * absent, the named one for "parallel" and "serial", none for anything else.
   */
  function SelectMode(m: Option<string>): (r: Option<Mode>)
    ensures r == Some(Parallel) <==> m == Some("parallel")
    ensures r == Some(Serial) <==> m.None? || m == Some("serial")
    ensures r.None? <==> m.Some? && m.value != "parallel" && m.value != "serial"
  {
    match m
    case None => Some(Serial)
    case Some(mode) =>
      if mode == "parallel" then Some(Parallel)
      else if mode == "serial" then Some(Serial)
      else None
  }

  /**
   * The `queries` entry of the configuration, in the two shapes the executors
   * of executors.py read: a bare list, or a query set with a `queries` list.
   */
  datatype QueriesArg = QueryList(list: seq<QueryDef>) | QuerySetDict(doc: QuerySetDoc)

  /**
   * The query list each executor of executors.py reads from the same
   * argument, as written: the parallel one indexes `query_set['queries']`,
   * which raises on a list; the serial one takes `len(query_set)` and
   * `query_set[x]`, which raises on a query set (its keys are not positions).
   */
  function QueriesAsWritten(mode: Mode, arg: QueriesArg): (r: Result<seq<QueryDef>>)
    ensures r.Raised? <==> (mode.Parallel? && arg.QueryList?) || (mode.Serial? && arg.QuerySetDict?)
  {
    match arg
    case QueryList(list) => if mode.Serial? then Returned(list) else Raised(QuerySetShape)
    case QuerySetDict(doc) => if mode.Parallel? then Returned(doc.queries) else Raised(QuerySetShape)
  }

  /**
   * Whatever shape `config['queries']` has, one of the two execution modes
   * raises on it: no configuration runs under both.
   */
  lemma NoShapeServesBothModes(arg: QueriesArg)
    ensures QueriesAsWritten(Parallel, arg).Raised? || QueriesAsWritten(Serial, arg).Raised?
  {
  }

  /**
   * The query list read from either shape, the same for both modes; each
   * mode, where its own reading works, reads exactly this list.
   */
  function QueriesOf(arg: QueriesArg): (qs: seq<QueryDef>)
    ensures forall mode :: QueriesAsWritten(mode, arg).Returned? ==> QueriesAsWritten(mode, arg).value == qs
    ensures exists mode :: QueriesAsWritten(mode, arg) == Returned(qs)
  {
    assert QueriesAsWritten(if arg.QueryList? then Serial else Parallel, arg).Returned?;
    match arg
    case QueryList(list) => list
    case QuerySetDict(doc) => doc.queries
  }

  /** What `run_queryset` returns: None for an unknown mode, else the executor's result. */
  datatype DispatchResult = NotRun | Ran(results: Result<seq<QueryResult>>)

  /**
   * `run_queryset` of testModes.py: pick the executor and run the set with it.
   * Both executors yield the same results, so for the results the mode only
   * decides whether anything runs at all; it does decide which requests are
   * sent, since the serial executor stops at the first query that raises.
   */
  method RunQueryset(t: Target, arg: QueriesArg, io: seq<Exchange>, completion: seq<int>)
    returns (d: DispatchResult, sent: seq<Request>)
    requires |io| == |QueriesOf(arg)|
    requires IsOrdering(completion, |io|)
    ensures d == NotRun <==> SelectMode(t.executionMode).None?
    ensures d.Ran? ==> d.results == Dispatched(Current, t, QueriesOf(arg), io)
    ensures sent == Sends(t, arg, completion)
  {
    var mode := SelectMode(t.executionMode);
    var queries := QueriesOf(arg);
    match mode {
      case None =>
        return NotRun, [];
      case Some(Parallel) =>
        var results;
        results, sent := RunParallel(Current, t, queries, io, completion);
        d := Ran(results);
      case Some(Serial) =>
        var results;
        results, sent := RunSerial(Current, t, queries, io);
        d := Ran(results);
    }
  }

  /**
   * The requests `run_queryset` sends for a set: none for an unknown mode;
   * every query's, in the order the pool runs them, in parallel mode; in
   * serial mode those of the queries before the first one that raises.
   */
  function Sends(t: Target, arg: QueriesArg, completion: seq<int>): seq<Request>
    requires IsOrdering(completion, |QueriesOf(arg)|)
  {
    var qs := QueriesOf(arg);
    match SelectMode(t.executionMode)
    case None => []
    case Some(Parallel) => SentInOrder(t, qs, completion)
    case Some(Serial) => SentInOrder(t, qs, Positions(|qs|)[..FirstFault(t, qs, 0)])
  }

  /** Whatever the mode, every request sent goes to the target's server with its key. */
  lemma SendsCarryKey(t: Target, arg: QueriesArg, completion: seq<int>)
    requires IsOrdering(completion, |QueriesOf(arg)|)
    ensures forall k :: 0 <= k < |Sends(t, arg, completion)| ==>
      Sends(t, arg, completion)[k].authorization == "ApiKey " + t.apiKey &&
      "https://" + t.apiServer <= Sends(t, arg, completion)[k].url
  {
    var qs := QueriesOf(arg);
    match SelectMode(t.executionMode)
    case None =>
    case Some(Parallel) =>
      SentInOrderCarriesKey(t, qs, completion);
    case Some(Serial) =>
      SentInOrderCarriesKey(t, qs, Positions(|qs|)[..FirstFault(t, qs, 0)]);
  }

  /** Python's `key[-4:]`: the last four characters, or the whole key when shorter. */
  function LastFour(key: string): (r: string)
    ensures |r| == if |key| < 4 then |key| else 4
    ensures r == key[|key| - |r|..]
  {
    if |key| <= 4 then key else key[|key| - 4..]
  }

  /** The masked key: six asterisks, then the key's last four characters. */
  function Mask(key: string): (r: string)
    ensures |r| == 6 + |LastFour(key)|
    ensures r[..6] == "******"
    ensures r[6..] == key[|key| - (|r| - 6)..]
  {
    "******" + LastFour(key)
  }

  /** Nothing but the last four characters survives masking. */
  lemma MaskKeepsOnlyLastFour(a: string, b: string)
    ensures Mask(a) == Mask(b) <==> LastFour(a) == LastFour(b)
  {
    if Mask(a) == Mask(b) {
      assert Mask(a)[6..] == Mask(b)[6..];
    }
  }

  /**
   * Masking twice is masking once exactly for keys of at least four
   * characters; a shorter key gains asterisks on every pass.
   */
  lemma MaskIdempotentIff(key: string)
    ensures Mask(Mask(key)) == Mask(key) <==> |key| >= 4
  {
    if |key| >= 4 {
      assert LastFour(Mask(key)) == LastFour(key);
    } else {
      assert |Mask(Mask(key))| == 10 > |Mask(key)|;
    }
  }

  lemma MaskExample()
    ensures Mask("abcd1234wxyz") == "******wxyz"
  {
  }

  predicate StartsWith(s: string, prefix: string) {
    |prefix| <= |s| && s[..|prefix|] == prefix
  }

  /** No address starts with both protocols. */
  lemma ProtocolsExclusive(s: string)
    ensures !(StartsWith(s, "https://") && StartsWith(s, "http://"))
  {
    if StartsWith(s, "https://") {
      assert s[4] == 's';
    }
  }

  /**
   * The server address with a leading "https://" or "http://" removed; any
   * other address is left alone. Only one prefix is removed.
   */
  function WithoutProtocol(s: string): (r: string)
    ensures StartsWith(s, "https://") ==> "https://" + r == s
    ensures StartsWith(s, "http://") ==> "http://" + r == s
    ensures !StartsWith(s, "https://") && !StartsWith(s, "http://") ==> r == s
  {
    ProtocolsExclusive(s);
    if StartsWith(s, "https://") then s[8..]
    else if StartsWith(s, "http://") then s[7..]
    else s
  }

  /** Stripping undoes prefixing a bare host name with either protocol. */
  lemma WithoutProtocolRoundTrip(host: string)
    requires !StartsWith(host, "https://") && !StartsWith(host, "http://")
    ensures WithoutProtocol("https://" + host) == host
    ensures WithoutProtocol("http://" + host) == host
    ensures WithoutProtocol(host) == host
  {
    assert ("https://" + host)[..8] == "https://";
    assert ("http://" + host)[..7] == "http://";
    assert ("https://" + host)[..7] != "http://" by {
      assert ("https://" + host)[4] == 's';
    }
  }

  /** The configuration the test mode owns; its target is changed in place. */
  class Config {
    var target: Target
    var queries: QueriesArg

    constructor (target: Target, queries: QueriesArg)
      ensures this.target == target && this.queries == queries
    {
      this.target := target;
      this.queries := queries;
    }

    /** `obfuscate_apikey`: overwrite the key with its masked form. */
    method ObfuscateApiKey()
      modifies this
      ensures target == old(target).(apiKey := Mask(old(target).apiKey))
      ensures queries == old(queries)
    {
      var last4 := LastFour(target.apiKey);
      target := target.(apiKey := "******" + last4);
    }

    /**
     * The protocol fix-up of rsload.py's `load_config`: both prefix tests
     * look at the address as it was before either replacement.
     */
    method StripServerProtocol()
      modifies this
      ensures target == old(target).(apiServer := WithoutProtocol(old(target).apiServer))
      ensures queries == old(queries)
    {
      var apiServer := target.apiServer;
      if StartsWith(apiServer, "https://") {
        target := target.(apiServer := apiServer[8..]);
      }
      if StartsWith(apiServer, "http://") {
        ProtocolsExclusive(apiServer);
        target := target.(apiServer := apiServer[7..]);
      }
    }
  }

  /** One call to a display or log collaborator, with the API key its config held. */
  datatype Handoff =
    | ShowResults(apiKey: string, results: seq<QueryResult>)
    | ShowSummary(apiKey: string, summary: Summary)
    | LogResults(apiKey: string, results: seq<QueryResult>)
    | LogSummary(apiKey: string, summary: Summary)

  /** The target once its key is masked. */
  function Masked(t: Target): (m: Target)
    ensures m.apiKey == Mask(t.apiKey) && m.(apiKey := t.apiKey) == t
  {
    t.(apiKey := Mask(t.apiKey))
  }

  /**
   * The collaborator calls of one cycle, in order: display of results and of
   * the summary when verbose, then logging of both when logging is on; every
   * one of them sees the same (masked) key.
   */
  function Handed(verbose: bool, logOutput: bool, key: string, results: seq<QueryResult>, summary: Summary): (h: seq<Handoff>)
    ensures forall i :: 0 <= i < |h| ==> h[i].apiKey == key
    ensures |h| == (if verbose then 2 else 0) + (if logOutput then 2 else 0)
    ensures verbose ==> h[0] == ShowResults(key, results) && h[1] == ShowSummary(key, summary)
    ensures logOutput ==> h[|h| - 2] == LogResults(key, results) && h[|h| - 1] == LogSummary(key, summary)
  {
    (if verbose then [ShowResults(key, results), ShowSummary(key, summary)] else []) +
    (if logOutput then [LogResults(key, results), LogSummary(key, summary)] else [])
  }

  /**
   * The iterations test mode. `handoffs` records, in order, what the display
   * and log collaborators were given; `sent` records, in order, the requests
   * sent to the target's server.
   */
  class IterationsTestMode {
    const config: Config
    const verbose: bool
    const logOutput: bool
    var handoffs: seq<Handoff>
    var sent: seq<Request>

    constructor (config: Config, verbose: bool, logOutput: bool)
      ensures this.config == config && this.verbose == verbose && this.logOutput == logOutput
      ensures handoffs == [] && sent == []
    {
      this.config := config;
      this.verbose := verbose;
      this.logOutput := logOutput;
      handoffs := [];
      sent := [];
    }

    /**
     * One cycle: dispatch with the configured target, then mask the key,
     * then summarise, then hand results and summary to display (when
     * verbose) and log (when logging). A fault raised by the dispatch ends
     * the cycle before the key is masked; an unknown mode yields no results,
     * and summarising them raises after the key is masked.
     */
    method Run(io: seq<Exchange>, completion: seq<int>) returns (r: Result<Summary>)
      requires |io| == |QueriesOf(config.queries)|
      requires IsOrdering(completion, |io|)
      modifies this, config
      ensures config.queries == old(config.queries)
      ensures sent == old(sent) + Sends(old(config.target), old(config.queries), completion)
      ensures forall k :: |old(sent)| <= k < |sent| ==>
        sent[k].authorization == "ApiKey " + old(config.target).apiKey
      ensures SelectMode(old(config.target).executionMode).None? ==>
        r == Raised(NoQueryResults) && config.target == Masked(old(config.target)) &&
        handoffs == old(handoffs)
      ensures SelectMode(old(config.target).executionMode).Some? ==>
        var d := Dispatched(Current, old(config.target), QueriesOf(old(config.queries)), io);
        (d.Raised? ==>
          r == Raised(d.fault) && config.target == old(config.target) && handoffs == old(handoffs)) &&
        (d.Returned? ==>
          r == Returned(SummaryOf(d.value)) && config.target == Masked(old(config.target)) &&
          handoffs == old(handoffs) +
            Handed(verbose, logOutput, Mask(old(config.target).apiKey), d.value, r.value))
    {
      ghost var target0 := config.target;
      var queryResults, requests := RunQueryset(config.target, config.queries, io, completion);
      SendsCarryKey(target0, config.queries, completion);
      sent := sent + requests;
      if queryResults.Ran? && queryResults.results.Raised? {
        return Raised(queryResults.results.fault);
      }
      config.ObfuscateApiKey();
      if queryResults.NotRun? {
        return Raised(NoQueryResults);
      }
      var results := queryResults.results.value;
      var summary := Summarize(results);
      var key := config.target.apiKey;
      assert key == Mask(target0.apiKey);
      handoffs := handoffs + Handed(verbose, logOutput, key, results, summary);
      r := Returned(summary);
    }
  }
}
