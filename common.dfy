/**
 * Shared vocabulary of the load tester's core: optional values, results that
 * may carry a fault, the faults that Python raises on the paths modelled here,
 * Python's `round` applied to a count of thousandths, and `str.rstrip()`.
 */
module Common {

  datatype Option<+T> = None | Some(value: T)

  /** A Python call that either returns a value or raises a `Fault`. */
  datatype Result<+T> = Returned(value: T) | Raised(fault: Fault)

  /**
   * The exceptions the modelled code can raise. None of them is caught by the
   * load tester: each one aborts the run.
   */
  datatype Fault =
    | EmptyLambdaPath          // `qlURL[0]` on an empty lambda path: IndexError
    | BlankSqlUnderDropResults // `baseQuery[-1]` on blank SQL text: IndexError
    | EmptyQuerySet            // `Pool(processes=0)`: ValueError
    | MissingQuerySetName      // `query_set['name']` absent: KeyError
    | QuerySetShape            // a query set of the wrong shape for its executor
    | NoQueryResults           // `None['query_results']` after an unknown mode: TypeError

  function Abs(x: int): int { if x < 0 then -x else x }

  /**
   * Python's `round(n / 1000)`: the integer nearest to n/1000, ties going to
   * the even neighbour. Python computes n/1000 as a float; for the magnitudes
   * a latency takes that quotient is exact enough that the nearest integer,
   * and every tie, come out as they do here.
   */
  function RoundThousandths(n: int): (r: int)
    ensures 2 * Abs(1000 * r - n) <= 1000
    ensures 2 * Abs(1000 * r - n) == 1000 ==> r % 2 == 0
  {
    var q, m := n / 1000, n % 1000;
    if m < 500 then q
    else if m > 500 then q + 1
    else if q % 2 == 0 then q else q + 1
  }

  /** The rounding is the only integer that close to n/1000 (outside ties). */
  lemma RoundThousandthsUnique(n: int, k: int)
    requires 2 * Abs(1000 * k - n) < 1000
    ensures RoundThousandths(n) == k
  {
    var r := RoundThousandths(n);
    assert Abs(1000 * r - 1000 * k) < 1000;
  }

  /** A whole number of thousandths rounds to itself. */
  lemma RoundThousandthsExact(k: int)
    ensures RoundThousandths(1000 * k) == k
  {
    RoundThousandthsUnique(1000 * k, k);
  }

  /** The characters Python's `str.isspace()` accepts. */
  predicate IsSpace(c: char) {
    c == ' ' || ('\t' <= c <= '\r') || ('\U{1c}' <= c <= '\U{1f}') ||
    c == '\U{85}' || c == '\U{a0}' || c == '\U{1680}' ||
    ('\U{2000}' <= c <= '\U{200a}') || c == '\U{2028}' || c == '\U{2029}' ||
    c == '\U{202f}' || c == '\U{205f}' || c == '\U{3000}'
  }

  /** Python's `s.rstrip()`: the longest prefix of s not ending in whitespace. */
  function RStrip(s: string): (r: string)
    ensures r <= s
    ensures forall i :: |r| <= i < |s| ==> IsSpace(s[i])
    ensures r == [] || !IsSpace(r[|r| - 1])
  {
    if s == [] || !IsSpace(s[|s| - 1]) then s else RStrip(s[..|s| - 1])
  }

  /** Stripping is empty exactly on all-whitespace text. */
  lemma RStripEmptyIff(s: string)
    ensures RStrip(s) == [] <==> forall i :: 0 <= i < |s| ==> IsSpace(s[i])
  {
    if RStrip(s) != [] {
      var r := RStrip(s);
      assert r[|r| - 1] == s[|r| - 1];
    }
  }

  /** Whitespace appended after text that does not end in whitespace is what rstrip removes. */
  lemma {:induction false} RStripAppended(t: string, ws: string)
    requires t == [] || !IsSpace(t[|t| - 1])
    requires forall i :: 0 <= i < |ws| ==> IsSpace(ws[i])
    ensures RStrip(t + ws) == t
  {
    if ws != [] {
      var w := ws[..|ws| - 1];
      assert (t + ws)[..|t + ws| - 1] == t + w;
      RStripAppended(t, w);
    } else {
      assert t + ws == t;
    }
  }
}
