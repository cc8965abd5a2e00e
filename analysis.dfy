/** `analyze_misclassifications` of main.py: an audit of routed results
    that flags queries whose wording suggests a different complexity label
    than the one they were given. */
module Analysis {
  import opened Wrappers
  import opened Text

  /** The fields of a routed result that the audit reads. */
  datatype RoutedRow = RoutedRow(query: string, classification: string, modelUsed: string)

  /** One flagged result. */
  datatype Misclassification = Misclassification(query: string, expected: string, actual: string, modelUsed: string)

  /** The query mentions `analyze` or `complex`, in any letter case. */
  predicate SuggestsAdvanced(query: string) {
    Contains(Lower(query), "analyze") || Contains(Lower(query), "complex")
  }

  /** The query mentions `what is` or `define`, in any letter case. */
  predicate SuggestsSimple(query: string) {
    Contains(Lower(query), "what is") || Contains(Lower(query), "define")
  }

  /** The entry one result contributes, if any. The advanced wording is
      tested first; only when that test fails as a whole (no such wording,
      or the result is already `advanced`) is the simple wording tested, so
      a result with both kinds of wording that is `advanced` is flagged as
      expected `simple`. */
  function Flag(row: RoutedRow): (f: Option<Misclassification>)
    ensures f.Some? ==> && f.value.query == row.query && f.value.modelUsed == row.modelUsed
                        && f.value.actual == row.classification && f.value.expected != f.value.actual
    ensures SuggestsAdvanced(row.query) && row.classification != "advanced" ==>
              f == Some(Misclassification(row.query, "advanced", row.classification, row.modelUsed))
    ensures !(SuggestsAdvanced(row.query) && row.classification != "advanced") && SuggestsSimple(row.query)
            && row.classification != "simple" ==>
              f == Some(Misclassification(row.query, "simple", row.classification, row.modelUsed))
    ensures !SuggestsAdvanced(row.query) && !SuggestsSimple(row.query) ==> f == None
    ensures f.Some? ==> f.value.expected in {"advanced", "simple"}
  {
    if SuggestsAdvanced(row.query) && row.classification != "advanced" then
      Some(Misclassification(row.query, "advanced", row.classification, row.modelUsed))
    else if SuggestsSimple(row.query) && row.classification != "simple" then
      Some(Misclassification(row.query, "simple", row.classification, row.modelUsed))
    else
      None
  }

  /** The precedence rule at work: an `advanced` result whose query has both
      kinds of wording is reported as expected `simple`. */
  lemma AdvancedWithBothWordingsFlaggedSimple(row: RoutedRow)
    requires SuggestsAdvanced(row.query) && SuggestsSimple(row.query) && row.classification == "advanced"
    ensures Flag(row) == Some(Misclassification(row.query, "simple", "advanced", row.modelUsed))
  {
  }

  function FlagSeq(row: RoutedRow): (s: seq<Misclassification>)
    ensures |s| <= 1
  {
    if Flag(row).Some? then [Flag(row).value] else []
  }

  /** `f` applied to each element, the results concatenated in order. */
  function FlatMap<T, U>(f: T -> seq<U>, xs: seq<T>): seq<U> {
    if xs == [] then [] else FlatMap(f, xs[..|xs| - 1]) + f(xs[|xs| - 1])
  }

  /** Mapping a concatenation concatenates the mapped parts. */
  lemma {:induction false} FlatMapAppend<T, U>(f: T -> seq<U>, a: seq<T>, b: seq<T>)
    ensures FlatMap(f, a + b) == FlatMap(f, a) + FlatMap(f, b)
    decreases |b|
  {
    if b == [] {
      assert a + b == a;
    } else {
      FlatMapAppend(f, a, b[..|b| - 1]);
      assert (a + b)[..|a + b| - 1] == a + b[..|b| - 1];
    }
  }

  /** The audit: the flagged entries of all results, in input order. */
  function Audit(results: seq<RoutedRow>): (flagged: seq<Misclassification>)
    ensures |flagged| <= |results|
  {
    AuditLength(results);
    FlatMap(FlagSeq, results)
  }

  lemma {:induction false} AuditLength(results: seq<RoutedRow>)
    ensures |FlatMap(FlagSeq, results)| <= |results|
  {
    if results != [] {
      AuditLength(results[..|results| - 1]);
    }
  }

  /** Auditing a concatenation concatenates the audits: each result
      contributes its own entry, in its own place. */
  lemma AuditAppend(a: seq<RoutedRow>, b: seq<RoutedRow>)
    ensures Audit(a + b) == Audit(a) + Audit(b)
  {
    FlatMapAppend(FlagSeq, a, b);
  }

  /** Every entry disagrees with the result it came from and copies that
      result's query, label and model. */
  lemma {:induction false} AuditEntriesFromInputs(results: seq<RoutedRow>, j: nat)
    requires j < |Audit(results)|
    ensures Audit(results)[j].expected != Audit(results)[j].actual
    ensures exists i :: 0 <= i < |results| && Flag(results[i]) == Some(Audit(results)[j])
    decreases |results|
  {
    var init := results[..|results| - 1];
    var last := results[|results| - 1];
    if j < |Audit(init)| {
      AuditEntriesFromInputs(init, j);
      var i :| 0 <= i < |init| && Flag(init[i]) == Some(Audit(init)[j]);
      assert results[i] == init[i];
    } else {
      assert Flag(last) == Some(Audit(results)[j]);
    }
  }

  /** Results whose query has none of the four phrases never appear. */
  lemma UnremarkableQueriesNeverFlagged(results: seq<RoutedRow>, j: nat)
    requires j < |Audit(results)|
    ensures SuggestsAdvanced(Audit(results)[j].query) || SuggestsSimple(Audit(results)[j].query)
  {
    AuditEntriesFromInputs(results, j);
  }

  /** The loop of `analyze_misclassifications`, appending one entry per
      flagged result. */
  method AnalyzeMisclassifications(results: seq<RoutedRow>) returns (misclassifications: seq<Misclassification>)
    ensures misclassifications == Audit(results)
  {
    misclassifications := [];
    for i := 0 to |results|
      invariant misclassifications == Audit(results[..i])
    {
      var row := results[i];
      assert results[..i + 1][..i] == results[..i];
      if SuggestsAdvanced(row.query) && row.classification != "advanced" {
        misclassifications := misclassifications + [Misclassification(row.query, "advanced", row.classification, row.modelUsed)];
      } else if SuggestsSimple(row.query) && row.classification != "simple" {
        misclassifications := misclassifications + [Misclassification(row.query, "simple", row.classification, row.modelUsed)];
      }
    }
    assert results[..|results|] == results;
  }
}
