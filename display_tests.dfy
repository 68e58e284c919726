/**
 * The results printer of displayTests.py: one call per `<testsuite>` element,
 * threading a five-field counter through the suites, then a summary block.
 *
 * `Step`, `Run` and `Program` are the value-level specification; `Counter`,
 * `PrintResults` and `DisplayTests` are the imperative program, which updates
 * the counter object in place and is proved to follow the specification.
 * Printing to standard output is modelled as appending lines to a sequence.
 */
module DisplayTests {
  import opened Wrappers
  import opened Format

  /**
   * The attributes of one `<testsuite>` element that the printer reads,
   * already converted to integers. `None` is an absent attribute.
   */
  datatype Suite = Suite(
    name: Option<string>,
    tests: Option<int>,
    failures: Option<int>,
    errors: Option<int>,
    skipped: Option<int>)

  /** The value of the counter dictionary. */
  datatype Totals = Totals(tests: int, succeeded: int, skipped: int, failed: int, errors: int)

  /** The exceptions the printer can end with. */
  datatype Fault =
    | KeyError(key: string)   // a suite lacks an attribute that is read
    | NotSubscriptable        // the summary indexes a counter that was never created

  /** The result of a call or of the whole run: the lines printed and how it ended. */
  datatype Output = Output(lines: seq<string>, outcome: Result<Totals, Fault>)

  /** The state between two calls of the driver loop: lines so far and the counter variable. */
  datatype Trace = Trace(lines: seq<string>, state: Result<Option<Totals>, Fault>)

  /** A data row split back into its columns. */
  datatype RowFields = RowFields(ok: int, failed: int, skipped: int, errors: int, name: string)

  /** The column header, printed before the first row. */
  function Header(): (h: string) {
    " OK| Fd| Sk|Err"
  }

  const Zero: Totals := Totals(0, 0, 0, 0, 0)

  /** The table row of a suite that has tests. */
  function DataRow(ok: int, failed: int, skipped: int, errors: int, name: string): (line: string) {
    Pad3(ok) + "|" + Pad3(failed) + "|" + Pad3(skipped) + "|" + Pad3(errors) + " " + name
  }

  /** The four columns of a row and the name after them, as text. */
  datatype RowCells = RowCells(ok: string, failed: string, skipped: string, errors: string, name: string)

  /**
   * Splits a row at its three `|` separators and at the first space after the
   * number in the last column.
   */
  function SplitRow(line: string): (r: Option<RowCells>) {
    var first :- SplitFirst(line, '|');
    var second :- SplitFirst(first.1, '|');
    var third :- SplitFirst(second.1, '|');
    var last :- SplitFirst(TrimLeft(third.1), ' ');
    Some(RowCells(first.0, second.0, third.0, last.0, last.1))
  }

  /** Reads a data row back into its five columns, the inverse of `DataRow`. */
  function ParseRow(line: string): (r: Option<RowFields>) {
    var cells :- SplitRow(line);
    var ok :- ParseInt(TrimLeft(cells.ok));
    var failed :- ParseInt(TrimLeft(cells.failed));
    var skipped :- ParseInt(TrimLeft(cells.skipped));
    var errors :- ParseInt(cells.errors);
    Some(RowFields(ok, failed, skipped, errors, cells.name))
  }

  // ---------------------------------------------------------------------------
  // Reference definitions: what a well-formed suite contributes and prints.

  /** Every attribute the printer reads from this suite is present. */
  predicate Complete(s: Suite) {
    && s.name.Some?
    && s.tests.Some?
    && (s.tests.value > 0 ==> s.failures.Some? && s.errors.Some? && s.skipped.Some?)
  }

  /** The first attribute, in reading order, that an incomplete suite lacks. */
  function MissingKey(s: Suite): (key: string)
    requires !Complete(s)
  {
    if s.name.None? then "name"
    else if s.tests.None? then "tests"
    else if s.failures.None? then "failures"
    else if s.errors.None? then "errors"
    else "skipped"
  }

  /** Field-wise sum of two counters. */
  function Add(a: Totals, b: Totals): (sum: Totals) {
    Totals(a.tests + b.tests, a.succeeded + b.succeeded, a.skipped + b.skipped,
           a.failed + b.failed, a.errors + b.errors)
  }

  /**
   * What one suite adds to each field: a suite with tests adds its counts and
   * the remainder as successes; any other suite is a header and adds its
   * `tests` value only.
   */
  function Contribution(s: Suite): (c: Totals)
    requires Complete(s)
  {
    var n := s.tests.value;
    if n > 0 then
      Totals(n, n - (s.failures.value + s.skipped.value + s.errors.value),
             s.skipped.value, s.failures.value, s.errors.value)
    else
      Totals(n, 0, 0, 0, 0)
  }

  /** The line one complete suite prints after the optional column header. */
  function RowOf(s: Suite): (line: string)
    requires Complete(s)
  {
    var c := Contribution(s);
    if s.tests.value > 0 then DataRow(c.succeeded, c.failed, c.skipped, c.errors, s.name.value)
    else s.name.value
  }

  /** The lines the suites print after the column header, one per suite. */
  function Rows(suites: seq<Suite>): (lines: seq<string>)
    requires forall i :: 0 <= i < |suites| ==> Complete(suites[i])
  {
    if suites == [] then [] else Rows(suites[..|suites| - 1]) + [RowOf(suites[|suites| - 1])]
  }

  /** Field-wise sum of the contributions of all suites. */
  function Total(suites: seq<Suite>): (t: Totals)
    requires forall i :: 0 <= i < |suites| ==> Complete(suites[i])
  {
    if suites == [] then Zero else Add(Total(suites[..|suites| - 1]), Contribution(suites[|suites| - 1]))
  }

  /** The balance the source comment expects: every test is exactly one of the four outcomes. */
  predicate Balanced(t: Totals) {
    t.succeeded + t.failed + t.skipped + t.errors == t.tests
  }

  // ---------------------------------------------------------------------------
  // Value-level specification of print_results and of the driver.

  /**
   * One call of print_results on counter `count` (`None` before the first
   * call). Attributes are read in the source's order, so a missing one ends
   * the call with the KeyError of the first one read.
   */
  function Step(count: Option<Totals>, suite: Suite): (r: Output)
    ensures |r.lines| == (if count.None? then 1 else 0) + (if r.outcome.Success? then 1 else 0)
    ensures count.None? ==> r.lines[0] == Header()
    ensures r.outcome.Success? <==> Complete(suite)
    ensures r.outcome.Failure? ==> r.outcome.error == KeyError(MissingKey(suite))
  {
    var header := if count.None? then [Header()] else [];
    var c := if count.None? then Zero else count.value;
    if suite.name.None? then Output(header, Failure(KeyError("name")))
    else if suite.tests.None? then Output(header, Failure(KeyError("tests")))
    else
      var name, n := suite.name.value, suite.tests.value;
      if n > 0 then
        if suite.failures.None? then Output(header, Failure(KeyError("failures")))
        else if suite.errors.None? then Output(header, Failure(KeyError("errors")))
        else if suite.skipped.None? then Output(header, Failure(KeyError("skipped")))
        else
          var failed, errors, skipped := suite.failures.value, suite.errors.value, suite.skipped.value;
          var ok := n - (failed + skipped + errors);
          Output(header + [DataRow(ok, failed, skipped, errors, name)],
                 Success(Totals(c.tests + n, c.succeeded + ok, c.skipped + skipped,
                                c.failed + failed, c.errors + errors)))
      else
        Output(header + [name], Success(c.(tests := c.tests + n)))
  }

  /** A complete suite adds its contribution to the counter and prints its row. */
  lemma {:induction false} StepContribution(count: Option<Totals>, suite: Suite)
    requires Complete(suite)
    ensures Step(count, suite).outcome == Success(Add(if count.None? then Zero else count.value, Contribution(suite)))
    ensures Step(count, suite).lines[|Step(count, suite).lines| - 1] == RowOf(suite)
  {
  }

  /** The driver loop over `suites` in document order, starting from no counter. */
  function Run(suites: seq<Suite>): (r: Trace) {
    if suites == [] then Trace([], Success(None))
    else
      var before := Run(suites[..|suites| - 1]);
      if before.state.Failure? then before
      else
        var step := Step(before.state.value, suites[|suites| - 1]);
        Trace(before.lines + step.lines,
              if step.outcome.Success? then Success(Some(step.outcome.value))
              else Failure(step.outcome.error))
  }

  /** The summary block: the five totals, each right-aligned to width 4. */
  function Summary(t: Totals): (lines: seq<string>) {
    [ "Results:",
      SummaryLine("Tests:     ", t.tests),
      SummaryLine("Succeeded: ", t.succeeded),
      SummaryLine("Skipped:   ", t.skipped),
      SummaryLine("Failed:    ", t.failed),
      SummaryLine("Errors:    ", t.errors) ]
  }

  /** One line of the summary block: its caption, then `{value:>4}`. */
  function SummaryLine(caption: string, value: int): (line: string) {
    caption + Pad4(value)
  }

  /** The whole program after parsing: the loop, then the summary of the counter. */
  function Program(suites: seq<Suite>): (r: Output) {
    var run := Run(suites);
    match run.state
    case Failure(e) => Output(run.lines, Failure(e))
    case Success(None) => Output(run.lines, Failure(NotSubscriptable))
    case Success(Some(t)) => Output(run.lines + Summary(t), Success(t))
  }

  // ---------------------------------------------------------------------------
  // The imperative program.

  /** The counter dictionary, updated in place by every call. */
  class Counter {
    var tests: int
    var succeeded: int
    var skipped: int
    var failed: int
    var errors: int

    constructor ()
      ensures Value() == Zero
    {
      tests, succeeded, skipped, failed, errors := 0, 0, 0, 0, 0;
    }

    function Value(): (t: Totals)
      reads this
    {
      Totals(tests, succeeded, skipped, failed, errors)
    }
  }

  /** The value held by the counter variable, `None` while it is unset. */
  function Snapshot(count: Counter?): (r: Option<Totals>)
    reads count
  {
    if count == null then None else Some(count.Value())
  }

  /**
   * print_results: creates the counter on the first call, updates it in place
   * and returns it. A KeyError leaves behind whatever was already updated: the
   * `tests` field when the suite lacks one of its three count attributes.
   */
  method PrintResults(suite: Suite, count: Counter?, output: seq<string>)
    returns (result: Result<Counter, Fault>, output': seq<string>)
    modifies count
    ensures var step := Step(old(Snapshot(count)), suite);
      && output' == output + step.lines
      && result.Success? == step.outcome.Success?
      && (result.Success? ==> result.value.Value() == step.outcome.value)
      && (result.Failure? ==> result.error == step.outcome.error)
    ensures result.Success? && count != null ==> result.value == count
    ensures result.Success? && count == null ==> fresh(result.value)
    ensures result.Failure? && count != null ==>
      && count.tests == old(count.tests) + (if suite.name.Some? && suite.tests.Some? then suite.tests.value else 0)
      && count.succeeded == old(count.succeeded) && count.skipped == old(count.skipped)
      && count.failed == old(count.failed) && count.errors == old(count.errors)
  {
    output' := output;
    var counter := count;
    if counter == null {
      output' := output' + [Header()];
      counter := new Counter();
    }
    if suite.name.None? {
      return Failure(KeyError("name")), output';
    }
    var name := suite.name.value;
    if suite.tests.None? {
      return Failure(KeyError("tests")), output';
    }
    var numTests := suite.tests.value;
    counter.tests := counter.tests + numTests;
    if numTests > 0 {
      if suite.failures.None? {
        return Failure(KeyError("failures")), output';
      }
      if suite.errors.None? {
        return Failure(KeyError("errors")), output';
      }
      if suite.skipped.None? {
        return Failure(KeyError("skipped")), output';
      }
      var failed, errors, skipped := suite.failures.value, suite.errors.value, suite.skipped.value;
      counter.failed := counter.failed + failed;
      counter.errors := counter.errors + errors;
      counter.skipped := counter.skipped + skipped;
      var ok := numTests - (failed + skipped + errors);
      counter.succeeded := counter.succeeded + ok;
      output' := output' + [DataRow(ok, failed, skipped, errors, name)];
    } else {
      output' := output' + [name];
    }
    result := Success(counter);
  }

  /** Once `Run` has failed on a prefix, the rest of the suites change nothing. */
  lemma {:induction false} RunStopsAtFailure(suites: seq<Suite>, k: nat)
    requires k <= |suites|
    requires Run(suites[..k]).state.Failure?
    ensures Run(suites) == Run(suites[..k])
    decreases |suites| - k
  {
    if k < |suites| {
      assert suites[..k + 1][..k] == suites[..k];
      RunStopsAtFailure(suites, k + 1);
    } else {
      assert suites[..k] == suites;
    }
  }

  /**
   * The driver: the loop of displayTests.py:77-79 followed by the summary.
   * Its output and outcome are exactly those of `Program`.
   */
  method DisplayTests(suites: seq<Suite>) returns (outcome: Result<Totals, Fault>, output: seq<string>)
    ensures Output(output, outcome) == Program(suites)
  {
    var count: Counter? := null;
    output := [];
    var i := 0;
    while i < |suites|
      invariant 0 <= i <= |suites|
      invariant count != null ==> fresh(count)
      invariant Run(suites[..i]) == Trace(output, Success(Snapshot(count)))
    {
      assert suites[..i + 1][..i] == suites[..i];
      var result;
      result, output := PrintResults(suites[i], count, output);
      if result.Failure? {
        RunStopsAtFailure(suites, i + 1);
        return Failure(result.error), output;
      }
      count := result.value;
      i := i + 1;
    }
    assert suites[..i] == suites;
    if count == null {
      return Failure(NotSubscriptable), output;
    }
    outcome := Success(count.Value());
    output := output + Summary(count.Value());
  }
}
