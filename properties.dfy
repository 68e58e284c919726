/**
 * What the results printer guarantees over a whole list of suites: when it
 * succeeds, the column header comes first and only once, one line follows
 * per suite, and the counter is the field-wise sum of the suites'
 * contributions; when a suite lacks an attribute, the run stops there.
 */
module DisplayTestsProperties {
  import opened Wrappers
  import opened Format
  import opened DisplayTests

  predicate AllComplete(suites: seq<Suite>) {
    forall i :: 0 <= i < |suites| ==> Complete(suites[i])
  }

  /** The lines of `Step`, spelled out for a complete suite. */
  lemma {:induction false} StepLines(count: Option<Totals>, suite: Suite)
    requires Complete(suite)
    ensures Step(count, suite).lines == (if count.None? then [Header()] else []) + [RowOf(suite)]
  {
    StepContribution(count, suite);
    var lines := Step(count, suite).lines;
    var expected := (if count.None? then [Header()] else []) + [RowOf(suite)];
    assert |lines| == |expected|;
    assert forall k :: 0 <= k < |lines| ==> lines[k] == expected[k];
  }

  /** The lines of `Step` for a suite that lacks an attribute: the header, if it is the first call. */
  lemma {:induction false} StepFails(count: Option<Totals>, suite: Suite)
    requires !Complete(suite)
    ensures Step(count, suite) == Output(if count.None? then [Header()] else [], Failure(KeyError(MissingKey(suite))))
  {
    var lines := Step(count, suite).lines;
    if count.None? {
      assert lines == [Header()];
    }
  }

  /** `Rows` has one line per suite. */
  lemma {:induction false} RowsLength(suites: seq<Suite>)
    requires AllComplete(suites)
    ensures |Rows(suites)| == |suites|
    decreases |suites|
  {
    if suites != [] {
      var prefix := suites[..|suites| - 1];
      assert AllComplete(prefix) by {
        assert forall i :: 0 <= i < |prefix| ==> prefix[i] == suites[i];
      }
      RowsLength(prefix);
    }
  }

  /** `Rows` holds one line per suite, in order: line `i` is the row of suite `i`. */
  lemma {:induction false} RowsAt(suites: seq<Suite>, i: nat)
    requires AllComplete(suites) && i < |suites|
    ensures |Rows(suites)| == |suites| && Rows(suites)[i] == RowOf(suites[i])
    decreases |suites|
  {
    RowsLength(suites);
    var prefix := suites[..|suites| - 1];
    assert AllComplete(prefix) by {
      assert forall j :: 0 <= j < |prefix| ==> prefix[j] == suites[j];
    }
    RowsLength(prefix);
    if i < |suites| - 1 {
      RowsAt(prefix, i);
      assert Rows(suites)[i] == Rows(prefix)[i];
    }
  }

  /**
   * Fold equals sum: over complete suites the loop prints the header once,
   * then one row per suite, and leaves the counter equal to the field-wise
   * sum of the contributions. With no suites nothing is printed and the
   * counter is never created.
   */
  lemma {:induction false} RunComplete(suites: seq<Suite>)
    requires AllComplete(suites)
    ensures Run(suites).lines == (if suites == [] then [] else [Header()]) + Rows(suites)
    ensures Run(suites).state == Success(if suites == [] then None else Some(Total(suites)))
    decreases |suites|
  {
    if suites != [] {
      var prefix := suites[..|suites| - 1];
      assert AllComplete(prefix) by {
        assert forall i :: 0 <= i < |prefix| ==> prefix[i] == suites[i];
      }
      RunComplete(prefix);
      RunCompleteStep(suites);
    }
  }

  /** The inductive step of `RunComplete`: one more complete suite adds its row and its contribution. */
  lemma {:induction false} RunCompleteStep(suites: seq<Suite>)
    requires suites != [] && AllComplete(suites)
    requires var prefix := suites[..|suites| - 1];
      && AllComplete(prefix)
      && Run(prefix).lines == (if prefix == [] then [] else [Header()]) + Rows(prefix)
      && Run(prefix).state == Success(if prefix == [] then None else Some(Total(prefix)))
    ensures Run(suites).lines == [Header()] + Rows(suites)
    ensures Run(suites).state == Success(Some(Total(suites)))
  {
    var prefix, last := suites[..|suites| - 1], suites[|suites| - 1];
    var count := if prefix == [] then None else Some(Total(prefix));
    StepContribution(count, last);
    StepLines(count, last);
    var step := Step(count, last);
    assert Run(suites) == Trace(Run(prefix).lines + step.lines, Success(Some(step.outcome.value)));
    AppendRow(Run(prefix).lines, step.lines, Rows(prefix), RowOf(last), prefix == []);
  }

  /** The header comes first whether it was printed before the last row or with it. */
  lemma {:induction false} AppendRow(before: seq<string>, after: seq<string>, rows: seq<string>, row: string, first: bool)
    requires before == (if first then [] else [Header()]) + rows
    requires after == (if first then [Header()] else []) + [row]
    requires first ==> rows == []
    ensures before + after == [Header()] + (rows + [row])
  {
  }

  /** The loop completes without an exception exactly when every suite has the attributes it reads. */
  lemma {:induction false} RunSucceedsIff(suites: seq<Suite>)
    ensures Run(suites).state.Success? <==> AllComplete(suites)
    decreases |suites|
  {
    if suites != [] {
      var prefix := suites[..|suites| - 1];
      assert forall i :: 0 <= i < |prefix| ==> prefix[i] == suites[i];
      RunSucceedsIff(prefix);
    }
  }

  /**
   * A suite that lacks an attribute ends the run with the KeyError of the
   * first attribute read that is missing, after the header and the rows of
   * the suites before it; the suites after it are never looked at.
   */
  lemma {:induction false} RunFailsAtFirstIncomplete(suites: seq<Suite>, k: nat)
    requires k < |suites| && !Complete(suites[k])
    requires AllComplete(suites[..k])
    ensures Run(suites) == Trace([Header()] + Rows(suites[..k]), Failure(KeyError(MissingKey(suites[k]))))
  {
    var prefix, upTo := suites[..k], suites[..k + 1];
    assert upTo[..k] == prefix && upTo[k] == suites[k];
    RunComplete(prefix);
    var count := if prefix == [] then None else Some(Total(prefix));
    assert Run(prefix).state == Success(count);
    StepFails(count, suites[k]);
    var stepLines := Step(count, suites[k]).lines;
    assert Run(upTo) == Trace(Run(prefix).lines + stepLines, Failure(KeyError(MissingKey(suites[k]))));
    assert Run(prefix).lines + stepLines == [Header()] + Rows(prefix);
    RunStopsAtFailure(suites, k + 1);
  }

  /**
   * A suite whose `tests` is zero or negative is a header row: it prints its
   * name alone, only `tests` changes in the counter, and its count attributes
   * are never read, so their absence is no error.
   */
  lemma {:induction false} HeaderRowStep(count: Option<Totals>, suite: Suite)
    requires suite.name.Some? && suite.tests.Some? && suite.tests.value <= 0
    ensures var c := if count.None? then Zero else count.value;
      && Step(count, suite).outcome == Success(c.(tests := c.tests + suite.tests.value))
      && Step(count, suite).lines == (if count.None? then [Header()] else []) + [suite.name.value]
  {
    StepContribution(count, suite);
    StepLines(count, suite);
  }

  /**
   * A step keeps the balance `succeeded + failed + skipped + errors == tests`
   * exactly when the suite's `tests` is not negative: a data row always
   * balances, a header row with negative `tests` breaks it.
   */
  lemma {:induction false} StepBalance(c: Totals, suite: Suite)
    requires Complete(suite) && Balanced(c)
    ensures Balanced(Add(c, Contribution(suite))) <==> suite.tests.value >= 0
  {
  }

  /** Over suites whose `tests` are not negative, the totals balance. */
  lemma {:induction false} TotalBalanced(suites: seq<Suite>)
    requires AllComplete(suites)
    requires forall i :: 0 <= i < |suites| ==> suites[i].tests.value >= 0
    ensures Balanced(Total(suites))
    decreases |suites|
  {
    if suites != [] {
      var prefix := suites[..|suites| - 1];
      assert forall i :: 0 <= i < |prefix| ==> prefix[i] == suites[i];
      TotalBalanced(prefix);
      StepBalance(Total(prefix), suites[|suites| - 1]);
    }
  }

  /**
   * The program prints a summary exactly when the list is non-empty and every
   * suite is complete; the summary then holds the field-wise sums.
   */
  lemma {:induction false} ProgramOutcome(suites: seq<Suite>)
    ensures Program(suites).outcome.Success? <==> suites != [] && AllComplete(suites)
    ensures suites != [] && AllComplete(suites) ==>
      Program(suites) == Output([Header()] + Rows(suites) + Summary(Total(suites)), Success(Total(suites)))
  {
    RunSucceedsIff(suites);
    if AllComplete(suites) {
      RunComplete(suites);
    }
  }

  /**
   * A line of the summary block reads back: it starts with its 11-character
   * caption, and what follows is the total, right-aligned to at least four
   * characters and never truncated.
   */
  lemma {:induction false} SummaryLineReadsBack(caption: string, value: int)
    requires |caption| == 11
    ensures |SummaryLine(caption, value)| >= 15 && SummaryLine(caption, value)[..11] == caption
    ensures ParseInt(TrimLeft(SummaryLine(caption, value)[11..])) == Some(value)
  {
    PadLeftIntRoundTrip(value, 4);
    assert SummaryLine(caption, value)[11..] == Pad4(value);
  }

  /** An empty report prints nothing and fails at the summary: no counter was ever created. */
  lemma {:induction false} ProgramEmpty()
    ensures Program([]) == Output([], Failure(NotSubscriptable))
  {
  }

  /**
   * Splitting a row built from cells: the first three cells hold no `|`,
   * and the fourth cell followed by the name trims to a number text `e`, a
   * space and the name.
   */
  lemma {:induction false} SplitRowOfCells(c1: string, c2: string, c3: string, c4: string, name: string, e: string)
    requires '|' !in c1 && '|' !in c2 && '|' !in c3 && ' ' !in e
    requires TrimLeft(c4 + " " + name) == e + " " + name
    ensures SplitRow(c1 + ("|" + (c2 + ("|" + (c3 + ("|" + (c4 + " " + name))))))) == Some(RowCells(c1, c2, c3, e, name))
  {
    var rest3 := c4 + " " + name;
    var rest2 := c3 + ("|" + rest3);
    var rest1 := c2 + ("|" + rest2);
    var line := c1 + ("|" + rest1);
    SplitAtBar(c1, rest1);
    SplitAtBar(c2, rest2);
    SplitAtBar(c3, rest3);
    SplitFirstAt(e, ' ', name);
    SplitRowOfSplits(line, c1, rest1, c2, rest2, c3, rest3, e, name);
  }

  lemma {:induction false} SplitAtBar(cell: string, rest: string)
    requires '|' !in cell
    ensures SplitFirst(cell + ("|" + rest), '|') == Some((cell, rest))
  {
    assert cell + ("|" + rest) == cell + ['|'] + rest;
    SplitFirstAt(cell, '|', rest);
  }

  /** `SplitRow` when each of its splits is known. */
  lemma {:induction false} SplitRowOfSplits(line: string, c1: string, rest1: string, c2: string, rest2: string,
                                            c3: string, rest3: string, e: string, name: string)
    requires SplitFirst(line, '|') == Some((c1, rest1))
    requires SplitFirst(rest1, '|') == Some((c2, rest2))
    requires SplitFirst(rest2, '|') == Some((c3, rest3))
    requires SplitFirst(TrimLeft(rest3), ' ') == Some((e, name))
    ensures SplitRow(line) == Some(RowCells(c1, c2, c3, e, name))
  {
  }

  /** Reading back a row whose cells are known to split and parse. */
  lemma {:induction false} ParseRowOfCells(line: string, cells: RowCells, fields: RowFields)
    requires SplitRow(line) == Some(cells)
    requires ParseInt(TrimLeft(cells.ok)) == Some(fields.ok)
    requires ParseInt(TrimLeft(cells.failed)) == Some(fields.failed)
    requires ParseInt(TrimLeft(cells.skipped)) == Some(fields.skipped)
    requires ParseInt(cells.errors) == Some(fields.errors)
    requires cells.name == fields.name
    ensures ParseRow(line) == Some(fields)
  {
  }

  /** The last column of a row, with the name after it, trims to the number, a space and the name. */
  lemma {:induction false} TrimLastCell(errors: int, name: string)
    ensures TrimLeft(Pad3(errors) + " " + name) == IntToString(errors) + " " + name
  {
    var e := IntToString(errors);
    var p := Pad3(errors);
    var pad := Spaces(|p| - |e|);
    SpacesAt(|pad|);
    assert p + " " + name == pad + (e + " " + name);
    TrimLeftPadded(pad, e + " " + name);
  }

  lemma {:induction false} RowAssociates(c1: string, c2: string, c3: string, c4: string, name: string)
    ensures c1 + "|" + c2 + "|" + c3 + "|" + c4 + " " + name
         == c1 + ("|" + (c2 + ("|" + (c3 + ("|" + (c4 + " " + name))))))
  {
  }

  /**
   * The column header lines up with the data rows: when every count fits its
   * three-character column, a row has its `|` separators where the header
   * has them, and the name starts after the header's last column.
   */
  lemma {:induction false} HeaderAligned(ok: int, failed: int, skipped: int, errors: int, name: string)
    requires -99 <= ok <= 999 && -99 <= failed <= 999 && -99 <= skipped <= 999 && -99 <= errors <= 999
    ensures |Header()| == 15 && Header()[3] == '|' && Header()[7] == '|' && Header()[11] == '|'
    ensures |DataRow(ok, failed, skipped, errors, name)| == 16 + |name|
    ensures DataRow(ok, failed, skipped, errors, name)[3] == '|'
    ensures DataRow(ok, failed, skipped, errors, name)[7] == '|'
    ensures DataRow(ok, failed, skipped, errors, name)[11] == '|'
    ensures DataRow(ok, failed, skipped, errors, name)[15] == ' '
  {
    Pad3Width(ok);
    Pad3Width(failed);
    Pad3Width(skipped);
    Pad3Width(errors);
    RowAssociates(Pad3(ok), Pad3(failed), Pad3(skipped), Pad3(errors), name);
  }

  /** A data row reads back as the five values it was built from: no column is truncated. */
  lemma {:induction false} DataRowRoundTrip(ok: int, failed: int, skipped: int, errors: int, name: string)
    ensures ParseRow(DataRow(ok, failed, skipped, errors, name)) == Some(RowFields(ok, failed, skipped, errors, name))
  {
    PadLeftIntRoundTrip(ok, 3);
    PadLeftIntRoundTrip(failed, 3);
    PadLeftIntRoundTrip(skipped, 3);
    TrimLastCell(errors, name);
    RowAssociates(Pad3(ok), Pad3(failed), Pad3(skipped), Pad3(errors), name);
    var e := IntToString(errors);
    IntToStringChars(errors);
    SplitRowOfCells(Pad3(ok), Pad3(failed), Pad3(skipped), Pad3(errors), name, e);
    ParseIntOfInt(errors);
    ParseRowOfCells(DataRow(ok, failed, skipped, errors, name),
                    RowCells(Pad3(ok), Pad3(failed), Pad3(skipped), e, name),
                    RowFields(ok, failed, skipped, errors, name));
  }

  /**
   * The one-suite report with four tests, one failed and one skipped: the
   * first call prints the column header and the row, and creates the
   * counter with those counts.
   */
  lemma {:induction false} MathExample()
    ensures Step(None, Suite(Some("Math"), Some(4), Some(1), Some(0), Some(1)))
         == Output([Header(), "  2|  1|  1|  0 Math"], Success(Totals(4, 2, 1, 1, 0)))
  {
    var math := Suite(Some("Math"), Some(4), Some(1), Some(0), Some(1));
    StepContribution(None, math);
    StepLines(None, math);
    assert RowOf(math) == DataRow(2, 1, 1, 0, "Math");
    MathRow();
  }

  lemma {:induction false} MathRow()
    ensures DataRow(2, 1, 1, 0, "Math") == "  2|  1|  1|  0 Math"
  {
    Pad3Digit(2); Pad3Digit(1); Pad3Digit(0);
    assert Pad3(2) == "  2" && Pad3(1) == "  1" && Pad3(0) == "  0";
    assert DataRow(2, 1, 1, 0, "Math") == "  2" + "|" + "  1" + "|" + "  1" + "|" + "  0" + " " + "Math";
    assert "  2" + "|" + "  1" + "|" + "  1" + "|" + "  0" + " " + "Math" == "  2|  1|  1|  0 Math";
  }

  /** The summary block printed for the counts of `MathExample`. */
  lemma {:induction false} MathSummary()
    ensures Summary(Totals(4, 2, 1, 1, 0))
         == ["Results:", "Tests:        4", "Succeeded:    2", "Skipped:      1",
             "Failed:       1", "Errors:       0"]
  {
    Pad4Digit(4); Pad4Digit(2); Pad4Digit(1); Pad4Digit(0);
    assert Pad4(4) == "   4" && Pad4(2) == "   2" && Pad4(1) == "   1" && Pad4(0) == "   0";
    assert "Tests:     " + "   4" == "Tests:        4";
    assert "Succeeded: " + "   2" == "Succeeded:    2";
    assert "Skipped:   " + "   1" == "Skipped:      1";
    assert "Failed:    " + "   1" == "Failed:       1";
    assert "Errors:    " + "   0" == "Errors:       0";
  }

  /** Inconsistent counts are not clamped: more failures than tests print a negative OK column. */
  lemma {:induction false} NegativeOkExample()
    ensures Step(None, Suite(Some("x"), Some(1), Some(2), Some(0), Some(0)))
         == Output([Header(), " -1|  2|  0|  0 x"], Success(Totals(1, -1, 0, 2, 0)))
  {
    var suite := Suite(Some("x"), Some(1), Some(2), Some(0), Some(0));
    StepContribution(None, suite);
    StepLines(None, suite);
    Pad3Digit(2); Pad3Digit(0);
    assert Pad3(2) == "  2" && Pad3(0) == "  0";
    assert Pad3(-1) == " -1" by {
      assert IntToString(-1) == "-1";
      assert Spaces(1) == [' '];
    }
    assert DataRow(-1, 2, 0, 0, "x") == " -1" + "|" + "  2" + "|" + "  0" + "|" + "  0" + " " + "x";
    assert " -1" + "|" + "  2" + "|" + "  0" + "|" + "  0" + " " + "x" == " -1|  2|  0|  0 x";
    assert RowOf(suite) == " -1|  2|  0|  0 x";
  }

  lemma {:induction false} Pad3Digit(d: nat)
    requires d < 10
    ensures Pad3(d) == [' ', ' ', DigitChar(d)]
  {
    assert IntToString(d) == [DigitChar(d)];
    assert Spaces(2) == [' ', ' '] by {
      assert Spaces(1) == [' '];
    }
  }

  lemma {:induction false} Pad4Digit(d: nat)
    requires d < 10
    ensures Pad4(d) == [' ', ' ', ' ', DigitChar(d)]
  {
    assert IntToString(d) == [DigitChar(d)];
    assert Spaces(3) == [' ', ' ', ' '] by {
      assert Spaces(1) == [' '];
      assert Spaces(2) == [' ', ' '];
    }
  }
}
