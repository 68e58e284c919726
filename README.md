# dsTestSummary results printer, in Dafny

`displayTests.py` reads a JUnit XML report and prints one table line per
`<testsuite>` element, then a summary block. This project models the part of
it that does the counting and formatting:

- `print_results`. On its first call it prints the column header ` OK| Fd| Sk|Err`
  and creates a five-field counter (`tests`, `succeeded`, `skipped`, `failed`,
  `errors`). On every call it adds the suite's `tests` to the counter. A suite
  with `tests > 0` also adds its `failures`, `errors` and `skipped`, and adds
  `ok = tests - (failures + skipped + errors)` to `succeeded`, with no clamping.
  It then prints `{ok:>3}|{failed:>3}|{skipped:>3}|{errors:>3} {name}`. Any
  other suite is a header row, and only its name is printed.
- The driver loop. It threads the counter through the suites in document order,
  starting from no counter, and then prints the five totals, each right-aligned
  to width 4.

Modules:

- `Wrappers` (`wrappers.dfy`): `Option` and `Result`.
- `Format` (`format.dfy`): decimal rendering of integers, right alignment to a
  minimum width (`Pad3`, `Pad4`), and the parsing partners used to prove that
  nothing is lost: `ParseInt`, `TrimLeft` and `SplitFirst`.
- `DisplayTests` (`display_tests.dfy`) holds the model itself:
  - the value-level specification: `Step` is one call of `print_results`,
    `Run` is the loop and `Program` is the loop plus the summary;
  - reference definitions that `Step` (`Contribution`, `RowOf`) and `Run`
    (`Total`, `Rows`) are proved against;
  - the imperative program: a `Counter` class updated in place, the method
    `PrintResults`, and the driver method `DisplayTests`, proved to produce
    exactly what `Program` specifies.
- `DisplayTestsProperties` (`properties.dfy`): the lemmas over whole runs.

Suite attributes are already-parsed integers. A missing attribute is `None`.
Reading a missing attribute ends the run with `KeyError`, in the order in which
the source reads them: `name`, `tests`, then `failures`, `errors` and `skipped`.
Printing is modelled as appending lines to a sequence.

The model follows the code in these points:

- The column header is printed on the first call, whatever that suite holds.
  It is not delayed until the first suite with tests.
- A header row still adds its `tests` value to the counter's `tests` field.
- Any suite with `tests <= 0` is a header row, not only `tests == 0`.
- An empty suite list prints no header. The summary then subscripts a counter
  that was never created and fails with a `TypeError` (the model's
  `NotSubscriptable`). It does not print a
  summary of zeros.
- A suite with 4 tests, 1 failure and 1 skipped prints `  2|  1|  1|  0 Math`,
  because `{2:>3}` pads to three characters.

## Model

| member | source | states |
|---|---|---|
| `DisplayTests.Step` | displayTests.py:35-65 | one call prints the header iff no counter exists yet, then exactly one line iff the call succeeds; it succeeds iff the suite has every attribute that is read; otherwise it fails with the KeyError of the first missing attribute in reading order |
| `DisplayTests.Header` | displayTests.py:39 | the column header; the body is the model. `HeaderAligned` states that its column separators line up with every data row whose counts fit three characters |
| `DisplayTests.DataRow` | displayTests.py:61 | the table row: the four counts right-aligned to width 3 and separated by bars, then a space and the name; the body is the model. `DataRowRoundTrip` states that it reads back, `HeaderAligned` that it lines up with the header |
| `DisplayTests.StepContribution` | displayTests.py:40-61 | for a complete suite, the new counter is the old one (zeroed on the first call) plus the suite's contribution: `tests` always; for `tests > 0` also failures, errors, skipped and the unclamped `ok`; and the line printed is the suite's row |
| `DisplayTests.PrintResults` | displayTests.py:35-65 | the method prints and updates the counter object exactly as `Step` specifies; it returns the same object it was given, or a fresh one on the first call; on a KeyError only `tests` may already have been added |
| `DisplayTests.Counter.constructor` | displayTests.py:40-46 | a new counter has all five fields zero |
| `DisplayTests.Run` | displayTests.py:77-79 | the driver loop, threading the counter from no counter through the suites; the body is the model. `RunComplete`, `RunSucceedsIff`, `RunFailsAtFirstIncomplete` and `RunStopsAtFailure` state it |
| `DisplayTests.Summary` | displayTests.py:80-87 | the summary block of five captioned totals; the body is the model. `SummaryLineReadsBack` and `MathSummary` state it |
| `DisplayTests.SummaryLine` | displayTests.py:82-86 | one captioned total, `{value:>4}`; the body is the model. `SummaryLineReadsBack` states that it keeps its caption and reads back |
| `DisplayTests.Program` | displayTests.py:77-87 | the loop, then the summary, failing when the counter was never created; the body is the model. `ProgramOutcome` and `ProgramEmpty` state it, and `DisplayTests.DisplayTests` is proved equal to it |
| `DisplayTests.RunStopsAtFailure` | displayTests.py:77-79 | once a call has raised, the later suites change neither the output nor the outcome |
| `DisplayTests.DisplayTests` | displayTests.py:77-87 | the driver loop and summary print exactly `Program(suites).lines` and end with `Program(suites).outcome` |
| `DisplayTestsProperties.StepLines` | displayTests.py:38-64 | for a complete suite, a call prints the header (first call only) followed by the suite's row |
| `DisplayTestsProperties.StepFails` | displayTests.py:38-53 | for a suite lacking an attribute, a call prints at most the header and raises the KeyError of the first missing attribute |
| `DisplayTestsProperties.HeaderRowStep` | displayTests.py:47-64 | a suite with `tests <= 0` prints its name alone and changes only the counter's `tests`; it succeeds without `failures`, `errors` or `skipped` |
| `DisplayTestsProperties.RowsAt` | displayTests.py:61-64 | the row list has one line per suite, line `i` being the row of suite `i` |
| `DisplayTestsProperties.RunComplete` | displayTests.py:77-79 | over complete suites, the loop prints the header once and first, then one row per suite in order; the counter equals the field-wise sum of the contributions; with no suites the counter stays unset |
| `DisplayTestsProperties.RunSucceedsIff` | displayTests.py:47-53 | the loop ends without an exception iff every suite has the attributes that are read |
| `DisplayTestsProperties.RunFailsAtFirstIncomplete` | displayTests.py:77-79 | the loop stops at the first incomplete suite, after the header and the rows before it, with that suite's KeyError |
| `DisplayTestsProperties.StepBalance` | displayTests.py:49-60 | a call keeps `succeeded + failed + skipped + errors == tests` iff the suite's `tests` is not negative |
| `DisplayTestsProperties.TotalBalanced` | displayTests.py:49-60 | if no suite has negative `tests`, the totals satisfy `succeeded + failed + skipped + errors == tests` |
| `DisplayTestsProperties.ProgramOutcome` | displayTests.py:77-87 | a summary is printed iff the list is non-empty and every suite is complete; it then follows the header and rows and holds the field-wise sums |
| `DisplayTestsProperties.ProgramEmpty` | displayTests.py:77-86 | an empty list prints nothing and fails at the summary |
| `DisplayTestsProperties.SummaryLineReadsBack` | displayTests.py:82-86 | each summary line keeps its 11-character caption, and the total after it is right-aligned to at least four characters, never truncated, and reads back as that total |
| `DisplayTestsProperties.HeaderAligned` | displayTests.py:39-61 | the header is 15 characters with a bar at positions 3, 7 and 11; a data row whose counts lie in -99..999 has a bar at the same positions and a space at 15, before the name |
| `DisplayTestsProperties.DataRowRoundTrip` | displayTests.py:61 | a data row reads back as its four numbers and the name, so no column is truncated or ambiguous |
| `DisplayTestsProperties.MathExample` | displayTests.py:38-61 | a first call on a suite with 4 tests, 1 failure and 1 skipped prints the header and `  2|  1|  1|  0 Math`, and the counter becomes 4 tests, 2 succeeded, 1 skipped, 1 failed, 0 errors |
| `DisplayTestsProperties.MathSummary` | displayTests.py:80-87 | the summary of those totals lists `Tests: 4`, `Succeeded: 2`, `Skipped: 1`, `Failed: 1`, `Errors: 0`, each value right-aligned to width 4 |
| `DisplayTestsProperties.NegativeOkExample` | displayTests.py:57-61 | more failures than tests gives a negative, unclamped `ok` (` -1|  2|  0|  0 x`) |
| `Format.Pad3` | displayTests.py:61 | the `{x:>3}` rendering of an integer; the body is the model. `PadLeftIntRoundTrip` states that it never truncates and reads back, `Pad3Width` that counts from -99 to 999 fill exactly three characters |
| `Format.Pad4` | displayTests.py:82-86 | the `{x:>4}` rendering of an integer; the body is the model. `PadLeftIntRoundTrip` and `SummaryLineReadsBack` state that it never truncates and reads back |
| `Format.ParseIntOfInt` | displayTests.py:61 | decimal rendering of any integer, negative ones included, reads back as that integer |
| `Format.PadLeftIntRoundTrip` | displayTests.py:61 | right alignment to a width never truncates: the padded cell is at least that wide, holds no `|`, and reads back as the integer |
| `Format.Pad3Width` | displayTests.py:61 | values from -99 to 999 fill the three-character column exactly |

## Left out

- Loading the file (`process_input`): the existence check and the XML parse are
  file I/O and a foreign library. The model starts from the list of suites.
- Selecting the suites (`get_testsuites`): this is an XPath query by the XML
  library. The suites are given as a sequence in document order.
- The command line: the argument parser and the `Parsing junit file` banner.
- Converting attribute text to integers with Python's `int()`. Attribute values
  are taken as already-parsed integers, so a malformed number (a `ValueError`)
  is not modelled.
- The summary block keeps its labels and width-4 values. It drops the blank
  lines and indentation of the triple-quoted literal.
- Printing to standard output is modelled as appending lines to a sequence.
