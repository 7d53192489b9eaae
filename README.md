# lifepo4wered-exporter: the sampling core, modelled in Dafny

The exporter runs `lifepo4wered-cli get` once per poll interval, scans each
`NAME = value` line of its output, and updates three kinds of state:

- a live gauge per variable name (`lifepo4weredVars`);
- one windowed summary per tracked variable, VIN, VOUT, VBAT and IOUT
  (`lifepo4weredSummaries`);
- a summary of output power (`lifepo4weredPOut`), fed once per cycle with
  pout/1000. Here pout is the product of every VOUT and IOUT reading of the
  cycle, or 1 when there is none.

A summary (`liteSummary`) keeps the running min, max, sum and count of the
values observed since the last scrape. A scrape reads min, max and mean, then
resets the summary.

The model has four modules:

- `ExtReal` (ExtReal.dfy): the float64 values a summary's min and max can
  hold. These are finite reals and the two infinities the summary starts
  from. It also holds Go's `min` and `max` on them.
- `Summary` (Summary.dfy): `liteSummary` as a class, `LiteSummary`, with the
  fields `min`, `max`, `sum` and `count`.
  - A ghost field `window` holds the observations since creation or since
    the last `Collect`.
  - `Valid()` ties each field to a function of the window: `SeqMin`,
    `SeqMax`, `Sum` and its length.
  - `Observe` and `Collect` are proved against these functions.
  - Lemmas prove what the functions mean: the least and greatest observation,
    the mean lying between them, and independence of the order of
    observations.
- `LineScan` (LineScan.dfy): the scan of one line with the format `"%s = %d"`
  as a pure parser, `ParseLine`, and its inverse on canonical lines,
  `FormatSample`.
  - A `Layout` names the pieces the format matches: leading blanks, the
    name, blanks, '=', blanks, an optional sign, the digits and the rest of
    the line.
  - `ParseLineMeaning` proves both directions: a line scans to a sample
    exactly when it is the join of a well-formed layout of that sample.
- `Poll` (Poll.dfy): the exporter's state as a class, `Exporter`, and one
  poll cycle, `PollVars`, as a loop over the output lines.
  - `PollVars` is proved against specification functions of the scanned
    samples:
    - `Gauges`: the live map;
    - `Readings`: the values of one name;
    - `Pout`: the power accumulator.
  - Lemmas state last-write-wins for the gauges and that the power
    accumulator is the product of the VOUT and IOUT readings.

Two behaviours of the code shape the model:

- **Partial application.** A cycle is not all-or-nothing. The Go loop
  applies each line's updates (gauge, summary, `pout`) before it scans the
  next line. It calls `log.Fatalf` only when it reaches a bad line or the
  scanner error. So the lines before a bad line have already been applied.
  `Exporter.PollVars` returns a failure result at that point and keeps the
  updates already made; in the process, `log.Fatalf` then ends it.
- **Trailing input.** `fmt.Sscanf` stops once the format is consumed and
  ignores what follows the digits: `VIN = 5000 mV` scans as VIN = 5000.
  `%d` reads decimal digits only, so `VIN = 12_3` scans as VIN = 12.
  `LineScan.ParseLine` does the same (see `LineScan.TrailingInputIgnored`
  and `LineScan.UnderscoreEndsNumber`).

## Model

| member | source | states |
|---|---|---|
| ExtReal.Min | exporter.go:82 | the result is one of the two arguments, is at most both, and is the greatest value at most both |
| ExtReal.Max | exporter.go:83 | the result is one of the two arguments, is at least both, and is the least value at least both |
| Summary.LiteSummary.constructor | exporter.go:52-60 | a new summary has min = +Inf, max = -Inf, sum = 0, count = 0 and an empty window; its descriptor is named "lifepo4wered_" + varName with the help text and the single variable label "stat" |
| Summary.LiteSummary.Observe | exporter.go:79-86 | appends x to the window; min and max become Go's min and max of the old value and x; sum grows by x and count by exactly one; afterwards min <= x <= max, and the fields still describe the window |
| Summary.LiteSummary.Collect | exporter.go:64-77 | returns exactly the readings min, max, mean of the old fields, with mean = sum/count when count > 0 and sum otherwise (the snapshot of the window); then restores the sentinel state with an empty window |
| Summary.LiteSummary.CollectTwice | exporter.go:64-77 | a second scrape with no observation in between reports (+Inf, -Inf, 0) |
| Summary.SeqMinIsLeast | exporter.go:82 | the min field over a window is +Inf exactly when the window is empty; otherwise it is a value of the window and no value of the window is below it |
| Summary.SeqMaxIsGreatest | exporter.go:83 | the max field over a window is -Inf exactly when the window is empty; otherwise it is a value of the window and no value of the window is above it |
| Summary.SameValuesSameBounds | exporter.go:82-83 | two windows holding the same values have the same min and max fields |
| Summary.SumBounds | exporter.go:84 | the sum of n observations that lie within [lo, hi] lies within [n * lo, n * hi] |
| Summary.MeanBetween | exporter.go:69-72 | the mean of a non-empty window whose values lie within [lo, hi] lies within [lo, hi] |
| Summary.MeanWithinBounds | exporter.go:69-72 | over a non-empty window the reported mean lies between the least and the greatest observation |
| Summary.SumRemove | exporter.go:84 | taking one observation out of a window takes exactly its value out of the sum |
| Summary.SumPermutation | exporter.go:84 | the sum field depends only on the multiset of observations |
| Summary.SnapshotDependsOnMultiset | exporter.go:64-77 | a scrape's three readings depend only on the multiset of observations in the window, not on their order |
| Summary.SnapshotMeaning | exporter.go:67-76 | a scrape emits three readings labelled min, max, mean in that order; over an empty window they are +Inf, -Inf, 0; otherwise the least value, the greatest value and sum/count |
| LineScan.IsSpace | exporter.go:102 | fmt's blank set; no blank is '=', a sign or a digit, so skipping blanks never passes over the separator or the number |
| LineScan.SkipSpaces | exporter.go:102 | the scan position after skipping blanks: it does not move backwards, and it stops at a non-blank or at the end of the line |
| LineScan.TokenEnd | exporter.go:102 | the end of the %s token: it stops at a blank or at the end of the line |
| LineScan.NumberEnd | exporter.go:102 | the end of the %d digits: it stops at a character that is not a decimal digit, or at the end of the line |
| LineScan.SkippedAreBlanks | exporter.go:102 | every character skipped before a verb is a blank |
| LineScan.TokenHasNoBlanks | exporter.go:102 | every character of the %s token is a non-blank |
| LineScan.NumberHasOnlyDigits | exporter.go:102 | every character of the %d token is a decimal digit |
| LineScan.SkipSpacesIs | exporter.go:102 | a run of blanks ended by a non-blank or the end of the line is exactly what is skipped |
| LineScan.TokenEndIs | exporter.go:102 | a run of non-blanks ended by a blank or the end of the line is exactly the %s token |
| LineScan.NumberEndIs | exporter.go:102 | a run of digits ended by a non-digit or the end of the line is exactly the %d token |
| LineScan.DecimalRoundTrip | exporter.go:102 | reading the decimal spelling of a natural number gives that number |
| LineScan.ParseLine | exporter.go:102-104 | the scan of one line; a sample it yields has a non-empty, blank-free name and a value in the range of a 64-bit int |
| LineScan.BlankPart | exporter.go:102 | blanks followed by a non-blank or the end of the line are exactly what is skipped |
| LineScan.NamePart | exporter.go:102 | a blank-free name followed by a blank is the %s token |
| LineScan.EqualsPart | exporter.go:102 | the format's '=' matches an '=' at the scan position |
| LineScan.SignPart | exporter.go:102 | before the digits a sign character is there exactly when the layout has a sign, and it is '-' exactly for a minus sign |
| LineScan.DigitsPart | exporter.go:102 | digits followed by a non-digit or the end of the line are exactly the %d token |
| LineScan.NumberParts | exporter.go:102 | an optional sign and digits: where %d's sign and digits lie, and the sign is not a blank |
| LineScan.LeadParts | exporter.go:102 | leading blanks and a blank-free name followed by a blank: where the blanks end and the %s token ends |
| LineScan.GapParts | exporter.go:102 | one or more blanks and then '=': where the format's " =" stops |
| LineScan.HeadParts | exporter.go:102 | leading blanks, a blank-free name, one or more blanks and '=': the positions where %s and " =" stop |
| LineScan.ValueParts | exporter.go:102 | after '=', one or more blanks, an optional sign and digits followed by a non-digit: the positions of the sign and of the %d token |
| LineScan.ParseLineOfParts | exporter.go:102 | a line whose name, '=', sign and digits sit at known positions scans to that name and the value the sign and digits spell |
| LineScan.ParsePieces | exporter.go:102 | the join of pieces the format accepts, with a value in the int range, scans to the name and the value of its sign and digits |
| LineScan.ParseJoin | exporter.go:102 | every well-formed layout scans to its name and value |
| LineScan.JoinOfCuts | exporter.go:102 | a line cut at the positions where the scan stopped is the join of the pieces between the cuts |
| LineScan.HeadCutsWellFormed | exporter.go:102 | where a scan stopped, the leading blanks, the name and the blanks before '=' are what a layout demands, with at least one blank before '=' |
| LineScan.ValueCutsWellFormed | exporter.go:102 | where a scan stopped, the blanks after '=', the sign, the digits and the rest are what a layout demands |
| LineScan.ScanPositions | exporter.go:102-104 | a successful scan found a name, an '=' followed by a blank, and digits, and its sample is that name with the value of the sign and digits |
| LineScan.ShapeOfCuts | exporter.go:102 | the pieces of a successfully scanned line form a well-formed layout that joins back to the line and spells its name and value |
| LineScan.ParsedLineShape | exporter.go:102-104 | every line that scans is the join of a well-formed layout whose name and value are the scanned sample |
| LineScan.ParseLineMeaning | exporter.go:102-104 | a line scans to a sample exactly when it is the join of a well-formed layout of that sample: optional blanks, a blank-free name, one or more blanks, '=', one or more blanks, an optional sign, digits, then anything that does not start with a digit, with a value in the int range |
| LineScan.ParseFormattedLine | exporter.go:102 | a canonical line of a blank-free name and an int64 value, followed by anything that does not start with a digit, scans to exactly that name and value |
| LineScan.ParseFormatRoundTrip | exporter.go:102 | scanning inverts formatting for every sample whose name is blank-free and whose value is an int64, negative values included |
| LineScan.UnderscoreEndsNumber | exporter.go:102 | `VIN = 12_3` scans as VIN = 12: %d reads digits only and ignores the rest |
| LineScan.TrailingInputIgnored | exporter.go:102 | `VIN = 5000 mV` scans as VIN = 5000: input after the number is ignored |
| Poll.ScannedPrefix | exporter.go:98-104 | counts the lines before the first that fails to scan: all lines before it scan, and the line at that index does not |
| Poll.AllScanCons | exporter.go:98-104 | a line that scans, followed by lines that all scan, gives lines that all scan |
| Poll.Samples | exporter.go:98-102 | the lines that all scan give one sample per line |
| Poll.SamplesAreScans | exporter.go:98-102 | each sample is the scan of the line at the same index, so the samples come in the order of the lines |
| Poll.AsReals | exporter.go:106 | the float64 conversion of each reading, index by index |
| Poll.SamplesStep | exporter.go:98-102 | one more line that scans adds its sample at the end |
| Poll.ScannedPrefixStops | exporter.go:102-104 | the first line that fails to scan, after lines that all scan, is where the cycle stops |
| Poll.ScannedPrefixAll | exporter.go:98-104 | when every line scans, the cycle reaches the end of the output |
| Poll.WindowStep | exporter.go:108-112 | one more sample extends a tracked variable's observations by its value exactly when it carries that name |
| Poll.GaugesStep | exporter.go:105-106 | one more sample overwrites the live gauge of its name with its value |
| Poll.PoutStep | exporter.go:113-116 | one more sample multiplies the accumulator by its value exactly when it is VOUT or IOUT |
| Poll.GaugesLastWriteWins | exporter.go:105-106 | after a cycle a name has a live gauge iff it had one or some line carried it; its value is that of the last such line, and is unchanged when none did |
| Poll.ProductAppend | exporter.go:115 | multiplying one more factor into a product multiplies the product by it |
| Poll.GaugesKeys | exporter.go:105-106 | after a cycle the live gauges are exactly those before it plus one for each name some line carried |
| Poll.NoPowerFactors | exporter.go:94-122 | the accumulator is seeded at 1, so a cycle without a VOUT or IOUT line gives pout = 1 and a power observation of 0.001 mW |
| Poll.PoutZero | exporter.go:113-116 | the accumulator is zero exactly when some VOUT or IOUT reading is zero |
| Poll.PoutIsProductOfFactors | exporter.go:94-116 | the accumulator is the product of every VOUT reading times the product of every IOUT reading; other names contribute nothing, and a missing name contributes a factor of 1 |
| Poll.PowerOfOneVoltageAndCurrent | exporter.go:113-122 | with one VOUT and one IOUT reading, in either order among any other lines, the power observation is VOUT * IOUT / 1000 |
| Poll.PowerOfVoltageThenCurrent | exporter.go:113-122 | the samples VOUT then IOUT give the power observation VOUT * IOUT / 1000 |
| Poll.SamplesOfTwoLines | exporter.go:98-104 | two canonical lines scan to their two samples, in order |
| Poll.PowerExample | exporter.go:98-122 | the lines `VOUT = 2000` and `IOUT = 500` scan and give a power observation of 1000 mW |
| Poll.Exporter.Summaries | exporter.go:33-38 | the tracked summaries are keyed by exactly VIN, VOUT, VBAT and IOUT |
| Poll.Exporter.constructor | exporter.go:25-39 | the live map starts empty; the five summaries are distinct, empty, and carry their names and help texts |
| Poll.Exporter.Record | exporter.go:105-116 | one scanned line sets its live gauge; its value is observed only by the summary of its name, if tracked; and the accumulator is multiplied by it only for VOUT and IOUT |
| Poll.Exporter.Apply | exporter.go:105-116 | after the samples applied so far, one more scanned line leaves the gauges, the four windows and the accumulator of the samples with it appended |
| Poll.Exporter.ScanLines | exporter.go:97-117 | applies the lines in order up to the first that fails to scan and reports where it stopped; the gauges, the four windows and the accumulator are then the specification functions of the samples applied |
| Poll.Exporter.PollVars | exporter.go:88-123 | a command failure changes nothing; otherwise the lines before the first bad line are applied, and the cycle ends with MalformedLine at that line, then ScanFailed on a scanner error, else Polled; only a Polled cycle makes its one power observation, pout/1000 |

## Left out

- Running the producer (`exec.Command(...).Output()`): a foreign process. Its
  outcome is the input `CommandOutput`: a failure, or the output lines and
  whether the line scanner then reported an error.
- bufio.Scanner's line splitting and its token-size error: library code. The
  lines it yields and its final error are part of the input.
- `log.Fatalf`: the three fatal exits are failure results of `PollVars`. The
  process exit itself is not modelled.
- The goroutine, `time.Tick` and the HTTP server in `main`: scheduling and
  network plumbing.
- The `sync.Mutex` in `liteSummary`: each method is modelled as one atomic
  step, as it runs under the lock. Interleavings are not modelled.
- Prometheus registration, `Describe`, the metric channel and
  `MustNewConstMetric`: library calls.
  - `Collect` returns its three readings as a sequence.
  - `lifepo4weredVars` is a map from variable name to value; the name of its
    label (`var`) is not modelled.
  - A descriptor is kept as its name, help text and variable labels.
- Summary.LiteSummary.Observe: float64 rounding is not modelled. Values are
  exact reals, so sum and mean are exact. NaN cannot arise from integer
  readings. Infinite observations, which the exporter never makes, are
  outside the model.
- Poll.PoutIsProductOfFactors: `pout` is an unbounded integer, so the 64-bit
  wrap-around of `pout *= num` on large products is not modelled (nor is it
  in `Poll.Pout`, `Poll.PowerReading` and the power observation of
  `Poll.Exporter.PollVars`).
- LineScan.ParseLine: only what the format `"%s = %d"` can meet on a single
  line is modelled:
  - fmt's blank set;
  - one or more blanks for each space of the format;
  - an optional sign, then the longest run of decimal digits, whose value
    must fit in Go's `int`; the model assumes a 64-bit `int`;
  - trailing input ignored.

  Newline handling does not arise, because lines carry no newline. `%d`
  reads no base prefix (`0x`, `0b`, `0o`) and no underscore, so none is
  modelled.
