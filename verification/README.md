# eventlog: the request-lifecycle correlator, its line decoder and its percentile

The eventlog tool reads a search front-end's event log, one event per line:

```
<timestamp> <request id> <Type> [<group> <url | error message>]
```

It folds the decoded events into statistics. Per request, it records when each phase began: the request started, backend polling ended (`StartMerge`), merging ended (`StartSendResult`), and the request finished. Per backend group, it records whether the group answered. Across the run it keeps:

- a backend ledger: the group of each url, the number of connections to each url, and an error histogram per url;
- the list of request durations;
- the first ten requests whose send phase was the longest of the three;
- a counter of requests left with an unanswered group.

The 95th percentile of the sorted durations goes into the report.

The repository holds the correlator three times:

- `log_parser/handler.py`, the packaged one;
- `parser.py`, a monolithic copy whose handlers are the same line for line;
- `main.py`, an older variant.

The model folds the first two into one state machine (module `Correlator`). It treats the older variant as a set of differences from that machine (module `Older`).

Modules:

- `Results`: `Option` and `Result`.
- `Chars`: the ASCII character classes `\d`, `\s`, `\w`, `\S` and `.`, greedy runs of a class, and decimal `int()`/`str()`.
- `LineRecords`: the record classes (`LineInfo` and its three backend subclasses), the type tags, and the attribute-wise `__eq__`.
- `Decoder`: `parse_line` with its backend sub-parsers. The header pattern and the three `.*<Keyword>…` patterns are worked out as the greedy, backtracking matches they are.
  - `Decode` is the monolithic module's version, where BackendOk works.
  - `PackagedDecode` is the packaged version, where BackendOk raises `TypeError`.
- `LineFormat`: a printer for records in the logs' tab-separated layout, and the proof that decoding undoes it.
- `Vectors`: the seven recorded parser test lines.
- `Percentile`: `percentile` / `percentil_95` and the older, untruncated `percentile`.
- `Correlator`: `RequestStats`, the seven handlers, `remove_request` / `clean_resource`, and the `handle_info` dispatch.
- `Traces`: the correlator folded over a record stream, what a whole run guarantees, and a bookkeeping invariant that every handler keeps.
- `Pipeline`: the `parse_input` loops as methods over a sequence of lines.
  - In the monolithic loop, a `ParseException` skips its line.
  - In the packaged entry point, the uncaught `TypeError` ends the run.
- `Older`: `main.py`'s header pattern, its decoder, which prints and returns instead of raising, its finish with the timestamp-based outlier test, and its dispatch.

Reading files, command-line arguments and writing the report are outside the model. Lines arrive as a `seq<string>`; the statistics are the final `Stats` value.

## Model

| member | source | states |
|---|---|---|
| Chars.TakeRun | log_parser/parser.py:5 | a greedy run of a class splits its input into a maximal run of the class and a rest that cannot extend it |
| Chars.ParseShowNat | log_parser/parser.py:126-128 | `int()` reads back what `str()` of a number prints |
| LineRecords.EqBothWaysIsEquality | log_parser/parser.py:23-24 | `__eq__` compares only the attributes listed in its own operand's class; holding in both directions it is field-for-field equality |
| LineRecords.PyEqIsEquality | log_parser/parser.py:23-24 | Python's `==` on records, which calls a subclass operand's `__eq__` first, is field-for-field equality except for a BackendOk record on the left of a sibling backend record agreeing on the shared attributes; on records whose class agrees with their type it is exactly field-for-field equality, and symmetric |
| LineRecords.OkEqualsWiderSibling | log_parser/parser.py:23-24 | that exception occurs: a BackendOk record equals a BackendConnect record with the same shared attributes, but not the other way round |
| Decoder.ParseHeader | log_parser/parser.py:5 | a header is accepted only from a line that begins with a digit, and its type is a nonempty word |
| Decoder.ParseHeaderOf | log_parser/parser.py:5 | a line made of a digit run, one whitespace character, a digit run, one whitespace character and a word not continued by what follows is read as the two numbers (leading zeros allowed) and the word |
| Decoder.ParseHeaderHasLayout | log_parser/parser.py:5 | every line the header pattern accepts has that layout |
| Decoder.ParseHeaderExactly | log_parser/parser.py:5 | the header pattern accepts a line if and only if it has that layout |
| Decoder.HeaderRejectsMissingId | log_parser/parser.py:122-124 | digits and one whitespace character followed by anything but a digit (no request id) is rejected |
| Decoder.TextTail | log_parser/parser.py:6-8 | the url captured after BackendConnect is a nonempty run without whitespace; the error captured after BackendError lies on one line |
| Decoder.OkTailOf | log_parser/parser.py:7 | after BackendOk, any whitespace run followed by a digit run not continued by a digit gives that group |
| Decoder.TextTailOf | log_parser/parser.py:6-8 | after BackendConnect or BackendError, one whitespace character, a digit run, a whitespace run and the longest url or error text give that group and text |
| Decoder.RightmostHit | log_parser/parser.py:6-8 | the leading greedy `.*` settles on the rightmost position where the rest of the pattern matches, and nothing matches to its right |
| Decoder.Build | log_parser/parser.py:126-143 | the record carries the header's id, type and timestamp; a backend type fails exactly when its pattern does not match and otherwise carries the captured group and text; any other type word gives a plain record |
| Decoder.Decode | parser.py:284-307 | an unparsable header gives `ParseException`; no decode raises `TypeError`; every record's class agrees with its type |
| Decoder.PackagedDecode | log_parser/parser.py:113-118 | exactly the lines the monolithic decoder reads as BackendOk raise `TypeError` over the missing `aaaargs`; every other line decodes as there |
| LineFormat.HeaderRoundTrip | log_parser/parser.py:121-128 | on `<ts>\t<id>\t<type><rest>`, where the rest does not continue the word, the header reads back ts, id and type |
| LineFormat.BackendArgsRoundTrip | log_parser/parser.py:69-118 | on a printed backend line, the backend pattern reads back the group and the url or error text |
| LineFormat.RoundTrip | log_parser/parser.py:121-143 | decoding a printed record gives the record back, for every record a line can carry: a word as type, a url without whitespace, and an error message on one line that does not start with whitespace and holds no complete `BackendError<space><digits><space>` match of its own |
| LineFormat.KeywordInMessageReadBack | log_parser/parser.py:8 | an error message that mentions `BackendError` without a group after it is such a record, and reads back whole, because the search backtracks to the type word |
| LineFormat.MissingGroupRejected | log_parser/parser.py:73-75 | a backend line with nothing but whitespace after its keyword (none, its trailing newline, or any whitespace run) raises `ParseException` for its arguments |
| LineFormat.MissingGroupWithNewline | log_parser/main.py:11-13 | in particular such a line as the file loop passes it, newline included |
| Vectors.StartLine | tests/test_parsing.py:13-15 | the recorded StartRequest line decodes to request 0 at 1390950160808136 |
| Vectors.MergeLine | tests/test_parsing.py:16-19 | the recorded StartMerge line decodes as listed |
| Vectors.SendResultLine | tests/test_parsing.py:20-23 | the recorded StartSendResult line decodes as listed |
| Vectors.FinishLine | tests/test_parsing.py:24-27 | the recorded FinishRequest line decodes as listed |
| Vectors.ConnectLine | tests/test_parsing.py:28-37 | the recorded BackendConnect line decodes to group 0 and the full url |
| Vectors.OkLine | tests/test_parsing.py:38-46 | the recorded BackendOk line decodes to group 1 in the monolithic module and raises `TypeError` in the packaged one |
| Vectors.ErrorLine | tests/test_parsing.py:47-56 | the recorded BackendError line decodes to group 1 and the message `Request Timeout` |
| Percentile.Truncate | log_parser/stats.py:27 | `int()` of a float truncates toward zero |
| Percentile.Ceil | log_parser/stats.py:20 | `math.ceil` is the least integer not below its argument |
| Percentile.Lo | log_parser/stats.py:18-19 | for a percent in [0, 1] the floor of the rank indexes the list and lies within one below the rank |
| Percentile.Hi | log_parser/stats.py:18-20 | the ceiling of the rank indexes the list, is the floor or one more, and equals the floor exactly when the rank is whole |
| Percentile.Blend | log_parser/stats.py:24-25 | the interpolated value lies between the two neighbours it blends |
| Percentile.Percentile | log_parser/stats.py:6-27 | none exactly for an empty list; the element at a whole rank; otherwise an integer between the two neighbours |
| Percentile.Rank95 | log_parser/stats.py:17-21 | at 0.95 the floor of the rank is `(n - 1) * 19 / 20`, and the ceiling equals it exactly when 20 divides `(n - 1) * 19` |
| Percentile.Percentile95 | log_parser/stats.py:30 | none exactly for an empty list; the element at index `(n - 1) * 19 / 20` when 20 divides `(n - 1) * 19`, otherwise a value between that element and the next; on a sorted list, a value between its first and last elements |
| Percentile.PercentileInRange | log_parser/stats.py:15-27 | on a sorted list the result lies between the first and last elements; percent 0 picks the first and percent 1 the last |
| Percentile.BlendIsInterpolation | log_parser/stats.py:24-25 | the blend is the lower neighbour moved toward the upper one by the rank's fractional part |
| Percentile.PercentileIsTruncatedBlend | log_parser/stats.py:21-27 | the whole-rank branch and the interpolation branch agree: both are the truncated blend |
| Percentile.PercentileMonotone | log_parser/stats.py:18-27 | on a sorted list a larger percent never gives a smaller result |
| Percentile.PercentileExamples | log_parser/stats.py:6-30 | concrete values: `[]` gives none, `[10]` gives 10, `[1, 2, 3, 4]` at 0.95 gives 3, `[1..5]` at 0.5 gives 3 |
| Percentile.OlderPercentile | main.py:56-77 | the older percentile is none exactly for an empty list |
| Percentile.OlderPercentileTruncates | main.py:74-77 | truncating the older, untruncated result gives the packaged one |
| Correlator.ViewsDetermineStats | log_parser/handler.py:16-34 | a state is fixed by its per-request records, its ledger and its aggregates |
| Correlator.Clean | log_parser/handler.py:39-56 | `clean()` leaves no request record, an empty ledger and empty aggregates |
| Correlator.HandleStart | log_parser/handler.py:71-72 | StartRequest sets the request's start time, overwriting any earlier one; nothing else changes |
| Correlator.HandleStartMerge | log_parser/handler.py:92-93 | StartMerge sets the end of the polling phase; nothing else changes |
| Correlator.HandleStartSendResult | log_parser/handler.py:96-97 | StartSendResult sets the end of the merge phase; nothing else changes |
| Correlator.HandleConnect | log_parser/handler.py:75-80 | BackendConnect maps the group to the url, marks it unanswered, records the url's group (last writer wins) and counts one more connection to the url; other urls, the error histograms and the aggregates are untouched |
| Correlator.HandleOk | log_parser/handler.py:88-89 | BackendOk marks the group answered, connected or not; nothing else changes |
| Correlator.HandleError | log_parser/handler.py:83-85 | BackendError counts one more occurrence of the message for the url the group was connected to; every other count is unchanged |
| Correlator.RemoveRequest | log_parser/handler.py:58-65 | the request is gone from all six per-request maps; other requests, the ledger and the aggregates are untouched |
| Correlator.RecordDuration | log_parser/handler.py:101-107 | a finish records its timestamp and appends exactly one duration, finish minus start |
| Correlator.CheckOutlier | log_parser/handler.py:110-122 | the request is appended to the outlier list, at its end, exactly when the list holds fewer than ten and the send phase strictly outlasted both other phases |
| Correlator.CountIncomplete | log_parser/handler.py:124-126 | the counter grows by one exactly when some group of the request is unanswered; an empty status map counts as complete |
| Correlator.HandleFinish | log_parser/handler.py:100-128 | one duration appended; the outlier list extended by at most this request, under the cap and the strict phase test; the counter raised exactly for an unanswered group; the request's entries removed; other requests and the ledger untouched |
| Correlator.Step | log_parser/handler.py:131-148 | a type without a handler leaves the state unchanged; only a finish changes the aggregates; only connects and errors change the ledger; only the record's own request changes |
| Correlator.LifecycleExample | parser.py:149-205 | one request through all handlers: duration 300, flagged as a send-phase outlier, complete, removed, with its url in the ledger once |
| Traces.StepDurations | log_parser/handler.py:100-107 | one record appends a duration exactly when it is a finish |
| Traces.StepOutliers | log_parser/handler.py:110-122 | one record adds at most one outlier, at the end, only if it is a finish under the cap |
| Traces.StepNotCompleted | log_parser/handler.py:124-126 | one record raises the counter by at most one, and only if it is a finish |
| Traces.StepConnections | log_parser/handler.py:75-80 | one record raises a url's connection count by one exactly when it is a connect to that url |
| Traces.RunAppend | parser.py:310-317 | handling two streams in turn is handling their concatenation |
| Traces.DurationsCountFinishes | log_parser/handler.py:100-107 | after any run, the duration list grew by exactly the number of finishes, and earlier durations stay |
| Traces.OutliersAppendOnly | log_parser/handler.py:10 | the outlier list only grows at its end and never beyond ten; once full it no longer changes |
| Traces.OutliersFinished | log_parser/handler.py:110-122 | every request added to the outlier list during a run finished in that run |
| Traces.OutliersPrefix | log_parser/handler.py:122 | the outlier list after a run extends the one before it |
| Traces.NotCompletedBounded | log_parser/handler.py:124-126 | the counter grows by at most the number of finishes |
| Traces.ConnectionsCounted | log_parser/handler.py:80 | a url's connection count grows by exactly the number of connect records naming it |
| Traces.LastConnectWins | log_parser/handler.py:79 | a url's group after a run is the one its last connect named, or the earlier one if none did |
| Traces.OtherRequestsIsolated | log_parser/handler.py:71-128 | records about other requests leave a request's entries unchanged |
| Traces.IncompleteMeansUnanswered | log_parser/handler.py:125 | under the bookkeeping invariant, the completeness check fires exactly when some connected group is unanswered |
| Traces.CleanInvariant | log_parser/handler.py:39-56 | the empty state satisfies the bookkeeping invariant: every connected group has a status entry, and a group is unanswered only if its request connected it |
| Traces.StepKeepsEntry | log_parser/handler.py:75-128 | each handler keeps its own request's bookkeeping: every connected group has a status, and only connected groups are unanswered |
| Traces.StepInvariant | log_parser/handler.py:131-148 | every handler preserves the bookkeeping invariant |
| Traces.RunInvariant | log_parser/handler.py:144-148 | a whole run preserves the bookkeeping invariant |
| Pipeline.Decoded | parser.py:312-315 | the records of a line sequence are at most one per line |
| Pipeline.DecodedAppend | parser.py:312-317 | decoding a concatenation of line sequences decodes each part in turn |
| Pipeline.FailedLineSkipped | parser.py:313-317 | a line whose decoding raises `ParseException` contributes nothing and the later lines are still handled |
| Pipeline.FirstStop | log_parser/main.py:11-16 | the first line whose exception escapes the loop, or none exactly when no line raises one |
| Pipeline.HandleLines | parser.py:310-317 | the loop's state is the fold of the handlers over the records of the lines it reached; the skipped line indices are exactly the failing ones, in increasing order; it stops at the first escaping exception |
| Pipeline.ProcessLines | parser.py:310-317 | the monolithic loop handles every decodable line in order and skips exactly the lines raising `ParseException` |
| Pipeline.PackagedProcessLines | log_parser/main.py:9-16 | the packaged loop stops exactly at the first BackendOk line, because its `TypeError` is not caught; it skips exactly the `ParseException` lines before that, listed in increasing order |
| Pipeline.PackagedAgreesBeforeCrash | log_parser/main.py:12-16 | on lines none of which is a BackendOk, the packaged and the monolithic decoders give the same records |
| Older.TypeField | main.py:35 | the older header's type word is nonempty, follows whitespace, and must be followed by a whitespace character |
| Older.OlderHeader | main.py:35 | the older header pattern rejects a line that does not start with a digit; its type is a nonempty word |
| Older.OlderDecode | main.py:141-182 | the older decoder drops a line exactly when the header pattern or the backend pattern fails; its records are well-tagged |
| Older.SameHeaderSameRecord | main.py:147-182 | when both header patterns read a line alike, the older decoder drops exactly the lines the monolithic one raises on, and otherwise gives the same record |
| Older.OlderHeaderAgrees | main.py:35 | on `<ts>\t<id>\t<type>` followed by whitespace, both header patterns read the same fields |
| Older.MissingIdSplitsTimestamp | main.py:35 | a timestamp of two or more digits followed by a tab and a type word, with no id, is read as request `ts % 10` at time `ts / 10`; the packaged pattern rejects the line |
| Older.TrailingTypeMisread | main.py:35 | a line ending right after its type word is rejected for a one-digit timestamp and otherwise misread with the id's digits as the type; the packaged pattern reads it as written |
| Older.TrailingLineIgnored | main.py:141-184 | such a line leaves the older state unchanged, a finish included |
| Older.OlderCheckOutlier | main.py:103-109 | the older check appends the request exactly when the list holds fewer than ten and the finish timestamp is later than both the StartSendResult and StartMerge timestamps; otherwise it matches the packaged check |
| Older.OlderFinish | main.py:93-121 | the older finish is the packaged finish in every field but the outlier list, which follows the timestamp test |
| Older.OrderedFinishFlagged | main.py:103-109 | in an ordered log the older test flags every finishing request until the list is full, whatever its phase durations |
| Older.OutlierTestsDisagree | main.py:103-109 | phases of 100, 10 and 1: the older finish flags the request and the packaged one does not |
| Older.OlderStep | main.py:124-184 | the older dispatch is the packaged one for every type but FinishRequest, and differs there only in the outlier list |
| Older.OlderParseLine | main.py:141-184 | a line the older decoder drops leaves the state unchanged; any other non-finish line is handled as in the packaged version |

## Left out

- Reading the log file, the command-line interface and the report are I/O and formatting. That covers `print_result` and its grouping of urls by group (parser.py:320-363, main.py:193-236, log_parser/main.py:19-67).
- Only the ASCII members of `\d`, `\s`, `\w` and `\S` are modelled (for `\s`: space, `\t` to `\r`, and `\x1c` to `\x1f`). Python's regular expressions on `str` also accept non-ASCII digits, spaces and letters.
- Percentile.Percentile: the rank, the two products, their sum and the `int()` are computed in exact reals, not in doubles. Next to a whole number the result can differ by one from the program's: `percentile([0, 100], 0.29)` is `int(28.999999999999996) = 28` in Python and 29 here.
- Percentile.Percentile95: the float `0.95` is the exact decimal 0.95. Float rounding of `(n - 1) * 0.95` could move the rank across a whole number, and that is not modelled.
- Percentile.PercentileInRange: the list being sorted is a hypothesis here. The caller passes the durations unsorted (log_parser/main.py:20), and the model does not track that call.
- Correlator.HandleError: a BackendError for an unconnected group raises `KeyError` in the source. Here that case is a precondition (`Connected`), not a modelled error.
- Correlator.HandleFinish: the `KeyError` of a finish without a start time, a phase end or a connections entry is a precondition (`FinishEnabled`), not a modelled error.
- LineFormat.RoundTrip: stated for the printed line without a trailing newline. The file loop passes lines with theirs; for that form the model proves the header read (`HeaderRoundTrip`, whose `rest` may start with the newline) and the missing-group rejection (`MissingGroupWithNewline`), not the whole round trip.
- Traces.RunAppend: runs are defined only for streams whose every record can be handled (`CanRun`). A `KeyError` ends the source's run, and the model does not follow it past that record.
- Pipeline.HandleLines: its precondition asks that the records before the stopping line can all be handled, for the same reason.
- Older.OlderParseLine: a record that would raise `KeyError` is excluded by its precondition, as for the packaged handlers.
- `main.py`'s `parse_input` loop (main.py:187-190) is not a separate member. It is `OlderParseLine` applied to each line in turn, without exceptions to catch.
- `functools.lru_cache` on `get_mapping` does not change which handler is chosen and is left out. So are `Counter.__str__`, the records' `__repr__`, the unused `a` parameter of `clean`, and packaging.
- `log_parser/const.py` is not part of this model. Its tags are taken to be the strings at parser.py:8-14, which the packaged modules import by the same names.
- `int(None)` in the older report on an empty duration list (main.py:194) is part of the report, which is left out.
- Python integers are unbounded, and so are the model's; durations are `int` and can be negative when a finish precedes its start.
- `percentil_95([1, 2, 3, 4])` is `int(3.85) = 3`: the result is truncated, not rounded up to the next element (`PercentileExamples`).
- A BackendError for an unconnected group, and a finish missing its start time, a phase end or its connections entry, raise `KeyError`; the model keeps these as preconditions. A BackendOk for an unconnected group raises nothing: it only writes into a `defaultdict` (log_parser/handler.py:88-89).
- The test file builds its expected BackendOk record without `aaaargs`, which itself raises `TypeError`. `Vectors.OkLine` states the record the monolithic decoder produces and the packaged decoder's failure.

## Findings

| source | as written | input that shows it | evidently intended | confidence | as-written member | corrected member |
|---|---|---|---|---|---|---|
| log_parser/parser.py:113-118 | `parse_line_backend_ok` builds `BackendOkLineInfo` without its required `aaaargs` parameter, so every well-formed BackendOk line raises `TypeError`. The entry point catches only `ParseException` (log_parser/main.py:15), so the run stops there. | `1390950160948308<TAB>0<TAB>BackendOk<TAB>1` | decode to a BackendOk record for group 1, as parser.py:269-281 does | not executed | Decoder.PackagedDecode, Vectors.OkLine, Pipeline.PackagedProcessLines | Decoder.Decode, LineFormat.RoundTrip |
| main.py:35 | `\s*` between timestamp and id lets backtracking split the timestamp when the id is missing | `10<TAB>StartRequest<LF>` is read as a start of request 0 at time 1 | reject the line, as the `\s` of log_parser/parser.py:5 does | not executed | Older.MissingIdSplitsTimestamp | Decoder.HeaderRejectsMissingId, Decoder.ParseHeaderOf |
| main.py:35 | the trailing `\s` demands whitespace after the type word, so a last line without a final newline is misread | `100<TAB>0<TAB>FinishRequest` is read as type `0` at time 10 and dropped | read as the finish of request 0 at time 100, as log_parser/parser.py:5 does | not executed | Older.TrailingTypeMisread, Older.TrailingLineIgnored | LineFormat.HeaderRoundTrip |
| main.py:103-109 | the outlier test compares the finish timestamp with the StartSendResult and StartMerge timestamps, which in an ordered log it always exceeds | start 0, StartMerge 100, StartSendResult 110, finish 111 is flagged, although its send phase (1) is the shortest | compare the three phase durations, as log_parser/handler.py:112-121 does | not executed | Older.OlderFinish, Older.OrderedFinishFlagged, Older.OutlierTestsDisagree | Correlator.CheckOutlier, Correlator.HandleFinish |
