# Alltoallv pattern classification, modelled in Dafny

This project models the pattern engine of an MPI alltoallv profiler, and proves properties of that model. The engine does four things:

- It groups the calls of a run into deduplicated *pattern buckets*, keyed by the call's send and receive shape maps.
- It classifies each new bucket as 1-to-N, N-to-N or N-to-1.
- It decides whether the groups of several sub-communicators behave alike, and if so writes a consolidated report.
- It reads and writes the blocks of the patterns report.

The standalone `srcountsanalyzer` tool keeps its own copy of the bucket store. It also counts per-call histograms, and it lists the buckets.

Modules, one file each:

- `Wrappers`: `Option` and `Result`.
- `GoText`: the Go library semantics the core relies on. This covers `strings.TrimLeft`/`TrimRight` (cut sets), `strings.Split`, `strconv.Itoa`/`Atoi` (`Atoi` refuses anything outside int64), and `bufio.Reader.ReadString('\n')`, including a last line without a newline, which comes back with `io.EOF`.
- `Output`: a file being written, as a `Writer` whose `written` lines grow by one per `WriteString`. The writer has a capacity: any write past it fails and leaves the file unchanged. `Emitted(w, lines, capacity)` is what a run of writes leaves, given that the writer stops at the first failure. `Fails` says whether that run failed.
- `Counts`: the `counts` package values the core reads (`SendRecvStats`, `Bin`).
- `Patterns`: the bucket values, `CompareCallPatterns`, the merge-or-append step `AddOrMerge` and its fold `Build`, the topology thresholds, and the cross-group comparison `Same` / `sameListOfPatterns` / `patternIsInList` / `NoSummary`.
- `PatternStore`: the classes `CallData` and `Data` of `patterns.go`, with `addPattern` updating the buckets and views in place, and the `ParseFiles` loop.
- `PatternReport`: three parts.
  - Reading: `GetPatternHeader`, `getPatterns` and `GetCall`, over the text left in the reader.
  - Writing: the block writers `writeDataToFile` and `WriteToFile`.
  - The three `WriteSubcomm*Patterns` section writers.
- `Profiler`:
  - `containsCall`;
  - the token sums of `GetCallRankData`, in 64-bit arithmetic;
  - the gate and the report of `AnalyzeSubCommsResults`;
  - `SaveStats`.
- `SrCountsAnalyzer`: the `GlobalPatterns` class, the main loop of the tool, its histograms and sums, and the listing of the buckets.

Conventions:

- Go's map iteration order is the runtime's choice, so it becomes a parameter.
  - `order` lists a map's keys once, in some order.
  - `visit` is the order in which `AnalyzeSubCommsResults` ranges over the groups.
  - Where the source's result does not depend on the order, as in classifying a new bucket's send entries, the loop picks an arbitrary remaining key.
- Code that is not shown becomes a function-typed parameter:
  - the compressed call-list codec of the `notation` package, `compress` and `decode`;
  - the counter readers of the `counts` and `datafilereader` packages, given as their results.
  - the one exception is `datafilereader.CompareCallPatterns`, which the analyzer's store uses: it is taken to be map equality (see "## Left out").
- Go's `int` is 64 bits wide. The token sums of `GetCallRankData` wrap explicitly (`Profiler.Wrap`), as Go's `+=` and `*` do.
- `ParseFiles` asks `counts.ParseFiles` for the same files on every turn. The model therefore takes that result once (`parsed`, or the error `parseErr`) and uses it for every call.
- `GetCall` returns an empty pattern text and no error when `getPatterns` fails. The model keeps that behaviour: `FindCall` gives `Ok("")`.

## Model

| member | source | states |
|---|---|---|
| Patterns.CompareCallPatterns | tools/internal/pkg/patterns/patterns.go:53-59 | true exactly when the two maps have the same keys and the same value under each key, i.e. exactly when the maps are equal (a nil map and an empty map are not told apart; see "## Left out") |
| Patterns.FirstMatch | tools/internal/pkg/patterns/patterns.go:272-281 | the index of the first bucket whose send and recv maps both equal the call's; no index exactly when no bucket matches |
| Patterns.AddOrMergeInvariants | tools/internal/pkg/patterns/patterns.go:271-316 | adding a call keeps the buckets' (send, recv) pairs distinct and each count equal to the length of its call list; the counts' sum grows by one |
| Patterns.BuildPartitions | tools/internal/pkg/patterns/patterns.go:271-316 | after calls 0..n-1 are added in turn, the buckets partition the calls. Each call lies in the bucket of its own shapes. Every call list is strictly increasing. Buckets come in order of their first call. The counts add up to n |
| Patterns.PartitionsExactlyOne | tools/internal/pkg/patterns/patterns.go:271-316 | in such a partition every call index lies in exactly one bucket |
| Patterns.Classify | tools/internal/pkg/patterns/patterns.go:295-313 | for non-negative entries: 1-to-N exactly when sendTo > 100·n, N-to-N exactly when sendTo == n, N-to-1 exactly when 100·sendTo < n |
| Patterns.ClassifyThresholds | tools/internal/pkg/patterns/patterns.go:297-311 | the thresholds are strict: 101 vs 1 is 1-to-N, 100 vs 1 is nothing, 1 vs 100 is nothing, and the entry 0 -> 0 is N-to-N |
| Patterns.TwoViews | tools/internal/pkg/patterns/patterns.go:295-313 | a new bucket is put in a view once per send entry of that kind, so one bucket can land in two views |
| Patterns.PatternIsInList | tools/internal/pkg/patterns/patterns.go:113-130 | the count of the first bucket having an entry whose value is numRanks (the key, numPeers, is not compared), and 0 when no bucket has one |
| Patterns.InListNonZero | tools/internal/pkg/patterns/patterns.go:113-130 | with counts at least 1, patternIsInList is non-zero exactly when some bucket has an entry of value numRanks |
| Patterns.SameIffValuesCovered | tools/internal/pkg/patterns/patterns.go:132-162 | sameListOfPatterns holds exactly when every send value and every recv value of a bucket of the first list occurs as a value of the same side in a bucket of the second list |
| Patterns.SameIgnoresPeers | tools/internal/pkg/patterns/patterns.go:113-130 | two groups whose only bucket differs in the peer count (the key) are Same |
| Patterns.SameIgnoresCounts | tools/internal/pkg/patterns/patterns.go:132-162 | two groups whose only bucket differs in its count are Same: a differing count does not fail the comparison |
| PatternStore.Data.AddPattern | tools/internal/pkg/patterns/patterns.go:271-316 | the bucket values become AddOrMerge of the old ones: the first bucket with equal maps gets count+1 and the call appended, or else one new bucket (count 1, calls [callNum]) is appended. The views stay the classification of the buckets. Empty is untouched |
| PatternStore.Data.MergeInto | tools/internal/pkg/patterns/patterns.go:272-281 | only the matched bucket changes, by count+1 and the call appended; the list of buckets and all views keep their length and members |
| PatternStore.Data.AppendNew | tools/internal/pkg/patterns/patterns.go:284-313 | exactly one bucket, with the given maps, count 1 and calls [callNum], is appended at the end, and classified |
| PatternStore.Data.ClassifyNew | tools/internal/pkg/patterns/patterns.go:295-313 | each view grows by the new bucket repeated once per send entry of that view's kind; the recv map is not consulted; the buckets and Empty are unchanged |
| PatternStore.Data.ViewsHoldBuckets | tools/internal/pkg/patterns/patterns.go:295-313 | every member of the three views is a bucket of AllPatterns and has a send entry that classifies |
| PatternStore.ViewEmpty | tools/internal/pkg/patterns/patterns.go:295-313 | a view is empty exactly when no send entry of any bucket has that view's kind |
| PatternStore.Data.NoSummaryIff | tools/internal/pkg/patterns/patterns.go:164-178 | NoSummary holds exactly when no send entry of any bucket classifies, i.e. the three views are empty |
| PatternStore.Data.AddCall | tools/internal/pkg/patterns/patterns.go:493-504 | one turn of ParseFiles: the call is added to the buckets, and a fresh bucket {count 1, calls [i]} is appended to Empty exactly when the call's send and recv non-zero totals are both 0 |
| PatternStore.ParseFiles | tools/internal/pkg/patterns/patterns.go:480-511 | calls 0..numCalls-1 are added in order: all land in one bucket holding every index, Empty holds one bucket per call when the call is all zero, and TotalNumCalls grows by the number of calls; a parse error returns the parsed stats and the empty store |
| PatternStore.BuildSameShape | tools/internal/pkg/patterns/patterns.go:485-496 | adding n calls of one shape makes exactly one bucket, with count n and calls 0..n-1 |
| PatternReport.ReadHeader | tools/internal/pkg/patterns/patterns.go:61-93 | a "## Pattern #" line followed by an "Alltoallv calls: " line reads back as the decoded call list, its text and the rest of the input |
| PatternReport.WrittenBlockIsNotAHeader | tools/internal/pkg/patterns/patterns.go:334-340 | a block as WriteToFile starts it (header, then a blank line) is refused by GetPatternHeader, which finds the blank line where the call list should be: written blocks do not read back |
| PatternReport.GetPatterns | tools/internal/pkg/patterns/patterns.go:190-216 | the loop collects the lines up to a blank line or the end of the input (a last line without newline is dropped), and fails on a second call-list line |
| PatternReport.ScanLines | tools/internal/pkg/patterns/patterns.go:190-216 | lines that are neither blank nor call-list lines, followed by a blank line, are collected whole and the reader stops after the blank line |
| PatternReport.ListsCall | tools/internal/pkg/patterns/patterns.go:246-252 | the block is the target exactly when its decoded call list contains callNum |
| PatternReport.GetCall | tools/internal/pkg/patterns/patterns.go:219-269 | the loop's result is the block search over the file text: wrong first line, end of file, unreadable header, or the first block listing the call |
| PatternReport.Lookup | tools/internal/pkg/patterns/patterns.go:219-269 | over readable blocks, succeeds exactly when some block lists the call, with the lines of the first such block; otherwise the error "unable to find data" for that call |
| PatternReport.GetCallReadsEntries | tools/internal/pkg/patterns/patterns.go:219-269 | GetCall on "# Patterns" followed by readable blocks is that lookup |
| PatternReport.ReadEntry | tools/internal/pkg/patterns/patterns.go:237-262 | a readable block yields its header's call list and, through getPatterns, exactly its lines |
| PatternReport.DataLinesCount | tools/internal/pkg/patterns/patterns.go:318-332 | writeDataToFile writes one line per send entry and one per recv entry |
| PatternReport.DataLinesHaveEntries | tools/internal/pkg/patterns/patterns.go:318-332 | every send entry appears as an "n ranks sent to k other ranks" line and every recv entry as a "recv'd from" line |
| PatternReport.WriteDataToFile | tools/internal/pkg/patterns/patterns.go:318-332 | the file receives those lines in order up to the first failed write, and the failure is reported |
| PatternReport.WriteToFile | tools/internal/pkg/patterns/patterns.go:334-355 | the file receives the header, blank line, call list and data lines up to the first failed write |
| PatternReport.CountLinesNumbered | tools/internal/pkg/patterns/patterns.go:357-396 | the count lines of a section number the patterns from 0 in view order, one line per pattern |
| PatternReport.WriteSubcomm | tools/internal/pkg/patterns/patterns.go:357-396 | a section receives its title, the descriptions, the counts per pattern and the per-rank leaders, in that order, up to the first failed write |
| Profiler.ContainsCall | tools/internal/pkg/profiler/profiler.go:94-101 | true exactly when callNum is an element of calls |
| Profiler.SumTokens | tools/internal/pkg/profiler/profiler.go:117-128 | skipping empty tokens, the loop returns the first token Atoi refuses, or else the 64-bit wrapped sum of the tokens' values |
| Profiler.GetCallRankData | tools/internal/pkg/profiler/profiler.go:103-147 | the result is the send and recv sums, each multiplied by its datatype size in 64-bit arithmetic, or the first error met (reader, then token) |
| Profiler.ValuesFail | tools/internal/pkg/profiler/profiler.go:118-126 | the sum fails exactly when some non-empty token is not an int64 integer, and the error names such a token |
| Profiler.ValuesSkipEmpty | tools/internal/pkg/profiler/profiler.go:120-122 | an empty token, as a double space gives, changes nothing |
| Profiler.CountersRoundTrip | tools/internal/pkg/profiler/profiler.go:113-130 | counters written as space-separated int64 values with a final newline sum back to the wrapped sum of the values times the datatype size |
| Profiler.WrapAdd | tools/internal/pkg/profiler/profiler.go:127-129 | wrapping after each addition gives the wrap of the whole sum |
| Profiler.CheckGroups | tools/internal/pkg/profiler/profiler.go:159-185 | the gate: in visit order, each group has the reference group's numbers of buckets and of 1-to-N, N-to-N and N-to-1 entries, and is Same as it |
| Profiler.GateMeansAlike | tools/internal/pkg/profiler/profiler.go:159-185 | the gate passes exactly when every other group is alike (equal sizes and Same) to the first visited |
| Profiler.GateSizes | tools/internal/pkg/profiler/profiler.go:159-185 | once the gate passes, all groups have equal sizes pairwise |
| Profiler.SortedKeys | tools/internal/pkg/profiler/profiler.go:201-205 | the ranks are the keys of stats, each once, in ascending order |
| Profiler.AnalyzeSubCommsResults | tools/internal/pkg/profiler/profiler.go:151-269 | if the gate fails nothing is written; if the file cannot be created nothing is written and the error is returned; otherwise the report is written up to the first failed write, which is returned, and with no ranks at all the indexing of ranks[0] panics after the first line |
| Profiler.ReportSections | tools/internal/pkg/profiler/profiler.go:201-226 | a section's title is in the report exactly when there are ranks and the lowest rank's view of that kind is non-empty |
| Profiler.SubcommTitle | tools/internal/pkg/profiler/profiler.go:207-226 | a section written holds its own title and no other section's |
| Profiler.EmptyLinesListRanks | tools/internal/pkg/profiler/profiler.go:228-239 | under the "All 0 counts" header there is a line for each rank whose Empty list is non-empty, and no other line |
| Profiler.CountsLinesCover | tools/internal/pkg/profiler/profiler.go:241-266 | every rank gets its header and a line for each of its bins |
| Profiler.BinLineKind | tools/internal/pkg/profiler/profiler.go:253-264 | a bin is written as the range Min..Max-1 exactly when Max != -1, and as "larger or equal" otherwise |
| Profiler.SaveStats | tools/internal/pkg/profiler/profiler.go:356-441 | the three files are written in turn. Each stops at its first failed write, and a failure stops the files after it |
| Profiler.BlocksNumbered | tools/internal/pkg/profiler/profiler.go:381-437 | the i-th block of a list carries the number Nth(i): i for AllPatterns and 1-to-N, 0 for every N-to-1 and N-to-n block |
| Profiler.BlocksTitles | tools/internal/pkg/profiler/profiler.go:381-437 | every title line among the blocks is the header of one of the listed buckets, with its number |
| Profiler.SummaryEmptyIff | tools/internal/pkg/profiler/profiler.go:390-438 | the summary file is only "Nothing special detected; no summary" exactly when NoSummary holds |
| Profiler.SavedPatternsUnreadable | tools/internal/pkg/profiler/profiler.go:377-389 | GetCall on a patterns file that SaveStats wrote with at least one bucket fails on the blank line after the first block's header |
| SrCountsAnalyzer.GlobalPatterns.AddPattern | tools/cmd/srcountsanalyzer/srcountsanalyzer.go:37-58 | the buckets become AddOrMerge of the old ones, keeping distinct shape pairs and counts equal to call-list lengths |
| SrCountsAnalyzer.GlobalPatterns.Merge | tools/cmd/srcountsanalyzer/srcountsanalyzer.go:37-46 | the matched bucket gets count+1 and the call appended; no bucket is added |
| SrCountsAnalyzer.GlobalPatterns.Append | tools/cmd/srcountsanalyzer/srcountsanalyzer.go:48-57 | exactly one bucket, count 1 and calls [callNum], is appended at the end |
| SrCountsAnalyzer.Analyze | tools/cmd/srcountsanalyzer/srcountsanalyzer.go:143-226 | a failed lookup stops the loop with that call's error; otherwise the sums and histograms are the tally of the looked-up calls and the buckets are built from their shapes in call order |
| SrCountsAnalyzer.LookedMeaning | tools/cmd/srcountsanalyzer/srcountsanalyzer.go:143-148 | the loop succeeds exactly when every lookup does, with call i's data at index i; otherwise it stops at the first failing call |
| SrCountsAnalyzer.TallyHistograms | tools/cmd/srcountsanalyzer/srcountsanalyzer.go:150-218 | the tally holds a histogram per value. The minima histograms also receive the non-zero minima, the two non-zero-minima maps stay empty, and the sums are the running totals |
| SrCountsAnalyzer.HistogramCounts | tools/cmd/srcountsanalyzer/srcountsanalyzer.go:154-170 | absent -> 1, present -> +1 makes each histogram map exactly the values that occur to their number of calls |
| SrCountsAnalyzer.HistogramTotal | tools/cmd/srcountsanalyzer/srcountsanalyzer.go:154-170 | a histogram's entries add up to the number of calls |
| SrCountsAnalyzer.TallyTotals | tools/cmd/srcountsanalyzer/srcountsanalyzer.go:154-218 | the datatype, communicator-size, maxima and sparsity histograms each sum to numCalls. The minima sum to at most 2·numCalls. The non-zero-minima maps are empty |
| SrCountsAnalyzer.BucketsPartitionCalls | tools/cmd/srcountsanalyzer/srcountsanalyzer.go:143-226 | after the loop every call index lies in exactly one bucket, call lists are strictly increasing, and the counts add up to numCalls |
| SrCountsAnalyzer.TotalSendMsgs | tools/cmd/srcountsanalyzer/srcountsanalyzer.go:150-152 | totalSendMsgs (line 242), the small plus the large sum, is the number of messages the calls send |
| SrCountsAnalyzer.MinsTotalBound | tools/cmd/srcountsanalyzer/srcountsanalyzer.go:172-206 | as written, the minima hold positive counts that add up to at most twice the number of calls |
| SrCountsAnalyzer.MinsAsWrittenOverwrite | tools/cmd/srcountsanalyzer/srcountsanalyzer.go:196-206 | as written, the latest call's non-zero minimum is left in the minima with the value 1, whatever it held before |
| SrCountsAnalyzer.MinsAsWrittenLoseCounts | tools/cmd/srcountsanalyzer/srcountsanalyzer.go:196-206 | two calls with send minimum 0 and non-zero minimum 5 leave sendMins = {0: 2, 5: 1} (total 3), where the separate histograms are {0: 2} and {5: 2} |
| SrCountsAnalyzer.IntendedMins | tools/cmd/srcountsanalyzer/srcountsanalyzer.go:172-206 | counted into their own histograms, the minima and the non-zero minima each map every value to its number of calls and sum to numCalls |
| SrCountsAnalyzer.ListPatterns | tools/cmd/srcountsanalyzer/srcountsanalyzer.go:277-293 | the listing is the "# Patterns" title followed by one block per bucket, in discovery order |
| SrCountsAnalyzer.ListingNumbers | tools/cmd/srcountsanalyzer/srcountsanalyzer.go:277-293 | the i-th bucket's block sits between the blocks before and after it and is numbered i |

## Left out

- Opening, creating and closing files, `defer`, and descriptor management (`GetCountProfilerFileDesc`, `GetCallData`, `LookupCall`, `Handle`) are left out. A file being read is its text. A file being written is an `Output.Writer`. A failed open becomes a parameter (`openErr`).
- The `counts`, `notation` and `datafilereader` packages are not part of this model. Their results are parameters: the parsed `SendRecvStats`, the counter strings, the `compress`/`decode` functions, the per-call `lookup` of the analyzer, and the lines `counts.Write*ToFile` produce.
- Patterns.CompareCallPatterns: nil and empty shape maps are not told apart. Go's `reflect.DeepEqual` (patterns.go:58) calls a nil map and an empty map unequal, so two shapes of length 0 can compare false there. Dafny has no nil map, so the model calls them equal. The same holds for the merge in `PatternStore.Data.AddPattern` (patterns.go:273): in Go, a call with a nil shape never joins a bucket whose shape is an empty map, and the model merges them.
- SrCountsAnalyzer.GlobalPatterns.AddPattern: `datafilereader.CompareCallPatterns` (srcountsanalyzer.go:39) is not part of this model. It is taken to be map equality, as `patterns.CompareCallPatterns` is, so the merge rule and `BucketsPartitionCalls` hold only under that assumption. The nil/empty caveat of `Patterns.CompareCallPatterns` applies here too.
- Patterns.Classify: `n*100` and `sendTo*100` (patterns.go:297, 309) are unbounded here; in Go they wrap for values past 2^63/100, which a rank count never reaches.
- Go's map iteration order is a parameter (`order`, `visit`). The order of send/recv lines in a block is therefore whatever `order` gives. The properties are stated for every order.
- Logging (`log.Printf`, count-mismatch messages), the display helpers and timings are left out: they do not change results.
- `log.Fatalf` in the analyzer is the `Fatal` error result of `Analyze`. The process exit it causes is not modelled.
- The analyzer's printing of the histograms and message ratios (srcountsanalyzer.go:228-275) is left out: it is Go map-order printing of values that the tally holds. Only `totalSendMsgs` is modelled (`TotalSendMsgs`).
- Profiler.BinLineKind: the `Max-1` of a bin is unbounded here; a bin with `Max` equal to the smallest int64 would wrap in Go.
- SrCountsAnalyzer.Analyze: the histograms and sums are unbounded integers. Go's int64 would wrap only past 2^63 calls or messages.
- `GetCall` with a `dir`, `jobid` and `rank` builds a file path; the model starts from the file's text.
- The CLI flags and `main`'s argument checks, the web UI and the `profile` command are left out: they are drivers around the core.

## Findings

| source | as written | input that shows it | evidently intended | confidence | as-written member | corrected member |
|---|---|---|---|---|---|---|
| tools/cmd/srcountsanalyzer/srcountsanalyzer.go:196-206 | each call's non-zero send (recv) minimum is looked up in `sendNotZeroMins` (`recvNotZeroMins`), which is never written, and then stored into `sendMins` (`recvMins`) with the value 1. This overwrites what that entry counted | two calls, each with send minimum 0 and non-zero send minimum 5: `sendMins` ends as {0: 2, 5: 1}, three calls in all, and `sendNotZeroMins`, printed at lines 263-265, stays empty | the non-zero minima counted into `sendNotZeroMins`/`recvNotZeroMins` (absent -> 1, present -> +1), giving {5: 2} beside `sendMins` = {0: 2} | not executed | SrCountsAnalyzer.MinsAsWrittenLoseCounts | SrCountsAnalyzer.IntendedMins |

`Analyze` models the loop as written, because that is what the tool computes. The corrected histograms are `Histogram(cs, SendNotZeroMin)` and `Histogram(cs, RecvNotZeroMin)`. `IntendedMins` proves that each counts every call exactly once. With the code as written, the minima do not add up to twice the number of calls: `MinsTotalBound` shows they add up to at most that, and the example above adds up to 3 for two calls.
