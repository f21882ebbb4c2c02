# SupremeHead orchestrator and CSV column scanner, modelled in Dafny

This project models the two cores of the Logos Agency repository and proves
properties of them.

* `orchestrator/supremehead.py`: the scroll-ingestion orchestrator. The model covers:
  * configuration loading;
  * the memory-core, mind-nexus and swarm-engine clients, with their URL composition and degraded fallbacks;
  * the append-only ledger;
  * the retry executor `_safe_call`;
  * the `ingest_scroll` state machine (received → analyzed → decided → outcome), in its blocking and non-blocking forms.
* `main.go`: CSV column-type inference. The model covers:
  * the flag classifier `InferColumnType`, with its early exits;
  * the sampling driver `InferColumnTypesStreaming`;
  * the memoising `TypeCache`;
  * the benchmark row generator `generateRows`.

Files and modules:

| file | module | contents |
|---|---|---|
| `text.dfy` | `Text` | decimal digit strings (`strconv.Itoa`, and the digits Python's `int()` reads) |
| `values.dfy` | `Values` | the Python values: JSON documents, exceptions, call outcomes, `dict.get`, `int()` |
| `retry.dfy` | `Retry` | `_safe_call` as a function of what each call does, and what a run says about its calls |
| `orchestrator.dfy` | `Orchestrator` | config, clients, ledger, the `IngestRun` specification of one ingestion, and the `SupremeHead` class |
| `go_strings.dfy` | `GoStrings` | `strings.TrimSpace` and `strings.Split(s, ",")` |
| `scanner.dfy` | `Scanner` | column classification, streaming sampling, `TypeCache`, `generateRows` |

How the model is built:

* A backend is a `Network`: a function from a URL and a JSON payload to a reply or a raised exception.
* The clock is one opaque timestamp per ingestion.
* Configuration values are JSON values, so a mistyped `retries`, `retry_delay_seconds` or `nft_threshold` takes the code's own error paths:
  * `TypeError` from `range(1, r + 1)`;
  * `ValueError` from `int()`;
  * the error `time.sleep` raises on the blocking path, and the `TypeError` of `asyncio.sleep`'s `delay <= 0` test on the non-blocking one.
* The imperative parts are methods proved against specification functions:
  * `SupremeHead.SafeCall` loops like `_safe_call`, and its result equals `Retry.SafeCallRun`.
  * `SupremeHead.Ingest` appends to a `Ledger` object. It returns what `IngestRun` says and appends exactly `IngestRun`'s events.
  * `InferColumnType` clears three flags in a loop. Its result equals `Classify`, a reference definition over the whole column.
  * `InferColumnTypesStreaming` fills an array of per-column samples. Its result equals `ColumnTypes`.
* The Python behaviour modelled is that of CPython 3.11 or later on a 64-bit build: the 4300-digit limit of `int()`, and the 64-bit nanosecond clock that bounds `time.sleep`.
* Go's numeric and date grammars are parameters: a `Grammar` holds the predicates "`strconv.Atoi` accepts", "`strconv.ParseFloat` accepts" and "`time.Parse(layout, ·)` accepts".

## Behaviour the code's names and docstrings do not suggest

The model follows the code in each case.

* **Unreachable storage backend.** `MemoryCoreClient.store` returns `{"error": ...}` instead of raising. So the action is still "Stored in Memory Core", and the error object is recorded as the `scroll_stored` result (`UnreachableStorageStillStored`).
  * With at least one attempt allowed, "Action Failed" arises only when comparing the score with `int(nft_threshold)` raises (`ActionFailsOnlyOnBadComparison`).
  * With no attempts allowed it arises always (`NoAttemptsFailTheAction`).
* **`ingest_scroll` raising.** An analysis reply that is not a JSON object makes `analysis.get` raise `AttributeError` out of `ingest_scroll`, after only the `scroll_received` entry (`LedgerOrder`).
* **Retry count of zero or less.** `_safe_call` makes no attempt, and `raise None` raises a `TypeError` (`NoAttemptRaises`). The analysis then falls back to the neutral result and the action fails (`NoAttemptsFailTheAction`).
* **The two sleeps.** The blocking executor sleeps with `time.sleep`, which rejects a negative delay, any non-number and any delay of more than 9223372036 seconds. The non-blocking one uses `asyncio.sleep`, which returns at once for a delay of zero or less; there only a non-number (the `TypeError` of its `delay <= 0` test) and an int too large for a float fail (`SleepFault`). So a 10^10-second delay stops the blocking executor after its first failure and lets the non-blocking one retry (`HugeDelayScenario`).

## Model

| member | source | states |
|---|---|---|
| `Text.DigitValue` | main.go:139 | a decimal digit stands for a value below ten |
| `Text.DigitChar` | main.go:139 | the digit written for a value below ten is a digit that reads back as that value |
| `Text.DecimalString` | main.go:139 | `strconv.Itoa` of a non-negative number is a non-empty digit string with no leading zero |
| `Text.DecimalRoundTrip` | main.go:139 | reading back the decimal spelling of n gives n |
| `Text.DecimalStringInjective` | main.go:139 | distinct numbers have distinct decimal spellings |
| `Values.TypeName` | orchestrator/supremehead.py:314 | the type named in an error message is one of Python's six JSON types, and it is "dict", the one type with a `get` method, exactly for an object |
| `Values.Truthy` | orchestrator/supremehead.py:172 | `config or {}` replaces exactly None, False, 0, "", [] and {} |
| `Values.Get` | orchestrator/supremehead.py:314 | `dict.get` returns the stored value for a present key and the default for an absent one |
| `Values.AsNumber` | orchestrator/supremehead.py:320 | a JSON value takes part in integer comparison exactly when it is an int or a bool |
| `Values.ParseInt` | orchestrator/supremehead.py:320 | `int()` of a string succeeds exactly for an optional sign followed by one to 4300 ASCII digits; a longer run of digits exceeds the default `sys.set_int_max_str_digits` limit and raises |
| `Values.ParseIntReadsDecimal` | orchestrator/supremehead.py:320 | `int()` reads back the decimal spelling of every number of at most 4300 digits, with or without a minus sign, and refuses every longer spelling |
| `Values.PyInt` | orchestrator/supremehead.py:320 | `int()` of the configured threshold: an int is itself, None, lists and dicts raise, a string is parsed |
| `Retry.AttemptLimit` | orchestrator/supremehead.py:257-260 | `range(1, r + 1)` accepts exactly ints and bools; any other retry count raises the `TypeError` of `r + 1` |
| `Retry.SleepFault` | orchestrator/supremehead.py:266-283 | on the blocking path `time.sleep(delay)` (line 267) succeeds exactly for a bool or an int from 0 to 9223372036, the whole seconds whose nanoseconds fit in 64 bits; a larger magnitude raises the conversion's OverflowError and a smaller negative delay "sleep length must be non-negative". On the non-blocking path `asyncio.sleep(delay)` (line 283) succeeds exactly for a bool or an int below 2^1024 - 2^970, the least int `float()` refuses |
| `Retry.RetryFrom` | orchestrator/supremehead.py:260-269 | from attempt k on, the loop makes no more calls than remain up to r, and sleeps at most once per call it makes |
| `Retry.Retried` | orchestrator/supremehead.py:257-269 | a run makes at most max(r, 0) calls and never more sleeps than calls |
| `Retry.SafeCallRun` | orchestrator/supremehead.py:256-285 | with the configured or explicit retry count, a run sleeps at most once per call; an int count bounds the calls; a count that is neither int nor bool raises before any call |
| `Retry.RetryFromExplains` | orchestrator/supremehead.py:256-269 | from any point of the attempt loop, the run it completes is explained by the calls made (see `RetriedExplains`) |
| `Retry.ExhaustedExplains` | orchestrator/supremehead.py:268-269 | after the last attempt the run re-raises the last failure, or raises the `raise None` TypeError when there was no attempt |
| `Retry.SucceededExplains` | orchestrator/supremehead.py:261-262 | a call that succeeds ends the run with its value after that call |
| `Retry.SleepFaultExplains` | orchestrator/supremehead.py:263-267 | when the first call fails and a retry would follow, a sleep that cannot happen ends the run with the sleep's exception after one call |
| `Retry.StepExplains` | orchestrator/supremehead.py:260-267 | a failed call followed by a sleep (none after the last attempt) leaves the rest of the run to the next attempt |
| `Retry.RetriedExplains` | orchestrator/supremehead.py:256-269 | every run has: at most r calls, every call but the last raising, one sleep between consecutive calls and none after the last, a second call only when the sleep succeeds; success returns the last call's value; failure is `raise None` (no attempt), the r-th call's exception, or the failed sleep after the first call |
| `Retry.FirstSuccessWins` | orchestrator/supremehead.py:258-262 | the first successful call (number k+1) ends the run with its value, after k+1 calls and k sleeps |
| `Retry.AllFailedReRaisesLast` | orchestrator/supremehead.py:259-269 | when all r attempts fail, there are exactly r calls and r-1 sleeps (none after the last), and the last attempt's exception is re-raised |
| `Retry.CallCount` | orchestrator/supremehead.py:256-269 | with f failures before the first success, the operation is called min(f+1, r) times |
| `Retry.NeverRaisingCalledOnce` | orchestrator/supremehead.py:256-269 | an operation that never raises is called once, with no sleep, when r ≥ 1, and never when r ≤ 0 (which raises the `raise None` TypeError) |
| `Retry.BadDelayStopsAfterFirstFailure` | orchestrator/supremehead.py:260-267 | with r ≥ 2, a delay the sleep rejects and a failing first call, the run is exactly one call, no sleep, and the sleep's exception |
| `Retry.HugeDelayScenario` | orchestrator/supremehead.py:260-283 | with 2 attempts, a failing first call and a delay of 10^10 seconds, the blocking executor stops after one call with the OverflowError of `time.sleep`, while the non-blocking one sleeps once and calls again |
| `Orchestrator.DefaultConfig` | orchestrator/supremehead.py:186-193 | the defaults hold exactly the six keys: string URLs, a ledger path that starts with the log directory and ends with "codex_ledger.log", threshold 85, 2 retries, a 1-second delay |
| `Orchestrator.JoinPath` | orchestrator/supremehead.py:190 | `os.path.join(dir, name)` starts with dir and ends with name |
| `Orchestrator.LoadConfig` | orchestrator/supremehead.py:203-215 | no file, an unreadable file, or a document that is not an object gives exactly the defaults; an object gives the defaults with each user key overriding, so every default key is present |
| `Orchestrator.LoadConfigIdempotent` | orchestrator/supremehead.py:203-215 | loading the merged configuration again as a config file changes nothing |
| `Orchestrator.RStripSlash` | orchestrator/supremehead.py:113 | `rstrip("/")` removes exactly the trailing slashes: a prefix with no trailing slash, and everything removed is a slash |
| `Orchestrator.Endpoint` | orchestrator/supremehead.py:116 | the composed URL always ends with the suffix; a base already ending with it is used unchanged, and otherwise the suffix is appended |
| `Orchestrator.EndpointIdempotent` | orchestrator/supremehead.py:116 | composing an endpoint twice gives the same URL |
| `Orchestrator.MemoryCoreClient.StoreUrl` | orchestrator/supremehead.py:116 | the storage URL ends with "/store" |
| `Orchestrator.MemoryCoreClient.Store` | orchestrator/supremehead.py:115-122 | `store` returns the backend's reply, or `{"error": str(e)}` instead of raising |
| `Orchestrator.NewMemoryCoreClient` | orchestrator/supremehead.py:112-116 | the client keeps the base URL without trailing slashes and posts to it plus "/store" unless it already ends so |
| `Orchestrator.FallbackAnalysis` | orchestrator/supremehead.py:146-152 | the fallback analysis is neutral (no patterns, "neutral", score 50) and carries notes exactly when given |
| `Orchestrator.MindNexusClient.AnalyzeUrl` | orchestrator/supremehead.py:139 | the analysis URL ends with "/analyze" |
| `Orchestrator.MindNexusClient.Analyze` | orchestrator/supremehead.py:137-167 | `analyze` returns the backend's reply, or a neutral analysis whose notes are "fallback: " (blocking) or "fallback async: " (non-blocking) plus the failure |
| `Orchestrator.NewMindNexusClient` | orchestrator/supremehead.py:134-139 | the client keeps the base URL without trailing slashes and posts to it plus "/analyze" unless it already ends so |
| `Orchestrator.SwarmEngine.TriggerNftMint` | orchestrator/supremehead.py:174-181 | the mint stub acknowledges with exactly `{"status": "mint_triggered", "tx": None}` |
| `Orchestrator.Wire` | orchestrator/supremehead.py:195-200 | construction succeeds exactly when both configured URLs are strings; the clients then use those URLs stripped of trailing slashes, and the ledger path is the configured one |
| `Orchestrator.DefaultWiring` | orchestrator/supremehead.py:186-198 | without a config file the clients post to http://localhost:3000/store and http://localhost:3001/analyze |
| `Orchestrator.LocalStoreEndpoint` | orchestrator/supremehead.py:112-116 | the default memory-core base URL composes to its "/store" endpoint |
| `Orchestrator.LocalAnalyzeEndpoint` | orchestrator/supremehead.py:134-139 | the default mind-nexus base URL composes to its "/analyze" endpoint |
| `Orchestrator.DefaultPolicy` | orchestrator/supremehead.py:186-193 | without a config file the threshold is 85 and attempts are allowed |
| `Orchestrator.Ledger.constructor` | orchestrator/supremehead.py:200 | the ledger at the configured path starts with the entries already in the file, and is writable or not as given |
| `Orchestrator.Ledger.Record` | orchestrator/supremehead.py:218-229 | recording appends exactly one entry (event type, timestamp, payload) when the ledger is writable, never raises, and leaves earlier entries unchanged |
| `Orchestrator.Stamped` | orchestrator/supremehead.py:219-223 | stamping gives one ledger entry per event, in order, carrying its type and payload |
| `Orchestrator.StampedConcat` | orchestrator/supremehead.py:218-229 | events recorded one after another form the stamped sequence of all of them |
| `Orchestrator.StampedSingle` | orchestrator/supremehead.py:218-223 | recording one event appends the entry with its type, the ingestion time and its payload |
| `Orchestrator.RecordedInTurn` | orchestrator/supremehead.py:218-229 | recording two batches of events in turn appends what recording them together appends, on a writable or an unwritable ledger |
| `Orchestrator.Snippet` | orchestrator/supremehead.py:299 | the snippet is a prefix of the raw text of at most 160 characters, the whole text when it is shorter |
| `Orchestrator.MakeScroll` | orchestrator/supremehead.py:288-293 | the scroll holds exactly raw, source and ingested_at, with the raw text and source given |
| `Orchestrator.AnalysisErrorFallback` | orchestrator/supremehead.py:305-312 | the analysis substituted when the executor raises is neutral |
| `Orchestrator.Decide` | orchestrator/supremehead.py:320 | the decision exists exactly when the score is a number and `int(threshold)` succeeds, and it mints exactly when score ≥ threshold (inclusive) |
| `Orchestrator.WrappedCallOnce` | orchestrator/supremehead.py:303 | a client call that swallows its failures is called once by the executor, without sleeping, when attempts are allowed |
| `Orchestrator.NoAttemptRaises` | orchestrator/supremehead.py:256-269 | with no attempt allowed, the executor makes no call and no sleep and raises: the `TypeError` of `range` for a non-number count, that of `raise None` otherwise |
| `Orchestrator.NoAttemptActionFails` | orchestrator/supremehead.py:317-333 | with no attempt allowed, the action stage fails without an outcome event |
| `Orchestrator.ActionsDistinct` | orchestrator/supremehead.py:323-333 | the three action labels are distinct |
| `Orchestrator.OutcomeTagsDistinct` | orchestrator/supremehead.py:324-330 | the two outcome events have distinct names, on either path |
| `Orchestrator.ActionStageShape` | orchestrator/supremehead.py:317-333 | the action step writes at most one event; none exactly when the action failed, "nft_triggered" exactly when it minted, "scroll_stored" exactly when it stored; the event records the score |
| `Orchestrator.AnalysisStageAllowed` | orchestrator/supremehead.py:301-303 | with attempts allowed, the analysis is the client's reply or its fallback, never the error fallback |
| `Orchestrator.LedgerOrder` | orchestrator/supremehead.py:296-341 | each ingestion writes "scroll_received" first with the source and a ≤160-character snippet, then "scroll_analyzed" unless it raises, then at most one outcome entry; the outcome entry is there exactly when the action did not fail, and it names that action; the "scroll_analyzed" entry and the outcome entry record the score the ingestion reports |
| `Orchestrator.AlwaysProcessed` | orchestrator/supremehead.py:314-341 | whenever the analysis is an object, the result is "Processed", echoes the source, carries the analysis, reports its value_score (0 when absent) and one of the three action labels |
| `Orchestrator.ThresholdRule` | orchestrator/supremehead.py:319-330 | a numeric score at or above `int(nft_threshold)` mints and writes "nft_triggered"; one below it stores and writes "scroll_stored"; the outcome entry records that score with the mint acknowledgement or the store reply as its result |
| `Orchestrator.ActionFailsOnlyOnBadComparison` | orchestrator/supremehead.py:319-333 | with attempts allowed, the action is "Action Failed" exactly when the score is not a number or the threshold is not an int |
| `Orchestrator.ReachableAnalysisIsUsed` | orchestrator/supremehead.py:301-303 | a reply from the analysis backend becomes the analysis |
| `Orchestrator.UnreachableAnalysisIsNeutral` | orchestrator/supremehead.py:301-330 | when the analysis backend is unreachable, the ingestion completes with the neutral analysis and score 50, and the action is decided on 50 |
| `Orchestrator.UnreachableStorageStillStored` | orchestrator/supremehead.py:325-330 | when the storage backend is unreachable, the action is still "Stored in Memory Core" and the outcome entry records the `{"error": ...}` reply |
| `Orchestrator.NoAttemptsFailTheAction` | orchestrator/supremehead.py:256-333 | with retries ≤ 0, the analysis falls back to neutral, the action fails and no outcome entry is written |
| `Orchestrator.AsyncTwinsConcat` | orchestrator/supremehead.py:344-407 | events of the two paths that pair up with "_async" names still pair up when concatenated |
| `Orchestrator.AnalysesAgree` | orchestrator/supremehead.py:301-315 | the two paths get analyses that are both objects or both not, with the same score, whatever the retry configuration |
| `Orchestrator.ActionStageModes` | orchestrator/supremehead.py:317-333 | on the same score the two paths take the same action and write the same outcome event, its name suffixed "_async" on the non-blocking path, whatever the retry configuration |
| `Orchestrator.ActionModesAllowed` | orchestrator/supremehead.py:317-333 | the same, when the executor makes at least one attempt |
| `Orchestrator.ActionModesNoAttempt` | orchestrator/supremehead.py:317-333 | the same, when the executor makes no attempt |
| `Orchestrator.ModesAgree` | orchestrator/supremehead.py:344-407 | the non-blocking path makes the same decision, reports the same score and writes the same number of entries as the blocking one, each event name suffixed "_async", whatever the retry configuration |
| `Orchestrator.DefaultScenario` | orchestrator/supremehead.py:320-330 | under the default configuration, "hello good world" from "test" is minted when its score is ≥ 85 and stored otherwise, reporting that score |
| `Orchestrator.ScoreSixtyIsStored` | orchestrator/supremehead.py:326-330 | a score of 60 under the default threshold is stored in the memory core |
| `Orchestrator.ScoreNinetyMints` | orchestrator/supremehead.py:320-324 | a score of 90 under the default threshold triggers the NFT mint |
| `Orchestrator.SupremeHead.constructor` | orchestrator/supremehead.py:195-200 | the orchestrator holds the configuration, clients and ledger path that construction derives |
| `Orchestrator.SupremeHead.SafeCall` | orchestrator/supremehead.py:256-285 | the attempt loop of either path (`time.sleep` or `asyncio.sleep` between attempts) returns, raises, calls and sleeps exactly as the retry specification `SafeCallRun` says for that path |
| `Orchestrator.SupremeHead.AnalyzeScroll` | orchestrator/supremehead.py:301-312 | the analysis step yields the retried analysis or the error fallback, as the ingestion specification says |
| `Orchestrator.SupremeHead.Act` | orchestrator/supremehead.py:317-333 | the action step returns the specified action label and appends exactly the specified outcome entry |
| `Orchestrator.SupremeHead.MintNft` | orchestrator/supremehead.py:320-324 | on the mint path the step returns the specified action and appends exactly the specified "nft_triggered" entry, or nothing when the executor raises |
| `Orchestrator.SupremeHead.StoreScroll` | orchestrator/supremehead.py:325-330 | on the store path the step returns the specified action and appends exactly the specified "scroll_stored" entry, or nothing when the executor raises |
| `Orchestrator.SupremeHead.Proceed` | orchestrator/supremehead.py:314-341 | once the analysis is an object, the report is "Processed" with the specified action and score, and the ledger gains exactly "scroll_analyzed" and the specified outcome entry |
| `Orchestrator.SupremeHead.Ingest` | orchestrator/supremehead.py:296-341 | an ingestion returns (or raises) what the specification says and appends exactly its events, in order, stamped with the ingestion time |
| `GoStrings.IsSpace` | main.go:74 | below U+0100 the white space is exactly tab, newline, vertical tab, form feed, carriage return, space, U+0085 and U+00A0 |
| `GoStrings.TrimSpace` | main.go:74 | the trimmed cell is empty exactly when the cell is all white space; otherwise it starts and ends with a non-space, and an already trimmed cell is unchanged |
| `GoStrings.TrimSpaceRemovesOnlySpace` | main.go:74 | trimming removes only white space: the result is a slice of the cell with white space only before and after it |
| `GoStrings.TrimSpaceIdempotent` | main.go:74 | trimming a trimmed cell changes nothing |
| `GoStrings.Split` | main.go:152 | splitting on "," gives one more piece than there are commas, none holding a comma |
| `GoStrings.JoinSplit` | main.go:152 | joining the pieces with "," gives back the line |
| `GoStrings.SplitJoin` | main.go:174 | splitting a join of comma-free pieces gives back the pieces |
| `GoStrings.SplitCommaFree` | main.go:174 | a comma-free string is a single piece |
| `GoStrings.SplitPrefix` | main.go:174 | a comma-free text before the first comma is the first piece |
| `Scanner.ColumnType.Name` | main.go:116-124 | the result is always one of "int", "float", "date", "string" |
| `Scanner.NamesDistinct` | main.go:116-124 | distinct column types have distinct labels |
| `Scanner.ClassifyCells` | main.go:73-124 | a type other than "string" means no blank cell, "int" that every cell is an int, "float" that every cell is a float but not all ints, "date" that every cell is a date but not all floats, and blank-free all-date cells are never "string" |
| `Scanner.BlankCellMakesString` | main.go:73-77 | a cell that is empty once trimmed makes the column "string", whatever the other cells hold |
| `Scanner.ExtendColumn` | main.go:73-112 | one more trimmed cell (the first n + 1 cells against the first n): the column has a blank exactly when it had one or the cell is blank, and stays all-int, all-float or all-date exactly when it was and the cell parses that way (an int must also parse as a float) |
| `Scanner.ParsesAsDate` | main.go:101-111 | the layout loop accepts a value exactly when some date layout parses it |
| `Scanner.InferColumnType` | main.go:67-134 | the flag loop with its early exits returns exactly the reference classification of the whole column |
| `Scanner.StringIsFinal` | main.go:79-82 | trimmed cells that are "string" on their first n cells are "string" as a whole, whatever follows, so the early exit changes nothing |
| `Scanner.OrderIrrelevant` | main.go:73-113 | the type depends only on which cells the column holds, not on their order |
| `Scanner.IntExactlyWhenAllInts` | main.go:84-117 | when every int is a float, a column is "int" exactly when every cell, trimmed, is non-empty and parses as an int |
| `Scanner.MixedIntsAndFloatsAreFloat` | main.go:84-119 | blank-free all-float cells with some non-int cell make a "float" column |
| `Scanner.DatesAreDate` | main.go:100-121 | blank-free cells that all parse as dates, with some non-float cell, make a "date" column |
| `Scanner.EmptyColumnIsInt` | main.go:69-117 | an empty column is "int" |
| `Scanner.MixedIntFloatCase` | scanner_test.go:13 | ["1", "2.5"] is "float" |
| `Scanner.EarlyStringCase` | scanner_test.go:23 | ["text", "more text", "100", "200"] is "string" |
| `Scanner.IsoDateCase` | scanner_test.go:15 | ["2024-01-01", "2023-02-05"] is "date" |
| `Scanner.DigitsUntrimmed` | main.go:139 | a decimal spelling has no white space to trim |
| `Scanner.TrimmedConcat` | main.go:176 | trimming two runs of fields one after the other trims each run |
| `Scanner.Fields` | main.go:174 | one list of fields per line, each the line split on "," |
| `Scanner.FieldsSnoc` | main.go:173-174 | splitting one more line appends its fields |
| `Scanner.Column` | main.go:174-176 | column j of the split rows never has more entries than there are rows |
| `Scanner.ColumnSnoc` | main.go:174-176 | one more row adds its j-th field to column j when it has one, and nothing otherwise |
| `Scanner.ColumnOfLongRows` | main.go:175-176 | rows that all have field j give column j one entry each, in row order, each that field |
| `Scanner.ColumnOfShortRows` | main.go:175 | rows too short for field j give column j nothing |
| `Scanner.Samples` | main.go:156-159 | there is one sample list per column of the first line |
| `Scanner.NoSamples` | main.go:156-159 | before any row is read, every column's sample list is empty |
| `Scanner.SamplesSnoc` | main.go:173-177 | appending one row's trimmed fields to the samples of some rows gives the samples of those rows and that row |
| `Scanner.RowSampled` | main.go:173-177 | sampling one more line appends its trimmed fields, split on ",", to the columns it has |
| `Scanner.StartIndex` | main.go:162-171 | sampling starts at row 0 exactly when the trimmed first cell parses as a float, else at row 1 |
| `Scanner.Window` | main.go:173 | the sampled rows are consecutive lines from the start index, min(remaining lines, sampleSize) of them |
| `Scanner.ColumnTypes` | main.go:146-186 | no lines give no types; otherwise there is one type per comma-separated field of the first line |
| `Scanner.SamplesBounded` | main.go:173-177 | each column receives at most sampleSize samples |
| `Scanner.InferColumnTypesStreaming` | main.go:146-187 | the streaming driver returns exactly the specified column types |
| `Scanner.CollectSamples` | main.go:155-178 | the sampling loops leave, for each of the first line's columns, the trimmed fields of that column in the lines from the start index, at most sampleSize of them |
| `Scanner.AppendRow` | main.go:174-177 | one row appends its trimmed field j to sample j for each column it has, and leaves the other columns unchanged |
| `Scanner.TypeNames` | main.go:181-184 | one type name per sampled column |
| `Scanner.InferEach` | main.go:180-184 | the types are exactly the names of the classifications of the columns' samples, in column order |
| `Scanner.TypeCache.constructor` | main.go:29-34 | a new cache is empty |
| `Scanner.TypeCache.GetOrInfer` | main.go:36-58 | a hit returns the stored type without inferring; a miss infers once, stores the type under the key and returns it; other keys are unchanged |
| `Scanner.TypeCache.Clear` | main.go:60-65 | clearing leaves the cache empty |
| `Scanner.GenerateRows` | main.go:136-142 | the benchmark rows are the decimal spellings of 0 to n-1, in order |
| `Scanner.GeneratedRowsAreInts` | scanner_test.go:36-41 | the benchmark column is "int" when Atoi and ParseFloat accept its spellings |

## Left out

- HTTP transport (`HTTPClient`, orchestrator/supremehead.py:71-108): requests, urllib, aiohttp and timeouts are one `Network` function per ingestion, shared by the blocking and non-blocking paths.
- asyncio scheduling: `run_in_executor`, aiofiles and the `hasattr` probes. The non-blocking path is modelled as the same sequential state machine with "_async" event names. The probes always find the async methods, because every client defines them.
- Logging in both files: the `logger` calls, `EnablePerformanceLogging` and `time.Since` (main.go:126-131).
- Timestamps: `now_iso` is a single opaque string per ingestion. The code reads the clock separately for the scroll, each ledger entry and each fallback analysis.
- Unused or demonstration code: `safe_write_json`, `_cli_demo` and the Flask stubs of the two backends.
- Floating-point values: JSON numbers are integers here, so float scores, thresholds and delays are not modelled.
- Orchestrator.LoadConfig: a config document that is a JSON list of key/value pairs, which `dict.update` would merge, gives the defaults here. The file system (`os.path.exists`, `open`, `json.load`) is reduced to what reading the file gave.
- Values.ParseInt: Python's `int()` also accepts surrounding white space, underscores between digits and non-ASCII digits; these are not accepted here. The digit limit is the default 4300; a process that changes it with `sys.set_int_max_str_digits` is not modelled.
- Orchestrator.Ledger.Record: whether writing succeeds is fixed per ledger (`writable`); a single failing write, and the atomicity of lines under concurrent writers, are not modelled.
- Orchestrator.SupremeHead.Ingest: `json.dumps` failing on a payload is not modelled, because every payload here is JSON.
- Go strings are sequences of code points; invalid UTF-8 and the byte-level behaviour of `strings.TrimSpace` and `strings.Split` are not modelled.
- Go's numeric and date grammars (`strconv.Atoi`, `strconv.ParseFloat`, `time.Parse`) are parameters of the model (`Scanner.Grammar`), not definitions.
- Scanner.TypeCache.GetOrInfer: `sync.RWMutex` locking is not modelled. The double-check under the write lock (main.go:50-53) cannot find the key in a sequential run, so it is left out.
- Scanner.InferColumnTypesStreaming: a negative `sampleSize` makes Go's `make` panic; the parameter is a natural number here.
- Scanner.GenerateRows: a negative `n` makes Go's `make` panic; the parameter is a natural number here.
- The Go benchmarks (scanner_test.go:36-55) are represented only by `GeneratedRowsAreInts`; run time is not modelled.
