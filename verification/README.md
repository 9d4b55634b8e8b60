# Filing Sage: verified models of its hard parts

Dafny models of the parts of Filing Sage whose correctness is not obvious from
reading one function, with the properties its documentation relies on proved
for every input, every schedule or every run. Where a property is false as
documented, the exact condition under which the code meets it is proved
instead, with inputs that break it.

Five parts, one or more modules each:

- **The shared SEC request budget** (`SlidingWindow`, `SharedBudget`,
  `RollingWindow`, `SharedLimiter`, `MinInterval`). Any number of processes
  share one Redis sorted set. `SharedBudget` is a transition system in which a
  process reads the clock in one step and runs its transaction in a later one,
  give-backs are separate and may fail, a transaction may be applied and still
  look like an error, and the key may expire. `SharedLimiter` and `MinInterval`
  are the two limiter objects.
- **Quarterly figures from XBRL** (`FactSelection`, `YearWalk`, `Facts`,
  `FactExtraction`, `FactKeys`, `StoredFacts`, `TrailingTwelve`,
  `QuarterlyYears`). Selection of one value per period, the walk through a
  fiscal year with a running year-to-date total, the unique key of the facts
  table, the trailing-twelve-month sum over the result, and what the ordinary
  year with three reported quarters comes to.
- **Chunking** (`TokenWindows`, `Chunking`, `GoldChunks`). Overlapping token
  windows cut between words, when the loop ends, what the windows cover, and
  the numbering of a filing's chunks.
- **The ingestion pipeline** (`PointIds`, `Pipeline`, `SearchIndex`,
  `Quarantine`, `Convergence`, `EventLog`, `Reconciler`, `RequeueBound`,
  `RequeueRuns`, `Progress`, `Worker`, `Reconciliation`, `Recovery`). A
  transition system over filing rows, event log, chunk rows, Qdrant, disk, task
  queue and running attempts, with duplicated and lost tasks, crashes between
  Qdrant batches and at commit, lost files, the reconciler and the manual
  recovery. `Worker.Store` and `Recovery` are the same steps as the worker
  executes them, failures included, proved equal to the system's steps.
- **Section detection** (`Sections`). The two passes over a filing's lines.

Dates are day numbers and times are reals or seconds; amounts are reals.

Where the code and its documentation disagree, the code is modelled:

- `rate_limit.py:53` promises the budget for any rolling second. That is true
  only if no time passes between reading the clock and the transaction;
  `RollingWindow.RollingExactly` says for every window length whether it is
  bounded.
- The comment at `chunking.py:136-139` says an oversized word cannot loop for
  ever. It can, through the overlap rather than the window end:
  `TokenWindows.HaltsExactly` says when, `ToleratedWordLength` for which word
  lengths never. At 384 and 64 it takes a word of more than 160 tokens; whether
  the configured tokenizer can produce one is not established here.
- `xbrl.py` writes into a table with a unique key that misaligned reported
  quarters, two annual periods ending together, or one year reported with two
  lengths violate; `FactKeys.ExtractedKeysExactly` gives the exact condition.
- `sections.py:104-107` speaks of the following non-empty line as heading; the
  code takes only the very next line, and only if it has 1 to 120 characters.
  That line may itself be a marker, which then also starts its own section.
- `recovery.py` stops re-queueing at three failures, but a task lost before it
  starts leaves no failure. `RequeueBound.RequeueBalance` is what holds on every
  run, and `RequeueRuns.BoundIsTight` attains it.

## Model

| member | source | states |
|---|---|---|
| `SharedBudget.NoWindowExceedsBudget` | src/filingsage/connectors/rate_limit.py:84-122 | Safety over every run of any number of processes, counting requests when they are let through: if no transaction lags its clock read by more than `latency`, no half-open window of length 1 s - `latency` ever holds more requests than the budget, whatever give-backs are lost, transactions half fail or keys expire. |
| `RollingWindow.RollingExactly` | src/filingsage/connectors/rate_limit.py:52-122 | Exactly which windows are bounded over every run: those of length at most 1 s - `latency`, the empty ones, and all of them if the budget is zero. |
| `RollingWindow.RollingSecondExactly` | src/filingsage/connectors/rate_limit.py:52-122 | The documented claim (at most the budget let through in any rolling second) holds on every run if and only if the latency is zero or the budget is zero. |
| `SharedBudget.GrantKeepsWindows` | src/filingsage/connectors/rate_limit.py:92-114 | When the count finds room, every earlier request sharing a short enough window with the new one is still a member, so the window stays within budget. |
| `SharedBudget.StepKeepsInv` | src/filingsage/connectors/rate_limit.py:84-122 | Every step of every process (clock read, transaction, failed transaction that was or was not applied, give-back that was or was not applied, fallback, key expiry) keeps the windows and the bookkeeping they rest on. |
| `SharedBudget.RefusedOnlyWhenFull` | src/filingsage/connectors/rate_limit.py:92-120 | On a run without faults a refused transaction finds `budget` members of the last second, each let through or about to be given back by another refused process: the budget is not wasted. |
| `RollingWindow.LagBreaksClaim` | src/filingsage/connectors/rate_limit.py:85-122 | For every positive budget and every window longer than 1 s - `latency` there is a run that lets one more request than the budget through within it: a stalled request is forgotten too early by its lag. |
| `RollingWindow.ZeroBudgetGrantsNothing` | src/filingsage/connectors/rate_limit.py:113-114 | With a budget of zero no run grants anything. |
| `SharedLimiter.SharedRateLimiter.TryShared` | src/filingsage/connectors/rate_limit.py:90-114 | One transaction. It starts the fallback period if and only if it raised an error; otherwise it is granted exactly when fewer members than the budget are left after pruning, and if not the oldest score comes back. |
| `SharedLimiter.SharedRateLimiter.GiveBackAndSleep` | src/filingsage/connectors/rate_limit.py:115-122 | Giving back removes the own member and no other, or is one of the lost ones; the nap lasts until the oldest request ages out, at least a millisecond and at most one second, after which there is strictly less in the way. |
| `SharedLimiter.SharedRateLimiter.Wait` | src/filingsage/connectors/rate_limit.py:84-122 | With no other caller active `wait` returns, after at most as many sleeps as there are members in the way and lost give-backs, none if there is room and at most one when the set is within budget and nothing was lost, each of at most one second. It returns with its own member counted within budget, unless a transaction raised an error or a fallback period was in force at the call; only then it is paced by the fallback. |
| `SharedLimiter.SleepFreesSlot` | src/filingsage/connectors/rate_limit.py:117-122 | Once the oldest score plus one second has come, the inclusive prune drops a member, with or without the give-back. |
| `SharedLimiter.OneProbePerOutagePeriod` | src/filingsage/connectors/rate_limit.py:87-108 | Redis is tried at most once in any 30 seconds of an outage, given the spacing of probes that every `wait` keeps. |
| `SharedBudget.TriesAgain` | src/filingsage/connectors/rate_limit.py:87-112 | In whatever else happens meanwhile, a process asks Redis again thirty seconds or more after an error, and at its next request after a transaction that went through. |
| `MinInterval.RateLimiter.constructor` | src/filingsage/connectors/edgar.py:59-68 | A new limiter has granted nothing and spaces requests by 1 / max_per_second. |
| `MinInterval.RateLimiter.Wait` | src/filingsage/connectors/edgar.py:70-74 | Each call appends one grant, at the time it returns, and all grants so far stay at least one interval apart; it sleeps at most once, and no longer than until the next request is due. |
| `MinInterval.SpacedWindow` | src/filingsage/connectors/edgar.py:70-74 | A half-open stretch of k intervals holds at most k grants. |
| `MinInterval.AllOnFallback` | src/filingsage/connectors/rate_limit.py:19-23 | With every process on the fallback, any half-open second holds at most two requests per process, so up to four processes stay under ten. |
| `FactSelection.LatestPerPeriod` | src/filingsage/financials/xbrl.py:135-143 | The fold over raw entries computes the specified selection. |
| `FactSelection.LatestSpec` | src/filingsage/financials/xbrl.py:135-143 | Each reported period is kept once, with the value filed last and the later entry on a tie, and nothing else is kept. |
| `FactSelection.MergedPeriods` | src/filingsage/financials/xbrl.py:146-162 | Ranking the concepts that have data and merging them in that order computes the specified merge. |
| `FactSelection.MergeIsFirst` | src/filingsage/financials/xbrl.py:158-162 | Filling without overwriting gives each period the value of the first concept in rank order that has it. |
| `FactSelection.RankedLeader` | src/filingsage/financials/xbrl.py:153-157 | The first ranked concept that has a period is the one that leads for it: none that has it ranks higher, and none listed before it as high. |
| `FactSelection.RankedIsStable` | src/filingsage/financials/xbrl.py:153-157 | The ranking is a stable descending sort: every candidate is kept and those of equal rank stay in listing order. |
| `FactSelection.RankMeans` | src/filingsage/financials/xbrl.py:153-157 | A candidate ranks higher if its latest period ends later, or as late with more periods. |
| `FactSelection.MergedSpec` | src/filingsage/financials/xbrl.py:146-162 | Every period some concept has is present exactly once, with the value of the highest-ranked concept that has it. |
| `FactSelection.SelectSpec` | src/filingsage/financials/xbrl.py:135-162 | Both folds together: a period is kept exactly when some concept reports it, and its value is the entry filed last under the concept whose data end latest of those that report it (of equals the one with more periods, then the first listed). |
| `YearWalk.WalkYear` | src/filingsage/financials/xbrl.py:201-228 | The while loop over `prev_end` and `running` computes the walk, and terminates by day arithmetic. |
| `YearWalk.WalkShape` | src/filingsage/financials/xbrl.py:201-228 | Steps form an unbroken chain, each starting within three days of the day after the previous end (derived ones exactly there); a quarter is derived only where no reported one starts nearby; each step but the last advances at least 77 days. |
| `YearWalk.WalkIsMaximal` | src/filingsage/financials/xbrl.py:202-227 | A walk stops no earlier than it must: before the year is over only where no reported quarter starts within three days of the next day and no year-to-date figure ends 80 to 100 days after it. Each step takes the first reported quarter nearby, and only without one the first year-to-date figure. |
| `YearWalk.QuartersAre` | src/filingsage/financials/xbrl.py:184 | The quarters kept are the values of 80 to 100 days, the last of each end. |
| `YearWalk.YtdsAre` | src/filingsage/financials/xbrl.py:197-200 | The year-to-date figures kept start with the year and end within it, the last of each end. |
| `YearWalk.WalkIsShort` | src/filingsage/financials/xbrl.py:196-228 | A fiscal year takes at most five steps. |
| `YearWalk.WalkTotals` | src/filingsage/financials/xbrl.py:215-228 | Each step starts from the total the one before it left, and leaves the year-to-date figure at its end where there is one. |
| `YearWalk.Telescope` | src/filingsage/financials/xbrl.py:201-228 | The walked quarters sum to the last running total, up to what reported quarters disagree with year-to-date figures. |
| `YearWalk.RunningTotal` | src/filingsage/financials/xbrl.py:215-225 | At every loop head `running` is the last year-to-date figure met plus the reported quarters since. |
| `YearWalk.WalkConserves` | src/filingsage/financials/xbrl.py:191-228 | A walk that reaches the end of the year leaves quarters summing to the annual value plus the total disagreement, so exactly to the annual value if and only if the disagreements cancel. |
| `FactExtraction.DeriveYear` | src/filingsage/financials/xbrl.py:196-228 | The loop over one year appends exactly the derived quarters of its walk. |
| `FactExtraction.DeriveDurations` | src/filingsage/financials/xbrl.py:181-229 | The whole function yields reported annuals, reported quarters and, unless per share, the derived quarters of every year. |
| `FactExtraction.RawFactsAre` | src/filingsage/financials/xbrl.py:116-132 | Of a concept's entries exactly those of a reporting form with a value and an end are kept, each with its own data, in their order. |
| `FactExtraction.LatestByDate` | src/filingsage/financials/xbrl.py:239-244 | The loop computes the specified choice of one balance-sheet value per date. |
| `FactExtraction.ByDateIsInstants` | src/filingsage/financials/xbrl.py:238-245 | After one value per period has been chosen, no two instants share a date: every one is kept, in order, and the comparison of filing dates never decides. |
| `FactExtraction.ExtractAll` | src/filingsage/financials/xbrl.py:232-248 | The loops and the final sort compute the specified extraction. |
| `FactExtraction.ExtractedAre` | src/filingsage/financials/xbrl.py:232-248 | The extraction stands in order of metric, then annual before instant before quarter, then end, and holds every metric's facts and no others. |
| `StoredFacts.MetricFactsAre` | src/filingsage/financials/xbrl.py:165-248 | Every field of every fact: a balance-sheet metric has one instant per value without a start; any other has an annual fact for each value of 350 to 380 days, a quarter for each kept quarter and, unless it is per share, a derived quarter, flagged as such, for each difference in a walk. |
| `StoredFacts.ReportedForIs` | src/filingsage/financials/xbrl.py:146-152 | A metric draws on one list per concept, in the order given, of the entries in its unit. |
| `StoredFacts.DurationsKeepOrder` | src/filingsage/financials/xbrl.py:182 | The values with a start date are all taken, in their order. |
| `Facts.SortKeepsUnique` | src/filingsage/financials/xbrl.py:248 | The sort neither makes nor removes a clash of keys. |
| `FactKeys.DerivedUnique` | src/filingsage/financials/xbrl.py:196-228 | For any set of fiscal years, derived quarters share no end if and only if no two years' walks derive quarters that end together; one walk never repeats an end. |
| `FactKeys.DurationKeysExactly` | src/filingsage/financials/xbrl.py:181-229 | On every input, one metric's facts respect the unique key if and only if its annual periods end apart and, unless it is per share, its reported quarters are aligned with the walk and no two walks derive the same end. |
| `FactKeys.MisalignedQuarterClashes` | src/filingsage/financials/xbrl.py:204-224 | A reported quarter that starts nine days late gives two facts with one key: the guard is not always met. |
| `FactKeys.RestatedYearClashes` | src/filingsage/financials/xbrl.py:196-228 | A year reported once with 365 and once with 370 days derives its second quarter twice: overlapping years clash even when they end apart. |
| `FactKeys.SharedYearEndClashes` | src/filingsage/financials/xbrl.py:183-187 | Two annual periods with the same end always give two facts with one key. |
| `FactKeys.ExtractedKeysExactly` | src/filingsage/financials/xbrl.py:232-248 | Over all metrics and every document: the extraction respects the (metric, period, end) key if and only if every metric fits. |
| `FactKeys.DisjointYearsFit` | src/filingsage/financials/xbrl.py:181-229 | For fiscal years that do not overlap, alignment alone decides. |
| `TrailingTwelve.TrailingSum` | src/filingsage/financials/report.py:125-134 | Four latest quarters that are back to back sum to the trailing value as of the last end. |
| `TrailingTwelve.TrailingExactly` | src/filingsage/financials/report.py:125-134 | A trailing sum is given if and only if there are four quarters and each of the latest four starts within three days of the day after the one before it; it is their sum as of the last end. |
| `TrailingTwelve.FullYearTrails` | src/filingsage/financials/report.py:125-134 | When a year walks in four quarters and they are the latest of any unique list that holds the metric's facts, the trailing sum is the annual value plus the total disagreement, as of the annual end. |
| `TrailingTwelve.FullYearExtracted` | src/filingsage/financials/report.py:125-134 | The same of the extraction itself, whenever it can be stored under its key. |
| `TrailingTwelve.YtdOnlyWalk` | src/filingsage/financials/xbrl.py:201-228 | A year reported only year to date walks as one reported and three derived quarters. |
| `TrailingTwelve.YtdOnlyYearTrails` | src/filingsage/financials/report.py:125-134 | For a year reported only year to date, the trailing twelve months of any unique list that holds the metric's facts are exactly the annual value at the annual end. |
| `TrailingTwelve.YtdOnlyExtracted` | src/filingsage/financials/report.py:125-134 | From the document to the figure: the trailing twelve months of the extraction are exactly the annual value, for a year reported only year to date whose quarters are the latest. |
| `QuarterlyYears.QuarterlyWalk` | src/filingsage/financials/xbrl.py:201-228 | A year with three quarters, the half year and nine months reported walks as those three quarters and one derived. |
| `QuarterlyYears.OneQuarterDerived` | src/filingsage/financials/xbrl.py:196-228 | Such a year derives exactly one quarter: annual value minus nine months, from the day after the third quarter to the annual end. |
| `QuarterlyYears.QuarterlyYearTrails` | src/filingsage/financials/report.py:125-134 | It trails to the annual value plus what the three quarters and the nine months disagree, so to the annual value if and only if they agree. |
| `QuarterlyYears.QuarterlyYearExtracted` | src/filingsage/financials/report.py:125-134 | The same from the document to the figure. |
| `TrailingTwelve.ExtractedHolds` | src/filingsage/financials/xbrl.py:236-248 | Every fact of every metric is among the extracted ones. |
| `TokenWindows.WordStarts` | src/filingsage/gold/chunking.py:114 | The comprehension lists exactly the word starts, in order. |
| `TokenWindows.BoundaryAtOrBefore` | src/filingsage/gold/chunking.py:116-122 | The scan returns the last word start at or before the index. |
| `TokenWindows.BoundaryAfter` | src/filingsage/gold/chunking.py:124-128 | The scan returns the first word start after the index, or the end. |
| `TokenWindows.WindowUnderBound` | src/filingsage/gold/chunking.py:132-147 | Under the word bound a window is within the limit, ends less than a word short of it, moves on, and overlaps the next by at least `overlap` and fewer than `overlap` + w tokens. |
| `TokenWindows.HaltsExactly` | src/filingsage/gold/chunking.py:130-148 | The loop ends on a text if and only if no window it reaches stands still, decided window by window by a guard on the word at `start`. |
| `TokenWindows.StuckTextNeverHalts` | src/filingsage/gold/chunking.py:134-147 | A family of texts on which the loop never ends. |
| `TokenWindows.ToleratedWordLength` | src/filingsage/gold/chunking.py:130-148 | The loop ends on every text whose words have at most w tokens if and only if 2w <= max - overlap + 1. |
| `TokenWindows.ToleratedByPipeline` | src/filingsage/gold/chunking.py:52-57 | For 384 and 64 the tolerated word length is exactly 160 tokens. |
| `TokenWindows.NoOverlapHalts` | src/filingsage/gold/chunking.py:132-147 | Without an overlap the loop ends on every text. |
| `Chunking.SplitByTokens` | src/filingsage/gold/chunking.py:108-148 | A text within the limit comes back whole as one window. Of a longer one, whenever the loop ends, each window is the source from its first token's start to its last token's end, ends at the last word that begins within the limit (or with an oversized first word), the next starts at the last word that begins `overlap` tokens before that, and together they hold every token. |
| `Chunking.HaltingCovers` | src/filingsage/gold/chunking.py:132-148 | Without any bound on words, a loop that ends has covered every token, in order, with every cut between words and only a single word ever over the limit. |
| `Chunking.BoundedWindows` | src/filingsage/gold/chunking.py:132-148 | Under the word bound every window is within the limit and consecutive ones overlap by `overlap` to `overlap` + w - 1 tokens. |
| `Chunking.FactStaysWhole` | src/filingsage/gold/chunking.py:54-57 | Every span of at most `overlap` + 1 tokens lies whole inside some window. |
| `Chunking.GlueIsText` | src/filingsage/gold/chunking.py:141-148 | Gluing pieces along their overlaps gives back the text between the first and last token. |
| `Chunking.ChunksLoseNothing` | src/filingsage/gold/chunking.py:90-148 | All together: coverage, limit, overlap and the text reassembled. |
| `GoldChunks.ChunkSections` | src/filingsage/gold/chunking.py:151-184 | The nested loops with `seen_hashes` and `seq` produce the specified chunks; a section within the limit reaches a chunk with the hash of its whole text, and of a longer one every window does. |
| `GoldChunks.ChunksOfFiling` | src/filingsage/gold/chunking.py:151-184 | Chunks are numbered without gaps, no hash occurs twice, every window of every section has the chunk of its hash, and each chunk is one of those windows, with its section's key and item and its text and counts. |
| `GoldChunks.WindowsComeFromSections` | src/filingsage/gold/chunking.py:164-169 | Every window is cut from one section, never from the text of two. |
| `GoldChunks.KeptAreFirst` | src/filingsage/gold/chunking.py:170-183 | The kept chunks are exactly the first occurrences, in order. |
| `GoldChunks.WindowsInOrder` | src/filingsage/gold/chunking.py:164-169 | Windows come section by section, and within one from its start to its end, none left out. |
| `PointIds.PointNameInjective` | src/filingsage/gold/vector_store.py:38-45 | Two chunks share a point name only if accession and seq are the same, whatever the accession contains. |
| `SearchIndex.EmbeddedIsSearchable` | src/filingsage/worker/tasks.py:391-427 | In every reachable state an EMBEDDED filing has every chunk row, with its text and point id, and Qdrant holds that point with the row's id and text. |
| `SearchIndex.StepKeepsInv` | src/filingsage/worker/tasks.py:377-427 | Every step (duplicate attempts, a crash between any two Qdrant batches or at commit, resets, lost files) keeps rows, point ids and points in agreement. |
| `SearchIndex.BatchKeepsInv` | src/filingsage/gold/vector_store.py:142-174 | A batch of one attempt never spoils points of committed rows or of other attempts. |
| `SearchIndex.CommitKeepsInv` | src/filingsage/worker/tasks.py:419-423 | A commit completes the filing's rows, each with its point in place. |
| `SearchIndex.UpsertedAt` | src/filingsage/gold/vector_store.py:147-174 | An upsert of rows lo..hi writes exactly their points and touches no other. |
| `Convergence.EmbeddedRunsAgree` | src/filingsage/worker/tasks.py:386-389 | Any two runs that leave a filing EMBEDDED agree on its seq-to-text rows and on its points and their texts. |
| `Convergence.SameAsFaultFree` | src/filingsage/worker/tasks.py:386-389 | Any run that ends EMBEDDED leaves the same rows and exactly the same points as one run without faults, which exists because the parser accepts the document. |
| `Convergence.HitNamesItsRow` | src/filingsage/gold/vector_store.py:159-169 | The `chunk_id` in a point of an embedded filing identifies exactly one row: the chunk with the point's seq and text. |
| `Convergence.QueuedFetchCanFinish` | src/filingsage/worker/tasks.py:300-427 | From any state a queued fetch of a document the parser accepts can still be carried through to EMBEDDED, unless another attempt is inserting the filing's rows at that moment. |
| `Convergence.EmbeddedCanGoBack` | src/filingsage/worker/tasks.py:318-321 | EMBEDDED is not final: a second delivery of the fetch writes FETCHED, with rows and points still in place. |
| `Quarantine.VerdictHolds` | src/filingsage/worker/tasks.py:335-338 | Over every run a rejected filing is never embedded and an accepted one never quarantined. |
| `Progress.NoDeadEnds` | src/filingsage/worker/recovery.py:17-28 | From every reachable state, a filing in progress with fewer than three failures can still be embedded if and only if the parser accepts its document, and quarantined if and only if it rejects it. |
| `Progress.RetryableCanFinish` | src/filingsage/worker/recovery.py:211-286 | For a stuck retryable filing the reconciler's own runs lead to a task that carries it where its document leads. |
| `Progress.PickExists` | src/filingsage/worker/recovery.py:242-245 | In every state there is an oldest `limit` of retryable filings to pick. |
| `EventLog.LogTellsStatus` | src/filingsage/worker/tasks.py:194-220 | After every transaction of every run each filing's status is the fold of its own events, it was discovered once, and no queued task lacks its filing or the key it reads. |
| `EventLog.StepKeepsInv` | src/filingsage/db/events.py:1-16 | Every step keeps status and log in agreement; work rolled back leaves neither. |
| `EventLog.ReconcileKeepsLog` | src/filingsage/worker/recovery.py:255-272 | The reconciler's batch of re-queue and reset events says the statuses its updates write. |
| `EventLog.RecoveryKeepsLog` | src/filingsage/worker/recovery.py:120-137 | So does the bulk reset, even of filings whose status changed since the plan was read. |
| `Reconciler.PickOldest` | src/filingsage/worker/recovery.py:242-245 | The ordered, limited query: the oldest `limit` retryable filings by (updated_at, id), oldest first. |
| `Reconciler.PickedCanRun` | src/filingsage/worker/recovery.py:109-117 | Every picked filing gets a task whose status and input file are in place, and a fresh updated_at. |
| `Reconciliation.RunRestarts` | src/filingsage/worker/recovery.py:109-117 | Spelled out over rows, files, events and tasks: a run picks the oldest `limit` filings on the way, not updated for half an hour and with fewer than three failures. A picked filing goes back to DISCOVERED, with a reset event and a fetch, if and only if it was FETCHED without its bronze key or file or PARSED without its silver key or file; every other keeps its status and gets exactly the task of its next step. All picked are dated now; nothing else changes. |
| `Reconciler.RunTakesLimit` | src/filingsage/worker/recovery.py:243-272 | A run that passes a stuck filing by takes `limit` filings out of its way. |
| `Reconciler.OverlookedBound` | src/filingsage/worker/recovery.py:232-272 | A retryable filing that nothing touches is passed by at most k / limit runs, k being the retryable filings ahead of it. |
| `Reconciler.RequeuedInTurn` | src/filingsage/worker/recovery.py:232-272 | Fairness: by run k / limit + 1 a stuck retryable filing is re-queued, in whatever else happens meanwhile, unless a step of its own comes first. |
| `RequeueBound.RequeueBalance` | src/filingsage/worker/recovery.py:219-280 | Without hypothesis, for any choice of answers that includes failures: on every run a filing is re-queued at most three times, plus once for each other answer, plus once for each re-queue that came while one was unanswered. |
| `RequeueBound.RequeuedByOutcomes` | src/filingsage/worker/recovery.py:219-280 | With EMBEDDED, QUARANTINED and failures as answers: three, plus its embedded and parse_failed events, plus the unanswered. |
| `RequeueBound.RequeuedByFailures` | src/filingsage/worker/recovery.py:219-225 | With failures as the only answers: three, plus the unanswered. |
| `RequeueBound.AnsweredExactly` | src/filingsage/worker/recovery.py:219-225 | No re-queue is unanswered if and only if there is an answer between any two. |
| `RequeueBound.RequeuedAtMostThrice` | src/filingsage/worker/recovery.py:219-225 | A filing whose re-queues are each followed by a failure before the next is re-queued at most three times in any run: the case of none unanswered. |
| `RequeueBound.FewBusyRuns` | src/filingsage/worker/recovery.py:211-286 | On every run, at most three reconciler runs per filing, and one for each re-queue that came while an earlier one was unanswered, find anything to do. |
| `RequeueBound.BacklogDrains` | src/filingsage/worker/recovery.py:211-286 | Once the reconciler has run more often than that, one of its runs found no stuck filing but those with three failures. |
| `RequeueRuns.LostTasksRequeueForever` | src/filingsage/worker/recovery.py:232-272 | A filing whose tasks are lost before they start records no failure and is re-queued any number of times. |
| `RequeueRuns.BoundIsTight` | src/filingsage/worker/recovery.py:232-272 | For every number of unanswered re-queues there is a run that attains the bound. |
| `RequeueBound.StepKeepsEarly` | src/filingsage/worker/recovery.py:233-245 | Whenever any run re-queues a filing it has fewer than three failures. |
| `Worker.Store.DiscoverAndInsert` | src/filingsage/worker/tasks.py:182-220 | One transaction inserts exactly the filings not known, once each, at DISCOVERED with fresh ids and a discovery event in order; one fetch for each is enqueued after it, and no other task. |
| `Worker.GivingUp` | src/filingsage/worker/tasks.py:322-325 | Giving up is the system's step: one filing.failed event and nothing else. |
| `Worker.Store.FetchFiling` | src/filingsage/worker/tasks.py:300-327 | Succeeds if the document is in bronze or downloads and the transaction commits: FETCHED whatever the status was, the bronze key set, one event and one parse task. A failure leaves the document if it was saved, one filing.failed event if it gave up and none if it is retried. |
| `Worker.Store.ParseFiling` | src/filingsage/worker/tasks.py:331-373 | Takes the document's verdict in one transaction: PARSED with its key, event and embed task, or QUARANTINED with its event. It can fail at a missing bronze file, in the parser, and at commit, which leaves the silver file of an accepted document, one filing.failed event if it gave up and none if it is retried. |
| `Worker.Store.PersistChunks` | src/filingsage/gold/chunking.py:197-226 | Inserts exactly the missing rows, with the chunk's text and without a point id, keeps the others, draws one row id per chunk, and returns how many rows it inserted. |
| `Worker.Store.UpsertChunks` | src/filingsage/gold/vector_store.py:139-176 | The batch loop upserts a prefix of whole batches; it returns the ids of all rows exactly when no batch failed. |
| `Worker.Store.ChunkAndEmbed` | src/filingsage/worker/tasks.py:377-427 | The transaction commits rows, point ids, status and event together, after which every chunk is searchable, or leaves only upserted points behind, with one filing.failed event if it gave up and none if it is retried; both are runs of the transition system, and every invariant holds after. |
| `Worker.AttemptIsRun` | src/filingsage/worker/tasks.py:391-427 | The state in the middle of an attempt is reached by a begin step and as many batch steps. |
| `Worker.AttemptSound` | src/filingsage/worker/tasks.py:391-427 | Wherever an attempt stops, what it leaves satisfies every invariant. |
| `Recovery.ResetToDiscovered` | src/filingsage/worker/recovery.py:120-137 | One bulk update sends the listed filings to DISCOVERED, with the keys they had and dated now, and one event per filing records it in the list's order. |
| `Recovery.ReconcileStuckFilings` | src/filingsage/worker/recovery.py:211-286 | The run picks, writes, logs and enqueues what `Reconciliation.RunRestarts` spells out, and reports exactly the resets, those left alone after three failures and those over the cap. |
| `Recovery.ClassifyRows` | src/filingsage/worker/recovery.py:160-165 | Every filing discovered, fetched or parsed is listed as intact or to be reset, by whether its bronze key is set and the file there, and nothing else is. |
| `Recovery.RecoverStaleFilings` | src/filingsage/worker/recovery.py:172-186 | The real run sends every planned filing back to DISCOVERED, whatever its status by then, logs each, and adds one fetch for each and no other task. |
| `Sections.FindMarkers` | src/filingsage/parsing/sections.py:121-134 | The first pass computes the markers. |
| `Sections.MarkersAreListed` | src/filingsage/parsing/sections.py:121-134 | Markers stand in document order, one per line that matches an item with at most 200 characters behind it and is no PART line of a 10-Q, with the matched item, the part in force and the trailing text as inline heading. |
| `Sections.PartIsLast` | src/filingsage/parsing/sections.py:122-128 | A 10-Q marker carries the part of the last PART line before it. |
| `Sections.PartStartsAtOne` | src/filingsage/parsing/sections.py:122 | With no PART line before it, a marker is in part one. |
| `Sections.SplitSections` | src/filingsage/parsing/sections.py:101-159 | The second pass assembles the specified sections. |
| `Sections.SectionsAre` | src/filingsage/parsing/sections.py:136-159 | For every form there is a section for each marker with a key and for no other, in document order: key from the form's catalog (generic in an 8-K), the trailing text or else the very next line of 1 to 120 characters as heading, and the non-blank lines up to the next marker as body. |
| `Sections.EveryItemHasSection` | src/filingsage/parsing/sections.py:136-159 | Every marker of an 8-K has its section, in document order, keyed by the catalog or generically. |
| `Sections.EachLineInOneSection` | src/filingsage/parsing/sections.py:145-154 | In an 8-K, after the first marker, every line that is neither blank nor a marker is in exactly one section, as its heading or in its body. |
| `Sections.EachLineHasOneMarker` | src/filingsage/parsing/sections.py:145-154 | For every form, such a line belongs to exactly one marker's heading or body range, whether or not that marker is kept as a section. |
| `Sections.BodiesDisjoint` | src/filingsage/parsing/sections.py:145-154 | Bodies are disjoint ranges of lines in document order. |
| `Sections.BodyIsRange` | src/filingsage/parsing/sections.py:154 | The body lines are exactly the non-blank lines of the range, in order. |
| `Sections.JoinSplits` | src/filingsage/parsing/sections.py:154 | Splitting a section's text at its newlines gives back its body lines. |

## Left out

- SharedLimiter.SharedRateLimiter.Wait: requires a positive budget, because with a budget of zero and Redis reachable the loop never returns; the bound on sleeps is for no other caller active, which is all the design promises.
- TokenWindows.ToleratedWordLength: is for overlaps from 1 to below the limit, as the pipeline's is; `NoOverlapHalts` covers an overlap of zero.
- Chunking.SplitByTokens: is stated for texts on which the loop ends; on the others there is no result to speak of.
- Chunking.ChunksLoseNothing: is under the word bound and with some overlap; without the bound see `Chunking.HaltingCovers`.
- Convergence.EmbeddedRunsAgree: compares rows by seq and text and points by name and text; row ids differ between runs because rolled-back attempts consume ids.
- Reconciler.PickOldest: stands for a database query; that the two clocks involved (the worker's and the database's) agree is assumed.
- Reconciler.RequeuedInTurn: "a step of its own" is a fetch, parse or commit of that filing, its third failure, or a manual reset of it.
- SharedBudget.NoWindowExceedsBudget: counts the requests the shared budget lets through; a process whose transaction raised an error goes through the fallback instead and is not counted.
- TrailingTwelve.YtdOnlyExtracted: is for an extraction that can be stored under its key, as the report reads the stored facts, and for quarters that are the metric's latest.
- Quarantine.VerdictHolds: takes the parser's verdict as a function of the filing, as its documentation says.
- Worker.Store.ChunkAndEmbed: is stated for when the wait for another transaction's insert of the same rows is over.
- Postgres isolation: each transaction is one step and commits are serial; stale ORM snapshots are not modelled, except that a row is written only if an attribute changed.
- Commit and the enqueue that follows are one step; a crash between them is the same as losing the message just enqueued.
- The tokenizer, SHA-256 and uuid5: token offsets in order, hashing as a function and point ids injective in their name are assumed; what the hash identifies is stated by hash.
- The parser's verdict and the chunk texts are functions of the filing: bronze, the parser and the tokenizer do not change between attempts.
- Retry with backoff is one parameter saying whether a failed step gave up; the choice of errors, delays and jitter is not modelled; nor are the pauses between batches of the manual recovery.
- Events that belong to no filing (ingest and reconciler heartbeats, company refresh) and event payloads.
- Companies, tickers, per-ticker limits and the financials refresh of discovery.
- `key_stats`, `statement`, `_year_ago` and `_near` of the report: lookups that would only add easy members.
- The table of metrics: any list of metrics with distinct names is covered.
- Regular expressions, HTML rendering and Parquet: a line's item and part matches are given.
- Floating-point rounding and calendar formatting.
- HTTP, Redis, Postgres, Qdrant and Celery clients beyond their effect on state; embedding models, retrieval, question answering, the API, the dashboard and migrations.
