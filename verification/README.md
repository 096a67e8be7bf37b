# Verified models of spctr and sr2

A Dafny model of the parts of spctr and sr2 where order, time and failure meet: calendar search, two
delivery protocols over shared tables, the turn loop with its archive and restore, configuration
resolution, and four rewrites of lists, ledgers and graphs. Verify with
`dafny verify dfyconfig.toml`.

## What is modelled

- **Cron and schedules** (`Calendar`, `Decimal`, `CronFields`, `Cron`, `Timestamps`, `ScheduleStore`,
  `ScheduleProtocol`, `ScheduleRuns`, `ScheduleLoops`). The search jumps by month, day, hour and minute under
  fixed fuel. The Gregorian calendar repeats every 146097 days, a whole number of weeks, so a satisfiable
  expression is always found. On top of it, one engine per platform claims and advances rows of a shared table;
  the tool creates and cancels between any two transactions, and engines crash and restart at any point.
- **Reminders** (`ReminderStore`, `ReminderProtocol`, `ReminderRuns`, `ReminderLoops`). One delivery loop per
  platform with a program counter, one step per transaction, and histories of started, accepted and raised sends
  and of the crashes that hit in between.
- **Turns** (`RepeatGuards`, `TurnModel`, `TurnLoop`, `TurnRuns`, `TurnOutput`, `TurnWire`, `TurnExtremes`,
  `TurnPayloads`, `TurnTrace`, `TurnReports`). A turn is the ordered list of its effects: requests asked, tools
  run, bus pairs, archive entries, finalization, streamed events. The model's replies and the tools' results are
  arbitrary functions, so every statement is for all of them.
- **Archive and restore** (`Archives`, `Resume`, `SessionRuns`, `RoundTrip`). The archive written by those turns
  across rebuilt instances, relaunched processes and deaths in the middle of a turn, the reader that rebuilds
  history from it, and rewinds.
- **Configuration** (`ConfigMerge`, `ConfigLaws`, `ConfigTiers`, `ConfigFold`, `ConfigChains`). The recursive
  merge, its algebra on values of one shape, what is left of it on others, and loading as one fold.
- **Ledger, graph and list rewrites** (`Continuity`, `NodeInjection`, `LoraInjection`, `Collapse`).

`Sequences`, `Sorting` and `Wrappers` are shared helpers. Code that changes state in place is a class or a method
with loops, proved against a specification function; protocols are step relations with an invariant over every run.

## Where the code differs from its documentation or from what one would expect

- Day of month and day of week are combined with AND, as the code does, not with the OR that the INPUT FILES
  section of the `crontab` utility in IEEE Std 1003.1 asks for.
- A poll can return with an active row that is already due: the tool reads its clock, the poll selects, and the
  insert comes last. `ScheduleRuns.NothingStranded` gives the exact condition.
- `attempts` can fall behind the raised sends when the process dies between a raised send and its record.
- A blank `final_answer.fallback` counts as an empty reply, so the retry asks again and the forced call is made
  twice: `max_tool_iterations` + 4 calls instead of + 3 (`TurnExtremes.FourExtraCallsReached`).
- When that retry meets the limit again, its unforced request does not carry the batch whose calls were not run;
  only the forced request does (`TurnTrace.EveryEffectFollows`).
- After a relaunch the live history holds the marker of a cut-off turn; once another turn is archived, a reader
  shows what the cut-off turn had archived itself instead (`RoundTrip.LoadGivesLiveHistory`).
- In a turn a later note of the same batch overwrites an earlier stop, and the retry of an empty reply passes no
  guard: the turn stops exactly when the last verdict on a batch stops (`TurnReports.EveryReportIsDue`).
- An empty list replaces a plain list but leaves a named list as it is.
- Injecting a chain can close a cycle: a wire to a node that does not exist is captured by a fresh id
  (`LoraInjection.DanglingWireCanCycle`), or one of two sources consumes the other
  (`LoraInjection.CrossedSourcesCanCycle`). `LoraInjection.InjectionKeepsAcyclic` gives the exact condition.
- Writing a rewind leaves the live history as it is until the next relaunch; `RoundTrip.LoadGivesLiveHistory`
  says exactly when the archive and the live history agree.
- The consolidation cache and the projection can name different current records; `Continuity.CacheAgreesExactly`
  says exactly when they agree.
- The reminder store's documentation says `next_attempt_at` is not inserted; the code inserts every column but
  `delivered_at`, and the tool passes none.

## Model

| member | source | states |
|---|---|---|
| CronFields.ParseField | packages/spctr/src/spctr/schedules/cron.py:29-76 | a field parses exactly when every comma-separated part is a step expression within bounds, and its value set is then exactly what the parts denote (start, start + step, up to the end); the result is never empty and never out of range |
| CronFields.ParseCron | packages/spctr/src/spctr/schedules/cron.py:79-93 | an expression is accepted exactly when it has five white-space separated fields and each parses within its bounds, and the five sets are what the fields denote; the error is a wrong field count or that of the first bad part of the first bad field |
| CronFields.PartParsesExactly | packages/spctr/src/spctr/schedules/cron.py:37-76 | a comma-separated part is read exactly when, stripped, it is a star, a range split at its first dash, or a number, within bounds and with an optional positive step after its last slash; it then denotes that start, end and step |
| CronFields.PartFailsAsBlamed | packages/spctr/src/spctr/schedules/cron.py:37-76 | the error of any other part names the first thing that is wrong with it: emptiness, the step's text, its size, the text of the bounds, their place, their order |
| CronFields.RenderedFieldReadsBack | packages/spctr/src/spctr/schedules/cron.py:29-76 | round trip: a list of values written as a field reads back as exactly that set |
| CronFields.StarStepDenotes | packages/spctr/src/spctr/schedules/cron.py:42-60 | the field `*/n` parses and denotes exactly the values in bounds whose distance from the lower bound is a multiple of n |
| CronFields.RangeStepDenotes | packages/spctr/src/spctr/schedules/cron.py:42-76 | the field `a-b/n` parses and denotes exactly the values from a to b whose distance from a is a multiple of n |
| CronFields.WordsReadBack | packages/spctr/src/spctr/schedules/cron.py:79-93 | words joined by a space split into those words again |
| CronFields.AddRange | packages/spctr/src/spctr/schedules/cron.py:75 | adds exactly the numbers a part denotes |
| Cron.NextAfter | packages/spctr/src/spctr/schedules/cron.py:95-132 | the search succeeds exactly when some date matches month, day and weekday at all, whatever the start; its result is the least matching minute strictly later, and it uses at most one 400-year cycle plus 169 of its 4·366·24·60 steps |
| Cron.MatchesByParts | packages/spctr/src/spctr/schedules/cron.py:95-126 | a minute matches exactly when its minute, hour, day and month are in their sets and its day number, counted from a Sunday, leaves a remainder by 7 in the weekday set |
| Cron.NextAfterByParts | packages/spctr/src/spctr/schedules/cron.py:95-126 | what the search returns, in calendar terms alone: all five fields hold of it, the weekday as the day number modulo 7, it is strictly later, and each minute in between fails a field |
| Cron.WeekdayFromDays | packages/spctr/src/spctr/schedules/cron.py:111-115 | the weekday that is tested is the day number modulo 7, Sunday 0 |
| Cron.DatedSunday | packages/spctr/src/spctr/schedules/cron.py:111-115 | the anchor: 2024-01-07 is a 0, a Sunday |
| Cron.DatedMonday | packages/spctr/src/spctr/schedules/cron.py:111-115 | and 2024-01-08 a 1, a Monday |
| Cron.OccursWithinCycle | packages/spctr/src/spctr/schedules/cron.py:95-126 | a satisfiable expression has a matching minute within 146097 days of any start |
| Cron.MonthJumpSkipsNothing | packages/spctr/src/spctr/schedules/cron.py:107-110 | the month jump passes over no matching minute |
| Cron.DayJumpSkipsNothing | packages/spctr/src/spctr/schedules/cron.py:111-115 | the day jump passes over no matching minute |
| Cron.HourJumpSkipsNothing | packages/spctr/src/spctr/schedules/cron.py:116-118 | the hour jump passes over no matching minute |
| Cron.StepSpends | packages/spctr/src/spctr/schedules/cron.py:95-126 | every step of the search uses up part of a budget measured in days, hours and minutes to the target, which is what keeps it far below the fuel |
| Cron.SearchFindsNextOccurrence | packages/spctr/src/spctr/schedules/cron.py:95-126 | the wall-clock result and the occurrence used by the schedule protocol are the same minute |
| Calendar.MonthStarts | packages/spctr/src/spctr/schedules/cron.py:107-110 | the days before each month, in leap years and others |
| Calendar.DatedDays | packages/spctr/src/spctr/schedules/cron.py:95-126 | the day numbers of two known dates, a leap day among them |
| Calendar.DatedCentury | packages/spctr/src/spctr/schedules/cron.py:95-126 | the day number after the February of a century that is no leap year |
| Timestamps.TextOrderIsTimeOrder | packages/spctr/src/spctr/reminders/store.py:98-99 | for all four-digit years, the byte order of stored UTC texts is the order of the instants, although zero microseconds are left out of the text |
| Timestamps.TextTrichotomy | packages/spctr/src/spctr/schedules/store.py:62-63 | two texts are ordered one way or the other unless equal |
| ScheduleStore.ScheduleStore.Create | packages/spctr/src/spctr/schedules/store.py:117-143 | the new id is one past the greatest in use and not in use before |
| ScheduleStore.ScheduleStore.Due | packages/spctr/src/spctr/schedules/store.py:145-165 | the loop selects what `DueRows` specifies |
| ScheduleStore.DueSelectsExactly | packages/spctr/src/spctr/schedules/store.py:145-165 | selected exactly: rows of the table that are active, whose run time is at or before the reading, and of the platform if one is given; none of them claimed |
| ScheduleStore.DueInOrder | packages/spctr/src/spctr/schedules/store.py:145-165 | the selection is in due order |
| ScheduleStore.DueOrderIs | packages/spctr/src/spctr/schedules/store.py:145-165 | that order is by run time and then by the text of the id |
| ScheduleStore.StuckSelectsExactly | packages/spctr/src/spctr/schedules/store.py:232-252 | a recovery finds exactly the rows of the table that are active, at the sentinel, and of the platform if one is given |
| ScheduleStore.CreatedAsGiven | packages/spctr/src/spctr/schedules/store.py:117-143 | a created row comes last, with the next number and all else as given; no other row changes |
| ScheduleStore.ScheduleStore.Claim | packages/spctr/src/spctr/schedules/store.py:167-196 | a claim wins exactly on an active row of the platform that is not at the sentinel, puts it there and touches no other row |
| ScheduleStore.ScheduleStore.AdvanceAfterRun | packages/spctr/src/spctr/schedules/store.py:198-212 | one row gets its next run, last run and outcome; the rest is unchanged |
| ScheduleStore.ScheduleStore.Cancel | packages/spctr/src/spctr/schedules/store.py:214-222 | true exactly when an active row was cancelled; the rest is unchanged |
| ScheduleStore.ScheduleStore.RecoverClaimed | packages/spctr/src/spctr/schedules/store.py:232-252 | exactly the active rows of the platform at the sentinel, and nothing written |
| ScheduleStore.IdsDistinct | packages/spctr/src/spctr/schedules/store.py:117-143 | ids tell rows apart |
| ScheduleProtocol.RunKeepsInv | packages/spctr/src/spctr/schedules/engine.py:78-229 | the protocol invariant holds in every reachable state of engines, tool steps, crashes and restarts |
| ScheduleLoops.EveryDueRowServed | packages/spctr/src/spctr/schedules/engine.py:112-229 | from the selection of a catch-up or a poll to its return without a crash, a row that was active and due is taken at most once, and exactly once unless it was cancelled, if it is to run late or the loop is a poll; otherwise never. It fires as often as it is taken, but for rejected payloads, and for the occurrence it was due at; its last run is the reading and its outcome one that the engine writes there, skipped in just the other case. No other row is taken |
| ScheduleLoops.EveryStuckRowRecovered | packages/spctr/src/spctr/schedules/engine.py:78-110 | a recovery advances every active row of its platform that a crash left at the sentinel, marks it as recovered and does not fire it |
| ScheduleLoops.OnlySkipRowsSkipped | packages/spctr/src/spctr/schedules/engine.py:132-147 | in every reachable state only rows that are to be skipped have skipped as their outcome |
| ScheduleRuns.SentinelOwnership | packages/spctr/src/spctr/schedules/engine.py:95-110 | in every reachable state an active row at the sentinel is being run by its own platform's engine, or that engine is down or recovering |
| ScheduleRuns.NothingStranded | packages/spctr/src/spctr/schedules/engine.py:112-192 | when `start` or a poll with clock reading t has returned, every active row of the platform selected from lies later than t; for rows inserted after the selection, exactly those whose first occurrence after the tool's own reading is later than t |
| ScheduleRuns.LateInsertCanStrand | packages/spctr/src/spctr/tools/schedule_tool.py:229-252 | the condition is needed: a concrete run in which an insert after the selection leaves an active row at t |
| ScheduleRuns.CancelledStays | packages/spctr/src/spctr/schedules/store.py:214-222 | cancelled is absorbing over every run, and rows keep their number, platform, expression, policy and creation |
| ScheduleRuns.CancelledNeverFiresAgain | packages/spctr/src/spctr/schedules/engine.py:170-229 | once cancelled and not running, a schedule never fires again |
| ScheduleRuns.CancelStopsFirings | packages/spctr/src/spctr/schedules/store.py:214-222 | after a cancel step the row stays cancelled, and unless it is being run at that moment it never fires again |
| ScheduleRuns.FiringsNeverOutnumberOccurrences | packages/spctr/src/spctr/schedules/engine.py:95-229 | in every reachable state and up to any time, a schedule has fired at most as often as its expression has matching minutes since its creation, under crashes and restarts |
| ScheduleRuns.FallbackNeverRuns | packages/spctr/src/spctr/schedules/engine.py:194-229 | every stored row's expression is satisfiable, so the one-hour fallback of the engine never runs |
| ReminderStore.ReminderStore.Create | packages/spctr/src/spctr/reminders/store.py:185-208 | the new id is one past the greatest in use and not in use before |
| ReminderStore.ReminderStore.Due | packages/spctr/src/spctr/reminders/store.py:229-263 | the loop selects what `DueRows` specifies |
| ReminderStore.DueSelectsExactly | packages/spctr/src/spctr/reminders/store.py:229-263 | selected exactly: rows of the table that are pending, of the platform if one is given, and whose next attempt, or due time if there is none, is at or before the reading |
| ReminderStore.DueDistinct | packages/spctr/src/spctr/reminders/store.py:229-263 | no row is selected twice |
| ReminderStore.DueOrderIs | packages/spctr/src/spctr/reminders/store.py:229-263 | the order is by due time and then by the text of the id |
| ReminderStore.DueInOrder | packages/spctr/src/spctr/reminders/store.py:229-263 | the selection is in that order |
| ReminderStore.CreatedAsGiven | packages/spctr/src/spctr/reminders/store.py:185-208 | a created reminder comes last, with the next number, not delivered, and all else as given; no other row changes |
| ReminderStore.ReminderStore.Claim | packages/spctr/src/spctr/reminders/store.py:265-281 | a claim wins exactly on a pending row of the platform and marks it as being sent |
| ReminderStore.ReminderStore.MarkDelivered | packages/spctr/src/spctr/reminders/store.py:283-289 | one row becomes delivered at the given time |
| ReminderStore.ReminderStore.DueWithRetry | packages/spctr/src/spctr/reminders/store.py:304-342 | one failed send is counted; the row fails exactly when the budget is spent, otherwise it is pending again at the next attempt time |
| ReminderStore.ReminderStore.Cancel | packages/spctr/src/spctr/reminders/store.py:344-357 | true exactly when a pending row was cancelled |
| ReminderStore.ReminderStore.ResetSendingToPending | packages/spctr/src/spctr/reminders/store.py:359-375 | exactly the rows in flight on the platform go back to pending, and they are counted |
| ReminderStore.RetrySchedule | packages/spctr/src/spctr/reminders/loop.py:40-51 | the delays add up to one and six minutes after the due time |
| ReminderProtocol.RunKeepsInv | packages/spctr/src/spctr/reminders/loop.py:107-176 | the protocol invariant holds in every reachable state of the delivery loops, the tool and crashes |
| ReminderRuns.AcceptedSendsCounted | packages/spctr/src/spctr/reminders/loop.py:128-176 | accepted sends of a reminder are at most one more than the crashes between acceptance and mark, exactly one more when delivered; without such a crash never two |
| ReminderRuns.RetryColumns | packages/spctr/src/spctr/reminders/store.py:304-342 | attempts never exceed 3, failed exactly at 3, and the next attempt is none, due + 1 min or due + 6 min |
| ReminderRuns.NoSendComesEarly | packages/spctr/src/spctr/reminders/loop.py:128-176 | over every run: whenever a loop has a reminder in hand, its reading is not before the due time, one minute later after one attempt, six minutes later after two |
| ReminderRuns.DeliveredInTime | packages/spctr/src/spctr/reminders/store.py:283-289 | in every reachable state a delivery time is not before the due time and not in the future |
| ReminderRuns.AttemptsCountRaisedSends | packages/spctr/src/spctr/reminders/loop.py:150-176 | while the reminder has no raised send still to be recorded, attempts equal its raised sends exactly when no crash came between such a send and its record |
| ReminderRuns.CrashCanLoseAnAttempt | packages/spctr/src/spctr/reminders/loop.py:150-176 | a concrete run in which such a crash makes attempts smaller than the raised sends |
| ReminderRuns.FinalStays | packages/spctr/src/spctr/reminders/store.py:265-375 | delivered, failed and cancelled are absorbing and end all sends; the due time never moves |
| ReminderRuns.CancelStopsSends | packages/spctr/src/spctr/reminders/store.py:344-357 | after a successful cancel no send starts, succeeds or fails |
| ReminderRuns.OwnPlatformOnly | packages/spctr/src/spctr/reminders/loop.py:128-176 | a loop changes no row of another platform, and starts, completes or fails no send of it |
| ReminderLoops.EveryDueReminderTried | packages/spctr/src/spctr/reminders/loop.py:107-176 | from the selection of a poll to its return without a crash, a pending reminder whose attempt time had come is sent exactly once unless it was cancelled, and is then delivered, or its attempt is counted and it fails or waits for the next time; any other reminder of the platform is not sent |
| RepeatGuards.RepeatGuard.Observe | packages/sr2/src/sr2/orchestrator.py:296-363 | what the result block shows and the event returned are functions of the call history alone |
| RepeatGuards.RepeatGuard.Number | packages/sr2/src/sr2/orchestrator.py:313-338 | the counters are kept as the run and chain lengths of the history |
| RepeatGuards.CountersMeasureHistory | packages/sr2/src/sr2/orchestrator.py:273-294 | `identical_calls` is the longest suffix of equal calls, `same_result_repeats` + 1 the longest with equal real results too |
| RepeatGuards.NoteNamesFirstReturn | packages/sr2/src/sr2/orchestrator.py:343-363 | a note names the first call of an unbroken stretch that returned the very result it hides |
| RepeatGuards.ShownMeans | packages/sr2/src/sr2/orchestrator.py:340-363 | a result is replaced exactly when call and real result equal those just before; the warning is in exactly the last note before a stop; otherwise the real text stays |
| RepeatGuards.VerdictMeans | packages/sr2/src/sr2/orchestrator.py:340-363 | an event comes exactly for a repeat or a full window, it stops exactly for a full window, and its four numbers are the call, the first call and the lengths of the two longest stretches |
| RepeatGuards.SomeCallStops | packages/sr2/src/sr2/orchestrator.py:340-363 | over a whole turn the guard stops exactly when somewhere a full window of identical calls, or of identical calls with one result, occurred |
| RepeatGuards.FirstStopIsAtALimit | packages/sr2/src/sr2/config/models.py:189-212 | the first stop comes exactly at one of the two limits, never beyond |
| RepeatGuards.RepeatGuard.constructor | packages/sr2/src/sr2/orchestrator.py:273-294 | a new guard has seen no call |
| TurnLoop.Classify | packages/sr2/src/sr2/orchestrator.py:948-968 | one pass over the reply's events gives its text, reasoning, calls and forwarded events |
| TurnLoop.RunBatch | packages/sr2/src/sr2/orchestrator.py:1027-1056 | malformed calls are answered without running, the others run in order |
| TurnLoop.WalkGuard | packages/sr2/src/sr2/orchestrator.py:1058-1072 | the guard walks calls and results by position |
| TurnLoop.RunToolIteration | packages/sr2/src/sr2/orchestrator.py:887-1096 | one iteration computes the specified attempt on every path: text, limit, forced answer, missing executor, tools |
| TurnLoop.RunRound | packages/sr2/src/sr2/orchestrator.py:1189-1327 | one round with the single retry of an empty reply |
| TurnLoop.EndRound | packages/sr2/src/sr2/orchestrator.py:1248-1504 | what the turn does with an iteration: forced answer, final answer, or an executed batch with its archive entries, events and extended request |
| TurnLoop.StopRound | packages/sr2/src/sr2/orchestrator.py:1428-1490 | a guard stop asks once more without tools and ends the turn |
| TurnLoop.ReportIteration | packages/sr2/src/sr2/orchestrator.py:1336-1420 | the bus pair, archive entries and events of an executed iteration, in order |
| TurnLoop.Finish | packages/sr2/src/sr2/orchestrator.py:1248-1327 | archive, finalize, stream, report errors, end |
| TurnLoop.RunTurn | packages/sr2/src/sr2/orchestrator.py:1102-1528 | the loop terminates for every model and computes the turn's effects in order |
| TurnLoop.ForceAnswer | packages/sr2/src/sr2/orchestrator.py:740-885 | one tool-less call; its text or the fallback is the answer |
| TurnRuns.CallsBounded | packages/sr2/src/sr2/orchestrator.py:1102-1528 | a turn makes at most `max_tool_iterations` + 3 model calls, one more only when the fallback text is blank |
| TurnRuns.ToolsBounded | packages/sr2/src/sr2/orchestrator.py:978-1008 | tools run in rising iterations below the limit; a turn that does not raise queues exactly one bus pair per replied batch of calls, with those calls, in order |
| TurnRuns.AssistantUses | packages/sr2/src/sr2/orchestrator.py:1010-1043 | the calls in the assistant message are those of the reply, malformed ones included |
| TurnExtremes.FourExtraCallsReached | packages/sr2/src/sr2/orchestrator.py:1189-1245 | that extra call is reached by some model exactly when final answers are enabled with a blank fallback |
| TurnExtremes.DirectAnswer | packages/sr2/src/sr2/orchestrator.py:1292-1327 | a model that answers with text at once is asked exactly once, and that text is archived, finalized and streamed |
| TurnOutput.FinalizedOnceThenEnds | packages/sr2/src/sr2/orchestrator.py:1248-1327 | a turn does not raise exactly when it is finalized once, just after archiving its answer and before streaming it, and ends with its only `end` |
| TurnOutput.ArchivedIsStreamed | packages/sr2/src/sr2/orchestrator.py:454-466 | the archived assistant text of every turn is exactly the text it streamed |
| TurnWire.EveryRequestWellPaired | packages/sr2/src/sr2/orchestrator.py:740-885 | in every request of every turn the compiled messages stay a prefix, each appended assistant message is followed at once by results for exactly its calls, and forced requests offer no tools; bus pairs match likewise |
| TurnWire.BatchAnswers | packages/sr2/src/sr2/orchestrator.py:1027-1056 | the results of a batch are a permutation of its calls by id |
| TurnWire.WellFormedBatchInOrder | packages/sr2/src/sr2/orchestrator.py:1027-1056 | without malformed calls the results are in the order of the calls |
| TurnTrace.EveryEffectFollows | packages/sr2/src/sr2/orchestrator.py:740-1504 | every effect of every turn is determined by those before it: a request carries the compiled messages and then, in order, exactly one pair for each batch that was run, with its calls and results, and a forced one also the batch without results and the instruction; each batch holds the calls of the reply, each result is the tool's or the refusal, under its call's id; the answer, the archived blocks and the events say what the replies said |
| TurnTrace.EveryErrorExplained | packages/sr2/src/sr2/orchestrator.py:978-1008 | a turn raises exactly for a failed model call, for the iteration limit without final answers, or for calls without an executor |
| TurnTrace.ReadInOrder | packages/sr2/src/sr2/orchestrator.py:948-968 | text, reasoning, calls and forwarded events are those of the reply's events, in their order |
| TurnReports.EveryReportIsDue | packages/sr2/src/sr2/orchestrator.py:1058-1528 | over every turn: each result of a batch is the real one or, where the guard watches, what the guard shows for the whole history of the turn; an event is reported exactly for the guard's last verdict on a batch; each forced question and each fallback gives its reason, the limit or the identical calls at the end of the history; the errors of all drains are told once, before the end, the deferred error before the user's message; and every text and usage event of a reply is streamed once and in order, unless the reply is retried, replaced by a forced answer or blank |
| TurnPayloads.FinishedTurnPayloads | packages/sr2/src/sr2/orchestrator.py:1143-1165 | a finished turn archives the user's text once, the streamed text, and an assistant message last |
| TurnPayloads.AnswerIsLast | packages/sr2/src/sr2/orchestrator.py:1301-1316 | the answer is the last payload archived |
| Archives.TurnArchivist.Archive | packages/sr2/src/sr2/orchestrator.py:415-452 | a refused write leaves the archivist where it was; an accepted one links to the entry before |
| Archives.TurnArchivist.ArchiveAll | packages/sr2/src/sr2/orchestrator.py:1380-1397 | the payloads of a turn become consecutive, linked entries |
| Archives.TurnArchivist.Continue | packages/sr2/src/sr2/orchestrator.py:607-629 | a new instance continues from the latest entry by turn and place, or stays fresh |
| Archives.WrittenEntries | packages/sr2/src/sr2/orchestrator.py:415-452 | each entry carries its turn, its place, and the id of the one before |
| Archives.TurnArchivist.constructor | packages/sr2/src/sr2/orchestrator.py:405-413 | a new archivist is before its first turn and links to nothing |
| Archives.ProvenanceStore.TurnEntries | packages/sr2/src/sr2/orchestrator.py:613-618 | the session's archive entries in writing order |
| Archives.FindLatest | packages/sr2/src/sr2/orchestrator.py:619-622 | `max` by turn and place |
| Archives.LatestIsLast | packages/sr2/src/sr2/orchestrator.py:619-622 | no entry comes after the one found |
| SessionRuns.ArchiveStaysOrdered | packages/sr2/src/sr2/orchestrator.py:376-466 | over every run with rebuilds, relaunches, rewinds and deaths in the middle of a turn, (turn, place) rises strictly and every entry links to the one before it |
| SessionRuns.TurnsAreNumberedOn | packages/sr2/src/sr2/orchestrator.py:607-629 | over the same runs every number from 0 to the last archived turn is a turn of the archive, and the next turn takes the next number, also on a rebuilt or relaunched instance |
| SessionRuns.RewindsReplayable | packages/spctr/src/spctr/resume.py:105-126 | in every reachable state the batch filter and the replay of the log keep the same turns |
| SessionRuns.WriteRewind | packages/spctr/src/spctr/resume.py:105-126 | a rewind is appended and nothing is deleted |
| SessionRuns.RewindReadsBack | packages/spctr/src/spctr/resume.py:105-126 | a reader takes from a rewind exactly the two turn numbers written, and the archive of turns is not touched |
| RoundTrip.LoadGivesShownTurns | packages/spctr/src/spctr/resume.py:48-102 | in every reachable state of turns, rebuilds, relaunches, rewinds and deaths in the middle of a turn, loading the archive in any order gives exactly what was said in the turns that no rewind took back, the last one with the marker for its answer if it was cut off, and flags an interruption exactly then |
| RoundTrip.LoadGivesLiveHistory | packages/spctr/src/spctr/session.py:463-540 | that is the live history exactly when no rewind since the last launch has hidden a turn that was shown, and a turn that launch found cut off was read with the same marker or is still followed by what it had archived |
| RoundTrip.SettledWithoutRewind | packages/spctr/src/spctr/session.py:463-540 | which is so when the last launch found nothing cut off and no rewind and no death has come since |
| RoundTrip.RestoredIsShown | packages/spctr/src/spctr/resume.py:75-99 | for every log: the result is exactly the exchanges the visible turns archived, in rising order, the last one with the marker for its answer if it is cut off and not rewound; the flag says exactly that, and then the last turn is the one shown last |
| RoundTrip.OneMoreRewind | packages/spctr/src/spctr/resume.py:75-77 | one more rewind takes exactly its turns out of what is shown, and the interruption with them if it covers the last turn |
| RoundTrip.OneMoreTurn | packages/spctr/src/spctr/resume.py:75-99 | whatever the archive held before, rewinds and cut-off turns included, one more turn, finished or cut off, adds exactly its texts after those of the earlier visible turns, and is cut off exactly when it does not end with an assistant message |
| RoundTrip.ExchangeSays | packages/spctr/src/spctr/resume.py:90-99 | an exchange is a user message and then an assistant message, each with its text |
| RoundTrip.SurvivingExactly | packages/spctr/src/spctr/resume.py:75-77 | a rewind takes back exactly the turns above what it keeps, up to its last one |
| Resume.LoadHistory | packages/spctr/src/spctr/resume.py:48-102 | the reader with its dictionary and loops computes the specified result, failures included |
| Resume.FailsExactly | packages/spctr/src/spctr/resume.py:48-72 | a load fails exactly when it is enabled and the store is missing, fails, or holds an entry without the numbers of its layer; then, and when it is not enabled, nothing is restored |
| Resume.ReadEntries | packages/spctr/src/spctr/resume.py:58-72 | one pass gathers each turn's entries and all rewinds, and fails on unreadable metadata |
| Resume.OrderDoesNotMatter | packages/spctr/src/spctr/resume.py:59-99 | the result is the same for every order of the entries, when no two entries of a turn share a place |
| Resume.BatchIsReplay | packages/spctr/src/spctr/resume.py:75-77 | batch and replay agree on a turn exactly when it was not archived again after a rewind over it that no later rewind repeats |
| Resume.BatchEqualsReplay | packages/spctr/src/spctr/resume.py:75-77 | they agree on all turns when later turns are numbered above every earlier rewind |
| Resume.MaxTurn | packages/spctr/src/spctr/resume.py:72 | the last turn is taken over all turns, rewound ones included |
| Resume.TurnTexts | packages/spctr/src/spctr/resume.py:78-87 | a turn's user and assistant text in place order |
| Resume.BuildHistory | packages/spctr/src/spctr/resume.py:75-99 | turns in rising order, rewound ones skipped, a cut-off last turn replaced by the marker |
| ConfigMerge.MergeValues | packages/spctr/src/spctr/config_merge.py:29-36 | the recursive merge computes the specified value wherever it does not raise |
| ConfigMerge.MergeDicts | packages/spctr/src/spctr/config_merge.py:39-46 | objects merge key by key, in whatever order the keys come |
| ConfigMerge.NamedMerge | packages/spctr/src/spctr/config_merge.py:77-109 | named lists keep the parent's order, merge by name and append new entries in the child's order |
| ConfigMerge.Split | packages/spctr/src/spctr/config_merge.py:85-96 | the child's entries by name, and those the parent lacks |
| ConfigLaws.OthersAreReplaced | packages/spctr/src/spctr/config_merge.py:12-36 | values that are not both objects, and lists unless every entry of the parent's has a name, are replaced by the child; an empty parent list makes the merge raise exactly when all of the child's entries have a name and one of these names is not usable |
| ConfigLaws.MergeAssociative | packages/spctr/src/spctr/config_merge.py:12-109 | on values that share a shape the merge is associative, list order included |
| ConfigLaws.MergeKeepsShape | packages/spctr/src/spctr/config_merge.py:12-109 | merging values of one shape keeps the shape |
| ConfigLaws.MergeKeepsUnique | packages/spctr/src/spctr/config_merge.py:77-109 | names stay unique, the parent's first and only new ones after them |
| ConfigLaws.EmptyObjectIsIdentity | packages/spctr/src/spctr/config_merge.py:39-46 | the empty object is an identity on both sides |
| ConfigLaws.EmptyListIsIdentity | packages/spctr/src/spctr/config_merge.py:56-74 | the empty list is an identity on the left, on the right exactly for named lists |
| ConfigLaws.AtomBreaksAssociativity | packages/spctr/src/spctr/config_merge.py:29-36 | with an atom between two objects associativity fails |
| ConfigLaws.AssociativeExactly | packages/spctr/src/spctr/config_merge.py:29-46 | on values of any shapes without lists merged by name the two groupings agree exactly when, wherever something other than an object stands between two objects, the third absorbs the first |
| ConfigTiers.ResolveExtends | packages/spctr/src/spctr/config.py:549-622 | the chain is resolved or fails as circular, missing or unmergeable, and always terminates |
| ConfigTiers.ResolveTiers | packages/spctr/src/spctr/config.py:656-722 | tiers are merged in order, missing ones skipped unless required, repeated files once |
| ConfigTiers.MergeProvenance | packages/spctr/src/spctr/config.py:523-546 | the child's keys take the child's provenance, the others keep theirs |
| ConfigTiers.MergeOver | packages/spctr/src/spctr/config.py:607-620 | configuration and provenance are merged together, or the merge raises |
| ConfigFold.ExtendsIsFold | packages/spctr/src/spctr/config.py:549-622 | an `extends` chain is the left fold of its files from the root down |
| ConfigFold.TiersAreOneFold | packages/spctr/src/spctr/config.py:656-722 | for files of one shape, loading is one flat left fold over all files, and each key's provenance is its last declaring file with the value declared there |
| ConfigFold.OnlyChainsFail | packages/spctr/src/spctr/config.py:656-722 | files of one shape fail to load only for a circular `extends` or a missing file |
| ConfigChains.ChainIsLinked | packages/spctr/src/spctr/config.py:549-622 | the files folded are the chain: from a file that extends nothing to the one asked for, each named by the next, none twice, each with what it declares apart from `extends`, under its own label or its path marked as extended |
| ConfigChains.CycleIsReal | packages/spctr/src/spctr/config.py:564-571 | a chain reported as circular is one: each file names the next, and the last was met before |
| ConfigChains.MissingIsReal | packages/spctr/src/spctr/config.py:583-595 | a file reported as missing is missing, and some file names it |
| ConfigChains.NoExtendsLeft | packages/spctr/src/spctr/config.py:575-612 | no loaded configuration keeps the key `extends` |
| ConfigChains.MissingTiersSkipped | packages/spctr/src/spctr/config.py:656-722 | missing tiers count as not listed, except that a load fails and names the last one if that is required and all else succeeds |
| Continuity.ComputeViews | packages/sr2/src/sr2/continuity/store.py:141-218 | the projection's loops compute the specified views |
| Continuity.WalkMeans | packages/sr2/src/sr2/continuity/store.py:168-190 | the walk along a chain ends with the last record that is live: not superseded, neither suppressing nor unsuppressing, and not met while suppressed |
| Continuity.ViewMeans | packages/sr2/src/sr2/continuity/store.py:168-218 | a view's current record is the last live one, or the chain's last without any, and each status is given exactly when its condition on suppression and on the kind of the last and the current record holds |
| Continuity.InterleavingDoesNotMatter | packages/sr2/src/sr2/continuity/store.py:141-218 | every re-interleaving that keeps each subject's order gives the same views |
| Continuity.AppendIsLocal | packages/sr2/src/sr2/continuity/store.py:141-218 | appending an event changes no view but its subject's and those of subjects owning an id it supersedes |
| Continuity.Ledger.Append | packages/sr2/src/sr2/continuity/store.py:292-324 | append-only: a duplicate id is refused and changes nothing |
| Continuity.ProjectionCache.Record | packages/sr2/src/sr2/continuity/consolidation.py:493-495 | the cache holds the chains and superseded ids of everything recorded |
| Continuity.ProjectionCache.CurrentId | packages/sr2/src/sr2/continuity/consolidation.py:500-507 | the newest record of the subject that nothing supersedes |
| Continuity.CacheAgreesWithView | packages/sr2/src/sr2/continuity/consolidation.py:477-523 | without suppression the cache agrees with the view exactly when the subject has an unsuperseded record |
| Continuity.CacheAgreesExactly | packages/sr2/src/sr2/continuity/consolidation.py:500-507 | on every ledger with distinct ids the cache's record is the view's exactly when the last unsuperseded record goes live, or ends a chain with nothing live before it; consolidation itself records formations and verifications only, so only the projection meets the other kinds |
| Continuity.SuppressionParts | packages/sr2/src/sr2/continuity/store.py:141-218 | an instance of the condition failing: a record followed by its suppression |
| Continuity.GatherChains | packages/sr2/src/sr2/continuity/store.py:156-164 | each subject's chain in append order, and every superseded id |
| Continuity.ViewChain | packages/sr2/src/sr2/continuity/store.py:168-218 | the current record and status of one chain |
| Continuity.Ledger.GetEvents | packages/sr2/src/sr2/continuity/store.py:326-330 | one subject's events in append order |
| NodeInjection.NextNodeId | packages/spctr/src/spctr/tools/node_injection.py:116-121 | the next id: one past the greatest number, or 10 |
| NodeInjection.NextIdIsFresh | packages/spctr/src/spctr/tools/node_injection.py:116-121 | the next id is not in use |
| NodeInjection.Inject | packages/spctr/src/spctr/tools/node_injection.py:124-237 | the first error in the code's order of checks, or the specified graph |
| NodeInjection.ErrorIffMalformed | packages/spctr/src/spctr/tools/node_injection.py:148-210 | validation passes exactly when every edge and index the stack names exists |
| NodeInjection.ErrorIsFirst | packages/spctr/src/spctr/tools/node_injection.py:148-210 | the error is that of the first bad place: unknown edges before bad indices, consumed before produced, the inner wires last |
| NodeInjection.AddStackNodes | packages/spctr/src/spctr/tools/node_injection.py:181-190 | each stack node goes under the next fresh id |
| NodeInjection.WireStack | packages/spctr/src/spctr/tools/node_injection.py:192-222 | internal wires first, then the consumed edges |
| NodeInjection.Rewire | packages/spctr/src/spctr/tools/node_injection.py:224-235 | consumers are rewired in order; the first that names no node raises |
| LoraInjection.BuildLoraStack | packages/spctr/src/spctr/tools/node_injection.py:244-314 | the loop builds the chain of loaders under the given input keys; the empty list is an error |
| LoraInjection.InjectionSucceeds | packages/spctr/src/spctr/tools/node_injection.py:124-237 | at real edges the injection of a chain never fails |
| LoraInjection.LoadersLoad | packages/spctr/src/spctr/tools/node_injection.py:272-292 | each new node is a loader and carries its file, its strength and its clip strength, which is the strength when none is given |
| LoraInjection.OnlyListedInputsChange | packages/spctr/src/spctr/tools/node_injection.py:181-237 | new ids are distinct and fresh; of the old nodes only listed consumer inputs change, and these read the last loader |
| LoraInjection.WalkBackToSource | packages/spctr/src/spctr/tools/node_injection.py:244-314 | walking back from a consumer of either edge meets every loader once in reverse list order, with its file under a name key used for nothing else, and ends at the original source |
| LoraInjection.InjectionKeepsAcyclic | packages/spctr/src/spctr/tools/node_injection.py:124-237 | the graph with the chain is acyclic exactly when it was before and neither source reaches a consumer or, by a dangling wire, an id that a loader takes |
| LoraInjection.OneSourceKeepsAcyclic | packages/spctr/src/spctr/tools/node_injection.py:124-237 | so between the outputs of one source node, and without dangling wires, it always stays acyclic |
| LoraInjection.DanglingWireCanCycle | packages/spctr/src/spctr/tools/node_injection.py:116-121 | an instance: with a wire to a missing node one loader closes a cycle |
| LoraInjection.CrossedSourcesCanCycle | packages/spctr/src/spctr/tools/node_injection.py:224-235 | an instance without dangling wires: two sources, one of which consumes the other |
| Collapse.FindRepeat | packages/sr2/src/sr2/compaction/rules.py:214-229 | the search returns the specified pattern length and count |
| Collapse.CollapseMessages | packages/sr2/src/sr2/compaction/rules.py:186-243 | the loop computes the specified output; a threshold of zero is a division error |
| Collapse.TakesTheLongest | packages/sr2/src/sr2/compaction/rules.py:214-241 | at each place the longest pattern that occurs often enough is taken with all its copies, a single message exactly when there is none |
| Collapse.FingerprintTells | packages/sr2/src/sr2/compaction/rules.py:203-212 | of roles and texts without bars and colons, two messages have one fingerprint exactly when their texts are equal, and their roles unless there is no text |
| Collapse.FingerprintOfTwo | packages/sr2/src/sr2/compaction/rules.py:203-212 | the fingerprint of two text blocks: role and text of each, joined by a bar |
| Collapse.CollapseIsLossless | packages/sr2/src/sr2/compaction/rules.py:186-243 | there are segments, each standing once or at least the threshold times, that expand to the input's fingerprints and whose single copies are the output |
| Collapse.OutputIsSubsequence | packages/sr2/src/sr2/compaction/rules.py:186-243 | the output is the messages at rising indices of the input |
| Collapse.CollapseKeepsEveryFingerprint | packages/sr2/src/sr2/compaction/rules.py:186-243 | a fingerprint occurs in the output exactly when it occurs in the input |
| Collapse.CountCopies | packages/sr2/src/sr2/compaction/rules.py:219-224 | the copies of a window that stand in a row |
| Collapse.KeepPatterns | packages/sr2/src/sr2/compaction/rules.py:231-243 | the loop keeps one copy of each pattern |

## Left out

- Years are unbounded: the year 9999 limit of the runtime, at which an unsatisfiable search really stops, is not modelled.
- Time zones: the search runs on wall-clock time at a fixed offset; folds and gaps are not modelled.
- Text is ASCII where numbers, digits and white space are read.
- Schedule rows keep the parsed expression instead of its text; parsing is modelled and proved separately.
- Two engines or two delivery loops on one platform, and `execute_now`, which does not claim, are outside the run theorems.
- The clock stays below the sentinel instant, and ids are numbered instead of drawn.
- `mark_failed_attempt` is not called by the delivery loop and is not modelled.
- SQL transactions are single atomic steps; connections, migrations and thread cancellation are not modelled.
- `asyncio` cancellation, the circuit breaker and timeouts inside a turn appear only as a model call that fails.
- Tool results carry the id of their call, as the session's executor gives them; concurrency within a batch is not modelled.
- The arguments of a call are their text with sorted keys; that serialization is not modelled, nor are the note and warning texts.
- `TurnLoop.WalkGuard`: pairs calls and results by position as the code does, so with a malformed call in the batch a call can be compared with another call's result; the guard's guarantees are stated over the calls as observed.
- `RoundTrip.LoadGivesShownTurns`: is, like `RoundTrip.LoadGivesLiveHistory`, for turns that finish, with one user text and a fallback that is never the empty text, or that the death of the process cuts off; turns that raise or are cancelled while the process lives are left out, because their notices are not archived.
- Archive writes are all accepted in the session runs; a refused write is covered only by `Archives.TurnArchivist.Archive`.
- Unreadable archive metadata is treated as a failed continuation of the archive.
- `ConfigLaws.MergeAssociative`: is for values that share a shape, and `ConfigLaws.AssociativeExactly` for values without named lists; values that mix shapes and hold named lists are covered by neither, and lists that mix named and unnamed entries, or repeat a name, make the merge raise or lose entries and are excluded.
- Names of list entries are texts; a null name, which the code would accept as a name, counts as no usable name.
- The order of keys in an object is not modelled; the order of lists is.
- Environment variables in paths, labels of tiers and the resolution of resolver paths are parameters or absent.
- `ConfigTiers.MergeProvenance`: does not model the branch for a key missing from the child's provenance, which no caller reaches.
- Consolidation's text rules and subject matching are not modelled; only its cache is.
- `discover_edges` is not modelled; the edges are given.
- Message blocks other than text only travel along in `Collapse`.
- Frame routing, degradation, cost gates, retrieval profiles, layer budgets and message chunking would only add easy members.
