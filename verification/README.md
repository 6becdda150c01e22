# Cue calendar: a verified model

This project models the parts of the Cue server that decide what a user's calendar contains and how
inbound messages are processed, and proves what those parts promise.

- **Recurrence engine.** A rule is given a declarative meaning (which local days belong to a series),
  and the period-stepping expansion is proved to return exactly that meaning, cut by its two caps. On
  top of it: splitting, truncating, window coverage and the membership probe.
- **Task store.** The tables are maps; each transaction is a function from tables to tables or a
  refusal, and a class with the tables as fields performs it step by step and is proved to agree with
  that function, rollbacks included. Invariants hold over every run. The two reads - agenda and
  conflict check - are modelled query by query and proved to agree with each other.
- **Delta sync**, the **debounce protocol**, the **tool loop** and the **draft throttle** are state
  machines or loops over arbitrary surroundings: any interleaving, any model, any dispatcher, any timing.

Instants are integer milliseconds from the start of year 0; a task's zone is a fixed offset, so a series is a set of local day
numbers at one time of day. `null` and absent are told apart by nested options where the code tells
them apart. A null rule axis and an empty one are the same value, as the code treats them.

## Files

| file | content |
|---|---|
| `Wrappers`, `Ranges`, `Division` | options and results; counting and listing integers; quotients |
| `CivilCalendar`, `RecurrenceRule`, `CalendarLaws` | months, weeks and days; what a rule means; both in closed form |
| `Candidates`, `Expansion` | the engine: candidates of a period, and the stepping loop |
| `Series`, `SeriesLaws`, `SplitLaws` | a series on the time line; its laws |
| `TaskRows`, `TaskStore`, `TaskService` | rows, transactions as functions, transactions as methods |
| `TaskInvariants` | invariants over every run |
| `Agenda`, `AgendaOrdering`, `TaskReads` | the two reads, as predicates and as methods |
| `OccurrenceLaws` | what an entry of the agenda shows |
| `Acceptance`, `EditLaws`, `TaskHistory` | which requests are accepted; what edits, completions and removals do; what runs keep of rows |
| `OverrideLaws`, `OverrideContents` | what overrides, reverts and removals do to every agenda, and what an override shows |
| `SplitAgenda`, `SplitRequests` | what splits and truncations do to every agenda; splits that change the new side |
| `WitnessRuns` | the concrete stores, reached by runs |
| `DeltaSync` | the delta read as a replication protocol |
| `DebounceProtocol`, `DebounceCoordinator` | the protocol's atomic steps; the service's methods as sequences of them |
| `TurnHonesty`, `ToolLoop`, `LedgerLaws` | the terminal classifier and its guard; the bounded loop; what its counters count |
| `DraftThrottle` | the coalescing rate limiter |

## Model

| member | source | states |
|---|---|---|
| Candidates.DayInMonthOrNull | src/modules/recurrence-rule/recurrence-rule.service.ts:107-116 | a day past the month's end is dropped, never clamped; otherwise it is that day of that month |
| Candidates.NthWeekdayInMonth | src/modules/recurrence-rule/recurrence-rule.service.ts:144-169 | the k-th match from the front or the back, and nothing exactly when the ordinal overflows |
| RecurrenceRule.NthWeekdayIsUnique | src/modules/recurrence-rule/recurrence-rule.service.ts:144-169 | a month has at most one k-th such day |
| CalendarLaws.YearStart | src/modules/recurrence-rule/recurrence-rule.service.ts:107-116 | the days before a year: 365 each and the Gregorian leap days, in closed form |
| CalendarLaws.UnixEpoch | src/modules/recurrence-rule/recurrence-rule.service.ts:82-100 | 1 January 1970 was a Thursday, weeks starting on Monday |
| Candidates.WorkdayAnchorInMonth | src/modules/recurrence-rule/recurrence-rule.service.ts:177-209 | first, last, or greatest working day below the last, of that month |
| Candidates.EveryMonthHasAnchors | src/modules/recurrence-rule/recurrence-rule.service.ts:177-209 | every month has every working-day anchor, so the fall-through return is never reached |
| Candidates.WeeklyCandidates | src/modules/recurrence-rule/recurrence-rule.service.ts:82-100 | the cursor's Monday-based week expanded to exactly the listed weekdays, and the cursor's own day when none is listed |
| Candidates.MonthlyCandidates | src/modules/recurrence-rule/recurrence-rule.service.ts:221-257 | exactly the days of the cursor's month that the selector precedence picks |
| Candidates.YearlyCandidates | src/modules/recurrence-rule/recurrence-rule.service.ts:264-294 | exactly the selected days of the cursor's year |
| Candidates.CandidatesForPeriod | src/modules/recurrence-rule/recurrence-rule.service.ts:347-389 | strictly increasing, and exactly the days of the period that are selected, pass the limit axes and are not before the seed |
| Expansion.StepPeriod | src/modules/recurrence-rule/recurrence-rule.service.ts:404-420 | the cursor always advances, by exactly the interval in periods, clamping the day of the month at most |
| CalendarLaws.DailyInterval | src/modules/recurrence-rule/recurrence-rule.service.ts:404-420 | a plain daily rule generates exactly every interval-th day from the seed on |
| CalendarLaws.WeeklyInterval | src/modules/recurrence-rule/recurrence-rule.service.ts:404-420 | a weekly rule generates exactly its weekdays of every interval-th week |
| CalendarLaws.MonthlyDay | src/modules/recurrence-rule/recurrence-rule.service.ts:221-257 | a plain monthly rule generates exactly the seed's day of every interval-th month that has it |
| CalendarLaws.YearlyDate | src/modules/recurrence-rule/recurrence-rule.service.ts:264-294 | a plain yearly rule generates exactly the seed's date in every interval-th year that has it |
| CalendarLaws.NthWeekdayByDay | src/modules/recurrence-rule/recurrence-rule.service.ts:144-169 | the k-th such weekday of a month is the one on days 7(k-1)+1 to 7k, and likewise from the end |
| CalendarLaws.FirstWorkdayByDay | src/modules/recurrence-rule/recurrence-rule.service.ts:177-209 | the first working day is the first day, or the Monday on the second or third |
| Expansion.UntilBoundaryMillis | src/modules/recurrence-rule/recurrence-rule.service.ts:426-439 | an instant is within UNTIL exactly when its local day is not past the end date |
| Expansion.TakeCandidate | src/modules/recurrence-rule/recurrence-rule.service.ts:543-588 | one candidate through UNTIL, COUNT, window and skip, in that order, keeps the loop's progress or settles the answer |
| Expansion.ExpandOccurrences | src/modules/recurrence-rule/recurrence-rule.service.ts:500-619 | the loop returns exactly the declarative answer: the wanted days in order, cut at 1000 |
| OccurrenceLaws.ExpansionContents | src/modules/recurrence-rule/recurrence-rule.service.ts:448-480 | every occurrence shows the exception's start, end, title and completion where set, and otherwise starts at the slot, lasts as long as the anchor wherever it was moved, and has its title |
| OccurrenceLaws.AgendaContents | src/modules/task/task.service.ts:1767-1915 | every agenda entry shows a live row's own span, title and completion, or one unskipped slot of the rule the row recurs by, its own before its group's |
| OccurrenceLaws.RowShowsUnlessItRecurs | src/modules/task/task.service.ts:1767-1915 | a row shows as it is exactly when it has no start or no rule |
| OccurrenceLaws.TimedRowIsShown | src/modules/task/task.service.ts:1767-1820 | a timed row without a rule shows in every window its span meets, unless overridden, completed or not asked for |
| OccurrenceLaws.TodoIsShown | src/modules/task/task.service.ts:1803-1820 | a todo shows whenever todos are asked for |
| OccurrenceLaws.RecurringSlotIsShown | src/modules/task/task.service.ts:1833-1915 | a slot shows in every window it meets that no cap cuts, unless skipped, overridden, completed or not asked for |
| OccurrenceLaws.SlotDecidesWindow | src/modules/recurrence-rule/recurrence-rule.service.ts:556-565 | whether a window shows an occurrence is decided by its slot, not by where it was moved |
| OccurrenceLaws.MovedSlotMissesItsWindow | src/modules/recurrence-rule/recurrence-rule.service.ts:556-565 | an occurrence moved to the fortieth day is missing there |
| SeriesLaws.UncappedMembers | src/modules/recurrence-rule/recurrence-rule.service.ts:540-597 | below the cap an occurrence is returned exactly when it is that of a wanted day |
| SeriesLaws.CapFreeMembers | src/modules/recurrence-rule/recurrence-rule.service.ts:500-619 | a read that neither cap cuts returns exactly the members of the series that meet the window and are not skipped |
| SeriesLaws.WindowsCover | src/modules/recurrence-rule/recurrence-rule.service.ts:556-565 | reads of two adjacent windows return together what one read returns, except exactly when occurrences are points and an unskipped slot of the rule starts at the seam |
| SeriesLaws.SeamLosesReminder | src/modules/recurrence-rule/recurrence-rule.service.ts:556-565 | a daily reminder without an end whose second day is in the whole window and in neither half |
| SeriesLaws.RestartYieldsTail | src/modules/recurrence-rule/recurrence-rule.service.ts:404-420 | stepping restarted at any generated day yields the tail of the stream, for all frequencies and seed fallbacks |
| SeriesLaws.ProbeIsExact | src/modules/task/task.service.ts:2159-2177 | the 2 ms membership probe is true exactly for reachable members with a non-negative span and fewer than 1000 earlier occurrences still running |
| SeriesLaws.ProbeIsMembership | src/modules/task/task.service.ts:2159-2177 | for spans below a thousand days the probe is membership |
| SeriesLaws.DailyProbe | src/modules/task/task.service.ts:2159-2177 | that bound is tight: past it, a plain daily rule's probe misses every slot from the thousandth on |
| SeriesLaws.TruncationKeepsThePast | src/modules/task/task.service.ts:1491-1496 | ending a rule the day before a member leaves exactly the members before it, for NEVER, UNTIL and COUNT |
| SeriesLaws.TruncationExactUnlessOver | src/modules/task/task.service.ts:1491-1496 | ending a rule before any day leaves exactly the earlier members if and only if the rule was not over already |
| SeriesLaws.TruncationRevives | src/modules/task/task.service.ts:1468-1504 | a daily rule of three, ended ten days on, gains a day it had not |
| SeriesLaws.ContinuationIsTheTail | src/modules/task/task.service.ts:2294-2318 | what the new side of a split generates for any number counted before it |
| SplitLaws.CountedBeforeIsRank | src/modules/task/task.service.ts:2328-2344 | the split counts the occurrences before a member exactly, up to 1000 |
| SplitLaws.SplitConservesCount | src/modules/task/task.service.ts:2294-2318 | split at the k-th of n occurrences: the old side generates k days, the new side n - min(k, 1000) or as many as there are |
| SplitLaws.LateSplitGains | src/modules/task/task.service.ts:2328-2344 | a plain daily rule of n, split at its k-th day past the thousandth: the new side generates n - 1000 days, more than n - k |
| SplitLaws.SplitConcatenates | src/modules/task/task.service.ts:1282-1376 | under the rule the split itself computes, the two sides' days concatenate to the original's in every stretch, exactly when the rule is uncounted, or at most 1000 occurrences precede the split, or no day follows the n-th |
| SplitLaws.SplitPreservesViews | src/modules/task/task.service.ts:1282-1376 | every cap-free window shows the same starts, ends, titles and completions, in order, before and after |
| SplitAgenda.SplitPreservesAgendas | src/modules/task/task.service.ts:1282-1376 | at the level of the store: every agenda, whatever its filters, shows the same of the split series and of every other task |
| SplitRequests.OverlayTakesNamedAxes | src/modules/task/task.service.ts:2361-2377 | a split's rule takes each axis the request names and keeps each it does not |
| SplitRequests.OverlayIsTheRequest | src/modules/task/task.service.ts:2361-2377 | it is the requested rule exactly when what the request leaves out was at its default and it asks for the ordinal and working-day selectors that were there |
| SplitRequests.OverlayDropsOrdinals | src/modules/task/task.service.ts:2361-2377 | a requested ordinal is dropped |
| SplitRequests.FullRequestIsTheRule | src/modules/task/task.service.ts:2294-2318 | a request that names every axis gets its own rule, and the new side its days |
| SplitRequests.SplitCount | src/modules/task/task.service.ts:2294-2318 | a requested count is taken; a counted rule otherwise goes on with n - min(k, 1000) |
| SplitRequests.NewMasterIsAsRequested | src/modules/task/task.service.ts:1325-1362 | the new master has the requested start, length, title, zone and group, and the old master's where nothing was requested |
| SplitRequests.SplitShowsRequest | src/modules/task/task.service.ts:1282-1376 | every agenda entry of the new master is a slot of the overlaid rule from the requested start on, with the requested title and length, but for the copied exceptions |
| SplitRequests.AnchorSplitEdits | src/modules/task/task.service.ts:1289-1300 | a split at the anchor, or of a task without a rule, edits the task as requested |
| SplitAgenda.EndKeepsExactlyThePast | src/modules/task/task.service.ts:1468-1504 | ending a series at one of its slots leaves exactly the occurrences that start before it, in every window |
| TaskInvariants.StepKeepsStructure | src/modules/task/task.service.ts:846-953 | every transaction keeps links within a calendar, one live child per slot, and a single owner per slot |
| TaskInvariants.RunsKeepStructure | src/modules/task/task.service.ts:680-1504 | over every run of all nine transactions, refused ones included |
| TaskInvariants.EmptyStoreIsSound | src/modules/task/task.service.ts:272-331 | runs may start from a store without tasks |
| TaskInvariants.ReachableIsSound | src/modules/task/task.service.ts:680-1504 | whatever the transactions make of an empty store has that structure |
| TaskHistory.RemovedStaysGone | src/modules/task/task.service.ts:1384-1449 | over every run a removed row never comes back, and no agenda shows it |
| TaskHistory.RunsKeepGroups | src/modules/task/task.service.ts:2465-2483 | over every run each row's group exists and is of the row's calendar |
| TaskInvariants.CreateOverrideKeeps | src/modules/task/task.service.ts:846-1003 | creating or updating an override keeps the structure: it absorbs and deletes the slot's exception |
| TaskInvariants.RemoveKeeps | src/modules/task/task.service.ts:1384-1449 | removal keeps it: the exception row is written only after the child is tombstoned, and children go with their master |
| TaskInvariants.SplitKeeps | src/modules/task/task.service.ts:1282-1376 | a split keeps it, copied exceptions included |
| TaskInvariants.RunsKeepAttachmentOf | src/modules/task/task.service.ts:2208-2231 | for one master, over every run in which its own occurrences stay shorter than a thousand days while it has overrides: `detachedAt` of its overrides is null exactly when its effective rule generates the slot |
| TaskInvariants.RunsKeepAttachment | src/modules/task/task.service.ts:2208-2231 | the same for all masters at once |
| TaskInvariants.SweepAttaches | src/modules/task/task.service.ts:2208-2231 | a sweep attaches exactly the children whose slot the edited master generates |
| TaskInvariants.LongSpansBlindTheSweep | src/modules/task/task.service.ts:2208-2231 | for longer spans the sweep flags children whose slot is generated, exactly past the thousandth slot |
| TaskService.TaskService.FindChild | src/modules/task/task.service.ts:872-875 | finds a live child of a slot exactly when there is one |
| TaskService.TaskService.IsGeneratedOccurrence | src/modules/task/task.service.ts:2159-2177 | computes the membership probe |
| TaskService.TaskService.ApplyChangesTo | src/modules/task-occurrence-exception/task-occurrence-exception.service.ts:146-193 | takes exactly the supplied fields, and reports a change exactly when the row differs |
| TaskService.TaskService.UpsertOverride | src/modules/task-occurrence-exception/task-occurrence-exception.service.ts:96-140 | the table afterwards: the one row created or patched, nothing else |
| OverrideContents.ChangesTakeEffect | src/modules/task-occurrence-exception/task-occurrence-exception.service.ts:146-193 | each named change takes effect, null included, and the rest stays |
| OverrideContents.OverrideShows | src/modules/task/task.service.ts:784-827 | after a change to one occurrence every agenda shows the slot with it, or not at all once skipped |
| OverrideContents.CollapsedOverridePatches | src/modules/task/task.service.ts:2068-2097 | on a task without a rule of its own the change falls on the row |
| TaskService.TaskService.CreateTask | src/modules/task/task.service.ts:272-331 | the new row, or the refusal, with nothing written |
| EditLaws.RequestRoundTrip | src/modules/recurrence-rule/recurrence-rule.service.ts:697-714 | any rule can be asked for, and an absent key means its default |
| EditLaws.CreatedAsAsked | src/modules/task/task.service.ts:272-331 | the new row is as asked; no other row changes |
| Acceptance.CreateAccepted | src/modules/task/task.service.ts:272-331 | accepted exactly with an ordered span, a start if it recurs, and a group of the calendar |
| TaskService.TaskService.ApplyPatch | src/modules/task/task.service.ts:1117-1189 | the patched row, and whether the edit changes what the series generates |
| TaskService.TaskService.UpdateTask | src/modules/task/task.service.ts:1099-1246 | the whole new state of an edit with its sweep, or the first objection with nothing changed |
| EditLaws.UpdatePatches | src/modules/task/task.service.ts:1099-1246 | each named field takes the named value, null included; each other stays; no span runs backwards |
| EditLaws.PatchReachesAnyRow | src/modules/task/task.service.ts:1117-1189 | any row can be edited into any other, in the fields an edit reaches |
| EditLaws.UpdateShows | src/modules/task/task.service.ts:1099-1246 | after an edit every agenda shows the new title, and slots of the new rule at the new start, zone and length |
| Acceptance.UpdateAccepted | src/modules/task/task.service.ts:1099-1189 | accepted exactly on a live row, without a rule for an override, with an ordered span and a group of the calendar |
| TaskService.TaskService.SweepOverrideChildren | src/modules/task/task.service.ts:2208-2231 | every live child flagged by the probe, all other rows untouched |
| TaskService.TaskService.SetTaskCompleted | src/modules/task/task.service.ts:680-714 | idempotent completion stamp |
| EditLaws.CompletionToggles | src/modules/task/task.service.ts:680-714 | completing twice keeps the first stamp; undoing clears it and restores an open task |
| TaskService.TaskService.CompleteOccurrence | src/modules/task/task.service.ts:729-768 | completion falls on the master, the override child or the slot's exception |
| EditLaws.CompletionShows | src/modules/task/task.service.ts:729-768 | after completing or reopening an occurrence every agenda shows it so, except a slot that recurs by its group's rule |
| EditLaws.GroupCompletionIsLost | src/modules/task/task.service.ts:736-740 | there no agenda changes |
| TaskService.TaskService.OverrideOccurrence | src/modules/task/task.service.ts:784-827 | refused on an overridden slot or an ungenerated coordinate; otherwise one exception row |
| Acceptance.OverrideAccepted | src/modules/task/task.service.ts:784-827 | accepted exactly at a slot without override that the rule generates, unless it only skips or completes |
| TaskService.TaskService.AbsorbExceptionInto | src/modules/task/task.service.ts:960-1003 | the child takes over span, title and completion, and the exception is deleted |
| OverrideContents.AbsorbedTakesOver | src/modules/task/task.service.ts:960-1003 | the child takes over each thing the exception sets; a moved start keeps the parent's length |
| TaskService.TaskService.CreateOrUpdateOverride | src/modules/task/task.service.ts:846-953 | the whole new state, rolled back when the patch is refused |
| Acceptance.CreateOverrideAccepted | src/modules/task/task.service.ts:846-953 | accepted exactly of a live master, at a slot that has a child or is generated, if the span taken over is ordered |
| OverrideContents.FirstChildShowsSlot | src/modules/task/task.service.ts:888-1003 | a fresh child shows exactly what the slot showed, in the series' calendar, group and zone |
| OverrideContents.OverrideKeepsAgenda | src/modules/task/task.service.ts:846-1003 | an override without a patch leaves every agenda showing the same starts, ends, titles and completions, where the child's row meets the window exactly when the slot does |
| OverrideContents.UnmovedMeetsAlike | src/modules/recurrence-rule/recurrence-rule.service.ts:556-565 | for a slot that is not moved it does, but for an end-less one at the window's lower bound |
| OverrideContents.PatchedOverrideShows | src/modules/task/task.service.ts:846-953 | a patched first override shows what the patch names, and otherwise what the slot showed |
| OverrideContents.RepeatedOverrideEdits | src/modules/task/task.service.ts:846-953 | a further override is an edit of the child and nothing else |
| TaskService.TaskService.RemoveTask | src/modules/task/task.service.ts:1384-1449 | tombstones, and the skip or restored completion of an override's slot |
| EditLaws.RemovedIsGone | src/modules/task/task.service.ts:1384-1449 | no agenda shows anything of a removed task or its overrides, and every other task shows what it showed |
| Acceptance.LiveAccepted | src/modules/task/task.service.ts:680-1504 | completions, removals and endings are refused only of what is not live |
| TaskService.TaskService.SplitSeriesAt | src/modules/task/task.service.ts:1282-1376 | the truncated master, the new master, the copied exceptions and the sweep |
| Acceptance.SplitAccepted | src/modules/task/task.service.ts:1282-1305 | accepted exactly when the requested group is one of the calendar |
| TaskService.TaskService.CopyExceptionsFrom | src/modules/task/task.service.ts:2261-2285 | one upsert per row gives exactly the copied table |
| TaskService.TaskService.ResolveSplitRecurrence | src/modules/task/task.service.ts:2294-2318 | the overlaid rule with the recomputed count |
| TaskService.TaskService.EndSeries | src/modules/task/task.service.ts:1468-1504 | the truncated master and the sweep, or a removal |
| Agenda.ReadsPartitionRows | src/modules/task/task.service.ts:1767-1915 | each live row feeds exactly one of the one-off, todo, own-rule and group-rule reads |
| Agenda.AgendaKeysDistinct | src/modules/task/task.service.ts:517-583 | one entry per task and original start |
| Agenda.SlotShowsOnce | src/modules/task/task.service.ts:596-622 | no slot that starts in the window shows both as its occurrence and as its override |
| Agenda.SuppressionReach | src/modules/task/task.service.ts:596-622 | an overridden slot's occurrence still shows if and only if it began before the window |
| Agenda.OverriddenSlotShowsTwice | src/modules/task/task.service.ts:596-622 | a store and a window in which the slot and its override both show |
| WitnessRuns.OverriddenDailyIsReached | src/modules/task/task.service.ts:846-953 | the transactions reach that store: a daily event created, its second day overridden |
| Agenda.NoMissedConflict | src/modules/task/task.service.ts:1518-1568 | every task with an unfinished entry on the agenda is a conflict |
| Agenda.ConflictsAreAgendaAndPhantoms | src/modules/task/task.service.ts:1518-1568 | the conflicts are exactly the agenda's tasks and the phantom rows |
| Agenda.PhantomOfFormerMaster | src/modules/task/task.service.ts:1518-1568 | a former master whose only slot has moved away clashes with an hour in which the agenda is empty |
| WitnessRuns.MovedMasterIsReached | src/modules/task/task.service.ts:1099-1246 | the transactions reach that store: the first day overridden, then the rule removed |
| Agenda.PhantomOfGroupRule | src/modules/task/task.service.ts:1518-1568 | so does a row that recurs by its group's rule and whose first day is skipped |
| WitnessRuns.SkippedGroupedIsReached | src/modules/task/task.service.ts:1420-1430 | the transactions reach that store: the first day overridden, then the override deleted |
| TaskReads.FindOccurrencesInRange | src/modules/task/task.service.ts:517-583 | exactly the agenda, distinct keys, ordered by start with timeless entries last; refused on an empty window |
| TaskReads.ReadOneOffOccurrences | src/modules/task/task.service.ts:1767-1820 | three queries and a filter give exactly the one-off and todo entries |
| TaskReads.ReadRecurringOccurrences | src/modules/task/task.service.ts:1833-1915 | two anchor scans and the engine give exactly the recurring entries |
| TaskReads.BuildOverrideSuppressionSet | src/modules/task/task.service.ts:596-622 | exactly the slots a live child replaces inside the window |
| TaskReads.FindOverlapping | src/modules/task/task.service.ts:1518-1568 | exactly the clashing rows, the excluded one aside, each once, ordered by start |
| TaskReads.FindClashingRecurringAnchors | src/modules/task/task.service.ts:1926-2013 | exactly the anchors with a live occurrence in the window |
| AgendaOrdering.SortByStart | src/modules/task/task.service.ts:578-582 | a permutation in order of start, timeless items last, equal starts in the order they came |
| AgendaOrdering.TimelessLast | src/modules/task/task.service.ts:578-582 | what that order means: timed items ascend, and everything behind a timeless item is timeless |
| AgendaOrdering.DedupeById | src/modules/task/task.service.ts:2446-2458 | the first row of each id, in the order in which the ids are first seen, none lost |
| OverrideLaws.RevertUndoesOverride | src/modules/task/task.service.ts:1396-1430 | an unpatched override, reverted, restores every agenda if and only if the slot had nothing to lose, and the exception itself if and only if it held a completion alone |
| OverrideLaws.RevertLosesTitle | src/modules/task/task.service.ts:1396-1430 | a renamed slot of a daily event, overridden and reverted, shows the series' title again |
| WitnessRuns.RenamedDailyIsReached | src/modules/task/task.service.ts:784-827 | the transactions reach that store: the second day renamed by an exception |
| OverrideLaws.RemovedSlotStaysGone | src/modules/task/task.service.ts:1282-1430 | a removed override's slot shows no recurring occurrence through every later run, neither of the series nor of any master a split has handed the slot to, until it is overridden or un-skipped |
| DeltaSync.ReplicatesBelowTheLag | src/modules/task/task.service.ts:447-504 | over every interleaving the client equals the live rows with all their exceptions after each delta, if and only if stamps commit in strictly less than the lag, todos are included or no timed row becomes one, and the client re-reads the exceptions of every row it is sent |
| DeltaSync.RunCatchesUp | src/modules/task/task.service.ts:470-504 | whatever the client has wrong, the next delta carries |
| DeltaSync.LateCommitIsLost | src/modules/task/task.service.ts:72 | a commit exactly one lag late can be lost |
| DeltaSync.StrippedRowIsKept | src/modules/task/task.service.ts:470-486 | a client without todos keeps a row whose start was taken away, however promptly that commits |
| DeltaSync.DeletedExceptionIsKept | src/modules/task-occurrence-exception/task-occurrence-exception.service.ts:42-57 | a client that adds the exceptions it is sent keeps one that was deleted, since a deletion leaves no tombstone |
| DeltaSync.OlderExceptionIsDropped | src/modules/task/task.service.ts:491-501 | a client that takes the exceptions it is sent for all there are loses those that have not changed |
| DebounceProtocol.MessagesConserved | src/modules/assistant/session/debounce-coordinator.service.ts:141-173 | arrivals are completed messages, batches in hand and the buffer, as a multiset, in every interleaving |
| DebounceProtocol.OrderKept | src/modules/assistant/session/message-buffer.store.ts:124-139 | with one drain in hand at a time, in arrival order |
| DebounceProtocol.OneTurnAtATime | src/modules/assistant/session/user-lock.store.ts:91-101 | at most one turn, of a batch or of an answer |
| DebounceProtocol.AnswersKept | src/modules/assistant/session/debounce-coordinator.service.ts:111-129 | each answer is waiting, in hand, or has had a turn of its own, while the queue takes its jobs |
| DebounceProtocol.RequeuedIsCovered | src/modules/assistant/session/debounce-coordinator.service.ts:277-283 | a batch put back always has a re-poll to come |
| DebounceProtocol.BufferIsCovered | src/modules/assistant/session/debounce-coordinator.service.ts:296-314 | a drain is to come for everything buffered, while no arm is stranded |
| DebounceProtocol.ArmCoversUnlessStranded | src/modules/assistant/session/debounce-coordinator.service.ts:296-314 | the last arm leaves the buffer without a drain exactly when the stable id belongs to a job that has drained |
| DebounceProtocol.InboundCanStrand | src/modules/assistant/session/debounce-coordinator.service.ts:296-314 | such a run exists without any fault |
| DebounceProtocol.CombinedTextIsEmpty | src/modules/assistant/session/debounce-coordinator.service.ts:190-198 | nothing is skipped as empty unless every text is |
| DebounceProtocol.CombinedTextJoins | src/modules/assistant/session/debounce-coordinator.service.ts:190-193 | the text of two stretches of a window is that of the one, a line break, and that of the other; one message is its own text |
| DebounceProtocol.EveryMessageIsSaid | src/modules/assistant/session/debounce-coordinator.service.ts:190-193 | each message's text stands between those of the messages before and after it |
| DebounceProtocol.MessagesAreSaid | src/modules/assistant/session/debounce-coordinator.service.ts:185-230 | over every run each message turn is handed the texts of its whole batch, as voice exactly when some message is, and each completed message with a text was in such a turn |
| DebounceCoordinator.DebounceCoordinator.Buffer | src/modules/assistant/session/debounce-coordinator.service.ts:92-98 | append, then re-arm; true when it opened the window |
| DebounceCoordinator.DebounceCoordinator.DrainAndRun | src/modules/assistant/session/debounce-coordinator.service.ts:141-173 | one combined turn of the whole buffer, handed its text and kind, or the batch back at the front with a fresh re-poll; always a sequence of protocol steps |
| DebounceCoordinator.DebounceCoordinator.RunDrainedTurn | src/modules/assistant/session/debounce-coordinator.service.ts:185-230 | runs under the lock, and releases it whatever happens |
| DebounceCoordinator.DebounceCoordinator.QueueAfter | src/modules/assistant/session/debounce-coordinator.service.ts:277-283 | the batch in front of what has arrived since, and a new job |
| DebounceCoordinator.DebounceCoordinator.RunAnswerExclusive | src/modules/assistant/session/debounce-coordinator.service.ts:111-129 | one answer alone, or carried by a fresh job |
| TurnHonesty.ClassifierMatchesGuard | src/modules/assistant/orchestration/terminal-classifier.ts:103-146 | on a clean end of turn the classifier re-drives exactly what the guard would mask |
| TurnHonesty.GenuineReplyPassesGuard | src/modules/assistant/orchestration/write-ledger.ts:47-65 | a genuine end of turn is relayed with text the guard lets through |
| LedgerLaws.FalseWithoutCommit | src/modules/assistant/orchestration/write-ledger.ts:47-65 | a text is a false success exactly without a commit, unvetoed, and after an attempt or with a claim |
| ToolLoop.Run | src/modules/assistant/orchestration/tool-loop.service.ts:156-498 | over any model and dispatcher: round trips, fetches and corrections within limits, forced choice only after a nudge, nudges only for narrations, pairing, audit trail, ledger and honest replies |
| ToolLoop.RunCalls | src/modules/assistant/orchestration/tool-loop.service.ts:364-477 | results answer calls one to one, each reporting its own dispatch or the cap; an ask pairs exactly the calls before it |
| ToolLoop.DispatchCall | src/modules/assistant/orchestration/tool-loop.service.ts:365-470 | one call under the cap, with its ledger delta |
| LedgerLaws.DispatchCounts | src/modules/assistant/orchestration/write-ledger.ts:23-32 | a saved single write is one attempt and one commit, a failed one an attempt, a batch as it says, any other call nothing |
| LedgerLaws.SingleWritesCounted | src/modules/assistant/orchestration/write-ledger.ts:23-32 | with single writes the ledger is the number of writes that came back and the number saved |
| LedgerLaws.FetchesCounted | src/modules/assistant/orchestration/tool-loop.service.ts:365-390 | the fetch counter is the number of schedule fetches dispatched |
| LedgerLaws.SavedWriteSettlesTurn | src/modules/assistant/orchestration/tool-loop.service.ts:264-360 | once a single write is saved, the turn counts it, is never given up, nudges no more, and no text is taken for a false success |
| LedgerLaws.FailedWritesAreOwned | src/modules/assistant/orchestration/tool-loop.service.ts:264-360 | when single writes came back and none was saved, a clean end of turn is answered only with a text the veto matches |
| ToolLoop.JudgeTerminalTurn | src/modules/assistant/orchestration/tool-loop.service.ts:264-360 | reply, give up or correct, and when; with a budget of 0 a false claim is sent as it is |
| LedgerLaws.NudgeAdds | src/modules/assistant/orchestration/tool-loop.service.ts:341-350 | a nudge adds the model's own words and the correction, no more |
| LedgerLaws.RelayedAsSaid | src/modules/assistant/orchestration/terminal-classifier.ts:70-82 | the model's words are relayed as they stand, and never when cut off or refused |
| ToolLoop.KillSwitchRelays | src/modules/assistant/orchestration/tool-loop.service.ts:264-360 | with a budget of 0, every turn of a model that insists on its words ends after one round trip with those words as the reply and nothing written |
| ToolLoop.HonestExactlyWithBudget | src/modules/assistant/orchestration/tool-loop.service.ts:264-360 | no reply to a clean end of turn falsely claims success, whatever the model and the dispatcher, if and only if corrections are allowed or no round trip is |
| ToolLoop.CommittedWithinAttempted | src/modules/assistant/orchestration/write-ledger.ts:23-32 | commits never exceed attempts, and a turn given up has saved nothing |
| ToolLoop.RequestsArePaired | src/modules/assistant/orchestration/tool-loop.service.ts:472-485 | every round the model is ever shown is paired |
| DraftThrottle.MinInterval | src/modules/assistant/reply/draft-throttle.ts:49-56 | the interval lies between 200 and 500 ms |
| DraftThrottle.IntervalIsLeast | src/modules/assistant/reply/draft-throttle.ts:49-56 | it is the least whole number of milliseconds that keeps the rate |
| DraftThrottle.RateIsCapped | src/modules/assistant/reply/draft-throttle.ts:92-121 | any span of length L holds at most L / interval + 1 sends, in every timed run |
| DraftThrottle.RunsSendInOrder | src/modules/assistant/reply/draft-throttle.ts:92-121 | in every run the jobs are sent in strictly increasing order of submission |
| DraftThrottle.LastWordIsSent | src/modules/assistant/reply/draft-throttle.ts:92-131 | the newest submission is the last one sent exactly when no flush is armed and no cancel dropped it; a job is pending exactly when a flush is armed |
| DraftThrottle.OpenWindowSendsAtOnce | src/modules/assistant/reply/draft-throttle.ts:92-105 | with the window open and nothing armed a submission is sent at once |
| DraftThrottle.PendingIsDueSoon | src/modules/assistant/reply/draft-throttle.ts:105-121 | a pending job is due within one interval |
| DraftThrottle.CancelledIsNotSent | src/modules/assistant/reply/draft-throttle.ts:128-131 | in every run nothing submitted before a cancel is sent after it |
| DraftThrottle.DraftThrottle.Submit | src/modules/assistant/reply/draft-throttle.ts:92-121 | runs at once or replaces the pending job, arming one flush at the window's end |
| DraftThrottle.DraftThrottle.OnFlush | src/modules/assistant/reply/draft-throttle.ts:110-120 | sends the newest job |
| DraftThrottle.DraftThrottle.CancelFlush | src/modules/assistant/reply/draft-throttle.ts:128-131 | drops the flush and the job |

## What the code does not guarantee

Each of these is proved of the code as it stands, with its exact condition and a concrete case.

- An end-less or zero-length occurrence that starts exactly at a window's lower bound is in neither of
  two adjacent windows (`SeriesLaws.WindowsCover`, `SeriesLaws.SeamLosesReminder`).
- Ending a series at a later instant that is not one of its slots revives a series that was already
  over, because the rule's own end is overwritten (`SeriesLaws.TruncationExactUnlessOver`,
  `SeriesLaws.TruncationRevives`).
- When more than 1000 occurrences precede a split, only 1000 of them are taken off the COUNT, so the two
  sides together generate more occurrences than the original (`SplitLaws.SplitConservesCount`,
  `SplitLaws.SplitConcatenates`, `SplitLaws.LateSplitGains`).
- The membership probe shares the 1000-occurrence cap, so occurrences of a thousand days or more hide
  later slots from it, and a sweep then flags attached overrides as detached (`SeriesLaws.ProbeIsExact`,
  `SeriesLaws.DailyProbe`, `TaskInvariants.LongSpansBlindTheSweep`).
- Suppression only covers slots that start in the window: an overridden occurrence that began earlier
  and is still running shows beside its override (`Agenda.SuppressionReach`,
  `Agenda.OverriddenSlotShowsTwice`).
- The conflict check reports rows the agenda does not show at that time: rows that recur by their
  group's rule, by their own anchor span, and former masters whose anchor slot is overridden
  (`Agenda.ConflictsAreAgendaAndPhantoms`, `Agenda.PhantomOfFormerMaster`, `Agenda.PhantomOfGroupRule`).
- Reverting an override does not bring back an exception's skip, span or title (`OverrideLaws.RevertUndoesOverride`,
  `OverrideLaws.RevertLosesTitle`).
- A moved occurrence is read by the window of its slot: a window around the moved start misses it
  (`OccurrenceLaws.SlotDecidesWindow`, `OccurrenceLaws.MovedSlotMissesItsWindow`).
- Completing an occurrence of a series that recurs by its group's rule stamps the master's row and shows on
  no occurrence (`EditLaws.CompletionShows`, `EditLaws.GroupCompletionIsLost`).
- A split cannot change the ordinal and working-day selectors of a rule (`SplitRequests.OverlayIsTheRequest`,
  `SplitRequests.OverlayDropsOrdinals`).
- The overlap lag of the delta covers commits that are less than 5000 ms late, not ones that are exactly
  5000 ms late (`DeltaSync.ReplicatesBelowTheLag`, `DeltaSync.LateCommitIsLost`).
- A delta that leaves out todos tells the client nothing of a row that has just become one, so the client
  keeps the timed row (`DeltaSync.StrippedRowIsKept`).
- The exceptions a delta lists do not suffice to follow a series: it names neither the deleted ones nor
  the unchanged ones, so a client must re-read those of every row it is sent
  (`DeltaSync.ReplicatesBelowTheLag`, `DeltaSync.DeletedExceptionIsKept`, `DeltaSync.OlderExceptionIsDropped`).
- A message that arrives while the fired window job is still working, after it drained, gets no job
  (`DebounceProtocol.ArmCoversUnlessStranded`, `DebounceProtocol.InboundCanStrand`). The method's comment says the window job is never active on this path.
- With re-drive switched off (`maxCorrections` of 0) a false claim is relayed, for the caller's guard to
  mask (`ToolLoop.HonestExactlyWithBudget`, `ToolLoop.KillSwitchRelays`).

The rule follows the code where it differs from section 3.3.10 of RFC 5545: a MONTHLY rule with only
`byWeekday` limits the seed's day instead of expanding, and a YEARLY rule never expands on `byWeekday`.

## Left out

- Time zones and daylight saving: a zone is a fixed offset, so the drift of iteratively stepped cursors across a clock change is not modelled.
- `parseWallClockInZone`, ISO parsing and invalid dates: requests carry instants, and an unparseable string is the null it becomes.
- Ownership checks, HTTP, DTO validation, reminders, sync revisions, `updatedAt` touches by the transactions, notes, colours, icons (which a split does not copy to the new master), all-day and completion-requirement flags: columns and plumbing that no modelled decision depends on, except that an all-day change also triggers a sweep.
- Rule axes are taken to be in the ranges the request validators enforce (`RecurrenceRule.ValidAxes`), and a stored rule with axes out of range is not modelled.
- Group rules are held fixed: group edits never sweep override children in the code, so `detachedAt` is only right for runs without them.
- TaskInvariants.RunsKeepAttachmentOf: asks that the master's own occurrences last from zero to less than a thousand days in each later state in which it has live overrides, because the probe is capped there; `TaskInvariants.LongSpansBlindTheSweep` gives the exact failure. Other rows may have any span.
- SplitAgenda.SplitPreservesAgendas: stated for splits at generated slots past the anchor with no override child ahead, for windows no cap cuts, since children ahead of the cut stay with the old series by design of the code.
- SplitAgenda.EndKeepsExactlyThePast: stated for generated slots and windows below the cap; the service does not check membership, and `SeriesLaws.TruncationExactUnlessOver` says what happens at any other day.
- Conflict previews of proposed series and edits: loops over the conflict check that would only add easy members.
- DeltaSync.ReplicatesBelowTheLag: covers one calendar. The client is not part of the repository: it loads everything once at its first contact, and when it re-reads exceptions it does so at the instant of the delta.
- DebounceProtocol.OrderKept: needs one drain in hand at a time; with two, a busy batch can be overtaken, so the sequence form is not claimed there.
- DebounceProtocol.AnswersKept: excludes steps in which the queue refuses the job that carries an answer, which the code swallows.
- The lock's expiry and watchdog, the buffer's expiry, malformed buffer entries, and faults of the buffer store between its two commands: the lock is a mutex and buffer operations are atomic and succeed.
- ToolLoop.Run: the patterns are uninterpreted predicates, of which only one fact is used (the veto matches the ceiling line, which ends in a question mark); token streaming and the per-round recap do not affect the outcome and are not modelled.
- Calls listed after an ask in the same round stay unpaired; the contract states the pairing of the calls before it.
- The draft throttle's clock is monotone and its timers are never early.
