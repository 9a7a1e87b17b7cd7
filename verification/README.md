# Verified models of Leteo's core

Leteo keeps a store of memories for coding agents. This project models the parts
of it that have to be right over whole runs and not only in one call, and proves
what those parts promise. Each module follows one source file, in that file's own
form: a class where the source updates an object, a loop where it loops, a state
machine where several processes meet on one directory or one store, and functions
where it only computes.

- **Replication** (`Journal`, `Backoff`, `Autosync`, `SharedSync`; from
  `src/cloud/autosync.rs`, `src/store/replication.rs`,
  `src/cloud/cloudstore/mod.rs`). The client is a class over a store. At every
  await an adversary says whether the step succeeds, is refused by the store or
  never happens, what the cloud answers and what other processes write. Over any
  number of cycles, each cut anywhere, what was handed to the store is an exact
  stretch of the log, what was acknowledged was in a batch the cloud took whole,
  a refusal ends the cycle as a failure on record, and failures are spaced by the
  backoff ladder. `SharedSync` drops the lease:
  any number of clients work on one store, and the store's own cursor check turns
  out to be what keeps replication right.
- **Capture spool** (`SpoolClaim`, `SpoolDrain`, `SpoolNames`; from
  `src/hooks/spool.rs`). Any number of drainers claim files from one directory, with
  a rename split into opening a handle and moving it, and a crash possible at any
  point. No entry is replayed twice exactly when the marker is held or a rename is one
  step. `SpoolDrain` adds the list each drain walks: what it leaves waiting is what it
  went past, and what is stuck behind a marker for good.
- **Names** (`EditDistance`, `FindSimilar`, `Grouping`, with `Sorting`, `Text` and `Math`;
  from `src/project.rs`, `src/cli/projects.rs`). The rolling rows compute the
  length of a shortest edit script; the similarity search is sound, complete and
  ordered; the greedy grouping is sound and does not depend on input order.
- **Crash-safe files** (`CrashSafe`, `TmpNames`, with `Decimal` and `Cut`; from
  `src/files.rs`). Any number of writers to one target, any failure, and a power
  cut that keeps only what was flushed: the target is whole in every state, and what
  a write reports as done is there.
- **A model's answer** (`JsonSpan`, `Answer`, `Pairs`; from `src/llm.rs`). The
  brace scanner against a grammar of balanced text, JSON objects in prose and in
  Markdown fences, and which pairs of memories are put to the model.
- **Opening block, hint and vault** (`OpeningBlock`, `HintWindow`, `Slug`,
  `Export`, `CaseFolding`; from `src/recall.rs`, `src/hooks/nudge.rs`, `src/hooks/context.rs`,
  `src/hooks/mod.rs`, `src/obsidian.rs`).

Where a promise does not hold of the code as written, the model keeps the code and
states exactly when the promise holds:

- A capture the store was too busy for is to be given its name back, "so the next
  drain finds the entry where it left it" (src/hooks/spool.rs:227-232). The error of
  that rename is thrown away and the entry counted as returned all the same; the file
  then stays under a claimed name no drain looks at.
  `SpoolClaim.AFailedReturnLosesTheEntry` is the run, `SpoolClaim.AccountedIff` says
  for every run and entry which steps lose it and that no others do.
- A capture is kept "and a later open replays it" (src/hooks/spool.rs:8-10), and the
  marker is cleared so that a lost claim is not "stranded behind a marker nothing
  removes" (src/hooks/spool.rs:355-359). A drain killed between making the marker and
  the rename leaves the entry waiting where no drain can claim it, and the sweep removes
  the marker and the entry at one age. `SpoolDrain.StrandedIff` says for every run and
  entry which steps do that, `SpoolDrain.StrandedForGood` that nothing undoes it,
  `SpoolDrain.ACrashStrands` is a run and `SpoolNames.AgesWithItsMarker` the shared age.
- Naming one project ignores directories that are not absolute
  (src/cli/projects.rs:88); grouping all of them does not
  (src/cli/projects.rs:141-152), although the comment on the single form and its test
  (src/cli/projects.rs:412-431) call a merge over `.` impossible.
  `Grouping.RelativeDirectoriesStillGroup` says when two projects are proposed for
  merging that way, `Grouping.DotMergesTwoProjects` is an instance, and
  `Grouping.AbsoluteDirectoriesAgree` that nothing but such a directory sets the two
  forms apart. Both ways into the store now drop a relative directory
  (src/project.rs:986-1001), so only rows older than that or adopted from elsewhere get
  there.
- An answer fenced with three backquotes whose JSON object opens on the fence's own
  line loses the object's beginning whenever a line break follows, because
  everything up to the first line break is dropped (src/llm.rs:498-504).
  `Answer.SurvivorIsRead`, `Answer.BeginningIsCutOff` and `Answer.ObjectIsReadIff`.
- A failure is to be waited for. `validate` (src/cloud/autosync.rs:54-80) puts no bound
  on `max_backoff`, and a deadline after the year 9999 is written with a five-digit
  year that does not read back, so nothing waits for it; past the year 262142 the
  addition panics (src/cloud/autosync.rs:183-186). `Autosync.Autosync.Record` gives the
  condition for one failure, `Autosync.EveryWaitReadsBackIff` the one to check on a
  configuration beforehand, `Autosync.AcceptedAndNotWaitedFor` two configurations. No
  command-line or settings path sets `max_backoff`; its default is five minutes.
- The hint promises never to name a memory twice in one conversation
  (src/hooks/nudge.rs:207-214). It keeps that for 400 prompts and no longer:
  `HintWindow.WindowIsExact`.
- Pins the store left out are announced in every opening block but the empty one
  (src/recall.rs:308-310): the last clause of `OpeningBlock.FormatContextCounted`, and
  `OpeningBlock.OmittedPinsGoUnsaid`. The store leaves pins out only past its limit
  (src/store/observations.rs:1253-1256), so nothing to show and pins left out come
  together when a caller asks for no memories at all, a limit of zero, in a project that
  has pins and neither sessions nor prompts.
- A second export of an unchanged store writes nothing (src/obsidian.rs:330-341), where
  every file planned is its own. On a file system that folds case, as the default ones of
  Windows and macOS do, two hubs whose names differ in case alone are one file, and each
  export writes both over again. `CaseFolding.FilesFoldApartIff` is the condition,
  `CaseFolding.SessionsFoldTogether` the sessions that fail it, `Run` and `run` for instance
  (`CaseFolding.RunAndRun`).
- Sorting spool names is sorting by time until the millisecond clock needs a
  fourteenth digit: `SpoolNames.SortsByTimeIff`.

`dafny verify dfyconfig.toml` checks the whole project.

## Model

| member | source | states |
|---|---|---|
| Journal.AboveAdvances | src/store/replication.rs:241-274 | having taken the first n mutations above a cursor, what is above the last of them is exactly the rest |
| Journal.HandedComposes | src/cloud/autosync.rs:298-368 | two exact stretches of the log, one after the other, are one exact stretch: how a prefix survives any number of cut cycles |
| Journal.AscendingPrefixIsLongest | src/cloud/autosync.rs:305-367 | no longer beginning of a page is strictly ascending |
| Journal.AckTakesAPrefix | src/store/replication.rs:162-195 | acknowledging the first m pending rows leaves exactly the others pending, in order |
| Journal.AckKeepsAckedFirst | src/store/replication.rs:162-195 | acknowledging a batch keeps the acknowledged rows ahead of every unacknowledged allowed row, and the numbering |
| Journal.PendingGrows | src/store/replication.rs:127-160 | rows written meanwhile wait behind the ones already pending |
| Journal.PendingMembers | src/store/replication.rs:127-160 | the pending rows are exactly the allowed, unacknowledged ones |
| Journal.ServeGives | src/cloud/cloudstore/mod.rs:300-345 | a page is the first mutations above the cursor, as many as asked for between one and a hundred, and says there is more exactly when there is |
| Backoff.BackoffIsTheLadder | src/cloud/autosync.rs:430-435 | for every count from one, however large, the wait is min(max, base * 2^min(n-1,31)) with no overflow on the way |
| Backoff.BackoffIsMonotone | src/cloud/autosync.rs:430-435 | more failures never wait less |
| Backoff.BackoffIsBounded | src/cloud/autosync.rs:430-435 | the wait lies between the base and the maximum |
| Backoff.BackoffDoubles | src/cloud/autosync.rs:430-435 | each failure doubles the wait until the 32nd rung or the maximum |
| Backoff.FailuresAreSpaced | src/cloud/autosync.rs:174-199 | k failures in a row, refusals included, separate the first from attempt k+1 by at least the sum of their waits |
| Autosync.Store.ApplyPulled | src/store/replication.rs:241-274 | mutation and cursor move together or not at all; invalid and already seen numbers change nothing |
| Autosync.Store.Ack | src/store/replication.rs:162-195 | exactly the named rows become acknowledged |
| Autosync.Store.MarkFailure | src/store/replication.rs:276-296 | one more failure, and the deadline as it reads back: none when its year has five digits |
| Autosync.Store.MarkHealthy | src/store/replication.rs:298-310 | no failures and nothing waited for |
| Autosync.New | src/cloud/autosync.rs:54-119 | a client exists exactly when both keys hold a character that is not blank, projects are allowed, both batch limits are within 1 and 100, the durations are positive and the base backoff is no more than the maximum |
| Autosync.ShortBatchIsTheLastIff | src/cloud/autosync.rs:260-296 | stopping at a short batch is right for every queue exactly when the batch limit is at most the hundred the store honours, which `validate` insists on |
| Autosync.Autosync.PushPending | src/cloud/autosync.rs:260-296 | cut anywhere and with others appending: every acknowledged row was acknowledged at the start or in a batch sent earlier that the cloud took whole (`Valid`), acknowledged rows come first, a push that ends well leaves no row waiting that was there when it began, and a refused batch ends the push at once as that refusal; when nothing fails and nobody else writes it ends well if and only if every pending payload parses; terminates |
| Autosync.EveryMomentIsReached | src/cloud/autosync.rs:203-252 | any world, killed at any moment, is one in which every push ends, and it is the same world up to that moment: `Ends` keeps no state any run can reach out of what is proved |
| Autosync.Autosync.PushOnce | src/cloud/autosync.rs:263-294 | a turn that ends the push well leaves nothing waiting that was there when it began, whoever writes meanwhile; one that goes on has shortened a queue nobody else adds to |
| Autosync.Autosync.Deliver | src/cloud/autosync.rs:275-291 | the batch goes into the history, and is acknowledged exactly when the cloud took all of it and the store went along; the queue is otherwise only appended to; a refusal, a short count and a lost answer each end the turn as what they are |
| Autosync.Autosync.PullRemote | src/cloud/autosync.rs:298-368 | against any server it terminates, the cursor and the applied log only grow and applied numbers strictly ascend over the store's whole life (`Store.Valid`); against an ordered log what was handed over is an exact stretch at every cut, and a pull that ends well has everything published; a refused page ends it at once as that refusal, and it ends well only on a page that says there is no more |
| Autosync.Autosync.PullOnce | src/cloud/autosync.rs:301-366 | one page is asked for from the store's cursor, and its answer decides the turn: refused, empty but promising more, out of order, no progress, last or not; another turn only if the cursor rose |
| Autosync.Autosync.ApplyPage | src/cloud/autosync.rs:332-363 | of any page exactly the above-cursor part of an ascending beginning is applied; all of the longest one when nothing else fails, and the page is refused exactly when it is out of order |
| Autosync.ServedPage | src/cloud/cloudstore/mod.rs:300-345 | a page of the real server (`Journal.Serve`) is the next stretch above the cursor, ordered, and all of it unless it says there is more |
| Autosync.ServedPageApplied | src/cloud/autosync.rs:332-366 | applying any part of such a page hands over an exact stretch; all of the last page means caught up |
| Autosync.Autosync.SyncOnce | src/cloud/autosync.rs:254-258 | push, then pull only if the push ended well; a good end leaves none of the rows waiting that were there, and with nothing failing and nobody else writing comes exactly when every pending payload parses |
| Autosync.Autosync.Begin | src/cloud/autosync.rs:125-147 | nothing goes on while a failure is still waited for or another holds the lease, and what goes on begins after the wait of the last failure |
| Autosync.Autosync.Record | src/cloud/autosync.rs:161-200 | a success clears the failures; a failure is waited for if and only if now plus its wait is by the end of the year 9999, is recorded but not waited for after that, and past the calendar is neither, a panic but for a wait too long to convert |
| Autosync.EveryWaitReadsBackIff | src/cloud/autosync.rs:54-80 | for a valid configuration, every wait after every error reads back at an instant if and only if that instant plus `max_backoff` does |
| Autosync.AcceptedAndNotWaitedFor | src/cloud/autosync.rs:183-186 | one configuration `validate` accepts after whose refusals nothing is waited for, and one whose refusals are past the calendar |
| Autosync.Autosync.RunCycle | src/cloud/autosync.rs:125-201 | one cycle, cut anywhere: an exact stretch of the log, acknowledgements backed by batches sent, no effect while waiting or without the lease; a push or page the cloud refused is one more failure in a row and a deadline its wait ahead, the maximum for 401, 403 and 409 and the next rung of the ladder otherwise, if the store takes it and the calendar reaches that far; it is cut short only if the process died or an answer was lost in it; when it ends well, caught up and none of the rows waiting that were there when it began, whoever writes meanwhile, and nothing pending at all if nobody does; when nothing fails and nobody else writes it ends well if and only if every pending payload parses |
| Autosync.Autosync.Run | src/cloud/autosync.rs:203-252 | the same over any number of cycles, with the attempts spaced by their waits and every acknowledged row in a batch sent before and taken whole; none is skipped unless one panicked |
| Autosync.FailureKeepsSchedule | src/cloud/autosync.rs:174-199 | the deadline stored after a failure is at least the one the run so far asks for, and attempts stay spaced |
| Autosync.SuccessKeepsSchedule | src/cloud/autosync.rs:162-173 | a success keeps the attempts spaced and starts the count again |
| SharedSync.EveryStateIsSafe | src/store/replication.rs:241-274 | any number of clients on one store without a lease, crashing anywhere: what was handed over is an exact stretch and acknowledged rows come first, in every reachable state |
| SharedSync.WhoRestsIsCaughtUp | src/cloud/autosync.rs:298-368 | a client that comes to rest by itself leaves nothing above the store's cursor of what was published when it last asked, whoever applied it |
| SharedSync.StepsDo | src/store/replication.rs:127-274 | a client begins at the store's cursor, a batch is what was pending, acknowledging marks exactly its rows, and a client that dies leaves the store as it is |
| SharedSync.UnguardedAppliesTwice | src/store/replication.rs:256-263 | without the cursor check in the transaction two clients apply one mutation twice |
| SharedSync.SafeIffGuarded | src/store/replication.rs:256-263 | every run is exact if and only if the store checks its cursor, or nothing is above it |
| SpoolClaim.EveryStateIsSafe | src/hooks/spool.rs:344-374 | in every interleaving, whoever crashes: one holder per entry, one finished replay per entry, every claim alone inside its marker |
| SpoolClaim.MoveKeeps | src/hooks/spool.rs:344-362 | a handle moves the file it was opened on, because no other handle on the entry can exist inside the marker |
| SpoolClaim.UnfencedReplaysTwice | src/hooks/spool.rs:333-343 | with two-step renames and no marker, two drainers replay one capture |
| SpoolClaim.NeverTwiceIff | src/hooks/spool.rs:333-374 | no run replays an entry twice if and only if claims are fenced or a rename is one step |
| SpoolClaim.EveryDrainBalances | src/hooks/spool.rs:97-116 | at every moment of every drain, claimed = returned + replayed + dropped + the one entry in hand, with returned at most one |
| SpoolClaim.EveryReportIsTrue | src/hooks/spool.rs:189-240 | in every reachable state, each drain reports as replayed exactly the replays of its own that reached the store and as dropped exactly those that did not |
| SpoolClaim.ADrainThatEndedReportsAll | src/hooks/spool.rs:175-242 | a drain that ended reports claimed = returned + replayed + dropped |
| SpoolClaim.ClaimsNeverExceedEntries | src/hooks/spool.rs:97-116 | over any set of concurrent drains, claimed - returned never exceeds the number of entries |
| SpoolClaim.AccountedIff | src/hooks/spool.rs:175-242 | for every run and entry: it waits, is in a drain's hands or had its replay finished if and only if the cap never evicted it and no drain holding it failed to give its name back (nor, when a dead drain's hands do not count, died with it) |
| SpoolClaim.NothingIsLost | src/hooks/spool.rs:175-242 | the same of all entries of any run, each in one place only |
| SpoolClaim.AFailedReturnLosesTheEntry | src/hooks/spool.rs:205-232 | on every platform a run without crash or eviction whose report counts the entry returned and after which nobody has it |
| SpoolDrain.ATourIsARun | src/hooks/spool.rs:175-242 | any number of drains walking lists is a run of the claim protocol, so all that holds of its runs holds here |
| SpoolDrain.WhatADrainWentThrough | src/hooks/spool.rs:175-242 | a drain that stopped went through its list in order; of every entry it came to it finished the replay or its claim came to nothing, but for one it gave back; it stops short of the end only at its deadline or a busy store; entries come to = claimed + passed over |
| SpoolDrain.OnlyThePassedOverIsLeft | src/hooks/spool.rs:180-188 | a drain that stopped, having met neither its deadline after listing nor a busy store, leaves an entry it listed waiting only if, when it came to it, the marker was there or could not be made, or the rename inside failed |
| SpoolDrain.AWholeListIsAccountedFor | src/hooks/spool.rs:97-116 | such a drain's list is as long as what it passed over and replayed and dropped together |
| SpoolDrain.StrandedIff | src/hooks/spool.rs:344-362 | over every run an entry waits where no drain can claim it if and only if a drain died between its marker and the rename, or did not get its marker removed, or the entry came to wait where a marker was left, and the cap has not removed it since |
| SpoolDrain.StrandedForGood | src/hooks/spool.rs:344-374 | from then on nobody takes it and its replay is never finished, until the cap removes it |
| SpoolDrain.ACrashStrands | src/hooks/spool.rs:344-362 | a run of three steps after which the only entry is stranded |
| SpoolNames.AgesWithItsMarker | src/hooks/spool.rs:301-321 | a marker left behind is past its retention exactly when the entry it stands for is, whatever the files' own times |
| SpoolNames.EveryFormKeepsItsTime | src/hooks/spool.rs:395-397 | the time is read back from the entry, temporary, marker and claimed names alike |
| SpoolNames.OnlyEntriesAreEntries | src/hooks/spool.rs:283-299 | of all the forms of a name only the entry's own is enumerated |
| SpoolNames.ParsesIff | src/hooks/spool.rs:395-397 | a signed number of any size reads back if and only if it is within 64 bits |
| SpoolNames.EntryNamesAreApart | src/hooks/spool.rs:389-392 | equal entry names mean equal time, process and counter |
| SpoolNames.NamesSortByTime | src/hooks/spool.rs:283-299 | an earlier time below 10^13 ms sorts strictly first, whatever the process and counter |
| SpoolNames.SortsByTimeIff | src/hooks/spool.rs:384-392 | all names of an era sort by time if and only if the era ends by 10^13 ms |
| SpoolNames.Directory.Entries | src/hooks/spool.rs:283-299 | exactly the entries, each once, in name order |
| SpoolNames.Directory.Sweep | src/hooks/spool.rs:301-321 | removes exactly what is past its retention |
| SpoolNames.SweptIff | src/hooks/spool.rs:301-321 | a file goes exactly when more than a week has passed since the time in its name, or since its modification where the name holds none; a file with neither stays |
| SpoolNames.Directory.EnforceCap | src/hooks/spool.rs:323-331 | exactly the newest `SPOOL_CAP` entries stay, every removed one sorts before every kept one, nothing else is touched |
| EditDistance.Levenshtein | src/project.rs:189-215 | the length swap and the two rolling rows compute the distance |
| EditDistance.FillRow | src/project.rs:204-213 | one turn of the outer loop turns one row of the distance table into the next |
| EditDistance.NoShorterScript | src/project.rs:189-215 | no script of insertions, deletions and substitutions is shorter than the distance |
| EditDistance.ShortestScript | src/project.rs:189-215 | a script of exactly that length exists |
| EditDistance.ZeroIffEqual | src/project.rs:189-215 | zero exactly for equal names |
| EditDistance.Symmetric | src/project.rs:198-200 | symmetric, which is what justifies the swap |
| EditDistance.Triangle | src/project.rs:189-215 | the triangle inequality |
| EditDistance.Bounds | src/project.rs:189-215 | between the difference of the lengths and the longer length |
| FindSimilar.FindSimilar | src/project.rs:136-186 | exactly the resembling names other than the query, each once, under the first way it resembles, classes in order and the last sorted by distance and name |
| FindSimilar.ReportsIff | src/project.rs:136-170 | what is reported of a name, from the two names alone: equal folded; else one a part of the other when the folded query has three characters; else the edit distance, within the limit asked for and, past one, within half the query's length |
| FindSimilar.InOrderMeans | src/project.rs:177-185 | equal names first, then parts, then near ones by distance and name, the first two as they were met |
| FindSimilar.AnswerIsDetermined | src/project.rs:136-186 | those clauses leave one answer only |
| Grouping.SimilarProjectGroups | src/cli/projects.rs:119-189 | the loops over indexes, directories, flags and sorts compute `Groups` |
| Grouping.GroupsAreSound | src/cli/projects.rs:119-189 | groups are disjoint and sorted, every source is itself related to its canonical and comes after it in size and name, and of two related projects at least one is grouped |
| Grouping.CanonicalTakesAll | src/cli/projects.rs:164-186 | a canonical takes every project related to it, except one that a canonical before it in the order took |
| Grouping.GroupsAreInOrder | src/cli/projects.rs:187-188 | groups come sorted by the names they would be merged under |
| Grouping.TakenComesLater | src/cli/projects.rs:164-186 | the loop looks only at who is free, yet takes only projects after the canonical in the order |
| Grouping.OrderIndependent | src/cli/projects.rs:124-188 | permuting the projects leaves the groups identical |
| Grouping.RelateByName | src/cli/projects.rs:134-140 | two projects end up related exactly when one resembles the other |
| Grouping.RelateByDirectory | src/cli/projects.rs:141-152 | and when exactly they recorded one directory between them |
| Grouping.ClaimGroups | src/cli/projects.rs:164-188 | the claim loop over flags builds the clusters |
| Grouping.SimilarProjects | src/cli/projects.rs:68-95 | exactly the projects that resemble the one named or share an absolute directory with it, each once, the similar names first in the order of the search and the others as listed |
| Grouping.GroupedIffRelated | src/cli/projects.rs:119-189 | two projects nobody else is related to are proposed for merging if and only if they are related |
| Grouping.RelativeDirectoriesStillGroup | src/cli/projects.rs:86-189 | two such projects that share only relative directories are never listed for each other by the single form, and are in one group if and only if one such directory was recorded by the two and nobody else |
| Grouping.AbsoluteDirectoriesAgree | src/cli/projects.rs:68-189 | whoever else is related to the two: a project in a group resembles its canonical or shares an absolute directory with it, and one of the two is listed for the other by the single form, whenever the directories only those two recorded are absolute |
| Grouping.DotMergesTwoProjects | src/cli/projects.rs:412-431 | two projects that both recorded `.` are proposed for merging |
| CrashSafe.EveryStateIsWhole | src/files.rs:71-144 | any number of writers, failures and deaths: the target is the whole of the old contents or of some writer's data, no two live writers share a temporary file, and secret contents are never in a file others may open; with the flush all that outlives a power cut |
| CrashSafe.ASuccessIsThere | src/files.rs:71-102 | over any run with no power cut, or with the flush: a writer that reports success took its rename, and until somebody renames again or the power goes the target holds all of its data |
| CrashSafe.ADurableSuccessLasts | src/files.rs:90-102 | once the directory is flushed as well, the target holds that writer's data through every power cut, until somebody renames again |
| CrashSafe.ASuccessMayBeUndone | src/files.rs:95-101 | a run in which a write reports success, its directory not flushed, and a power cut brings the old contents back |
| CrashSafe.OnlyLitterIsLeft | src/files.rs:80-93 | a temporary file is there only while its writer is at work, or because it was there at first, or a writer died on it or failed to remove it |
| CrashSafe.AFreeNameIsTaken | src/files.rs:110-144 | a free name is taken at the try that meets it, up to a hundred and twenty-eight tries, and a writer gives up for want of a name exactly after those |
| CrashSafe.TheKilledStop | src/files.rs:71-102 | a writer that was killed takes no further step: it neither renames nor cleans up |
| CrashSafe.OnlyWhatWasRenamed | src/files.rs:71-102 | over any run, power cuts included: the target is the whole of what it held at first or of the data of a writer that got as far as its rename, so never a failed writer's |
| CrashSafe.FlushedDirectoryLasts | src/files.rs:95-101 | once a directory flush succeeded, every later power cut leaves what the target held then or what was renamed since |
| CrashSafe.OnlyRenamesTouchTheTarget | src/files.rs:71-102 | no step but a rename or a power cut changes what the target denotes |
| CrashSafe.OthersKeepTheirFile | src/files.rs:71-102 | no step of one writer changes another's temporary file |
| CrashSafe.FailureRenamedNothing | src/files.rs:71-102 | a writer that reports failure never renamed anything |
| CrashSafe.UnflushedIsLost | src/files.rs:80-93 | without the flush a power cut after the rename leaves an empty target |
| CrashSafe.WholeIffFlushed | src/files.rs:56-102 | the target survives every power cut whole if and only if contents are flushed before the rename |
| TmpNames.TmpNamesAreApart | src/files.rs:110-144 | temporary names are equal exactly for one process and one counter value, and never the target's own |
| JsonSpan.ExtractJsonObject | src/llm.rs:508-536 | the loop over depth, string and escape flags returns `Object`, and the depth never underflows |
| JsonSpan.ObjectIsTheBalancedSpan | src/llm.rs:506-536 | a span is returned if and only if it starts at the first opening brace and is a text whose braces nest, strings and escapes aside |
| JsonSpan.NoOtherLength | src/llm.rs:506-536 | no balanced text at that place is shorter or longer than the span returned |
| JsonSpan.NestCloses | src/llm.rs:513-534 | balanced text leaves the scanner at the depth it had |
| JsonSpan.NestIn | src/llm.rs:513-534 | whatever the scanner closes nests, and here is how |
| Answer.AnyObjectIsFound | src/llm.rs:506-536 | between any text without an opening brace and any text at all, every object of RFC 8259 is returned whole and alone |
| Answer.SurvivorIsRead | src/llm.rs:466-504 | whatever follows, an object is the one read when there is no opening fence, or its line ends before the object, or no line break follows |
| Answer.BeginningIsCutOff | src/llm.rs:498-504 | otherwise, whatever follows, what is scanned begins after the object's opening brace |
| Answer.ObjectIsReadIff | src/llm.rs:466-504 | before text without a closing brace, the object is the one read if and only if that condition holds |
| Answer.FenceLineTakesTheObject | src/llm.rs:498-504 | the shortest answer whose object is lost |
| Answer.DropKeeps | src/llm.rs:498-504 | the closing fence is taken off what follows the object, never off the object |
| Pairs.CollectPairs | src/llm.rs:198-285 | the questions are exactly those of what was met, at most the budget, the scan stops at the very meeting that fills it and otherwise meets everything; verdicts already on record are counted |
| Pairs.AskedOnce | src/llm.rs:231-240 | no two questions are about the same two memories, in one order or the other |
| Pairs.AskedIff | src/llm.rs:231-266 | a pair met is asked about, in one order or the other, if and only if its first meeting found no verdict and a readable target |
| Pairs.KeyIsThePair | src/llm.rs:232-237 | two meetings have one key if and only if they are of the same two memories |
| Pairs.BudgetCutsShort | src/llm.rs:279-282 | what a budget lets through is the beginning of what no budget would have |
| OpeningBlock.Shown.DropOne | src/recall.rs:361-379 | one item fewer on the fixed chain, titles from the oldest end first, and false exactly when nothing is left |
| OpeningBlock.RenderContext | src/recall.rs:394-530 | the text, section by section, with the line that says what was cut |
| OpeningBlock.SizeIsLength | src/recall.rs:333-339 | what the budget is held against is the length of the text itself, headings, items, blanks and the cut line spelled out |
| OpeningBlock.RenderedBytes | src/recall.rs:394-530 | every byte accounted for: the opening, for each kind shown its heading, the bytes of the shown items and a blank line, the line about pins left out, and the cut line |
| OpeningBlock.ShownIsInTheText | src/recall.rs:394-530 | an item the block shows is in its text, word for word |
| OpeningBlock.CutNames | src/recall.rs:505-528 | the cut line names every kind something was left out of, with how much |
| OpeningBlock.FormatContextCounted | src/recall.rs:295-340 | nothing for four empty lists, otherwise the draft the drop loop stops at, with the number of memory lines it holds; its text is within the budget or it names no memory; pins the store left out are mentioned if and only if there are any and a list is not empty |
| OpeningBlock.CutsIsTheFirst | src/recall.rs:333-339 | that draft fits or has nothing left to drop, and no earlier one on the chain fits |
| OpeningBlock.NothingIsCutForNothing | src/recall.rs:333-339 | every fuller draft on the chain would have been longer than the budget |
| OpeningBlock.AnnouncedIffCut | src/recall.rs:505-528 | the block announces a cut exactly when something was dropped |
| OpeningBlock.PinsGoLast | src/recall.rs:342-379 | no prompt goes before every title, no session before every prompt, no pin while anything else is left; k drops drop k items |
| OpeningBlock.DraftSays | src/recall.rs:394-530 | of every kind exactly the newest are shown, once each and in order, and shown plus announced omissions is everything there was |
| OpeningBlock.LargerBudgetShowsNoLess | src/recall.rs:333-339 | a larger budget shows no less of any kind, although the cut line spells the budget out |
| OpeningBlock.FitsStill | src/recall.rs:510-528 | what fits a budget fits a larger one with more digits |
| OpeningBlock.OverBudgetIsBare | src/recall.rs:333-339 | a block whose text is longer than its budget shows no item |
| OpeningBlock.OmittedPinsGoUnsaid | src/recall.rs:308-310 | three pins left out and nothing to show give an empty block |
| HintWindow.SessionState.Remember | src/hooks/nudge.rs:248-257 | new ids are appended once each and the oldest fall off past the limit |
| HintWindow.SessionState.SaveNudge | src/hooks/nudge.rs:22-76 | fires exactly when due, and stamps the state exactly then |
| HintWindow.SessionState.UserPromptSubmit | src/hooks/mod.rs:647-670 | one prompt: what is named, what is remembered and whether the reminder fires |
| HintWindow.SessionState.PostCompaction | src/hooks/mod.rs:588-602 | clears the list and leaves the reminder's clock alone |
| HintWindow.PromptRecall | src/hooks/context.rs:91-100 | keeps exactly the matches not shown yet or with something said against them |
| HintWindow.KeptInOrder | src/hooks/context.rs:91-100 | and in the order they were found |
| HintWindow.ShownIsBounded | src/hooks/nudge.rs:206-257 | over any conversation no id is listed twice and never more than 1200 |
| HintWindow.NotNamedAgain | src/hooks/nudge.rs:192-257 | a memory that entered the list, with a caveat or without, is not named without one for the next 400 prompts, short of a compaction |
| HintWindow.NamedAgainAt401 | src/hooks/nudge.rs:192-257 | a conversation in which prompt 401 after it names it again |
| HintWindow.WindowIsExact | src/hooks/nudge.rs:192-257 | no conversation names a memory plainly again within n prompts of its entering if and only if n is at most 400 |
| HintWindow.CompactionForgets | src/hooks/mod.rs:590-602 | after a compaction every match is named |
| HintWindow.RemindersAreSpaced | src/hooks/nudge.rs:22-76 | any two reminders of one conversation are at least a quarter of an hour apart, compactions or not, and as far from the session's start and its last save |
| HintWindow.DueIff | src/hooks/nudge.rs:22-76 | in seconds: a reminder is due exactly when the session is fifteen minutes old and a quarter of an hour has passed since anything saved in it and since the last reminder; never when the session cannot be read |
| HintWindow.MinutesRoundToZero | src/hooks/nudge.rs:22-76 | whole minutes of a time to come count towards zero, as those of a time past do |
| Slug.Slugify | src/obsidian.rs:189-210 | the loop over characters, the cut and the trims compute the note's name |
| Slug.StemIsClean | src/obsidian.rs:189-210 | the stem has no dash at either end and none doubled, is at most 60 long, and holds the title's letters and digits in order from the beginning |
| Slug.WordsAreKept | src/obsidian.rs:189-200 | whatever stands before, a run of letters and digits is kept as it is |
| Slug.GapsAreDashes | src/obsidian.rs:189-200 | whatever stands between two words becomes one dash |
| Slug.NoteNamesAreApart | src/obsidian.rs:187-210 | equal note names mean equal identifiers, for all titles and negative identifiers too |
| Slug.SafeComponentIsSafe | src/obsidian.rs:306-321 | one path component, not empty, no separator, no leading dot |
| Export.NotePathsAreApart | src/obsidian.rs:94-125 | no two notes of one export share a path |
| Export.LocatedApart | src/obsidian.rs:71-151 | as path strings too, everything an export writes is apart: notes, hubs of either kind and the graph settings |
| Export.PlacesSpelledOut | src/obsidian.rs:18-151 | where notes, hubs of either kind and the graph settings are written |
| Export.ReferencesAreNotes | src/obsidian.rs:94-125 | a hub refers to exactly the notes of the observations that belong to it, in order |
| Export.ReferencesArePlanned | src/obsidian.rs:94-125 | no reference of a hub dangles: each names a note of the same export |
| Export.HubsArePlanned | src/obsidian.rs:127-141 | a session has a hub from the first observation that belongs to it, a topic from the second |
| CaseFolding.FilesFoldApartIff | src/obsidian.rs:71-151 | where case is folded all files of an export are still apart if and only if no two hubs of one kind have names that differ in case alone; notes always are |
| CaseFolding.SessionsFoldTogether | src/obsidian.rs:127-133 | two sessions whose identifiers differ in case alone have one hub there |
| Slug.NoteNameIsSafe | src/obsidian.rs:189-210 | a note name is one path component of letters, digits and dashes |
| Export.Vault.WriteIfChanged | src/obsidian.rs:330-341 | the file holds the content afterwards, and a write happened exactly when it did not before |
| Export.Vault.WriteNotes | src/obsidian.rs:93-125 | every note is as the store says, only notes moved, and as many were written as were stale |
| Export.Vault.WriteHubs | src/obsidian.rs:127-141 | every hub with enough references is right, only those moved, and as many were written as were stale |
| Export.Vault.Export | src/obsidian.rs:71-151 | everything is up to date and nothing unplanned moved; notes, hubs and graph written are exactly those that differed before, so a second export of an unchanged store writes nothing; orphans are counted exactly, and only for a complete export |

## Left out

- HTTP, tokio and timers: a step either happens or is cut; `run` sleeping between cycles is not timed.
- SQLite and PostgreSQL: the store's and the server's queries are modelled by what they select; the visibility of uncommitted sequence numbers is not.
- The sync lease: `acquire` is an arbitrary guard and its expiry is not timed; `SharedSync` proves what holds without it.
- Pruning of acknowledged rows, deferred mutations and their replay, and changes to the set of allowed projects during a run.
- Autosync.Autosync.PushPending: that it terminates needs a moment, after any other, at which a step fails or from which nobody else writes (`Ends`); `Autosync.EveryMomentIsReached` is why no clause at a cut loses anything by it.
- Autosync.Autosync.Record: stored instants up to the year 9999 are taken to read back exactly; an error after the store was marked healthy, from counting deferred rows, is not modelled.
- Autosync.Store.Ack: removes no old acknowledged rows and keeps no last acknowledged number; nothing modelled reads either.
- SpoolClaim.EveryReportIsTrue: `replayed` counts captures that reached the store; the source's `stored` adds up the learnings each of them saved, and `remaining` is a fresh listing.
- SpoolClaim.NothingIsLost: what a dead drain had is swept in time like other litter, which is not modelled as a step.
- SpoolDrain.OnlyThePassedOverIsLeft: a listing is any list of entries, in any order, as a directory others change may be read so or not at all; that it is sorted is `SpoolNames.Directory.Entries`.
- SpoolClaim.EveryStateIsSafe: no entry and no marker crosses the retention age during a drain, so `Sweep` is not interleaved with claims.
- Reading and writing an entry's JSON, and the wording of ages.
- CrashSafe.EveryStateIsWhole: a full disk and a refused permission are failures of a step; creating missing parent directories is not modelled, the rename is one step on every platform, and restricting a file to its owner is taken as it works on Unix (it does nothing on Windows).
- FindSimilar.FindSimilar: lower-casing and trimming are any functions; the edit distance counts characters as the source does.
- Grouping.SimilarProjectGroups: assumes project names are unique, as the store's query gives them.
- Git and worktree detection, settings, translations, argument parsing, the terminal interface and the plugins: probing, tables or display.
- Answer.AnyObjectIsFound: control characters and escapes that RFC 8259 forbids in strings are allowed, and more scalar texts than it has, so the statement covers more texts than JSON; parsing the span is the library's.
- Answer.SurvivorIsRead: white space is any set of characters without the two braces.
- Pairs.CollectPairs: finding candidates is the store's; the concurrent judging after it (`semantic_scan`), prompts and the agents' own output formats are not modelled.
- OpeningBlock.RenderContext: the headings, the line about pins and the cut line are spelled out byte by byte; the lines of a session, prompt or memory are any bytes, made once and kept.
- HintWindow.NotNamedAgain: the session's file is read and written without failure and by one prompt at a time, and a search gives at most three matches.
- Export.Vault.Export: the markdown of notes and hubs is any function of what it is made from; read and write errors, names a platform reserves and files that are not notes are not modelled.
