# What the factory dashboard keeps true

A model of the dashboard's hardest parts, and proofs about it. Each module models one component; times are whole
microseconds, money is exact, a database transaction is one step.

- **Answers** (`AnswerStore`, `AnswerSettlement`, `AnswerProtocol`, `AnswerInvariant`, `AnswerSteps`, `AnswerRuns`,
  `AnswerTheorems`, `AnswerUndone`, `AnswerGivenUp`, `AnswerEndings`): answering a card is check, claim, publish, then
  release or store the read count; settling reads the claims, the marks and a snapshot of the record, and writes later.
  Every transaction, snapshot and send is a step of its own, any number of submitters and settlements run at once with
  the feed, and what happens is kept in a log. The theorems are about every interleaving.
- **Time** (`Timing`, `Waits`): a feature's time as sets of instants; the sweep and the pairing of waits, and a second
  way of computing machine time that must agree.
- **Copies** (`CostImport`, `ForgeMirror`): the incremental copies against the plain full ones, over whole runs in which
  passes fail.
- **Cost** (`CostBook`): hour buckets against raw calls, and London weeks across clock changes.
- **Recordings** (`Bytes`, `Ebml`, `Mp4`, `Mp4Movie`, `Wav`): readers of the three containers against encoders, in both
  directions, down to the fields of the headers that state a length.
- **Small machines** (`CallHandover`, `RateLimits`, `ChangeLog`): two threads handing over one call, the sliding-window
  limits, and live updates over a pruned log.
- **Written answers** (`Grounding`, `AnswerTemplates`, `AnswersAreGrounded`, `AnswerFigures`, `AnswerWording`): maximal
  runs of digits, every template, its words, the check that each figure comes from the record, and which figures an
  answer shows.

Classes and methods with loops follow the source where it changes things in place; each is proved against a function or a
property, and the lemmas are about those.

## What the proofs found

- A settlement that decided from an older copy of the record can put a finished rebuild's mark back to "unconfirmed"
  within one generation, exactly when it had read the mark as still requested and gives it up by its own copy
  (`AnswerSettlement.DoneIsUndoneExactlyWhen`, and `AnswerUndone.WriteUndoesDoneExactlyWhen` in every run); such runs
  exist for every card (`AnswerUndone.DoneIsUndoneInARun`). The next settlement on the newer record repairs it.
- A submission can be given up although fewer than two passes began after it was sent (three for a rebuild): the row
  carries its check's read count until the one after the send is stored, so a settlement that reads it before that, or
  after storing failed, counts passes from the check (`AnswerGivenUp.WholePassesExactlyWhenNoLag`,
  `AnswerGivenUp.GivenUpEarly`). One pass is lost for each that was counted between the two.
- The feed's copy can move on without its read count doing so: equal counts mean equal copies exactly when no pass that
  wrote something stopped before its stamp (`ForgeMirror.CountStandsForCopyIff`, `ForgeMirror.ALostStamp`).
- A spend row that arrives more than three hours behind the newest stored one is missed by ordinary passes, and only
  such a row (`CostImport.LateRowsAreMissed`, `CostImport.ALateRow`); it stays missed through every later one
  (`CostImport.TooLateStaysMissed`) until a daily recount gets through, which brings it in when it lies in the last
  three days (`CostImport.RecountBringsIn`).
- Waits that overlap are subtracted twice. The waits of one gate or one build never do, so planning and build time fall
  short of the time worked, which is the sweep's figure for the same stretch, exactly when two gates of a planning run,
  or the approvals of two builds, wait at one moment (`Waits.StretchSeconds`, `Waits.BothGatesAtOnce`).
- A spend window that does not start and end on the hour loses calls at its start or counts some after its end
  (`CostBook.ExactOnlyOnTheHour`). Every present caller passes London midnights, which are on the hour, so no page shows
  such a figure today.
- Change-log rows are stamped with the time their pass began, and two feeds write them. If a later row carries an
  earlier time, pruning can take it and keep an older one, and a page that reconnects is then not told of it
  (`ChangeLog.PruningLeavesNoGapIffTimesInOrder`, `ChangeLog.ReplayIsExactIffNoGap`, `ChangeLog.AGap`).
- A page whose poll comes after a change it was not told has been pruned, and tells it of another, is told of the first
  neither then nor when it reconnects (`ChangeLog.ALatePoll`). This cannot happen while no prune takes a row that the
  page has still to be told; rows of panels it does not follow may be pruned at any time
  (`ChangeLog.LastIdIsTrueWhilePrunesSpare`, `ChangeLog.UpToDateWhilePrunesSpare`).
- The sign-in bound needs the lockout to be at least as long as the window (`RateLimits.BoundNeedsLongLockout`). The
  defaults meet it.

## Model

| member | source | states |
|---|---|---|
| `AnswerStore.AnswersDb.Claim` | backend/claims.py:191-207 | A claim is granted exactly when none is waiting for the id; it then replaces whatever row was there, under a generation never used before. |
| `AnswerStore.AnswersDb.AskRebuild` | backend/claims.py:228-243 | The same for a rebuild mark, which also keeps the rebuild count it was asked at. |
| `AnswerStore.AnswersDb.SetReadCount` | backend/claims.py:210-216 | Only the row of that very generation gets the new count. |
| `AnswerStore.AnswersDb.Drop` | backend/claims.py:219-248 | A release or a dropped rebuild removes only the row of its own generation. |
| `AnswerStore.AnswersDb.WriteSettlement` | backend/claims.py:354-361 | The settlement's transaction: all deletes, then all updates, each only on the generation named. |
| `AnswerStore.SettleClaims` | backend/claims.py:295-305 | The deletes and updates decided for claims are the verdicts on the rows found, in order. |
| `AnswerStore.SettleMarks` | backend/claims.py:308-324 | The same for rebuild marks. |
| `AnswerStore.DecisionsAre` | backend/claims.py:295-324 | A row is deleted or changed exactly when its own verdict says so, and nothing else is written. |
| `AnswerStore.DroppedAllIs` | backend/claims.py:356-357 | The rows that go are exactly those still holding a listed generation. |
| `AnswerStore.ChangedAllIs` | backend/claims.py:358-360 | An update changes a row's state and nothing else, and only if it names the row's generation. |
| `AnswerSettlement.SettleStore` | backend/claims.py:327-361 | Settling the store: the claims' decisions and then the marks' are written as one settlement of everything found; without a readable record, or with nothing found, the store stays as it was. |
| `AnswerSettlement.SettleIsPointwise` | backend/claims.py:327-361 | An uninterrupted settlement sends every row to its own fate, whatever order the rows were read in. |
| `AnswerSettlement.SettleConverges` | backend/claims.py:327-361 | Whatever stale settlements did before: afterwards no closed card has a row, every mark whose open card shows a higher rebuild count is done, and nothing that the feed passed often enough still waits. |
| `AnswerSettlement.SettleIsIdempotent` | backend/claims.py:327-361 | Settling again from the same record changes nothing. |
| `AnswerSettlement.SettleTakesWhatIsGone` | backend/claims.py:295-324 | After a settlement a row is still there if and only if its card is in the record and open and, for a mark, has a rebuild. It is the row it was but for its state: a waiting claim is not recorded once three passes were counted past its read count; a mark not yet done is done once the card shows a higher rebuild count, and a requested one, with none wanted, unconfirmed once four passes were counted. |
| `AnswerSettlement.DoneIsUndoneExactlyWhen` | backend/claims.py:308-361 | A finding: whatever is stored and however long ago a settlement read, its write leaves a done mark in another state (always unconfirmed) if and only if it had read that very submission as still requested, from a copy that shows an open card with no higher rebuild count and none wanted, with enough passes counted. |
| `AnswerUndone.WriteUndoesDoneExactlyWhen` | backend/claims.py:327-361 | The same if and only if for the write step at the end of any interleaving from the start. |
| `AnswerUndone.DoneIsUndoneInARun` | backend/claims.py:308-361 | For every card whose rebuild may be asked for and every later record that shows it finished there is a run from the start in which the mark is done and one more settlement write leaves it unconfirmed. |
| `AnswerSettlement.StaleSettlementUndoesDone` | backend/claims.py:308-324 | Two settlements of one mark, the one with the older record writing last: done, then unconfirmed, and done again after the next settlement on the newer record. |
| `AnswerRuns.RunKeeps` | backend/answers.py:309-365 | The invariant of the whole protocol holds after every interleaving of submitters, settlements and the feed. |
| `AnswerRuns.SameSettlers` | backend/claims.py:354-361 | The interleaved write step does to the rows what the store's transaction does. |
| `AnswerTheorems.ClaimedOnce` | backend/claims.py:191-207 | In every run, a generation is claimed once. |
| `AnswerTheorems.PublishedOnceAfterItsClaim` | backend/answers.py:325-351 | In every run, an answer is sent only for a claim granted before it, on the same card, and at most once for each generation. |
| `AnswerTheorems.NextClaimWaitsForTheLast` | backend/claims.py:191-222 | In every run, between two claims of one id the first one ended: by its own release, a settlement's delete, or a settlement's mark that fits its table (not recorded; for a rebuild done or unconfirmed). |
| `AnswerTheorems.SendsAreBounded` | backend/answers.py:309-365 | In every run, the answers sent for one id are at most one more than the ended claims on it. |
| `AnswerTheorems.OnePassMayStraddle` | backend/claims.py:46-51 | Of the passes counted since any moment at most one began before it. |
| `AnswerTheorems.GivenUpAfterWholePasses` | backend/claims.py:46-51 | If a settlement read the row after the send's read count was stored and gives it up, at least two whole successful passes began after the send (three for a rebuild). |
| `AnswerGivenUp.WholePassesLessTheLag` | backend/claims.py:300-304 | Whatever row the settlement read, in every run: of the two passes promised (three for a rebuild) at most as many are missing as passes were counted between the read count that the row carried and the send. |
| `AnswerGivenUp.WholePassesExactlyWhenNoLag` | backend/claims.py:12-15 | A finding: the promise that two whole passes began after the send (three for a rebuild) holds of all runs if and only if the row read carried a read count no lower than the one at the send. |
| `AnswerGivenUp.GivenUpEarly` | backend/claims.py:300-304 | For every greater lag, and either table, a run from the start in which a settlement that read the row before the count after the send was stored gives it up with fewer. |
| `AnswerTheorems.GivenUpRowWaitedLongEnough` | backend/claims.py:303 | However stale the settlement: since the check on which a not-recorded row's claim was granted at least three passes were counted, two of which began after it (four and three for a rebuild). |
| `AnswerTheorems.SettlementTouchesOnlyWhatItRead` | backend/claims.py:354-361 | A settlement adds no row and touches a row only if it read that row's generation, at any interleaving. |
| `AnswerTheorems.NeverWaitsAgain` | backend/claims.py:295-324 | Within one generation, a submission that stopped waiting never waits again, in any continuation of any run. |
| `AnswerEndings.GrantedWhenOffered` | backend/answers.py:309-343 | In every run, whatever was granted was granted on a check at which the copy showed the card open and answerable (and the rebuild on offer), and carries the read count of that moment. |
| `AnswerEndings.GrantedExactlyWhenFree` | backend/answers.py:309-343 | In any world, a newcomer's check and ask are granted if and only if the copy is fresh, the card is on offer and no submission stands for it; the row is its own, with the read count and the rebuild count it saw. |
| `AnswerEndings.RaisedSendLetsGo` | backend/answers.py:345-356 | A send that raised takes its own row away, and no other. |
| `AnswerEndings.RemovedWhenGone` | backend/claims.py:327-361 | In every run, whatever a settlement removed it removed because the copy, at the earlier step that took its snapshot, showed the card missing or closed or, for a mark, without a rebuild. |
| `AnswerEndings.GivenUpOnAFreshCopy` | backend/claims.py:345-349 | In every run, a settlement gives a submission up only if the copy was fresh when it took its snapshot. |
| `Timing.Sweep` | backend/readmodel/timing.py:199-211 | The cut-and-classify sweep gives each period exactly the instants of [lo, hi) whose first covering span in the precedence is that period, and the uncovered ones to the time not placed. |
| `Timing.Classify` | backend/readmodel/timing.py:206-210 | The period chosen for a piece is one that covers it, and none that covers it comes earlier in the precedence. |
| `Timing.MeasureSplits` | backend/readmodel/timing.py:199-211 | Splitting the window splits every figure. |
| `Timing.MeasuresAddUp` | backend/readmodel/timing.py:15-20 | The figures of all periods add up to exactly hi − lo. |
| `Timing.OrderDoesNotMatter` | backend/readmodel/timing.py:199-211 | The order and repetition of spans make no difference. |
| `Timing.OneMoreSpan` | backend/readmodel/timing.py:199-211 | One more span never lowers its own period and never raises another. |
| `Timing.PartsOf` | backend/readmodel/timing.py:234-238 | The parts shown are exactly the periods with time or still open, in their order, with their measures; of each kind they carry all the time, and together all of it. |
| `Timing.TimeOf` | backend/readmodel/timing.py:214-238 | Nothing without a time sent; no parts if and only if a build ended more than 24 hours after its last row by time and id (its start or, without one, its queueing, if it has no rows) and that row does not wait for a person, with the day the last such build was closed and the whole days since; otherwise machine time (planning, building, merge check), waiting (queue, approvals, merge decision, mission merge) and the time between steps are each exactly the instants counted under their periods and make up the elapsed time. |
| `Timing.UnbackedIsUnseen` | backend/readmodel/timing.py:110-126 | The test for a build closed in a clean-up is that condition, written out on the build's fields. |
| `Waits.Walk` | backend/readmodel/factory.py:473-504 | The loop that pairs waits computes the walker's result; which waits those are is the next row. |
| `Waits.WaitsAreGroups` | backend/readmodel/factory.py:473-504 | For any rows, the waits are those of the groups of opening rows with no closing row and no work between them: each runs from the first opening row of its group to the row that closes it, or to its last opening row when work is seen before the next opening one; the last one, when no row closes it, is open while still waiting. |
| `Waits.WaitsAreOrderly` | backend/readmodel/factory.py:473-504 | For rows in time order the waits are well formed, sorted and apart; only the last may be open, and only while still waiting. |
| `Waits.EarlierWaitsStand` | backend/readmodel/factory.py:473-504 | Appending rows changes no wait but the last. |
| `Waits.EveryGateIsWaited` | backend/readmodel/factory.py:480-485 | Every moment the record was seen waiting lies inside one of the waits. |
| `Waits.PlanningWaitsAreGateRuns` | backend/readmodel/factory.py:528-542 | For a planning gate the waits are exactly the maximal runs of gate rows, each closed by the next other row; the branch for work seen never fires. |
| `Waits.OverlapsCoverWaiting` | backend/readmodel/factory.py:888-892 | What is subtracted is never less than the time inside the waits, and equals it if and only if no moment lies in two of them. |
| `Waits.MachineSeconds` | backend/readmodel/factory.py:882-893 | The answer is the span less the overlaps, and zero if that is negative. It is the time outside the waits if and only if no moment lies in two waits (or no time was outside them); the cut-off at zero then plays no part. |
| `Waits.SweepAgreesWithMachineSeconds` | backend/readmodel/timing.py:199-211 | What the sweep gives a build or a planning run is always the time outside its waits, and equals the span less the overlaps if and only if no moment lies in two waits. |
| `Waits.ApartUnlessTwoWait` | backend/readmodel/factory.py:716-725 | The waits of a feature are apart over a stretch if and only if no two gates or builds wait at one moment of it: each one's own waits always are. |
| `Waits.SameInAnyOrder` | backend/readmodel/factory.py:725 | Sorting the waits changes neither the time outside them nor whether they are apart. |
| `Waits.PlanningWaits` | backend/readmodel/factory.py:528-542 | The waits of a planning run are those of its two gates, each paired from its own rows. |
| `Waits.StretchSeconds` | backend/readmodel/factory.py:896-909 | Planning and build time never exceed the time outside the waits of all the feature's gates or builds, and fall short of it, and of the sweep's figure, if and only if two of them wait at one moment of the stretch and any time was worked. |
| `Waits.PlanningSeconds` | backend/readmodel/factory.py:896-900 | From a run's events in time order, planning time never exceeds the time outside its gates' waits, and falls short of it if and only if both gates are waited at in one moment of the run and any time was worked. |
| `Waits.BothGatesAtOnce` | backend/readmodel/factory.py:528-542 | An input where they do: a planning run held at both its gates loses as much again as the second was held. |
| `CostImport.Dash.Store` | backend/projector/cost_import.py:121-139 | A page is inserted in one step, ignoring ids already there; the count returned is the rows added. |
| `CostImport.Dash.NewestStart` | backend/projector/cost_import.py:142-146 | The newest stored start time, or none. |
| `CostImport.Dash.PageThrough` | backend/projector/cost_import.py:149-159 | Paging ends on every source and stores one prefix of the rows after the start: all of them unless the source fails first, at any page. |
| `CostImport.Dash.Reconcile` | backend/projector/cost_import.py:202-226 | Recounts the window's days and reads again, with an upper bound, each day whose count differs. |
| `CostImport.Dash.ImportOnce` | backend/projector/cost_import.py:229-250 | One pass: from the newest stored start minus three hours, then the recount when due; a failure leaves the pages already stored. One that gets through leaves exactly what was stored and every visible row that starts no more than three hours before the newest stored one or, with a recount, from the start of the third day before today on. |
| `CostImport.MatchingFrom` | backend/projector/cost_import.py:154-159 | Moving the cursor to a row leaves exactly the rows after it, also among many with one start time. |
| `CostImport.PagesReach` | backend/projector/cost_import.py:149-159 | However long the source keeps answering, the pages together are one prefix of the rows. |
| `CostImport.ImportKeepsUp` | backend/projector/cost_import.py:229-239 | A pass, wherever it fails, keeps every missing row no earlier than the newest stored start minus three hours; one that gets through misses none. |
| `CostImport.LateRowsAreMissed` | backend/projector/cost_import.py:236-239 | Without a recount, a good pass picks up a missing row if and only if it starts no more than three hours before every stored one. |
| `CostImport.TooLateStaysMissed` | backend/projector/cost_import.py:229-239 | Over any run in which rows are only added and no pass recounts, a row that came more than three hours behind the newest stored call stays out of the store, wherever the passes stop. |
| `CostImport.ALateRow` | backend/projector/cost_import.py:229-239 | An input: any two calls, the later stored first and the other arriving more than three hours behind it, and a pass that gets through without it. |
| `CostImport.EqualCountsMeanEqualRows` | backend/projector/cost_import.py:207-211 | For a copy of an insert-only source, equal counts for a day if and only if the day is whole. |
| `CostImport.RecountIsExact` | backend/projector/cost_import.py:202-226 | After a recount that got through, every day of its window is whole, however far behind the store was. |
| `CostImport.PassStoresInReach` | backend/projector/cost_import.py:229-250 | The same for any log and any store that copies part of it, whatever the store lacked before. |
| `CostImport.RecountBringsIn` | backend/projector/cost_import.py:202-250 | Over any run in which rows are only added, however late, once a pass that recounts gets through every row of its three full days and of today is stored, and stays stored. |
| `CostImport.RunKeepsUp` | backend/projector/cost_import.py:229-250 | Over every run of arrivals and passes that fail anywhere, the store is a copy that lacks nothing older than the overlap. |
| `CostImport.EveryGoodPassIsWhole` | backend/projector/cost_import.py:229-250 | In every run, a pass that gets through leaves the store equal to the visible log, each row once. |
| `CostImport.SecondPassAddsNothing` | backend/projector/cost_import.py:229-250 | An immediate second pass adds nothing, whether or not it gets through. |
| `ForgeMirror.ReadForge` | backend/projector/forge_mirror.py:120-150 | The snapshot holds the whole of each replaced table and, of each appended one, the rows after the last id copied, or all when Forge's newest id is lower. |
| `ForgeMirror.Mirror.LocalMaxIds` | backend/projector/forge_mirror.py:153-156 | The newest id of each appended table's copy. |
| `ForgeMirror.Mirror.Write` | backend/projector/forge_mirror.py:168-206 | What the write leaves of every table; it says changed if and only if the replaced tables' content differs from the hash, or an appended table is started again or has rows read for it. When it says nothing changed, nothing did. |
| `ForgeMirror.Mirror.MirrorOnce` | backend/projector/forge_mirror.py:228-250 | A pass that cannot read Forge or is rolled back changes nothing; a good one writes and is counted. A good one says changed if and only if the content hash differs from Forge's replaced tables, or Forge's newest id of an appended table is lower than the copy's or is a row the copy has not. |
| `ForgeMirror.CopyIsFullExactlyWhen` | backend/projector/forge_mirror.py:144-199 | The incremental copy of a table is the full copy if and only if it was only appended to or was replaced by one with a lower newest id. |
| `ForgeMirror.HashStandsForTables` | backend/projector/forge_mirror.py:170-182 | In every run a stored content hash stands for what the replaced tables hold, so skipping them is right. |
| `ForgeMirror.CopyIsLastWritten` | backend/projector/forge_mirror.py:228-250 | In every orderly run the copy is Forge's record at the last write, in full. |
| `ForgeMirror.GoodPassIsFullCopy` | backend/projector/forge_mirror.py:228-250 | Every successful pass of an orderly run leaves the copy equal to Forge's snapshot. |
| `ForgeMirror.ReadCountCountsGoodPasses` | backend/projector/forge_mirror.py:209-218 | Over any run the read count is the number of successful passes. |
| `ForgeMirror.EveryWriteIsCountedIff` | backend/projector/forge_mirror.py:246-250 | Over every run the read count is at most the passes that wrote, and equals them if and only if no pass stopped between the write and the stamp. |
| `ForgeMirror.CountStandsForCopyIff` | backend/projector/forge_mirror.py:246-250 | A finding: equal read counts at two moments of a run always mean equal copied rows if and only if every pass that stopped between the write and the stamp had nothing to write. |
| `ForgeMirror.ALostStamp` | backend/projector/forge_mirror.py:246-250 | An input where they do not: one new row copied by a first pass that stops there. |
| `CostBook.LoadCostBook` | backend/readmodel/costs.py:243-254 | Every bucket is the sum of that tag's calls of that hour, and every tagged call has a bucket. |
| `CostBook.TagHours` | backend/readmodel/costs.py:162-167 | The hours of a set of tags are the sums over calls with any of the tags, each once. |
| `CostBook.SumHours` | backend/readmodel/dbread.py:987-989 | Summing the hours whose start is in the window sums the calls of those hours. |
| `CostBook.TaggedSpend` | backend/readmodel/dbread.py:965-989 | The figure is the sum over every call with one of the tags in an hour that starts in the window, each once; for a window on the hour, over every such call that started in it. |
| `CostBook.ColumnsAre` | backend/readmodel/costs.py:86-112 | Each column of a window's spend: how many of its calls there are, how many of them failed, were estimated, could not be priced and have a price (from LiteLLM or estimated); and the sums of their tokens in, tokens out and costs. |
| `CostBook.HoursRefineCalls` | backend/readmodel/costs.py:243-254 | Hour buckets and raw calls give the same sum for any tags and any window on the hour. |
| `CostBook.ExactOnlyOnTheHour` | backend/readmodel/dbread.py:988-989 | For a non-empty window that figure is its spend for every record if and only if it starts and ends on the hour. |
| `CostBook.WindowsAddUp` | backend/readmodel/dbread.py:965-989 | The sums of two windows end to end are the sum of the whole. |
| `CostBook.WeekIsMondayToMonday` | backend/readmodel/costs.py:301-305 | An instant is in a local week if and only if it lies between the week's own Monday midnight and the next, across clock changes. |
| `CostBook.WeeksTile` | backend/readmodel/dbread.py:1042-1049 | The n-th week listed is exactly the instants whose local week is n before now's; it ends where the next begins, on the hour, across clock changes. |
| `CostBook.TheNudgeIsNeeded` | backend/readmodel/dbread.py:1048-1049 | Without the twelve hours, moving by whole weeks from a Monday finds the right week if and only if the offset there is not lower; from a summer Monday into winter time it lands a week too early. |
| `CostBook.WeeksAddUp` | backend/readmodel/dbread.py:1042-1052 | The weekly figures add up to the whole window's: no call is lost between weeks or counted twice. |
| `CostBook.ProjectWeeks` | backend/readmodel/dbread.py:1042-1049 | The eight weekly figures are the sums over the calls of those weeks. |
| `Bytes.BigOfBytes` | backend/voice.py:315-319 | A number written big-endian in n bytes is read back. |
| `Bytes.BytesOfBig` | backend/voice.py:315-319 | The bytes read are the n-byte encoding of the number returned. |
| `Ebml.ReadVIntAt` | backend/voice.py:398-409 | The loop over the first byte's bits finds the length that its size gives, and the number follows. |
| `Ebml.VIntRoundTrip` | backend/voice.py:398-409 | For every width and every value below 2^(7·width), the encoding is read back with its width and all-ones flag, whatever surrounds it (RFC 8794, sections 4.1 to 4.3). |
| `Ebml.OnlyEncodingsAreRead` | backend/voice.py:398-409 | Whatever is read as a number is the encoding of it: nothing else is accepted and nothing beyond it is used. |
| `Ebml.TruncationIsSeen` | backend/voice.py:398-409 | A number cut short anywhere is refused. |
| `Ebml.NumbersAreExact` | backend/voice.py:398-415 | An id or a size is read at a position if and only if one is encoded there. |
| `Ebml.ElementRoundTrip` | backend/voice.py:412-421 | An encoded element of known size is read back as its id and body bounds, unless it runs past its parent, and then it is refused. |
| `Ebml.HeaderIsRead` | backend/voice.py:412-421 | A size of all ones is unknown; any other gives the body, or is refused when it does not fit. |
| `Ebml.ElementAdvances` | backend/voice.py:424-462 | The walk always moves on and stays within the parent and the file, so it ends on every byte string. |
| `Ebml.OnlyElementsAreRead` | backend/voice.py:412-421 | Whatever is read as an element of known size was written as one. |
| `Ebml.InfoIsRead` | backend/voice.py:445-458 | Reading the bytes of a list of elements is taking the elements one by one. |
| `Ebml.LastOneCounts` | backend/voice.py:445-458 | Info is refused if and only if a TimecodeScale or Duration has a wrong length; otherwise the last of each counts. |
| `Ebml.InfoIsItsLength` | backend/voice.py:445-464 | An Info states the last Duration written in it times the last TimecodeScale, in nanoseconds, a millisecond being the unit without one; none without a Duration or with one of zero; malformed when the Duration is negative or not finite or the unit is zero. |
| `Ebml.BadInfoIsRefused` | backend/voice.py:447-450 | An Info in which an element does not fit, or has an unknown size, is malformed. |
| `Ebml.InfoSeconds` | backend/voice.py:445-464 | The loop over Info computes what its elements state. |
| `Ebml.WebmSecondsBy` | backend/voice.py:424-442 | The loop over the Segment computes the specification, for any way of reading its numbers. |
| `Ebml.LiveRecordingStatesNone` | backend/voice.py:435-442 | A Segment that reaches an element of unknown size before any Info states no length. |
| `Ebml.NoInfoNoLength` | backend/voice.py:435-442 | A Segment without an Info states no length. |
| `Ebml.OnlyWebmIsRead` | backend/voice.py:428-433 | Whatever has no EBML header of known size at its start and no Segment after it is malformed. |
| `Ebml.FileRoundTrip` | backend/voice.py:424-464 | A written file, with a Segment of known or unknown size, any elements before Info and anything after it, gives the length its Info states. |
| `Ebml.WebmSeconds` | backend/voice.py:424-464 | The method computes the specification on every byte string, and for every written file gives the length that its Info says, field by field: the last Duration times the last TimecodeScale. |
| `Mp4.ListBoxes` | backend/voice.py:322-336 | Whenever the walk completes, its boxes tile [start, end) exactly, each body inside its box; it ends on every byte string. |
| `Mp4.BoxesTile` | backend/voice.py:322-336 | The boxes of any stretch that is accepted lie side by side and fill it. |
| `Mp4.HeaderIsRead` | backend/voice.py:328-334 | A 32-bit size, a 64-bit one and a size of zero for "to the end" are all read back (ISO/IEC 14496-12, section 4.2). |
| `Mp4.BoxesRoundTrip` | backend/voice.py:322-336 | A list of boxes in any mix of the three forms is read back, whatever surrounds it. |
| `Mp4.BoxesWereWritten` | backend/voice.py:322-336 | Whatever is accepted is the encoding of a list of boxes, and the boxes found are those of the list. |
| `Mp4.ScaledMoves` | backend/voice.py:343-357 | What an mvhd or mdhd states, or its refusal, depends on the bytes of its own box alone. |
| `Mp4.FragmentsMove` | backend/voice.py:381-385 | The same for an mehd. |
| `Mp4.OneMoves` | backend/voice.py:373-392 | The same for any box of the tree with everything inside it: neither the bytes around it nor its place matter. |
| `Mp4.OpenIsAllAdd` | backend/voice.py:373-392 | What a box adds is what the boxes written inside it add, one after another, whatever forms their sizes take. |
| `Mp4.MoovLengths` | backend/voice.py:373-392 | The nested loops over a moov compute the walk of the tree. |
| `Mp4Movie.ClockIsRead` | backend/voice.py:343-357 | An mvhd or mdhd of either version, written field by field, is read back as its timescale and its duration over that, or none for a duration of zero or all ones; a timescale of zero is refused (ISO/IEC 14496-12, sections 8.2.2 and 8.4.2). |
| `Mp4Movie.ClockWasWritten` | backend/voice.py:343-357 | Whatever is accepted as one was written as one, inside its box. |
| `Mp4Movie.FragmentIsRead` | backend/voice.py:381-385 | An mehd is read back as its fragment duration over the movie's timescale (section 8.8.2). |
| `Mp4Movie.FragmentWasWritten` | backend/voice.py:381-385 | Whatever is accepted as one was written as one, inside its box. |
| `Mp4Movie.FileIsRead` | backend/voice.py:360-392 | In a file written as a tree of movies, tracks, media and extensions with any other boxes between them, the lengths found are those written in its mvhd, mehd and mdhd, in order; an mehd counts in the timescale of the mvhd before it, and not at all without one. |
| `Mp4Movie.Mp4Seconds` | backend/voice.py:360-370 | The result is the maximum of the lengths stated, and none exactly when none is above zero; malformed exactly when the walk is. For every file so written it is the maximum of the lengths written in it. |
| `Wav.WavSeconds` | backend/voice.py:468-492 | The loop over the chunks computes the specification, and ends on every byte string. For every written file with one format chunk before its sound, it is the bytes of the sound over the whole bytes a second that samples, channels and bits give; none when the format states another rate, or that is zero. |
| `Wav.WavRoundTrip` | backend/voice.py:468-492 | A written WAV's length is everything after the start of its sound at the rate of its one format chunk, trailing chunks included; with no such chunk, two, or one that disagrees, it has none. |
| `Wav.FormatIsRead` | backend/voice.py:478-486 | A format chunk written field by field gives that rate if it states it. |
| `Wav.FormatsDecide` | backend/voice.py:477-486 | The one format chunk before the sound decides; a second one, or one shorter than sixteen bytes, refuses the file. |
| `Wav.NoSoundNoLength` | backend/voice.py:474-492 | A file that ends before any sound has no length. |
| `CallHandover.Call.Finish` | backend/chat/llm.py:64-68 | A result is stored, unless the asker has given up. |
| `CallHandover.Call.Register` | backend/chat/llm.py:78-82 | The socket is kept, and the worker learns whether it must shut it at once. |
| `CallHandover.Call.GiveUp` | backend/chat/llm.py:83-89 | Nothing changes if the worker had finished; otherwise the call is abandoned and every socket so far is to be shut. |
| `CallHandover.RunKeeps` | backend/chat/llm.py:122-144 | The invariant of the two threads holds after every interleaving of their steps. |
| `CallHandover.OneOrTheOther` | backend/chat/llm.py:52-92 | In every interleaving done and abandoned are never both true, a result is stored at most once and never after the asker gave up. |
| `CallHandover.AskerGetsResultIffFirst` | backend/chat/llm.py:122-136 | The asker returns or raises exactly the result that was stored first, and times out exactly when none was. |
| `CallHandover.AbandonedSocketsAreShut` | backend/chat/llm.py:70-92 | Once both threads' pending steps are done, an abandoned call has shut exactly the sockets ever registered, early or late. |
| `CallHandover.FinishedSocketsAreLeft` | backend/chat/llm.py:83-92 | A call that was not given up has no socket shut. |
| `CallHandover.AskerIsNotHeldUp` | backend/voice.py:155-164 | Once its time is up, the asker ends after as many of its own steps as it had sockets to shut, and one, whatever the worker does between them. |
| `RateLimits.HourlyLimit.TryTake` | backend/chat/service.py:84-92 | Old times are dropped; a question is taken if fewer than the limit are left. |
| `RateLimits.HourlyLimit.Full` | backend/chat/service.py:94-99 | True if and only if try_take would refuse just now. |
| `RateLimits.HourlyBound` | backend/chat/service.py:75-92 | Over any run with a clock that never goes back, at most the limit are taken in every half-open window of 3,600 seconds. |
| `RateLimits.RefusedExactlyAtTheLimit` | backend/chat/service.py:84-92 | A question is refused if and only if the limit was reached within the last 3,600 seconds. |
| `RateLimits.PerUserHourly.TryTake` | backend/voice.py:604-607 | One account's question counts against its own limit and no other's. |
| `RateLimits.LoginThrottle.Prune` | backend/accounts.py:250-258 | Expired locks and old attempts go, and a username with none left is forgotten. |
| `RateLimits.LoginThrottle.TryAttempt` | backend/accounts.py:265-278 | An attempt is refused while locked; otherwise it is counted, and reaching the limit locks the username and clears its count. |
| `RateLimits.LoginThrottle.IsLocked` | backend/accounts.py:260-263 | Whether the username is locked once the expired has been pruned. |
| `RateLimits.LoginThrottle.RecordSuccess` | backend/accounts.py:280-283 | A success clears the username's count and lock. |
| `RateLimits.SignInBound` | backend/accounts.py:232-283 | With a lockout at least as long as the window, at most the limit attempts for a username are allowed in every half-open window free of a success, however others' attempts fall between. |
| `RateLimits.RefusedOnlyWhenLocked` | backend/accounts.py:265-278 | An attempt is refused only within the lockout of one that was allowed. |
| `RateLimits.BoundNeedsLongLockout` | backend/accounts.py:241-248 | The bound holds for every run if and only if the lockout is at least as long as the window. |
| `ChangeLog.PruneKeepsSuffix` | backend/projector/forge_mirror.py:253-254 | If the rows' times never go back, pruning leaves the newest rows with none missing between them. |
| `ChangeLog.PruningLeavesNoGapIffTimesInOrder` | backend/projector/forge_mirror.py:253-254 | Pruning leaves no gap, whenever it is done, if and only if the rows' times never go back. |
| `ChangeLog.AGap` | backend/projector/forge_mirror.py:253-254 | An input where it does leave one: three rows, the second with the earliest time, and a page within the window that is told nothing of it. |
| `ChangeLog.ReplayIsExact` | backend/sse.py:53-76 | A page whose last id is within the window is told exactly the changes it missed. |
| `ChangeLog.ReplayIsExactIffNoGap` | backend/sse.py:68-76 | Replaying is exact for every page and every set of panels if and only if the kept log has no gap. |
| `ChangeLog.NoChangeIsLost` | backend/sse.py:61-76 | While the log is not empty, every subscribed panel with a change after the page's id gets an update, pruned or not, whatever the id. |
| `ChangeLog.RefetchIsAtTheHead` | backend/sse.py:61-65 | Every update of a refetch carries the id of the newest change there ever was. |
| `ChangeLog.RefetchGoesToTheHead` | backend/app.py:331-333 | In any run whose changes are dated in turn, a page's last id is never past the newest change, and a page that refetches on reconnecting goes on from that change. |
| `ChangeLog.EmptyLogTellsNothing` | backend/sse.py:68-76 | A log pruned to nothing tells a page nothing, and that loses something exactly if a subscribed panel changed. |
| `ChangeLog.RunKeepsNewest` | backend/projector/forge_mirror.py:253-254 | Over any run whose changes are dated in turn, however pages connect and poll, the kept log is the newest rows in order with none missing. |
| `ChangeLog.PollKeepsCoveredExactlyWhen` | backend/app.py:336-341 | A poll leaves a page's last id true (whatever is not after it has been fetched since) if and only if, before the poll, no subscribed panel has a kept row after that id, or every one the page is behind on has. |
| `ChangeLog.ALatePoll` | backend/app.py:336-341 | A run in which it does not: a change pruned before the poll, a second one told by it, and a page that reconnecting does not bring up to date. |
| `ChangeLog.KeptRowsAreToldInTime` | backend/sse.py:61-64 | It does, and the page is then up to date, while every subscribed row after the last id is still kept, whatever else was pruned. |
| `ChangeLog.LastIdIsTrueIffPollsInTime` | backend/app.py:324-344 | Over any run whose changes are dated in turn, a page's last id is true at every moment if and only if every poll of the run told in time. |
| `ChangeLog.LastIdIsTrueWhilePrunesSpare` | backend/projector/forge_mirror.py:253-254 | Over such a run every row the page has still to be told is kept at every moment if and only if no prune takes one; and then its last id is true at every moment, whenever other panels' rows are pruned. |
| `ChangeLog.ReconnectIsUpToDateExactlyWhen` | backend/sse.py:68-76 | Over any such run, whatever its polls missed, a page that reconnects while the log is not empty has fetched every changed panel since its last change if and only if its id is outside the window, or every panel it is behind on has changed after its id. |
| `ChangeLog.ReconnectIsUpToDate` | backend/app.py:324-344 | So it has after a run whose polls told in time. |
| `ChangeLog.UpToDateWhilePrunesSpare` | backend/app.py:324-344 | And after a run whose prunes took no row it had still to be told: then reconnecting, even to an empty log, and every poll bring it up to date. |
| `Grounding.FindAllFindsTheRuns` | backend/chat/grounding.py:152-171 | The regular expression finds exactly the maximal runs of digits. |
| `Grounding.JoinedIsKnown` | backend/chat/answers.py:30-70 | Texts that do not meet digit to digit have together no run that neither has alone. |
| `Grounding.CutIsKnown` | backend/chat/answers.py:48-50 | Cutting text beside a character that is no digit adds no run. |
| `Grounding.WithoutHeadIsKnown` | backend/chat/answers.py:243-248 | Trimming and removing "not measured:" add no run. |
| `Grounding.JoinIsKnown` | backend/chat/answers.py:30-41 | The lists joined with "; and" or "; or" add no run. |
| `Grounding.StripTakesTheEnds` | backend/chat/answers.py:48-50 | Stripping takes the white space at both ends, all of it and nothing else. |
| `Grounding.StopsGo` | backend/chat/answers.py:77 | The full stops at the end of a name go, all of them and nothing else. |
| `Grounding.SentenceEnds` | backend/chat/answers.py:48-50 | A sentence is the stripped text, with a full stop exactly when it is not empty and does not end as a sentence. |
| `AnswersAreGrounded.EveryAnswerHasIt` | backend/chat/answers.py:280-309 | Any property of texts that putting answers together keeps, and every field has, every answer of every query and status has. |
| `AnswersAreGrounded.CheckFindsEveryFigure` | backend/chat/grounding.py:168-175 | The check on an answer returns exactly the maximal runs of digits of the answer that are no field's; so it returns nothing if and only if every figure of the answer is a field's. |
| `AnswersAreGrounded.EveryAnswerIsGrounded` | backend/chat/grounding.py:168-175 | For all results whose fields are texts, and any wording of the fixed phrases without digits, the check on the rendered answer finds no figure that is not one of the fields'. |
| `AnswerWording.NoAnswerAddsAFigure` | backend/chat/answers.py:30-309 | And with the phrases as the templates word them: whatever the record holds, no answer has a figure that is not one of its fields'. |
| `AnswerFigures.FindAllSplits` | backend/chat/grounding.py:152-171 | Texts that do not meet digit to digit have together the figures they have apart, in order. |
| `AnswerFigures.FiguresAreThoseShown` | backend/chat/answers.py:76-309 | For every query and status, with any wording without digits: the figures of the answer are those of the fields it shows, field by field in the order it shows them; none is left out, doubled or added. |
| `AnswerWording.AnswersShowTheirFigures` | backend/chat/answers.py:30-309 | And with the phrases as the templates word them. |

## Left out

- The web application around these parts: routes, sessions, pages, scripts, cookies, wording of statuses, the model's
  prompts and replies, fuzzy search, and period phrases.
- NATS, SQLite, Postgres and HTTP themselves. A publish succeeds or raises (and may have been delivered although it
  raised), a transaction is atomic, a page of rows is a function of the log and the cursor.
- `decide` and its table of decisions, the envelope, and the outcome codes of `submit`: a refused or moved card is a
  check that grants nothing.
- A card is its id, whether it is open and answerable, and its rebuild count and wish. Whether the copy is fresh enough
  is a parameter of the steps that ask.
- `uuid4` is a number never handed out before, and a content hash is the content itself: collisions are not modelled.
- AnswerTheorems.GivenUpAfterWholePasses: is about settlements that read the row after the read count after the send was
  stored; `AnswerGivenUp` has the others.
- Timing.TimeOf: leaves out how spans are collected from a feature's builds, planning and mission, and the wording of
  why a feature is not measured.
- Waits.StretchSeconds: the rows' flags are given, not derived from stage details, and only one stretch is swept, with
  its own approvals; the other spans of the feature are not in that comparison.
- CostImport.Dash.PageThrough: a source that changes between two pages of one pass is not modelled; rows arrive between
  passes. An empty request id is not modelled, and a call is its id and start time (prices and tags are stored with it).
- CostImport.EveryGoodPassIsWhole: needs rows to arrive no more than three hours behind the newest stored call.
- ForgeMirror.GoodPassIsFullCopy: needs each appended table to be only appended to, or replaced by one with a lower
  newest id; a replacement with an equal or higher one is outside it.
- CostBook.WeeksTile: a zone's offset is zero or one hour, and steady for an hour either side of each local Monday
  midnight; when else the clocks change is left open.
- CostBook.TaggedSpend: leaves out which tags a project has and the wording of the slot.
- Ebml.InfoSeconds: turning a Duration's four or eight bytes into a number is a parameter, and products are exact.
- Mp4Movie.Mp4Seconds: quotients are exact; which child boxes repeat is not restricted, as in the source.
- `check_recording`, `sniff`, the size limits, and the spoken version of an answer.
- CallHandover.AskerGetsResultIffFirst: the reading of the reply inside the worker is not modelled; any result may be
  stored at any time, and any number of sockets registered before it.
- RateLimits.HourlyBound: the lock makes each call one step; clock readings in floating point are whole numbers here.
- ChangeLog.ReconnectIsUpToDateExactlyWhen: a log pruned to nothing when the page reconnects is outside it (see
  `EmptyLogTellsNothing`); the stream's own last id and the page's are one number.
- AnswerWording.NoAnswerAddsAFigure: fields are texts, lists of texts and rows of texts (a missing cell is the phrase
  for None), lower-casing takes one character to one, no character that the phrases may use is a decimal digit of
  Unicode, and `TEMPLATES` has the seven queries it has.
- AnswerFigures.FiguresAreThoseShown: says which figures an answer shows and in what order, not which words stand between
  them.
- `load_factory` and `_where_build`: how the rows of the copy are joined into features and each feature is given its
  station and outcome word.
- `sum_time` and `split_by_stage`: how finished breakdowns and a feature's calls are summed for a table.
- `norms.py`: comparing each figure with the thresholds of its configuration; `cards.py`: which cards are open and what a
  closed one shows.
