# Crossband in Dafny

Crossband runs a group chat between people and several language models, typed or spoken. This project models the
parts of its backend where state has to stay consistent across many steps, and proves what those parts are for.

- **The voice-anchor store** (`Ledger`, `Bank`, `Sessions`, `Rotation`, `RotationRules`, `SettleRule`, `Store`,
  `Bijection`, `Drops`, `Outcomes`, `AnchorStore`, `InStep`, `Passes`, `Runs`, `SyncPass`, `AnyRuns`, `History`,
  `Leaving`, `SharedBytes`, `Races`, `RacedMerges`). A local replica of people, clip banks, clip files and a ledger of
  pending corrections is kept in step with membro, which replays the ledger later, perhaps before it knows everyone on
  it. Merging or forgetting a person rewrites the whole ledger; the central results say exactly when either rewrite
  means the same, exactly when a replay pass does what the ledger means, and exactly what a forget leaves after any
  history.
- **Protocols in steps.** The live-events bell (`Events`), the speaker-label handoff between the identity pass and
  the message insert (`LabelHandoff`), the streaming marker redactor against the batch one (`Marker`).
- **The round loop** (`RoundLoop`): call, judge, retry, suppress, persist or fail for each seat, a stop at any
  suspension point, and where every call's usage lands. Beside it the transcript a round refreshes seat by seat
  (`Transcript`).
- **Spoken depth** (`SeatState`, `Depth`): instructions over a table with two in-memory mirrors.
- **Smaller classes**: the attachment cache (`Attachments`), burst pacing (`Pacing`), page budgets (`PageBudget`),
  crosstalk (`Crosstalk`).

`Sorting` holds a stable sort and filters; `Wrappers` holds `Option`.

Code that changes state is modelled as classes whose methods are proved equal to specification functions; the
lemmas are about those functions. Protocols with several actors are state machines over events, and their theorems
quantify over every list of events. Recursive functions over sequences peel off the last element, so a fact about a
list extends by one row exactly when the code appends one.

## What turned out false

Where the code does not meet what its documentation promises on every input, the model keeps the code as it is,
shows a concrete input, and proves exactly when the promise holds.

- **Merge settlement.** The docstring of `_settle_corrections` says a later replay means the same thing. It does
  unless the merged-away person had won a pending merge and a later row takes out of them a clip that merge
  brought: `carried` is fed by move rows only. `Ledger.AWonMergeThenADeleteIsLost` and
  `Ledger.AForgottenClipCanSurvive` show the cost, `Ledger.MergeSettlementExact` gives the exact condition for every
  ledger whose rows follow their clips, and `Ledger.LedgerCheckStaysClear` a check on the ledger alone that rules the
  failure out. Rows must follow their clips: `Ledger.ARowThatMissesItsClipIsNotSettledSafely` is a ledger with no
  merge in it whose settlement deletes the wrong clip because one of its moves names a clip that sits elsewhere.
- **Forget settlement.** The same docstring speaks of forgets too. A clip the owner moved to the forgotten person and
  on to somebody else is deleted from membro under that somebody: the first move becomes a delete
  (`Ledger.AForgetCanDeleteAnothersClip`). `Ledger.ForgetSettlementExact` says that the settled ledger means the same
  if and only if no clip passes through the forgotten person in this way, with no other hypothesis than well-named rows,
  and `Ledger.LedgerCheckPassesNothing` gives a check on the ledger alone.
- **Forgetting a recording two people hold.** A spoken introduction banks its turn and leaves the audio for a tap to
  correct; the correction banks the same bytes under the right person. Forgetting the first person then leaves their
  recording in membro (`SharedBytes.ACorrectedIntroductionSurvivesAForget`). `History.ForgetIsExactAfterAnyHistory`
  says for any history at all which clips a forget leaves, and that it is complete if and only if no clip of theirs
  answers to one of those addresses; `History.AForgetAndAPassAreExactAfterAnyHistory` says it for a pass made before
  membro knows everyone left.
- **A replay pass while membro does not know everyone.** A row whose target has no slug yet waits, but the rows
  behind it are replayed. A row out of a person with no slug is consumed as nothing durable to fix, so a clip moved to
  such a person and then on is stranded where it was (`Passes.AWaitingMoveThenAMoveOnIsLost`), for good or until a
  later row brings it back (`Passes.AStrandedClipCanComeBack`); and a forget that lands while a clip still waits to
  leave the forgotten person takes it along (`Passes.AForgetTakesWhatWaits`). `Passes.PassMeansTheSameExactly` and
  `AnyRuns.PassIsMeantExactly` say exactly when the finished pass means what the ledger does: no row sets the clip
  adrift, or it is where it should be again by the end. `Passes.PassMeansTheSameThroughoutExactly` says exactly when
  it means so at every row, and `Passes.LedgerCheckIsSteady` gives a check on the ledger alone.
- **A merge in the middle of a replay pass.** A pass reads the rows, sends them, and removes them by id afterwards. A
  merge in between settles the rows that stay with the sent ones still ahead of them, and takes a clip the pass has
  left under the merged-away person for carried to the survivor. So a drop the merge records is lost
  (`RacedMerges.AMergeDuringAPassCanLoseADrop`), and with nothing dropped so is a move that waits
  (`RacedMerges.AMergeDuringAPassCanLoseAMove`: a later forget leaves the recording in membro).
  `RacedMerges.AMergeDuringAPassComesAfterItExactly` is the exact condition, for any store, any banks and whomever
  membro knows, and `Races.LedgerCheckReadsRight` a check on the ledger alone. A forget in between always leaves the
  world as a forget after the pass (`Races.AForgetDuringAPassComesAfterIt`).
- **Clips that leave a bank.** `_record_drop` sends a clip on only when membro can hold it, by its docstring: the person
  has a slug, or a pending move into them names the clip. A pending merge they won brings clips too and names none, so
  one rotated out before the survivor is pushed stays in membro under them
  (`Leaving.AMergedClipDroppedEarlyStays`). `Leaving.ADropLeavesMembroExactly` is the exact condition, for rotation, the
  settle rule, the audit and a merge's survivor alike.
- **Redaction.** `redact` says it covers every string in a value. Dict keys are left as they are
  (`Marker.RedactCleansAllButKeys`).
- **Usage at a stop.** A stop at the moment a pass is announced loses the cost of a call that had reported it; so
  does one that cancels a blank reply's record before its worker starts, and one at a failed call's error event, when
  the meter's reading is already on the record (`RoundLoop.AStopOnAnErrorLosesItsCost`). A stop between an echo's
  ledger row and the clearing of its state counts it twice, and so does one while the worker thread posts an accepted
  reply, which it also saves a second time, cut (`RoundLoop.AStopDuringAPostCountsItTwice`), or posts beside the cut
  reply as a blank row (`RoundLoop.AStopDuringAPostCanPostABlankRow`). `RoundLoop.StopRecordsOnceExactly` is the exact
  condition, and `RoundLoop.AStopSavesAnAcceptedReplyOnceExactly` that for the reply itself, usage or not. Every
  miscount needs a usage on the record, reported or taken from the meter of a failed call; while a call still streams
  without having reported, a stop is always exact.
- **The transcript cursor.** A label write is missed for the rest of the round when its stamp does not pass the
  cursor: two writes under one clock reading, or a write between the refresh's two queries
  (`Transcript.AnEqualStampIsMissed`, `Transcript.AWriteBetweenTheReadsIsMissed`).
  `Transcript.ASeatReadsTheWholeChatExactly` says over whole runs which seats read the whole chat, and
  `Transcript.MissedExactly` which rows are missed between refreshes.
- **Label corrections.** Other writers relabel rows (the owner's correction, an introduction, a vouch). A correction
  made while an identity pass is between its read of an unlabelled row and its write is overwritten
  (`LabelHandoff.ACorrectionCanBeOverwritten`); `LabelHandoff.ACorrectionStandsExactly` is the exact condition.

## Hypotheses

- Membro's replay follows `backend/person_sync.py:230-320`: a hash sits under at most one slug, a row whose source
  lacks the clip does nothing, a row whose target or winner membro does not know yet waits.
- The merge settlement results suppose that the ledger is `Sound` (rows and people well named, every target a person
  in `names`, slugs injective) and that every row is `Followed`: it finds its clip under its own source, or finds that
  membro does not hold it. Both are kept by every operation of a history that `History.Allowed` admits, and
  `Runs.MergeMeansTheSameExactly` is the result with both discharged.
- `History.Named` is all that the results over any history at all suppose: a new person's id and slug are new, and a
  sync uploads only for people who have a slug. Recurring bytes, trimmed drops, merges that lose track and passes that
  strand clips are all in. `AnyRuns.KeptNamed` is the invariant these histories keep.
- `History.Allowed` states what a history supposes of each step for the store to stay in step: names are new, and so
  are a recording's bytes to the store; drop rows stay under `DROP_ROWS_MAX` (past it the store deliberately drops the
  oldest, and `InStep.ATrimmedDropMisplaces` shows what that can cost); a merge is one the settlement can carry, and a
  replay pass one that strands no clip (see above); an upload is of what membro lacks and no row names.
- Message ids are the commit order (`Events`), and label stamps rise in commit order (`Transcript`).
- Each turn id belongs to one message and one identity pass (`LabelHandoff`); anyone may relabel any row at any time.
- The pass rules are uninterpreted: a pass is a cut pass, the empty text is not, and taking a token off leaves
  words where there were some (`RoundLoop.Sensible`).
- An attachment's bytes are determined by its cache key (path, size, mtime).

## Model

| member | source | states |
|---|---|---|
| Ledger.MergeSettlementPreserves | backend/anchors.py:751-830 | Replaying the settled ledger and then the merge row leaves membro exactly as replaying the original rows and then merging, for every sound ledger whose rows follow their clips and every remote, when no row loses track of a clip a won merge brought |
| Ledger.MergeSettlementExact | backend/anchors.py:751-830 | For any sound ledger whose rows follow their clips and any remote, the settled ledger and its merge row leave membro as the original rows and the merge would if and only if no clip is astray at the end: no row took out of the merged-away person a clip only a merge they won brought there, unless later rows brought it back to either person or took the stray copy too |
| Ledger.ClipSettlesExactly | backend/anchors.py:796-830 | The same for each clip on its own, with only its own rows supposed to follow it, so one clip going astray never touches another |
| Ledger.TrackedIsNotAstray | backend/anchors.py:796-830 | A ledger whose every row out of the merged-away person names a clip that `carried` knows, or one no won merge brought, leaves nothing astray |
| Ledger.LedgerCheckStaysClear | backend/anchors.py:796-830 | A check on the ledger alone (no row out of the merged-away person after a merge they won) is enough for the settlement to hold, whatever membro holds |
| Ledger.LostRowDiverges | backend/anchors.py:811-828 | Every row that loses track, not one example, takes its clip in the original replay and misses it in the settled one |
| Ledger.CarriedExactly | backend/anchors.py:811-828 | What the loop's `carried` knows, from the rows alone: exactly the clips some row moved to the merged-away person and no row since took on to anybody but the survivor |
| Ledger.AWonMergeThenADeleteIsLost | backend/anchors.py:796-830 | A concrete ledger whose settlement leaves a deleted clip under the survivor |
| Ledger.ARowThatMissesItsClipIsNotSettledSafely | backend/anchors.py:796-830 | Why rows must follow their clips: a concrete sound ledger without any merge, one of whose moves misses its clip, and whose settlement deletes a clip the original rows leave |
| Ledger.ForgetSettlementExact | backend/anchors.py:751-830 | For any well-named ledger and any remote, the settled ledger and its forget row leave membro as the original rows and the forget would if and only if no clip passes through the forgotten person, that is, is brought to them by some row and yet ends with somebody else |
| Ledger.ClipForgottenExactly | backend/anchors.py:796-830 | The same for each clip on its own: the two ends agree exactly when the original end is the forgotten person, or nowhere, or no row ever brought the clip to them |
| Ledger.LedgerCheckPassesNothing | backend/anchors.py:796-830 | A check on the ledger alone (no move of a clip out of the forgotten person after a row that may have brought it to them) is enough for a forget to mean the same, whatever membro holds |
| Ledger.AForgetCanDeleteAnothersClip | backend/anchors.py:816-828 | A concrete sound ledger, every row finding its clip, whose forget settlement deletes a clip that is a third person's |
| Ledger.ForgetSettlementComplete | backend/anchors.py:751-830 | Forget settlement never leaves too much, whatever passes through: each clip is where the original rows would leave it or nowhere, and never under the forgotten person; which of the two is ForgetSettlementExact's |
| Ledger.AForgottenClipCanSurvive | backend/anchors.py:796-830 | What losing track costs: a concrete run in which a forgotten person's clip stays in membro |
| Ledger.SettledRowsCanLand | backend/anchors.py:780-795 | After settling, every local id left on a row still resolves or its slug is on the row, so no row waits for a person who is gone |
| Ledger.SettlingKeepsOrder | backend/anchors.py:796-830 | Settling keeps ledger order and each surviving row's own cid: the new cids are a subsequence of the old |
| Ledger.SettlingKeepsWhatRowsDo | backend/anchors.py:796-830 | Every settled row does what some row of the ledger did, to the same clip, under the same id and for the same reason, with a move to a forgotten person turned into a delete and what they won into a forget; rows that do not concern the person gone stay as they are |
| Ledger.SettleCorrections | backend/anchors.py:796-830 | The loop over the ledger with its `carried` map computes the settled ledger the lemmas speak of |
| Ledger.ReplayCorrections | backend/person_sync.py:230-320 | One replay pass: what membro holds afterwards and which rows wait for a person membro does not know yet |
| Ledger.ReplayIsWalk | backend/person_sync.py:247-316 | Rows act on each clip on its own: the replayed remote, read at one hash, is that hash's own walk |
| Ledger.ARowReplayed | backend/person_sync.py:247-316 | What one row does in membro, by its kind: it brings no clip there; a move or delete touches its own clip alone, and only where it looks for it; a merge hands over all the loser has and a forget takes all the slug has; a row waits exactly for a target or winner membro does not know, and has then done nothing |
| Passes.PassIsSafeExactly | backend/person_sync.py:247-316 | Whoever membro knows at the time, the pass is safe for a clip at every row of the ledger (what waits by then will leave it where the ledger so far puts it, or nowhere) if and only if no row strands it: none consumed out of a person an earlier waiting row has yet to bring it to, and no merge of the person it is held up under |
| Passes.PassMeansTheSameExactly | backend/person_sync.py:247-316 | For any ledger, any clip and whomever membro knows, the finished pass and what it leaves waiting put the clip exactly where the whole ledger does if and only if it is not adrift at the end. A row that lands sets it adrift when it misses the clip at someone a waiting row has yet to bring it to, or takes it where a waiting row starts, or from under someone it waits to leave with no waiting row left to bring it where it was going; later rows may bring it back |
| Passes.PassMeansTheSameThroughoutExactly | backend/person_sync.py:247-316 | The pass means what the ledger does at every row of it if and only if no row strands the clip or forgets the person it is held up under |
| Passes.OnlyTheFirstTakes | backend/person_sync.py:254-300 | Of the rows that wait only the first that acts on a clip matters: it takes it to someone with no slug, and no other waiting row starts there |
| Passes.OneMoreRowMeansExactly | backend/person_sync.py:247-316 | Row by row: after a steady pass one more row keeps the pass meaning what the ledger does exactly when it neither strands the clip nor forgets the person it is held up under |
| Passes.LedgerCheckIsSteady | backend/person_sync.py:254-316 | Two checks on the ledger alone (no later row acts on what a waiting one has yet to bring, none forgets the person it has yet to leave) make a pass mean what the ledger does, for every clip that its rows follow, whatever membro holds |
| Passes.AStrandedClipCanComeBack | backend/person_sync.py:254-262 | A concrete pass that strands a clip and yet means what the ledger does by its end |
| Passes.AForgetTakesWhatWaits | backend/person_sync.py:300-308 | A concrete pass that strands nothing and loses a clip: it lands a forget while the move out of that person waits |
| Passes.OneMoreRowIsSafeExactly | backend/person_sync.py:247-316 | The same row by row: after a careful pass one more row is safe exactly when it strands no clip |
| Passes.CarefulPassInHand | backend/person_sync.py:247-320 | What a careful pass keeps of every clip: the rows that wait still follow it, it is nowhere only if it will be nowhere, it never sits under someone membro does not know, and if it is held up then on its way to such a person |
| Passes.WaitingWalk | backend/person_sync.py:249-291 | The rows that wait move a clip at most once, to someone who has no slug yet, and name it only if that row does |
| Passes.LedgerCheckIsCareful | backend/person_sync.py:254-300 | A check on the ledger alone (no later row acts on what a waiting one has yet to bring) makes a pass careful for every clip, whatever membro holds |
| Passes.AWaitingMoveThenAMoveOnIsLost | backend/person_sync.py:254-262 | A concrete pass that strands a clip: it ends under the wrong person, and a forget of its real owner leaves it in membro |
| Sessions.SessionsAreTheClosure | backend/anchors.py:221-239 | Two timestamped clips share a number if and only if no gap longer than SESSION_GAP_S lies between them in time order; a clip with no timestamp shares its number with none |
| Sessions.SessionsIgnoreOrder | backend/anchors.py:221-239 | The partition depends only on the capture times, not on the order of the bank |
| Sessions.ClipSessions | backend/anchors.py:221-239 | The loop in time order hands each clip the session number of the specification |
| Rotation.VarietyIsFair | backend/anchors.py:242-257 | At every cut of the round robin, a session that left a clip out is at most one clip behind any session that got one in, counting what each was seated with |
| Rotation.VarietyKeepsTheBest | backend/anchors.py:242-257 | Within a session nothing left out is better than anything placed before the cut |
| Rotation.VarietyPermutes | backend/anchors.py:242-257 | The ordering loses and invents no clip |
| Rotation.OrderForVariety | backend/anchors.py:242-257 | The grouping, ranking and sorting steps compute the round-robin order |
| Rotation.ChooseKeep | backend/anchors.py:260-297 | The two-class selection with its guarded pass computes the kept set in score order |
| RotationRules.RotationIsExact | backend/anchors.py:260-297 | Each length class keeps exactly min(its size, its cap) clips |
| RotationRules.RotationProtects | backend/anchors.py:260-297 | A protected clip is dropped only when more than cap protected clips share its class, and then the class keeps nothing else |
| RotationRules.RotationIsFair | backend/anchors.py:260-297 | If session t lost a clip and session s kept one of the same class and kind, s holds at most one more kept clip than t |
| RotationRules.RotationKeepsTheBest | backend/anchors.py:260-297 | Within a session nothing kept is worse than a clip dropped from the same class and kind |
| RotationRules.RotationIsIdempotent | backend/anchors.py:260-297 | Rotating a rotated bank changes nothing, order included |
| RotationRules.WithinCapsKeepsAll | backend/anchors.py:260-297 | Nothing leaves a bank within both caps |
| RotationRules.ClassWithinItsCapStays | backend/anchors.py:260-297 | A length class that fits its cap loses nothing, however crowded the other class is |
| RotationRules.KeptInScoreOrder | backend/anchors.py:260-297 | The kept clips come best first: none is better than one before it |
| SettleRule.TakenClipReplacesItsVictim | backend/anchors.py:1150-1242 | `add_clip` with an automatic clip for an established bank within its caps: refused with nothing changed, or banked and kept by rotation, with the clip it replaces and no other leaving (a weakest automatic clip of its own class, or none while the class has room), everyone else untouched and the bank within its caps again |
| SettleRule.OfferChoosesWell | backend/anchors.py:374-409 | Whom a taken clip replaces: the victim is an automatic, active clip of the candidate's class and no automatic one there is weaker; without a victim the class has room. Whether it is taken is AutomaticClipTakenExactly's |
| SettleRule.AutomaticClipTakenExactly | backend/anchors.py:374-409 | `add_clip` with an automatic clip for a settled bank takes it if and only if the window since the last one taken has passed, and its class has room, or the bank holds an active automatic clip of that class and either no active clip is of the candidate's capture day or one of those automatic clips scores below it |
| SettleRule.EstablishedExactly | backend/anchors.py:361-371 | Without a verdict a bank has settled exactly when its active clips are at least ten, hold six seconds of audio and are not all of one day; a verdict alone decides otherwise |
| SettleRule.AutomaticClipDisplacesNoProtected | backend/anchors.py:1112-1242 | Whatever becomes of an unvouched offer, `add_clip` keeps every protected active clip while the protected clips of its class fit the cap |
| Bijection.MoveKeepsBijection | backend/anchors.py:1360-1400 | Each file on disk is named by exactly one clip of one person, and the reverse, after a move |
| Bijection.DeleteKeepsBijection | backend/anchors.py:1402-1428 | Each file on disk is named by exactly one clip of one person, and the reverse, after a delete |
| Bijection.RetractKeepsBijection | backend/anchors.py:1470-1516 | Each file on disk is named by exactly one clip of one person, and the reverse, after a retraction |
| Bijection.ForgetKeepsBijection | backend/anchors.py:1430-1462 | Each file on disk is named by exactly one clip of one person, and the reverse, after a forget |
| Bijection.MergeKeepsBijection | backend/anchors.py:1020-1110 | Each file on disk is named by exactly one clip of one person, and the reverse, after a merge with its rotation and quarantine cut |
| Bijection.AddKeepsBijection | backend/anchors.py:1112-1242 | Each file on disk is named by exactly one clip of one person, and the reverse, after an add, with its eviction, its upgrade in place and its settle rule |
| Bijection.AuditKeepsBijection | backend/anchors.py:1674-1730 | Each file on disk is named by exactly one clip of one person, and the reverse, after a hygiene audit with quarantine overflow |
| AnchorStore.AnchorStore.MoveClip | backend/anchors.py:1360-1400 | The whole new store state, step by step: both banks and the ledger row; keeps the bijection |
| AnchorStore.AnchorStore.DeleteClip | backend/anchors.py:1402-1428 | The whole new store state, step by step: one clip removed, its row recorded before its file goes; keeps the bijection |
| AnchorStore.AnchorStore.RetractUtteranceClips | backend/anchors.py:1470-1516 | The whole new store state, step by step: the contested automatic clips removed, one row each; keeps the bijection |
| AnchorStore.AnchorStore.Forget | backend/anchors.py:1430-1462 | The whole new store state, step by step: the person, their files and their rows settled, the forget recorded last; keeps the bijection |
| AnchorStore.AnchorStore.MergePeople | backend/anchors.py:1020-1110 | The whole new store state, step by step: the survivor, the rotated union, dropped clips sent on, the ledger settled, the merge row; keeps the bijection (what that union is: Outcomes.AMergeJoinsTheBanks) |
| AnchorStore.AnchorStore.AddClip | backend/anchors.py:1112-1242 | The whole new store state, step by step: dedupe, readiness, settle rule, rotation and evicted files; keeps the bijection (what is taken and kept: SettleRule.AutomaticClipTakenExactly, Outcomes.ANewClipIsRotatedIn) |
| AnchorStore.AnchorStore.SetHygiene | backend/anchors.py:1674-1730 | The whole new store state, step by step: quarantine, drop rows and overflow for every person judged; keeps the bijection (what becomes of each clip: Outcomes.AnAuditJudgesEveryBank) |
| AnchorStore.AnchorStore.RecordCorrection | backend/anchors.py:745-748 | The whole new store state, step by step: a row appended under a fresh cid |
| AnchorStore.AnchorStore.RecordDropRow | backend/anchors.py:838-873 | The whole new store state, step by step: when a drop is sent on, and the oldest trimmed past DROP_ROWS_MAX |
| Outcomes.AMergeJoinsTheBanks | backend/anchors.py:1020-1110 | What a merge makes of any two people: the older survives; of each length class they hold min(cap, the active clips of that class in both banks); a class that fits keeps every clip of both; a protected clip goes only when the protected ones of its class alone exceed the cap, and then the class keeps nothing else; the first set-aside clips of both banks stay up to QUARANTINE_MAX; exactly the files given up leave the disk; nobody else changes |
| Outcomes.AMoveRefilesTheClip | backend/anchors.py:1360-1400 | A move happens exactly when both are people and the clip is the first's; that clip alone leaves its bank for the end of the other's, active, protected from now on and no longer marked as having left membro |
| Outcomes.ADeleteTakesTheClip | backend/anchors.py:1402-1428 | A delete happens exactly when the person holds the clip, and takes that clip and its file and nothing else |
| Outcomes.ARetractionTakesTheCaptures | backend/anchors.py:1470-1516 | A retraction takes the automatic match captures of the utterance with their files, and no clip a human introduced or corrected |
| Outcomes.AMoveIsRecorded | backend/anchors.py:1380-1398 | A move is recorded last, under the next id and the hash membro knows the clip by: the one it came with, else that of its bytes |
| Outcomes.ADeleteIsRecorded | backend/anchors.py:1402-1428 | So is a delete |
| Outcomes.ARetractionIsRecorded | backend/anchors.py:1490-1512 | So is every clip a retraction takes, one row each in the bank's order |
| Outcomes.AForgetTakesThePerson | backend/anchors.py:1430-1462 | A forget takes the person and exactly their files, settles the ledger, and is recorded last when it is asked to be and membro has the person; nobody else changes |
| Outcomes.AHeldRecordingIsVouched | backend/anchors.py:1165-1176 | A recording the bank holds already is accepted and not written again; a human confirming it stands behind the first clip that holds it, if nobody did |
| Outcomes.ANewClipIsRotatedIn | backend/anchors.py:1112-1242 | A clip the settle rule has no say in is banked and rotated in with the active clips (each class to its cap, protected clips last to go), the set-aside ones stay in order, exactly the files given up leave the disk, nobody else changes |
| Outcomes.ATakenClipIsOnDisk | backend/anchors.py:1112-1242 | The same of the disk for a clip the settle rule took, which restarts its window |
| Outcomes.AnAddSaysWhatItDrops | backend/anchors.py:1205-1218 | Every row an add records is the drop of a clip the bank gave up, filed as settled when it is the clip the settle rule replaced and as rotation otherwise; a clip that came from membro drops nothing |
| Outcomes.ANewClipIsStamped | backend/anchors.py:1178-1189 | A new clip carries the capture time given, or now when that is missing, zero or in the future, and begins active and unmarked |
| Outcomes.OverflowIsOldest | backend/anchors.py:1714-1720 | The clips an audit deletes are as many set-aside ones as do not fit QUARANTINE_MAX, none captured after one that stays |
| Drops.VerdictDropsSayWhy | backend/anchors.py:1700-1712 | Every row an audit's verdict records is the drop of a clip it newly set aside, filed as such |
| Drops.ADropIsRecordedExactly | backend/anchors.py:838-873 | A clip is sent on if and only if it has not left membro before and membro knows the person or a pending move into them names it; its drop is then the last row, under the next id, the clip's address and the reason given |
| Drops.TrimTakesTheOldestDrops | backend/anchors.py:864-873 | Past DROP_ROWS_MAX as many drops go as are over it, the oldest, and no other row: up to some row all drops are gone, and behind it every row stays |
| Outcomes.AnAuditJudgesEveryBank | backend/anchors.py:1698-1726 | After an audit each person's clips that are left are set aside if and only if their file is in that person's verdict; newly set aside they have no stamp and are marked as having left membro, reinstated they are active and unmarked, set aside before they are as they were; those deleted were named, are as many as do not fit and no newer than any that stays; their files, and no others, leave the disk |
| Leaving.ADeletedClipLeavesMembro | backend/anchors.py:1402-1428 | In any store in step, replaying the ledger after a delete leaves that clip under nobody in membro |
| Leaving.ARetractedClipLeavesMembro | backend/anchors.py:1470-1516 | The same of every clip a retraction takes |
| Leaving.ADropLeavesMembroExactly | backend/anchors.py:838-873 | In any store in step and under the drop cap, a clip a bank gives up ends nowhere in membro once the ledger is replayed if and only if it does not stay behind: membro knows the person, or some pending move into them names the clip, or no merge they won brings it |
| Leaving.StaysBehindExactly | backend/anchors.py:855-865 | A clip stays behind exactly when membro would hold it and no drop row is recorded for it |
| Leaving.ARotatedClipLeavesMembroExactly | backend/anchors.py:1205-1218 | The same of what `add_clip` rotates out or replaces |
| Leaving.ASetAsideClipLeavesMembroExactly | backend/anchors.py:1698-1726 | The same of what an audit newly sets aside, its overflow in the same audit included |
| Leaving.AMergedAwayDropLeavesMembro | backend/anchors.py:1059-1069 | What a merge drops of the merged-away person's bank always leaves membro |
| Leaving.ASurvivorsDropLeavesMembroExactly | backend/anchors.py:1059-1069 | What it drops of the survivor's leaves membro exactly when it does not stay behind |
| Leaving.AMergedClipDroppedEarlyStays | backend/anchors.py:855-865 | A concrete ledger: somebody membro knows is merged into somebody it does not, a clip of theirs is rotated out, no row is recorded for it, and once the survivor is pushed membro holds it under them |
| InStep.SettledForMergeFollows | backend/anchors.py:796-830 | After a merge's settlement every pending row still names its clip's own holder, for the people left |
| InStep.SettledForForgetFollows | backend/anchors.py:796-830 | The same after a forget's settlement |
| InStep.ATrimmedDropMisplaces | backend/anchors.py:838-873 | Why the drop cap is a hypothesis: trimming one drop row leaves its clip in membro, and a later row that names the clip misses it |
| Runs.ForgetIsComplete | backend/anchors.py:1430-1462 | In any store in step, where no two held clips share bytes, once `forget` returns and a careful pass has replayed the settled ledger, whomever membro knows by then, no clip that was locally that person's is under any slug in membro, none of their files is on disk, and nothing sits under their slug; with shared bytes the exact condition is AnyRuns.ForgetIsCompleteExactly |
| Runs.ForgetIsCompleteOnceAllAreKnown | backend/anchors.py:1430-1462 | When membro knows everyone left, such a forget needs no further condition |
| Runs.CheckedForgetIsCareful | backend/anchors.py:1430-1462 | A check on the settled ledger alone makes any later pass careful, whomever membro knows by then |
| Runs.MergeMeansTheSameExactly | backend/anchors.py:1020-1110 | In any store in step, a merge rewrites the ledger to mean the same, drops included, if and only if no clip is astray |
| Runs.MergeKeepsInStep | backend/anchors.py:1020-1110 | A merge under the drop cap, with no row out of the merged-away person for a clip a won merge brought, keeps every clip membro holds heading for the slug of the person who holds it locally |
| Runs.MoveKeepsInStep | backend/anchors.py:1360-1400 | So does a move |
| Runs.AddKeepsInStep | backend/anchors.py:1112-1242 | So does an add with all its branches, of a recording whose bytes no held clip answers to (or a deduplicated one), under the drop cap; bytes membro already holds under this person are allowed |
| Runs.AuditKeepsInStep | backend/anchors.py:1674-1730 | So does a hygiene audit under the drop cap |
| SyncPass.ReplayKeepsInStep | backend/person_sync.py:230-320 | So does a replay pass that strands no clip, while any number of people have no slug and rows wait for them |
| SyncPass.CheckedPassIsCareful | backend/person_sync.py:230-320 | The ledger check alone makes any pass from a store in step careful |
| AnyRuns.ForgetLeavesExactly | backend/anchors.py:1430-1462 | Whatever the store has been through, once everyone left is known a forget leaves each clip where it was going to be if that is with somebody else and no pending row brings it to the forgotten person on the way, and nowhere otherwise |
| AnyRuns.ForgetIsCompleteExactly | backend/anchors.py:1430-1462 | So the forget is complete (files, addresses and slug) if and only if no clip of theirs answers to an address that survives |
| AnyRuns.ForgetMeansTheSameExactly | backend/anchors.py:1430-1462 | And it means what the ledger and then the forget would if and only if no clip passes through the person |
| AnyRuns.AForgetAndAPassLeaveExactly | backend/anchors.py:1430-1462 | Whomever membro knows when the pass after a forget is made, that pass and the rows it leaves waiting put each clip where the settled ledger takes it, which is what ForgetLeavesExactly says, unless the pass sets it adrift, and then where it drifts |
| AnyRuns.AForgetAndAPassAreCompleteExactly | backend/anchors.py:1430-1462 | And right after that pass the forget is complete if and only if no clip of theirs is bound for anywhere |
| AnyRuns.PassIsMeantExactly | backend/person_sync.py:230-320 | A replay pass from any store, and the rows it leaves waiting once everyone is known, leave all of membro as the whole ledger would if and only if no clip is adrift |
| History.HistoryKeepsInStep | backend/anchors.py:1020-1462 | Over every history of store operations, new people, pushes, uploads and replay passes from an empty store, passes made before everyone is pushed included: disk and index in bijection, every row able to land, and every clip in membro where its local holder is once the ledger lands |
| History.ForgetIsCompleteAfterAnyHistory | backend/anchors.py:1430-1462 | Forget is complete at any point of any history whose recordings are new to the store, whomever membro knows when a careful pass replays the settled ledger |
| History.AForgetAndAPassForget | backend/anchors.py:1430-1462 | In the history's own steps: after such a history, a forget and a replay pass leave membro with no clip of theirs and nothing under them |
| History.AnyHistoryKeepsNamed | backend/anchors.py:1020-1516 | Over any history at all from an empty store, recurring bytes, trimmed drops, merges and passes of any kind included: disk and index in bijection, every pending row naming the living by id and the departed by slug, row ids rising |
| History.ForgetIsExactAfterAnyHistory | backend/anchors.py:1430-1462 | After any such history, exactly which clips a forget leaves in membro, and exactly when it is complete |
| History.AForgetAndAPassAreExactAfterAnyHistory | backend/anchors.py:1430-1462 | The same for a pass made after the forget, whomever membro knows by then |
| SharedBytes.ACorrectedIntroductionSurvivesAForget | backend/voice_ask.py:252-259 | An introduction banks a turn under one person, the owner's correction banks the same bytes under another and a sync uploads that: from any store with nothing pending, where both banks have room for the clip and the first does not hold its bytes yet, forgetting the first leaves their recording in membro, whomever membro knows by then |
| SharedBytes.BankedTwice | backend/routers/room.py:646-663 | The two adds of that flow, through add_clip itself, into banks with room for the clip: two people hold clips of the same bytes |
| SharedBytes.HeldElsewhereSurvives | backend/anchors.py:1430-1462 | With nothing pending, an address of the forgotten person's that membro holds under somebody else survives every forget |
| Races.AForgetDuringAPassComesAfterIt | backend/person_sync.py:245-316 | A forget between a pass's read of the rows and its removal of those that landed leaves store, ledger and membro exactly as a forget after the pass, whatever the rows and whomever membro knows |
| Races.AForgetDuringAPassKeepsInStep | backend/person_sync.py:245-316 | So after a careful pass interrupted by a forget the store is in step |
| Races.SettlingDuringAPassExactly | backend/anchors.py:796-830 | For any ledger and any rows of it removed by id, settling before the removal and after it leave the same ledger if and only if no row that stays is misread: out of the merged-away person, for a clip all the rows before it carry to the survivor and those of them that stay do not, or the reverse |
| Races.LedgerCheckReadsRight | backend/anchors.py:796-830 | A check on the ledger alone (no sent row into or out of the merged-away person is followed by one that stays and takes the same clip out of them) is enough |
| RacedMerges.AMergeDuringAPassComesAfterItExactly | backend/person_sync.py:245-316 | A merge between a pass's read of the rows and its removal of those that landed, with its rotation, the drops it records and their trimming, leaves store, ledger and membro exactly as a merge after the pass if and only if no row that stays is misread, in the ledger with the drops, and no drop out of a bank membro does not know is recorded only because of a move the pass consumes |
| RacedMerges.AMergeDuringAPassComesAfterIt | backend/person_sync.py:245-316 | So it does whenever membro knows everyone and the merge loses no clip to rotation |
| RacedMerges.AMergeDuringAPassKeepsInStep | backend/person_sync.py:245-316 | When it does, and the pass is careful, the store is in step if a merge after the pass leaves it so |
| RacedMerges.OnceAllAreKnownAMergeDuringAPassKeepsInStep | backend/person_sync.py:245-316 | Once everyone is known and nothing is lost to rotation it always is |
| RacedMerges.AMergeDuringAPassCanLoseADrop | backend/anchors.py:899-908 | A concrete pass in whose middle a merge drops the clip just moved: the drop looks for it under the survivor, and membro keeps what a merge after the pass would have deleted |
| RacedMerges.AMergeDuringAPassCanLoseAMove | backend/anchors.py:811-828 | A concrete pass with a row waiting, in whose middle a merge that drops nothing loses the move on to a third person: the clip ends with the survivor, and forgetting the third person leaves it there |
| History.SettledBankIsRateLimited | backend/anchors.py:392-393 | Over any history, two automatic clips an established bank takes are at least SETTLE_WINDOW_S apart |
| History.TakesWaitTheirWindow | backend/anchors.py:1160-1215 | Only a take under the settle rule moves the person's settled time, and it waits out the window |
| History.SyncStepsAre | backend/person_sync.py:230-320 | The steps of a sync: a new person begins with an empty bank, a push gives them their slug, an upload puts one recording under its person, and a pass leaves membro replayed and the ledger with what waits; none touches a bank |
| History.AnyHistoryCapsItsDrops | backend/anchors.py:838-873 | However long membro stays away, no history of operations and sync steps leaves more than 500 drops waiting |
| Marker.StreamingRefinesBatch | backend/context_marker.py:88-136 | For every text and every way of cutting it, what the feeds send plus the flush is the batch redaction of the whole; at most 11 characters are held, and only such as could start a marker; no output shows the marker |
| Marker.StreamGoesOn | backend/context_marker.py:121-136 | However the rest arrives, redaction goes on from what is held as if the text so far had come in one piece |
| Marker.ReplaceRemoves | backend/context_marker.py:96-100 | Replacing every marker leaves none, and the replacement text never makes a new one with its surroundings |
| Marker.ReplaceTakesTheFirst | backend/context_marker.py:96-100 | Text up to the first marker stays as it is, that marker becomes the notice, and the rest is redacted the same way |
| Marker.RedactCleansAllButKeys | backend/context_marker.py:88-104 | `redact` leaves no marker in any string of a value if and only if no dict key shows one |
| Marker.RedactKeepsTheShape | backend/context_marker.py:88-104 | Redaction keeps a value's shape, its keys and everything that is no string, and every string that shows no marker |
| Marker.StreamRedactor.Feed | backend/context_marker.py:121-132 | One piece: replaced, and the longest end that could start a marker held back |
| Marker.StreamRedactor.HoldBack | backend/context_marker.py:126-132 | The search loop finds the longest end of the text that is a proper start of the marker |
| Events.NoLostWakeup | backend/events.py:212-342 | In every interleaving of committers, queued releases and streams, a parked, unwoken stream with no notify owed and no release queued has yielded every committed id above its start; what any stream yields is exactly the committed ids up to its cursor, ascending, each once |
| Events.QuietBusDelivers | backend/events.py:247-342 | Once every bell has rung, a stream left to its own turns ends if the process is stopping or its client had gone, and otherwise comes to rest having yielded every id above its start |
| Events.EveryCommitRingsOnce | backend/events.py:189-218 | Over every run each commit and each shutdown rings the bell once: its notify is still owed, its release queued, or the generation has moved for it; every commit stays, in order, and the stop flag is up exactly when a shutdown began |
| Events.StreamsComeAndGo | backend/events.py:212-300 | A stream begins at the cursor it asks for, a release wakes every stream that waits, one whose wait times out looks again, and one whose client leaves ends with what it had yielded |
| Events.TurnIsProgress | backend/events.py:289-342 | A stream that need not wait makes progress on every turn |
| Events.EventKeepsBus | backend/events.py:67-342 | Every step of the protocol keeps the invariant for every stream |
| Events.Bell.ReleaseWaiters | backend/events.py:212-218 | The release empties the waiter list, wakes exactly the waiting streams and moves the generation |
| Events.Bell.StreamTurn | backend/events.py:289-342 | One stretch of the stream's loop, as the machine's step, the waiter list in step with who is parked |
| Events.Bell.ShutDown | backend/events.py:67-91 | The flag goes up and every waiting stream is woken |
| LabelHandoff.RowsGetOnlyTheirOwnLabel | backend/diarize.py:665-713 | In every interleaving of park, claim, insert, look, write and other writers' relabels, the handoff writes a row at most once, and a row nobody else relabelled carries nothing but its own turn's payload fitted to its own text, whichever path wrote it |
| LabelHandoff.EachLabelIsInOnePlace | backend/diarize.py:167-200 | Every parked label either waits or has met exactly one fate (claimed, expired, evicted), and at most 32 wait |
| LabelHandoff.AttachLabelsExactly | backend/diarize.py:685-713 | Once the row is there, an attempt writes if its read finds the row unlabelled, knows the label as its own if it finds exactly that label, and gives up otherwise, which happens only on a row somebody else relabelled |
| LabelHandoff.AWriteLabels | backend/diarize.py:709-713 | The write an attempt has begun ends with the row carrying this pass's label and the pass knowing it, whatever was written between |
| LabelHandoff.LabelsAreFinal | backend/db.py:1500-1517 | While nobody else relabels it, a label once on a row never changes, except that a pass which had read the row unlabelled before may still write it |
| LabelHandoff.ACorrectionStandsExactly | backend/introductions.py:1806-1813 | A correction stands, until the next one, if and only if no pass was between its read and its write when it was made and has written something else by now |
| LabelHandoff.ACorrectionCanBeOverwritten | backend/diarize.py:685-713 | A concrete run in which the owner's correction is overwritten by the pass |
| LabelHandoff.ClaimRidesTheInsert | backend/diarize.py:184-200 | A label claimed before the insert, having waited thirty seconds or less, is on the row from its insert, and no longer waits |
| LabelHandoff.AStaleLabelIsDropped | backend/diarize.py:184-200 | A label that has waited more than thirty seconds does not ride its insert: the row is inserted unlabelled, the label waits no longer and is noted as expired |
| LabelHandoff.ParkKeepsTheFresh | backend/diarize.py:167-181 | A new label waits last among those that have waited thirty seconds or less; only thirty-two of those make the first give way; every label that goes is noted with its fate |
| LabelHandoff.ACheckParksAndLooks | backend/diarize.py:496-536 | A check not begun parks its label with the hour and starts looking, in every state, and changes nothing else |
| LabelHandoff.ASplitStaysWhenItReads | backend/diarize.py:319-340 | A split is kept if and only if its segments' words, one after another, read as the message and say something; the labels are kept always |
| LabelHandoff.ParkConserves | backend/diarize.py:167-181 | Parking adds one label and loses none: swept, evicted and waiting labels account for all |
| LabelHandoff.Session.AttachLabels | backend/diarize.py:685-713 | One attempt, with another writer's commit between its read and its write: no row yet, nothing to do, or the row carrying the fitted payload and the session knowing it |
| LabelHandoff.LabelDesk.ParkLabel | backend/diarize.py:167-181 | The sweep, the put and the eviction loop leave the specified list, oldest first |
| LabelHandoff.LabelDesk.ClaimLabel | backend/diarize.py:184-200 | A claim is single-use; a stale label is dropped and not handed over |
| LabelHandoff.FitToMessage | backend/diarize.py:331-340 | A split survives exactly when its words read as the message; the labels always do |
| RoundLoop.RoundConserves | backend/engine.py:1132-1477 | Over any round, whatever the calls stream, every usage block a call owes is booked exactly as often as it is owed, on a message or in seat_usage, through accept, pass, refused pass, echo, empty and error |
| RoundLoop.StopRecordsOnceExactly | backend/engine.py:586-663 | A stop at any suspension point, or between any two steps of the worker thread that records or posts a finished reply, records the stopped call's known usage exactly once if and only if it does not come, with a usage on the record (reported, or taken from the meter of a failed call), before a worker took it and with nothing left to save, or with a blank reply's record not started (then it is lost), or after a worker took it and with something left to save (then it is counted twice) |
| RoundLoop.StopWhileStreamingRecordsTheMeter | backend/engine.py:587-598 | While the call has not reported its usage, a stop always records the meter's last reading once |
| RoundLoop.ARecordedPassIsNeverCountedTwice | backend/engine.py:599-612 | After a pass is recorded a stop adds nothing |
| RoundLoop.AStopOnAPassLosesItsCost | backend/engine.py:1386-1407 | A stop while a pass is being announced loses the call's cost: a concrete call |
| RoundLoop.AStopOnARecordedEchoCountsItTwice | backend/engine.py:1423-1443 | A stop right after a restatement was recorded counts its cost twice: a concrete call |
| RoundLoop.AStopDuringAPostCountsItTwice | backend/engine.py:1466-1471 | A stop between the worker's insert of an accepted reply and its clearing of the state saves the reply twice and counts its cost twice: a concrete call |
| RoundLoop.AStopDuringAPostCanPostABlankRow | backend/engine.py:1466-1471 | A stop between the worker's check and its first read posts a blank row beside the cut reply: a concrete call |
| RoundLoop.AStopBeforeABlankRecordLosesItsCost | backend/engine.py:1365-1373 | A stop that cancels a blank reply's record before it starts loses the call's cost: a concrete call |
| RoundLoop.AStopOnAnErrorLosesItsCost | backend/engine.py:1320-1331 | A stop while a failed call's error is reported loses what its meter had read: a concrete call |
| RoundLoop.AStopSavesAnAcceptedReplyOnceExactly | backend/engine.py:1466-1471 | A stop while an accepted reply is posted leaves that reply once, its tools and its words, if and only if the post has settled, or the worker has not looked and the cut reply is worth saving, or it is not and the worker has its words; and how many rows it leaves at every other moment, whether or not there is a usage |
| RoundLoop.TheSecondTryStands | backend/engine.py:736-778 | The second call always ends the turn, and a pass on it is always accepted |
| RoundLoop.RetriesAreEarned | backend/engine.py:736-778 | At most two calls per seat; two exactly when the first reply was a pass the seat may not make or a restatement outside voice |
| RoundLoop.PostsSaySomething | backend/engine.py:1445-1471 | What a seat posts is never blank and never a bare pass |
| RoundLoop.PostsWhatWasHeard | backend/engine.py:1445-1471 | A posted message carries its call's own tools in order, its words with a trailing token taken off (none when they were only a pass beside tools), and exactly the usage the call owes |
| RoundLoop.AReplyIsPostedExactly | backend/engine.py:736-778 | From the streams and the seat alone: the reply a turn ends on is posted, with its tools, its words and its usage, if and only if it says something, is no bare pass, and is no second restatement in a typed chat; otherwise nothing is |
| RoundLoop.AskedAgainExactly | backend/engine.py:736-778 | A seat is called twice if and only if its first reply says something and is a bare pass it may not make (named in the turn, or first to a question), or a restatement without tools in a typed chat; otherwise once |
| RoundLoop.UnpostedRepliesAreFiled | backend/engine.py:1365-1443 | What every unposted reply is filed under: a refused one as pass_retried or echo_retried, the last as cut off, empty, passed or echo_dropped, each with the usage its call owes and none when it owes none |
| RoundLoop.ARoundIsItsTurns | backend/engine.py:1132-1477 | A round's messages and ledger rows are its turns', in turn order, so what is proved of one turn holds of each turn of any round |
| RoundLoop.AStopSavesWhatWasHeard | backend/engine.py:586-648 | A stop while a call streams saves every tool that ran and, unless they could still have become a pass, the words so far without a half-written token |
| RoundLoop.Round.RunSeat | backend/engine.py:1139-1464 | The guard loop: the messages and ledger rows it leaves, for every pair of calls and every place a stop may fall |
| RoundLoop.Round.RunRound | backend/engine.py:839-1477 | The same over all responders |
| RoundLoop.Round.PersistLive | backend/engine.py:586-648 | What the stop handler saves and records, and that it clears the state |
| RoundLoop.Round.PersistOnWorker | backend/engine.py:586-648 | The same function on the worker thread, read by read, insert and clear, with the stop handler free to run between any two steps: what the two leave together |
| Transcript.EverySeatReadsTheWholeChat | backend/engine.py:221-269 | If no commit falls between the two queries of a refresh, at every seat's turn the kept transcript shows every message with its words and labels as a full re-read would, for any interleaving of inserts, label writes and heard writes with the refreshes, when stamps rise in commit order |
| Transcript.ASeatReadsTheWholeChatExactly | backend/engine.py:221-269 | Over every interleaving of writes with the queries, stamps rising in commit order: the first seat always reads every message with its words and labels, and a later one if and only if no held row is torn, that is, missed before its label query or relabelled between its two queries, and not given since the very label the refresh leaves; heard writes tear nothing |
| Transcript.RefreshIsExact | backend/engine.py:257-265 | One refresh, whatever was committed between its two queries, shows the words and labels of a full re-read at the second if and only if each held row the label query found still has the label found and each one it did not find had the right label already |
| Transcript.MissedExactly | backend/engine.py:257-269 | What is missed between refreshes, over every run: exactly the held rows whose labels differ from the table's under a stamp the cursor has passed |
| Transcript.AHeardWriteTearsNothing | backend/engine.py:257-269 | A heard note written between a refresh's two queries tears no row |
| Transcript.AWriteMendsAMissedRow | backend/engine.py:257-269 | A missed row is read right again once any write, a heard note included, has stamped it anew and a refresh begins after that |
| Transcript.EveryStepIsTaken | backend/engine.py:254-269 | In every reachable state a commit lands with a later stamp and changes nothing a refresh has read, a label query reads the table as it stands, and a refresh that ends leaves the copy with every message there is, in order and word for word |
| Transcript.AWriteLands | backend/db.py:1456-1517 | What each write does to the table: a new last row, or one row's labels or heard note with its stamp, and nothing else |
| Transcript.AnEqualStampIsMissed | backend/db.py:1555-1566 | Two label writes under one stamp: the later is never folded in |
| Transcript.AWriteBetweenTheReadsIsMissed | backend/engine.py:257-269 | A label written between the refresh's two queries, with a labelled insert after it, is never folded in |
| Transcript.Messages.InsertMessage | backend/db.py:1456-1465 | A new row after all others, its label stamped with it |
| Transcript.Messages.SetMessageVoiceLabels | backend/db.py:1500-1517 | Only the labels and the stamp of the named row change |
| Transcript.Messages.SetMessageHeard | backend/db.py:1360-1370 | Only the heard note and the stamp of the named row change |
| Transcript.RoundTranscript.LoadRoundState | backend/engine.py:254-269 | The refresh loop: updates folded into held rows, new rows appended, both cursors advanced |
| Depth.EverySeatAsLastSpoken | backend/depth.py:232-297 | For any list of instructions, with whom each reaches read off the roster alone, each seat stands at its last standing instruction, its one-reply override is its last one-off wherever a reset stands, a reset with no one-off clears it, a reset takes the seat off its step-up, and no row is left holding nothing |
| Depth.TargetsAreReached | backend/depth.py:216-254 | The scan's targets are the seats an instruction reaches: every roster seat for "all", and for a name the last roster seat that answers to it by its slug or its display name |
| Depth.TargetsAre | backend/depth.py:216-254 | In order: the whole roster, or that one seat, or nobody when no seat answers to the name |
| Depth.ResetOrderIsIrrelevant | backend/depth.py:231-242 | Two lists that differ only in where their resets stand park the same one-off |
| Depth.UnknownNamesChangeNothing | backend/depth.py:249-254 | Instructions to names no roster seat answers to leave the table as it was |
| Depth.UnknownNamesSayNothing | backend/depth.py:249-309 | They post nothing, leave research mode alone and come to no change |
| Depth.UnreachedSeatsStay | backend/depth.py:249-254 | A seat no instruction reaches keeps its whole row |
| Depth.NoticesTellTheStanding | backend/depth.py:268-297 | Reading the new system notices in order gives every seat's new standing depth |
| Depth.NoticesAreTheChanges | backend/depth.py:256-297 | Instruction by instruction, the transcript says of each seat what changed between its row before and after and nothing else: a new level, a return to normal with the override it dropped, a step-up taken back |
| Depth.TheWordIs | backend/depth.py:298-309 | depth_set if and only if a seat was told a new level; depth_once if and only if nothing was said, research stayed and a one-off reached a seat; no change if and only if not even that |
| Depth.CreditGoesToTheSpeaker | backend/depth.py:262-286 | A depth or override the message changed credits its speaker, one it cleared credits nobody, one it left alone keeps its own credit |
| Depth.CreditIsTheLastChange | backend/depth.py:262-286 | Instruction by instruction: a depth that changed credits its speaker and one that was there already keeps its credit, a one-off credits the last to ask for it, and what was cleared nobody |
| Depth.DepthScan.ApplyDepth | backend/depth.py:198-309 | The nested loops: the table, the notices, research mode and the outcome word, with both mirrors equal to the table after every instruction |
| Depth.DepthScan.ClearForReset | backend/model_step.py:1073-1089 | The step-up goes; a line is posted only when it was still live |
| SeatState.SeatTable.SetDepth | backend/db.py:1774-1803 | The seat's row after a set, a plain clear or a clear that keeps the override; no empty row |
| SeatState.SeatTable.TakeOnceBy | backend/db.py:1838-1852 | The override is handed over once and gone, the rest of the row kept |
| SeatState.SeatTable.ClearModel | backend/db.py:1894-1906 | The step-up cleared, and whether there was one |
| SeatState.PutThenRead | backend/db.py:1806-1814 | A write to one seat's row is read back, keeps every other row and leaves no empty one |
| Attachments.TheCacheIsTransparent | backend/attachments.py:52-83 | However callers interleave, the order lists exactly the cached keys once each, the counter is their size and within the budget, every answer is what an uncached read gives, and the cache holds the most recently used keys |
| Attachments.EveryCallIsAnsweredOnce | backend/attachments.py:52-74 | However callers interleave, for every key the answers given and the reads still under way are together as many as the calls made |
| Attachments.RecencyIsByLastUse | backend/attachments.py:57-74 | Of two keys in the recency order the earlier one was last used before a use of the later one |
| Attachments.TrimIsLeast | backend/attachments.py:71-73 | Eviction drops the least recent keys and no more of them than it must |
| Attachments.StoreKeepsCache | backend/attachments.py:64-74 | Storing a value that fits keeps the cache consistent and within budget with the new key in it |
| Attachments.AttachmentCache.Find | backend/attachments.py:57-61 | A hit moves its key to the most recent place |
| Attachments.AttachmentCache.Store | backend/attachments.py:65-73 | The eviction loop leaves the specified cache; a key already there is left alone |
| Pacing.BurstsAreSpaced | backend/egress.py:350-380 | While a host is remembered its connects fall into bursts whose starts are at least the politeness interval, and more than the window, apart; a leader leaves at its burst's start and nobody who joins leaves before it |
| Pacing.AConnectIsPacedExactly | backend/egress.py:350-380 | In every run a connect to a host not remembered leaves at once and opens a burst; one within the window of the host's latest burst joins it and leaves no earlier than it starts; any other opens the next burst as soon as the politeness interval from that start allows |
| Pacing.TrimmingForgetsTheSoonest | backend/egress.py:374-377 | Past 1024 hosts the map forgets exactly 512, none due later than one it keeps |
| Pacing.TheMapIsBounded | backend/egress.py:374-377 | After every run the map holds at most 1024 hosts |
| Pacing.Pacer.Pace | backend/egress.py:350-380 | One connect: the wait, the host's slot and the trimming of the map |
| PageBudget.APageStaysWithinBudget | backend/egress.py:295-309 | However a page's connections interleave, it forwards at most its budget while its entry is kept, and one budget more for each time the entry was dropped |
| PageBudget.AChunkIsForwardedExactlyWithinBudget | backend/egress.py:400-412 | On a page never forgotten nor spent, a chunk within its connection's cap is forwarded exactly when the page's total with it is within the budget |
| PageBudget.ARelayForwardsWhatFits | backend/egress.py:382-415 | A relay left to itself forwards whole chunks as long as they fit its cap and the page's budget; the first that does not ends it, for the cap if that is passed and else for the budget; the page is charged what was forwarded and the chunk the budget refused |
| PageBudget.AConnectionIsARelay | backend/egress.py:382-415 | A connection left to itself does in the interleaved world exactly what such a relay does |
| PageBudget.OpeningForgetsTheOldest | backend/egress.py:295-303 | Only a new page on a full ledger makes it forget, and then the 512 oldest pages; the rest keep their order and their totals |
| PageBudget.Accountant.Relay | backend/egress.py:382-415 | One relay: bytes forwarded, bytes booked and how it ends |
| PageBudget.Accountant.Account | backend/egress.py:304-309 | The page's total grows by the bytes booked, and whether it is spent |
| Crosstalk.RunsKeepEveryWord | backend/crosstalk.py:228-246 | Every word is in the segments' runs once, in order, under its own label and certainty |
| Crosstalk.SegmentsAreTheRuns | backend/crosstalk.py:228-246 | A split has one segment for each run, with its label, its certainty and the first 400 characters of its words, and none at all with more than 12 runs |
| Crosstalk.AdjacentRunsDiffer | backend/crosstalk.py:228-246 | Neighbouring segments differ in label or certainty |
| Crosstalk.SegmentsReadAsTheWords | backend/crosstalk.py:228-246 | The split's joined text is the joined words if and only if it has at most 12 runs and no segment is truncated |
| Crosstalk.CertainSegmentsAreSure | backend/crosstalk.py:228-246 | Counting through the segments, each word of a segment is the word said at that place under the segment's label, and the segment is certain exactly when that very word was sure and its voice's label is not an unsure one |
| Crosstalk.CertainSegmentsAreNamed | backend/crosstalk.py:256-285 | Every segment's label is one of the turn's, and a certain one is a voice's own name |
| Crosstalk.ListedVoicesAre | backend/crosstalk.py:163-176 | The list is the main voice, then every other voice that spoke long enough, once each, in the order they started |
| Crosstalk.CandidatesAre | backend/crosstalk.py:191-225 | Whose a word could be, by the clock: somebody heard over its midpoint or, when nobody was, somebody heard within 300 milliseconds of it |
| Crosstalk.LabelsComeInOrder | backend/crosstalk.py:256-285 | Labels and unsure labels come in the order of the listed voices |
| Crosstalk.Attribute | backend/crosstalk.py:205-225 | Each word attributed once, in order: sure exactly when one voice alone covers it, or alone is near, with no overlap; otherwise the main voice, or the heaviest |
| Crosstalk.Split | backend/crosstalk.py:228-246 | The grouping loop with its truncation and its cap of 12 segments |
| Crosstalk.LabelTurn | backend/crosstalk.py:256-285 | The turn's label: names, unsure ones, and the segments of the aligned words |
| Crosstalk.Align | backend/crosstalk.py:179-188 | Words shifted so both clocks meet at the commit, refused exactly when the tracker heard too little |

## Left out

- Audio: RMS, voiced fractions, trimming and match scores. Quality, seconds and scores are fields of a clip.
- Refusal counters, names, preferred names, audition and vouch stamps, `add_merged_name`, `set_trust_scores`.
- `drop_membro_stamp`, and which clips a sync pass pulls: a pulled clip is an add that carries membro's hash as its stamp.
- Network failures, refusals and HTTP status codes in a replay pass: a pass sees every row, in order. A person whose push is refused is one with no slug, and that is modelled.
- A pull that adopts an unpushed local person by display name: a person's slug never changes once named in `names`.
- Local calendar days: a capture day is the timestamp divided by 86400.
- The JSON index, file permissions, locks and atomic rename: the store's state changes one operation at a time.
- History.HistoryKeepsInStep: histories in which more than DROP_ROWS_MAX drop rows wait are excluded, because the store then gives up its oldest drops on purpose; `AnchorStore.AnchorStore.RecordDropRow` does model the trimming.
- Runs.MergeKeepsInStep: merges with any row out of the merged-away person for a clip a won merge brought are excluded, harmless ones too (a move on to the survivor), because the settled form of such a row no longer finds its clip under its own source, which later settlements rely on.
- Runs.AddKeepsInStep: recordings whose bytes another held clip answers to are excluded unless deduplicated, because the ledger then cannot tell the two clips apart; `AnyRuns` and `History.ForgetIsExactAfterAnyHistory` cover them.
- Runs.AuditKeepsInStep: audits whose drops pass the drop cap are excluded, as for merges.
- Runs.ForgetIsComplete: stores in which two people hold the same bytes are excluded, because a forget is not complete there; `AnyRuns.ForgetIsCompleteExactly` is the condition.
- History.ForgetIsCompleteAfterAnyHistory: histories in which recorded bytes recur are excluded for the same reason; `History.AForgetAndAPassAreExactAfterAnyHistory` covers them.
- Runs.MergeMeansTheSameExactly: merges whose drops pass the drop cap are excluded, because a trimmed drop leaves a ledger whose rows no longer follow their clips.
- SyncPass.ReplayKeepsInStep: passes that strand a clip and bring it back by the end are excluded, because the rows left waiting in between no longer follow it; `AnyRuns.PassIsMeantExactly` covers what such a pass does to membro.
- RacedMerges.AMergeDuringAPassComesAfterItExactly: compares stores and ledgers, so it does not say which of the differing ledgers happen to leave membro alike.
- Label attachment by time window for clients without a turn id (`pick_target`), and the 32-entry breadcrumb list: the model's log is unbounded.
- The history search with its opening line, prompts, notices, citations, tool attachments and the seat trace of a round.
- RoundLoop.Round.PersistLive: the redaction of what is saved is left to Marker, the spoken preface is left out, and the cut marker is a flag on the message.
- RoundLoop.Round.PersistOnWorker: the stop handler runs in one stretch between two of the worker's steps; the worker stepping in between two of the handler's own is not modelled.
- Opener rotation (`pick_responders`) and the hand-off to guests.
- Job, roster, flag and watch cursors of the event stream: each follows the message cursor's pattern with its own stamps.
- Resolving who spoke a depth cue, model step-ups themselves and the wording of notices; a concurrent `take_chat_seat_once` during `apply_depth`.
- Sockets, DNS vetting, idle timeouts and tunnelling: a relay is a list of chunks, time is an integer; `Pacing` states the earliest moment a connect may leave, not when the sleep really ends.
- The word store of crosstalk (`put_words`, `take_words`) and its wait.
- Cost axes (`backend/accounting.py`): each is one sum over rows, so it would only add easy members.
- Ids, slugs, hashes and names are integers, since only equality is used on them; floats are integers.
