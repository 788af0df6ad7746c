# Who sees an entry, and the protocols around it

A Dafny model of the parts of this repository where a mistake would show data to
the wrong person, run a write twice, lose work, or write the wrong bytes, with
proofs over every input, every run and every interleaving the model allows.
`dafny verify dfyconfig.toml` checks all of it.

**The position tree and derived data** (`graph-rag`). Positions form a rooted
tree; an entry is homed at a position, or at "everyone". `Positions` accepts a
document exactly when its own links lead from every position to the root, and
defines one order on homes ("at or above"). `Visibility` shows that the downward search, the
upward walk, moves, writable homes and the common ancestor all follow that
order. `Placement` covers the grading model's verdicts and the derived-data floor.
`DerivedData` is one write, regrade or move up, from the look at the row it is
placed by to the row it is stored over; `DerivedRuns` is the state machine of
reads, requests, looks, commits and restarts, any number of them in flight:
whoever can see an entry can see every home its writers had read inside the
window. `ReadMarks` is the store of those reads, `Grants` what shares add to a
caller's view.

The code promises that theorem only under conditions it does not check, and the
model states them as guards on single steps. An entry's home is at or above its
origin (a person widening a home by hand is outside the run). A restart must find
every mark inside the window stored with its last time
(`RestartForgetsNothingWhen`: then and only then is nothing forgotten). And a
commit must meet `MayCommit`, a condition on the write's floor, the row it was
placed by, the row there now and whether grading is on, never on what the grading
model says: for everything in flight it is exactly what is safe whatever the
verdict (`MayCommitExactly`). Two kinds of run meet it by what is plainer to
check: those in which each row is stored over what was looked at
(`NobodySeesPastUndisturbedWriters`), and those that take one request for an entry
at a time from look to commit (`NobodySeesPastWritersInTurn`); there only a write
to an entry that still awaits grading or was made for everyone, or a worker's
that grading would hide, has a condition left, `KeepsReads`, again exact
(`KeepsReadsExactly`).

**Protocols over database rows.** `PendingWrites` takes approvals, rejections,
confirmations, declines and the resolution of waiting shares one statement at a
time, any number of requests in flight, each free to stop anywhere. `Intake`
follows an entry from its intake job through batch, signal and prompt to the
acknowledgement, with stops at any await on either side. `Threads` is one
thread's row over its life, one call a step: the order messages arrive in, and
how often it may end badly. `JobTable` holds the rows and hands threads out
through counters that several levels share; `GraphPool` is the workspace that
asks for them and checks and reserves before it awaits. A theorem joins the two:
what the queue hands over within the room a tick reported all starts.

**Text and transport.** `Documents` cuts a text into blocks, pieces and runs of
pieces; `DocumentLines` says what that means for the text's own lines, and
`DocumentChunks` puts it together into chunks that tile the text.
`LinkedQuestions` groups questions by union-find and joins their views; `Needs`
and `Questions` route a question to owners and bound what its asker can tell.
`LfSplitter` splits records by line feeds, however they are chunked. `PiProcess`
is the request and stdin queue machine. `WriteScript`, with `Base64`, `Shell`,
`ShellRun`, `WriteLines`, `WriteSteps` and `WriteRun`, gives the emitted shell
script a meaning, by a small interpreter of the POSIX Shell Command Language,
and shows that running it leaves exactly the content's bytes.

Loops, queues, maps that are updated and objects are methods, classes and loops
with invariants here as they are in the code; what only computes is a function.
Protocols whose state is rows in a database are state machines over values.

## What turned out otherwise than the code or its comments say

- The search and the upward walk disagree when a position's parent has the empty
  id, where the walk stops; exactly then (`SearchMatchesAncestors`). Members that
  take a `ProperMap` exclude that id and nothing else.
- "It and the placement lie on one line through the origin"
  (graph-rag/src/placement.js:14-15) fails for an entry written for everyone:
  `EveryonesEntryMissesItsFloor`; `FloorIsRespectedOnOneLine` says exactly when
  the floor is respected.
- A write is placed by the row as it was before the grading model was asked, and
  stored over whatever is there afterwards (graph-rag/src/server.js:755-862), so
  two at once can lower an entry that one of them raised: on every map and for
  every position below another (`OverlappingWritesLower`,
  `TwoRequestsComeAbout`). `LandingIsSafeWhen` says exactly when a write that was
  overtaken loses nothing, two first writes of one entry included;
  `RegradeIsSafeWhen` and `MoveIsSafeWhen` say it of regrades and moves up.
- The record kept while an entry awaits grading has the first write's floor
  (graph-rag/src/server.js:828-834). What a second write needs is exact:
  `KeepsReadsExactly`, and in terms of where the entry ends up
  `GradedRewriteIsSafeWhen`, `UngradedRewriteIsSafeWhen`.
- "Persisted, so a restart forgets nothing" (graph-rag/src/server.js:633): a mark
  survives a restart exactly when some read inside the window followed a pause of
  ten minutes (`RestartKeepsWhen`); steady reading is forgotten
  (`SteadyReadingIsForgotten`). One that survives with an older time leaves the
  window early: nothing is forgotten later either exactly when all are stored as
  they are (`RestartForgetsNothingWhen`, `StoredAsItIsWhen`).
- A thread claimed when its entry is gone ends done and loses exactly what was
  still waiting for it (`GoneEntryLosesWhatWaits`, `GoneEntryLeavesAMessage`); a
  message to a failed thread, or behind five others, is lost too. Those are all
  the calls that lose anything (`StepKeepsOrder`, `MessagesArriveInOrder`).
- The lost lease that ends a thread leaves its count of tries where it was
  (`BadEndsUseUpTries`).
- A thread handed over again while its turn still runs here is counted once and
  runs twice (`ReclaimedThreadRunsTwice`); `StartIsCountedWhen` says exactly when
  the count stays right.
- "Never more than MAX" (graph-rag/src/documents.js:16) is not the bound of a
  chunk: one is longer exactly when a start short of MIN took in a piece that
  made it so (`RunExceedsMaxWhen`), and a text of two paragraphs is such a chunk,
  as long as the bound proved allows (`BoundIsReached`, `LongestChunk`).
- An entry met out of the asker's sight and met again once the asker can see it
  is not told of (`HiddenMeetingSilencesVisible`, `VisibleMeetingIsToldWhen`), so
  what happens behind an asker's back can show: among runs that differ only there
  and in who answers, exactly when an entry met in the asker's sight was met
  before in just one of them and its name is not told yet (`AskersCannotTell`).
- The write script fails, with nothing written, for an empty path, one that ends
  in a slash, and one whose directory looks like an option; a path that itself
  looks like an option leaves the temporary file behind (`WritesExactly`).

## Model

| member | source | states |
|---|---|---|
| Positions.ParsePositionMap | graph-rag/src/positions.js:26-47 | a document is accepted if and only if it is well formed and from every position a walk over the document's own links leads to the root; then each position hangs under the parent the document names, or under the root where it names none it has; what is refused is refused for the reason given, and a reported cycle is a walk that comes back |
| Positions.ReadBack | graph-rag/src/positions.js:26-47 | a map listed position by position, with names and parents, is read back as it was |
| Positions.UpIsHangs | graph-rag/src/positions.js:31-36 | a position's parent is exactly the one it hangs under in the document |
| Positions.FindCycle | graph-rag/src/positions.js:38-45 | the walk with a seen set finds a cycle exactly when some chain does not reach the root |
| Positions.ComputeAncestors | graph-rag/src/positions.js:61-69 | the loop over parents yields the chain, and for everyone all positions deepest first |
| Positions.DeepestFirstSorts | graph-rag/src/positions.js:62-65 | everyone's ancestors are every position once, sorted by depth |
| Positions.DeepestFirstIsStable | graph-rag/src/positions.js:62-65 | those of one depth stay in the document's order |
| Positions.ChainIsAbove | graph-rag/src/positions.js:66-68 | the upward walk meets exactly what is strictly above, where no parent has the empty id |
| Positions.AncestorsAreAbove | graph-rag/src/positions.js:60-69 | the computed ancestors of any home are exactly what the order puts above it |
| Positions.AboveIsClimbing | graph-rag/src/positions.js:60-69 | to be at or above a position is to be met on its walk up |
| Positions.AboveTransitive | graph-rag/src/positions.js:60-69 | being at or above is transitive, everyone included |
| Positions.AboveAntisymmetric | graph-rag/src/positions.js:60-69 | two homes at or above each other are one |
| Positions.AboveIsALine | graph-rag/src/positions.js:60-69 | what is at or above a position lies on one line |
| Positions.RootIsAbove | graph-rag/src/positions.js:60-69 | the root is at or above every home |
| Visibility.ChildIndex | graph-rag/src/positions.js:50-58 | the index lists exactly the children of every position |
| Visibility.VisibleHomes | graph-rag/src/positions.js:80-94 | the stack search returns everything for the root's holder, else exactly everyone and the homes some held position is at or above |
| Visibility.CanSee | graph-rag/src/positions.js:97-107 | a caller sees everyone's entries; one at a position if and only if a held position is at or above it; and any other, with a home missing or unknown, if and only if the root is held |
| Visibility.SearchMatchesAncestors | graph-rag/src/positions.js:80-94 | search and upward walk show every caller the same homes if and only if no position's parent has the empty id |
| Visibility.ComputeSubtree | graph-rag/src/grants.js:31-38 | the loop collects the positions whose walk meets the given one |
| Visibility.OnePositionSeesItsSubtree | graph-rag/src/grants.js:30-38 | holding one position shows exactly its subtree and everyone's |
| Visibility.SeeingFollowsTheOrder | graph-rag/src/positions.js:96-101 | whoever sees a also sees b, for all callers, if and only if a is at or above b |
| Visibility.RestrictShowsNobodyNew | graph-rag/src/positions.js:147-152 | a move is called a restriction if and only if everyone who sees the target sees the source, to and from everyone too |
| Visibility.WritableHomes | graph-rag/src/positions.js:133-140 | writable are exactly the positions that are, or are above, a held one |
| Visibility.ComputeCommonAncestor | graph-rag/src/positions.js:160-171 | the loop that narrows a chain computes the common ancestor |
| Visibility.CommonAncestorIsLeast | graph-rag/src/positions.js:154-171 | it is the least upper bound: a position is at or above it if and only if it is at or above every home |
| Visibility.LeastUpperBoundUnique | graph-rag/src/positions.js:154-171 | there is only one such home |
| Visibility.CommonAncestorOfASet | graph-rag/src/positions.js:160-171 | neither the order of the homes nor repeats matter |
| Visibility.CommonAncestorExtends | graph-rag/src/positions.js:160-171 | one more home is one more join |
| Visibility.CommonAncestorBounds | graph-rag/src/positions.js:154-158 | it is at or above every home it was given |
| Visibility.UnknownMeansTheRoot | graph-rag/src/positions.js:104-107 | among homes of which one is missing or unknown, the lowest position above all is the root |
| Visibility.UnknownMovesFromTheRoot | graph-rag/src/positions.js:147-152 | a move from such a home is a restriction only to the root |
| Grants.GrantedView | graph-rag/src/grants.js:53-67 | beyond their own view callers are shown exactly what the grants in force that reach them are for, and holders of the root nothing more |
| Grants.ShareIsAnotherHome | graph-rag/src/grants.js:1-3 | a position's share shows a home to exactly those who see the position, when its target is at or above the home |
| Placement.VerdictsAreAdmissible | graph-rag/src/grading.js:99-130 | whatever the grading model answers, a usable verdict restricts to the origin or above it, releases only below, and has a confidence between 0 and 1 |
| Placement.VerdictFollowsTheAnswer | graph-rag/src/grading.js:99-130 | the verdict says what the item for the entry says, the first that names it or else the one in its place: home, topic, confidence and release, with nothing dropped but what is not usable |
| Placement.FloorIsRespectedOnOneLine | graph-rag/src/placement.js:17-28 | with home and floor above the origin the floor is respected if and only if the two are on one line; nothing is ever lowered |
| Placement.FloorIsRespectedAtAPosition | graph-rag/src/placement.js:11-28 | for an origin that is a position the floor is always respected |
| Placement.EveryonesEntryMissesItsFloor | graph-rag/src/placement.js:17-28 | an entry written for everyone and held at one team is not moved by a floor at another |
| Placement.DecideIsAtOrAboveOrigin | graph-rag/src/grading.js:137-161 | a new entry is decided at or above its origin |
| Placement.NewEntryRespectsOriginAndFloor | graph-rag/src/placement.js:37-44 | a new or awaiting entry lands at or above both its origin and its floor |
| Placement.SettledEntryMovesUp | graph-rag/src/grading.js:137-148 | an update only moves a settled entry up and proposes nothing |
| Placement.SettledEntryShowsNobodyNew | graph-rag/src/placement.js:37-44 | after an update the viewers are a subset of those before, and the floor holds when the home was above the origin |
| Placement.ProposalsNeedAnUnraisedFloor | graph-rag/src/placement.js:17-22 | a release or review is left standing if and only if the floor is the origin and the decision made one |
| Placement.SureVerdictPlacesTheEntry | graph-rag/src/placement.js:37-44 | a new or awaiting entry with a sure verdict goes to the higher of the home the verdict names and the floor, so whoever sees it sees that home |
| Placement.OthersAreHeldAbove | graph-rag/src/grading.js:149-155 | unsure or ungraded, it is held at the higher of its origin's parent and the floor; only the unsure is put up for review |
| Placement.RestrictingVerdictHides | graph-rag/src/grading.js:141-147 | a sure verdict above a settled entry's home, and not its origin, takes it to the higher of that and the floor, and says where from |
| Placement.OtherVerdictsLeaveIt | graph-rag/src/grading.js:141-148 | any other verdict leaves it where it is, or at the floor if that is above |
| Placement.FloorLiftsWhen | graph-rag/src/placement.js:46-49 | a write is lifted if and only if its floor is strictly above where the entry lives, and that is not everyone's |
| DerivedData.FloorBounds | graph-rag/src/server.js:652-662 | the floor is at or above the origin and everything read |
| DerivedData.FloorIsLowest | graph-rag/src/server.js:652-662 | and it is the lowest such home |
| DerivedData.SafeExactly | graph-rag/src/server.js:793-862 | what is stored may be stored over the row there if and only if, whatever was read for that row and for the write, the row's bound stays at or above all of it: its home, or while it waits where it was held the floor a regrade may let it down to |
| DerivedData.LandingIsSafeWhen | graph-rag/src/server.js:755-862 | a write placed by any earlier look, or by none, is safe over any row whatever the verdict if and only if the guard on its floor, the row it saw and the row there now holds: placed as new, its floor must reach what bounds the row; else the higher of its floor and the home it saw must, and a record left standing must still bind; workers and entries for everyone included |
| DerivedData.OverSettledIsSafeWhen | graph-rag/src/server.js:755-862 | for a position's entry and a settled row that comes to: the floor, or the home it saw unless that is graded afresh, is at or above the home there now |
| DerivedData.RegradeIsSafeWhen | graph-rag/src/server.js:945-990 | a regrade, whatever it had seen, is safe over any row whatever the verdict if and only if it found the row moved, or its record's floor is at or above what bounds the row now |
| DerivedData.MoveIsSafeWhen | graph-rag/src/server.js:1133-1147 | a move is safe over any row, awaiting grading or not, if and only if it is not to below the home there now |
| DerivedData.UndisturbedWriteMayLand | graph-rag/src/server.js:755-862 | for a row as it was seen the guard comes to `KeepsReads` |
| DerivedData.KeepsReadsExactly | graph-rag/src/server.js:755-862 | stored over the row it was placed by, a write is safe whatever the verdict if and only if `KeepsReads` holds of floor, home and awaiting record |
| DerivedData.GradedRewriteIsSafeWhen | graph-rag/src/server.js:828-834 | a graded second write keeps the first one's reads hidden, whatever the verdict, if and only if its floor is at or above what bounds the entry: the first's floor where it was held, its home once moved |
| DerivedData.UngradedRewriteIsSafeWhen | graph-rag/src/server.js:828-834 | an ungraded second write keeps its own reads hidden, whatever the regrade, if and only if the entry was moved, the write's floor raises it, or the first's floor is at or above the write's |
| DerivedData.SureWriteFollowsItsVerdict | graph-rag/src/server.js:755-862 | the row of a new write goes where its sure verdict says, or to the floor above, settled, with what its writer read added |
| DerivedData.OtherWritesAreHeldAbove | graph-rag/src/server.js:816-840 | unsure, it is held above its origin; with the grading model out of reach there too, with a record of where and of the floor |
| DerivedData.RestrictingWriteHides | graph-rag/src/server.js:793-862 | a settled row goes up where a sure verdict says; a worker's write leaves it where it was seen |
| DerivedData.OtherWritesLeaveIt | graph-rag/src/server.js:793-862 | any other write leaves it, or lifts it to the floor |
| DerivedData.RegradeFollowsItsVerdict | graph-rag/src/server.js:945-990 | a regrade takes the row, where it was held, to the higher of its verdict's home and the first write's floor; a row moved meanwhile stays |
| DerivedRuns.WindowIsWhatWasRead | graph-rag/src/server.js:634-661 | the marks inside the window are exactly the homes read since then |
| DerivedRuns.WorkerAskFits | graph-rag/src/server.js:669-690 | a worker's request goes ahead if and only if the entry is everyone's or all it read can be seen where the entry lives |
| DerivedRuns.RestartForgetsNothingWhen | graph-rag/src/server.js:613-650 | after a restart the marks are what was read, at every later moment, if and only if every mark inside the window was stored with its last time |
| DerivedRuns.MayCommitExactly | graph-rag/src/server.js:755-990 | the guard on commits is exact: what a write, regrade or move in flight stores is safe over the row there now, whatever the verdict, if and only if it holds |
| DerivedRuns.StepKeeps | graph-rag/src/server.js:755-990 | every read, request and look, and every commit and restart under its guard, keeps each entry at or above what its writers read, and never lowers a settled one |
| DerivedRuns.NobodySeesPastTheWriters | graph-rag/src/server.js:652-662 | over every run whose commits and restarts meet their guards, with any number of writes, regrades and moves in flight, whoever sees an entry sees every home its writers had read inside the window when they asked |
| DerivedRuns.UndisturbedMayCommit | graph-rag/src/server.js:755-990 | over the row it was placed by a regrade or a move up meets the guard, and a write does under `KeepsReads` |
| DerivedRuns.NobodySeesPastUndisturbedWriters | graph-rag/src/server.js:755-990 | the same over every run in which each row is stored over what was looked at and writes meet `KeepsReads` |
| DerivedRuns.InTurnIsUndisturbed | graph-rag/src/server.js:755-990 | a look that waits for the entry's last commit finds nothing between itself and its own |
| DerivedRuns.NobodySeesPastWritersInTurn | graph-rag/src/server.js:755-990 | so the promise holds over every run that takes one request for an entry at a time |
| DerivedRuns.SettledEntriesOnlyShrink | graph-rag/src/server.js:755-990 | once graded, no step under its guard shows an entry to anybody new, whatever the grading model says |
| DerivedRuns.OverlappingWritesLower | graph-rag/src/server.js:755-862 | two writes that both look at one settled entry: the second stored lowers what the first raised, holders of the entry's position see what was written from above, and that is the only step to miss its guard |
| DerivedRuns.TwoRequestsComeAbout | graph-rag/src/server.js:4166-4183 | an allowed run of reads and requests leads to two such writes, on any map |
| DerivedRuns.WriteAlone | graph-rag/src/server.js:755-862 | a request, its look and its commit, with nothing between, store the row so placed and add exactly what its writer had read inside the window |
| DerivedRuns.RegradeAlone | graph-rag/src/server.js:945-990 | a look and a commit regrade a row that awaits grading, once the grading model answers |
| DerivedRuns.MoveAlone | graph-rag/src/server.js:1133-1147 | an entry is moved if and only if the home asked for is at or above its own |
| DerivedRuns.BasisOnlyGrows | graph-rag/src/server.js:755-862 | what was read for an entry is never forgotten |
| ReadMarks.ReadMarks.RecordReads | graph-rag/src/server.js:634-650 | every home shown is marked now for this reader, and stored when the mark before it is ten minutes old; no other mark changes |
| ReadMarks.ReadMarks.DerivedFloor | graph-rag/src/server.js:657-662 | the floor joins the origin with exactly the marks inside the window |
| ReadMarks.ReadMarks.Restart | graph-rag/src/server.js:613-626 | a restart keeps a stored mark if and only if it is inside the window, with its time, and reloads exactly those |
| ReadMarks.RestartKeepsWhen | graph-rag/src/server.js:633-650 | a mark survives a restart if and only if some read inside the window followed a pause |
| ReadMarks.StoredAsItIsWhen | graph-rag/src/server.js:633-650 | it survives with the time of its last read if and only if a read at that time followed a pause |
| ReadMarks.SteadyReadingIsForgotten | graph-rag/src/server.js:633-650 | reading every nine minutes for the whole window leaves a mark a restart drops |
| PendingWrites.StepKeeps | graph-rag/src/server.js:3979-4034 | every statement of every request in flight keeps the invariant |
| PendingWrites.ReadSharesKeeps | graph-rag/src/server.js:1411-1425 | when a write's approval reads the shares waiting on it, none was dealt with before |
| PendingWrites.HandleShareKeeps | graph-rag/src/server.js:1426-1455 | each of those shares is dealt with once, whatever becomes of it |
| PendingWrites.LostRecordKeeps | graph-rag/src/server.js:1445-1448 | losing the record that a share failed keeps the invariant: the loop goes on and the share is not made again |
| PendingWrites.DropKeeps | graph-rag/src/server.js:1456-1463 | rejecting a write drops its waiting shares without touching one in hand |
| PendingWrites.ConfirmerKeeps | graph-rag/src/server.js:1503-1548 | confirming claims a pending share once, against every other route |
| PendingWrites.EachWriteRunsAtMostOnce | graph-rag/src/server.js:3979-4034 | in every interleaving a queued write's effect runs at most once, and never after it was rejected or declined while pending |
| PendingWrites.SharesFollowTheirWrite | graph-rag/src/server.js:1411-1455 | a share queued on a write has run only if that write was approved and ran once |
| PendingWrites.DeadStaysDead | graph-rag/src/server.js:4017-4034 | a write rejected or declined while pending never runs, whatever comes |
| PendingWrites.NothingRunsUnasked | graph-rag/src/server.js:1411-1455 | over every run, nothing has run without a yes: queued as confirmed, or claimed by an approval or a confirmation |
| PendingWrites.AgreedComesFromAYes | graph-rag/src/server.js:1503-1548 | and only those make a write agreed to |
| PendingWrites.ShareIsHandledAs | graph-rag/src/server.js:1426-1455 | a share read as waiting is not made but becomes a proposal, or fails when it is not its person's; one read as confirmed is made at once where shares need no review |
| PendingWrites.DroppedAreItsShares | graph-rag/src/server.js:1456-1463 | with a rejected upsert go exactly the shares that wait on it |
| PendingWrites.QueueStep | graph-rag/src/server.js:1298-1325 | what is queued is new, with nothing done to it; only a share may wait, and only on a queued upsert |
| Intake.StepKeeps | graph-rag/src/server.js:3577-3604 | every statement and call on either side, and every stop between two, keeps the invariant |
| Intake.CloseKeeps | graph-rag/src/server.js:3597-3602 | a job leaves the intake only after its entry was sent on |
| Intake.AckKeeps | packages/server/src/agents/graph-pool.ts:297-304 | a signal is acknowledged only after the master accepted it |
| Intake.NoEntryIsLost | graph-rag/src/server.js:3577-3604 | at every moment of every run an entry that entered the intake is in a pending job, in a signal not acknowledged, accepted by the master, or had no readable record |
| Intake.AllHandedOver | graph-rag/src/server.js:4991-5007 | with the intake empty and every signal acknowledged, the master accepted every entry that could be read |
| Intake.BatchHandsOn | graph-rag/src/server.js:3577-3604 | from any state, a batch that nothing stops takes its jobs out of the intake and puts exactly the entries it could read into one new signal |
| Intake.PromptHandsOver | packages/server/src/agents/graph-pool.ts:281-298 | and a prompt that is accepted, and nothing stops, tells the master of every entry in its signals and closes them all |
| Intake.HowEntriesEnter | graph-rag/src/server.js:2350-2364 | an entry enters by a pending job of its own, made for it or already there |
| Threads.StepKeepsOrder | graph-rag/src/server.js:2645-2727 | a call keeps what was delivered, then what waits, equal to what came, in order, if and only if it is not a claim of a gone entry with messages waiting, nor a message to a failed thread or behind five others |
| Threads.MessagesArriveInOrder | graph-rag/src/server.js:2589-2727 | through good, failed, put-off, released and expired turns messages are first handed over in the order they came, none lost, and a waiting or done thread has had them all, at all times of a run if and only if every call in it is one of those |
| Threads.GoneEntryLosesWhatWaits | graph-rag/src/server.js:2617-2620 | a pending thread claimed when its entry is gone ends done, and has been handed everything if and only if nothing waited |
| Threads.GoodTurnsDeliverAll | graph-rag/src/server.js:2678-2683 | one good turn for each waiting message, and one more, delivers everything |
| Threads.QueueHoldsFive | graph-rag/src/server.js:2715-2718 | one more message pushes the oldest out if and only if five wait |
| Threads.GoneEntryLeavesAMessage | graph-rag/src/server.js:2617-2620 | any message that waits when a gone entry is claimed is left undelivered by a thread that is done |
| Threads.ThreeBadEndsAtMost | graph-rag/src/server.js:2643-2683 | over a thread's whole life at most three turns end in a counted failure or lost lease, the third for good, and at most six are put off between good turns |
| Threads.BadEndsUseUpTries | graph-rag/src/server.js:3751-3755 | every bad end lowers the measure of tries and deferrals, but for the lost lease that ends the thread |
| Threads.FailedIsForGood | graph-rag/src/server.js:2711-2727 | a failed thread stays failed |
| Threads.HowAThreadMoves | graph-rag/src/server.js:2589-2727 | every way a thread's status changes: which call takes it where, from what state, with the third try and the seventh outage |
| Threads.HowTriesAreCounted | graph-rag/src/server.js:2658-2683 | its tries and outages go up by one with each bad end of their kind, and only a good end forgets the outages |
| JobTable.LevelRoom | graph-rag/src/server.js:2580-2587 | the levels of one group share one counter object, the last group that lists a level owns it |
| JobTable.JobTable.Finish | graph-rag/src/server.js:2645-2692 | the row after a finish, by how the turn ended |
| JobTable.JobTable.ResumeThread | graph-rag/src/server.js:2711-2727 | a message is queued behind a turn or wakes the thread |
| JobTable.JobTable.ExpireLeases | graph-rag/src/server.js:3751-3755 | two updates in turn fail the last tries and put the others back |
| JobTable.JobTable.Release | graph-rag/src/server.js:4976-4985 | a released thread is pending again with its tries, and the answer says whether it was running |
| JobTable.JobTable.ClaimOne | graph-rag/src/server.js:2604-2621 | a thread is claimed once, from a pending row, when its model has room, and uses that room |
| JobTable.JobTable.ClaimThreads | graph-rag/src/server.js:2589-2632 | threads handed out are within every limit asked and every group's room, each won once; with places left, one looked at is passed over only when its model is full; all due are looked at, or as many as may be handed out, or with a limited model ten times that and two hundred at most |
| GraphPool.ModelCaps | packages/server/src/agents/graph-pool.ts:190-200 | a model is limited exactly when one of its levels is, by the lowest of their limits |
| GraphPool.OneSetOfLimits | packages/server/src/agents/graph-pool.ts:189-200 | that determines the limits |
| GraphPool.LevelGroups | packages/server/src/agents/graph-pool.ts:211-219 | one group for each limited model: exactly its levels, and the room it has left |
| GraphPool.GraphPool.TickAsk | packages/server/src/agents/graph-pool.ts:141-167 | one tick at a time asks, when neither is full, for all that the pool and the agent slots leave |
| GraphPool.GraphPool.TickAnswer | packages/server/src/agents/graph-pool.ts:168-174 | each thread handed over is checked and reserved before the next |
| GraphPool.GraphPool.Run | packages/server/src/agents/graph-pool.ts:222-233 | a thread starts exactly when no limit of its model is reached |
| GraphPool.StartsUnlessFull | packages/server/src/agents/graph-pool.ts:179-233 | a thread starts on its own model, or the one its level names, unless as many run on that as some level of it allows; no other thread is touched |
| GraphPool.TickTakesWhatIsLeft | packages/server/src/agents/graph-pool.ts:160-167 | in a run, too, a tick asks for all that is left, or for nothing when there is nothing |
| GraphPool.NoModelPastItsLimit | packages/server/src/agents/graph-pool.ts:222-233 | in every run of ticks, starts and ends no limited model has more threads than the lowest limit of its levels |
| GraphPool.NeverPastThePoolSize | packages/server/src/agents/graph-pool.ts:160-174 | nor the pool more than its size, counting those a tick may still be handed |
| GraphPool.StartIsCountedWhen | packages/server/src/agents/graph-pool.ts:233-234 | starting a thread keeps the count right if and only if it is not already running here |
| GraphPool.TurnsStayWithinThePool | packages/server/src/agents/graph-pool.ts:222-274 | the turns under way are those counted, at all times of a run, if and only if no start in it is of a thread still running; then never more than the pool's size |
| GraphPool.ReclaimedThreadRunsTwice | packages/server/src/agents/graph-pool.ts:222-274 | handed over again while it runs, a thread is counted once and runs twice |
| GraphPool.ClaimedThreadsAllStart | packages/server/src/agents/graph-pool.ts:204-234 | what the queue hands over within the reported room, on the levels' own models, starts in full whatever turns end meanwhile |
| Documents.Blocks | graph-rag/src/documents.js:36-67 | blocks are slices of the text, in order and apart, that leave out only line breaks and blank lines; none is blank |
| DocumentLines.BlocksFollowTheLines | graph-rag/src/documents.js:36-67 | every heading line is a block of its own with its heading; a blank line is in none and none goes across it; any other line is in a block of text, which it starts when a speaker's turn does and which is that of the line before unless it does; blocks are whole lines |
| Documents.SplitLong | graph-rag/src/documents.js:70-82 | the parts follow one another, none empty or over 3200, their texts together the block's; each but the last is cut while more than 3200 are left, just past the last end of a sentence or line among the next 3200 when that is past 401, else at 3200 |
| Documents.Divide | graph-rag/src/documents.js:100 | every block short enough is kept and every other cut as said; nothing more is left out and no wider gap opens |
| Documents.Merge | graph-rag/src/documents.js:93-120 | runs of pieces go on exactly as long as the merger's rule lets them, named by the heading their first text comes under |
| Documents.RunIsLongEnough | graph-rag/src/documents.js:103-113 | every run but the last has at least MIN characters |
| Documents.RunIsShortEnough | graph-rag/src/documents.js:113-118 | with no heading over MAX, none exceeds MIN - 1, the widest gap and MAX together |
| Documents.RunExceedsMaxWhen | graph-rag/src/documents.js:103-118 | a run is longer than MAX if and only if its start was short of MIN and the gap and the last piece take it over |
| Documents.BoundIsReached | graph-rag/src/documents.js:90-118 | a text of two paragraphs, 399 and 3200 characters long, is one run that meets the bound, for every heading pattern that takes neither for a heading |
| DocumentLines.RunIsRightlyNamed | graph-rag/src/documents.js:93-120 | a chunk is named by the last heading line before its first text, or, with no text, before its end |
| DocumentLines.HeadingStartsARun | graph-rag/src/documents.js:101-104 | a heading line starts a chunk, unless the text before it in its chunk is all within the first 400 characters |
| DocumentChunks.LongestChunk | graph-rag/src/documents.js:90-133 | so the chunker returns one chunk of 3601 characters for it |
| DocumentChunks.Chunks | graph-rag/src/documents.js:90-133 | the chunks tile the text within those bounds, numbered in order, each with its slice and the heading its text comes under; each stops before the first heading or piece that would take it past 1800 once it has 400, and nowhere else; longer than 3200 exactly where a short start took in too much |
| DocumentChunks.EveryBreakIsOne | graph-rag/src/documents.js:91 | each line break, of either or both characters, comes to one line feed, and all else stays |
| Needs.OwnersFor | graph-rag/src/needs.js:38-44 | the loop returns the holders of the first position upward that anybody but the asker holds |
| Needs.OwnersCanSee | graph-rag/src/needs.js:33-44 | no owner is the asker, and each sees the entry's home by a position they hold |
| Needs.SomebodyIsAsked | graph-rag/src/needs.js:33-44 | there are owners if and only if anybody but the asker holds a position at or above the home |
| Needs.OwnersAreNearest | graph-rag/src/needs.js:33-44 | owners are exactly the holders, but for the asker, of the nearest such position |
| LinkedQuestions.UnionStaysAForest | graph-rag/src/needs.js:135-137 | hanging one root under another keeps the parent map a forest, so find ends |
| LinkedQuestions.UnionFinds | graph-rag/src/needs.js:136-137 | and moves exactly the questions of the first root to the second |
| LinkedQuestions.RootsAreGroups | graph-rag/src/needs.js:134-145 | two shown questions have one root if and only if a path of links among the shown ones joins them |
| LinkedQuestions.GroupLinked | graph-rag/src/needs.js:134-145 | the result is a partition into exactly the connected groups, each in the order shown |
| LinkedQuestions.GroupView | graph-rag/src/needs.js:152-176 | a group names every asker once and every question, and shows every entry any question met, in the order first met, shared if and only if every question met it and always shared it, with its best score; open while any is; it counts all askings and lasts as long as the last of them |
| LinkedQuestions.AskedAddsUp | graph-rag/src/needs.js:171 | how often a group was asked is the sum over its parts |
| Questions.BehindTellsNothing | graph-rag/src/needs.js:83-108 | a hidden meeting, showing the question and declining leave what every asker is told unchanged |
| Questions.ToldGrows | graph-rag/src/needs.js:83-108 | what an asker is told grows by exactly the names of the entries an answer gives, or of one met for the first time in the asker's sight |
| Questions.AskersCannotTell | graph-rag/src/needs.js:83-108 | two runs that differ only in what is met out of sight, who is shown a question, who declines and who gives an answer look the same to every asker at all times if and only if no entry met in the asker's sight was met before in just one of them, its name untold |
| Questions.VisibleMeetingsAreAlikeWhen | graph-rag/src/server.js:1838-1843 | one visible meeting in both runs leaves the askers alike if and only if the entry was met before in both or in neither, or its name is told already |
| Questions.VisibleMeetingIsToldWhen | graph-rag/src/server.js:1838-1843 | a visible meeting is told of if and only if the entry was not met before and its name not told already |
| Questions.HiddenMeetingSilencesVisible | graph-rag/src/server.js:1690-1699 | an entry met hidden first is not told of when it can be seen later |
| Questions.ToldIsForGood | graph-rag/src/server.js:1983-2032 | nothing an asker was told of is taken back |
| Questions.ShownOnlyToOwners | graph-rag/src/server.js:1803-1847 | over every run, whoever a question is shown to is not its asker and sees an entry it met by a position they hold |
| Questions.SharedOnlyByOwners | graph-rag/src/server.js:1983-2019 | an entry given in answer was shared by somebody, not the asker, who sees it by a position they hold |
| Questions.HowMeetingsChange | graph-rag/src/server.js:1983-2032 | whatever happens, an entry becomes shared if and only if its owner, asked about it by one of the group's open questions, chose it and the share was granted; declined, if and only if an owner asked about it dismissed the question; visible, if and only if first met in sight; and met at all only so |
| Questions.SharedExactlyWhenGiven | graph-rag/src/server.js:1983-2019 | over every run an entry has been shared with a question's asker if and only if some answer gave it so |
| Questions.HowShowingChanges | graph-rag/src/server.js:1803-1847 | a question is shown, when it meets entries unseen, to exactly their owners, and declined only by one it was put to |
| Questions.WhatAnAskerSees | graph-rag/src/needs.js:83-108 | the asker sees the question open until its date, the names of the entries shared or in sight, and whether there are any |
| Questions.RestAfter | graph-rag/src/server.js:1747-1800 | a question opens, until its date, only when its asker begins it, and otherwise changes its status only when it is closed |
| LfSplitter.Splitter.Feed | packages/server/src/util/lf-splitter.ts:35-38 | feeding emits the records the text so far has ended and keeps the rest |
| LfSplitter.Splitter.Flush | packages/server/src/util/lf-splitter.ts:39-41 | flushing emits what the rest says by the one-shot rule and empties the buffer |
| LfSplitter.Splitter.FeedAll | packages/server/src/util/lf-splitter.ts:14-43 | fed a stream in any chunks and flushed, the splitter has emitted what the whole text says |
| LfSplitter.ChunksDoNotMatter | packages/server/src/util/lf-splitter.ts:14-43 | however a stream is cut, feeding and flushing emit what the whole stream says |
| LfSplitter.ReadBackWhatWasWritten | packages/server/src/util/lf-splitter.ts:3-8 | records written one to a line come back if and only if each is nonempty, free of line feeds and not ending in a carriage return |
| LfSplitter.RecordsComeBack | packages/server/src/util/lf-splitter.ts:14-43 | records ended by a line feed, with a carriage return before it or not, come back but for empty ones, and so does a last one without an end unless it is blank |
| PiProcess.PiProcess.Send | packages/server/src/agents/pi-process.ts:83-95 | a request gets the next id, is pending with a timer, and its line is queued; after the exit nothing happens |
| PiProcess.PiProcess.WriteDone | packages/server/src/agents/pi-process.ts:110-121 | the line written leaves the queue and the next is handed over, or all are dropped |
| PiProcess.PiProcess.HandleLine | packages/server/src/agents/pi-process.ts:133-156 | a response settles its own pending request and no other |
| PiProcess.PiProcess.TimerFires | packages/server/src/agents/pi-process.ts:88-91 | a timer that was not cleared settles its request as timed out |
| PiProcess.PiProcess.SetExited | packages/server/src/agents/pi-process.ts:158-168 | the first exit settles every pending request, in order, and clears every timer |
| PiProcess.EachSettlesOnce | packages/server/src/agents/pi-process.ts:83-168 | in every interleaving each request settles at most once, is pending exactly until then, and none is pending after the exit |
| PiProcess.HowRequestsSettle | packages/server/src/agents/pi-process.ts:83-168 | a pending request settles with its own response's answer, as timed out when its own timer fires, and as gone at the first exit, and in no other way |
| PiProcess.SettlesAsItShould | packages/server/src/agents/pi-process.ts:83-168 | over every run a request has settled with an outcome if and only if, while it was pending, what settles it so came about |
| PiProcess.LinesGoOutInOrder | packages/server/src/agents/pi-process.ts:102-127 | lines reach the transport in the order queued, none twice |
| PiProcess.NoLineIsDropped | packages/server/src/agents/pi-process.ts:102-127 | while the transport works, every line is handed over or still waits |
| PiProcess.ExitIsFinal | packages/server/src/agents/pi-process.ts:107-116 | after the exit nothing more is handed over and no new request is made |
| Base64.DecodeOfEncode | packages/pi-extensions/gondolin-vm/write-script.ts:29 | decoding what was encoded gives the bytes back, for all bytes |
| Base64.AsTheStandardHasIt | packages/pi-extensions/gondolin-vm/write-script.ts:29 | the encoding has the alphabet of table 1 of RFC 4648 and gives three of the examples in its section 10 |
| WriteScript.QuotingIsUndone | packages/pi-extensions/gondolin-vm/write-script.ts:8-10 | the shell reads a quoted string back as that string, all of it quoted, if and only if it holds no NUL |
| WriteScript.DirnameIs | packages/pi-extensions/gondolin-vm/write-script.ts:12-17 | the directory of a path is what is before its last name, the root or the current one, whatever slashes end it |
| WriteScript.SlicesAreTheText | packages/pi-extensions/gondolin-vm/write-script.ts:38-40 | the slices together are the encoding, none empty or over the size |
| WriteScript.WriteFileScript | packages/pi-extensions/gondolin-vm/write-script.ts:25-44 | the loop over offsets builds the script's lines, or the size is refused |
| WriteRun.ScriptParses | packages/pi-extensions/gondolin-vm/write-script.ts:31-43 | whatever the path and the bytes, the shell reads the text as the commands meant |
| WriteRun.WritesExactly | packages/pi-extensions/gondolin-vm/write-script.ts:19-44 | run by a fresh shell the script succeeds if and only if the path fits, and then the target holds exactly the bytes, the temporary file is gone unless the path looks like an option, and no other file changed |
| WriteRun.FailingWritesNothing | packages/pi-extensions/gondolin-vm/write-script.ts:19-44 | when it fails every file but the temporary one is as it was |

## Left out

- Object keys that JavaScript gives every object ("constructor" and the like) as position ids or facets.
- Descriptions, notes, reasons and other text carried along with a decision; the default home, which compares names by locale.
- The grading model's call, its prompt and the parsing of its answer up to the list of items; whether a topic it names is a listed one is an input.
- Open mode, delegated identities and capability tables; changing the position map, the policy, the holders or the pool's limits within a run.
- A person widening an entry's home, and a write a person approves for a worker after the worker was refused.
- DerivedRuns.NobodySeesPastTheWriters: does not cover a commit that misses its guard (an overtaken write, regrade or move that lets a row down, a second write where `KeepsReads` fails), nor a restart with a mark not stored as it is, because the code does not keep the promise there; a commit is one statement.
- DerivedData.LandingIsSafeWhen: takes a threshold of at most 1, as do all members that say exactly when a write or a regrade is safe; that the guard is enough needs no threshold.
- ReadMarks.ReadMarks.RecordReads: stores a mark at once; a statement that fails or is cut off by the restart, and the cap of 100,000 rows on reloading, are not modelled.
- Deleting, merging and folding entries.
- Placement.EveryonesEntryMissesItsFloor: shows one such map and entry; the exact condition is the member above it.
- PendingWrites.DeadStaysDead: does not cover a share declined while still waiting, which a resolution under way may bring back.
- Intake.NoEntryIsLost: counts an entry as unreadable when its record could not be read at that moment, because the code treats a failed read and a missing record alike.
- Threads.MessagesArriveInOrder: closing a thread is not modelled, nor a race inside finishing or resuming.
- JobTable.JobTable.ClaimThreads: takes the due threads in the query's order as given; the pause while a model is out, lease times and run-after times are not modelled.
- GraphPool.NeverPastThePoolSize: requires the queue to hand over no more than was asked, which `JobTable.JobTable.ClaimThreads` promises.
- GraphPool.ClaimedThreadsAllStart: requires levels 0 to 3 and threads on their level's model, because a resumed thread that keeps another model is not in the reported room.
- The master's nudges, stalls and hand-back; handlers, the liaison, clean-up and idle release.
- DocumentLines.BlocksFollowTheLines: takes the heading and speaker patterns as any functions of a line, with no heading on a blank line.
- The embedded text of a chunk, previews, section names and extraction.
- Needs.OwnersFor: returns a set; the code sorts the names.
- LinkedQuestions.GroupView: takes times as numbers and entries by key, without the name and home they carry.
- Questions.AskersCannotTell: pairs an answer with one that gives every question the same entries; compares the set of names told, not their order; questions that join another, expiry sweeps, posting to positions, similarity scores and the database races of one call are not modelled, and the holders and the entries' homes stay fixed.
- LfSplitter.ChunksDoNotMatter: is about characters; decoding bytes cut inside a character is left to the platform.
- PiProcess.EachSettlesOnce: takes ids as numbers; a payload that overrides the id field is not modelled, nor events emitted to listeners.
- WriteRun.WritesExactly: takes the content's bytes as given (UTF-8 encoding is the platform's), compares paths as they are written (no links, no two spellings of one file), and knows no permissions or full disks; the exit status is that of the lines, not of the clean-up.
- The rest of the repository: routing, tools and HTTP, the user interface, model providers, sandboxes, settings and profiles.
