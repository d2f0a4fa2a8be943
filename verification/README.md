# A verified model of the pydsh agent harness

The harness keeps everything that matters in append-only logs. What a reader sees (the conversation
surface, projections, queues, schedules) is folded from a log, and most of the code keeps some faster copy
of such a fold in step with it: a memoised balance, per-session cells, checkpoint rows, memory over a
durable medium, an assembler over a stream. This project models those parts in Dafny and proves that the
copies and the folds agree over every run, including runs in which calls fail, are cancelled or are
interrupted by a crash.

`dafny verify dfyconfig.toml` checks the whole project.

| file | what it covers |
|---|---|
| `Prelude.dfy`, `Messages.dfy` | shared values, content blocks and messages |
| `Session.dfy`, `Pairing.dfy`, `Compaction.dfy`, `Pruner.dfy` | the session log, its surface, where it may be cut, and the two edits that rewrite it |
| `CompactionLaws.dfy`, `CompactionRaces.dfy` | what compacting the candidate region keeps, and what happens when others edit the surface meanwhile |
| `Utf8.dfy`, `Retention.dfy` | byte-exact retention of a stream's head and tail |
| `Projection.dfy`, `ColdRead.dfy`, `Durability.dfy` | folds over the log, reads from checkpoint rows, and the flush and checkpoint protocol |
| `Assembler.dfy`, `Translation.dfy`, `StreamLaws.dfy` | provider payloads to frames, frames to blocks, and their composition |
| `Payload.dfy`, `Inbox.dfy` | the tagged JSON encoding and the pending-input queues |
| `AgentRun.dfy`, `RunGrammar.dfy`, `AgentLives.dfy`, `Transcript.dfy` | the agent loop, the grammar every log of it obeys, one process after another over the same log, and what the model gets to see of it |
| `StorageDomain.dfy` | memory over a durable medium with one write at a time |
| `Schedule.dfy`, `ScheduleLaws.dfy` | durable reminders |
| `Reference.dfy`, `Mentions.dfy` | session references as URIs, and mentions inside text |

A component that changes state step by step is a class whose methods are proved equal to a function on
values (`Model()` gives the value); what the component promises is then proved about that function, over
all runs of it. The model follows the code branch by branch. Calls into plugins, providers, tools, clocks
and media are parameters that may answer anything, fail or be cancelled.

## Where the code falls short of a promise

Each of these is a theorem with the exact condition, and the model keeps what the code does.

- A replacement that names no run on the surface raises after its event is already in the log
  (src/pydsh/session/session.py:214-218), so that log can no longer be replayed. A session equals its replay
  exactly when no such append was made (`Sessions.LiveEqualsReplayed`).
- A compaction records the nodes whose numbers lie between its two ends
  (src/pydsh/compaction/basic.py:138), while the commit shadows the nodes that stand between them. The two
  agree exactly under the condition of `Compaction.RecordedIsShadowed`. After one compaction of an increasing
  surface they agree for the next region from the front exactly when the first took the whole surface
  (`CompactionLaws.SecondRecordsExactly`); `CompactionLaws.SecondCompactionDropsANode` is a run of five messages
  in which the second compaction shadows a node it never summarised. The refusal of an inverted region cannot
  be reached: such a region has already been refused as empty (`CompactionLaws.InvertedIsEmpty`).
- The same filter can reach past the candidate into the nodes that were to be kept. Committing the first n nodes
  keeps everything from position n on if and only if no node there is numbered between the two ends
  (`CompactionLaws.CandidateCommits`); a pruned tool result at the end of the candidate is enough for a
  compaction to swallow the whole window it promises to keep (`CompactionLaws.PrunedResultTakesTheWindow`).
- Nothing stops others from replacing nodes while a compaction waits for its summary
  (src/pydsh/compaction/basic.py:173). Its checkpoint commits if and only if both ends of its region are still on
  the surface (`CompactionRaces.CheckpointCommits`); otherwise the log can never be replayed again
  (`CompactionRaces.CheckpointReplays`). Two compactions of one region at the same time always end that way
  (`CompactionRaces.LastOfTwoFails`).
- Publishing a projection's change is outside the containment (src/pydsh/session/projection.py:262-274): with a
  subscriber, a unit without a value for its new state ends the walk, and the units behind it miss the event for
  good. One event keeps every cell in agreement with the log if and only if it reaches every live cell
  (`Projection.DriveKeepsAgreement`, `Projection.StepAgreesExactly`); `Projection.LaterUnitMissesAnEvent` shows a
  unit that is unfaulted, at the log's end and wrong, and the untrue row a checkpoint stores for it. An append
  that fails after its event is in the log is not broadcast either, with the same effect.
- A tool's result is logged as a result and then, as the input of the next step, as a user message
  (src/pydsh/agent/agent.py:282-299), and both kinds stand on the surface: the next request holds it twice
  (`Transcripts.ResultsAreSaidTwice`).
- A resumed agent starts with empty queues over its old log (src/pydsh/agent/registry.py:134-142,
  src/pydsh/agent/agent.py:130); nothing calls the inbox's replay. What was waiting is in no queue, was neither
  claimed nor dropped, and the log stops replaying to the live queues (`Inboxes.RestartLosesAMessage`). Both laws
  survive a restart if and only if nothing was waiting (`Inboxes.RestartSurvivesExactly`); resuming through the
  replay, the log would always replay to the live queues (`AgentLives.ReplayedHandover`).
- The claim is logged before the turn starts (src/pydsh/agent/agent.py:247-268). A message claimed by a process that
  is killed in between is in no queue and in no turn (`AgentLives.KillStrandsAMessage`), and no way of resuming
  finds it: over all lives nothing is lost or handled twice exactly when that never happens and, with the queues
  the code gives a resumed agent, nothing waited at a restart (`AgentLives.HandledOnceExactly`,
  `AgentLives.ReplayedHandover`).
- A process killed inside a turn leaves the turn open, and the next turn starts inside it. The grammar then holds
  for each process's own stretch and turns are still numbered one after another (`AgentLives.KilledLogsStand`);
  the whole log obeys the grammar if and only if every process that started a turn found each turn before it ended
  (`AgentLives.KillBreaksTheNesting`).
- A checkpoint of a session that has left the store is written without a flush (src/pydsh/session/cache.py:178).
  That keeps stored rows behind the durable log if and only if the log already holds what the rows were folded
  from (`Durability.UnflushedExactly`); `Durability.RemovedSessionStoresUntrueRows` is a run after which the rows
  no longer lead and are folds of an event the log never had.
- The entry points create a session under its id instead of resuming it (src/pydsh/boot/harness.py:192,
  src/pydsh/runtime/server.py:248), and creating looks only at memory (src/pydsh/session/store.py:68-90). After a
  restart the new session's flushes replace the first events of the stored log and leave the others. This keeps
  the protocol's invariant if and only if nothing is stored for the id (`Durability.RecreatedExactly`);
  `Durability.RecreatedSessionMixesLogs` is a run that ends with a stored log no session ever had, and the rows of
  the old session, whose identity is the same, are served as current (`Durability.RowsOfTheOldSessionAreServed`).
- A null global value is stored as never written (src/pydsh/storage/domain.py:416-423), and a global without a
  check can be set to null: the next open shows the initial value (`StorageDomains.NullGlobalIsForgotten`). A
  fresh open gives memory after every run if and only if checks settle and null cannot be set over an initial
  value that is not null (`StorageDomains.ReopensExactly`).
- A free-form dict that uses a reserved tag key comes back as a block, a message or a source, and keys that are no
  strings come back as strings (`Payloads.RoundTripExactly`, `Payloads.ReservedKeyIsTakenForABlock`).
- A storage domain over a check that would change its own answer forks memory from the medium after one put
  (`StorageDomains.UnsettledCheckForks`).
- The JSON file unit changes its copy before it writes the file, so a write reported as failed can surface
  with the next one (`StorageDomains.RefusedWriteResurfaces`).
- A session id with a high surrogate right before a low one decodes to a different id
  (`References.RoundTripExactly`), although the module promises a round trip for any id.
- The re-check of the target inside a tick (src/pydsh/governance/schedule.py:193-194) never skips anything:
  the list it walks was computed for the same stamp.

## Model

| member | source | states |
|---|---|---|
| Sessions.Session.Append | src/pydsh/session/session.py:178-224 | appending refuses an unknown type, a misplaced replacement or data that is not lossless JSON before anything changes; otherwise it commits, or commits and then fails, exactly as the specification step does |
| Sessions.Session.ApplySurfaceReplace | src/pydsh/session/session.py:226-262 | a replacement succeeds exactly when its ends name a run by position, and then splices that run |
| Sessions.Session.Seed | src/pydsh/session/session.py:135-151 | seeding one stored event is one step of the replay fold |
| Sessions.Session.FromEvents | src/pydsh/session/session.py:318-333 | restoring a session gives exactly the replay of its events |
| Sessions.DeriveMessages | src/pydsh/session/session.py:264-291 | a surface node speaks to the model exactly when it is a user message, or an answer or result whose data holds a message; the derived messages are the data of those nodes in surface order, one for one when every node holds a message |
| Sessions.AppendSeedsTheSame | src/pydsh/session/session.py:135-224 | appending an event live and seeding it later change the view the same way |
| Sessions.LiveEqualsReplayed | src/pydsh/session/session.py:295-333 | over every run, the replay of the log equals the live view exactly when no append committed a replacement that names no run |
| Sessions.FailedReplaceIsCommitted | src/pydsh/session/session.py:214-218 | a concrete replacement that is refused, yet whose event stays in the log and stops its replay |
| Sessions.ReplayFailureSticks | src/pydsh/session/session.py:135-151 | a log whose prefix cannot be replayed cannot be replayed |
| Sessions.SurfacePartition | src/pydsh/session/session.py:243-262 | over every run the surface events are the surface, the shadowed lists and the events of failed replacements, each counted once |
| Sessions.NothingLost | src/pydsh/session/session.py:226-262 | a surface event is missing from the surface and the shadowed lists exactly when some committed replacement named no run |
| Sessions.ShadowedOnce | src/pydsh/session/session.py:243-262 | when every replacement named its run, each surface event is on the surface or shadowed, once, and nothing else is |
| Sessions.RunNumbered | src/pydsh/session/session.py:205-213 | events are numbered one after another from 1 |
| Sessions.RunWellFormed | src/pydsh/session/session.py:169-262 | the surface of every run has no duplicates and names only logged surface events |
| Pairing.Walk | src/pydsh/session/pairing.py:72-92 | the walk returns the balanced cuts and positions, or the first node at which more is answered than was asked |
| Pairing.BalanceCache.SurfaceBalance | src/pydsh/session/pairing.py:52-94 | the memoised answer is a fresh recomputation, and the cache stays coherent with the session |
| Pairing.BalanceCache.Cut | src/pydsh/session/pairing.py:97-112 | a cut is balanced exactly when no call is outstanding at that position |
| Pairing.HitIsFresh | src/pydsh/session/pairing.py:62-70 | whenever generation and length match, the cached cuts equal a recomputation |
| Pairing.AppendKeepsCoherent | src/pydsh/session/pairing.py:62-94 | no append, refused or failing ones included, makes the cache stale |
| Pairing.NeverStale | src/pydsh/session/pairing.py:62-94 | over every history of writes and questions a hit equals a recomputation |
| Pairing.SpliceShifts | src/pydsh/session/pairing.py:72-86 | replacing a run moves every later count by the same amount and no earlier one |
| Pairing.BalancedReplacement | src/pydsh/session/pairing.py:72-86 | the counts at all surviving cuts are kept exactly when the new node weighs what the run weighed |
| Pairing.SafeAppendNonNegative | src/pydsh/session/pairing.py:82-86 | an append the system makes keeps every prefix count non-negative |
| Pairing.NeverCorrupt | src/pydsh/session/pairing.py:82-86 | over every run of such appends the balance never reports corruption |
| Pairing.CheckpointIsSafe | src/pydsh/compaction/basic.py:147-206 | a checkpoint over a run with balanced edges leaves the counts at the surviving cuts unchanged |
| Pairing.PruneIsSafe | src/pydsh/bounded/pruner.py:175-200 | replacing one tool result by another changes no count |
| Compaction.BasicCompaction.CandidateRegion | src/pydsh/compaction/basic.py:79-94 | the region is the longest surface prefix before the kept tail that ends on a balanced cut, or there is none |
| Compaction.BasicCompaction.CheckRegion | src/pydsh/compaction/basic.py:137-158 | which regions are refused and why, in the order of the checks |
| Compaction.BasicCompaction.CompactRegion | src/pydsh/compaction/basic.py:128-218 | the answer and the session afterwards for a refused, a failed and a committed compaction, whatever others append or replace during the summary; what the log then holds, record by record: the start with its two ends, the recorded nodes, a user message of one text block that is the prefix and the summary, standing for the recorded nodes and naming its sources, and an end that says failed exactly when the summary failed; a checkpoint whose ends are gone leaves no end record |
| Compaction.BasicCompaction.CompactNow | src/pydsh/compaction/basic.py:116-126 | nothing happens without a candidate; otherwise the longest balanced prefix outside the kept window is compacted by the numbers of its two ends, the answer is that compaction's, and the log holds its records |
| Compaction.CommitIsPositional | src/pydsh/compaction/basic.py:173-206 | the commit replaces one run by position, from the first to the last node numbered in range; the nodes before and after that run and everything appended meanwhile stay in order |
| Compaction.CommitKeepsPairing | src/pydsh/compaction/basic.py:147-206 | a committed compaction keeps the counts at every surviving cut |
| Compaction.RecordedIsShadowed | src/pydsh/compaction/basic.py:138-206 | the recorded nodes are the shadowed ones if and only if every node of the run has a number between those of its ends |
| Compaction.IncreasingRecordsTheRun | src/pydsh/compaction/basic.py:138-206 | on an increasing surface the recorded nodes are exactly the shadowed run |
| CompactionLaws.CandidateCommits | src/pydsh/compaction/basic.py:79-206 | committing the first n nodes shrinks the surface by n - 1 and leaves everything from position n on, the kept window and what was appended meanwhile, if and only if no node from position n on is numbered between the two ends |
| CompactionLaws.CandidateIsAccepted | src/pydsh/compaction/basic.py:128-160 | while nothing behind it is in range, a balanced candidate passes every check |
| CompactionLaws.IncreasingCandidate | src/pydsh/compaction/basic.py:79-138 | on an increasing surface every candidate meets that condition and records exactly its n nodes |
| CompactionLaws.InvertedIsEmpty | src/pydsh/compaction/basic.py:138-149 | a candidate whose first number is above its last is refused as empty, so the inverted refusal is unreachable |
| CompactionLaws.PrunedResultTakesTheWindow | src/pydsh/compaction/basic.py:116-206 | a concrete log whose last candidate node was pruned: every check passes and the commit shadows all five nodes, the two to be kept included |
| CompactionLaws.CheckpointThenIncreasing | src/pydsh/compaction/basic.py:128-206 | compacting a candidate of an increasing surface, with any appends meanwhile and afterwards, leaves the checkpoint in front of an increasing rest, numbered below its neighbour exactly when the whole surface was taken |
| CompactionLaws.SecondRecordsExactly | src/pydsh/compaction/basic.py:138-206 | over such a run the next compaction from the front records what it shadows if and only if the first took the whole surface and nothing joined it meanwhile |
| CompactionLaws.SecondCompactionDropsANode | src/pydsh/compaction/basic.py:138-206 | a concrete run of two accepted compactions whose second summary record lists two nodes while its checkpoint shadows three |
| CompactionRaces.CheckpointCommits | src/pydsh/compaction/basic.py:173-206 | whatever others append or replace while the summary is written, the checkpoint replaces what stands between its ends if and only if both ends are still on the surface, and otherwise leaves the surface as it is |
| CompactionRaces.CheckpointReplays | src/pydsh/compaction/basic.py:173-206 | the log with the checkpoint in it replays to the live view if and only if every earlier replacement named its run and both ends were still there; otherwise replaying it fails |
| CompactionRaces.LastOfTwoFails | src/pydsh/compaction/basic.py:128-206 | of two compactions of one region at the same time the later checkpoint never takes effect, and the log can never be replayed again |
| CompactionRaces.SafeEditsMeanwhile | src/pydsh/compaction/basic.py:147-206 | when others append and replace only safely and both ends survive, the checkpoint over whatever now stands between them is safe and no outstanding count turns negative |
| Pruner.ResolveConfig | src/pydsh/bounded/pruner.py:43-76 | settings with their defaults filled in are accepted, unchanged, exactly when no key is unknown and they are workable; unknown keys and then the threshold are refused first, and each other refusal names a setting that is wrong |
| Pruner.WorkableIsAccepted | src/pydsh/bounded/pruner.py:43-76 | a setting is accepted exactly when its head, tail and marker fit its threshold |
| Pruner.ToolResultPruner.PruneContent | src/pydsh/bounded/pruner.py:96-152 | content over the threshold is pruned to the specified cut, other content is left alone, and neither internal error is reachable |
| Pruner.CutKeeps | src/pydsh/bounded/pruner.py:108-146 | the pruned text is the head, the marker once, then the tail of the joined text; other blocks stay in order |
| Pruner.NonTextIsAll | src/pydsh/bounded/pruner.py:108-146 | the other blocks a cut keeps are all that are no text, in their order |
| Pruner.PruneIsExact | src/pydsh/bounded/pruner.py:96-152 | the result fits the threshold, is strictly smaller, and is not pruned again |
| Pruner.ToolResultIsPruned | src/pydsh/bounded/pruner.py:154-225 | a tool's result is pruned exactly when its text is over the threshold, and what replaces it is the same result with its content pruned |
| Pruner.ToolResultPruner.PruneSession | src/pydsh/bounded/pruner.py:154-202 | the session afterwards is the one reached by replacing every prunable result once, in surface order |
| Pruner.PruneKeepsShape | src/pydsh/bounded/pruner.py:175-200 | pruning keeps the number of nodes, every outstanding count, and every node in its place, pruned or untouched |
| Pruner.PruningTwiceDoesNothing | src/pydsh/bounded/pruner.py:154-202 | a second pruning of the session replaces nothing |
| Utf8.CharIsScalar | src/pydsh/bounded/retention.py:34-70 | the table of valid characters accepts exactly the shortest forms of Unicode scalar values (section 3 of RFC 3629) |
| Utf8.CutsAreBoundaries | src/pydsh/bounded/retention.py:34-70 | a cut of valid UTF-8 leaves valid halves exactly when it does not fall before a continuation byte |
| Utf8.TrimTrailingPartialUtf8 | src/pydsh/bounded/retention.py:46-62 | the loop computes the specified trim |
| Utf8.TrimLeadingContinuationUtf8 | src/pydsh/bounded/retention.py:65-70 | the loop computes the specified trim |
| Utf8.TrimTrailingIsLongest | src/pydsh/bounded/retention.py:46-62 | of a window cut out of valid UTF-8, the longest valid prefix is kept and at most three bytes go |
| Utf8.TrimLeadingIsLongest | src/pydsh/bounded/retention.py:65-70 | of a window cut out of valid UTF-8, the longest suffix from a boundary is kept and at most three bytes go |
| Retention.TextRetainer.Push | src/pydsh/bounded/retention.py:136-167 | after any pushes the head is the first and the tail the last bytes of the stream, within the two caps |
| Retention.TextRetainer.Finish | src/pydsh/bounded/retention.py:175-210 | the result is a function of the whole stream and the caps |
| Retention.TailWindow | src/pydsh/bounded/retention.py:150-167 | the head, the tail behind it and the omitted bytes add up to the stream, without overlap |
| Retention.FinishIsBoundarySafe | src/pydsh/bounded/retention.py:195-205 | on valid UTF-8 the kept head is the longest valid prefix of its window and the kept tail the longest valid suffix of its own; omitted and returned bytes add up, at most three bytes per cut beyond the budget's share |
| Retention.FinishWithinBudget | src/pydsh/bounded/retention.py:169-205 | something is omitted exactly when the stream exceeds the two caps, and otherwise the whole stream comes back |
| Retention.Retain | src/pydsh/bounded/retention.py:136-210 | however a stream is split into chunks the result is the same |
| Projection.FoldCell | src/pydsh/session/projection.py:188-205 | a cell folded from the start agrees with the fold of its events, stopping at the first failure |
| Projection.CellTells | src/pydsh/session/projection.py:188-205 | an agreeing cell is faulted exactly when the fold up to its watermark fails, and holds that fold otherwise |
| Projection.SessionProjections.Register | src/pydsh/session/projection.py:125-153 | registering counts references, refuses a clashing unit, and keeps every cell in agreement with the log |
| Projection.SessionProjections.Dispose | src/pydsh/session/projection.py:155-167 | the last disposer removes the unit, an earlier one only its reference |
| Projection.SessionProjections.CellFor | src/pydsh/session/projection.py:207-222 | a unit first touched mid-stream is folded from the whole log |
| Projection.SessionProjections.Drive | src/pydsh/session/projection.py:224-263 | an event walks the registrations in order up to and with the first one whose publishing raises; from agreement, every cell agrees with the longer log if and only if no live cell stands behind that one |
| Projection.DriveKeepsAgreement | src/pydsh/session/projection.py:224-274 | the same for any registrations, event and subscribers: agreement is kept exactly when the registrations not reached have no live cell |
| Projection.QuietIsHarmless | src/pydsh/session/projection.py:262-274 | without a subscriber, or when every changed unit has a value, every event reaches every cell |
| Projection.LaterUnitMissesAnEvent | src/pydsh/session/projection.py:224-274 | a concrete run of two units, one subscriber and three events that leaves the second unit unfaulted, at the end of the log and wrong, and stores an untrue row for it |
| Projection.SessionProjections.Snapshot | src/pydsh/session/projection.py:287-299 | every value is a fold of the whole log, and there is none exactly when some unit has no value |
| Projection.SessionProjections.Checkpoint | src/pydsh/session/projection.py:301-317 | the rows are the folds of the whole log |
| Projection.ValuesByKey | src/pydsh/session/projection.py:287-299 | what a snapshot's map says for each key |
| Projection.FaultIsForever | src/pydsh/session/projection.py:224-263 | a faulted unit yields no value however the log grows |
| Projection.Interleave | src/pydsh/session/projection.py:125-317 | any interleaving of register, dispose, append, failed append, read, checkpoint, subscribe and unsubscribe, performed: references equal live handles, and while every step is safe cells agree with the log |
| Projection.StepAgreesExactly | src/pydsh/session/projection.py:125-317 | from agreement, one step keeps every cell in agreement with the log if and only if its event reaches every live cell |
| Projection.DriverAgrees | src/pydsh/session/projection.py:125-317 | over every interleaving of safe steps every cell is the fold of the whole log |
| Projection.UnheardRunsAgree | src/pydsh/session/projection.py:224-263 | without subscribers and failed replacements every run is safe |
| Projection.RunIsOrderly | src/pydsh/session/projection.py:125-167 | over every interleaving, safe or not, keys are unique and references equal live handles |
| ColdRead.RestoreUnits | src/pydsh/session/projection.py:353-402 | the loop computes the specified restore, refusing included |
| ColdRead.RestoreOneIsFull | src/pydsh/session/projection.py:369-402 | from a true row and a tail that starts early enough, one unit's restore refuses or is the fold of the whole log |
| ColdRead.TailBehindTheRow | src/pydsh/session/projection.py:371-378 | a tail that starts right behind a row is enough for the fold of the whole log |
| ColdRead.RestoreIsFull | src/pydsh/session/projection.py:353-402 | the same for all units together, refusing only when a row leads the log or a unit has no value |
| ColdRead.FloorIsLatest | src/pydsh/session/projection.py:335-351 | a read starts at the position of the row that lags most when every unit has a row, and else at the front |
| ColdRead.FirstTry | src/pydsh/session/cache.py:140-155 | the first restore from true rows is a full read, unless a row leads the log |
| ColdRead.WholeLog | src/pydsh/session/cache.py:150-160 | restoring the whole log with no rows is a full read |
| ColdRead.RefreshedAreTrue | src/pydsh/session/cache.py:156-167 | the rows written back are true, whatever the log grows to |
| ColdRead.FullReadIsSnapshot | src/pydsh/session/projection.py:287-299 | a full read gives the values a live snapshot of the same log gives |
| ColdRead.ProjectionCache.ColdSnapshot | src/pydsh/session/cache.py:121-167 | for any mix of missing, outdated, lagging or leading rows, the answer is a full read of the durable log and the stored rows stay true |
| ColdRead.ProjectionCache.CachedSnapshot | src/pydsh/session/cache.py:102-119 | rows whose stored identity differs from the header's are never served; otherwise the values of the usable rows, with the least of their positions, which one of them has, and no answer at all when one of them has no value |
| ColdRead.ServedIsAPrefixFold | src/pydsh/session/cache.py:102-119 | what is served without the log is, for each unit, a fold of a prefix at least as long as reported |
| Durability.UnsavedIsSuffix | src/pydsh/session/persistence.py:171-219 | the events above the watermark are the rest of the log |
| Durability.InsertSuffix | src/pydsh/session/persistence.py:171-219 | inserting a stretch that starts inside what is stored skips nothing and duplicates nothing |
| Durability.SqliteSessionPersistence.WriteUnsaved | src/pydsh/session/persistence.py:171-219 | one transaction makes the table hold the log it was given and returns what was written |
| Durability.SqliteSessionPersistence.Flush | src/pydsh/session/persistence.py:305-315 | a flush leaves the whole log durable and the watermark at it |
| Durability.AcknowledgeSafe | src/pydsh/session/persistence.py:305-315 | an acknowledged flush covers every event present when it began |
| Durability.CrashSafe | src/pydsh/session/persistence.py:117-133 | a crash at any point, after which the session is loaded again, keeps the protocol's invariant and leaves the session at the durable log |
| Durability.EveryRunSafe | src/pydsh/session/cache.py:169-182 | over every interleaving of append, capture, commit, acknowledge, checkpoint, row write, removal, crash and creation the invariant holds, as long as rows stored without a flush are covered by the durable log and sessions are created only under ids nothing is stored for |
| Durability.SafeExactly | src/pydsh/session/cache.py:169-182 | over any chain of these steps from the empty start, the invariant holds all along if and only if every step met those two conditions |
| Durability.SafetyMeans | src/pydsh/session/cache.py:169-182 | the durable log is a gap-free prefix of the live one, acknowledged flushes are inside it, and stored rows never lead it |
| Durability.StoredRowsServeColdReads | src/pydsh/session/cache.py:121-182 | in every world such a run reaches, a cold read is answered by its first restore |
| Durability.UnflushedExactly | src/pydsh/session/cache.py:169-182 | storing rows without a flush, as for a removed session, keeps the invariant if and only if the durable log already holds what they were folded from |
| Durability.RemovedSessionStoresUntrueRows | src/pydsh/session/cache.py:169-182 | a concrete run: the rows of a removed session first lead the durable log and then, after other events were flushed, are folds of an event it never had |
| Durability.RecreatedExactly | src/pydsh/session/store.py:68-90 | after a restart, creating a session under an id that was used before keeps the invariant if and only if nothing is stored for that id |
| Durability.RecreatedLogIsOverlaid | src/pydsh/session/persistence.py:171-219 | the stored log is then the new events with the rest of the old ones behind them, and a prefix of the new session's log if and only if that is by now at least as long as the old one |
| Durability.RecreatedSessionMixesLogs | src/pydsh/session/persistence.py:171-219 | a concrete run: two events stored and checkpointed, the session created again, one event flushed, and the stored log is one that no session ever had |
| Durability.RowsOfTheOldSessionAreServed | src/pydsh/session/cache.py:51-62 | the two sessions have one identity exactly when their creation times are equal, as they are by default; the rows of the first are served and are no fold of any prefix of the stored log |
| Assembler.BlockAssembler.Push | src/pydsh/agent/assembler.py:85-179 | one frame moves the assembler as the specification step does |
| Assembler.BlockAssembler.Finalize | src/pydsh/agent/assembler.py:181-198 | everything open is closed, tool calls in index order, calls nothing arrived for dropped |
| Assembler.BlockAssembler.GetBlocks | src/pydsh/agent/assembler.py:75-78 | the blocks come out in the order they were opened, each closed block once: orders never fall and the members are exactly those that are closed |
| Assembler.SortedIs | src/pydsh/agent/assembler.py:75-78 | sorting distinct orders gives the one rising sequence with those members |
| Assembler.FinalizeTwice | src/pydsh/agent/assembler.py:181-198 | finalizing again does nothing, from any state |
| Translation.Translator.OnCall | src/pydsh/llm/adapters/openai_compatible.py:352-376 | a call fragment updates its own block, opens one when its wire index is new, and emits the specified frames |
| Translation.Translator.OnChoice | src/pydsh/llm/adapters/openai_compatible.py:314-380 | reasoning, content, calls and finish reason of one choice, in that order |
| Translation.Translator.OnDone | src/pydsh/llm/adapters/openai_compatible.py:275-312 | the held tail: every block whole in harness order, usage, and a finish that turns an empty clean stop into an error |
| Translation.Translate | src/pydsh/llm/adapters/openai_compatible.py:260-391 | the frames for any payloads, and how the stream ends: done, malformed, no object, or closed early |
| Translation.LastReasonDecides | src/pydsh/llm/adapters/openai_compatible.py:176-312 | a stream stopped cleanly exactly when its last reason is "stop" or it gave none, and something came; "tool_calls" and "length" finish as such, and anything else is an error |
| StreamLaws.StartIsRedundant | src/pydsh/agent/assembler.py:106-129 | from any state, announcing a block right before its delta changes nothing |
| StreamLaws.AssemblerFollows | src/pydsh/agent/assembler.py:85-129 | the simulation: after any translated stream, with or without block starts, assembler orders are the harness indices and every block holds its concatenated deltas |
| StreamLaws.TranslateThenAssemble | src/pydsh/llm/adapters/openai_compatible.py:260-391 | the assembled blocks are the answer the raw deltas spell out: first-appearance order, concatenated text and arguments, last id and name |
| StreamLaws.EdgesOnlyKeepHollowCalls | src/pydsh/agent/assembler.py:181-198 | dropping every block start and end only loses the calls that never received anything |
| StreamLaws.BrokenStreamKeepsTheRest | src/pydsh/agent/assembler.py:181-198 | a stream that broke off, once finalized, gives every block that received anything |
| StreamLaws.Exchange | src/pydsh/llm/adapters/openai_compatible.py:260-391 | translating, pushing and finalizing a whole exchange gives the answer, usage and finish the payloads spell out, or its non-hollow part when the stream broke; the last finish reason given decides the finish |
| Payloads.MessageRoundTrips | src/pydsh/message/payload.py:38-145 | every message comes back as it was, however deeply its tool results nest |
| Payloads.MissingFieldsTakeDefaults | src/pydsh/message/payload.py:131-141 | a source stored with any of its optional fields missing reads as one with the defaults for those |
| Payloads.LastSpellingIsKept | src/pydsh/message/payload.py:83-84 | a dict with keys that are no strings is stored under the spellings of its keys, and of two entries with one spelling the later is kept |
| Payloads.RoundTripExactly | src/pydsh/message/payload.py:38-145 | a payload comes back as it was if and only if it holds no tuple, no unknown dataclass, no key that is no string and no dict of its own with a reserved key |
| Payloads.ReservedKeyIsTakenForABlock | src/pydsh/message/payload.py:98-145 | a concrete dict that comes back as a block |
| Inboxes.Replay | src/pydsh/agent/inbox.py:166-183 | the loop computes the specified replay, and a log replays exactly when every splice in it names a known queue and holds messages that decode |
| Inboxes.Inbox.SpliceQueue | src/pydsh/agent/inbox.py:124-163 | the event and the queue change of one splice, with Python's slice bounds, and nothing at all for a no-op or an unknown queue |
| Inboxes.Inbox.Append | src/pydsh/agent/inbox.py:76-78 | the message comes to the end of its queue and the other queue stays; refused exactly for an unknown queue |
| Inboxes.Inbox.Prepend | src/pydsh/agent/inbox.py:80-82 | the message comes to the front of its queue and the other queue stays; refused exactly for an unknown queue |
| Inboxes.Inbox.Claim | src/pydsh/agent/inbox.py:84-99 | the whole step queue then the one prompt at the head; empty exactly when nothing is pending |
| Inboxes.Inbox.Remove | src/pydsh/agent/inbox.py:101-116 | takes out the first waiting message with the id, from the step queue if it is there and else from the turn queue, leaves all others as they were, and says whether there was one |
| Inboxes.Inbox.Clear | src/pydsh/agent/inbox.py:118-121 | everything waiting is dropped |
| Inboxes.ReplayIsLive | src/pydsh/agent/inbox.py:166-183 | from any state whose log replays to its queues, after every sequence of operations the replayed queues equal the live ones |
| Inboxes.EveryMessageIsSomewhereOnce | src/pydsh/agent/inbox.py:76-163 | of one inbox every delivered message is at all times pending, claimed or dropped, as often as it was delivered |
| Inboxes.RestartSurvivesExactly | src/pydsh/agent/agent.py:125-134 | a restart with empty queues keeps replay equal to live over everything done later, and every message accounted for, if and only if nothing was waiting |
| Inboxes.RestartLosesAMessage | src/pydsh/agent/registry.py:134-142 | a concrete restart: the waiting message is in no queue, neither claimed nor dropped, and after the next delivery the log replays to two messages where one is live |
| Inboxes.FirstComeFirstServed | src/pydsh/agent/inbox.py:84-99 | what was claimed from a queue followed by what waits in it keeps the order of delivery, complete when nothing was dropped |
| AgentRuns.Agent.constructor | src/pydsh/agent/agent.py:125-149 | turn counting resumes at the highest turn number in the log, and the queues start empty over it |
| AgentRuns.Agent.Stream | src/pydsh/agent/agent.py:456-488 | each retried attempt starts a new assembler; the kept one holds exactly the last attempt's frames |
| AgentRuns.Agent.ExecuteToolCalls | src/pydsh/agent/agent.py:490-540 | a call and its result per tool call, in call order, and the results as the next input |
| AgentRuns.CallsRunInOrder | src/pydsh/agent/agent.py:490-540 | running the calls of a message runs its tool-call blocks in their order, each followed by its result |
| AgentRuns.Agent.RunStep | src/pydsh/agent/agent.py:342-388 | the events and outcome of one step for every way its calls out may answer or fail; a step that goes on told its reply and ran every tool-call block of that reply in the order the blocks stand in it, call and result in turn, and goes on with those results in that order; one that completes the turn had no call to run |
| AgentRuns.StepShows | src/pydsh/agent/assembler.py:200-202 | the same for every step: the positions of the calls in the reply rise and leave none out, the k-th call event is the block at the k-th of them, and the k-th result answers it by its id with what that call came to |
| AgentRuns.Agent.RunTurn | src/pydsh/agent/agent.py:263-316 | the events of a whole turn, always closed, and whether an exception escapes |
| AgentRuns.RoundHears | src/pydsh/agent/agent.py:278-340 | every round takes in exactly what was pending, what a hook put in its place, or nothing |
| AgentRuns.InputIsHeard | src/pydsh/agent/agent.py:263-340 | the messages a turn claimed are the first that enter its log, all of them and in order, when no hook decides otherwise; a turn whose first round is stopped takes in nothing, and the messages of a hook that decides come instead |
| AgentRuns.RaisedExactly | src/pydsh/agent/agent.py:300-316 | an exception leaves a turn exactly when its end record says that it failed |
| AgentRuns.Agent.DrainInbox | src/pydsh/agent/agent.py:240-261 | claims the inbox and runs turns one after another until nothing is pending, the activity is cancelled or a turn raises; the branch for an empty claim cannot be reached |
| AgentLives.EveryLogIsWellFormed | src/pydsh/agent/agent.py:240-388 | over every life of the agent in which no process is killed, restarts included, the log obeys the grammar and rests between turns |
| AgentLives.EveryMessageIsAccounted | src/pydsh/agent/agent.py:240-268 | over every life of the agent, whatever fails and wherever processes are killed, a delivered message is waiting, dropped, the input of a turn, was waiting when a process took over with empty queues, or was claimed by a process killed before it started the turn, together as often as it was delivered |
| AgentLives.HandledIsHeard | src/pydsh/agent/agent.py:240-290 | over lives without kills and hooks that keep input out, the log holds each message that was part of a turn's input as something a user said, as often as it was |
| AgentLives.HandledOnceExactly | src/pydsh/agent/registry.py:134-142 | with the queues a resumed agent gets, no message is lost or handled twice if and only if every process that was followed by another ended with nothing waiting and none was killed between a claim and the start of its turn |
| AgentLives.EmptyHandoverReplays | src/pydsh/agent/registry.py:134-142 | while every process followed by another ends with nothing waiting, killed or not, the log also replays to the live queues of every process |
| AgentLives.ReplayedHandover | src/pydsh/agent/inbox.py:166-183 | resumed through the replay instead, the log replays to exactly what is waiting, however each process ended, and nothing is lost or handled twice if and only if none was killed between a claim and the start of its turn |
| AgentLives.KillStrandsAMessage | src/pydsh/agent/agent.py:247-268 | a concrete life: one message delivered and claimed, then a kill; it is in no queue, in no turn and not dropped |
| AgentLives.KilledLogsStand | src/pydsh/agent/agent.py:240-388 | over processes killed anywhere, each stretch of the log obeys the grammar, turns are numbered 1, 2, 3 and so on across all of them, and the outstanding count is the calls asked for and not answered |
| AgentLives.KillBreaksTheNesting | src/pydsh/agent/agent.py:246-268 | over processes killed anywhere, the whole log obeys the grammar if and only if every process that started a turn found each turn started before ended |
| AgentLives.KilledLogsNeverCorrupt | src/pydsh/session/pairing.py:72-86 | no log of killed processes makes the balance report corruption either; the outstanding count is what the last one stands at |
| RunGrammar.ResultsAnswer | src/pydsh/agent/agent.py:508-540 | calls are answered one by one in the order they were asked |
| RunGrammar.StepIsWellFormed | src/pydsh/agent/agent.py:342-388 | a step runs all its calls or none, and its outcome says which |
| RunGrammar.GoesOnOnlyBehindCalls | src/pydsh/agent/agent.py:269-299 | where the grammar lets a turn take input or another step: at its start or behind a step that ran calls, below the limit |
| RunGrammar.ForeignAnywhere | src/pydsh/agent/agent.py:263-316 | events of others anywhere in the log do not change where it stands |
| RunGrammar.TurnsNest | src/pydsh/agent/agent.py:246-268 | turns are numbered 1, 2, 3 and so on, each with its one end before the next start |
| RunGrammar.StepsNest | src/pydsh/agent/agent.py:269-299 | the steps of every turn run from 1 to at most the limit, each with its one end |
| RunGrammar.OutstandingIsUnanswered | src/pydsh/agent/agent.py:366-388 | from any standing, the outstanding count moves by what the events weigh: it is the calls whose step ended without running them plus those the open step still owes |
| RunGrammar.SurfaceWeighsTheLog | src/pydsh/session/pairing.py:30-38 | replayed through the session with safe replacements by hooks among the events, the surface weighs what the log weighs and every append was safe |
| AgentLives.AgentLogsNeverCorrupt | src/pydsh/session/pairing.py:72-86 | while no process is killed, no agent log makes the balance report corruption, hooks that compact and prune included; at rest the outstanding count is the calls left unrun |
| Transcripts.ModelSeesTheLog | src/pydsh/session/session.py:264-291 | of any agent log in which hooks replace nothing, the messages derived for the next request are what users said, every reply and every tool result, in the order of the log |
| Transcripts.ResultsAreSaidTwice | src/pydsh/agent/agent.py:269-299 | when a step goes on and the next step's hooks have no opinion, the log up to that step says each result twice to the model |
| StorageDomains.LoadAfterWrite | src/pydsh/storage/domain.py:386-434 | for a write whose value opening gives back, writing the medium and then opening it is opening it and then writing memory |
| StorageDomains.EveryRunKeeps | src/pydsh/storage/domain.py:163-265 | when every accepted value is one opening gives back, the invariant holds over every interleaving of requests, slots, landing and failing writes and closing |
| StorageDomains.MemoryIsTheMedium | src/pydsh/storage/domain.py:163-265 | under the invariant, with the slot free a fresh open gives exactly memory; otherwise only the one write in flight is ahead; memory and announcements are those of running the jobs one at a time in acceptance order |
| StorageDomains.EachJobTakesEffect | src/pydsh/storage/domain.py:163-265 | in every serial order each job has its own effect on the records and the global value its predecessors left, announces just that, and changes nothing else; a failed one has none |
| StorageDomains.DeleteDeletes | src/pydsh/storage/domain.py:182-202 | from any state at rest, after a deletion has run the record is in neither memory nor the medium, everything else is as it was, and the deletion is announced exactly when there was a record |
| StorageDomains.PutStores | src/pydsh/storage/domain.py:163-180 | from any state at rest, both stores afterwards hold what the check makes of the value, and a refused value changes nothing |
| StorageDomains.UpdateStores | src/pydsh/storage/domain.py:204-235 | from any state at rest, both stores afterwards hold what the check makes of the changed record; without the record, when changing it raises or when the check refuses, nothing is written |
| StorageDomains.SetStores | src/pydsh/storage/domain.py:248-265 | from any state at rest, both stores afterwards hold what the check makes of the global value, and a refused value changes nothing |
| StorageDomains.QuietIsAtRest | src/pydsh/storage/domain.py:163-265 | a domain just opened is at rest, and so is every run with nothing queued, nothing under way and no closing |
| StorageDomains.ReopensExactly | src/pydsh/storage/domain.py:163-434 | a fresh open gives memory after every run on every medium that can be opened if and only if checks settle and null cannot be set over an initial value that is not null |
| StorageDomains.CheckedGlobalSettles | src/pydsh/storage/domain.py:98-116 | the declaration's own rule keeps null out of a checked global, so then only its settling is left to ask for |
| StorageDomains.LostGlobalForks | src/pydsh/storage/domain.py:248-265 | any accepted global value that opening would not give back, null among them, is lost to a later open once set |
| StorageDomains.NullGlobalIsForgotten | src/pydsh/storage/domain.py:416-423 | a concrete domain whose global, set to null, comes back as its initial value |
| StorageDomains.NothingAfterClose | src/pydsh/storage/domain.py:315-354 | once closed nothing moves, and every write let in before had its slot |
| StorageDomains.UnsettledCheckForks | src/pydsh/storage/domain.py:163-180 | with a check that changes its own answer, one put leaves memory and a later open disagreeing |
| StorageDomains.RefusedWriteResurfaces | src/pydsh/storage/json_backend.py:115-128 | after a refused write the next one writes what an atomic unit would exactly when it covers the same place or the refused one changed nothing |
| StorageDomains.Domain.Open | src/pydsh/storage/domain.py:386-434 | opening succeeds exactly when every stored record of a declared table and a stored global pass their checks; memory then holds each record as its check gives it, nothing else, and the stored global or, when it is absent or null, the initial one |
| StorageDomains.Domain.PutRecord | src/pydsh/storage/domain.py:163-180 | a put is checked first, then refused when closing, then queued |
| StorageDomains.Domain.DeleteRecord | src/pydsh/storage/domain.py:182-202 | a delete is queued without looking at memory |
| StorageDomains.Domain.UpdateRecord | src/pydsh/storage/domain.py:204-235 | an update is queued; it reads, checks and writes inside its slot, and a change that raises writes nothing |
| StorageDomains.Domain.SetValue | src/pydsh/storage/domain.py:248-265 | setting the global value is checked first, then queued |
| StorageDomains.Domain.TakeSlot | src/pydsh/storage/domain.py:163-326 | the slot goes to the job that waited longest, decided against memory as it then stands: a put and a set send their value, a delete sends its key exactly when the record is there, an update sends the checked result of changing the record and is refused, with its reason, when there is no record, when changing it raises or when the check refuses |
| StorageDomains.Domain.FinishWrite | src/pydsh/storage/domain.py:168-178 | memory moves and the change is announced only after the write has landed |
| Schedules.MadeIsDecodable | src/pydsh/governance/schedule_domain.py:78-156 | what creating accepts, reading accepts unchanged, with a target strictly later than its stamp |
| Schedules.ReadsExactly | src/pydsh/governance/schedule_domain.py:121-156 | which stored records are read, exactly; only white space around the prompt is dropped |
| Schedules.FoldSchedules | src/pydsh/governance/schedule_domain.py:178-219 | the fold split at a stamp: every live reminder once, by target and then id |
| Schedules.ScheduleRuntime.Create | src/pydsh/governance/schedule.py:124-140 | a refused reminder leaves no trace; an accepted one is logged, is live under its id from then on, and the timer is armed for the reminders as they then are |
| Schedules.ScheduleRuntime.Delete | src/pydsh/governance/schedule.py:142-149 | a deletion is logged exactly when the reminder is live, takes just that one away, and re-arms the timer for the others |
| Schedules.ScheduleRuntime.Arm | src/pydsh/governance/schedule.py:151-170 | the timer runs exactly while there are reminders, wakes no later than any target, and wakes no sooner than the first of them unless its cap is shorter |
| Schedules.ScheduleRuntime.Tick | src/pydsh/governance/schedule.py:180-222 | exactly the overdue reminders are delivered, once each, each followed by its firing record |
| ScheduleLaws.NeverEarly | src/pydsh/governance/schedule.py:180-205 | over every run and any clock the fold never fails, no reminder is early, a one-shot comes at most once and repeats are a period apart; a reminder is live exactly when it was created, not deleted and, if it comes once, has not come yet, with its next target a period after the last delivery |
| ScheduleLaws.AcceptedAsAsked | src/pydsh/governance/schedule_domain.py:78-156 | which reminders are accepted, exactly, and that the target kept is the instant the rule asks for |
| ScheduleLaws.DeliveredAsAsked | src/pydsh/governance/schedule.py:124-205 | from the request on: the n-th delivery is at or after the instant asked for plus n periods |
| ScheduleLaws.NothingLeftOverdue | src/pydsh/governance/schedule.py:180-205 | after a tick nothing is overdue at its stamp |
| ScheduleLaws.GoneForever | src/pydsh/governance/schedule_domain.py:200-212 | a reminder that was deleted or fired its last is never delivered again |
| References.ParseEscaped | src/pydsh/query/reference.py:54-59 | reading an escaped id joins surrogate pairs and changes nothing else |
| References.EscapeLength | src/pydsh/query/reference.py:54-59 | printable ASCII is written as it is, quotes, backslashes and the controls that have a letter take two characters, everything else six for each UTF-16 unit |
| References.Base64RoundTrips | src/pydsh/query/reference.py:54-72 | unpadded URL-safe base64 (section 5 of RFC 4648) round-trips every byte string |
| References.DecodeEncoded | src/pydsh/query/reference.py:54-89 | every encoded id is accepted and decodes to itself with surrogate pairs joined |
| References.RoundTripExactly | src/pydsh/query/reference.py:54-89 | decoding after encoding is the identity if and only if no high surrogate stands right before a low one; always for Unicode scalar values |
| References.AcceptedIsCanonical | src/pydsh/query/reference.py:62-89 | a URI is accepted if and only if it is the encoding of some id, and one id has one accepted URI |
| Mentions.LabelRoundTrips | src/pydsh/query/reference.py:92-97 | unescaping an escaped label gives it back, whatever brackets, backslashes and newlines it holds |
| Mentions.LinkMatches | src/pydsh/query/reference.py:41-43 | any text of the pattern's shape is matched in exactly that one way |
| Mentions.MentionMatches | src/pydsh/query/reference.py:100-124 | a formatted mention is found whole, with its id and, as its label, the title or the id where there is none, whatever follows it |
| Mentions.ParseReferences | src/pydsh/query/reference.py:109-124 | the loop computes leftmost substitution, failing on the first reference it cannot decode |
| Mentions.ParseFindsEveryMention | src/pydsh/query/reference.py:109-124 | text made of plain pieces, mentions and bare URIs parses back to every id and label in order, and to readable text |
| Mentions.IdsComeBack | src/pydsh/query/reference.py:109-124 | ids without split surrogate pairs come back as they were |

## Left out

- SQLite, files, fsync, sockets, asyncio's event loop and task cancellation: a medium is a value with atomic commits, and interleavings are steps between awaits.
- Plugin contexts, waterfalls and service injection: hooks are arbitrary answers that may append other events; listeners do not re-enter the dispatch that calls them.
- What makes event data lossless JSON, uuid generation and wall-clock reads: data is lossless or it is not, ids are fresh, times are inputs.
- Session headers, titles and the encoding of surface operations and requests in SQLite columns.
- The token estimate that decides whether to compact: the region and its commit are modelled, the trigger is not.
- Usage counts of a provider's answer, upper-casing an unknown finish reason and the request sent to the provider: usage is an opaque number and the reason is kept as it is.
- Decoding kept bytes with replacement characters: the bytes handed to the decoder are proved valid, so none can appear; for streams that are not valid UTF-8 only the byte counts are stated.
- Pushing text instead of bytes, and the item-counting retainer: the former encodes first, the latter is one comparison.
- Notifications of the inbox: contained and after the fact. What a change listener does with a value: it is contained; that publishing happens, and may raise, is modelled.
- The registry of open domains and routing to backends: only one opened domain is modelled.
- Payloads.RoundTripExactly: dicts with string keys are unordered, as Python compares them; a tagged dict with a field of the wrong type, which the code would carry along, is an error here, and the kind of error below a list or a dict is not kept.
- Inboxes.EveryMessageIsSomewhereOnce: appending to the session log itself is assumed to succeed.
- AgentRuns.Agent.DrainInbox: a drain is followed for as many rounds as there are arrivals, and the inbox's own events are kept beside the agent's log.
- Transcripts.ModelSeesTheLog: for logs in which hooks replace nothing; what a replacement does to the surface is the subject of Compaction.CommitIsPositional and Pruner.PruneKeepsShape.
- AgentLives.HandledIsHeard: for processes that are not killed and hooks without an opinion on a turn's first round; what other hooks do is the subject of AgentRuns.RoundHears.
- AgentLives.EveryLogIsWellFormed, AgentLives.AgentLogsNeverCorrupt: for processes that are not killed; those that are killed are the subject of AgentLives.KilledLogsStand, KillBreaksTheNesting and KilledLogsNeverCorrupt.
- AgentLives.EveryMessageIsAccounted: the log of a killed process is kept up to the kill; what a flush had not saved by then is the subject of Durability.
- AgentLives.KilledLogsNeverCorrupt: replacements by hooks are of the safe kind that compaction and pruning make; a hook that replaced a call by plain text is excluded.
- CompactionLaws.CandidateCommits: stated for appends meanwhile that replace nothing; replacements meanwhile are the subject of CompactionRaces.CheckpointCommits.
- Projection.SessionProjections.Drive: dispatch is not re-entrant; there is no watermark guard in the code, so an append from inside a listener is excluded.
- Durability.EveryRunSafe: object identities are not reused.
- StorageDomains.MemoryIsTheMedium: the unit is the atomic one its protocol describes; the JSON file unit is treated separately.
- Schedules.ScheduleRuntime.Arm: one reading of the clock serves the fold and the delay, and the wait is in milliseconds.
- ScheduleLaws.NeverEarly: ids are unused when created, change records carry the current version, and nothing else changes schedules while a tick runs.
- References.AcceptedIsCanonical: bytes outside ASCII, white space around the JSON string and JSON values other than strings are refused before the final comparison instead of by it or after it; the answer is the same.
- Goals, plan mode, todos, query filters, prompt assembly, jobs, settings, commands, the runtime server, the gateway and the console: smaller folds and plumbing whose claims rest on single branches.
