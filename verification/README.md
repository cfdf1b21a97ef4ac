# WSync in Dafny

WSync keeps a Roblox Studio session and a directory tree in step: a daemon that watches files, a CLI, and a desktop
app. This project models its most intricate logic in Dafny 4.11 and proves what that logic is relied on for.

| area | modules | main results |
|---|---|---|
| workflow engine | `References`, `Workflow`, `Validation`, `Execute`, `Idempotency` | the validator reports exactly the broken rules of a plan; every run of a validated plan, against every plugin, keeps its transaction brackets safe and stores what the plugin answered; runs that share a key record at most once under every interleaving, a run that ends well leaves the record, and exactly when one can execute again |
| directory layout | `Sorting`, `Layout`, `LayoutLaws` | the first rule and then the first path wins; the answer for one path and the answer for the whole directory agree; neither depends on listing order |
| instance tree | `PathIndex`, `Tree` | the incremental path index is the recomputed one; snapshotting a built tree gives the snapshot back; removal deletes exactly a subtree |
| delivery accounting | `Flow` | counters stay ordered at every atomic step of every interleaving; an empty queue means delivery |
| hazard scanner | `Hazards` | the walk ends on cyclic graphs; a clean scan is acyclic and complete; every error has its cause, so a harmless disk scans clean |
| marker blocks | `Markers`, `Upsert`, `UpsertLaws` | offset edits equal text replacement; exactly when a written block reads back and rewriting changes nothing |
| desktop link | `Link` | every event sequence leaves a wanted link exactly one socket or one retry |
| live-tree merge | `Merge` | nothing on disk is lost, every named live path appears, every added node carries a live one, `added` is the growth |
| codec limits | `Budget` | threaded counters accept exactly the values within the limits |

`Basics` and `Json` hold shared value types, `Steps` the runs of a step function.
`dafny verify dfyconfig.toml` checks everything.

How outside things appear: plugin replies are an arbitrary function of the request and everything that happened
before (`Execute.Plugin`); scheduling is an arbitrary sequence of actions (`Idempotency`, `Flow`) or events (`Link`);
directory listings, glob matches, canonical paths and project files are arbitrary functions (`Layout.Fs`,
`Layout.Context`, `Hazards.World`); random jitter and whether a socket opens come with each event (`Link.World`).

Where the code and its promises part, the code is modelled and the difference stated: a repeated step id makes later
checks use its last position (`Validation.NamedStepIsFirstIff`); a flat file whose instance name is empty, `.` or `..`
is answered differently by the two layout functions (`Layout.OddNamesAgreeIff`); effects repeat after a kill or an
error while writing the record (`Idempotency.FurtherExecutionIff`); a mark of an earlier subscription can spoil the
accounting (`Flow.StaleConfirmIsSoundIff`); `update_meta` of an id without a meta does not index it
(`PathIndex.UpdateKeepsIndexIff`); cutting an unterminated tag can splice a new one together
(`UpsertLaws.SplicedTag`); siblings of one name can be merged twice (`Merge.MergingAgainAddsNothingIff`).

## Model

| member | source | states |
|---|---|---|
| `References.ParseIsInverseOfSpell` | src/cli/workflow.rs:1097-1128 | a text parses to a reference exactly when it is `$`, a valid step id and dot-joined non-empty segments, and spelling the reference gives the text back |
| `References.OtherTextsAreNotReferences` | src/cli/workflow.rs:1100-1115 | a text is no reference at all exactly when it does not begin with `$` and a letter or underscore, so `$100` and `$$x` are plain texts |
| `References.MalformedIff` | src/cli/workflow.rs:1117-1128 | a text that begins like a reference has a bad step id exactly when the part up to the first dot is no identifier, and an empty segment exactly when that part is one and a dot is followed by a dot or the end |
| `References.IdentifiersArePlain` | src/cli/workflow.rs:640-652 | a valid identifier is never reference syntax or an escape, so ids survive substitution |
| `References.ParseIndexInvertsSpelling` | src/cli/workflow.rs:1151-1151 | a segment is array index n exactly when it is the decimal form of n, after any zeros and an optional plus sign, and n is below 2^64 |
| `References.ChildIsNamedEntry` | src/cli/workflow.rs:1149-1153 | one segment leads to the entry it names, the field with that key or the item with that index, and nowhere exactly when it names none |
| `References.WalkFindsIff` | src/cli/workflow.rs:1148-1155 | a path finds a value exactly where the entries its segments name, one below the other, lead to it |
| `References.WalkMissesIff` | src/cli/workflow.rs:1148-1155 | a path fails on a segment exactly when that segment names no entry of what the segments before it lead to |
| `References.WalkAppend` | src/cli/workflow.rs:1148-1155 | walking two paths joined is walking the one and then the other from there |
| `References.OneSegment` | src/cli/workflow.rs:1149-1153 | the decimal form of i leads to item i of an array, a key to the first field that has it |
| `References.TextBecomesIff` | src/cli/workflow.rs:1133-1160 | a string leaf becomes its text without one `$` if it begins with two, stays if it does not begin like a reference, and otherwise becomes exactly the value at a pointer its path leads to in the named step's result |
| `References.ReferenceFailsIff` | src/cli/workflow.rs:1144-1155 | a reference fails as unknown exactly when its step has no result, and on a missing segment exactly where the path leads nowhere |
| `References.ResolutionKeepsShape` | src/cli/workflow.rs:1130-1169 | at every pointer resolution keeps kinds, keys and lengths, and changes only string leaves, each to its own text, its unescaped text or the looked-up value |
| `References.ResolutionInsertsVerbatim` | src/cli/workflow.rs:1130-1169 | a position of the result that is none of the document lies below a reference leaf, and there the result is the value at the same place below the pointer the leaf's path leads to in the named step's result, not scanned again |
| `References.ReferencesAreReplaced` | src/cli/workflow.rs:1139-1160 | wherever a leaf of the document is a reference, the result has the stored value its path leads to |
| `References.ResolutionFailsAtALeaf` | src/cli/workflow.rs:1133-1169 | resolution fails exactly when some string leaf fails to resolve by itself |
| `References.EscapingIsUndone` | src/cli/workflow.rs:1133-1169 | prefixing `$` to every string that starts with `$` and resolving gives the original value, for all results |
| `References.ScanReferences` | src/cli/workflow.rs:1171-1195 | the references and malformed leaves collected are exactly those present, each with its location |
| `References.ScanEntries` | src/cli/workflow.rs:1171-1195 | the loop over entries collects exactly what the entries hold |
| `References.CollectDependencies` | src/cli/workflow.rs:1197-1210 | the dependencies are exactly the step ids some leaf names, each once, in the order in which the document first names them, after those already collected |
| `References.ResolutionReadsDependencies` | src/cli/workflow.rs:614-622 | resolution depends on nothing but the results of the collected dependencies |
| `Workflow.OpNamesAreUnique` | src/cli/workflow.rs:965-985 | an operation is determined by its wire name |
| `Workflow.UnsafeOperations` | src/cli/workflow.rs:987-1000 | what may not run in an atomic group is exactly `eval`, `call`, `wait`, `capture`, `playtest` and `upload` |
| `Workflow.StepRoundTrip` | src/cli/workflow.rs:1212-1222 | decoding an encoded step that its schema accepts gives the step back |
| `Workflow.ResolvedStepKeepsIdentity` | src/cli/workflow.rs:1212-1245 | a resolved step keeps its id, operation, verify flag and transaction, whatever was substituted, and passed its schema and re-check |
| `Workflow.StepResolvesIff` | src/cli/workflow.rs:1212-1243 | a step resolves exactly when its fields do, still decode for its operation and the step passes its checks again; otherwise the error says which of the three failed first |
| `Workflow.ResolutionNeverDangles` | src/cli/workflow.rs:1133-1245 | if every named step has a result and no leaf is malformed, resolution fails only on a missing segment, a schema mismatch or a re-check |
| `Validation.ValidationIssues` | src/cli/workflow.rs:413-612 | the issues found are exactly the issues that apply, for every workflow |
| `Validation.DeclarationIssues` | src/cli/workflow.rs:480-496 | transaction id issues exactly, and the definitions later passes use |
| `Validation.StepIdIssues` | src/cli/workflow.rs:498-514 | step id issues exactly, and for each id the last step that carries it |
| `Validation.BodyIssues` | src/cli/workflow.rs:516-580 | per-step issues exactly, and each group's member positions in order |
| `Validation.ReferenceIssues` | src/cli/workflow.rs:550-579 | malformed, unknown, self and forward references of a step, exactly |
| `Validation.GroupIssues` | src/cli/workflow.rs:582-611 | empty groups and atomic groups with a hole, exactly |
| `Validation.ContiguousIsHoleFree` | src/cli/workflow.rs:625-627 | the window test on member positions holds exactly when no outside step lies between two members |
| `Validation.ValidationIsWellFormedness` | src/cli/workflow.rs:413-612 | no issue applies exactly when the plan is well formed: unique valid ids, declared groups, backward references only, contiguous atomic groups of safe operations |
| `Validation.NamedStepIsFirstIff` | src/cli/workflow.rs:498-514 | the step later checks take for an id is the first that carries it exactly when no duplicate of the id is reported |
| `Validation.EarlierReferenceIsReportedIff` | src/cli/workflow.rs:557-579 | a reference to an earlier step is still reported, as a self or forward one, exactly when its own or a later step carries the id too |
| `Validation.RepeatedIdMisleads` | src/cli/workflow.rs:557-579 | `RepeatedPlan`, with an `a` before and after the step that names it, has its reference reported as forward |
| `Execute.Execute` | src/cli/workflow.rs:1523-1711 | for every plugin and validated plan: the log is safe and no bracket is left open; every event of the log is the plugin's answer to the request it stands for, and the outcome shows these answers; an error is a refused begin, the outcome reports the log faithfully, the run stops where it must and only there, `ok` means all reports ok and no transaction error, and then the whole plan ran and committed |
| `Execute.FailUnresolved` | src/cli/workflow.rs:1557-1581 | the step is reported failed, an open bracket is rolled back, and the run stops exactly inside or right after an atomic group or without keep-going |
| `Execute.EnterBracket` | src/cli/workflow.rs:1584-1626 | before a step the open bracket becomes the one the step asks for, or the run ends safely |
| `Execute.LeaveBracket` | src/cli/workflow.rs:1593-1604 | a group left behind is committed after all members succeeded, or rolled back and the run ends |
| `Execute.BeginBracket` | src/cli/workflow.rs:1606-1625 | a begin happens with no bracket open, once per group, at its first member |
| `Execute.Commit` | src/cli/workflow.rs:1681-1690 | the open group is committed, and the log and outcome say how the plugin answered that commit; a refused commit is followed by a rollback of the same group and recorded as a transaction error |
| `Execute.Rollback` | src/cli/workflow.rs:2315-2335 | the open group is rolled back, and the log says how the plugin answered that rollback; the bracket is closed and a refusal is recorded |
| `Execute.TakeStep` | src/cli/workflow.rs:1628-1675 | a step's events stay within its bracket and its failure ends the run inside a group or without keep-going |
| `Execute.RunStep` | src/cli/workflow.rs:1628-1659 | the step leaves its own events, then one report that is ok exactly when they all passed; nothing else of the bookkeeping changes |
| `Execute.Perform` | src/cli/workflow.rs:1636-1651 | given a passed check, the resolved step is executed first; verification follows only an ok response and only when asked for, is shown that response, and its failure makes the response not ok; each event is the plugin's answer |
| `Execute.Attempt` | src/cli/workflow.rs:1633-1653 | the check of the resolved step comes first and, if it fails, is all there is; an ok response means it passed, the operation succeeded and any verification confirmed it; otherwise one of them failed; each event is the plugin's answer and the response what the results will hold |
| `Execute.Confirm` | src/cli/workflow.rs:1638-1648 | verification is asked for with the resolved step and the response just received; a refusal turns the response into a verification error, anything else leaves it |
| `Execute.BracketsAreAnswered` | src/cli/workflow.rs:2315-2335 | every finish in the log carries the plugin's reply to a finish of that group with that very commit flag, and every begin the reply to that begin |
| `Execute.CallsAreAnswers` | src/cli/workflow.rs:1549-1651 | every check, operation and verification in the log is the plugin's answer to a request with the step resolved against the results of the steps before it; a verification is shown the response of the operation just before |
| `Execute.ResultsAreReplies` | src/cli/workflow.rs:1633-1659 | the stored result of each reported step is the plugin's response to that step's own operation or the error the step ended with, unresolved, precondition or verification, and no later step changes it |
| `Execute.ReportsAdvance` | src/cli/workflow.rs:1541-1659 | steps are reported in plan order, none twice |
| `Execute.BracketsNeverNest` | src/cli/workflow.rs:1592-1626 | between an acknowledged begin and any later begin a finish is sent |
| `Execute.GroupsBeginOnce` | src/cli/workflow.rs:1592-1626 | no group is begun twice in a run |
| `Execute.GroupsBeginAtFirstMember` | src/cli/workflow.rs:1592-1626 | when a group is begun the next step is its member and no earlier step is |
| `Execute.EveryBeginIsFinished` | src/cli/workflow.rs:1541-1690 | every acknowledged begin is followed by a finish of the same group before the run returns, with only its members in between |
| `Execute.CommitsAreSound` | src/cli/workflow.rs:1592-1690 | a commit is sent only after the group's begin and an ok report of every member |
| `Execute.NothingRunsAfterAFailedMember` | src/cli/workflow.rs:1661-1675 | after a failed member of an atomic group nothing but finishes is sent, keep-going or not |
| `Execute.BracketsRunSafeOperations` | src/cli/workflow.rs:536-545 | inside a bracket only atomic-safe operations of that group execute |
| `Execute.CommitsHappenOnce` | src/cli/workflow.rs:1592-1690 | after a successful commit the group is never finished again |
| `Execute.OperationsFollowChecks` | src/cli/workflow.rs:1633-1636 | in every safe log an executed operation has a passed check of its step before it |
| `Execute.ChecksComeFirst` | src/cli/workflow.rs:1633-1635 | nothing of a step happens before its check, which happens once |
| `Execute.NothingRunsAfterAFailedCheck` | src/cli/workflow.rs:1633-1635 | a step whose check failed is never executed or verified |
| `Execute.VerificationsFollowSuccess` | src/cli/workflow.rs:1638-1648 | a verification is of a step that asks for it, after its operation ran and succeeded |
| `Execute.OperationsRunOnce` | src/cli/workflow.rs:1633-1659 | no step is executed twice in a run |
| `Execute.StoredResultsSuffice` | src/cli/workflow.rs:1549-1582 | with the recorded results of exactly the earlier steps, resolution of the next step cannot meet an unknown step or a malformed reference, and what resolves differs from the plan only in its fields |
| `Execute.SuccessIsComplete` | src/cli/workflow.rs:1678-1711 | an ok run reported every step ok, committed every atomic group exactly once and rolled nothing back |
| `Execute.NoRollbackWithoutFailure` | src/cli/workflow.rs:1661-1690 | a rollback in the log implies a failure |
| `Idempotency.MutualExclusion` | src/cli/workflow.rs:1399-1408 | under every interleaving at most one run is between taking and dropping the lock |
| `Idempotency.AtMostOneRecords` | src/cli/workflow.rs:1384-1422 | at most one run records success; it is the last that executed, and every successful run is that one |
| `Idempotency.SuccessLeavesARecord` | src/cli/workflow.rs:1413-1422 | from every reachable state, a run that executes can end well, rename its record and drop its lock; then the record holds its hash and outcome, it is the one recorder, reports success, and the lock is free |
| `Idempotency.FailureLeavesNothing` | src/cli/workflow.rs:1413-1422 | a run that ends badly frees the lock, writes no record and reports a failure |
| `Idempotency.LateRunAnswers` | src/cli/workflow.rs:1390-1396 | a run that arrives after the record answers from it, or reports the collision, and changes nothing else |
| `Idempotency.SecondLookAnswers` | src/cli/workflow.rs:1399-1408 | a run that finds the record only after taking the lock answers from it and frees the lock |
| `Idempotency.TakenLockIsRespected` | src/cli/workflow.rs:2411-2421 | a run that finds the lock taken reports that another is running and changes nothing |
| `Idempotency.RecordedRunIsNotRepeated` | src/cli/workflow.rs:1384-1422 | a concrete run: the first execution records, a run that arrives later with the same hash replays its outcome, one with another hash reports the collision, and only one execution happened |
| `Idempotency.RecordEndsExecution` | src/cli/workflow.rs:1401-1422 | once a record exists it never changes and no run executes any more |
| `Idempotency.LateRunsOnlyReplay` | src/cli/workflow.rs:2357-2384 | a run that arrives after the record replays it or reports the collision, and never touches the lock |
| `Idempotency.EarlyRunsNeverRepeat` | src/cli/workflow.rs:1390-1408 | a run already under way when the record appears ends in a replay of equal hash, a collision of different hash, or a failure |
| `Idempotency.FurtherExecutionIff` | src/cli/workflow.rs:1384-1422 | in every reachable state, a further run gets to execute if and only if there is no record, nobody is past the lock, and every run that executed before is over as a failure or a kill |
| `Idempotency.OnlyARecordEndsRepetition` | src/cli/workflow.rs:1401-1422 | whatever the others do, a further execution stays possible exactly as long as there is no record |
| `Idempotency.RepeatsFollowUnrecordedRuns` | src/cli/workflow.rs:1401-1414 | in every run of the system, whenever a run begins to execute there is no record and all that executed before ended as a failure or a kill |
| `Idempotency.KilledRunIsRepeated` | src/cli/workflow.rs:2386-2433 | a concrete run: the first execution is killed, its lock cleared, and the second executes too |
| `Idempotency.WriteErrorIsRepeated` | src/cli/workflow.rs:1417-1422 | a concrete run without a kill or a stale lock: the first execution ends well, its record cannot be written, and the second executes too |
| `Idempotency.ClearingALiveLockIsUnsafe` | src/cli/workflow.rs:2411-2421 | removing the lock of an active run lets a second one past it |
| `Layout.RuleNameIsPrefix` | src/core/meta.rs:278-285 | the instance name of a rule is a prefix of the file name |
| `Layout.PrefixTestDropsNothing` | src/middleware/layout.rs:268-288 | the file-name prefix filter keeps every flat file whose name is a sibling folder's |
| `Layout.ReadFolderShape` | src/middleware/layout.rs:197-222 | the loop finds an init, other content or nothing, as the whole listing says |
| `Layout.ReadLayout` | src/middleware/layout.rs:226-333 | the loops, maps and in-place sorts compute the layout defined on the listing; which rule and which path comes first in it is said by the `LayoutLaws` rows |
| `Layout.GatherFlats` | src/middleware/layout.rs:268-288 | the map holds, for each folder name, exactly the flat files of that name in order |
| `Layout.ShadowingForm` | src/middleware/layout.rs:340-388 | the single-path search computes the form defined on the listing |
| `Layout.HiddenFile` | src/middleware/layout.rs:290-321 | a file is recorded as hidden exactly by a same-named folder entry with an init file |
| `Layout.HiddenFolder` | src/middleware/layout.rs:290-321 | a folder is recorded as hidden exactly when it is empty, by the first flat file of its name |
| `Layout.FormsAgree` | src/middleware/layout.rs:335-388 | for a listed, not excluded entry of one kind and ordinary name, `shadowing_form` names a winner exactly when the parent's layout records that entry hidden by it |
| `Layout.OddNamesAgreeIff` | src/middleware/layout.rs:340-388 | for other names the layout hides nothing, and the single-path answer differs exactly when the joined path is a folder with an init |
| `Layout.OddNameExample` | src/middleware/layout.rs:340-388 | a concrete directory on which the two answers differ |
| `Layout.EntriesArePartitioned` | src/middleware/layout.rs:226-333 | every listed entry lands in exactly one of staging, excluded, inits, children and shadows; in staging, inits and children as often as it is listed |
| `Layout.ShadowsAreRecordedOnce` | src/middleware/layout.rs:290-333 | where nothing is listed twice, a hidden entry has exactly one record and any other none |
| `Layout.WinnersAreChildren` | src/middleware/layout.rs:290-333 | the winner over a shadow is a child |
| `Layout.LayoutIgnoresListingOrder` | src/middleware/layout.rs:226-333 | permuting any directory listing leaves the layout unchanged |
| `Layout.FormIgnoresListingOrder` | src/middleware/layout.rs:340-388 | permuting any directory listing leaves the single-path answer unchanged |
| `LayoutLaws.RuleNameIff` | src/core/meta.rs:278-285 | a rule names a file by what is left of its name before the rule's suffix or, for a rule without suffix, before the last dot that is not its first character |
| `LayoutLaws.InitIsFirstRule` | src/middleware/layout.rs:164-177 | a file defines its directory by the first rule in force whose child pattern takes it and that does not exclude it, under the directory's name, and not at all exactly when no rule does |
| `LayoutLaws.FileRuleIsFirstRule` | src/middleware/layout.rs:179-187 | a file becomes an instance by the first rule in force whose pattern takes it and that does not exclude it, and not at all exactly when no rule does |
| `LayoutLaws.PairsByIff` | src/middleware/layout.rs:189-195 | a file pairs with a folder name by rule k exactly when k is its first rule, not a project's, and leaves that name |
| `LayoutLaws.InitsAreCandidates` | src/middleware/layout.rs:241-264 | the inits of a layout are exactly the listed, not excluded files that some rule takes so, each with its first rule |
| `LayoutLaws.InitsAreRanked` | src/middleware/layout.rs:262-264 | inits come in the order of their rules, files of one rule in the order of their paths, so the first matching rule wins |
| `LayoutLaws.ChildrenAreOrdered` | src/middleware/layout.rs:323-330 | children come in dictionary order of their path components |
| `LayoutLaws.EmptyFolderYieldsToBest` | src/middleware/layout.rs:290-321 | a folder is recorded as hidden by a file exactly when it is empty and that file, of all listed files that pair with it, has the first rule and, among those, the first path |
| `LayoutLaws.ShadowsAreOrdered` | src/middleware/layout.rs:290-321 | shadows are recorded folder by folder in path order, each under its folder's name |
| `PathIndex.InsertKeepsIndexIff` | src/core/tree.rs:128-136 | inserting a meta keeps the index exactly when no path the id listed is forgotten |
| `PathIndex.UpdateKeepsIndexIff` | src/core/tree.rs:138-170 | updating a meta keeps the index exactly when the id had one, or the new one lists nothing |
| `PathIndex.RemoveKeepsIndex` | src/core/tree.rs:172-198 | removing a meta keeps the index, and every other id keeps its entries |
| `PathIndex.IndexFollowsMetas` | src/core/tree.rs:128-198 | after any legal sequence of operations the index lists an id under a path exactly when its meta does, with no empty entry |
| `PathIndex.MappingAppends` | src/core/tree.rs:128-136 | mapping an id puts it behind the ids a path already has, and changes nothing else of the list |
| `PathIndex.OthersKeepTheirOrder` | src/core/tree.rs:128-198 | no insert, update or removal of an id adds, drops or reorders other ids under any path |
| `Tree.InstanceTree.constructor` | src/core/tree.rs:23-44 | the new tree is valid and carries the snapshot: shape, order, classes, properties, metas, the root's own name |
| `Tree.InstanceTree.InsertMeta` | src/core/tree.rs:128-136 | the meta is stored, and the index still follows exactly when no path the id listed before is forgotten |
| `Tree.InstanceTree.UpdateMeta` | src/core/tree.rs:138-170 | the meta is replaced, and the index still follows exactly when the id had one or nothing is listed |
| `Tree.InstanceTree.RemoveMeta` | src/core/tree.rs:172-198 | the meta and its index entries go; the index stays right |
| `Tree.InstanceTree.GetIds` | src/core/tree.rs:209-211 | an id is returned for a path exactly when its meta lists the path; nothing is returned when none does |
| `Tree.InstanceTree.InsertInstance` | src/core/tree.rs:46-58 | one fresh instance becomes the last child of its parent; the tree stays valid, nothing else changes |
| `Tree.InstanceTree.InsertInstanceWithRef` | src/core/tree.rs:78-89 | the same with the snapshot's own id |
| `Tree.InstanceTree.InsertInstanceRecursive` | src/core/tree.rs:60-76 | a whole snapshot becomes a new last child, built node for node from fresh ids; old instances and metas are unchanged |
| `Tree.InstanceTree.RemoveInstance` | src/core/tree.rs:91-117 | exactly the subtree of a non-root instance goes; every other instance, meta and index entry is as before; the root stays |
| `Tree.InstanceTree.Walk` | src/core/tree.rs:101-109 | the work list is the subtree's ids, parents before children |
| `Tree.InstanceTree.TakeSnapshot` | src/core/mod.rs:137-178 | the snapshot shows the subtree as the tree holds it, under its parent; none exactly for an unknown instance |
| `Tree.SnapshotInvertsBuild` | src/core/mod.rs:137-178 | reading back what was built gives the snapshots, up to ids, property migration and original names |
| `Tree.BuildAndRead` | src/core/mod.rs:137-178 | snapshotting a tree made from a snapshot gives that snapshot back |
| `Tree.GraftHolds` | src/core/tree.rs:60-76 | linking a held subtree under a node holds the grafted shape |
| `Tree.PruneHolds` | src/core/tree.rs:91-117 | destroying an instance holds the pruned shape |
| `Flow.FlowStaysOrdered` | src/core/queue.rs:19-101 | confirmed, settled, taken, pushed stay in this order in changes and messages at every atomic step |
| `Flow.FlowNeverGoesBack` | src/core/queue.rs:74-101 | within one subscription no counter ever decreases |
| `Flow.WaitingMeansSettled` | src/core/queue.rs:80-91 | a consumer that waits has settled all it took, and at any time at most one message is taken and unsettled |
| `Flow.QuietChannelIsSettled` | src/core/queue.rs:74-101 | with every message received, the consumer waiting and no push under way, pushed, taken and settled are the totals of the messages sent |
| `Flow.MarksAreConsistent` | src/core/queue.rs:93-101 | a mark's settled side is within its pushed side, its queued changes are exactly the difference, and its pushed side is the exact total sent before it, although the consumer runs while it is read |
| `Flow.NothingQueuedMeansDelivered` | src/core/queue.rs:125-130 | nothing queued in a mark means the consumer has come back from every earlier message that carries changes |
| `Flow.BarrierCoversTarget` | src/server/synced.rs:218-283 | once a mark settled what the target pushed, every message of the target was returned from, so the barrier confirms nothing undelivered |
| `Flow.OwnConfirmIsSound` | src/core/queue.rs:251-260 | confirming with a mark of the channel itself always keeps confirmed, settled, taken and pushed in order |
| `Flow.ConfirmingRaises` | src/core/queue.rs:251-260 | confirming raises the confirmed changes to what the mark saw settled or the barrier's target had pushed, never lowers them, and changes nothing else |
| `Flow.StaleConfirmIsSoundIff` | src/core/queue.rs:251-260 | confirming with a mark read in an earlier subscription of the id keeps the order exactly when the new channel has settled as much as the mark had |
| `Flow.MarksDoNotOutliveTheirChannel` | src/core/queue.rs:253-260 | re-subscribing at any quiet moment of any run makes every mark of the channel stale, and confirming with it is harmless exactly if it had settled nothing |
| `Flow.StaleMarkBreaksTheOrder` | src/core/queue.rs:251-260 | a reachable state with one delivered change and its mark, from which re-subscribing and confirming leaves more confirmed than settled |
| `Hazards.Scanner.Enter` | src/core/hazards.rs:252-276 | a node is entered exactly when new; meeting an ancestor reports a cycle, one is there, and the way down that comes back is its cause |
| `Hazards.Scanner.Leave` | src/core/hazards.rs:278-280 | leaving keeps every followed edge forward in finish order |
| `Hazards.Scanner.ScanProject` | src/core/hazards.rs:282-301 | the stack is restored, nothing visited is forgotten, and without errors everything mapped was followed, within the limit, and loads; every error has its cause |
| `Hazards.Scanner.ScanPath` | src/core/hazards.rs:303-321 | a mapped path is followed as a directory or nested project, or excluded |
| `Hazards.Scanner.ScanNestedProject` | src/core/hazards.rs:323-343 | a project that loads is followed one level further down, one that does not is an error caused by that |
| `Hazards.Scanner.ScanDir` | src/core/hazards.rs:345-365 | a directory within the depth limit is followed; beyond it an error is reported, and only then: its cause is a way down that ends there deeper than the limit |
| `Hazards.Scanner.WalkDir` | src/core/hazards.rs:367-407 | each canonical directory is read at most once and counted exactly when it reads; without errors it reads, what defines it loads and all its child directories are followed; an error for it is caused by a failing read |
| `Hazards.MeetsNode` | src/core/hazards.rs:252-276 | a node on the stack closes a cycle of followed edges, a left one is a forward edge, a new one goes on the stack |
| `Hazards.LeaveForward` | src/core/hazards.rs:278-280 | the node left finishes after everything it points to |
| `Hazards.ClosesCycle` | src/core/hazards.rs:252-276 | an edge to an ancestor closes a real cycle |
| `Hazards.Scan` | src/core/hazards.rs:211-225 | the scan ends on every disk whose enterable directories and loadable projects have finitely many canonical paths, restores the stack, counts exactly the directories it could read, yields a finish order with nothing wrong when clean, and reports self-containment only for real cycles; every error has its cause at the end of a way down from the project, so if every way down is within the limit, reads, loads and never comes back, the scan is clean |
| `Hazards.SuccessorsAreLedTo` | src/core/hazards.rs:282-407 | the nodes a walk must go on to are exactly those some step down leads to: child directories, the defining project, mapped directories and mapped projects |
| `Hazards.DepthCountsLevels` | src/core/hazards.rs:282-407 | the depth at the end of a way down is its number of steps, and one more for each project mapped by a project |
| `Hazards.HarmlessCausesNothing` | src/core/hazards.rs:252-407 | where every way down is within the limit, reads, loads what it asks for and never comes back, no scan error has a cause |
| `Hazards.CleanScansReachEverything` | src/core/hazards.rs:345-407 | after a clean scan everything reachable was entered and finished before where it was reached from |
| `Hazards.CleanScansAreAcyclic` | src/core/hazards.rs:252-407 | after a clean scan nothing leads back to itself |
| `Markers.Scan` | src/docsgen/markers.rs:56-82 | the cursor loop yields the blocks and orphans of the text |
| `Markers.OrphansFollowBlocks` | src/docsgen/markers.rs:65-79 | after an unterminated start tag there is no further block |
| `Markers.RemovalLeavesOutside` | src/docsgen/markers.rs:98-106 | the owned spans, extended over a newline or not, are disjoint and ascending, and cutting them all leaves exactly the text outside |
| `Markers.SortedBackToFront` | src/docsgen/markers.rs:145-145 | sorting disjoint edits by descending start puts them back to front, in whatever order they were collected |
| `Markers.Splice` | src/docsgen/markers.rs:145-151 | applying the edits one by one back to front equals replacing all spans at once |
| `Markers.PlainMarkersAreProper` | src/docsgen/markers.rs:32-38 | a marker without `<` gives tags that cannot overlap or be confused |
| `Markers.OwnMarkersArePlain` | src/docsgen/markers.rs:25-30 | the three markers of the engine have no `<` |
| `Upsert.Extract` | src/docsgen/markers.rs:86-94 | the body read is the newline-trimmed content of the first complete block |
| `Upsert.FirstBlock` | src/docsgen/markers.rs:56-94 | the first scanned block is the piece around the first start tag |
| `Upsert.TrimTakesNewlines` | src/docsgen/markers.rs:40-49 | trimming takes all newlines at both ends of a text and nothing else |
| `Upsert.BlockFormat` | src/docsgen/markers.rs:40-49 | a block is its start tag, the body without surrounding newlines on lines of its own, and its end tag; an empty body leaves one line break |
| `Upsert.Upsert` | src/docsgen/markers.rs:112-170 | the edit list gives the text before, the block, and the text after, with every other owned span gone; a missing or blank file gets the preamble |
| `Upsert.Rewrite` | src/docsgen/markers.rs:125-151 | the first block is replaced, all other owned spans are cut, every other byte stays in order |
| `Upsert.UpsertFirst` | src/docsgen/markers.rs:175-198 | the block, a separator if needed, then every byte outside the owned spans in order |
| `UpsertLaws.ExtractReadsUpsertIff` | src/docsgen/markers.rs:86-170 | `extract` after `upsert` gives back every body free of end tags exactly when no start tag ends up before the block: always with an existing block, else when the preamble or the cut text has none |
| `UpsertLaws.UpsertIsIdempotentIff` | src/docsgen/markers.rs:112-170 | a second `upsert` changes nothing exactly when the text around the written block has no start tag |
| `UpsertLaws.SingleBlockIsTidy` | src/docsgen/markers.rs:112-170 | with at most one block and no orphan both conditions hold |
| `UpsertLaws.SplicedTag` | src/docsgen/markers.rs:130-133 | a start tag inside a halved start tag is cut to a start tag, and the written body is not read back |
| `UpsertLaws.ExtractReadsUpsertFirst` | src/docsgen/markers.rs:172-198 | `extract` after `upsert_first` always gives the body back |
| `UpsertLaws.UpsertFirstIsIdempotentIff` | src/docsgen/markers.rs:172-198 | a second `upsert_first` changes nothing exactly when the text behind the block has no start tag: the preamble of a new file, or what cutting the owned spans leaves |
| `Link.BackoffMs` | desktop/src/ws.js:149-153 | every wait is within a fifth of its attempt's base, and so within 800 to 36000 ms, for every attempt and jitter |
| `Link.BackoffDoubles` | desktop/src/ws.js:149-153 | the base is a second at first, doubles with each further attempt and stays at half a minute once it gets there |
| `Link.StepKeeps` | desktop/src/ws.js:114-310 | every event keeps the link's state in agreement with its pending timers and open sockets |
| `Link.OneLifeline` | desktop/src/ws.js:114-310 | after any events a wanted link has exactly one open socket or pending retry, any other has none: no timer or socket leaks |
| `Link.LiveMeansConnected` | desktop/src/ws.js:213-218 | live implies a target, an open socket, a server hello and attempt 0 |
| `Link.WaitsAreBounded` | desktop/src/ws.js:140-164 | every retry ever pending waits the base of its attempt, give or take a fifth, and every idle timer half a minute |
| `Link.StoppedStaysStopped` | desktop/src/ws.js:220-233 | after a non-retryable shutdown no run of socket, timer and same-target events changes anything |
| `Link.DestroyedIsFinal` | desktop/src/ws.js:303-309 | after `destroy` nothing is open or pending, whatever follows |
| `Link.RetriesGoOn` | desktop/src/ws.js:155-186 | when the retry fires the link opens a socket, or schedules the next retry with one attempt more |
| `Link.RetryingStartsAfresh` | desktop/src/ws.js:290-295 | asked to retry, a link with a target opens a socket or leaves a first retry, even when it was stopped, and nothing old survives; without a target nothing happens |
| `Link.SilenceReconnects` | desktop/src/ws.js:140-147 | when the idle timer fires the socket is dropped and a retry is pending, one attempt further |
| `Link.ClosingReconnects` | desktop/src/ws.js:241-249 | when its socket closes the link forgets the hello and has a retry pending, one attempt further |
| `Link.OpeningStartsTheClock` | desktop/src/ws.js:187-192 | when its socket opens the link is connecting, not live, and the idle timer is restarted |
| `Link.StaleEventsAreIgnored` | desktop/src/ws.js:187-249 | events of old sockets and fired or cleared timers change nothing |
| `Link.DaemonLink.Handle` | desktop/src/ws.js:114-310 | the handlers, updating fields in place, take the state machine's step and keep its invariant |
| `Link.DaemonLink.SetTarget` | desktop/src/ws.js:267-287 | the same target changes nothing; another one leaves no old socket, timer or hello, keeps the invariant, and has a new socket or a first retry |
| `Link.DaemonLink.RetryNow` | desktop/src/ws.js:290-295 | updating fields in place, the same as `RetryingStartsAfresh` says |
| `Link.DaemonLink.Receive` | desktop/src/ws.js:194-234 | a hello makes the link live with attempt 0; a final shutdown stops it with nothing open or pending; another shutdown leaves exactly one retry; other frames only restart the idle timer |
| `Link.DaemonLink.OpenSocket` | desktop/src/ws.js:166-186 | nothing that was open or pending before survives, the invariant holds, and there is a socket exactly when opening did not throw, else one more attempt |
| `Merge.MergeNode` | src/cli/lint.rs:1062-1093 | on a sourcemap the merge never meets children that are no array, and `added` grows by exactly the growth in nodes |
| `Merge.ConvertLiveNode` | src/cli/lint.rs:1096-1120 | `added` grows by exactly the nodes of the converted subtree |
| `Merge.MergeKeepsDiskNodes` | src/cli/lint.rs:1062-1093 | every disk node keeps its fields and the order of its children |
| `Merge.MergedHasLivePaths` | src/cli/lint.rs:1062-1120 | every named path of the live tree is in the result |
| `Merge.AddedNodesCarryLiveNodes` | src/cli/lint.rs:1062-1120 | every node of the result that is not on disk carries a live node as deep below nodes of the same names: its name, its class or `Instance` where it has none, and no other field |
| `Merge.MergingAgainAddsNothing` | src/cli/lint.rs:1062-1120 | merging the same live tree again adds no node when no two siblings share a name |
| `Merge.MergeAddsNothingIff` | src/cli/lint.rs:1062-1093 | merging a live tree into an object adds no node if and only if every named live node already has its counterpart there, all the way down |
| `Merge.MergingAgainAddsNothingIff` | src/cli/lint.rs:1062-1120 | merging the same live tree again adds no node if and only if the result of the first merge covers it so, a condition to be checked between the two merges |
| `Merge.DuplicatesAreMergedTwice` | src/cli/lint.rs:1078-1091 | `TwinTree`, merged into an empty sourcemap, is not covered, and the second merge adds a node |
| `Budget.Visit` | src/cli/value_schema.rs:66-117 | from any counters within their limits: success exactly when totals, depth, entries and tags stay within them, with the counters advanced by the value's own totals; never more than one node too many |
| `Budget.Utf8LengthAdds` | src/cli/value_schema.rs:71-76 | the byte length of a text is the sum over its parts, between one and four per character, and the number of characters exactly for ASCII |
| `Budget.Validate` | src/cli/value_schema.rs:41-45 | a value is accepted exactly when it has at most 20000 nodes, 4194304 string bytes, depth 64, 10000 entries per container and passing tags; at most 20001 nodes are visited |

## Left out

- HTTP, WebSocket framing, plugin I/O, Open Cloud, keychain, updater, installer, spawning: foreign calls.
- Daemon start and stop, file watching, the processor, conflict engine, syncback and server routes: their guarantees rest on operating-system behaviour or code outside the modelled files.
- Per-operation checks of a step (field rules, assertions, capture sizes): one predicate of the step, `Schema.passes`; JSON decoding of operation bodies is `Schema.decodes`.
- Wording and locations of messages: issues and errors are data, locations are pointers into the document.
- Rewriting JSON in place (`resolve_references`, `merge_node`): modelled on values, so aliasing is not captured; where a new key lands among an object's keys is not captured either.
- Durations, timestamps, the dry-run printer and the `replayed` flag of an outcome.
- Idempotency: SHA-256 and the record's JSON are taken as a hash and a stored outcome; lock creation, record reads and the rename are atomic; failures of removal are kills.
- Glob matching, `scope_allows_rule` and the snapshot depth limit: parameters.
- Hazards other than scan errors (duplicates, sizes, staging leftovers): they do not steer the walk. The directories and loadable project files of a disk are assumed to have finitely many canonical paths; nothing is assumed of paths that do not exist.
- Tree: fresh referents are handed out by a counter; property migration is a function of class and properties; `get_instance_mut` and `get_meta_mut` are assumed not to touch links or source paths.
- Flow: one listener's channel; re-subscription is one atomic step at a moment when the consumer is away; `get_change` and the window between the two locks of `subscribe` and `unsubscribe` are not modelled.
- Markers: offsets count characters instead of bytes (tags are ASCII, so the spans are the same); markers are assumed free of `<`, which all three are.
- Link: `onState` and `onFrame` callbacks are assumed not to call back into the link; detail texts, the frames sent and the client id are left out.
- Execute: requests are the five kinds the loop makes; polling and playtest inside one step are one reply; a finish is sent without its group's id, which the model's request carries as a label.
- Budget: the check of a tagged object is one predicate of its fields; error paths are not reported.
