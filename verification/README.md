# Verified models of the deployment and authorization protocols

This project models the crash-safe and concurrent protocols of the repository and proves what they
keep. Whatever touches files, a cluster or the network does so in an environment (`faults.dfy`) that may
refuse any operation and may let the process die just before or just after it, so each contract speaks
of every state that an interruption can leave.

| files | subject |
|---|---|
| `login_disk`, `login_rollback`, `login_promotion`, `login_history` | replacing up to 25 login outputs as one unit: journal, gate, backups, rollback, commit marker, recovery, outside writers |
| `login_ownership` | who may act, over every interleaving of promoters and recoverers |
| `login_interleaving` | the same interleavings down to the single file operation: what they leave in the outputs |
| `token_rotation` | rotating an access/refresh pair under a journal, its recovery, the record as commit point |
| `authorization` | begin, callback, confirm and refresh: one exchange per authorization, one live URL per installation |
| `scheduling` | the lock on a material directory and the bounded OAuth queue, over every interleaving |
| `provisioning` | creating agents over lost replies, bounded retry, persistent bindings |
| `image_cache` | the worker pool that prepares image caches, and the choice of caches to retire |
| `json_keys` | the duplicate-key scanner against a grammar of JSON texts |
| `capsule` | making capsule documents absolute and portable again |
| `runtime_inputs` | publishing Secrets, files and Deployments against concurrent cluster writers |

Objects that the source changes in place are classes. Steps that interleave between processes or
between awaits are the actions of a state machine. Each file opens with what it models.

## Promises that do not hold as stated

Each is kept as the code has it, with the inputs that break it and the exact condition under which it holds.

- Promotion compares the caller's snapshot before it takes the gate. If another promotion finishes in
  between, an entry recorded as absent whose output already holds the new bytes is removed by the
  rollback, and the gate opens (`StaleSnapshotLosesACommittedOutput`). The rollback restores what was
  there if and only if there is no such entry (`StaleSnapshotUnwindsExactlyWhenLost`, `PromoteFrom`).
- A process that stops between releasing the gate and removing its journal leaves an orphan. A
  recoverer that had read the gate earlier can claim it and act with the gate open, even undoing a
  committed promotion (`OrphanedCommitIsUndone`). A claimant holds the gate if and only if its
  generation is no orphan (`ClaimHoldsTheGateUnlessOrphaned`). What such a claimant does to an output is
  in `OrphanClaimantUnpublishes`, and a whole run of it in `OrphanBreaksAnOpenGate`.
- Recovery does not always make progress. Two promoters take the same snapshot, the first commits, and
  the second takes the gate with an entry that is neither fresh nor lost: its rollback meets a conflict and
  the gate stays shut for good, without any fault, crash, outside writer or equal bytes
  (`StaleSnapshotJamsTheGate`, `JammedGateStaysShut`). The other case is an original that equals the new
  bytes and was relinked by a rollback that was then interrupted. There are no more: recovery succeeds if
  and only if the owners are dead and the promotion committed or no entry is of these two kinds
  (`GateIsRecoverable`, `EventuallySettled`).
- Not every value of an outside writer is kept. Until copies are removed none is lost; an undo can drop
  only bytes equal to the new ones (`UndoDropsAnEqualWrite`), a commit only bytes equal to the original
  (`CommitDropsAnEqualWrite`). `AnyHistory` states this for all histories.
- If finalising a rotation, rolling it back and marking the record unknown all fail, a forward journal
  stays beside a record that awaits verification. A refresh started then reverts the pair and leaves a
  journal that recovery refuses for ever (`RefusedCleanupJamsTheNextRefresh`). `Refresh` states the
  condition (`Steady`) in both directions.
- If in that state the server repeats the access token of the pair that is reverted to, the undo loop takes
  that token for the one it was about to write, puts the other generation's token in its place and removes
  the journal: the pair is torn, with no journal to tell (`RepeatedAccessTokenTearsThePair`). It happens
  if and only if what the undo leaves was never issued (`Tears`, in `Refresh` and `TearingReplies`).
- A capsule input named `.session-reserves-before.json` does not come back from a round trip, nor does
  a reference to a directory of inputs or into the run directory, nor a raw path into either tree
  (`DocumentReturns` and `DeclaredInputReturns`, both directions).

## Assumptions

- SHA-256 and the digests that form names are injective. UUIDs, random states and binding ids never
  repeat. The authorization server may repeat tokens.
- An outside writer of login outputs replaces files and does not write into them. Its turns are placed
  before the operations that name an output; turns elsewhere would commute with what is there.
- Checks of owner, mode, link count, host name, process protection and enclosing repositories are among
  the refusals the environment may decide. Syncing a directory is not told apart from the write before it.
- `LoginPromotion` states calls behind the gate one by one, and an outside writer beside them. That every
  interleaving amounts to calls one by one, orphans excepted, is `OpenGateShowsWholeCalls`, without an
  outside writer. A snapshot compared before the gate may be of any earlier time in both.
- The declared outputs of an identity file stay the same, and private names carry the generation.
- One host process at a time works on the records and materials of an authorization; its commands go
  through the queue of `Scheduling` one by one.
- Where the reserves file of a capsule is itself the baseline, making it portable never returns; the
  model gives no result.
- A platform maps an idempotency key to one agent. Clocks never go back, and waits last as long as asked.
- The version of a cluster object changes with every write; here it counts the writes.

## Model

| member | source | states |
|---|---|---|
| `LoginHistory.AnyHistory` | deploy/ack/login-output-promotion.ts:107-400 | After any number of promotions and recoveries, each refused or cut short at any step, with snapshots taken at any earlier time that lose nothing: with the gate open and no outside writer the outputs are, all of them, the initial contents or what one promotion asked for. With an outside writer, what it wrote is at the output whenever the gate is open, except bytes equal to the original of a committed or the new bytes of an undone promotion, and every release of the gate found every output as the journal wants it. A gate shut on a stale snapshot stays shut |
| `LoginHistory.AnyCall` | deploy/ack/login-output-promotion.ts:107-400 | One such call, fresh or stale |
| `LoginHistory.EventuallySettled` | deploy/ack/login-output-promotion.ts:250-309 | From every such state, stale snapshots included: one undisturbed recovery opens the gate if and only if the owners are dead and the promotion committed or every entry was fresh and none relinked. Then the outputs are all new if the commit marker was linked, and all the originals otherwise |
| `LoginHistory.GateIsRecoverable` | deploy/ack/login-output-promotion.ts:107-172 | The condition, for every gate that any history leaves shut |
| `LoginHistory.UndisputedGateCanSettle` | deploy/ack/login-output-promotion.ts:250-309 | If no promotion went on with a stale snapshot and no new bytes equal the old ones, dead owners are all that recovery needs |
| `LoginHistory.StaleSnapshotJamsTheGate` | deploy/ack/login-output-promotion.ts:366-392 | Two promotions from one snapshot after which the gate is shut and no recovery can succeed |
| `LoginHistory.JammedGateStaysShut` | deploy/ack/login-output-promotion.ts:147-154 | Such a gate stays shut whatever is called next, and every recovery fails |
| `LoginHistory.StaleSnapshotLosesACommittedOutput` | deploy/ack/login-output-promotion.ts:338-358 | The all-or-nothing promise fails for a snapshot compared before the gate is taken: two promotions from one snapshot after which the gate is open on contents that neither asked for |
| `LoginHistory.CommitDropsAnEqualWrite` | deploy/ack/login-output-promotion.ts:371-380 | The steps by which an outside write of exactly the original bytes goes with the backup of a commit |
| `LoginHistory.UndoDropsAnEqualWrite` | deploy/ack/login-output-promotion.ts:132-142 | The steps by which an outside write of exactly the new bytes is removed by an undo |
| `LoginHistory.OrphanClaimantUnpublishes` | deploy/ack/login-output-promotion.ts:132-160 | What the claimant of an orphaned journal does to a committed output: it disappears |
| `LoginPromotion.Directory.Promote` | deploy/ack/login-output-promotion.ts:312-400 | Keeps the invariant, and with it the bytes of an outside writer, however it ends; done means the gate was released on the new contents, each seen in place; undisturbed, it succeeds if and only if there are 1 to 25 outputs and the snapshot is current |
| `LoginPromotion.Directory.PromoteFrom` | deploy/ack/login-output-promotion.ts:344-399 | From the gate on, with a snapshot that may be stale: success if and only if every entry is fresh, and the gate opens again if and only if every entry is fresh or already holds the new bytes while the journal says absent; then exactly those are dropped |
| `LoginPromotion.Directory.Transact` | deploy/ack/login-output-promotion.ts:359-399 | The same once the gate is taken: what may have become of gate, marker and contents at every step |
| `LoginPromotion.Directory.Recover` | deploy/ack/login-output-promotion.ts:250-309 | Keeps the invariant, whoever else writes; the gate is released only with every output seen as the journal wants it; undisturbed, it is released if and only if the owners are dead and the promotion committed or every entry unwinds |
| `LoginPromotion.Directory.Rollback` | deploy/ack/login-output-promotion.ts:107-172 | Can be resumed from every step, including after a conflict; done means, whoever else writes, that every original was seen back in its place and no copy is left; undisturbed, done if and only if every entry unwinds |
| `LoginPromotion.Directory.UnwindAt` | deploy/ack/login-output-promotion.ts:109-170 | One round of the loop: the others are untouched, an error counts as a conflict |
| `LoginPromotion.Directory.Publish` | deploy/ack/login-output-promotion.ts:359-387 | Any interruption leaves a state that the rollback understands; done means every output holds its new bytes over a checked backup |
| `LoginPromotion.Directory.StageAll` | deploy/ack/login-output-promotion.ts:360-364 | Only staged copies are written, each with the new bytes |
| `LoginPromotion.Directory.PublishAll` | deploy/ack/login-output-promotion.ts:365-381 | Undisturbed, publishes every entry if and only if every entry is fresh |
| `LoginPromotion.Directory.PublishAt` | deploy/ack/login-output-promotion.ts:366-380 | One entry more is published, or the promotion can be undone |
| `LoginPromotion.Directory.ReadBack` | deploy/ack/login-output-promotion.ts:382-387 | Done means every output was seen with its new bytes; nothing published changes |
| `LoginPromotion.Directory.Acquire` | deploy/ack/login-output-promotion.ts:344-358 | The gate is taken only when it was open, and only with the journal in place |
| `LoginPromotion.Directory.Contend` | deploy/ack/login-output-promotion.ts:344-358 | Against a shut gate nothing changes hands and the call fails |
| `LoginPromotion.Directory.Commit` | deploy/ack/login-output-promotion.ts:393-397 | The promised contents change exactly when the marker is linked |
| `LoginPromotion.Directory.CleanJournal` | deploy/ack/login-output-promotion.ts:197-221 | The gate opens only after every private copy is gone, on a promotion settled and seen to be so; the outside writer's bytes that are gone by then equal what the release does away with |
| `LoginPromotion.Directory.ReleaseGate` | deploy/ack/login-output-promotion.ts:207-214 | The same up to the release |
| `LoginPromotion.Directory.SettledIsProper` | deploy/ack/login-output-promotion.ts:197-214 | At the release of a settled promotion every output was last seen as the journal wants it, and every outside byte that is gone equals the original, after a commit, or the new bytes, after an undo |
| `LoginPromotion.Directory.Dispose` | deploy/ack/login-output-promotion.ts:215-220 | Only the directory of this generation is emptied and removed |
| `LoginPromotion.Directory.Sweep` | deploy/ack/login-output-promotion.ts:207-211 | All private copies are removed and no output is touched |
| `LoginPromotion.Directory.Undo` | deploy/ack/login-output-promotion.ts:388-392 | Whoever else writes, the gate is released only if every original was seen back in its place; undisturbed, if and only if every entry unwinds |
| `LoginPromotion.Directory.Finish` | deploy/ack/login-output-promotion.ts:393-399 | Commit and cleanup keep the invariant at every step |
| `LoginPromotion.Directory.SnapshotMatches` | deploy/ack/login-output-promotion.ts:338-343 | Without an outside writer and with an open gate, passes if and only if the snapshot equals the promised contents |
| `LoginPromotion.Directory.ClaimJournal` | deploy/ack/login-output-promotion.ts:275-295 | A claim goes through if and only if the writer and the last claimant are dead, and keeps the journal |
| `LoginPromotion.Directory.Confirm` | deploy/ack/login-output-promotion.ts:296-306 | Done means every output of a committed promotion was seen with its new bytes; without an outside writer it passes |
| `LoginPromotion.Directory.UndisturbedVerdict` | deploy/ack/login-output-promotion.ts:107-172 | Before any rollback started, its outcome depends on the snapshot alone |
| `LoginPromotion.EveryEntryUnwinds` | deploy/ack/login-output-promotion.ts:109-171 | The rollback as a whole succeeds if and only if every entry does |
| `LoginRollback.ResumedRollbackUnwinds` | deploy/ack/login-output-promotion.ts:119-160 | A rollback resumed after any interruption finishes an entry except if and only if an original equal to the new bytes was already relinked |
| `LoginRollback.StaleSnapshotUnwindsExactlyWhenLost` | deploy/ack/login-output-promotion.ts:119-160 | With a stale snapshot an entry unwinds if and only if it was recorded absent and already held the new bytes |
| `LoginRollback.UnwindEntry` | deploy/ack/login-output-promotion.ts:110-169 | Undoing one entry loses no outside bytes but those equal to the new ones, never leaves an output empty while it holds other bytes that it moved away, can be resumed from wherever it stops, and reports success only if the original was last seen in its place; undisturbed it succeeds if and only if the copies on disk allow it |
| `LoginRollback.Vacate` | deploy/ack/login-output-promotion.ts:132-142 | The output is moved away only if it is the published one; other bytes are back at the output when it reports them |
| `LoginRollback.Reinstate` | deploy/ack/login-output-promotion.ts:143-166 | Whoever else writes, copies are dropped only once the original is back and was read |
| `LoginRollback.PublishEntry` | deploy/ack/login-output-promotion.ts:366-380 | The original is in a checked backup before the new bytes are linked; undisturbed, succeeds if and only if the snapshot is fresh |
| `LoginRollback.SweepEntry` | deploy/ack/login-output-promotion.ts:207-211 | Removes the three private copies and nothing else |
| `LoginRollback.Place` | deploy/ack/login-output-promotion.ts:145 | Linking never replaces bytes, whoever wrote them |
| `LoginDisk.Output.MoveTo` | deploy/ack/login-output-promotion.ts:134-135 | `rename` to a private name: takes the output if there is one |
| `LoginDisk.Output.LinkFrom` | deploy/ack/login-output-promotion.ts:380 | `link`: fails if the output exists |
| `LoginDisk.Output.Stage` | deploy/ack/login-output-promotion.ts:85-93 | Exclusive creation; a write cut short leaves partial bytes |
| `LoginDisk.Output.Remove` | deploy/ack/login-output-promotion.ts:94-98 | `unlink`, with absence no error |
| `LoginDisk.Output.Read` | deploy/ack/login-output-promotion.ts:48-75 | An absent output reads as null; what was read is what is then known of the output |
| `LoginOwnership.RunKeepsInv` | deploy/ack/login-output-promotion.ts:197-358 | The ownership invariant over every interleaving of promoters and recoverers that throw and die |
| `LoginOwnership.StepKeepsInv` | deploy/ack/login-output-promotion.ts:197-358 | Every single step keeps it |
| `LoginOwnership.SingleOwnerPerGeneration` | deploy/ack/login-output-promotion.ts:234-308 | At most one live process publishes, undoes, confirms or cleans up for a generation, and its journal names it |
| `LoginOwnership.ClaimTakesOnlyWhatWasRead` | deploy/ack/login-output-promotion.ts:275-295 | A stale contender can only claim the generation it read, never a later one, and only when nobody acts for it |
| `LoginOwnership.ClaimHoldsTheGateUnlessOrphaned` | deploy/ack/login-output-promotion.ts:293-295 | A claimant holds the gate if and only if no owner stopped between releasing the gate and removing the journal |
| `LoginOwnership.ActorsHoldTheGateUnlessOrphaned` | deploy/ack/login-output-promotion.ts:214-218 | Outside such orphans, whoever changes outputs holds the gate and no committed promotion is undone |
| `LoginOwnership.NoTwoWritersWithoutAnOrphan` | deploy/ack/login-output-promotion.ts:223-358 | Without orphans at most one live process changes outputs |
| `LoginOwnership.OrphanedCommitIsUndone` | deploy/ack/login-output-promotion.ts:214-218 | A concrete interleaving in which a committed promotion is undone with the gate open |
| `LoginInterleaving.OpenGateShowsWholeCalls` | deploy/ack/login-output-promotion.ts:107-400 | Over every interleaving of file operations of promoters and recoverers that are refused, throw and die, with snapshots of any age: without orphans, an open gate shows what the promotions that ever took it leave when they run as wholes one after the other, each once; they committed if and only if their marker was linked, and only on the contents of their snapshot |
| `LoginInterleaving.OpenGateShowsTheNewest` | deploy/ack/login-output-promotion.ts:107-400 | If no snapshot had lost an output, these are all outputs of the last committed promotion, or all as they were at first |
| `LoginInterleaving.ShutGateKeepsACommit` | deploy/ack/login-output-promotion.ts:393-399 | While a committed promotion holds the gate every output has its new bytes |
| `LoginInterleaving.OrphanBreaksAnOpenGate` | deploy/ack/login-output-promotion.ts:207-218 | A run with an orphan after which the gate is open, the only promotion committed, and its output is gone |
| `LoginInterleaving.ReplayIsNewest` | deploy/ack/login-output-promotion.ts:107-172 | Whole calls leave all outputs of the last committed one when nothing was lost |
| `LoginInterleaving.UndoneCallIsANoOpUnlessLost` | deploy/ack/login-output-promotion.ts:107-172 | An undone promotion changes nothing if and only if its snapshot had lost no output |
| `LoginInterleaving.RunKeepsInv` | deploy/ack/login-output-promotion.ts:107-400 | Over every run: outputs and acting process stand as their programs say, and every promotion is accounted for |
| `LoginInterleaving.MovedKeepsInv` | deploy/ack/login-output-promotion.ts:107-400 | The same for every step |
| `LoginInterleaving.SoleActor` | deploy/ack/login-output-promotion.ts:223-358 | Without orphans only the owner of the gate's journal changes outputs |
| `LoginInterleaving.PublishTurnKeeps` | deploy/ack/login-output-promotion.ts:365-381 | Every operation that publishes an entry leaves it as an undo can find it |
| `LoginInterleaving.UndoTurnKeeps` | deploy/ack/login-output-promotion.ts:107-172 | So does every operation that undoes one, and what was read stays so; at the end the original is back |
| `LoginInterleaving.SweptIsSettled` | deploy/ack/login-output-promotion.ts:207-214 | At the release the outputs are as the whole call leaves them |
| `TokenRotation.AnyHistory` | apps/agent-runtime-host/src/standard-mcp-installation.ts:263-378 | After any number of restarts and refreshes cut short anywhere: with no journal every pair was issued together and a record that awaits verification describes the pair on disk; a forward journal with such a record means the new pair is in place. Replies are arbitrary but for those that `TearingReplies` describes |
| `TokenRotation.RecoveringHistory` | apps/agent-runtime-host/src/standard-mcp-installation.ts:263-378 | If every refresh follows a successful recovery, recovery never meets a token it does not know |
| `TokenRotation.LeftoverForwardJournalIsUnsteady` | apps/agent-runtime-host/src/runtime-oauth-client.ts:757-773 | The journal left when finalising, rolling back and marking unknown all fail is harmless to a later refresh if and only if it changes nothing |
| `TokenRotation.RefusedCleanupJamsTheNextRefresh` | apps/agent-runtime-host/src/runtime-oauth-client.ts:752-773 | The steps that lead there, and the refresh after which recovery refuses |
| `TokenRotation.TearingReplies` | apps/agent-runtime-host/src/standard-mcp-installation.ts:522-549 | A reply tears an issued pair if and only if its access token is the one recovery reverts to, both tokens change, and the mixture was never issued; in a steady state none does |
| `TokenRotation.RepeatedAccessTokenTearsThePair` | apps/agent-runtime-host/src/standard-mcp-installation.ts:522-549 | The steps to a torn pair without a journal |
| `TokenRotation.Host.OtherwiseHarmless` | apps/agent-runtime-host/src/standard-mcp-installation.ts:512-552 | Every other reply leaves tokens that were issued together at every step of the undo and of a recovery from it |
| `TokenRotation.Host.Refresh` | apps/agent-runtime-host/src/runtime-oauth-client.ts:699-776 | Keeps the invariant unless the reply tears the pair, and then, undisturbed, does tear it; undisturbed, ends with the new pair recorded if the state is steady, and otherwise with a journal that recovery refuses or with what the undo leaves |
| `TokenRotation.Host.Recover` | apps/agent-runtime-host/src/standard-mcp-installation.ts:263-378 | Undisturbed, succeeds if and only if both tokens are ones the journal knows; ends in one pair, old or new by operation and phase; a third value is never overwritten; other grants are untouched |
| `TokenRotation.Host.Swap` | apps/agent-runtime-host/src/standard-mcp-installation.ts:410-557 | Forward or rollback replacement under the journal, with any tokens: both are replaced exactly if they were the expected ones, otherwise a journal tells or the undo leaves what `Leaves` says |
| `TokenRotation.Host.Install` | apps/agent-runtime-host/src/standard-mcp-installation.ts:410-422 | Recovery first, then the swap; what recovery restores decides whether the swap goes through, and what it leaves if not |
| `TokenRotation.Host.Adopt` | apps/agent-runtime-host/src/runtime-oauth-client.ts:753-758 | From the record write on the rotation counts, with or without its journal |
| `TokenRotation.Host.Rotate` | apps/agent-runtime-host/src/runtime-oauth-client.ts:730-758 | The exchange, the swap and the adoption together, for every reply |
| `TokenRotation.Host.Compensate` | apps/agent-runtime-host/src/runtime-oauth-client.ts:759-774 | Rolling back and marking unknown, both of which may fail, never make things unrecoverable; without a rollback the tokens stay |
| `TokenRotation.Host.Begin` | apps/agent-runtime-host/src/runtime-oauth-client.ts:726-728 | The durable mark precedes the exchange |
| `TokenRotation.Host.WriteJournal` | apps/agent-runtime-host/src/standard-mcp-installation.ts:119-167 | Forward journals never replace a journal |
| `TokenRotation.Host.RemoveJournal` | apps/agent-runtime-host/src/standard-mcp-installation.ts:169-181 | The journal is gone or untouched |
| `TokenRotation.AnyRefresh` | apps/agent-runtime-host/src/runtime-oauth-client.ts:699-776 | A refresh with an arbitrary reply that does not tear the pair, repeated tokens included, or none; from a steady state, where no reply tears it, recovery stays possible |
| `TokenRotation.Grant.ReplaceOne` | apps/agent-runtime-host/src/standard-mcp-installation.ts:432-511 | A token is replaced only if it is the expected one |
| `TokenRotation.Grant.WriteRecord` | apps/agent-runtime-host/src/runtime-oauth-client.ts:255-297 | The record changes as a whole, even when the call then throws |
| `TokenRotation.Restore` | apps/agent-runtime-host/src/standard-mcp-installation.ts:325-355 | Restoring the journal's entries one by one reaches the target pair |
| `TokenRotation.Advance` | apps/agent-runtime-host/src/standard-mcp-installation.ts:512-521 | Entries are replaced in order and only from their expected value |
| `TokenRotation.Retreat` | apps/agent-runtime-host/src/standard-mcp-installation.ts:522-549 | The undo goes last entry first, past entries it cannot put back; it reports success exactly if every token begun was from one of the two pairs, undisturbed |
| `TokenRotation.Exchange` | apps/agent-runtime-host/src/standard-mcp-installation.ts:512-552 | Replaced, or undone to what `Leaves` says, or left for the journal to tell, whatever the tokens were |
| `Authorization.AnyHistory` | apps/agent-runtime-host/src/runtime-oauth-client.ts:777-1102 | After any commands cut short anywhere: for each authorization at most one callback was recorded and at most one exchange sent, neither if a refusal was ever recorded; at most one returned URL per installation is live, every state file leads to the one record with that state and every returned URL can be called back; nothing recorded is taken back |
| `Authorization.AnyCommand` | apps/agent-runtime-host/src/runtime-oauth-client.ts:777-1102 | One such command |
| `Authorization.LinksMean` | apps/agent-runtime-host/src/runtime-oauth-client.ts:789-949 | What the links between records, state files and pointers imply for every client |
| `Authorization.LinksRepoint` | apps/agent-runtime-host/src/runtime-oauth-client.ts:893-916 | An installation may be pointed elsewhere once the authorization it pointed to has expired |
| `Authorization.LinksRegister` | apps/agent-runtime-host/src/runtime-oauth-client.ts:907-912 | A state file may appear, whole or torn; a whole one stays |
| `Authorization.LinksGrow` | apps/agent-runtime-host/src/runtime-oauth-client.ts:859-945 | One authorization gains a record, a binding or an offer; the others keep their links |
| `Authorization.Auth.Confirm` | apps/agent-runtime-host/src/runtime-oauth-client.ts:955-1048 | The exchange or claim goes out at most once, after a recorded callback and the durable mark, with its code and the verifier of every URL (section 4 of RFC 7636); a refused authorization is left as it is; undisturbed it goes out exactly once |
| `Authorization.Auth.Conclude` | apps/agent-runtime-host/src/runtime-oauth-client.ts:1006-1048 | The outcome is recorded as verified or unknown; nothing is sent again |
| `Authorization.Auth.Callback` | apps/agent-runtime-host/src/runtime-oauth-client.ts:1067-1100 | Only the first callback counts; it is recorded with the code it brought, or as denied |
| `Authorization.Auth.Refresh` | apps/agent-runtime-host/src/runtime-oauth-client.ts:699-728 | A refresh never reopens the code exchange |
| `Authorization.Auth.EnsureVerifier` | apps/agent-runtime-host/src/runtime-oauth-client.ts:837-857 | The verifier is made once; a torn one is refused |
| `Authorization.Auth.Write` | apps/agent-runtime-host/src/runtime-oauth-client.ts:255-297 | A record is replaced as a whole or not at all; callbacks and refusals it records are never forgotten |
| `Authorization.Publish` | apps/agent-runtime-host/src/standard-mcp-installation.ts:567-637 | Exclusive publication: an existing file is accepted only if it holds the value; cut short, it stays torn |
| `Authorization.Client.Begin` | apps/agent-runtime-host/src/runtime-oauth-client.ts:789-949 | A repeated request resumes the same record; a URL is returned only for a live record awaiting its callback |
| `Authorization.Client.Ensure` | apps/agent-runtime-host/src/runtime-oauth-client.ts:790-885 | The record of the request is the one there is, or a new one |
| `Authorization.Client.Create` | apps/agent-runtime-host/src/runtime-oauth-client.ts:801-885 | Keeps every link however it ends; done means the record of this request exists |
| `Authorization.Client.Prepare` | apps/agent-runtime-host/src/runtime-oauth-client.ts:821-858 | The state or binding belongs to this authorization alone |
| `Authorization.Client.CreateBinding` | apps/agent-runtime-host/src/runtime-oauth-client.ts:403-443 | Repeating a binding request yields the same binding, made for this authorization alone and not expired |
| `Authorization.Client.Open` | apps/agent-runtime-host/src/runtime-oauth-client.ts:859-884 | The first write of a record keeps all links |
| `Authorization.Client.Offer` | apps/agent-runtime-host/src/runtime-oauth-client.ts:886-946 | Done means one URL more was returned, bound to the kept verifier; state file and pointer are then in place |
| `Authorization.Client.PublishState` | apps/agent-runtime-host/src/runtime-oauth-client.ts:907-912 | The state file names this authorization |
| `Authorization.Client.WritePointer` | apps/agent-runtime-host/src/runtime-oauth-client.ts:913-917 | Afterwards the pointer of the installation leads here; only an expired one may be replaced |
| `Authorization.Client.Uncontested` | apps/agent-runtime-host/src/runtime-oauth-client.ts:893-906 | Fails while another authorization of the installation is pending |
| `Authorization.Client.Check` | apps/agent-runtime-host/src/runtime-oauth-client.ts:645-677 | Passing means the record was not expired |
| `Authorization.Client.Find` | apps/agent-runtime-host/src/runtime-oauth-client.ts:1060-1066 | A handle leads to the record that carries it |
| `Authorization.Client.Callback` | apps/agent-runtime-host/src/runtime-oauth-client.ts:1051-1102 | Only the authorization that carries the handle changes, and only if it had not expired; then it awaits confirmation or is denied |
| `Authorization.Client.Confirm` | apps/agent-runtime-host/src/runtime-oauth-client.ts:950-1048 | Keeps every link; nothing is sent for an authorization that had expired |
| `Authorization.Client.Refresh` | apps/agent-runtime-host/src/runtime-oauth-client.ts:950-953 | Keeps every link; no exchange is sent, and an expired record is left alone |
| `Scheduling.LockIsExclusiveAndFair` | apps/agent-runtime-host/src/standard-mcp-installation.ts:380-397 | In every interleaving a call on a path that has started has every earlier call on that path behind it |
| `Scheduling.NoWaiterIsLost` | apps/agent-runtime-host/src/standard-mcp-installation.ts:380-397 | Every schedule of the calls made ends after a known number of steps, with all of them served and the table empty |
| `Scheduling.EntryIffOutstanding` | apps/agent-runtime-host/src/standard-mcp-installation.ts:384-395 | A path is in the table if and only if a call on it is outstanding |
| `Scheduling.SomeoneCanMove` | apps/agent-runtime-host/src/standard-mcp-installation.ts:390-394 | While a call is outstanding some call on its path can start or finish |
| `Scheduling.QuietMeansDone` | apps/agent-runtime-host/src/standard-mcp-installation.ts:380-397 | When nothing can move, everything is done |
| `Scheduling.WorkIsUsedUp` | apps/agent-runtime-host/src/standard-mcp-installation.ts:380-397 | Each start and each finish uses one unit of the remaining work |
| `Scheduling.RunKeepsInv` | apps/agent-runtime-host/src/standard-mcp-installation.ts:380-397 | The chain of promises and the table stay consistent over every run |
| `Scheduling.EnterKeepsInv` | apps/agent-runtime-host/src/standard-mcp-installation.ts:384-389 | A new call is chained to the last one |
| `Scheduling.StartKeepsInv` | apps/agent-runtime-host/src/standard-mcp-installation.ts:390-392 | A call starts when the one before it has released |
| `Scheduling.FinishKeepsInv` | apps/agent-runtime-host/src/standard-mcp-installation.ts:393-396 | Releasing deletes the entry only if no later call took it |
| `Scheduling.QueueIsSafe` | apps/agent-runtime-host/src/runtime-oauth-client.ts:374-401 | In every interleaving at most one command executes, in submission order, with at most 32 queued |
| `Scheduling.NothingRunsOnceClosed` | apps/agent-runtime-host/src/runtime-oauth-client.ts:1103-1107 | When `close` resolves everything has settled, and nothing that happens later changes that |
| `Scheduling.ClosedQueueStartsNothing` | apps/agent-runtime-host/src/runtime-oauth-client.ts:388-392 | After closing, no waiting command executes |
| `Scheduling.QueueCanSettle` | apps/agent-runtime-host/src/runtime-oauth-client.ts:388-399 | From every state the queue can settle completely |
| `Scheduling.TurnKeepsInv` | apps/agent-runtime-host/src/runtime-oauth-client.ts:384-401 | Every step keeps the queue a settled prefix, one command under way and waiting ones |
| `Provisioning.AnyHistory` | deploy/ack/agent-bindings.ts:133-313 | Over any number of runs cut short anywhere: bindings never change and stay injective, each is the agent made for the key of the name, agents appear only for keys of the plan, readiness marks and browser inputs are true to the bindings |
| `Provisioning.StateDirectory.Run` | deploy/ack/agent-bindings.ts:133-313 | Only the holder of the lock works; browser inputs change, and the run passes, only if every request is bound to a ready agent |
| `Provisioning.StateDirectory.Work` | deploy/ack/agent-bindings.ts:227-309 | The same inside the lock; materialising alone changes no binding and no agent |
| `Provisioning.StateDirectory.Expose` | deploy/ack/agent-bindings.ts:294-308 | Browser inputs name the bound agents |
| `Provisioning.StateDirectory.Check` | deploy/ack/agent-bindings.ts:153-248 | Passes if and only if names and browser inputs are distinct and every binding is for a name of the plan |
| `Provisioning.StateDirectory.OnBinding` | deploy/ack/agent-bindings.ts:256-272 | A name is never rebound and an agent never shared; the file changes as a whole |
| `Provisioning.StateDirectory.ProvisionAgents` | deploy/ack/provision-agents.ts:319-439 | Passing means every request is bound to an agent that was reported ready |
| `Provisioning.StateDirectory.Fulfil` | deploy/ack/provision-agents.ts:325-407 | For a bound name no creation request reaches the platform; an agent is polled only once it is bound; passing marks exactly this name ready |
| `Provisioning.StateDirectory.Obtain` | deploy/ack/provision-agents.ts:337-376 | The agent is the one bound before, or the one made for the key |
| `Provisioning.StateDirectory.Create` | deploy/ack/provision-agents.ts:347-376 | At most 300 attempts, and no more requests than attempts, make at most one agent, for this key |
| `Provisioning.StateDirectory.Await` | deploy/ack/provision-agents.ts:379-395 | Marked ready only once reported ready |
| `Provisioning.Request` | deploy/ack/provision-agents.ts:64-128 | Attempts are a second apart, begin before the deadline and are at most the seconds begun, at most one without retry, none only if the deadline had passed; requests that reach the platform are no more than attempts; at most one agent appears |
| `Provisioning.Attempt` | deploy/ack/provision-agents.ts:79-125 | What is retried, what is handed on, and what is given up |
| `Provisioning.WaitForReady` | deploy/ack/provision-agents.ts:248-317 | At most as many attempts as seconds to wait, over both loops; exactly one when there are none, unless ten seconds pass meanwhile; ready only if reported |
| `Provisioning.SpacedMeansBounded` | deploy/ack/provision-agents.ts:73-127 | Attempts a second apart within a budget are at most the seconds begun |
| `ImageCache.PoolIsSafe` | deploy/ack/image-cache.ts:154-192 | In every interleaving, whatever the backend shows, each group is claimed at most once, in plan order, no group is created twice, creations never outnumber the groups, and every name looked up or created is a name of a group of the plan |
| `ImageCache.RetiredIsNeverLookedUp` | deploy/ack/image-cache.ts:90-105 | No run that prepares a plan ever looks up or creates a cache that may be retired for it |
| `ImageCache.ReturnedPoolIsComplete` | deploy/ack/image-cache.ts:184-202 | When all workers have returned every group was claimed and has a result under one of its names, seen to be ready for exactly its images |
| `ImageCache.RunKeepsInv` | deploy/ack/image-cache.ts:154-192 | The invariant of the pool over every run |
| `ImageCache.StepKeepsInv` | deploy/ack/image-cache.ts:154-191 | Every step of a worker keeps it |
| `ImageCache.StepKeepsWorkers` | deploy/ack/image-cache.ts:154-191 | Workers stay on different groups and create a group at most once |
| `ImageCache.StepKeepsCalls` | deploy/ack/image-cache.ts:154-183 | Results were seen ready under their names, and only names of the plan are used |
| `ImageCache.Receipt` | deploy/ack/image-cache.ts:192-209 | From the end of any run of the pool: a receipt lists one cache per group in plan order, each under a name of its group, seen ready by a worker and again at the end under that name with the same id; without a rejected worker there is no receipt only if such a second look fails |
| `ImageCache.InOrder` | deploy/ack/image-cache.ts:197-202 | The results in plan order, if and only if every group has one |
| `ImageCache.Backend.Get` | deploy/ack/image-cache.ts:204-206 | A look is at the cache of that name as it is then |
| `ImageCache.ParsePlan` | deploy/ack/image-cache.ts:15-25 | Accepted if and only if there are 1 to 48 groups of 1 to 8 valid images and at most 24 distinct ones; the plan is exactly the groups given, each once |
| `ImageCache.SelectToRetire` | deploy/ack/image-cache.ts:87-108 | Refused if and only if `keep` is out of range or an owned cache is illegible; kept and retired add up to the owned caches; at least the number asked for survives; retired are exactly the unneeded ones outside the newest; the oldest go first |
| `ImageCache.Sift` | deploy/ack/image-cache.ts:97-106 | Each counter counts the caches kept for its reason; retired are exactly the expendable ones |
| `ImageCache.CountsAddUp` | deploy/ack/image-cache.ts:97-107 | Every owned cache has exactly one reason |
| `ImageCache.NewestSurvive` | deploy/ack/image-cache.ts:95-104 | None of the newest is expendable, whatever the names |
| `ImageCache.NewestFirstSorts` | deploy/ack/image-cache.ts:95 | The order is by age and then name, and a permutation |
| `JsonKeys.ScanIsExact` | apps/agent-runtime-host/src/installed-skill.ts:26-44 | For the text of any JSON value, with any white space, nesting and escapes, the scan accepts if and only if no object at any depth has two members of the same decoded name (section 4 of RFC 8259) |
| `JsonKeys.Scan` | apps/agent-runtime-host/src/installed-skill.ts:29-43 | The loop over the matches accepts exactly the texts that pass token by token |
| `JsonKeys.PassValue` | apps/agent-runtime-host/src/installed-skill.ts:30-42 | Scanning a value leaves the stack as it was and fails exactly on a repeat inside it |
| `JsonKeys.PassItems` | apps/agent-runtime-host/src/installed-skill.ts:30-42 | The same for the items of an array |
| `JsonKeys.PassMembers` | apps/agent-runtime-host/src/installed-skill.ts:36-40 | The members of an object pass if and only if their names are new and distinct and their values pass |
| `JsonKeys.PassKey` | apps/agent-runtime-host/src/installed-skill.ts:36-40 | A member name is looked up in, and added to, the innermost object |
| `JsonKeys.PassString` | apps/agent-runtime-host/src/installed-skill.ts:30-41 | A string is a name exactly if a colon follows |
| `JsonKeys.StringEndsAtItsQuote` | apps/agent-runtime-host/src/installed-skill.ts:30 | The expression matches a string token up to its own closing quote |
| `JsonKeys.DecodeIsName` | apps/agent-runtime-host/src/installed-skill.ts:38 | However a name is escaped, it decodes to the same name |
| `Capsule.DocumentReturns` | deploy/ack/run-capsule.ts:153-166 | A document made absolute and made portable again is the same document if and only if all its texts are clean |
| `Capsule.TextReturns` | deploy/ack/run-capsule.ts:238-249 | The same for one text |
| `Capsule.BackFromRun` | deploy/ack/run-capsule.ts:243-246 | What becomes of a path in the run directory |
| `Capsule.BackFromRoot` | deploy/ack/run-capsule.ts:246-247 | A path in the capsule but not in the run directory becomes its reference |
| `Capsule.UndeclaredPathIsRefused` | deploy/ack/run-capsule.ts:243-246 | A text in the run directory that is neither a declared input nor the reserve baseline is refused |
| `Capsule.DeclaredInputReturns` | deploy/ack/run-capsule.ts:243-245 | A reference to a declared input comes back if and only if the input does not have the name of the reserve baseline |
| `Capsule.TreesAreApart` | deploy/ack/run-capsule.ts:240-247 | With disjoint roots no path is in both trees |
| `RuntimeInputs.Publication.Publish` | deploy/ack/runtime-inputs.ts:244-378 | However it ends: the receipt asks for recovery if and only if a command that could change something was issued, and every patch of a Deployment follows the read-back of every Secret and a later look that found each unwritten, with no command in between. Files were replaced and Deployments patched only as the plan found them. Passed means that each Secret was seen exactly as it was read back, after the last command and after the login, every file was promoted, and every Deployment was seen current after the login |
| `RuntimeInputs.HeldMeans` | deploy/ack/runtime-inputs.ts:295-303 | The look after the login found exactly the view read back: owned, with the published data; every look in between found the same version, which counts the writes, and no command followed |
| `RuntimeInputs.Publication.Supply` | deploy/ack/runtime-inputs.ts:305-336 | The Secrets and the files, before any Deployment is touched |
| `RuntimeInputs.Publication.Deliver` | deploy/ack/runtime-inputs.ts:337-373 | The Deployments, the login and the final look, in this order |
| `RuntimeInputs.Publication.CheckSecrets` | deploy/ack/runtime-inputs.ts:295-303 | Only looks; done means each Secret was seen since then exactly as it was read back: uid, version, owner and data |
| `RuntimeInputs.Publication.PublishSecrets` | deploy/ack/runtime-inputs.ts:307-322 | Every Secret is read back, owned and with the published data, after the last command to write it |
| `RuntimeInputs.PublishSecret` | deploy/ack/runtime-inputs.ts:307-322 | One Secret, against concurrent writers: it is read back owned, with the published data and under the planned uid |
| `RuntimeInputs.WriteSecret` | deploy/ack/runtime-inputs.ts:309-316 | The command goes out only on the planned version, and the receipt is marked first |
| `RuntimeInputs.CheckSecret` | deploy/ack/runtime-inputs.ts:297-302 | The Secret was seen exactly as it was read back |
| `RuntimeInputs.Secret.Replace` | deploy/ack/runtime-inputs.ts:314-315 | Notes itself as a command; refused once the object has changed; what it overwrites is an owned Secret with the data the plan was prepared from, and nothing but the data changes |
| `RuntimeInputs.Publication.Plan` | deploy/ack/runtime-inputs.ts:256-294 | Planning only looks |
| `RuntimeInputs.Publication.PlanSecrets` | deploy/ack/runtime-inputs.ts:279-285 | The plan rests on views of the Secrets with expected data |
| `RuntimeInputs.Publication.PromoteFiles` | deploy/ack/runtime-inputs.ts:324-336 | Every file that was to change is put in place, each replaced only when it was last seen with the bytes the plan was made from; the receipt says so first |
| `RuntimeInputs.Publication.PromoteFile` | deploy/ack/runtime-inputs.ts:324-336 | The same for one file |
| `RuntimeInputs.LocalFile.Promote` | deploy/ack/runtime-inputs.ts:328-335 | Notes itself as a command; done means the new bytes were put in place |
| `RuntimeInputs.Publication.PatchChecked` | deploy/ack/runtime-inputs.ts:343-351 | A patch straight after the Secrets were checked keeps the order |
| `RuntimeInputs.Publication.Restart` | deploy/ack/runtime-inputs.ts:338-351 | A Deployment is patched exactly if it lacks the revision, after a look at every Secret, and only with the uid, version and replicas of the plan |
| `RuntimeInputs.Publication.Rollout` | deploy/ack/runtime-inputs.ts:338-360 | Done means the planned Deployment was seen current and every Secret was looked at again after that |
| `RuntimeInputs.Publication.Observe` | deploy/ack/runtime-inputs.ts:353-359 | The look at the Deployment and the one at the Secrets |
| `RuntimeInputs.Publication.Verify` | deploy/ack/runtime-inputs.ts:365-372 | Done means that after the login every Secret was seen exactly as it was read back, and every planned Deployment current |
| `RuntimeInputs.Deployment.Patch` | deploy/ack/runtime-inputs.ts:344-351 | Notes itself as a command; refused once the object has changed; otherwise the Deployment carries the new revision |

## Left out

- The gate as a plain directory, as an earlier release left it (deploy/ack/login-output-promotion.ts:179-186).
- The validation of journal fields read back from disk, and of record fields: long conjunctions that a reading settles.
- Revoking tokens (apps/agent-runtime-host/src/runtime-oauth-client.ts:484-575) and the metadata of an installation.
- What the tokens are after a code exchange or a PAT claim: the pair that `TokenRotation` starts from.
- `JSON.parse` of a whole text and UTF-8 decoding; `JsonKeys` starts from the code units of a valid text.
- Preparing the data of Secrets and files for publication, and the reserve consumers checked after it.
- The reserve baseline written into a bootstrap document while a capsule is made absolute, and which outputs are promoted afterwards.
- Progress reports and receipts written while image caches are prepared, and deleting the retired ones.
- In `LoginInterleaving`: the outside writer, staged copies, and which snapshot a promoter compared before the gate.
- Hashing, HTTP, kubectl, the browser journeys and the deployment scripts.
- Authorization.Auth.Refresh: states what becomes of the record; the tokens are in `TokenRotation`.
- ImageCache.Receipt: states what was seen at each second look; a cache may change after it.
