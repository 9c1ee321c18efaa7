# Splittr ledger core

Splittr keeps shared expenses as a set of signed operations. Replicas exchange operations, never
balances; each replica derives who may do what, the expenses and groups, and the balances from the
set it holds. These Dafny modules model that core and prove what it is for: replicas that hold the
same operations agree, authority comes only from the operations, and the money adds up to the cent.

The modules follow the crates:

- `Op.dfy`, `Clock.dfy`, `Registers.dfy`: the operation vocabulary, identities, verification, the
  per-device clock, and last-writer-wins registers.
- `Aliases.dfy`, `Authorize.dfy`, `AuthorityPass.dfy`, `Membership.dfy`: the authority of an operation
  set. `Authorize.dfy` says what each verdict means for the set; `AuthorityPass.dfy` has the loops of
  the staged pass and proves them against it; `Membership.dfy` proves what the replay of membership
  changes guarantees.
- `Materialize.dfy`, `Convergence.dfy`, `Integrity.dfy`: the folder and the materializer as classes,
  the meaning of what is shown, order freedom, harmlessness of unauthorized operations, and who
  stands behind what is shown. `Ties.dfy` and `OrderFreedom.dfy` have the exact conditions for order
  freedom, `Keys.dfy` who has a say in whom a key acts for, and `Revocation.dfy` what a revocation
  does. `Policy.dfy` tells devices, aliases, friends, founders, members and every verdict from the log
  and the read model alone.
- `Split.dfy`, `Expense.dfy`, `Debt.dfy`, `Balance.dfy`, `FriendView.dfy`, `GroupView.dfy`,
  `Ledger.dfy`: splitting, settling, and the three views of balances with the laws between them.
  `Minimality.dfy` says exactly when the suggested payments are the fewest.
- `Store.dfy`, `Sync.dfy`: the cached repository over every run of commands, and the two-party sync
  over every interleaving of two first-in first-out channels.
- `Ordering.dfy`, `Sums.dfy`: total orders with their sorted enumerations, and finite sums.

`dafny verify dfyconfig.toml` checks everything.

## How the source is rendered

- An operation without its signature is an `Op`, which is all the fold reads; `SignedOp` adds the
  signature. Hashing and signing are the two functions of a `Crypto` parameter. That distinct contents
  have distinct hashes is the hypothesis `CollisionFree`.
- An op id is its 32-byte digest read as a big-endian number, and a public key is its lower-case
  hexadecimal text; byte order becomes number order and text order. Text order is by code point, which
  is the byte order of UTF-8.
- The fold trusts that ids identify contents, since it sees only ingested operations. Its theorems
  carry that as `IdsUnique`. A log keyed by id satisfies it; that a key then names one content for good
  is `Operations.GenuineIdsUnique`, which keeps the repository's store and read model in step.
- Stages of the authority pass that break ties fully are functions of the set of operations. Registers
  and bindings break equal clocks by iteration order, so they are functions of the sequence.
- A log that repeats a membership op repeats its timeline event. The pass is therefore proved equal to
  the set-level authority up to repeated events (`SameView`), which no verdict can see.
- Loops over ordered maps and sets whose result does not depend on the order visit the elements in an
  arbitrary order. Loops whose order matters (splitting, settling, id order) keep it.
- The clock counter wraps at 2^32 as a release build does; a debug build stops instead. Split
  arithmetic writes out truncating division and the narrowing casts.
- Amounts are unbounded integers. Where the source adds with its checked operators, `ok` results say
  whether one would have stopped the program, and in `simplify_debts`, which computes on plain 64-bit
  numbers, whether one would have wrapped; the one plain sum of payments wraps, as in a release build.
- An expense's descriptive fields are one opaque `details` value, and `home` is the optional group.
- The folder's single `apply` is four methods, one per family of fields, called in turn.
- The two async `sync` calls are a machine whose steps are one send or one receive of either side; a
  side sends its replies before it receives again, and receives twice.

Where documentation and code differ, the code is modelled:

- `split_by_weights` is documented to always sum to the total; it does exactly when the total is not
  negative or every quota is whole (`Splitting.WeightedSplitIsExact`).
- `split_equal` is documented to always sum to the total; it does exactly when there is somebody to
  share it or nothing to share (`Splitting.SplitEqualIsExact`).
- `pairwise_with` is documented to add up to the net. On every ledger it does so less the settlements
  whose two ends both resolve to the viewer and less what unbalanced expenses leave unattributed;
  the equality holds exactly when the two cancel (`FriendView.ShownViewReconciles`). The fold does
  not check that versions are balanced, so both terms occur.
- `my_net_by_group` is documented to reconcile with the balances of the group; it does exactly when
  the group's self-settled amounts add up to zero (`GroupView.OnePassMatchesIff`).
- `simplify_debts` and `settle_up` are documented to use as few transfers as possible; they do exactly
  when the accounts cannot be grouped more finely than the greedy match does
  (`Minimality.GreedyIsMinimalIff`).
- `project` is documented as order-independent, and so are authority and verdicts. The read model is,
  exactly when nothing shown hangs on the order of equal clocks (`OrderFreedom.FoldsAlikeIff`); the
  verdicts, exactly when the latest creates of an entity admit the same ops
  (`OrderFreedom.JudgesAlikeIff`); the authority tables, exactly when no entity is bound in two ways by
  latest creates (`Ties.TablesAlikeIff`). The last is more than the first two ask for
  (`OrderFreedom.ConflictNobodySees`).
- `docs/adr/0006-authorization-entitlement.md` line 73 has an outsider's expenses and settlements
  dropped. One that reuses the id of an existing entry is judged by its own group and parties, and
  replaces the entry when it is latest (`Integrity.StrangerReplacesEntries`); that is the only way an
  outsider's op on the entry counts (`Integrity.OutsidersNeedTheirOwnCreate`).
- `docs/adr/0005-device-identity.md` lines 31-32 have an identity authorise and revoke its own devices.
  The code checks the signer and not whose key is named, so a certificate by another identity can take
  a key over (`Keys.CertificatesMayNameAnyKey`) and a revocation by another can leave a group without
  its founder (`Keys.RevocationsMayNameAnyKey`).

## Model

| member | source | states |
|---|---|---|
| Operations.IdentityIds | splittr-core/crates/splittr-crdt/src/identity.rs:22-29 | distinct keys get distinct user ids, none of them is a placeholder, and each sorts before every placeholder |
| Operations.OrderIsByStamp | splittr-core/crates/splittr-crdt/src/clock.rs:10-19 | clocks are ordered by wall time, then counter, then site, and ops by clock and then by id |
| Ordering.StrLeMeaning | splittr-core/crates/splittr-domain/src/debt.rs:19-21 | ids compare as strings do: a prefix first, else by the first character that differs |
| Operations.GenuineIdsUnique | splittr-core/crates/splittr-crdt/src/op.rs:163-189 | ops whose id is the hash of their content are told apart by id, whatever their signatures |
| Operations.VerifyMeaning | splittr-core/crates/splittr-crdt/src/op.rs:181-190 | an op verifies exactly when its id is the hash of its content and its author signed it; a wrong hash is reported first |
| Clock.HlcGenerator.constructor | splittr-core/crates/splittr-app/src/clock.rs:14-23 | a new generator starts at wall time 0, counter 0, on its own site |
| Clock.HlcGenerator.Next | splittr-core/crates/splittr-app/src/clock.rs:27-39 | the tick and the new state; the result is greater than the last one exactly when the counter does not run over |
| Clock.StampsFollowWalls | splittr-core/crates/splittr-app/src/clock.rs:27-39 | the last stamp of any run carries the greatest wall time shown, and as counter the ticks since that was first shown, or since the start while none was positive, modulo 2^32 |
| Clock.OutputsOfPrefix | splittr-core/crates/splittr-app/src/clock.rs:27-39 | every stamp is the last of the run up to it |
| Clock.OutputsIncrease | splittr-core/crates/splittr-app/src/clock.rs:27-39 | a whole run of ticks strictly increases, whatever the wall clock does, exactly when no tick runs the counter over |
| Clock.FewTicksNeverOverflow | splittr-core/crates/splittr-app/src/clock.rs:27-39 | fewer than 2^32 ticks never run over |
| Clock.GeneratorsDischargeDistinctness | splittr-core/crates/splittr-app/src/clock.rs:8-39 | ops stamped by one generator per site carry pairwise distinct clocks |
| Registers.RegisterDecided | splittr-core/crates/splittr-crdt/src/materialize.rs:29-38 | a register holds what its deciding write wrote: no write of the key is later, and no earlier write has the same clock |
| Registers.RegisterKeys | splittr-core/crates/splittr-crdt/src/materialize.rs:29-38 | a key is present exactly when some op writes it |
| Registers.OrderFreeIffUnconflicted | splittr-core/crates/splittr-crdt/src/materialize.rs:29-38 | every order and repetition of the ops gives the same register exactly when no key is written twice with the same, latest clock and different values |
| Registers.RegisterAbsorbs | splittr-core/crates/splittr-crdt/src/materialize.rs:29-38 | writing ops again changes no register, ties included |
| Aliases.ResolveAliases | splittr-core/crates/splittr-crdt/src/authorize.rs:483-525 | the graph, search and recording loops yield the alias map of the connected components, and terminate |
| Aliases.Explore | splittr-core/crates/splittr-crdt/src/authorize.rs:495-512 | the depth-first search visits exactly the component of its start and nothing visited before |
| Aliases.ResolveEqualsIffConnected | splittr-core/crates/splittr-crdt/src/authorize.rs:483-525 | two ids resolve equally exactly when a path of edges joins them |
| Aliases.ResolveIsLeastAndIdempotent | splittr-core/crates/splittr-crdt/src/authorize.rs:483-525 | an id resolves to the least id of its component, which is no key, so resolving again changes nothing |
| Aliases.IdentityBeatsPlaceholder | splittr-core/crates/splittr-crdt/src/authorize.rs:483-525 | a merged group that contains a real identity is never led by a placeholder |
| Aliases.DirectionIrrelevant | splittr-core/crates/splittr-crdt/src/authorize.rs:483-525 | the alias map ignores the direction of edges, and, being a function of a set, their order and repetition |
| AuthorityPass.CollectDevices | splittr-core/crates/splittr-crdt/src/authorize.rs:86-117 | the loop finds, per device, the greatest certificate and the earliest revocation among the ops signed by the identity itself |
| AuthorityPass.CollectEdges | splittr-core/crates/splittr-crdt/src/authorize.rs:247-258 | the loop finds exactly the edges of unrevoked merges whose author is party to them |
| AuthorityPass.CollectFriends | splittr-core/crates/splittr-crdt/src/authorize.rs:275-285 | the loop finds exactly the resolved declarations, grouped by who made them, none about oneself |
| AuthorityPass.PickFounders | splittr-core/crates/splittr-crdt/src/authorize.rs:287-305 | the loop picks the actor of the earliest unrevoked create of each group |
| AuthorityPass.SeedFounders | splittr-core/crates/splittr-crdt/src/authorize.rs:306-314 | each founder is a member from the start of time |
| AuthorityPass.SortChanges | splittr-core/crates/splittr-crdt/src/authorize.rs:320-324 | the sorted vector holds exactly the membership ops, in order |
| AuthorityPass.ReplayMembership | splittr-core/crates/splittr-crdt/src/authorize.rs:325-347 | the replay loop produces timelines of exactly the accepted changes |
| AuthorityPass.ReplayStep | splittr-core/crates/splittr-crdt/src/authorize.rs:325-347 | recording a change on what the timelines say so far agrees with the set-level verdict, also when the op occurs twice |
| AuthorityPass.BindEntities | splittr-core/crates/splittr-crdt/src/authorize.rs:349-400 | the loop keeps group and parties of each entity in step with one last-writer-wins register |
| AuthorityPass.Build | splittr-core/crates/splittr-crdt/src/authorize.rs:241-403 | the staged pass answers every question as the authority of the log does |
| AuthorityPass.VerdictsAlike | splittr-core/crates/splittr-crdt/src/authorize.rs:407-481 | verdicts cannot tell timelines apart that differ only in repeated events |
| Membership.AcceptedIsSettled | splittr-core/crates/splittr-crdt/src/authorize.rs:316-347 | a membership change is accepted exactly when its author is unrevoked and was a member strictly before it |
| Membership.AcceptedIsUnique | splittr-core/crates/splittr-crdt/src/authorize.rs:316-347 | the accepted changes are the only selection with that property |
| Membership.TimelineVerdict | splittr-core/crates/splittr-crdt/src/authorize.rs:205-213 | reading a timeline at an order gives the verdict of the last change up to it, or of the founder seed |
| Membership.TimelinesListAdmitted | splittr-core/crates/splittr-crdt/src/authorize.rs:316-347 | timelines stay sorted and list exactly the admitted changes |
| Membership.CurrentIsLatest | splittr-core/crates/splittr-crdt/src/authorize.rs:215-227 | the current members are the members as of any order no op exceeds |
| Membership.MembershipProvenance | splittr-core/crates/splittr-crdt/src/authorize.rs:205-213 | whoever is a member of a group is reached from its founder by a finite, strictly increasing chain of unrevoked admissions, each authored by the previous link while a member; without a founder nobody is |
| Membership.NoSelfAdmission | splittr-core/crates/splittr-crdt/src/authorize.rs:316-347 | nobody but the founder is a member unless someone else admitted them |
| Membership.ContextIgnoresMembership | splittr-core/crates/splittr-crdt/src/authorize.rs:241-314 | devices, aliases, founders and friendships do not depend on membership changes |
| Membership.LaterChangesKeepThePast | splittr-core/crates/splittr-crdt/src/authorize.rs:205-213 | membership changes ordered after a point rewrite no membership verdict up to it |
| Membership.FoundersDependOnFoundingOps | splittr-core/crates/splittr-crdt/src/authorize.rs:287-314 | dropping ops other than the founding creates changes no founder |
| Materialization.Folder.Apply | splittr-core/crates/splittr-crdt/src/materialize.rs:105-215 | every field of the folder stays the register or set of the ops applied so far |
| Materialization.Folder.ApplyGroupOp | splittr-core/crates/splittr-crdt/src/materialize.rs:107-169 | creates, names, currencies and closing dates reach exactly their own field |
| Materialization.Folder.ApplyExpenseOp | splittr-core/crates/splittr-crdt/src/materialize.rs:130-176 | creates, edits, publishes, voids and locks reach exactly their own fields |
| Materialization.Folder.Assemble | splittr-core/crates/splittr-crdt/src/materialize.rs:217-303 | the assembled read model is the one the registers and sets spell out |
| Materialization.Fold | splittr-core/crates/splittr-crdt/src/materialize.rs:306-317 | authority first, then the entitled ops in log order, gives the read model of the log |
| Materialization.Materializer.Apply | splittr-core/crates/splittr-crdt/src/materialize.rs:50-55 | retains an op under its id unless one is there |
| Materialization.FirstIsRetained | splittr-core/crates/splittr-crdt/src/materialize.rs:51-61 | what is retained under an id stays, and otherwise the first op of the batch with that id is |
| Materialization.IdOrderAscends | splittr-core/crates/splittr-crdt/src/materialize.rs:64-67 | retained ops are folded by ascending id |
| Materialization.Materializer.ApplyAll | splittr-core/crates/splittr-crdt/src/materialize.rs:57-61 | retains a batch in turn |
| Materialization.Materializer.Project | splittr-core/crates/splittr-crdt/src/materialize.rs:64-67 | folds what is retained in id order |
| Convergence.FoldIsOrderFree | splittr-core/crates/splittr-crdt/src/materialize.rs:69-72 | any order and repetition of the same ops folds to the same read model when no binding and no shown value has conflicting latest writes |
| Convergence.DistinctClocksNeverConflict | splittr-core/crates/splittr-crdt/src/materialize.rs:69-72 | distinct clocks leave no such conflict |
| OrderFreedom.FoldsAlikeIff | splittr-core/crates/splittr-crdt/src/materialize.rs:69-72 | every order and repetition folds to the same read model exactly when no shown group or user has conflicting latest writes and every expense and settlement is settled: whichever of its latest creates or records binds it, it is hidden, or shows one group, one version, one lock and one publication whatever the order of the rest |
| OrderFreedom.MaterializerAgreesIff | splittr-core/crates/splittr-crdt/src/materialize.rs:44-72 | incremental folding agrees with batch folding in every order exactly under the same condition |
| OrderFreedom.JudgesAlikeIff | splittr-core/crates/splittr-crdt/src/authorize.rs:349-458 | every order and repetition gives every op the same verdict exactly when all latest creates of an expense, and all latest records of a settlement, admit the same ops |
| Ties.TablesAlikeIff | splittr-core/crates/splittr-crdt/src/authorize.rs:349-400 | every order and repetition gives the same authority tables exactly when no expense or settlement is bound in two ways by latest creates |
| Ties.OrderFreeIffNoConflicts | splittr-core/crates/splittr-crdt/src/authorize.rs:3-8 | authority tables and read model together are independent of order and repetition exactly when there is no conflict of either kind |
| OrderFreedom.ConflictNobodySees | splittr-core/crates/splittr-crdt/src/authorize.rs:366-376 | a log whose authority tables depend on the order of two tied creates, while every verdict and the read model are the same in all orders |
| Ties.TiesCanConflict | splittr-core/crates/splittr-crdt/src/materialize.rs:29-38 | a conflict of values: two ops of one author with one clock, folded in both orders, differ |
| Ties.BindingTieDecidesVerdict | splittr-core/crates/splittr-crdt/src/authorize.rs:366-376 | a conflict of bindings: the order of two creates with one clock decides whether a void counts, and so whether the expense shows |
| Convergence.FoldIsIdempotent | splittr-core/crates/splittr-crdt/src/materialize.rs:69-72 | folding ops a second time changes nothing, equal clocks included |
| Convergence.MaterializerIsOrderFree | splittr-core/crates/splittr-crdt/src/materialize.rs:44-67 | what the materializer folds depends only on the contents delivered, for every order, repetition and signature |
| Convergence.MaterializerAgreesWithProject | splittr-core/crates/splittr-crdt/src/materialize.rs:44-72 | incremental and batch folding agree when there are no conflicts, in particular when clocks are distinct |
| Convergence.StandingWithoutUnauthorized | splittr-core/crates/splittr-crdt/src/authorize.rs:241-347 | dropping unauthorized ops (losing creates, refused merges, rejected membership changes, device ops not signed by the identity) changes no device, alias, founder, membership or friendship |
| Convergence.UnauthorizedOpsAreHarmless | splittr-core/crates/splittr-crdt/src/authorize.rs:241-458 | dropping any unauthorized ops, of every kind, changes no verdict and nothing in the read model |
| Convergence.AcceptedWithoutRejected | splittr-core/crates/splittr-crdt/src/authorize.rs:316-347 | dropping rejected membership changes leaves the accepted ones as they are |
| Convergence.LaterChangesKeepVerdicts | splittr-core/crates/splittr-crdt/src/authorize.rs:407-458 | later membership changes never alter the verdict on an op that names its group |
| Convergence.ExpenseBindingsAgree | splittr-core/crates/splittr-crdt/src/authorize.rs:349-400 | the group an expense is judged against is the group it is displayed in, ties included |
| Convergence.SettlementBindingsAgree | splittr-core/crates/splittr-crdt/src/authorize.rs:349-400 | the same for settlements |
| Convergence.VersionsHaveHomes | splittr-core/crates/splittr-crdt/src/materialize.rs:243-263 | every folded version has a group entry, so assembling never skips one |
| Convergence.ExpenseShown | splittr-core/crates/splittr-crdt/src/materialize.rs:243-265 | an expense shows exactly when an entitled create and no entitled void exist, whatever their clocks |
| Convergence.ExpenseContents | splittr-core/crates/splittr-crdt/src/materialize.rs:130-162 | it shows verbatim the latest entitled version, the group of the latest entitled create, and is published exactly when something published it |
| Convergence.ExpenseLock | splittr-core/crates/splittr-crdt/src/materialize.rs:170-176 | its lock is the latest entitled lock, and off without one |
| Convergence.SettlementShown | splittr-core/crates/splittr-crdt/src/materialize.rs:177-202 | a settlement shows exactly when recorded and never voided, with its latest entitled record |
| Convergence.GroupContents | splittr-core/crates/splittr-crdt/src/materialize.rs:218-242 | a group shows its latest entitled name, currency and closing date, the defaults for what was never set, and its current members |
| Convergence.UserContents | splittr-core/crates/splittr-crdt/src/materialize.rs:281-294 | a user shows exactly when an entitled profile exists, with the latest one and the latest entitled key |
| Policy.KeysShown | splittr-core/crates/splittr-crdt/src/authorize.rs:86-117 | on every log: a key is shown exactly when some identity signed a certificate for it, with identity and site of the last certificate, and as revoked exactly when some identity signed a revocation |
| Policy.AliasesShown | splittr-core/crates/splittr-crdt/src/authorize.rs:71-79 | on every log: two ids are shown as one exactly when merges not taken back, by one of the two ids or between guests, join them; under the least id they join |
| Policy.FriendsShownIff | splittr-core/crates/splittr-crdt/src/authorize.rs:191-204 | on every log: a friend is shown exactly when two different users each declared the other by ops not taken back, and nobody is shown without a friend |
| Policy.FoundersAre | splittr-core/crates/splittr-crdt/src/authorize.rs:287-305 | on every log: the founder is the author of the earliest create not taken back, and a group is shown exactly when it has one |
| Policy.MembersShown | splittr-core/crates/splittr-crdt/src/authorize.rs:316-347 | on every log: exactly one set of changes holds just those made by somebody who was a member by the others before it; it decides membership at any time and whom a group shows |
| Policy.VerdictsFollowPolicy | splittr-core/crates/splittr-crdt/src/authorize.rs:405-458 | on every log and for every op: the verdict is what the policy says of the log and the read model, kind by kind |
| Policy.KeyShownIsOwn | splittr-core/crates/splittr-crdt/src/authorize.rs:454 | on every log: the key shown for a user is the latest set, by an op not taken back, by somebody who resolves to that user |
| Policy.NameShownIsOwn | splittr-core/crates/splittr-crdt/src/authorize.rs:450-453 | on every log: a user is shown exactly when named by an op not taken back of somebody who resolves to that user, or of anyone if a guest; under the latest such name |
| Policy.GroupNameShown | splittr-core/crates/splittr-crdt/src/authorize.rs:414-419 | on every log: a group shows the latest name its founder gave on creating it or a member since; creates by others name nothing |
| Integrity.GroupWorkTracesToFounder | splittr-core/crates/splittr-crdt/src/authorize.rs:407-481 | whoever is entitled to work on a group, directly or through an entity bound to it, is reached from its founder by a chain of admissions |
| Integrity.GroupsShownAreFounded | splittr-core/crates/splittr-crdt/src/materialize.rs:217-242 | the groups shown are exactly the founded ones |
| Integrity.ShownHomesAreShown | splittr-core/crates/splittr-crdt/src/materialize.rs:243-280 | no expense or settlement is shown in a group that is not shown |
| Integrity.FriendsAreShown | splittr-core/crates/splittr-crdt/src/authorize.rs:193-203 | two users are friends for the verdicts exactly when the read model lists each with the other |
| Integrity.SharedAmongFriends | splittr-core/crates/splittr-crdt/src/authorize.rs:166-172 | whoever enters an expense outside any group takes part in it, with shown friends and guests only |
| Integrity.EditsMayNameAnyone | splittr-core/crates/splittr-crdt/src/authorize.rs:426-429 | the verdict on an edit does not depend on what the edit says or whom it names |
| Integrity.BindingCreate | splittr-core/crates/splittr-crdt/src/authorize.rs:366-376 | an expense is bound to the group and parties of an entitled create that no entitled create of it is later than |
| Integrity.ActingNeedsPart | splittr-core/crates/splittr-crdt/src/authorize.rs:460-469 | whoever may edit, publish, lock or void an expense has a part in the entitled create it is bound to, as a party or as a member of its group |
| Integrity.OutsidersNeedTheirOwnCreate | docs/adr/0006-authorization-entitlement.md:73 | somebody with no part in any entitled create of an expense by others has an op on it that counts exactly when they have a create of the same id that counts |
| Integrity.LatestCreateReplaces | splittr-core/crates/splittr-crdt/src/materialize.rs:136-150 | such a create, later than every other entitled version and not voided, replaces the expense: its group and fields are shown and later ops are judged by it |
| Integrity.OutsidersNeedTheirOwnRecord | docs/adr/0006-authorization-entitlement.md:73 | the same equivalence for every op on a settlement |
| Integrity.LatestRecordReplaces | splittr-core/crates/splittr-crdt/src/materialize.rs:177-197 | a latest entitled record of a settlement id, not voided, replaces the settlement and the parties its void is judged by |
| Integrity.StrangerReplacesEntries | docs/adr/0006-authorization-entitlement.md:73 | a log in which somebody never in the group enters the ids of its expense and its settlement anew: both leave the group and show what that person wrote |
| Keys.KeyIsIndependentIff | splittr-core/crates/splittr-crdt/src/authorize.rs:86-117 | the certificate and revocation of a key are untouched by another identity's ops exactly when all of that identity's certificates naming it are outranked and its revocations preceded or matched |
| Revocation.RevocationTakesBack | docs/adr/0005-device-identity.md:37 | a revocation anywhere in a log reads, and judges every op, as if neither it nor any op of the revoked key from its clock on had been written, certificates and revocations apart; only the mark on the device record tells |
| Keys.RevocationsMayNameAnyKey | docs/adr/0005-device-identity.md:32 | a revocation may name a key that is not of the signer's own devices: one that names a founder's key leaves the group without a founder |
| Keys.CertificatesMayNameAnyKey | docs/adr/0005-device-identity.md:31 | a certificate may name a key that is not the signer's own: one that names a founder's key makes its signer the group's founder |
| Debt.SimplifyDebts | splittr-core/crates/splittr-domain/src/debt.rs:30-66 | the two-pointer loop over arrays decremented in place yields the greedy settlement, and terminates; for 64-bit balances no operator leaves 64 bits exactly when none of them is the least 64-bit number |
| Debt.PayHead | splittr-core/crates/splittr-domain/src/debt.rs:56-63 | paying the head in place and stepping over it once settled leaves the rest of the array as it was, and stays within 64 bits |
| Debt.SettlementIsSound | splittr-core/crates/splittr-domain/src/debt.rs:30-66 | for any balances transfers are positive, run from a debtor to a creditor, never repeat a pair, move the smaller total, overpay nobody and number at most n - 1 |
| Debt.LargestSettleFirst | splittr-core/crates/splittr-domain/src/debt.rs:42-55 | the first transfer joins the largest debtor and the largest creditor, ties to the smaller id |
| Debt.SettlementClears | splittr-core/crates/splittr-domain/src/debt.rs:30-66 | balances that sum to zero are settled exactly, every account |
| Debt.CreditorsAreServedInOrder | splittr-core/crates/splittr-domain/src/debt.rs:47-64 | each creditor receives its amount or what is left of what moves, in rank order |
| Debt.DebtorsPayInOrder | splittr-core/crates/splittr-domain/src/debt.rs:47-64 | each debtor pays its amount or what is left of what moves, in rank order |
| Debt.AccountIsSettledIff | splittr-core/crates/splittr-domain/src/debt.rs:47-64 | on any balances an account is settled exactly when those ranked up to it come to no more than what moves |
| Debt.RankedIsByAmount | splittr-core/crates/splittr-domain/src/debt.rs:19-21 | larger amounts come first, and of equal ones the smaller id |
| Debt.TransfersGoByAmount | splittr-core/crates/splittr-domain/src/debt.rs:24-28 | transfers go through debtors and through creditors from the largest down, ties to the smaller id |
| Debt.LargerIsSettledFirst | splittr-core/crates/splittr-domain/src/debt.rs:24-28 | nobody pays or is paid before everyone on that side with a larger amount, or the same and a smaller id, is settled |
| Minimality.FewPaymentsManyGroups | splittr-core/crates/splittr-domain/src/debt.rs:21-29 | payments that settle balances group the non-zero accounts into parts that sum to zero, at least as many as there are accounts beyond payments |
| Minimality.ManyGroupsFewPayments | splittr-core/crates/splittr-domain/src/debt.rs:21-29 | every grouping into parts that sum to zero yields payments that settle, one fewer than accounts for each part |
| Minimality.FewestPayments | splittr-core/crates/splittr-domain/src/debt.rs:21-29 | the fewest payments that settle are the non-zero accounts less the parts of the finest grouping |
| Minimality.LevelPointsMeaning | splittr-core/crates/splittr-domain/src/debt.rs:47-64 | the level points are the amounts that both some of the largest debts and some of the largest credits add up to |
| Minimality.SuggestedPayments | splittr-core/crates/splittr-domain/src/debt.rs:30-66 | the suggested payments for zero-sum balances number the non-zero accounts less the points at which ranked debtors and creditors run level |
| Minimality.SettledIffZeroSum | splittr-core/crates/splittr-domain/src/debt.rs:30-66 | the suggested payments settle the balances, and any payments can, exactly when they sum to zero |
| Minimality.GreedyIsMinimalIff | splittr-core/crates/splittr-crdt/src/balance.rs:38-42 | for any balances no payments settle them in fewer steps than the suggested ones exactly when no grouping has more parts than there are such level points |
| Minimality.IndivisibleIsMinimal | splittr-core/crates/splittr-crdt/src/balance.rs:38-42 | in particular the suggested payments are the fewest when no proper part of the accounts sums to zero |
| Minimality.GreedyIsNotMinimal | splittr-core/crates/splittr-crdt/src/balance.rs:38-42 | five balances that three payments settle get four |
| Splitting.SplitEqualIsExact | splittr-core/crates/splittr-domain/src/split.rs:17-38 | equal shares add up to a total, also a negative one, exactly when somebody shares it or it is zero, and differ by at most a cent |
| Splitting.SumWeights | splittr-core/crates/splittr-domain/src/split.rs:122-125 | the weights add up to the total weight |
| Splitting.FloorShares | splittr-core/crates/splittr-domain/src/split.rs:128-136 | each share is its quotient with its remainder, and what is left is the leftover |
| Splitting.SortByRemainder | splittr-core/crates/splittr-domain/src/split.rs:139-145 | the positions come in handout order, largest remainder first, ties by id |
| Splitting.HandOut | splittr-core/crates/splittr-domain/src/split.rs:146-152 | the first positions get a cent each, nobody two |
| Splitting.SplitByWeights | splittr-core/crates/splittr-domain/src/split.rs:115-161 | empty and weightless inputs are refused, everything else gets the weighted split |
| Splitting.WeightedSplitIsExact | splittr-core/crates/splittr-domain/src/split.rs:110-161 | shares add up to the total exactly when it is not negative or every quota is whole |
| Splitting.NegativeTotalsCanLoseCents | splittr-core/crates/splittr-domain/src/split.rs:110-161 | the documented unconditional exactness fails: minus one cent over two equal weights |
| Splitting.LeftoverIsSmall | splittr-core/crates/splittr-domain/src/split.rs:146-152 | fewer cents are left than there are participants, so the index never wraps round |
| Splitting.ExtraIsFractional | splittr-core/crates/splittr-domain/src/split.rs:139-152 | only a participant whose quota is fractional gets an extra cent |
| Splitting.ExtraGoesByRemainder | splittr-core/crates/splittr-domain/src/split.rs:138-153 | of two participants of whom one gets the extra cent, that one has the larger remainder, or the same and the smaller id |
| Splitting.NegativeSharesAreTruncated | splittr-core/crates/splittr-domain/src/split.rs:130-153 | of a negative total everybody owes the quota truncated toward zero |
| Splitting.SharesAreRoundedQuotas | splittr-core/crates/splittr-domain/src/split.rs:127-152 | each share is its exact quota rounded down or up; whole quotas and zero weights get no extra cent |
| Splitting.HeavierOwesNoLess | splittr-core/crates/splittr-domain/src/split.rs:127-152 | a heavier weight never owes less |
| Splitting.EqualWeightsSplitEqually | splittr-core/crates/splittr-domain/src/split.rs:20-161 | equal weights split as the equal plan does, in id order |
| Splitting.NarrowingIsExact | splittr-core/crates/splittr-domain/src/split.rs:131-133 | products fit 128 bits, quotients fit 64, and the remainder keeps its value as an unsigned word exactly when the total is not negative or the quota is whole |
| Splitting.AccumulatorsFit | splittr-core/crates/splittr-domain/src/split.rs:129-147 | the running sum of quotients, over any participants, and the leftover lie between zero and the total |
| Splitting.SharesFit | splittr-core/crates/splittr-domain/src/split.rs:146-160 | so does each final share |
| Expenses.SumAmounts | splittr-core/crates/splittr-domain/src/expense.rs:55-66 | the checked sum in id order, and whether an addition stops on the way |
| Expenses.SumOwed | splittr-core/crates/splittr-domain/src/expense.rs:63-65 | the checked sum of the splits in order, and whether an addition stops on the way |
| Expenses.SumPlain | splittr-core/crates/splittr-app/src/app.rs:594 | the unchecked sum of payments, which wraps round |
| Expenses.Compute | splittr-core/crates/splittr-domain/src/split.rs:78-108 | each plan is applied or refused with its own error; only a sum of exact amounts that leaves 64 bits stops it |
| Expenses.PlanRefusals | splittr-core/crates/splittr-domain/src/split.rs:80-123 | which plans are refused, and with which error, told from the plan and the total |
| Expenses.AmountsListed | splittr-core/crates/splittr-domain/src/split.rs:80-123 | exact amounts become one split for each user, in id order |
| Expenses.PlansAreExact | splittr-core/crates/splittr-domain/src/split.rs:78-108 | every plan that applies to a non-negative total yields shares that add up to it |
| Expenses.PlansOwedFits | splittr-core/crates/splittr-domain/src/expense.rs:63-71 | adding up the shares of a plan that applies to a non-negative total never stops |
| Expenses.BuildFields | splittr-core/crates/splittr-app/src/app.rs:576-616 | every version that gets through is balanced; one gets through exactly when the total is positive, somebody paid, the payments add up, the plan applies and no checked sum leaves 64 bits; a wrapped sum of payments is stopped and the last check never fires |
| Balances.PostExpense | splittr-core/crates/splittr-crdt/src/balance.rs:22-27 | posting an expense moves each canonical id by what its ids paid minus what they owe, every entry within the volume posted so far |
| Balances.NetBalances | splittr-core/crates/splittr-crdt/src/balance.rs:14-36 | the loops show exactly the non-zero nets, and no checked operator stops while the absolute values of what the ledger posts add up to less than 2^63 |
| Balances.PostStaysBounded | splittr-core/crates/splittr-domain/src/money.rs:60-103 | one posting keeps every entry within the bound, and so within 64 bits while the bound does |
| Balances.SettleUp | splittr-core/crates/splittr-crdt/src/balance.rs:38-42 | suggested payments are the greedy settlement of the nets, within 64 bits when the volume of the ledger is |
| Balances.FlowAdds | splittr-core/crates/splittr-crdt/src/balance.rs:14-36 | the money that reaches a disjoint union of ids is the sum of what reaches each part |
| Balances.NetsSumToImbalance | splittr-core/crates/splittr-crdt/src/balance.rs:9-36 | over everyone the ledger mentions the nets add up to what its published expenses were paid beyond what they are owed |
| Balances.NetIsZeroSum | splittr-core/crates/splittr-crdt/src/balance.rs:9-36 | nets add up to zero over everyone the ledger mentions when published versions reconcile |
| Balances.MergingRedistributes | splittr-core/crates/splittr-crdt/src/balance.rs:9-36 | a canonical id's net is the sum of the unaliased nets of the ids that resolve to it |
| Balances.SettlingUpClears | splittr-core/crates/splittr-crdt/src/balance.rs:38-42 | on a reconciling ledger the suggested payments bring everyone to zero |
| FriendView.PairwiseWith | splittr-core/crates/splittr-crdt/src/balance.rs:95-136 | the loops show exactly the non-zero per-friend balances, and no checked operator stops while the volume of the ledger is within 64 bits |
| FriendView.ViewsAreAntisymmetric | splittr-core/crates/splittr-crdt/src/balance.rs:88-136 | what a's view says of b is the negation of what b's says of a, on every ledger |
| FriendView.ViewReconcilesWithNet | splittr-core/crates/splittr-crdt/src/balance.rs:88-136 | on every ledger per-friend balances add up to the net, less the settlements whose two ends both resolve to the viewer, less what the per-expense settlements leave of the viewer's shares |
| FriendView.ShownViewReconciles | splittr-core/crates/splittr-crdt/src/balance.rs:88-94 | the documented equality holds exactly when those two cancel; when every published expense is balanced, exactly when the self-settled amounts add up to zero |
| FriendView.ReconcilingAttributesAll | splittr-core/crates/splittr-crdt/src/balance.rs:112-121 | per-expense settlements leave nothing of a share when every published expense is balanced |
| FriendView.ResidueVanishesIff | splittr-core/crates/splittr-crdt/src/balance.rs:112-121 | the settlement of any expense, balanced or not, leaves nothing of a share exactly when the shares ranked up to it add up to no more than either side's total |
| FriendView.NoShareNoResidue | splittr-core/crates/splittr-crdt/src/balance.rs:112-121 | who has no share in an expense is left nothing by it |
| FriendView.NoSelfSettlement | splittr-core/crates/splittr-crdt/src/balance.rs:88-94 | in particular when there are none |
| FriendView.SelfSettlementBreaksTheView | splittr-core/crates/splittr-crdt/src/balance.rs:125-132 | a guest who paid and was merged later breaks the documented equality |
| FriendView.UnbalancedExpenseBreaksTheView | splittr-core/crates/splittr-crdt/src/balance.rs:88-94 | one expense that nobody owes breaks it too, with no settlement |
| GroupView.MyNetByGroup | splittr-core/crates/splittr-crdt/src/balance.rs:48-86 | the one-pass loops show exactly the viewer's non-zero nets per group, and no checked operator stops while the volume of the ledger is within 64 bits |
| GroupView.OnePassRefinesSlowView | splittr-core/crates/splittr-crdt/src/balance.rs:44-86 | the one-pass net of a group is the viewer's entry in the group's own balances plus the group's settlements both of whose ends resolve to the viewer |
| GroupView.OnePassMatchesIff | splittr-core/crates/splittr-crdt/src/balance.rs:44-47 | the documented equality of the two views holds exactly when those settlements add up to zero |
| GroupView.SelfSettlementSplitsTheViews | splittr-core/crates/splittr-crdt/src/balance.rs:44-47 | a guest of the group who paid and was merged later breaks it |
| GroupView.PartFlow | splittr-core/crates/splittr-crdt/src/projection.rs:45-65 | the flow of a sub-projection is the flow of its records in the whole |
| GroupView.NetSplitsByGroup | splittr-core/crates/splittr-crdt/src/projection.rs:45-65 | a user's net is the sum over all groups and the part outside any group |
| Ledger.FoldReconciles | splittr-core/crates/splittr-crdt/src/materialize.rs:130-156 | whole versions win or lose, so the folded ledger reconciles when every version does |
| Ledger.LedgerIsZeroSum | splittr-core/crates/splittr-crdt/src/balance.rs:9-36 | the balances of any log of reconciling versions add up to zero under any alias map |
| Ledger.RecordingMoves | splittr-core/crates/splittr-crdt/src/balance.rs:29-32 | a recorded payment raises the payer's balance by its amount and lowers the payee's by as much |
| Ledger.BalancesAreCanonical | splittr-core/crates/splittr-crdt/src/balance.rs:15-33 | where aliases are settled only canonical ids have a balance |
| Ledger.PayingUpClears | splittr-core/crates/splittr-crdt/src/balance.rs:38-42 | recording all suggested payments of a folded ledger of reconciling versions leaves everybody at zero |
| Ledger.BalancesConverge | splittr-core/crates/splittr-crdt/src/balance.rs:14-36 | logs with the same ops and no conflicting latest writes give every user the same balance |
| Store.MemoryOpStore.Append | splittr-core/crates/splittr-store/src/op_store.rs:50-52 | stores under the id, replacing, and says whether the id was new |
| Store.Repository.constructor | splittr-core/crates/splittr-store/src/repository.rs:35-45 | replaying whatever is stored rebuilds the same map in the materializer |
| Store.Repository.Append | splittr-core/crates/splittr-store/src/repository.rs:50-65 | rejected, duplicate or stored exactly as the op verifies and is new; cache and materializer change only when it is stored; store and materializer stay in step exactly when the op displaces no other content |
| Store.Repository.Read | splittr-core/crates/splittr-store/src/repository.rs:69-75 | every read is the fold of what is retained, from the cache or not, and of the stored log while the two are in step |
| Store.AppendIsGuarded | splittr-core/crates/splittr-store/src/repository.rs:47-67 | an append lets in exactly the ops that their author signed and whose id is their hash; all others are rejected |
| Store.RunsAreGuarded | splittr-core/crates/splittr-store/src/repository.rs:47-67 | after any run of commands every op that was not there before is signed and hashed; a signed log stays signed |
| Store.EntriesAscend | splittr-core/crates/splittr-store/src/op_store.rs:62-64 | stored ops are listed by ascending id |
| Store.AppendedContents | splittr-core/crates/splittr-store/src/repository.rs:47-65 | an append keeps ids hashing their contents and adds at most the op |
| Store.GenuineIsNeverDisplaced | splittr-core/crates/splittr-crdt/src/op.rs:163-189 | nothing is displaced while stored ids are the hashes of their contents |
| Store.DisplacedOpIsStillRead | splittr-core/crates/splittr-store/src/repository.rs:50-60 | a store holding an op under an id that is not its hash opens, and after the genuine op of that id arrives reads are no longer the fold of what is stored |
| Store.ReadsAgree | splittr-core/crates/splittr-store/src/repository.rs:67-75 | logs with the same contents read the same whatever their signatures |
| Store.RunContents | splittr-core/crates/splittr-store/src/repository.rs:47-65 | after any run the log holds its first contents and the verifiable ops appended since |
| Store.Execute | splittr-core/crates/splittr-store/src/repository.rs:32-75 | driven by any commands the cached repository over a genuine log returns what the plain log would |
| Store.Reopen | splittr-core/crates/splittr-store/src/repository.rs:35-45 | reopening on the store of a repository in step reads the same |
| Sync.SyncSession.Open | splittr-core/crates/splittr-sync/src/reconcile.rs:63-66 | announces the held ids and remembers it |
| Sync.SyncSession.Handle | splittr-core/crates/splittr-sync/src/reconcile.rs:70-96 | replies and log after a message; ids are sent once, a delta always |
| Sync.CollectMissing | splittr-core/crates/splittr-sync/src/reconcile.rs:37-45 | collects the held ops whose ids the peer did not announce, in id order |
| Sync.DeltaElems | splittr-core/crates/splittr-sync/src/reconcile.rs:37-45 | the delta is exactly the ops the peer lacks |
| Sync.IngestEach | splittr-core/crates/splittr-sync/src/reconcile.rs:90-95 | ingests a batch through the trust boundary |
| Sync.IngestDelta | splittr-core/crates/splittr-sync/src/reconcile.rs:90-116 | ingesting a delta yields one's own ops and the verifiable others |
| Sync.DeltaAscends | splittr-core/crates/splittr-sync/src/reconcile.rs:35-44 | the delta is sent by ascending id |
| Sync.SyncIsGuarded | splittr-core/crates/splittr-sync/src/transport.rs:46-63 | at no point of any run does either side hold an op it was sent that is not signed and hashed; signed logs stay signed |
| Sync.StepKeepsInvariant | splittr-core/crates/splittr-sync/src/transport.rs:46-63 | every send and receive keeps the channels and outboxes windows of two fixed transcripts, and is progress |
| Sync.RunsKeepInvariant | splittr-core/crates/splittr-sync/src/transport.rs:41-63 | so does every run, in every interleaving; none is longer than eight steps |
| Sync.NoDeadlock | splittr-core/crates/splittr-sync/src/transport.rs:41-63 | no run is stuck before both sides have sent and received twice |
| Sync.RunsEndMerged | splittr-core/crates/splittr-sync/src/transport.rs:41-63 | every run that cannot go on sent and received two messages a side, left the channels empty and each log as its own ops plus the verifiable others |
| Sync.ReplicasAgreeIffMissingVerify | splittr-core/crates/splittr-sync/src/transport.rs:41-63 | the replicas end with the same contents exactly when everything one of them lacked verifies |
| Sync.ReplicasConverge | splittr-core/crates/splittr-sync/src/transport.rs:41-63 | then both hold the union and read the same |
| Sync.NothingIsMissing | splittr-core/crates/splittr-sync/src/transport.rs:41-63 | then neither replica lacks anything the other holds |
| Sync.SecondRunIsEmpty | splittr-core/crates/splittr-sync/src/transport.rs:41-63 | a second run, at any point of any interleaving, has only empty deltas in flight and leaves both logs as they are |

## Left out

- Store.Execute: speaks of logs whose ids are the hashes of their contents; what one append does to any other log is in Store.Repository.Append and Store.DisplacedOpIsStillRead.
- Cryptography: hashing, signatures and the shape of keys, which are foreign libraries.
- Encodings and I/O: postcard bytes, framing, the redb store, encryption at rest, and storage errors.
- `Repository::store_mut`, which hands out the store without the repository's invariant.
- Transport failures: the channels are reliable, ordered and between two parties.
- App commands other than `build_fields`, `query.rs`, invites, pairing, recovery and lock screens: guards and formatting.
- Currency conversion and money formatting: short arithmetic.
- The foreign-function crate and the user interfaces: plumbing.
