# Bulletin chain: renewal accounting, split migration, upload tooling

This project models the parts of the Bulletin chain whose correctness is not visible from any one
function, and proves what holds over all their runs.

**Renewals.** Stored data ages out after a retention period unless it is renewed. The renewal pallet
keeps registrations per content hash, a per-block queue filled by the retention sweep and emptied by
a mandatory drain, and a chain-wide counter of renewed bytes under a hard cap. A first cycle is
prepaid at registration; later cycles are charged as they fire. `Storage`, `Authorization` and
`Renewal` give this as functions on a `State`; `Pallets.Runtime` is the same code in its own
imperative form, each method proved equal to its function; `Runs.Apply` makes every block hook and
extrinsic one atomic step, so a theorem about `Run` ranges over every interleaving of sweeps, drains,
signed, unsigned and Root calls, stores and grants.

**Migration.** A raw scan by `next_key` re-keys and reshapes entries while it writes to and clears
from the store it is walking.

**Tooling.** A greedy block packer and its closed-form twin, a generator/reader pipeline, the Bitswap
client's request tracking, and the byte layouts HOP submitters sign.

Modelling choices:

- A content hash fixes the size of its data (hashing is collision-free); account derivation in the
  pipeline is collision-free in the same sense.
- Integer widths are explicit where the source saturates (`SatAdd`, `SatSub`, `SatMul`); the other
  arithmetic is unbounded, except where the upload loop subtracts nonces unchecked (`WrapSub`).
- The retention period and the cap are constants. The cap may be `u64::MAX`, where saturation can lose
  charges: `EveryRunIsExactIff` says exactly when, and `LostCharge` is a run that gets there.
- `try_state` is modelled as built for tests, where it demands equality; other builds only warn.
- An extrinsic is pre-dispatch followed by dispatch, with an extrinsic index set. A failed dispatch is
  rolled back while the pre-dispatch charge stays.
- Blocks whose queue is left undrained panic at finalization, so they are not part of any run.

Where the code and its documentation differ, the model follows the code:

- `can_renew` is documented as "renew would currently pass validation". It ignores registrations:
  `CanRenewOverclaims` is a concrete case and `CanRenewIffUnregistered` the exact condition.
- `authorize_preimage` is documented as increasing the size of an existing grant. It replaces it, so
  the permanent quota of a preimage can end up above its allowance: `PreimageQuotaCanShrink` is a
  concrete case, `GrantKeepsQuotaIff` the exact condition and `EveryRunKeepsQuotaIff` the condition on
  runs. The account quota cannot.
- The comment on the migration's weight mentions one read per relocated value. The code reads both
  values whether or not they exist, and charges for exactly that (`OnRuntimeUpgrade`).
- The comment on the migration says that a bare account is rebuilt as prepaid. The code rebuilds it
  unpaid, and `ReshapeDecodes` says so.
- `try_state` is documented as checking that the counter is at most the sum. The code compares for
  equality.
- A Bitswap fetch is documented as answered with one block per requested CID. A reply may hold fewer
  (`FewerBlocks`), more (`MoreBlocks`) or the wrong ones (`RepeatedBlock`); `BlockCountIff` is the exact
  condition for the number and `OneBlockPerCidIff` for the blocks themselves.
- The upload loop expects a reorg to move the nonce back. A reorg below the start nonce makes it panic
  (`ReorgBelowStart`). With wrapping arithmetic, as release builds have it, nothing else does
  (`FeedPool`); with overflow checks an empty wave at nonce 0 panics too, in a log line.

## Model

| member | source | states |
|---|---|---|
| `Storage.PushKeepsChain` | pallets/transaction-storage/src/lib.rs:1853-1864 | Appending an entry keeps chunk totals cumulative, every index entry pointing at an entry of its hash, and every recorded hash indexed at its latest block |
| `Storage.SealKeepsChain` | pallets/transaction-storage/src/lib.rs:1110-1116 | Sealing a block loses no entry, and keeps the window, chunk and index invariants |
| `Storage.SealedResolves` | pallets/transaction-storage/src/lib.rs:1422-1441 | Once sealed, every entry of the block resolves by its position and its content by hash |
| `Storage.PositionResolvesIff` | pallets/transaction-storage/src/lib.rs:1422-1441 | A position resolves exactly if a sealed entry is there, and to that entry |
| `Storage.SealsNonEmptyBlocks` | pallets/transaction-storage/src/lib.rs:1111-1115 | A block is sealed exactly when it has entries, although the code tests its chunk total |
| `Storage.ChunksHoldSize` | pallets/transaction-storage/src/lib.rs:1068-1076 | The chunk count is the fewest chunks that hold the data |
| `Storage.SweepIndexes` | pallets/transaction-storage/src/lib.rs:282-323 | The sweep removes from the index exactly the hashes whose latest copy is in the obsolete block |
| `Storage.SweptIsNotRetained` | pallets/transaction-storage/src/lib.rs:282-323 | Content whose latest copy ages out is in no sealed block any more |
| `Storage.SweepKeepsChain` | pallets/transaction-storage/src/lib.rs:1944-1982 | After the sweep no stale block remains, chunk totals are cumulative, and the index is sound and complete |
| `Authorization.GrantsKeepQuota` | pallets/transaction-storage/src/lib.rs:1172-1302 | Granting, refreshing and removing grants keep every account's permanent bytes within its allowance |
| `Authorization.GrantKeepsQuotaIff` | pallets/transaction-storage/src/lib.rs:1193-1263 | A grant keeps its scope's used bytes within the allowance if and only if it is for an account, opens a fresh window, or replaces a preimage grant by at least what was spent |
| `Authorization.PreimageQuotaCanShrink` | pallets/transaction-storage/src/lib.rs:1243-1247 | The failing input: a preimage re-grant that leaves its used bytes above its allowance |
| `Accounting.ChargeIsExactIff` | pallets/data-renewal/src/lib.rs:576-608 | An admitted charge stays within the cap; it adds exactly its size if and only if the sum does not pass `u64::MAX`, which a lower cap guarantees |
| `Accounting.DrainOneFields` | pallets/data-renewal/src/lib.rs:515-564 | What each of the three fates of a queued item does to queue, registrations, entries and counter |
| `Accounting.PrepaidAfterDrainOne` | pallets/data-renewal/src/lib.rs:529-563 | Draining an item removes exactly its own prepayment, whatever its fate |
| `Accounting.DrainOneKeepsAccountIff` | pallets/data-renewal/src/lib.rs:514-564 | One drained item keeps the counter equal to renewed plus prepaid bytes if and only if it is not charged past `u64::MAX` |
| `Accounting.DrainKeepsInv` | pallets/data-renewal/src/lib.rs:482-567 | The drain empties the queue and keeps the state invariant, and ends exact if it was exact throughout |
| `Accounting.DrainExactIff` | pallets/data-renewal/src/lib.rs:482-567 | The counter is exact after every item of a drain if and only if all its charges are made in full |
| `Accounting.QueueIsDue` | pallets/data-renewal/src/lib.rs:787-802 | The sweep queues each registered hash whose latest copy ages out exactly once; the bounded push never drops one |
| `Accounting.InitializeFields` | pallets/data-renewal/src/lib.rs:774-804 | The queue after a sweep is exactly the due registrations, distinct and within the block limit; registrations are untouched |
| `Accounting.InitializeKeepsQueue` | pallets/data-renewal/src/lib.rs:787-803 | Queued content has left every sealed block, every other registration is still indexed, and nothing prepaid changed |
| `Accounting.InitializeKeepsAccount` | pallets/data-renewal/src/lib.rs:776-785 | The sweep's saturating subtraction is exact and keeps the counter equal to renewed plus prepaid bytes |
| `Accounting.SealKeepsAccount` | pallets/transaction-storage/src/lib.rs:1110-1116 | Sealing a block moves its renewed bytes without changing their total |
| `Runs.RegisterKeeps` | pallets/data-renewal/src/lib.rs:270-292 | Charging then registering keeps the invariant and adds exactly the new prepayment to renewed plus prepaid bytes |
| `Runs.ForceKeeps` | pallets/data-renewal/src/lib.rs:294-318 | Charging then appending a renewed entry keeps the invariant and adds exactly its bytes to that total |
| `Runs.UnregisterKeeps` | pallets/data-renewal/src/lib.rs:368-391 | Dropping a registration loses a prepayment exactly when it was paid and not queued |
| `Runs.StoreSpendsOneScope` | pallets/transaction-storage/src/lib.rs:1708-1726 | A store adds one transaction and its size to one scope, a live preimage grant before the account, and touches no permanent quota, allowance or expiry |
| `Admission.ValidationPredictsPreDispatch` | pallets/data-renewal/src/extension.rs:117-207 | Validation changes nothing; pre-dispatch agrees with it on verdict, error and scope, and charges that one scope, or none for a disable |
| `Admission.AdmittedDispatches` | pallets/data-renewal/src/lib.rs:260-391 | After a successful pre-dispatch the dispatch cannot fail |
| `Admission.AdmittedUnsignedDispatches` | pallets/data-renewal/src/lib.rs:660-685 | The same for unsigned `force_renew`, backed by a preimage grant alone |
| `Admission.CanRenewIffUnregistered` | pallets/data-renewal/src/lib.rs:687-700 | `renew` passes validation exactly when `can_renew` holds and the content is not registered |
| `Admission.CanRenewOverclaims` | pallets/data-renewal/src/lib.rs:687-700 | A concrete registered content for which `can_renew` holds and `renew` is refused |
| `Admission.SignedKeeps` | pallets/data-renewal/src/extension.rs:117-207 | Every signed call keeps the invariant; it keeps the counter exact if and only if its charge, if any, does not pass `u64::MAX` |
| `Admission.UnsignedKeeps` | pallets/data-renewal/src/lib.rs:452-466 | The same for every unsigned `force_renew` |
| `Verdicts.CheckRenewVerdict` | pallets/data-renewal/src/lib.rs:576-608 | A charge is admitted exactly if the grant is there, the block is before its expiration, and its bytes and the cap have room; each error exactly when its check is the first to fail |
| `Verdicts.CheckRenewEffect` | pallets/data-renewal/src/lib.rs:598-606 | An admitted charge moves one scope's quota and transaction count and the counter, and nothing else |
| `Verdicts.ForceRenewVerdict` | pallets/data-renewal/src/lib.rs:635-658 | `force_renew` is admitted exactly if the entry can be appended and the preimage grant or the caller can pay; the preimage pays whenever it can and then the account is untouched; otherwise the error is the account's |
| `Verdicts.ForceRenewNeedsContent` | pallets/data-renewal/src/extension.rs:117-207 | Unsealed content is the one reason for the not-found error |
| `Verdicts.RenewOnceVerdict` | pallets/data-renewal/src/extension.rs:117-207 | `renew`: admitted exactly for sealed, unregistered content the caller's account can pay; each error exactly when it applies |
| `Verdicts.EnableVerdict` | pallets/data-renewal/src/extension.rs:117-207 | `enable_auto_renew`: the same by hash, the registration looked at first |
| `Verdicts.DisableVerdict` | pallets/data-renewal/src/extension.rs:117-207 | `disable_auto_renew`: admitted exactly for the owner of an unpaid registration, at no charge; the drain is never signed |
| `Verdicts.CanRenewVerdict` | pallets/data-renewal/src/lib.rs:687-700 | `can_renew` holds exactly if the content is sealed, of allowed size, and the account can pay |
| `Verdicts.UnsignedVerdict` | pallets/data-renewal/src/lib.rs:665-685 | An unsigned `force_renew` is admitted exactly if the entry can be appended and its preimage grant can pay |
| `Verdicts.ForceRenewDoes` | pallets/data-renewal/src/lib.rs:299-318 | An admitted `force_renew` appends, indexes and announces one renewed entry; a refused one changes nothing |
| `Verdicts.UnsignedForceRenewDoes` | pallets/data-renewal/src/lib.rs:452-466 | The same for the unsigned call |
| `Verdicts.StoreDoes` | pallets/transaction-storage/src/lib.rs:1698-1726 | A store appends and indexes its entry exactly if size and block allow it and its payer has an unexpired grant, else it changes nothing |
| `Verdicts.RegistrationDispatch` | pallets/data-renewal/src/lib.rs:270-391 | What `renew`, `enable_auto_renew` and `disable_auto_renew` refuse by themselves, and what they write |
| `Verdicts.ForceRenewDispatch` | pallets/data-renewal/src/lib.rs:299-318 | What `force_renew` refuses by itself |
| `Verdicts.OriginsAreChecked` | pallets/data-renewal/src/lib.rs:368-407 | Only signed callers register, only Root and owners disable, only the block author drains |
| `Safety.StoreKeeps` | pallets/transaction-storage/src/lib.rs:1052-1102 | Storing keeps invariant and counter |
| `Safety.RootForceRenewDrifts` | pallets/data-renewal/src/lib.rs:299-318 | A Root `force_renew` adds its bytes on chain and nothing to the counter |
| `Safety.RootKeepsAccountIff` | pallets/data-renewal/src/lib.rs:742-746 | A Root call keeps the counter exact if and only if it neither renews uncharged nor drops a paid registration that is not queued |
| `Safety.StepKeepsInv` | pallets/data-renewal/src/lib.rs:111-407 | Every step, Root's included, keeps the state invariant |
| `Safety.StepKeepsAccountIff` | pallets/data-renewal/src/lib.rs:703-769 | A step keeps the counter exact, inside a drain too, if and only if it is no Root override and makes its charges in full |
| `Safety.EveryRun` | pallets/data-renewal/src/lib.rs:762-765 | In every state of every run from genesis the invariant holds and the counter is within the cap |
| `Safety.EveryRunIsExactIff` | pallets/data-renewal/src/lib.rs:703-769 | From genesis, at any cap, the counter equals renewed plus prepaid bytes throughout a run if and only if the run has no Root override and no admitted charge passes `u64::MAX` |
| `Safety.EveryRunIsAccounted` | pallets/data-renewal/src/lib.rs:703-751 | In every state of every run without Root overrides the counter equals renewed bytes plus prepaid bytes, under any cap below `u64::MAX` and, if all charges fit, at it |
| `Safety.StoredDataIsRetained` | pallets/transaction-storage/src/lib.rs:793-799 | Whatever a run does, every sealed block stays in place with its exact entries until it is older than the retention period |
| `Safety.StaysResolvable` | pallets/transaction-storage/src/lib.rs:793-799 | Whatever a run does, a sealed entry resolves at its position up to the end of its retention period and not after |
| `Safety.RegisteredIsLive` | pallets/data-renewal/src/lib.rs:725-738 | At a block end every registration's content resolves to a stored entry of its hash and size |
| `Safety.TryStateHolds` | pallets/data-renewal/src/lib.rs:709-768 | `try_state` passes at the end of every block of such a run |
| `Safety.TryStateIsExact` | pallets/data-renewal/src/lib.rs:739-746 | Under a cap below `u64::MAX` the saturating sums hide nothing: a state that passes has an exact counter |
| `LifeCycle.DrainAllRelates` | pallets/data-renewal/src/lib.rs:514-566 | The drain never creates a registration, so a same-block disable is never undone; what it changes or ends it announces |
| `LifeCycle.RegistrationLife` | pallets/data-renewal/src/types.rs:53-70 | Account and kind never change; the prepayment is used only by a drain that renews; a registration ends only by one-shot delivery, failure, its owner when unpaid, or Root, each with its event |
| `LifeCycle.RegistrationBirth` | pallets/data-renewal/src/lib.rs:45-51 | A registration appears only by an admitted signed call for retained content, paid, its size added to the counter (saturating), announced with its owner and kind |
| `LifeCycle.NeverLapsesSilently` | pallets/data-renewal/src/lib.rs:482-491 | Over any run a registration is still there with its owner and kind, or the log shows its one-shot delivery, its failure or its removal; a refused disable does not count |
| `Delivery.PaidItemIsDelivered` | pallets/data-renewal/src/lib.rs:514-547 | While the block has room for the queue, every paid item is delivered and its prepayment used up |
| `Delivery.QueueWaits` | pallets/data-renewal/src/lib.rs:225-242 | Until it is drained the queue is unchanged whatever steps run, and a block with a queue cannot end |
| `Delivery.PrepaidCycleIsDelivered` | pallets/data-renewal/src/lib.rs:482-567 | Whatever steps run between sweep and drain, a prepaid registration is renewed in the block where its latest copy ages out if the drain finds room for its queue; nothing else, Root included, can stop it |
| `Delivery.DrainBeforeStorageHasRoom` | pallets/data-renewal/src/lib.rs:787-789 | A drain that comes before any storage of its block, whatever else comes before it, finds that room |
| `Delivery.FullBlockRejects` | pallets/data-renewal/src/lib.rs:548-563 | A full block rejects even a paid item, refunds the counter exactly, leaves the quota spent and announces the failure; an unpaid item leaves the counter as it was if and only if its charge fits |
| `Delivery.RoomForUnpaidNeverCaps` | pallets/data-renewal/src/lib.rs:595-597 | If the cap has room for all unpaid queued bytes, no item is refused for the cap |
| `Delivery.SteadyStateIsNeverCapped` | pallets/data-renewal/src/lib.rs:776-785 | If everything unpaid is due through renewed entries, no item of the drain meets the cap, wherever in its block the drain comes, while charges before it fit the room left under the cap before the sweep |
| `Scenario.PrepaidContentIsRenewed` | pallets/data-renewal/src/lib.rs:482-567 | A concrete run from genesis stores, registers and ages out content, and the next drain renews it: the hypotheses of the delivery theorem are reachable |
| `Ledger.DrainBalances` | pallets/data-renewal/src/lib.rs:515-564 | Per content: charges of the drain plus prepayments before equal deliveries, rejections and prepayments after |
| `Ledger.StepBalances` | pallets/data-renewal/src/lib.rs:45-51 | The same balance for every step |
| `Ledger.RunAnnounces` | pallets/data-renewal/src/lib.rs:198-221 | Registrations, deliveries and failures in the books are exactly those announced by events |
| `Ledger.EveryCycleIsChargedOnce` | pallets/data-renewal/src/lib.rs:45-51 | Over any run, per content: registrations plus drain charges equal deliveries, slot rejections, Root forfeits and the outstanding prepayment; announced failures are the rejections and refusals |
| `Ledger.RoomyRunsRejectNone` | pallets/data-renewal/src/lib.rs:523-527 | On runs whose drains have room for their queue no charged cycle is rejected |
| `Quota.BooksAreDebits` | pallets/data-renewal/src/lib.rs:45-51 | On every run the registrations and drain charges in the books of a content are exactly the charges made to scopes for it |
| `Quota.QuotaIsWhatWasCharged` | pallets/data-renewal/src/lib.rs:576-608 | Within one grant window a scope's permanent bytes grow by exactly the sizes charged to it, as a saturating `u64`; rejections, disables and Root refund nothing |
| `Quota.NoChargeAfterExpiry` | pallets/transaction-storage/src/lib.rs:1550-1555 | On no run is a scope charged at or after its expiration block |
| `Quota.GrantPresence` | pallets/transaction-storage/src/lib.rs:1193-1302 | A grant appears only by granting and disappears only by removal at or after its expiration block |
| `Quota.ExpiryMoves` | pallets/transaction-storage/src/lib.rs:1193-1291 | Expiry is set only by a refresh or a fresh window, to one period from now or the authorizer's expiry if sooner |
| `Quota.AllowanceMoves` | pallets/transaction-storage/src/lib.rs:1193-1263 | A fresh window has what was granted, an open account window the sum, an open preimage window the new grant; nothing else moves an allowance |
| `Quota.CountersMove` | pallets/transaction-storage/src/lib.rs:1212-1260 | A fresh window starts from zero; granting, refreshing and removing touch no counter of an open one |
| `Quota.AllowanceIsWhatWasGranted` | pallets/transaction-storage/src/lib.rs:1233-1242 | Within one window an account's allowance is the saturating sum of all it was granted over the run |
| `Quota.ExpiryStays` | pallets/transaction-storage/src/lib.rs:1178-1183 | Within one window grants never move an account's expiry |
| `Quota.NoAccountOverspendsIff` | pallets/data-renewal/src/lib.rs:589-594 | Within one window an account is charged at most its allowance if and only if no step charges its quota past `u64::MAX`; an allowance below that refuses every such step |
| `Quota.StepKeepsQuotaIff` | pallets/transaction-storage/src/lib.rs:1193-1263 | A step keeps a scope within its allowance if and only if it is not a re-grant of an open preimage below what was spent |
| `Quota.EveryRunKeepsQuotaIff` | pallets/transaction-storage/src/lib.rs:1193-1263 | From genesis a scope stays within its allowance in every state of a run if and only if no such re-grant occurs; accounts always do |
| `TopValues.ReachesTheTop` | pallets/data-renewal/src/lib.rs:576-608 | A concrete run from genesis, with `u32::MAX`-sized entries and slots, that brings counter and quota to `u64::MAX` by exact charges |
| `TopValues.LostCharge` | pallets/data-renewal/src/lib.rs:589-606 | The failing input: at its end the next `force_renew` is admitted and stored while counter and quota stay put, so neither is exact any more |
| `EventLog.UpdateLog` | pallets/data-renewal/src/lib.rs:614-626 | A counter update is announced, and marked near-cap exactly when it crosses the threshold upward |
| `EventLog.EveryRunIsLogged` | pallets/data-renewal/src/lib.rs:610-626 | On every run the last announced value is the counter, and near-cap events stand exactly at rising edges |
| `EventLog.NearCapNeedsAFall` | pallets/data-renewal/src/lib.rs:217-220 | Between two near-cap events some update leaves the counter below the threshold |
| `EventLog.NearCapIsNotRepeated` | pallets/data-renewal/src/lib.rs:217-220 | In the log of any run from genesis, between two near-cap events the counter is announced below the threshold |
| `EventLog.ThresholdIsTight` | pallets/data-renewal/src/lib.rs:620-622 | The divide-first threshold never overflows and is at most 79 bytes below the exact percentage |
| `Pallets.Runtime.UpdatePermanentStorageUsed` | pallets/data-renewal/src/lib.rs:614-626 | New value and events are those of the specification |
| `Pallets.Runtime.CheckRenewAuthorization` | pallets/data-renewal/src/lib.rs:576-608 | Same verdict and charge as the specification; a refusal or a check without consuming writes nothing |
| `Pallets.Runtime.AuthorizeRenewal` | pallets/data-renewal/src/lib.rs:635-658 | Preimage first, then account: same scope, error and charge as the specification |
| `Pallets.Runtime.CheckRenewalSigned` | pallets/data-renewal/src/extension.rs:117-207 | Same verdict, scope and charge as the specification for all calls |
| `Pallets.Runtime.CheckRenewUnsigned` | pallets/data-renewal/src/lib.rs:665-685 | Same verdict and charge as the specification |
| `Pallets.Runtime.ResolveTransactionRef` | pallets/transaction-storage/src/lib.rs:1422-1441 | References resolve against sealed blocks only |
| `Pallets.Runtime.PushEntry` | pallets/transaction-storage/src/lib.rs:1853-1864 | Appends and indexes at once, or changes nothing when the block is full |
| `Pallets.Runtime.ProcessOne` | pallets/data-renewal/src/lib.rs:515-564 | One queued item, charged, appended and settled as specified |
| `Pallets.Runtime.DoProcessPendingRenewals` | pallets/data-renewal/src/lib.rs:492-567 | Taking the queue and looping equals the specified drain, keeps the invariant, and keeps the counter exact if its charges fit |
| `Pallets.Runtime.HandleObsoleteItems` | pallets/data-renewal/src/lib.rs:775-803 | The two loops with their saturating sum and bounded push equal the specified callback |
| `Pallets.Runtime.FlagLatest` | pallets/transaction-storage/src/lib.rs:294-313 | Flagging entries while clearing the index equals flagging the whole block at once |
| `Pallets.Runtime.OnInitialize` | pallets/transaction-storage/src/lib.rs:282-323 | Opening a block equals the specified sweep and keeps invariant and counter |
| `Pallets.Runtime.OnFinalize` | pallets/data-renewal/src/lib.rs:225-242 | Only a block with an empty queue finalizes; sealing keeps invariant and counter |
| `Pallets.Runtime.RenewOnceCall` | pallets/data-renewal/src/lib.rs:270-292 | Same result and effect as the specified dispatch |
| `Pallets.Runtime.ForceRenewCall` | pallets/data-renewal/src/lib.rs:299-318 | Same result and effect as the specified dispatch |
| `Pallets.Runtime.EnableAutoRenewCall` | pallets/data-renewal/src/lib.rs:328-359 | Same result and effect as the specified dispatch |
| `Pallets.Runtime.DisableAutoRenewCall` | pallets/data-renewal/src/lib.rs:368-391 | Same result and effect as the specified dispatch |
| `Pallets.Runtime.SignedExtrinsic` | pallets/data-renewal/src/extension.rs:98-115 | A signed extrinsic runs exactly when validation accepts it, never fails half-way, keeps the invariant, and keeps the counter exact if and only if its charge fits |
| `Pallets.Runtime.PrepaidSum` | pallets/data-renewal/src/lib.rs:724-738 | The sum over paid registrations is the same in any iteration order; an error exactly when a target is missing |
| `Pallets.Runtime.DoTryState` | pallets/data-renewal/src/lib.rs:709-768 | In any state whose stored sizes fit their hashes, it accepts exactly when targets exist, the counter is the saturated sum and is within the cap; each error exactly when its check fails first |
| `Pallets.Runtime.TryStateHook` | pallets/data-renewal/src/lib.rs:244-247 | In a reachable state it decides the same, accepts every exact block end, and below `u64::MAX` accepts only an exact counter |
| `RawStorage.ScanStep` | pallets/data-renewal/src/migrations.rs:89-92 | A scan over a store that loses passed keys and gains keys elsewhere still visits each key under its prefix once, in order |
| `RawStorage.CountKeys` | pallets/data-renewal/src/migrations.rs:277-287 | Counts the keys under a prefix |
| `Migration.MoveAutoRenewals` | pallets/data-renewal/src/migrations.rs:79-119 | The scan terminates, visits exactly the keys under the old prefix and moves exactly those that decode |
| `Migration.OnRuntimeUpgrade` | pallets/data-renewal/src/migrations.rs:78-170 | The store is relocated and the returned weight counts exactly the reads and writes made |
| `Migration.ReshapeDecodes` | pallets/data-renewal/src/migrations.rs:96-112 | Moved values decode in the current layout, keep their account, and keep their bytes if already current; a bare account becomes recurring and unpaid |
| `Migration.BareAccountIsRebuilt` | pallets/data-renewal/src/migrations.rs:96-104 | A bare 32-byte account becomes itself followed by the recurring and unpaid flags |
| `Migration.KeptIffEncoded` | pallets/data-renewal/src/migrations.rs:96-104 | A value is carried over unchanged exactly if it starts with the encoding of a registration |
| `Migration.RelocatedAt` | pallets/data-renewal/src/migrations.rs:114-144 | Where every key of the store ends up; unrelated and undecodable keys are untouched |
| `Migration.BareAccountsAreRebuilt` | pallets/data-renewal/src/migrations.rs:88-119 | Every bare account under the old prefix ends under the new one, same suffix, as a 34-byte registration, and is gone from the old |
| `Migration.CurrentValuesAreKept` | pallets/data-renewal/src/migrations.rs:88-119 | Every current value ends under the new prefix with the same suffix and bytes |
| `Migration.RelocateIsIdempotent` | pallets/data-renewal/src/migrations.rs:66-71 | A second run changes nothing |
| `Migration.PreUpgrade` | pallets/data-renewal/src/migrations.rs:172-194 | Captures the counts and values, and refuses an oversized collection |
| `Migration.PostUpgrade` | pallets/data-renewal/src/migrations.rs:196-260 | The scanning checks decide exactly the stated conditions |
| `Migration.PostUpgradeAcceptsIff` | pallets/data-renewal/src/migrations.rs:196-260 | The relocated store passes exactly when all old entries decode without colliding, existing new entries decode, and no stray new queue exists |
| `Migration.AcceptedStoreIsMoved` | pallets/data-renewal/src/migrations.rs:196-260 | Any store the checks accept has nothing under an old key and full registrations under the new prefix |
| `Migration.AcceptedKeepsValues` | pallets/data-renewal/src/migrations.rs:172-260 | Any store accepted against the captured values holds the old queue and the old counter |
| `Packing.ComputeBatchEnd` | stress-test/src/store.rs:1172-1205 | Returns the end of the longest run that fits weight, length and count |
| `Packing.RunCosts` | stress-test/src/store.rs:1184-1188 | A run weighs its base per transaction plus the per-byte weight of its bytes, and measures its bytes plus an overhead per transaction |
| `Packing.BatchEndIsMonotone` | stress-test/src/store.rs:1172-1205 | A later start never ends earlier |
| `Packing.GreedyIsFewest` | stress-test/src/store.rs:1172-1205 | No in-order split into fitting batches is shorter than the greedy one |
| `Packing.IndexInRangeIff` | stress-test/src/store.rs:1408-1409 | The unchecked index of an observed nonce lies within the payloads exactly when the nonce lies within the upload |
| `Packing.ReorgBelowStart` | stress-test/src/store.rs:1408 | The failing input: a nonce one below the start wraps past the payloads |
| `Packing.SignWave` | stress-test/src/store.rs:1408-1424 | A wave from an observed nonce is the longest run fitting a block, or a panic exactly below the start nonce |
| `Packing.FeedPool` | stress-test/src/store.rs:1306-1434 | The initial wave and one wave per unfinished nonce observed, reorgs included, each the longest run fitting a block; it panics if and only if some nonce is below the start nonce, after the waves before it |
| `Packing.ConfirmedWavesAreFewest` | stress-test/src/store.rs:1405-1411 | Waves confirmed in full upload everything in the fewest possible blocks |
| `Packing.FedWavesAreFewest` | stress-test/src/store.rs:1405-1411 | If each nonce read is where the last wave ended, the waves sent upload everything in the fewest possible blocks |
| `Packing.WaveProgressesIff` | stress-test/src/store.rs:1190-1198 | A wave makes progress exactly when its first payload fits a block alone |
| `Packing.ConfirmedWavesExist` | stress-test/src/store.rs:1405-1411 | If each payload fits alone, confirmed waves reach the end |
| `Packing.ClosedFormAgrees` | stress-test/src/chain_info.rs:164-183 | For equal payloads the looped packer takes min(remaining, effective cap) |
| `Packing.BottleneckBinds` | stress-test/src/chain_info.rs:173-180 | The named bottleneck is a limit one more payload would break |
| `Packing.BottleneckIs` | stress-test/src/chain_info.rs:164-183 | Each cap is the largest count within its limit; the bottleneck is the first least of count, length and weight |
| `Pipeline.BuildIterationPlans` | stress-test/src/pipeline.rs:192-216 | Plans cover exactly the requested accounts, none twice, in the fewest iterations: all but the last are full, each named after its offset |
| `Pipeline.DecimalReadsBack` | stress-test/src/pipeline.rs:206 | The offset is rendered in decimal digits without leading zeros and reads back |
| `Pipeline.ChunksCover` | stress-test/src/pipeline.rs:225-231 | Chunks concatenate to the accounts, each non-empty and within the batch size |
| `Pipeline.ChunkIs` | stress-test/src/pipeline.rs:225-231 | Chunk k is the k-th batch-sized stretch of the accounts; only the last may be shorter |
| `Pipeline.CollectSlices` | stress-test/src/pipeline.rs:1108-1128 | The batch ranges cover the planned accounts in order, plan by plan, in full batches |
| `Pipeline.SlicesAreFull` | stress-test/src/pipeline.rs:1121-1127 | Every range of a plan before its last is a full batch, and the last ends the plan |
| `Pipeline.GenerateWork` | stress-test/src/pipeline.rs:1089-1219 | The stream is, batch after batch, one authorization, one wait and the batch's stores in signing order; it authorizes and stores each planned account once and reads safely |
| `Pipeline.PrefixReadsSafely` | stress-test/src/pipeline.rs:762-787 | A stream that reads safely does so wherever it is cut off |
| `Pipeline.BatchReadsSafely` | stress-test/src/pipeline.rs:789-884 | From an idle reader a batch is read without overlapping tasks, each store after its authorization was awaited |
| `Pipeline.RunReader` | stress-test/src/pipeline.rs:762-886 | The reader's own assertion never fires, and it dispatches the stream's stores in order |
| `Pipeline.RunPipeline` | stress-test/src/pipeline.rs:192-231 | End to end, the accounts stored are exactly those of the returned plans, each once, in full iterations |
| `Bitswap.ReadResponse` | stress-test/src/bitswap.rs:155-199 | The reply is the payload read up to the first point where the stream ends, enough blocks arrived or a frame was not clean; with no block it is the read error or the absence |
| `Bitswap.BlockCountIff` | stress-test/src/bitswap.rs:155-199 | A reply holds as many blocks as were asked for if and only if some frame, reached over clean frames, brings the count to exactly that number |
| `Bitswap.OneBlockPerCidIff` | stress-test/src/bitswap.rs:155-199 | A fetch gets one block for each requested CID and no other if and only if such a frame exists and the blocks sent up to it hash to exactly the requested CIDs |
| `Bitswap.FewerBlocks` | stress-test/src/bitswap.rs:168-171 | The input with fewer blocks: a frame with an absence ends reading |
| `Bitswap.MoreBlocks` | stress-test/src/bitswap.rs:165-167 | The input with more blocks: the last frame is never cut |
| `Bitswap.RepeatedBlock` | stress-test/src/bitswap.rs:165-167 | The input with the right number of wrong blocks: no block is compared with a CID |
| `Bitswap.ReplyIsAPrefix` | stress-test/src/bitswap.rs:155-199 | The blocks of a reply are a prefix of those sent |
| `Bitswap.ReadingEndsAt` | stress-test/src/bitswap.rs:162-187 | Nothing behind a failed frame, a frame with an absence or an empty frame is ever read |
| `Bitswap.FailureReason` | stress-test/src/bitswap.rs:189-199 | Only the first frame can leave a fetch without blocks, and it decides which error |
| `Bitswap.RemoveOldest` | stress-test/src/bitswap.rs:150-153 | Matching the first entry of a peer takes the head of that peer's queue and leaves other peers' queues |
| `Bitswap.BitswapProtocol.OnFetch` | stress-test/src/bitswap.rs:102-124 | A new fetch is queued, opened or answered, in exactly one place |
| `Bitswap.BitswapProtocol.OnOutboundOpened` | stress-test/src/bitswap.rs:130-147 | A known substream's fetch moves to waiting or is answered; an unknown one changes nothing |
| `Bitswap.BitswapProtocol.OnInboundOpened` | stress-test/src/bitswap.rs:148-203 | The oldest fetch awaited from that peer is answered with the reply to its own count; an unexpected stream is ignored |
| `Bitswap.BitswapProtocol.OnOpenFailed` | stress-test/src/bitswap.rs:206-211 | The substream's fetch is answered with the failure |
| `Bitswap.BitswapProtocol.OnEstablished` | stress-test/src/bitswap.rs:212-231 | The peer's queued requests are served in order: those whose open succeeds move to fresh substreams, the rest are answered with the failure; other requests keep their order |
| `Bitswap.BitswapProtocol.OnClosed` | stress-test/src/bitswap.rs:232-254 | The peer's waiting and queued fetches are failed in order; the others keep theirs |
| `Bitswap.BitswapProtocol.Run` | stress-test/src/bitswap.rs:84-263 | The state after any events is the fold of the specified step over them, in order; each fetch is in exactly one place and is answered at most once |
| `BitswapRuns.EveryFetchIsIssued` | stress-test/src/bitswap.rs:103-122 | Over any events, exactly the fetch commands issue fetches |
| `BitswapRuns.ConnectedIff` | stress-test/src/bitswap.rs:212-234 | A peer is connected exactly if the last word about it is that it connected |
| `BitswapRuns.ClosedLeavesNothing` | stress-test/src/bitswap.rs:232-254 | After a close, whatever came before, the peer is not connected, nothing waits or queues for it, all that did is answered with that failure, and other peers' fetches stay |
| `BitswapRuns.AnswersGrow` | stress-test/src/bitswap.rs:84-263 | Answers are never withdrawn or reordered |
| `BitswapRuns.FetchIsAnswered` | stress-test/src/bitswap.rs:102-203 | A fetch that is opened, sent and responded to is answered with the reply to its own frames, leaving everything else in place |
| `HopPayload.SigningPayload` | pallets/hop-promotion/src/lib.rs:74-81 | The in-place buffer is context, data hash and little-endian timestamp |
| `HopPayload.SigningPayloadV2` | pallets/hop-promotion/src/lib.rs:95-114 | The moving-offset buffer is the five fields in order, every byte written exactly once |
| `HopPayload.SubmitSigningPayload` | stress-test/src/hop.rs:107-116 | The client's appended buffer has the bytes of the runtime's first version |
| `HopPayload.ContextsAreText` | pallets/hop-promotion/src/lib.rs:46-54 | The context bytes spell the two version texts |
| `ByteStrings.LeDigit` | pallets/hop-promotion/src/lib.rs:79-80 | Byte k of a timestamp is its digit of weight 256^k |
| `HopPayload.V1IsInjective` | pallets/hop-promotion/src/lib.rs:69-81 | Equal payloads have equal fields |
| `HopPayload.V2IsInjective` | pallets/hop-promotion/src/lib.rs:83-114 | Equal payloads have equal fields |
| `HopPayload.VersionsNeverCollide` | pallets/hop-promotion/src/lib.rs:46-54 | No payload of one version equals or extends one of the other |

## Left out

- Storage proofs, chunk roots, fees, authorizer budgets and provider counts of the storage pallet: the renewal accounting does not read them.
- Pool metadata of validated transactions (tags, priority, longevity), weights and benchmarks: configuration.
- The drain without an extrinsic index: a defensive branch outside block execution.
- Changing the retention period or the cap during a run.
- Calls nested in wrappers: they are refused before any check, and the call-tree walk is not part of this model.
- Live state that predates the counter: runs start from a genesis that may hold any unspent grants, but no stored data and no registrations.
- Packing and chain limits: 64-bit overflow of weights and lengths is not modelled, because the limits are far below it.
- FeedPool: the final nonce, start plus payload count, is taken to be a `u64`; the deadline, failed nonce requests and the finalized-block watch are not modelled.
- Pipeline: signing failures, cancellation, worker channels, retries and wall-clock measurement; a stream cut off at any point is covered.
- Bitswap: what happens to fetches still open when the event loop ends, and the wantlist's wire encoding.
- HOP: the hash over the payload, signature checks, and the promotion pallet's admission rules.
- The console, SDKs, examples and deployment scripts.
