# KVACCEL in Dafny

KVACCEL keeps one logical key-value store in two LSM-trees: Main-LSM (RocksDB on the host) and
Dev-LSM (inside the SSD).  While Main is about to stall, Puts are redirected to Dev-LSM and their
keys are remembered in a key tracker; later a rollback thread moves the redirected values back.
This project models that machinery and the parts of the benchmark driver that contain real
algorithms, and proves what they guarantee and exactly where the guarantees end.  It is a model:
nothing was executed.

`dafny verify dfyconfig.toml` verifies all files.

## How it is organised

**The redirect/rollback protocol** (`Protocol*.dfy`) is a transition system: any number of clients
running Put and Get, one rollback thread, `reset_mtx`, the shared/exclusive `rollback_mtx`,
`kache_flag`, `rollback_flag`, and a monitor that may report any level and any Level 0 count at any
time.  One transition is one access to shared state, so the windows between the tracker, the flags
and the two stores are all visible.  The specification is one plain map of last writes: `Spec` of a
log in which every Put appears with the instant at which it takes effect.  `View` is the
abstraction: the Dev value of a key that is tracked, or whose entry was just dropped and whose value
has not reached Main yet, and the Main value otherwise.

- `ProtocolInvariants`, `ProtocolProgress`: what holds in every state of every run, with no
  assumption on the workload; no deadlock; the rollback ends.
- `ProtocolView`, `ProtocolSteps`, `ProtocolLinear`, `ProtocolJournal`, `ProtocolRefinement`: a run
  refines the map of last writes exactly when each of its steps is `Faithful`, a condition on two
  kinds of step; then every Put takes effect once between call and return.  Two provisos on the
  workload (`Allowed`) are enough for it.
- `ProtocolRollback`: what a rollback does to the values in any run, without provisos.
- `ProtocolGets`, `ProtocolLimits`: what a Get returns, with conditions on the steps between its call
  and its return, and exactly when the store it reads has the value of the key.
- `ProtocolFlags`, `ProtocolPuts`: what the two flags, the reported level and the reported Level 0
  count decide, in every run: which lock a Get takes and what it answers during a rollback, which
  store a Put writes, when a rollback starts.
- `ProtocolWitness`: concrete runs that show what happens otherwise.

**The parts, in imperative form**: `KeyTracker` (the bucket hash map), `Bytes`, `WriteBuffer`,
`BulkScan` and `DevLsm` (the host side of Dev-LSM down to the bytes of its buffers), `DbMaster`,
which composes them and proves a whole rollback against the logical values, and `Workload`, which
runs any sequence of Puts and rollbacks on it from its construction.

**The benchmark driver**: `HotRange`, `Schedule` (with `ScheduleDelay`, when its operations happen, and
`ScheduleLoop`, the loop), `Barrier`, `KeyCodec`, with `Arith` for division.

## What turned out not to hold

Five properties one would expect fail.  The code is modelled as it is; each has a witness run or
input and the condition under which the property holds.

- Refinement of the last writes fails in two kinds of step.  An unstalled Put of a key with two
  tracker entries or more is lost, because the tracker never merges entries and the Put drops only
  one (`HostPutLostAfterTwoRedirects`).  And the erasure of Dev-LSM can uncover an old value that a
  Put, overtaken by two redirected ones, wrote to Main late (`StaleWriteSurfaces`).  For whole runs
  the exact condition is `Faithful` at every step (`RunRefinesExactly`, and key by key
  `RunRefinesKeyExactly`): such a Put finds its key no longer tracked or Dev-LSM holding the same
  value, and at the erasure the keys still tracked have the same value on both sides.
  `HostPutIsLostExactly`, `EraseKeepsView` and `StaleWriteBreaksExactly` are the single steps;
  `LastPutExactly` is the same for one thread, in terms of the sequence of operations alone.
- A Get without the lock can return a value that was replaced before it was called
  (`UnlockedGetReadsReplacedValue`), and any Get that goes to the device misses records that are
  still in the host write buffer (`GetMissesBufferedPut`).  `GetIsLinearizable` and
  `LockedGetIsLinearizable` give conditions on the steps in between under which the answer is right,
  `GetAnswersInAnyRun` does so in runs that are not faithful, and `GetDuringRollback` needs nothing but
  the two flags and no buffered record of the key; `StableGetExactly`, `LockedReadExactly` and `UntrackedGetExactly` say exactly when it is.
- "Every tracked key has a device record" fails exactly between the erasure of the device and that of
  the tracker (`FlagMeaning`; the witness is the last state of `StaleWriteSurfaces`).
- The disposable/persistent schedule deletes keys it never inserted unless the persistent batch size
  is a multiple of the disposable one; for every configuration and whatever the clock that is the
  exact condition (`SoundExactlyWhenAligned`).
- The assertion in that schedule is reached exactly when some step finishes a job whose time the
  second reading of the clock is not past, and a later first reading is past it
  (`AssertionReachedExactly`).  It takes a clock that steps back (`MonotoneNeverFails`), and for every
  configuration there is one (`BackwardClockFails`).

Three smaller ones: on a clock that steps back a job of the schedule that is due can wait behind one
that is not (`DueJobMayWait`; `InsertsExactly` has the exact condition, and on an ordinary clock none
waits, `OrdinaryJobsGoFirst`), a value survives the string copy into the write buffer exactly when no non-zero
byte follows a zero byte (`StoredIsExact`), and a full write buffer is sure to fit exactly when no
value is longer than 8192 bytes (`CapacityIsExact`).

## What is assumed

- Operations on Main-LSM and on the device succeed.  Main-LSM is a map.
- Keys are four bytes.  In `DbMaster` the tracker hash is injective on the keys in use; in the
  protocol the tracker is a multiset of keys.  The key 0xFFFFFFFF is the end marker of a scan.
- Each tracker operation is atomic.  In an unstalled Put and in the rollback the tracker lookup and
  the delete that follows it are one step; both run under `rollback_mtx` held exclusively.
- The firmware is a contract: a flush applies the records in order (`Applied`); a scan returns every
  record once, in non-empty replies, the last of which carries the end marker (`Stream`, `IsScanOf`),
  with the value blocks in reverse header order (`MirroredBlocksPair`).
- The monitor runs in the rollback thread; in the model its reports may change at any time, which
  allows more runs.
- The protocol writes `v` to Dev-LSM where the code keeps only what the string copy leaves of it, and
  it does not bound the write buffer in bytes.  Its results are thus about redirected values whose
  zero bytes are all at the end and that fit the buffer, for which 8192 bytes are enough.
- A scan reply has no entry of length zero, because a zero length ends the headers.  After an empty
  value was redirected no reply meets the contract, so `Rollback` says nothing; for non-empty values
  of at most 8192 bytes such replies exist (`ScanCanBeAnswered`).
- The journal, the `clean` and `moved` marks of clients, and the counter of loop iterations are
  bookkeeping of the model.  The results about Gets do not mention the marks.

## Model

| member | source | states |
|---|---|---|
| `ProtocolInvariants.InvAlways` | kvaccel/db/db_impl/db_impl_master.cc:177-381 | in every state of every run: each lock has the owner the program counters say, shared and exclusive holders exclude each other, the flags describe Dev-LSM, the scan splits the device records into dealt-with and remaining |
| `ProtocolInvariants.InvKept` | kvaccel/db/db_impl/db_impl_master.cc:207-263 | every transition of every thread keeps that invariant |
| `ProtocolInvariants.FlagMeaning` | kvaccel/db/db_impl/db_impl_master.cc:246-258 | in every run: kache_flag 0 means tracker, device and write buffer are empty; a tracked key lacks a Dev record if and only if the device was erased and the tracker not yet; rollback_flag 1 means the rollback thread holds reset_mtx |
| `ProtocolInvariants.LocksKept` | kvaccel/db/db_impl/db_impl_master.cc:219-234 | lock ownership follows the program counters through every transition |
| `ProtocolInvariants.ScanLength` | kvaccel/db/db_impl/db_impl_master.cc:657-731 | a scan that returns every device record once is as long as the device map is large |
| `ProtocolProgress.NoDeadlockInRuns` | kvaccel/db/db_impl/db_impl_master.cc:219-234 | in every run, a stuck thread waits for one that can step or for one that waits for a third that can step |
| `ProtocolProgress.NoDeadlock` | kvaccel/db/db_impl/db_impl_master.cc:320-336 | the same from the invariant alone, with the shared lock of Get |
| `ProtocolProgress.ScanExists` | kvaccel/db/db_impl/db_impl_master.cc:659-665 | every non-empty device has a scan answer that meets the firmware contract, so the rollback is never stuck on it |
| `ProtocolProgress.RollbackEnds` | kvaccel/db/db_impl/db_impl_master.cc:653-734 | while the rollback holds reset_mtx it takes at most as many steps as its work measure allows, whatever other threads do |
| `ProtocolProgress.RollbackIterations` | kvaccel/db/db_impl/db_impl_master.cc:657-731 | at the reset the loop body has run once per device record and once more, and every device key was dealt with |
| `ProtocolView.EraseKeepsKey` | kvaccel/db/db_impl/db_impl_master.cc:704-716 | the device reset keeps the value of a key if and only if the key, if still tracked, has the same value on both sides |
| `ProtocolView.EraseKeepsView` | kvaccel/db/db_impl/db_impl_master.cc:704-716 | the device reset keeps the value of every key if and only if keys still tracked agree on both sides |
| `ProtocolView.RollKeepsView` | kvaccel/db/db_impl/db_impl_master.cc:651-735 | every rollback step keeps the value of every key, also with duplicate tracker entries; only the erase needs agreement on the keys still tracked |
| `ProtocolRollback.RollStepsKeepViewExactly` | kvaccel/db/db_impl/db_impl_master.cc:651-735 | in every run, a rollback step keeps every value if and only if it is not an erase of Dev-LSM, or the keys still tracked agree on both sides |
| `ProtocolRollback.RollbackKeepsMeaning` | kvaccel/db/db_impl/db_impl_master.cc:651-735 | in every run, while a rollback holds reset_mtx a value changes only by Puts that take effect meanwhile |
| `ProtocolRollback.NeverStaleErasesAgree` | kvaccel/db/db_impl/db_impl_master.cc:651-735 | without late direct Puts every erase finds the keys still tracked in agreement, also with duplicate entries |
| `ProtocolView.MoveKeepsView` | kvaccel/db/db_impl/db_impl_master.cc:676-687 | the Main write of a half-moved item keeps the value of every key |
| `ProtocolView.SpecIsHeld` | kvaccel/db/db_impl/db_impl_master.cc:294-381 | the current last write is a value the key held in any interval that ends now |
| `ProtocolSteps.PutMainView` | kvaccel/db/db_impl/db_impl_master.cc:210-216 | an unlocked direct Put changes the value of its key exactly when Dev-LSM does not hold it |
| `ProtocolSteps.PutTrackerView` | kvaccel/db/db_impl/db_impl_master.cc:225-227 | dropping the tracker entry changes no value |
| `ProtocolSteps.PutHostView` | kvaccel/db/db_impl/db_impl_master.cc:225-230 | the locked Main write sets its key exactly when no entry of it is left, and no other key |
| `ProtocolSteps.RedDevView` | kvaccel/db/db_impl/db_impl_master.cc:249-254 | the device write shows at once exactly for a key that is tracked already |
| `ProtocolSteps.RedTrackView` | kvaccel/db/db_impl/db_impl_master.cc:254-258 | the tracker insert makes the redirected value the value of its key |
| `ProtocolRefinement.LogKept` | kvaccel/db/db_impl/db_impl_master.cc:207-263 | every transition keeps the log in order: one write per operation, after its call and before now, visible writes at increasing instants |
| `ProtocolLinear.StepView` | kvaccel/db/db_impl/db_impl_master.cc:207-263 | every faithful transition changes the value of a key exactly as its committed write says, and no other key |
| `ProtocolLinear.MovedKept` | kvaccel/db/db_impl/db_impl_master.cc:651-735 | keys dealt with but still tracked keep the same value on both sides |
| `ProtocolRefinement.GoodKept` | kvaccel/db/db_impl/db_impl_master.cc:207-263 | every faithful transition keeps the whole refinement invariant |
| `ProtocolRefinement.StepRefinesExactly` | kvaccel/db/db_impl/db_impl_master.cc:207-263 | from agreement with the last writes at a key a transition leads to agreement at it if and only if it is faithful for the key |
| `ProtocolRefinement.RunRefinesKeyExactly` | kvaccel/db/db_impl/db_impl_master.cc:207-263 | in every run and for every key: agreement with the last writes at the key in all states if and only if each step is faithful for the key, whatever happens to other keys |
| `ProtocolRefinement.RunRefinesExactly` | kvaccel/db/db_impl/db_impl_master.cc:207-263 | a run agrees with the map of last writes in all its states if and only if each of its steps is faithful |
| `ProtocolRefinement.AllowedIsFaithful` | kvaccel/db/db_impl/db_impl_master.cc:207-263 | no unstalled Put on a key with two entries and no late direct Put on a key still tracked make every step faithful |
| `ProtocolRefinement.RunRefinesLastWrites` | kvaccel/db/db_impl/db_impl_master.cc:207-263 | in every state of every allowed run, the two stores together equal the map of last writes |
| `ProtocolRefinement.PutsAreLinearizable` | kvaccel/db/db_impl/db_impl_master.cc:177-263 | in every faithful run every returned Put took effect exactly once, after its call and no later than its return |
| `ProtocolGets.GetIsLinearizable` | kvaccel/db/db_impl/db_impl_master.cc:294-381 | in every faithful run a Get returns a value its key held between call and return, if no drop-to-write window of its key and no erase falls between its tracker lookup and its device read, and no record of the key is buffered at that read; a Get under the lock needs only the last |
| `ProtocolGets.GetAnswersInAnyRun` | kvaccel/db/db_impl/db_impl_master.cc:294-381 | in every run, faithful or not, such a Get answers a value its key had in some state between call and return, or one that a Put wrote to Main meanwhile while Dev-LSM held the key |
| `ProtocolGets.MainShowsOrHides` | kvaccel/db/db_impl/db_impl_master.cc:207-263 | a step that changes Main for a key makes the new value the value of the key, moves that value there, or hides it behind Dev-LSM |
| `ProtocolGets.LockedReadExactly` | kvaccel/db/db_impl/db_impl_master.cc:320-354 | in every run a device read under the lock returns the value of the key if and only if the host buffer has no record of it or leaves its value as it is |
| `ProtocolGets.ReadIsCurrentExactly` | kvaccel/db/db_impl/db_impl_master.cc:320-379 | a read, locked or not, returns the value of the key if and only if the store it reads has it |
| `ProtocolGets.UntrackedGetExactly` | kvaccel/db/db_impl/db_impl_master.cc:355-379 | a Get that found its key untracked answers its value at that step if and only if the key was not half moved or both stores agree |
| `ProtocolGets.StableGetExactly` | kvaccel/db/db_impl/db_impl_master.cc:294-381 | for a key whose value does not change meanwhile, the answer is a value it held if and only if the store read had it |
| `ProtocolGets.HeldExactly` | kvaccel/db/db_impl/db_impl_master.cc:294-381 | what the log says a key held is what its value was in the states in between, or an overtaken Put |
| `ProtocolGets.GetReturns` | kvaccel/db/db_impl/db_impl_master.cc:294-381 | the answer returned is the one read, and returning writes nothing |
| `ProtocolFlags.LockedExactly` | kvaccel/db/db_impl/db_impl_master.cc:320-322 | a Get holds the shared lock at its return if and only if rollback_flag was set at the step that read it |
| `ProtocolFlags.AsksTrackerExactly` | kvaccel/db/db_impl/db_impl_master.cc:306-322 | a Get goes on to rollback_flag and the tracker if and only if kache_flag was set as it read it; otherwise it takes no lock |
| `ProtocolFlags.LockedGetIsLinearizable` | kvaccel/db/db_impl/db_impl_master.cc:320-354 | in every faithful run a Get that read rollback_flag set returns a value its key held between call and return, if no record of the key was buffered when it read the device |
| `ProtocolFlags.LockedGetAnswersInAnyRun` | kvaccel/db/db_impl/db_impl_master.cc:320-354 | in every run such a Get answers a value its key had meanwhile, or one a Put wrote to Main behind Dev-LSM |
| `ProtocolFlags.GetDuringRollback` | kvaccel/db/db_impl/db_impl_master.cc:306-354 | while both flags are set from call to return, the answer is such a value, with no condition on the lock; the one exception is a device read before the rollback has flushed a buffered record of the key |
| `ProtocolFlags.FlushedDuringScan` | kvaccel/db/db_impl/db_impl_master.cc:651-668 | in every run the host buffer is empty while both flags are set, except at the flush itself |
| `ProtocolPuts.RollbackStartsExactly` | kvaccel/db/db_impl/db_impl_master.cc:651-653 | in every run the rollback thread wakes up if and only if the last reported Level 0 count is at most 26 and kache_flag is set |
| `ProtocolPuts.RollbackWasStarted` | kvaccel/db/db_impl/db_impl_master.cc:648-735 | every rollback under way was started by such a step |
| `ProtocolPuts.RedirectedPutWrites` | kvaccel/db/db_impl/db_impl_master.cc:236-257 | in every run a Put called while the last report was High writes Dev-LSM and adds a tracker entry, and never Main |
| `ProtocolPuts.HostPutWrites` | kvaccel/db/db_impl/db_impl_master.cc:207-235 | a Put called otherwise writes Main; apart from that it drops at most one tracker entry of its key at a time, under the exclusive lock |
| `ProtocolPuts.PutReturns` | kvaccel/db/db_impl/db_impl_master.cc:207-257 | the call and the return of a Put are what the journal records |
| `ProtocolPuts.BufferFlushesExactly` | kvaccel/db/db_impl/iLSM.cc:84-91 | in every run a redirected record is buffered, and the buffer is sent to the device if and only if it is the 128th |
| `ProtocolRollback.RollbackLeavesAllInMain` | kvaccel/db/db_impl/db_impl_master.cc:704-716 | in every run whose erase agrees: after the reset Main alone has the values from before the rollback, overwritten by Puts meanwhile, and the last writes if the stores had them before; tracker, device and write buffer are empty and both flags are 0 |
| `ProtocolRefinement.FlagClearMeansMain` | kvaccel/db/db_impl/db_impl_master.cc:210-216 | kache_flag 0 means no key has its value in Dev-LSM |
| `ProtocolLimits.DropLeavesEntry` | kvaccel/db/db_impl/db_impl_master.cc:225-227 | after the drop the key is still tracked if and only if it had two or more entries |
| `ProtocolLimits.HostPutIsLostExactly` | kvaccel/db/db_impl/db_impl_master.cc:217-236 | an unstalled Put agrees with the last writes if and only if its key is no longer tracked or Dev-LSM holds the same value |
| `ProtocolLimits.StaleWriteBreaksExactly` | kvaccel/db/db_impl/db_impl_master.cc:210-216 | a late direct Put keeps what the reset needs if and only if its key is not dealt with and still tracked, or Dev-LSM holds the same value |
| `ProtocolLimits.SharedAlways` | kvaccel/db/db_impl/db_impl_master.cc:320-354 | in every run, what a Get holding the lock saw of the tracker stays true until it reads |
| `ProtocolWitness.HostPutLostAfterTwoRedirects` | kvaccel/db/db_impl/db_impl_master.cc:217-236 | a run: redirect, redirect, unstalled Put; the third value is not the value of the key |
| `ProtocolWitness.GetMissesBufferedPut` | kvaccel/db/db_impl/db_impl_master.cc:355-379 | an allowed run in which a Get after a returned Put answers "not found" |
| `ProtocolWitness.UnlockedGetReadsReplacedValue` | kvaccel/db/db_impl/db_impl_master.cc:355-379 | an allowed run in which a Get returns a value replaced before its call |
| `ProtocolWitness.StaleWriteSurfaces` | kvaccel/db/db_impl/db_impl_master.cc:704-716 | a run in which the device reset changes the value of a key, and in which a tracked key has no device record |
| `KeyTracker.HashMap.constructor` | kvaccel/util/hash_map.h:25-31 | an empty map of the given size |
| `KeyTracker.HashMap.Clear` | kvaccel/util/hash_map.h:33-39 | no entry is left and count is 0 |
| `KeyTracker.HashMap.Contains` | kvaccel/util/hash_map.h:41-47 | true if and only if some entry has the key |
| `KeyTracker.HashMap.Insert` | kvaccel/util/hash_map.h:49-53 | one more copy of the pair, at the end of its bucket; duplicates are kept and no other bucket changes |
| `KeyTracker.HashMap.Pop` | kvaccel/util/hash_map.h:55-67 | removes and returns the head of the first non-empty bucket |
| `KeyTracker.HashMap.Delete` | kvaccel/util/hash_map.h:69-82 | removes exactly one pair of the key if there is one: the first in its bucket, whose place the last takes; no other bucket changes |
| `KeyTracker.HashMap.Get` | kvaccel/util/hash_map.h:84-90 | returns the value of the first entry of the key in its bucket |
| `KeyTracker.FindIf` | kvaccel/util/hash_map.h:41-47 | the first position of the key in a bucket, or the length |
| `KeyTracker.SwapOutRemovesOne` | kvaccel/util/hash_map.h:69-82 | swap-with-last and pop removes one occurrence of the found pair from the whole table and keeps every pair in its bucket |
| `KeyTracker.KeyIsInItsBucket` | kvaccel/util/hash_map.h:41-47 | a key is stored anywhere if and only if its own bucket has it |
| `KeyTracker.PopAllReturnsEverything` | kvaccel/util/hash_map.h:55-67 | as many Pops as there are entries return every entry once |
| `Bytes.StoredIsExact` | kvaccel/db/db_impl/iLSM.cc:854-857 | a value survives strncpy if and only if no non-zero byte follows a zero byte |
| `Bytes.StoredAt` | kvaccel/db/db_impl/iLSM.cc:854-857 | the copy has 0 at every place at or after the first zero byte, and the value's own byte before |
| `Bytes.WordRoundTrip` | kvaccel/db/db_impl/iLSM.cc:859-865 | four little-endian bytes give back the word |
| `Bytes.WordByteAt` | kvaccel/db/db_impl/iLSM.cc:859-865 | byte i of a word is n / 256^i modulo 256 |
| `Bytes.BytesRoundTrip` | kvaccel/db/db_impl/iLSM.cc:859-865 | every four bytes are the bytes of the word they stand for |
| `WriteBuffer.PagesTakenIsCeiling` | kvaccel/db/db_impl/iLSM.cc:852-869 | the wrapping page arithmetic is the ceiling, and an empty value takes no page |
| `WriteBuffer.CapacityIsExact` | kvaccel/include/rocksdb/iLSM.h:13-19 | every batch of at most 128 values fits the value log if and only if no value is longer than 8192 bytes |
| `WriteBuffer.EncodesAppend` | kvaccel/db/db_impl/iLSM.cc:834-875 | one more value and record leave every earlier one readable at its place |
| `WriteBuffer.AppliedIsOverlay` | kvaccel/db/db_impl/iLSM.cc:931-964 | what the device decodes and applies from the two logs is exactly the pending records in order |
| `BulkScan.DecodeHeaders` | kvaccel/db/db_impl/iLSM.cc:662-681 | all lengths and keys up to the zero word |
| `BulkScan.DecodeReply` | kvaccel/db/db_impl/iLSM.cc:662-700 | the decoder returns exactly the keys and value blocks the reply was made of |
| `BulkScan.ReplyIsSmall` | kvaccel/db/db_impl/iLSM.cc:662-681 | a reply that fits 508 KB has at most 126 entries, so the cap of 43691 is never reached |
| `BulkScan.EncodeIsReply` | kvaccel/db/db_impl/iLSM.cc:662-700 | every list of keys and non-empty blocks that fits has such a reply, also when the headers end on a block boundary |
| `DevLsm.DevHost.constructor` | kvaccel/db/db_impl/iLSM.cc:66-70 | empty buffer, empty queues |
| `DevLsm.DevHost.Prepare` | kvaccel/db/db_impl/iLSM.cc:834-850 | logs are allocated when needed and hold the pending records |
| `DevLsm.DevHost.Append` | kvaccel/db/db_impl/iLSM.cc:851-875 | the buffers encode the pending records and one more |
| `DevLsm.DevHost.Buffering` | kvaccel/db/db_impl/iLSM.cc:834-875 | the same from any valid state |
| `DevLsm.DevHost.ValueFlush` | kvaccel/db/db_impl/iLSM.cc:877-929 | the commands tile exactly the used bytes of the value log, and the device receives them; every command has at most 524288 bytes, all before the last exactly as many, one per 128 pages begun |
| `DevLsm.DevHost.SendValues` | kvaccel/db/db_impl/iLSM.cc:900-924 | non-empty adjacent chunks covering the total, only the first opens a new area, none leaves the log; every command has at most 524288 bytes, all before the last exactly as many, one per 128 pages begun |
| `DevLsm.DevHost.KeyValueFlush` | kvaccel/db/db_impl/iLSM.cc:931-964 | the device map becomes the old map overlaid with the pending records |
| `DevLsm.DevHost.Flush` | kvaccel/db/db_impl/iLSM.cc:966-989 | the same, and nothing is pending |
| `DevLsm.DevHost.Put` | kvaccel/db/db_impl/iLSM.cc:84-91 | contents change at the key only, as by a direct put of what strncpy keeps; fewer than 128 records stay pending |
| `DevLsm.DevHost.CreateIter` | kvaccel/db/db_impl/iLSM.cc:371-406 | nothing is pending and the device holds every Put |
| `DevLsm.DevHost.Get` | kvaccel/db/db_impl/iLSM.cc:299-318 | the device value; the current one when no record of the key is pending |
| `DevLsm.DevHost.Reset` | kvaccel/db/db_impl/iLSM.cc:468-483 | the device and the queues of iterator 0 are empty, pending records stay |
| `DevLsm.DevHost.RangeScan` | kvaccel/db/db_impl/iLSM.cc:585-618 | one reply is appended to both queues; the records still to come are unchanged when the queues were empty |
| `DevLsm.DevHost.Take` | kvaccel/db/db_impl/iLSM.cc:509-514 | key from the front and value from the back are the next record |
| `DevLsm.DevHost.SeekScan` | kvaccel/db/db_impl/iLSM.cc:498-522 | the first reply is appended to the queues, front key and back value come back, or -2 when there is none; on empty queues that is the first record of the whole scan |
| `DevLsm.DevHost.NextScan` | kvaccel/db/db_impl/iLSM.cc:537-582 | returns the next record; -3 if and only if nothing is queued and no reply is left; queues stay equally long |
| `DevLsm.MirroredBlocksPair` | kvaccel/db/db_impl/iLSM.cc:509-514 | values sent in reverse header order come out with their own keys |
| `DevLsm.RoomForOne` | kvaccel/db/db_impl/iLSM.cc:834-875 | a buffer that is not full and holds values of up to 8192 bytes has room for one more such value |
| `DevLsm.RoomInBytes` | kvaccel/db/db_impl/iLSM.cc:834-875 | room counted in pages is room in the bytes of both logs |
| `DbMaster.DropOne` | kvaccel/db/db_impl/db_impl_master.cc:225-227 | removing one entry leaves the key tracked if and only if it had two or more, other keys as before |
| `DbMaster.RedirectSpec` | kvaccel/db/db_impl/db_impl_master.cc:237-263 | a redirected Put gives its key the new value and changes no other key |
| `DbMaster.HostSpec` | kvaccel/db/db_impl/db_impl_master.cc:217-236 | an unstalled Put changes no other key, and its own if it had at most one entry; otherwise the value in Dev-LSM stays |
| `DbMaster.MoveSpec` | kvaccel/db/db_impl/db_impl_master.cc:676-687 | moving one tracked item keeps every value |
| `DbMaster.Master.constructor` | kvaccel/db/db_impl/db_impl_master.cc:93-98 | empty stores, empty tracker of 128 buckets, flags 0, no scan under way |
| `DbMaster.Master.PutRedirected` | kvaccel/db/db_impl/db_impl_master.cc:237-263 | Dev-LSM has the stored value, the tracker one more entry, kache_flag is 1; the key has that value and no other key changes |
| `DbMaster.Master.PutHost` | kvaccel/db/db_impl/db_impl_master.cc:208-236 | Main has the value and one tracker entry of the key is gone if there was one; the key has the new value if it had at most one entry, and no other key changes |
| `DbMaster.Master.Put` | kvaccel/db/db_impl/db_impl_master.cc:177-263 | the level decides between the two; scans and caller-visible frames are untouched, so Puts and rollbacks compose |
| `DbMaster.Master.Get` | kvaccel/db/db_impl/db_impl_master.cc:294-381 | the device value of a tracked key, else the Main value; the logical value unless a record of the key is still in the host buffer |
| `DbMaster.Master.MoveItem` | kvaccel/db/db_impl/db_impl_master.cc:675-687 | one tracker entry of the item is dropped and Main written, if it is tracked |
| `DbMaster.Master.MoveAll` | kvaccel/db/db_impl/db_impl_master.cc:657-731 | the loop deals with every item in one iteration each and one more, keeping every value |
| `DbMaster.Master.EndRollback` | kvaccel/db/db_impl/db_impl_master.cc:704-716 | device, tracker and flags are cleared |
| `DbMaster.Master.Rollback` | kvaccel/db/db_impl/db_impl_master.cc:651-735 | a whole rollback through the real scan, decoder and hash map: every key keeps its value, it is all in Main, and the store is ready for the next operation |
| `Workload.ScanCanBeAnswered` | kvaccel/db/db_impl/iLSM.cc:498-582 | every non-empty device of non-empty values of at most 8192 bytes has scan replies that meet the contract |
| `Workload.RollbackCanFollow` | kvaccel/db/db_impl/db_impl_master.cc:651-735 | after any workload of such values a rollback can run |
| `Workload.Play` | kvaccel/db/db_impl/db_impl_master.cc:177-263 | any sequence of Puts and rollbacks from the construction on leaves every key with the value of the fold |
| `Workload.LastPutExactly` | kvaccel/db/db_impl/db_impl_master.cc:207-263 | that is the value last put, after every prefix, if and only if no unstalled Put finds two entries of its key and another value |
| `Workload.DropCounts` | kvaccel/db/db_impl/db_impl_master.cc:225-227 | an unstalled Put lowers the entries of its key by one, of no other key |
| `HotRange.TwoTermExpKeys.Initiate` | integration/tools/db_bench_tool.cc:6370-6441 | weights are permuted by the drawn swaps, their total unchanged, starts are prefix sums, the ranges fit the keys |
| `HotRange.TwoTermExpKeys.Fill` | integration/tools/db_bench_tool.cc:6383-6416 | one range per weight and the total as the random bound |
| `HotRange.TwoTermExpKeys.Shuffle` | integration/tools/db_bench_tool.cc:6418-6432 | step by step, the weight at place i and the one at the drawn place below the range count change places and no other moves; the weights are permuted and the total kept |
| `HotRange.SwapKeepsSum` | integration/tools/db_bench_tool.cc:6418-6432 | one swap keeps the total weight |
| `HotRange.TwoTermExpKeys.Restart` | integration/tools/db_bench_tool.cc:6433-6438 | starts become the prefix sums |
| `HotRange.TwoTermExpKeys.FindRange` | integration/tools/db_bench_tool.cc:6449-6459 | the binary search returns a range that owns the draw |
| `HotRange.TwoTermExpKeys.DistGetKeyID` | integration/tools/db_bench_tool.cc:6444-6474 | a key below the total, in the range that owns the draw, at the drawn offset |
| `HotRange.OwnerIsUnique` | integration/tools/db_bench_tool.cc:6449-6459 | no two ranges own the same draw |
| `HotRange.DrawsMatchWeight` | integration/tools/db_bench_tool.cc:6434-6459 | a range is selected by exactly as many draws as its weight |
| `HotRange.KeyInRange` | integration/tools/db_bench_tool.cc:6461-6473 | range and offset can be read back from the key id |
| `ScheduleLoop.DoWrites` | integration/tools/db_bench_tool.cc:5230-5362 | the loop performs exactly the specified operations, one per reading; with aligned batches every one is legal, whatever the clock; the assertion is reached exactly under the stated condition; jobs wait for their delay and then go first |
| `Schedule.JobIsLegal` | integration/tools/db_bench_tool.cc:5234-5290 | with aligned batches, work on an unfinished job performs exactly one more operation, a legal one, and keeps the schedule in order |
| `Schedule.InsertIsLegal` | integration/tools/db_bench_tool.cc:5301-5310 | with aligned batches, a disposable insert is legal and keeps the schedule in order |
| `Schedule.RunKeeps` | integration/tools/db_bench_tool.cc:5230-5362 | over every clock history with aligned batches: where each kind of operation stands, and no illegal one |
| `Schedule.SoundExactlyWhenAligned` | integration/tools/db_bench_tool.cc:5230-5362 | for every configuration, delay included: all clock histories are sound, and all ordinary ones are, if and only if the disposable batch size divides the persistent one |
| `Schedule.MisalignedFails` | integration/tools/db_bench_tool.cc:5301-5350 | otherwise, for every delay, a clock that never steps back leads to the delete of a key that was never inserted |
| `Schedule.SoundEverywhere` | integration/tools/db_bench_tool.cc:5230-5362 | in a sound history every operation was legal when it happened |
| `Schedule.PersistentStays` | integration/tools/db_bench_tool.cc:5240-5252 | in a sound history no persistent key is deleted |
| `Schedule.AllDisposed` | integration/tools/db_bench_tool.cc:5253-5290 | with aligned batches, at the end of a batch with no job left, a key was inserted as disposable if and only if it was deleted |
| `Schedule.AssertionReachedExactly` | integration/tools/db_bench_tool.cc:5234-5290 | for every history: the assertion is reached if and only if some step finishes a job whose time its second reading is not past, and a later first reading is past it |
| `Schedule.BackwardClockFails` | integration/tools/db_bench_tool.cc:5278-5290 | for every configuration some clock that steps back leads to the assertion |
| `Schedule.MonotoneNeverFails` | integration/tools/db_bench_tool.cc:5230-5290 | for every configuration, a clock that does not step back between its two readings never leads to the assertion and never leaves a finished job in the queue |
| `ScheduleDelay.JobsWait` | integration/tools/db_bench_tool.cc:5234-5290 | for every history: a persistent insert or delete at a reading belongs to a batch completed at an earlier reading whose time plus the delay is before it |
| `ScheduleDelay.InsertsExactly` | integration/tools/db_bench_tool.cc:5234-5237 | until the assertion is reached, a reading inserts a disposable key if and only if the oldest batch whose job is not done has not waited for its delay, or there is none |
| `ScheduleDelay.WorksForOldest` | integration/tools/db_bench_tool.cc:5234-5290 | any other operation is work for that oldest batch |
| `ScheduleDelay.OrdinaryJobsGoFirst` | integration/tools/db_bench_tool.cc:5234-5310 | on an ordinary clock no disposable key is inserted while a batch completed more than the delay ago is not done |
| `ScheduleDelay.DueJobMayWait` | integration/tools/db_bench_tool.cc:5352-5362 | a clock that steps back on which a due job waits behind one that is not due |
| `ScheduleDelay.OneOperation` | integration/tools/db_bench_tool.cc:5234-5310 | unless the assertion is reached every reading performs one operation |
| `Barrier.InvAlways` | integration/tools/db_bench_tool.cc:3864-3966 | in every run the counters count, the mutex has one holder, and whoever waits waits for something that has not happened |
| `Barrier.StartBarrier` | integration/tools/db_bench_tool.cc:3864-3878 | no body runs before every thread has registered |
| `Barrier.BodiesExactly` | integration/tools/db_bench_tool.cc:3864-3895 | in every run a worker has run its body exactly once if it is past it and not at all before |
| `Barrier.FinishBarrier` | integration/tools/db_bench_tool.cc:3864-3966 | when statistics are merged every thread has run its benchmark body exactly once, at a time when all had registered, and has left; the mutex is free |
| `Barrier.NoLostWakeupInRuns` | integration/tools/db_bench_tool.cc:3864-3966 | until the run is over some step other than a spurious wakeup is possible |
| `Barrier.NoLostWakeup` | integration/tools/db_bench_tool.cc:3951-3962 | the same from the invariant alone |
| `Barrier.RunsEnd` | integration/tools/db_bench_tool.cc:3864-3966 | a run of n threads has at most 20n + 18 steps and 3 more per spurious wakeup |
| `Barrier.StepDescends` | integration/tools/db_bench_tool.cc:3864-3966 | every step uses up remaining work, a spurious wakeup adds at most two |
| `KeyCodec.GenerateKeyFromInt` | integration/tools/db_bench_tool.cc:3257-3297 | the byte loops write exactly the specified key |
| `KeyCodec.KeyByteAt` | integration/tools/db_bench_tool.cc:3257-3297 | the byte at every place of a key: of v % (numKeys / keysPerPrefix) in the prefix, of v after it, most significant first in up to eight bytes, then 48 |
| `KeyCodec.Fill` | integration/tools/db_bench_tool.cc:3286-3290 | the shift-and-mask loop writes the big-endian bytes and nothing else |
| `KeyCodec.KeysEqualExactly` | integration/tools/db_bench_tool.cc:3257-3297 | two numbers get the same key if and only if they agree on prefix and number modulo their widths |
| `KeyCodec.KeyOrder` | integration/tools/db_bench_tool.cc:3257-3297 | bytewise order is order by prefix, then by number |
| `KeyCodec.PlainKeys` | integration/tools/db_bench_tool.cc:3284-3296 | without prefixes and with room for every number, keys are distinct and ordered as the numbers |
| `KeyCodec.OrderIsNumeric` | integration/tools/db_bench_tool.cc:3286-3290 | bytewise order of the bytes is numeric order modulo the width |
| `KeyCodec.NumberRoundTrip` | integration/tools/db_bench_tool.cc:3009-3024 | reading the bytes back gives the number modulo the width |
| `KeyCodec.WriteTimeKey` | integration/tools/db_bench_tool.cc:8142-8160 | the identifier key with the time written from byte 8 on |
| `KeyCodec.KeyExpired` | integration/tools/db_bench_tool.cc:3009-3024 | compares the 64-bit age of the decoded time with the range |
| `KeyCodec.TimeKeyParts` | integration/tools/db_bench_tool.cc:8142-8160 | identifier and time can be read back from a key of at least 16 bytes |
| `KeyCodec.ExpiryIsExact` | integration/tools/db_bench_tool.cc:3009-3024 | a key is dropped if and only if it was written more than the range ago, with wrap-around for times ahead of the clock |

## Left out

- DevLsm.DevHost.Put: is stated for a value that fits the rest of the value log; the code does not check it and writes past the log otherwise (`CapacityIsExact`, `RoomForOne`).
- DevLsm.DevHost.Append: the same condition on the value.
- DevLsm.DevHost.Buffering: the same condition on the value.
- DbMaster.Master.PutRedirected: the same condition on the value.
- DbMaster.Master.Put: the same condition on a redirected value.
- DbMaster.Master.Rollback: is one thread; interleaving with clients is in the protocol modules, where the tracker is a multiset of keys.
- KeyTracker.HashMap.Insert: count is unbounded; the 32-bit wrap is not modelled, and neither are unsynchronised calls from two threads.
- KeyTracker.HashMap.Get: is stated for keys that are stored; the code dereferences the end of the bucket otherwise.
- KeyTracker.HashMap.Pop: is stated for a non-empty map; the code runs past the table otherwise.
- ProtocolGets.GetIsLinearizable: says nothing of a Get that is disturbed; `StableGetExactly` and `HeldExactly` say when its answer is still right.
- KeyCodec.KeyExpired: is stated for keys of at least 16 bytes; the code reads past the end of shorter ones.
- KeyCodec.GenerateKeyFromInt: big-endian machines and preloaded keys are not modelled.
- HotRange.TwoTermExpKeys.DistGetKeyID: needs a positive total weight and a positive range size; the code divides by them.
- HotRange.TwoTermExpKeys.Initiate: takes the access weights and the random draws as given; the floating-point distribution is not modelled.
- ScheduleLoop.DoWrites: 64-bit wrap of indices and times is not modelled; the disposable batch size is positive because the code divides by it; values, column families and the mapping from index to key are left out.
- The ioctl lock, NVMe commands and device firmware: replaced by the firmware contract.
- Termination of the rollback thread on shutdown, and its sleeping between rounds.
- The dual iterator over both stores: switching sides advances the Dev cursor, so a merged order is not what it produces.
- GetPin, the counting bloom filter and Clue_Entry_Set: they read Main only, are not wired in, or are commented out.
- The cost-based thresholds of the monitor, RocksDB itself, crash recovery and durability.
- Option tables, statistics, rate limiters and reporting.
