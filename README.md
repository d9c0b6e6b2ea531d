# Storage recipes of a Substrate runtime, modelled in Dafny

This project models four small runtime modules ("pallets") from a collection
of Substrate storage recipes. Each pallet keeps its state in the chain's
key-value storage. Each dispatchable call, signed by an account, either fails
with a typed error and changes nothing, or writes storage. Most successful calls
also deposit an event; the storage-cache setters `set_copy`, `set_king` and
`mock_add_member` deposit none.

- **double-map**: a registry of members with three related stores.
  - `AllMembers` is the member list.
  - `GroupMembership` maps a member to its group.
  - `MemberScore` is a double map from `(group, member)` to a score.
  - A group's scores can be cleared at once by first key, with `remove_prefix`.
- **simple-map**: one map from account to `u32`. An account without an entry reads as 0.
- **storage-cache**: three single storage values: a `u32`, a king account and a member list.
  There are two versions of the increase and swap calls, one that reads storage again
  and one that reuses a copy.
- **struct-storage**: two maps of records. Inner things are filed by number. Super
  things hold an inner thing and are filed by super number.

Each pallet has two modules.

- `<Pallet>Spec` gives the storage as a datatype `Storage` with the event log in it.
  It has one function per call that returns the call's result and the storage after it.
  Its contracts state the error conditions, the new storage and the events. It also
  holds the lemmas about how the calls compose, and the test scenarios as lemmas.
- `<Pallet>` holds a class `Pallet`. Its fields are the pallet's storage items and its
  event log. Its methods validate, then update the fields in place. Each method's
  `ensures` ties the new fields and the result to the `Spec` function applied to the
  old fields.

The double-map registry also keeps a proved invariant, `Consistent`:

- no account is listed twice;
- a group link belongs to a listed member;
- a score `(g, m)` exists only while `m` is linked to `g`, so a member holds at most one score.

Every call preserves it. So does every sequence of calls (`RunKeepsConsistent`).
A sequence of calls also logs exactly one event per successful call
(`RunLogsOneEventPerSuccess`).

The tests leave these cases open; the model settles them as follows:

- `join_a_group` by a member already in another group drops the score under the old group.
  This keeps at most one score per member.
- `remove_member` also takes the caller off `AllMembers`.
- `remove_group_score` leaves the `GroupMembership` links of the cleared group in place.
- An increase in simple-map that would leave `u32` is rejected before any write.
  It fails with `ArithmeticOverflow`: no addition in the model wraps.
  The error's name is this model's own.
- `set_king` and `mock_add_member` deposit no event. In the scenario at
  pallets/storage-cache/src/tests.rs:183-202, `BetterKingSwap` is the second event
  after two `mock_add_member`, two `set_king` and two swap calls.
- `set_copy` deposits no event either. No test fixes this: the only test that reads
  the log after a `set_copy` (pallets/storage-cache/src/tests.rs:132-151) searches it
  for a matching event rather than indexing it. It is the model's choice.
- `insert_super_thing_with_existing_inner` reads the inner map through its getter.
  For a number with no entry, it copies the default record `InnerThing{0, 0, 0}`.

## Model

| member | source | states |
|---|---|---|
| `Frame.CheckedAdd` | pallets/storage-cache/src/tests.rs:103-128 | a `u32` addition fails exactly when the true sum exceeds `u32::MAX`, otherwise it is the sum |
| `Frame.Without` | pallets/double-map/src/tests.rs:139-140 | taking an account off a list keeps exactly the other entries, shortens the list when the account was on it, leaves a list without the account as it was, and keeps a duplicate-free list duplicate-free |
| `Frame.WithoutCutsOnePosition` | pallets/double-map/src/tests.rs:139-140 | in a duplicate-free list, taking off an account that is on it cuts out exactly the one position holding it; the other entries keep their order |
| `DoubleKeyStore.ContainsKey` | pallets/double-map/src/tests.rs:151-152 | `contains_key(k1, k2)` holds exactly when the pair `(k1, k2)` has an entry |
| `DoubleKeyStore.Insert` | pallets/double-map/src/tests.rs:115-128 | the pair `(group, member)` maps to the new score; every other pair is unchanged |
| `DoubleKeyStore.Remove` | pallets/double-map/src/tests.rs:150-152 | the pair is gone afterwards; every other pair keeps its value; removing an absent pair changes nothing |
| `DoubleKeyStore.RemovePrefix` | pallets/double-map/src/tests.rs:176-189 | no pair with the given first key remains, whatever its second key; every pair with another first key stays with its value |
| `DoubleMapSpec.JoinAllMembers` | pallets/double-map/src/tests.rs:85-103 | succeeds iff the caller is not listed; on success the caller is appended to `AllMembers` and `NewMember(caller)` is logged; otherwise `AlreadyMember` and nothing changes |
| `DoubleMapSpec.JoinAGroup` | pallets/double-map/src/tests.rs:107-129 | succeeds iff the caller is a member; on success the caller is linked to the group, `(group, caller)` holds the score, a score under a previous group is gone, other members' links and scores are unchanged, and `MemberJoinsGroup(caller, group, score)` is logged; otherwise `NotAMember` and nothing changes |
| `DoubleMapSpec.RemoveMember` | pallets/double-map/src/tests.rs:133-153 | succeeds iff the caller is a member; on success the caller leaves the list (in a duplicate-free list exactly its one position is cut out, the others keep their order), its group link is deleted, the score under that group is deleted, nothing else changes, and `RemoveMember(caller)` is logged; otherwise `NotAMember` and nothing changes |
| `DoubleMapSpec.RemoveGroupScore` | pallets/double-map/src/tests.rs:157-189 | succeeds iff the caller is linked to exactly that group; on success no `(group, *)` score remains, scores of other groups, links and members are unchanged, and `RemoveGroup(group)` is logged; otherwise `NotInGroup` and nothing changes |
| `DoubleMapSpec.Dispatch` | pallets/double-map/src/tests.rs:159-183 | a rejected call leaves storage and log as they were; an accepted call logs exactly the event carrying the call's own arguments |
| `DoubleMapSpec.JoinAllMembersKeepsConsistent` | pallets/double-map/src/tests.rs:87-92 | joining keeps the registry consistent, in particular free of duplicate members |
| `DoubleMapSpec.JoinAGroupKeepsConsistent` | pallets/double-map/src/tests.rs:115-128 | joining a group keeps every score attached to its member's current group link |
| `DoubleMapSpec.RemoveMemberKeepsConsistent` | pallets/double-map/src/tests.rs:136-152 | the cascading removal keeps every remaining link and score attached to a listed member |
| `DoubleMapSpec.RemoveGroupScoreKeepsConsistent` | pallets/double-map/src/tests.rs:176-189 | the bulk removal keeps the registry consistent |
| `DoubleMapSpec.DispatchKeepsConsistent` | pallets/double-map/src/tests.rs:159-176 | every call, accepted or rejected, keeps the registry consistent |
| `DoubleMapSpec.RunKeepsConsistent` | pallets/double-map/src/tests.rs:159-189 | every storage reached from a consistent one by any sequence of calls is consistent |
| `DoubleMapSpec.RunLogsOneEventPerSuccess` | pallets/double-map/src/tests.rs:159-183 | over any sequence of calls the log only grows, by exactly one event per successful call |
| `DoubleMapSpec.AtMostOneScore` | pallets/double-map/src/tests.rs:127-128 | in a consistent registry two scores of one member are under the same group, the group it is linked to, and the member is listed |
| `DoubleMapSpec.RemoveMemberLeavesNoTrace` | pallets/double-map/src/tests.rs:150-152 | removing a member of a consistent registry leaves no listing, no group link and no score under any group for it |
| `DoubleMapSpec.JoinAGroupReplacesScore` | pallets/double-map/src/tests.rs:116-128 | in a consistent registry a member that joins a group holds a score under that group and under no other |
| `DoubleMapSpec.JoinTwiceRejectsSecond` | pallets/double-map/src/tests.rs:87-102 | a second join right after a first is rejected with `AlreadyMember`, changes nothing, and the caller is listed exactly once |
| `DoubleMapSpec.JoinAllMembersWorks` | pallets/double-map/src/tests.rs:85-103 | the scenario: first join succeeds, second is rejected with "already a member, can't join", the first event is `NewMember(1)`, `AllMembers` is `[1]` |
| `DoubleMapSpec.GroupJoinWorks` | pallets/double-map/src/tests.rs:107-129 | the scenario: a non-member's group join is rejected and changes nothing; after joining, `group_membership(1) = 3`, `member_score(3, 1) = 5`, second event `MemberJoinsGroup(1, 3, 5)` |
| `DoubleMapSpec.RemoveMemberWorks` | pallets/double-map/src/tests.rs:133-153 | the scenario: third event `RemoveMember(1)`, no link for 1, no score `(3, 1)` |
| `DoubleMapSpec.RemoveGroupScoreWorks` | pallets/double-map/src/tests.rs:157-190 | the scenario: accounts 4 (no group) and 1 (asking for group 2) are rejected and change nothing; clearing group 3 removes `(3, 1)`, `(3, 2)`, `(3, 3)`; `RemoveGroup(3)` is the seventh event |
| `DoubleMap.Pallet.constructor` | pallets/double-map/src/tests.rs:73-82 | the pallet starts with empty storage and a consistent registry |
| `DoubleMap.Pallet.JoinAllMembers` | pallets/double-map/src/tests.rs:87-102 | updates the fields and returns the result exactly as `DoubleMapSpec.JoinAllMembers`, keeping the registry consistent |
| `DoubleMap.Pallet.JoinAGroup` | pallets/double-map/src/tests.rs:110-128 | updates the fields and returns the result exactly as `DoubleMapSpec.JoinAGroup`, keeping the registry consistent |
| `DoubleMap.Pallet.RemoveMember` | pallets/double-map/src/tests.rs:140-152 | updates the fields and returns the result exactly as `DoubleMapSpec.RemoveMember`, keeping the registry consistent |
| `DoubleMap.Pallet.RemoveGroupScore` | pallets/double-map/src/tests.rs:166-189 | updates the fields and returns the result exactly as `DoubleMapSpec.RemoveGroupScore`, keeping the registry consistent |
| `SimpleMapSpec.ValueOf` | pallets/simple-map/src/tests.rs:117 | the `simple_map(account)` getter reads the stored value, or 0 for an account with no entry |
| `SimpleMapSpec.SetSingleEntry` | pallets/simple-map/src/tests.rs:86-93 | always succeeds; the caller's entry holds the value afterwards, other entries are unchanged, `EntrySet(caller, value)` is logged |
| `SimpleMapSpec.GetSingleEntry` | pallets/simple-map/src/tests.rs:97-118 | succeeds iff the account has an entry, then logs `EntryGot(caller, value)`; otherwise `NoValueStored`; the map is never changed |
| `SimpleMapSpec.TakeSingleEntry` | pallets/simple-map/src/tests.rs:122-143 | succeeds iff the caller has an entry; then the entry is gone and reads as 0, others are unchanged, `EntryTaken(caller, old)` is logged; otherwise `NoValueStored` and nothing changes |
| `SimpleMapSpec.IncreaseSingleEntry` | pallets/simple-map/src/tests.rs:148-158 | fails with `NoValueStored` iff there is no entry; succeeds iff there is one and `old + add` fits `u32`; then the entry holds `old + add` and `EntryIncreased(caller, old, old + add)` is logged; on failure nothing changes |
| `SimpleMapSpec.SetThenGet` | pallets/simple-map/src/tests.rs:108-118 | a get after a set succeeds, reports the set value and leaves it stored |
| `SimpleMapSpec.SetThenTake` | pallets/simple-map/src/tests.rs:133-143 | a take after a set reports the set value, leaves the entry reading 0, other entries as before the set, and a further take or get fails with `NoValueStored` |
| `SimpleMapSpec.IncreaseTwice` | pallets/simple-map/src/tests.rs:148-158 | two successive increases store what one increase by their sum stores |
| `SimpleMapSpec.SetWorks` | pallets/simple-map/src/tests.rs:86-93 | the scenario: `EntrySet(1, 19)` is the first event |
| `SimpleMapSpec.GetThrows` | pallets/simple-map/src/tests.rs:97-103 | the scenario: a get of an empty map fails with `NoValueStored` |
| `SimpleMapSpec.GetWorks` | pallets/simple-map/src/tests.rs:107-118 | the scenario: `EntryGot(1, 19)` is logged and account 2 still reads 19 |
| `SimpleMapSpec.TakeThrows` | pallets/simple-map/src/tests.rs:122-128 | the scenario: a take from an empty map fails with `NoValueStored` |
| `SimpleMapSpec.TakeWorks` | pallets/simple-map/src/tests.rs:132-143 | the scenario: `EntryTaken(2, 19)` is logged and account 2 reads 0 |
| `SimpleMapSpec.IncreaseWorks` | pallets/simple-map/src/tests.rs:147-158 | the scenario: 19 increased by 2 logs `EntryIncreased(2, 19, 21)` and reads 21 |
| `SimpleMap.Pallet.constructor` | pallets/simple-map/src/tests.rs:74-83 | the pallet starts with an empty map and log |
| `SimpleMap.Pallet.SetSingleEntry` | pallets/simple-map/src/tests.rs:88-92 | updates the fields exactly as `SimpleMapSpec.SetSingleEntry` |
| `SimpleMap.Pallet.GetSingleEntry` | pallets/simple-map/src/tests.rs:99-117 | may write only the log, and does so exactly as `SimpleMapSpec.GetSingleEntry` |
| `SimpleMap.Pallet.TakeSingleEntry` | pallets/simple-map/src/tests.rs:124-142 | updates the fields exactly as `SimpleMapSpec.TakeSingleEntry` |
| `SimpleMap.Pallet.IncreaseSingleEntry` | pallets/simple-map/src/tests.rs:149-157 | updates the fields exactly as `SimpleMapSpec.IncreaseSingleEntry` |
| `StorageCacheSpec.IncreasedValue` | pallets/storage-cache/src/tests.rs:103-150 | `(x + amount) + x` succeeds iff `2x + amount` fits `u32`, and is then `2x + amount`; "addition overflowed1" iff `x + amount` overflows; "addition overflowed2" iff `x + amount` fits and `2x + amount` does not |
| `StorageCacheSpec.SetCopy` | pallets/storage-cache/src/tests.rs:87-88 | stores the value and changes nothing else, the log included |
| `StorageCacheSpec.SetKing` | pallets/storage-cache/src/tests.rs:90-91 | makes the caller king and changes nothing else, the log included |
| `StorageCacheSpec.MockAddMember` | pallets/storage-cache/src/tests.rs:93-98 | succeeds iff the caller is not on the list, then appends it; otherwise "member already in group" and nothing changes |
| `StorageCacheSpec.IncreaseValue` | pallets/storage-cache/src/tests.rs:103-150 | succeeds iff `2x + amount` fits `u32`; then stores `2x + amount` and logs it with the block number in the version's event; otherwise nothing changes and the error names the step that overflowed |
| `StorageCacheSpec.SwapKing` | pallets/storage-cache/src/tests.rs:155-204 | "current king is a member so maintains priority" iff the king is a member; "new king is not a member so doesn't get priority" iff the king is not a member and the caller is not either; otherwise the caller becomes king and `(old king, caller)` is logged in the version's event |
| `StorageCacheSpec.MockAddMemberKeepsValid` | pallets/storage-cache/src/tests.rs:93-98 | the member list never lists an account twice |
| `StorageCacheSpec.VariantsAgree` | pallets/storage-cache/src/tests.rs:108-127 | the two versions of the increase and of the swap return the same result and leave the same storage apart from the event's kind |
| `StorageCacheSpec.SwapKingSticks` | pallets/storage-cache/src/tests.rs:157-166 | after a successful swap the king is a member, so the next swap by anyone fails with the first error |
| `StorageCacheSpec.InitStorage` | pallets/storage-cache/src/tests.rs:85-99 | the scenario: value 10, king 2, second add of member 1 rejected, 1 on the list |
| `StorageCacheSpec.IncreaseValueErrsOnOverflow` | pallets/storage-cache/src/tests.rs:103-128 | the scenario: from `u32::MAX - 9` both versions fail with "addition overflowed1"; from 2147483643 both fail with "addition overflowed2" |
| `StorageCacheSpec.IncreaseValueWorks` | pallets/storage-cache/src/tests.rs:132-151 | the scenario: 25 becomes 60, then 130, with the events `(60, 5)` and `(130, 5)` |
| `StorageCacheSpec.SwapKingErrsAsIntended` | pallets/storage-cache/src/tests.rs:155-177 | the scenario: both versions fail with the first error while the king is a member, and with the second once a non-member is king |
| `StorageCacheSpec.SwapKingWorks` | pallets/storage-cache/src/tests.rs:181-205 | the scenario: king 1 swapped for 2, then for 3; `BetterKingSwap(1, 3)` is the second event |
| `StorageCache.Pallet.constructor` | pallets/storage-cache/src/tests.rs:73-82 | the pallet starts with default values and an empty list and log |
| `StorageCache.Pallet.SetCopy` | pallets/storage-cache/src/tests.rs:87-88 | writes only the value, exactly as `StorageCacheSpec.SetCopy` |
| `StorageCache.Pallet.SetKing` | pallets/storage-cache/src/tests.rs:90-91 | writes only the king, exactly as `StorageCacheSpec.SetKing` |
| `StorageCache.Pallet.MockAddMember` | pallets/storage-cache/src/tests.rs:93-98 | writes only the list, exactly as `StorageCacheSpec.MockAddMember`, keeping it duplicate-free |
| `StorageCache.Pallet.IncreaseValueNoCache` | pallets/storage-cache/src/tests.rs:108-142 | reads the value twice and writes value and log exactly as `StorageCacheSpec.IncreaseValue` with `InefficientValueChange` |
| `StorageCache.Pallet.IncreaseValueWithCopy` | pallets/storage-cache/src/tests.rs:112-150 | reads the value once and writes value and log exactly as `StorageCacheSpec.IncreaseValue` with `BetterValueChange` |
| `StorageCache.Pallet.SwapKingNoCache` | pallets/storage-cache/src/tests.rs:159-191 | writes king and log exactly as `StorageCacheSpec.SwapKing` with `InefficientKingSwap` |
| `StorageCache.Pallet.SwapKingWithCache` | pallets/storage-cache/src/tests.rs:163-204 | writes king and log exactly as `StorageCacheSpec.SwapKing` with `BetterKingSwap` |
| `StructStorageSpec.InnerThingsByNumbers` | pallets/struct-storage/src/tests.rs:133-136 | the `inner_things_by_numbers(number)` getter reads the record filed under the number, or the default record `InnerThing{0, 0, 0}` when there is none; in valid storage the record read is that number's own or the default |
| `StructStorageSpec.InsertInnerThing` | pallets/struct-storage/src/tests.rs:115-145 | the number maps to the full record `InnerThing{number, hash, balance}`, other inner records and all super records are unchanged, `NewInnerThing(number, hash, balance)` is logged |
| `StructStorageSpec.InsertSuperThingWithExistingInner` | pallets/struct-storage/src/tests.rs:149-194 | the super number maps to a super thing holding a copy of the inner record read at the inner number; the inner map is unchanged; the event carries the copied number, hash and balance |
| `StructStorageSpec.InsertSuperThingWithNewInner` | pallets/struct-storage/src/tests.rs:198-246 | both maps gain the new records, nothing else changes, and exactly `[NewInnerThing(..), NewSuperThingByNewInner(..)]` is logged in that order |
| `StructStorageSpec.InsertInnerThingKeepsValid` | pallets/struct-storage/src/tests.rs:128-136 | every inner record stays filed under its own number |
| `StructStorageSpec.InsertSuperThingWithExistingInnerKeepsValid` | pallets/struct-storage/src/tests.rs:174-181 | every super record stays filed under its own super number |
| `StructStorageSpec.InsertSuperThingWithNewInnerKeepsValid` | pallets/struct-storage/src/tests.rs:212-225 | both maps stay filed under their own numbers |
| `StructStorageSpec.ExistingInnerEventNamesTheInner` | pallets/struct-storage/src/tests.rs:183-193 | copying a filed inner record reports the inner number asked for, with that record's hash and balance |
| `StructStorageSpec.NewInnerIsInnerThenExisting` | pallets/struct-storage/src/tests.rs:198-245 | the new-inner insert stores what an inner insert followed by an existing-inner insert stores; the two differ only in the second event's kind |
| `StructStorageSpec.InsertInnerWorks` | pallets/struct-storage/src/tests.rs:115-145 | the scenario: number 3 holds `InnerThing{3, hash, 7}` and `NewInnerThing(3, hash, 7)` is the first event |
| `StructStorageSpec.InsertSuperThingWithExistingWorks` | pallets/struct-storage/src/tests.rs:149-194 | the scenario: inner 3 unchanged, super 5 holds it, the second event is `NewSuperThingByExistingInner(5, 3, hash, 7)` |
| `StructStorageSpec.InsertSuperWithNewInnerWorks` | pallets/struct-storage/src/tests.rs:198-246 | the scenario: both records stored and the log is exactly the two events |
| `StructStorage.Pallet.constructor` | pallets/struct-storage/src/tests.rs:103-112 | the pallet starts with empty maps and log |
| `StructStorage.Pallet.InsertInnerThing` | pallets/struct-storage/src/tests.rs:120-144 | writes only the inner map and the log, exactly as `StructStorageSpec.InsertInnerThing` |
| `StructStorage.Pallet.InsertSuperThingWithExistingInner` | pallets/struct-storage/src/tests.rs:161-193 | writes only the super map and the log, exactly as `StructStorageSpec.InsertSuperThingWithExistingInner` |
| `StructStorage.Pallet.InsertSuperThingWithNewInner` | pallets/struct-storage/src/tests.rs:203-245 | writes both maps and the log, exactly as `StructStorageSpec.InsertSuperThingWithNewInner` |

## Left out

- The mock runtime is left out. That covers the `system` and `balances` configuration,
  `parameter_types!`, the outer origin and event enums, and weights. It configures the
  host and has no behaviour of its own.
- Signed origins and their authentication are left out. Every call takes the already
  authenticated caller as a plain account id. Calls that ignore their caller
  (`set_copy`, `increase_value_*`) take none.
- `H256` hashing is left out. A hash is a 256-bit number that is only stored and
  compared. The test's `H256::from_low_u64_be(16)` is the number 16.
- The block number is a parameter of the increase calls. The host's
  `System::set_block_number` is not modelled.
- Each class keeps only the log of its own pallet's events. Events of the host's
  `system` pallet are not modelled. The tests index and filter the log for the
  pallet's own events.
- The storage cost of the two storage-cache versions is not modelled. They differ only
  in how often a method body reads a field and in the event they log.
- `DoubleKeyStore.RemovePrefix` does not model cost. The model cannot state that
  clearing a group costs time proportional to the group's size, not the table's.
- `DoubleMapSpec.JoinAGroup`: the tests never make a member join a second group.
  When one does, the model drops the score under its old group, so that a member
  holds at most one score.
- `DoubleMapSpec.RemoveMember`: the tests check only that the link and the score
  are gone. The model also takes the caller off `AllMembers`.
- `SimpleMapSpec.IncreaseSingleEntry`: the tests never increase past `u32::MAX`.
  The model rejects such an increase, before any write, with the error
  `ArithmeticOverflow`, a name of its own.
- `DoubleMapSpec.RemoveGroupScore` rejects a caller with no group link. Reading an
  absent link as a default group id is not modelled.
- The partial `PartialEq` impls for `InnerThing` and `SuperThing` are left out.
  They compare only the numbers and exist only in the tests. The model stores and
  compares whole records.
- The pallets' `lib.rs` files are not part of this model. Only their tests are.
