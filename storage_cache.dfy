/** The storage-cache pallet as values: a `u32` value, a king account and a
    member list, each a single storage value, with the pallet's event log.
    The pallet offers two versions of its increase and king-swap calls, one
    that reads storage again where it already holds the value and one that
    reuses a local copy; they differ in what they cost and in the event they
    deposit, never in the storage they leave. */
module StorageCacheSpec {
  import opened Frame

  datatype Event =
    | InefficientValueChange(value: U32, now: BlockNumber)
    | BetterValueChange(value: U32, now: BlockNumber)
    | InefficientKingSwap(oldKing: AccountId, newKing: AccountId)
    | BetterKingSwap(oldKing: AccountId, newKing: AccountId)

  datatype Error =
    | AdditionOverflowed1
    | AdditionOverflowed2
    | MemberAlreadyInGroup
    | KingIsMember
    | NewKingNotMember
  {
    /** The message the call fails with. */
    function Message(): string
    {
      match this
      case AdditionOverflowed1 => "addition overflowed1"
      case AdditionOverflowed2 => "addition overflowed2"
      case MemberAlreadyInGroup => "member already in group"
      case KingIsMember => "current king is a member so maintains priority"
      case NewKingNotMember => "new king is not a member so doesn't get priority"
    }
  }

  /** Which version of a call ran: the one that reads storage again, or the
      one that works on a copy it read once. */
  datatype Variant = NoCache | Cached

  /** `SomeCopyValue`, `KingMember`, `GroupMembers` and the deposited events;
      a storage value that was never written reads as its type's default. */
  datatype Storage = Storage(
    someCopyValue: U32,
    kingMember: AccountId,
    groupMembers: seq<AccountId>,
    events: seq<Event>)

  datatype Outcome = Outcome(storage: Storage, result: DispatchResult<Error>)

  const Genesis := Storage(0, 0, [], [])

  ghost predicate Valid(s: Storage)
  {
    NoDuplicates(s.groupMembers)
  }

  function ValueChange(variant: Variant, value: U32, now: BlockNumber): Event
  {
    match variant
    case NoCache => InefficientValueChange(value, now)
    case Cached => BetterValueChange(value, now)
  }

  function KingSwap(variant: Variant, oldKing: AccountId, newKing: AccountId): Event
  {
    match variant
    case NoCache => InefficientKingSwap(oldKing, newKing)
    case Cached => BetterKingSwap(oldKing, newKing)
  }

  /** The increase's arithmetic: `(x + amount) + x` in two checked `u32`
      additions. The first error is the first sum leaving `u32`; the second
      error is the first sum fitting and the second not. */
  function IncreasedValue(x: U32, amount: U32): (r: Result<U32, Error>)
    ensures r.Ok? <==> 2 * x + amount <= U32_MAX
    ensures r.Ok? ==> r.value == 2 * x + amount
    ensures r == Err(AdditionOverflowed1) <==> x + amount > U32_MAX
    ensures r == Err(AdditionOverflowed2) <==> x + amount <= U32_MAX < 2 * x + amount
  {
    match CheckedAdd(x, amount)
    case None => Err(AdditionOverflowed1)
    case Some(first) =>
      match CheckedAdd(first, x)
      case None => Err(AdditionOverflowed2)
      case Some(second) => Ok(second)
  }

  /** `set_copy(value)`: overwrites the stored value; deposits nothing. */
  function SetCopy(s: Storage, value: U32): (r: Outcome)
    ensures r.result.Ok?
    ensures r.storage.someCopyValue == value
    ensures r.storage.(someCopyValue := s.someCopyValue) == s
  {
    Outcome(s.(someCopyValue := value), Ok(()))
  }

  /** `set_king`: makes the caller king, member or not; deposits nothing. */
  function SetKing(s: Storage, who: AccountId): (r: Outcome)
    ensures r.result.Ok?
    ensures r.storage.kingMember == who
    ensures r.storage.(kingMember := s.kingMember) == s
  {
    Outcome(s.(kingMember := who), Ok(()))
  }

  /** `mock_add_member`: appends the caller to the member list unless it is
      already on it; deposits nothing. */
  function MockAddMember(s: Storage, who: AccountId): (r: Outcome)
    ensures r.result.Ok? <==> who !in s.groupMembers
    ensures r.result.Err? ==> r.result.error == MemberAlreadyInGroup && r.storage == s
    ensures r.result.Ok? ==> r.storage == s.(groupMembers := s.groupMembers + [who])
  {
    if who in s.groupMembers then Outcome(s, Err(MemberAlreadyInGroup))
    else Outcome(s.(groupMembers := s.groupMembers + [who]), Ok(()))
  }

  /** `increase_value_no_cache(amount)` and `increase_value_w_copy(amount)`:
      with `x` the stored value, store `2x + amount` and report it with the
      block number, or fail, storing nothing, with the overflow error of the
      step that left `u32`. */
  function IncreaseValue(s: Storage, amount: U32, now: BlockNumber, variant: Variant): (r: Outcome)
    ensures r.result.Ok? <==> 2 * s.someCopyValue + amount <= U32_MAX
    ensures r.result.Err? ==> r.storage == s
    ensures r.result.Err? ==>
      r.result.error == (if s.someCopyValue + amount > U32_MAX then AdditionOverflowed1 else AdditionOverflowed2)
    ensures r.result.Ok? ==>
      && r.storage.someCopyValue == 2 * s.someCopyValue + amount
      && r.storage.kingMember == s.kingMember
      && r.storage.groupMembers == s.groupMembers
      && r.storage.events == s.events + [ValueChange(variant, 2 * s.someCopyValue + amount, now)]
  {
    match IncreasedValue(s.someCopyValue, amount)
    case Err(e) => Outcome(s, Err(e))
    case Ok(value) =>
      Outcome(s.(someCopyValue := value, events := s.events + [ValueChange(variant, value, now)]), Ok(()))
  }

  /** `swap_king_no_cache` and `swap_king_with_cache`: the caller replaces
      the king only when the king is not a member and the caller is. The
      king's membership is checked first. */
  function SwapKing(s: Storage, who: AccountId, variant: Variant): (r: Outcome)
    ensures r.result.Ok? <==> s.kingMember !in s.groupMembers && who in s.groupMembers
    ensures r.result == Err(KingIsMember) <==> s.kingMember in s.groupMembers
    ensures r.result == Err(NewKingNotMember) <==> s.kingMember !in s.groupMembers && who !in s.groupMembers
    ensures r.result.Err? ==> r.storage == s
    ensures r.result.Ok? ==>
      && r.storage.kingMember == who
      && r.storage.someCopyValue == s.someCopyValue
      && r.storage.groupMembers == s.groupMembers
      && r.storage.events == s.events + [KingSwap(variant, s.kingMember, who)]
  {
    if s.kingMember in s.groupMembers then Outcome(s, Err(KingIsMember))
    else if who !in s.groupMembers then Outcome(s, Err(NewKingNotMember))
    else Outcome(s.(kingMember := who, events := s.events + [KingSwap(variant, s.kingMember, who)]), Ok(()))
  }

  // ---------------------------------------------------------------------
  // Properties

  /** The member list never lists an account twice. */
  lemma MockAddMemberKeepsValid(s: Storage, who: AccountId)
    requires Valid(s)
    ensures Valid(MockAddMember(s, who).storage)
  {
  }

  /** The two versions of each call leave the same storage apart from the
      log, and their events carry the same values. */
  lemma VariantsAgree(s: Storage, amount: U32, now: BlockNumber, who: AccountId)
    ensures IncreaseValue(s, amount, now, NoCache).result == IncreaseValue(s, amount, now, Cached).result
    ensures IncreaseValue(s, amount, now, NoCache).storage.(events := s.events)
         == IncreaseValue(s, amount, now, Cached).storage.(events := s.events)
    ensures SwapKing(s, who, NoCache).result == SwapKing(s, who, Cached).result
    ensures SwapKing(s, who, NoCache).storage.(events := s.events)
         == SwapKing(s, who, Cached).storage.(events := s.events)
  {
  }

  /** After a successful swap the king is a member, so every further swap is
      turned away until the king is set again. */
  lemma SwapKingSticks(s: Storage, who: AccountId, challenger: AccountId, v1: Variant, v2: Variant)
    requires SwapKing(s, who, v1).result.Ok?
    ensures SwapKing(SwapKing(s, who, v1).storage, challenger, v2).result == Err(KingIsMember)
  {
  }

  // ---------------------------------------------------------------------
  // The pallet's own scenarios

  lemma InitStorage()
    ensures var s1 := SetCopy(Genesis, 10).storage;
            var s2 := SetKing(s1, 2).storage;
            var s3 := MockAddMember(s2, 1);
            var s4 := MockAddMember(s3.storage, 1);
            && s1.someCopyValue == 10
            && s2.kingMember == 2
            && s3.result.Ok?
            && s4.result == Err(MemberAlreadyInGroup) && s4.result.error.Message() == "member already in group"
            && 1 in s4.storage.groupMembers
  {
  }

  lemma IncreaseValueErrsOnOverflow()
    ensures var s1 := SetCopy(Genesis, U32_MAX - 9).storage;
            && IncreaseValue(s1, 10, 1, NoCache).result == Err(AdditionOverflowed1)
            && IncreaseValue(s1, 10, 1, Cached).result == Err(AdditionOverflowed1)
    ensures var s2 := SetCopy(Genesis, 2147483643).storage;
            && IncreaseValue(s2, 10, 1, NoCache).result == Err(AdditionOverflowed2)
            && IncreaseValue(s2, 10, 1, Cached).result == Err(AdditionOverflowed2)
  {
  }

  lemma IncreaseValueWorks()
    ensures var s1 := SetCopy(Genesis, 25).storage;
            var s2 := IncreaseValue(s1, 10, 5, NoCache);
            var s3 := IncreaseValue(s2.storage, 10, 5, Cached);
            && s2.result.Ok? && InefficientValueChange(60, 5) in s2.storage.events
            && s2.storage.someCopyValue == 60
            && s3.result.Ok? && BetterValueChange(130, 5) in s3.storage.events
            && s3.storage.someCopyValue == 130
  {
  }

  lemma SwapKingErrsAsIntended()
    ensures var s1 := MockAddMember(Genesis, 1).storage;
            var s2 := SetKing(s1, 1).storage;
            var s3 := SetKing(s2, 2).storage;
            && SwapKing(s2, 3, NoCache).result == Err(KingIsMember)
            && SwapKing(s2, 3, Cached).result == Err(KingIsMember)
            && SwapKing(s3, 3, NoCache).result == Err(NewKingNotMember)
            && SwapKing(s3, 3, Cached).result == Err(NewKingNotMember)
  {
  }

  lemma SwapKingWorks()
    ensures var s1 := MockAddMember(Genesis, 2).storage;
            var s2 := MockAddMember(s1, 3).storage;
            var s3 := SetKing(s2, 1).storage;
            var s4 := SwapKing(s3, 2, NoCache);
            var s5 := SetKing(s4.storage, 1).storage;
            var s6 := SwapKing(s5, 3, Cached);
            && s4.result.Ok? && InefficientKingSwap(1, 2) in s4.storage.events
            && s4.storage.kingMember == 2
            && s5.kingMember == 1
            && s6.result.Ok? && s6.storage.events[1] == BetterKingSwap(1, 3)
            && s6.storage.kingMember == 3
  {
  }
}

/** The storage-cache pallet as the host runs it: three storage values
    updated in place and the pallet's event log. */
module StorageCache {
  import opened Frame
  import opened StorageCacheSpec

  class Pallet {
    var someCopyValue: U32
    var kingMember: AccountId
    var groupMembers: seq<AccountId>
    var events: seq<Event>

    function Snapshot(): Storage
      reads this
    {
      Storage(someCopyValue, kingMember, groupMembers, events)
    }

    ghost predicate Valid()
      reads this
    {
      StorageCacheSpec.Valid(Snapshot())
    }

    constructor ()
      ensures Valid() && Snapshot() == Genesis
    {
      someCopyValue, kingMember, groupMembers, events := 0, 0, [], [];
    }

    method SetCopy(value: U32) returns (res: DispatchResult<Error>)
      requires Valid()
      modifies this`someCopyValue
      ensures Valid()
      ensures Outcome(Snapshot(), res) == StorageCacheSpec.SetCopy(old(Snapshot()), value)
    {
      someCopyValue := value;
      res := Ok(());
    }

    method SetKing(who: AccountId) returns (res: DispatchResult<Error>)
      requires Valid()
      modifies this`kingMember
      ensures Valid()
      ensures Outcome(Snapshot(), res) == StorageCacheSpec.SetKing(old(Snapshot()), who)
    {
      kingMember := who;
      res := Ok(());
    }

    method MockAddMember(who: AccountId) returns (res: DispatchResult<Error>)
      requires Valid()
      modifies this`groupMembers
      ensures Valid()
      ensures Outcome(Snapshot(), res) == StorageCacheSpec.MockAddMember(old(Snapshot()), who)
    {
      ghost var before := Snapshot();
      if who in groupMembers {
        return Err(MemberAlreadyInGroup);
      }
      groupMembers := groupMembers + [who];
      res := Ok(());
      MockAddMemberKeepsValid(before, who);
    }

    /** Reads the stored value a second time for the second addition. */
    method IncreaseValueNoCache(amount: U32, now: BlockNumber) returns (res: DispatchResult<Error>)
      requires Valid()
      modifies this`someCopyValue, this`events
      ensures Valid()
      ensures Outcome(Snapshot(), res) == IncreaseValue(old(Snapshot()), amount, now, NoCache)
    {
      var originalCall := someCopyValue;
      var someCalculation := CheckedAdd(originalCall, amount);
      if someCalculation.None? {
        return Err(AdditionOverflowed1);
      }
      var unnecessaryCall := someCopyValue;
      var anotherCalculation := CheckedAdd(someCalculation.value, unnecessaryCall);
      if anotherCalculation.None? {
        return Err(AdditionOverflowed2);
      }
      someCopyValue := anotherCalculation.value;
      events := events + [InefficientValueChange(anotherCalculation.value, now)];
      res := Ok(());
    }

    /** Reads the stored value once and adds the copy twice. */
    method IncreaseValueWithCopy(amount: U32, now: BlockNumber) returns (res: DispatchResult<Error>)
      requires Valid()
      modifies this`someCopyValue, this`events
      ensures Valid()
      ensures Outcome(Snapshot(), res) == IncreaseValue(old(Snapshot()), amount, now, Cached)
    {
      var originalCall := someCopyValue;
      var someCalculation := CheckedAdd(originalCall, amount);
      if someCalculation.None? {
        return Err(AdditionOverflowed1);
      }
      var anotherCalculation := CheckedAdd(someCalculation.value, originalCall);
      if anotherCalculation.None? {
        return Err(AdditionOverflowed2);
      }
      someCopyValue := anotherCalculation.value;
      events := events + [BetterValueChange(anotherCalculation.value, now)];
      res := Ok(());
    }

    /** Reads the king from storage once for the check and again for the event. */
    method SwapKingNoCache(who: AccountId) returns (res: DispatchResult<Error>)
      requires Valid()
      modifies this`kingMember, this`events
      ensures Valid()
      ensures Outcome(Snapshot(), res) == SwapKing(old(Snapshot()), who, NoCache)
    {
      if kingMember in groupMembers {
        return Err(KingIsMember);
      }
      if who !in groupMembers {
        return Err(NewKingNotMember);
      }
      var oldKing := kingMember;
      kingMember := who;
      events := events + [InefficientKingSwap(oldKing, who)];
      res := Ok(());
    }

    /** Reads the king and the member list once, into local copies. */
    method SwapKingWithCache(who: AccountId) returns (res: DispatchResult<Error>)
      requires Valid()
      modifies this`kingMember, this`events
      ensures Valid()
      ensures Outcome(Snapshot(), res) == SwapKing(old(Snapshot()), who, Cached)
    {
      var existingKing := kingMember;
      var members := groupMembers;
      if existingKing in members {
        return Err(KingIsMember);
      }
      if who !in members {
        return Err(NewKingNotMember);
      }
      kingMember := who;
      events := events + [BetterKingSwap(existingKing, who)];
      res := Ok(());
    }
  }
}
