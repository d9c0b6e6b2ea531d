/** The simple-map pallet as values: one storage map from account to `u32`,
    read with 0 for an account that has no entry, its event log, and one
    function per dispatchable call. */
module SimpleMapSpec {
  import opened Frame

  datatype Event =
    | EntrySet(who: AccountId, value: U32)
    | EntryGot(who: AccountId, value: U32)
    | EntryTaken(who: AccountId, value: U32)
    | EntryIncreased(who: AccountId, was: U32, now: U32)

  /** `NoValueStored` is the pallet's own error; an increase past `u32::MAX`
      is rejected with `ArithmeticOverflow` rather than wrapped. */
  datatype Error = NoValueStored | ArithmeticOverflow

  datatype Storage = Storage(simpleMap: map<AccountId, U32>, events: seq<Event>)

  datatype Outcome = Outcome(storage: Storage, result: DispatchResult<Error>)

  const Genesis := Storage(map[], [])

  /** The `simple_map(account)` getter: the stored value, or 0 when there is none. */
  function ValueOf(s: Storage, account: AccountId): (r: U32)
    ensures account in s.simpleMap ==> r == s.simpleMap[account]
    ensures account !in s.simpleMap ==> r == 0
  {
    if account in s.simpleMap then s.simpleMap[account] else 0
  }

  /** `set_single_entry(value)`: stores `value` under the caller, replacing
      any previous value. */
  function SetSingleEntry(s: Storage, who: AccountId, value: U32): (r: Outcome)
    ensures r.result.Ok?
    ensures who in r.storage.simpleMap && ValueOf(r.storage, who) == value
    ensures forall a :: a != who ==> (a in r.storage.simpleMap <==> a in s.simpleMap)
    ensures forall a :: a != who ==> ValueOf(r.storage, a) == ValueOf(s, a)
    ensures r.storage.events == s.events + [EntrySet(who, value)]
  {
    Outcome(Storage(s.simpleMap[who := value], s.events + [EntrySet(who, value)]), Ok(()))
  }

  /** `get_single_entry(account)`: reports the value stored under `account`
      in an event, and fails with `NoValueStored` when there is none. The map
      itself is never written. */
  function GetSingleEntry(s: Storage, who: AccountId, account: AccountId): (r: Outcome)
    ensures r.result.Ok? <==> account in s.simpleMap
    ensures r.result.Err? ==> r.result.error == NoValueStored && r.storage == s
    ensures r.storage.simpleMap == s.simpleMap
    ensures r.result.Ok? ==> r.storage.events == s.events + [EntryGot(who, ValueOf(s, account))]
  {
    if account !in s.simpleMap then Outcome(s, Err(NoValueStored))
    else Outcome(s.(events := s.events + [EntryGot(who, s.simpleMap[account])]), Ok(()))
  }

  /** `take_single_entry`: removes the caller's entry and reports the value
      it held; fails with `NoValueStored` when there is none. Afterwards the
      caller reads as 0. */
  function TakeSingleEntry(s: Storage, who: AccountId): (r: Outcome)
    ensures r.result.Ok? <==> who in s.simpleMap
    ensures r.result.Err? ==> r.result.error == NoValueStored && r.storage == s
    ensures r.result.Ok? ==>
      && who !in r.storage.simpleMap && ValueOf(r.storage, who) == 0
      && (forall a :: a != who ==> (a in r.storage.simpleMap <==> a in s.simpleMap))
      && (forall a :: a != who ==> ValueOf(r.storage, a) == ValueOf(s, a))
      && r.storage.events == s.events + [EntryTaken(who, ValueOf(s, who))]
  {
    if who !in s.simpleMap then Outcome(s, Err(NoValueStored))
    else
      var entry := s.simpleMap[who];
      Outcome(Storage(s.simpleMap - {who}, s.events + [EntryTaken(who, entry)]), Ok(()))
  }

  /** `increase_single_entry(add)`: adds `add` to the caller's entry and
      reports the old and the new value; fails with `NoValueStored` when
      there is no entry, and with `ArithmeticOverflow` when the sum leaves `u32`. */
  function IncreaseSingleEntry(s: Storage, who: AccountId, add: U32): (r: Outcome)
    ensures r.result.Ok? <==> who in s.simpleMap && ValueOf(s, who) + add <= U32_MAX
    ensures r.result == Err(NoValueStored) <==> who !in s.simpleMap
    ensures r.result.Err? ==> r.storage == s
    ensures r.result.Ok? ==>
      && who in r.storage.simpleMap && ValueOf(r.storage, who) == ValueOf(s, who) + add
      && (forall a :: a != who ==> (a in r.storage.simpleMap <==> a in s.simpleMap))
      && (forall a :: a != who ==> ValueOf(r.storage, a) == ValueOf(s, a))
      && r.storage.events == s.events + [EntryIncreased(who, ValueOf(s, who), ValueOf(s, who) + add)]
  {
    if who !in s.simpleMap then Outcome(s, Err(NoValueStored))
    else
      var original := s.simpleMap[who];
      match CheckedAdd(original, add)
      case None => Outcome(s, Err(ArithmeticOverflow))
      case Some(increased) =>
        Outcome(Storage(s.simpleMap[who := increased], s.events + [EntryIncreased(who, original, increased)]), Ok(()))
  }

  // ---------------------------------------------------------------------
  // How the calls compose

  /** What is set can be read back: a get after a set reports the set value,
      by any caller. */
  lemma SetThenGet(s: Storage, who: AccountId, value: U32, getter: AccountId)
    ensures var t := SetSingleEntry(s, who, value).storage;
            var g := GetSingleEntry(t, getter, who);
            && g.result.Ok?
            && g.storage.events == s.events + [EntrySet(who, value), EntryGot(getter, value)]
            && ValueOf(g.storage, who) == value
  {
  }

  /** A take after a set hands back the set value and restores the entry to
      absent, so that a second take or a get fails with `NoValueStored`. */
  lemma SetThenTake(s: Storage, who: AccountId, value: U32)
    ensures var t := TakeSingleEntry(SetSingleEntry(s, who, value).storage, who);
            && t.result.Ok?
            && t.storage.events[|t.storage.events| - 1] == EntryTaken(who, value)
            && ValueOf(t.storage, who) == 0
            && TakeSingleEntry(t.storage, who).result == Err(NoValueStored)
            && GetSingleEntry(t.storage, who, who).result == Err(NoValueStored)
            && (forall a :: a != who ==> ValueOf(t.storage, a) == ValueOf(s, a))
  {
  }

  /** Two increases add up: increasing by `a` then by `b` stores what one
      increase by `a + b` stores. */
  lemma IncreaseTwice(s: Storage, who: AccountId, a: U32, b: U32)
    requires who in s.simpleMap
    requires ValueOf(s, who) + a + b <= U32_MAX
    ensures var once := IncreaseSingleEntry(s, who, a);
            var twice := IncreaseSingleEntry(once.storage, who, b);
            && once.result.Ok? && twice.result.Ok?
            && twice.storage.simpleMap == IncreaseSingleEntry(s, who, a + b).storage.simpleMap
  {
  }

  // ---------------------------------------------------------------------
  // The pallet's own scenarios

  lemma SetWorks()
    ensures SetSingleEntry(Genesis, 1, 19).storage.events[0] == EntrySet(1, 19)
  {
  }

  lemma GetThrows()
    ensures GetSingleEntry(Genesis, 2, 3).result == Err(NoValueStored)
  {
  }

  lemma GetWorks()
    ensures var s1 := SetSingleEntry(Genesis, 2, 19);
            var s2 := GetSingleEntry(s1.storage, 1, 2);
            && s2.result.Ok?
            && s2.storage.events[1] == EntryGot(1, 19)
            && ValueOf(s2.storage, 2) == 19
  {
  }

  lemma TakeThrows()
    ensures TakeSingleEntry(Genesis, 2).result == Err(NoValueStored)
  {
  }

  lemma TakeWorks()
    ensures var s1 := SetSingleEntry(Genesis, 2, 19);
            var s2 := TakeSingleEntry(s1.storage, 2);
            && s2.result.Ok?
            && s2.storage.events[1] == EntryTaken(2, 19)
            && ValueOf(s2.storage, 2) == 0
  {
  }

  lemma IncreaseWorks()
    ensures var s1 := SetSingleEntry(Genesis, 2, 19);
            var s2 := IncreaseSingleEntry(s1.storage, 2, 2);
            && s2.result.Ok?
            && s2.storage.events[1] == EntryIncreased(2, 19, 21)
            && ValueOf(s2.storage, 2) == 21
  {
  }
}

/** The simple-map pallet as the host runs it: the map is updated in place
    and events are appended to the pallet's log. */
module SimpleMap {
  import opened Frame
  import opened SimpleMapSpec

  class Pallet {
    var simpleMap: map<AccountId, U32>
    var events: seq<Event>

    function Snapshot(): Storage
      reads this
    {
      Storage(simpleMap, events)
    }

    constructor ()
      ensures Snapshot() == Genesis
    {
      simpleMap, events := map[], [];
    }

    method SetSingleEntry(who: AccountId, value: U32) returns (res: DispatchResult<Error>)
      modifies this
      ensures Outcome(Snapshot(), res) == SimpleMapSpec.SetSingleEntry(old(Snapshot()), who, value)
    {
      simpleMap := simpleMap[who := value];
      events := events + [EntrySet(who, value)];
      res := Ok(());
    }

    /** Only the log is written: the frame leaves the map out. */
    method GetSingleEntry(who: AccountId, account: AccountId) returns (res: DispatchResult<Error>)
      modifies this`events
      ensures Outcome(Snapshot(), res) == SimpleMapSpec.GetSingleEntry(old(Snapshot()), who, account)
    {
      if account !in simpleMap {
        return Err(NoValueStored);
      }
      var entry := simpleMap[account];
      events := events + [EntryGot(who, entry)];
      res := Ok(());
    }

    method TakeSingleEntry(who: AccountId) returns (res: DispatchResult<Error>)
      modifies this
      ensures Outcome(Snapshot(), res) == SimpleMapSpec.TakeSingleEntry(old(Snapshot()), who)
    {
      if who !in simpleMap {
        return Err(NoValueStored);
      }
      var entry := simpleMap[who];
      simpleMap := simpleMap - {who};
      events := events + [EntryTaken(who, entry)];
      res := Ok(());
    }

    method IncreaseSingleEntry(who: AccountId, add: U32) returns (res: DispatchResult<Error>)
      modifies this
      ensures Outcome(Snapshot(), res) == SimpleMapSpec.IncreaseSingleEntry(old(Snapshot()), who, add)
    {
      if who !in simpleMap {
        return Err(NoValueStored);
      }
      var original := simpleMap[who];
      var sum := CheckedAdd(original, add);
      if sum.None? {
        return Err(ArithmeticOverflow);
      }
      simpleMap := simpleMap[who := sum.value];
      events := events + [EntryIncreased(who, original, sum.value)];
      res := Ok(());
    }
  }
}
