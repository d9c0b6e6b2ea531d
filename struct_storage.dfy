/** The struct-storage pallet as values: two storage maps of records, inner
    things by their number and super things (each holding an inner thing)
    by their super number, and the pallet's event log. None of its calls can
    fail, so each is a function from storage to storage. */
module StructStorageSpec {
  import opened Frame

  /** An `H256` digest, kept as the 256-bit number it spells. It is only
      stored, copied and compared here, never computed. */
  type Hash = x: int | 0 <= x < 0x1_0000_0000_0000_0000_0000_0000_0000_0000_0000_0000_0000_0000_0000_0000_0000_0000

  /** The test runtime's `Balance` is `u64`. */
  type Balance = U64

  datatype InnerThing = InnerThing(number: U32, hash: Hash, balance: Balance)

  datatype SuperThing = SuperThing(superNumber: U32, innerThing: InnerThing)

  /** What the inner-thing map yields for a number with no entry: the
      record of default fields. */
  const DefaultInnerThing := InnerThing(0, 0, 0)

  datatype Event =
    | NewInnerThing(number: U32, hash: Hash, balance: Balance)
    | NewSuperThingByExistingInner(superNumber: U32, innerNumber: U32, hash: Hash, balance: Balance)
    | NewSuperThingByNewInner(superNumber: U32, innerNumber: U32, hash: Hash, balance: Balance)

  /** `InnerThingsByNumbers`, `SuperThingsBySuperNumbers` and the deposited events. */
  datatype Storage = Storage(
    innerThingsByNumbers: map<U32, InnerThing>,
    superThingsBySuperNumbers: map<U32, SuperThing>,
    events: seq<Event>)

  const Genesis := Storage(map[], map[], [])

  /** The `inner_things_by_numbers(number)` getter. */
  function InnerThingsByNumbers(s: Storage, number: U32): (r: InnerThing)
    ensures number in s.innerThingsByNumbers ==> r == s.innerThingsByNumbers[number]
    ensures number !in s.innerThingsByNumbers ==> r == DefaultInnerThing
    ensures Valid(s) ==> r.number == number || r == DefaultInnerThing
  {
    if number in s.innerThingsByNumbers then s.innerThingsByNumbers[number] else DefaultInnerThing
  }

  /** Every record is filed under its own number. */
  ghost predicate Valid(s: Storage)
  {
    && (forall n :: n in s.innerThingsByNumbers ==> s.innerThingsByNumbers[n].number == n)
    && (forall n :: n in s.superThingsBySuperNumbers ==> s.superThingsBySuperNumbers[n].superNumber == n)
  }

  /** `insert_inner_thing(number, hash, balance)`: files the record built
      from the three fields under `number`, replacing any record there. */
  function InsertInnerThing(s: Storage, number: U32, hash: Hash, balance: Balance): (r: Storage)
    ensures number in r.innerThingsByNumbers
    ensures r.innerThingsByNumbers[number] == InnerThing(number, hash, balance)
    ensures forall n :: n != number ==> (n in r.innerThingsByNumbers <==> n in s.innerThingsByNumbers)
    ensures forall n :: n != number && n in s.innerThingsByNumbers ==>
      r.innerThingsByNumbers[n] == s.innerThingsByNumbers[n]
    ensures r.superThingsBySuperNumbers == s.superThingsBySuperNumbers
    ensures r.events == s.events + [NewInnerThing(number, hash, balance)]
  {
    var innerThing := InnerThing(number, hash, balance);
    Storage(s.innerThingsByNumbers[number := innerThing], s.superThingsBySuperNumbers,
            s.events + [NewInnerThing(number, hash, balance)])
  }

  /** `insert_super_thing_with_existing_inner(inner_number, super_number)`:
      files, under `super_number`, a super thing holding a copy of the inner
      thing read at `inner_number`; the event carries the copied fields. The
      inner map is only read. */
  function InsertSuperThingWithExistingInner(s: Storage, innerNumber: U32, superNumber: U32): (r: Storage)
    ensures superNumber in r.superThingsBySuperNumbers
    ensures r.superThingsBySuperNumbers[superNumber]
         == SuperThing(superNumber, InnerThingsByNumbers(s, innerNumber))
    ensures forall n :: n != superNumber ==> (n in r.superThingsBySuperNumbers <==> n in s.superThingsBySuperNumbers)
    ensures forall n :: n != superNumber && n in s.superThingsBySuperNumbers ==>
      r.superThingsBySuperNumbers[n] == s.superThingsBySuperNumbers[n]
    ensures r.innerThingsByNumbers == s.innerThingsByNumbers
    ensures var inner := InnerThingsByNumbers(s, innerNumber);
            r.events == s.events + [NewSuperThingByExistingInner(superNumber, inner.number, inner.hash, inner.balance)]
  {
    var innerThing := InnerThingsByNumbers(s, innerNumber);
    var superThing := SuperThing(superNumber, innerThing);
    Storage(s.innerThingsByNumbers, s.superThingsBySuperNumbers[superNumber := superThing],
            s.events + [NewSuperThingByExistingInner(superNumber, innerThing.number, innerThing.hash, innerThing.balance)])
  }

  /** `insert_super_thing_with_new_inner(number, hash, balance, super_number)`:
      files the new inner thing under `number` (depositing `NewInnerThing`),
      then a super thing holding it under `super_number` (depositing
      `NewSuperThingByNewInner`). */
  function InsertSuperThingWithNewInner(s: Storage, number: U32, hash: Hash, balance: Balance, superNumber: U32): (r: Storage)
    ensures number in r.innerThingsByNumbers
    ensures r.innerThingsByNumbers[number] == InnerThing(number, hash, balance)
    ensures forall n :: n != number ==> (n in r.innerThingsByNumbers <==> n in s.innerThingsByNumbers)
    ensures forall n :: n != number && n in s.innerThingsByNumbers ==>
      r.innerThingsByNumbers[n] == s.innerThingsByNumbers[n]
    ensures superNumber in r.superThingsBySuperNumbers
    ensures r.superThingsBySuperNumbers[superNumber] == SuperThing(superNumber, InnerThing(number, hash, balance))
    ensures forall n :: n != superNumber ==> (n in r.superThingsBySuperNumbers <==> n in s.superThingsBySuperNumbers)
    ensures forall n :: n != superNumber && n in s.superThingsBySuperNumbers ==>
      r.superThingsBySuperNumbers[n] == s.superThingsBySuperNumbers[n]
    ensures r.events == s.events + [NewInnerThing(number, hash, balance),
                                    NewSuperThingByNewInner(superNumber, number, hash, balance)]
  {
    var innerThing := InnerThing(number, hash, balance);
    var withInner := s.(innerThingsByNumbers := s.innerThingsByNumbers[number := innerThing],
                        events := s.events + [NewInnerThing(number, hash, balance)]);
    var superThing := SuperThing(superNumber, innerThing);
    withInner.(superThingsBySuperNumbers := s.superThingsBySuperNumbers[superNumber := superThing],
               events := withInner.events + [NewSuperThingByNewInner(superNumber, number, hash, balance)])
  }

  // ---------------------------------------------------------------------
  // Properties

  lemma InsertInnerThingKeepsValid(s: Storage, number: U32, hash: Hash, balance: Balance)
    requires Valid(s)
    ensures Valid(InsertInnerThing(s, number, hash, balance))
  {
  }

  lemma InsertSuperThingWithExistingInnerKeepsValid(s: Storage, innerNumber: U32, superNumber: U32)
    requires Valid(s)
    ensures Valid(InsertSuperThingWithExistingInner(s, innerNumber, superNumber))
  {
  }

  lemma InsertSuperThingWithNewInnerKeepsValid(s: Storage, number: U32, hash: Hash, balance: Balance, superNumber: U32)
    requires Valid(s)
    ensures Valid(InsertSuperThingWithNewInner(s, number, hash, balance, superNumber))
  {
  }

  /** In a storage whose records are filed under their own numbers, the
      existing-inner insert of a filed number reports that very number. */
  lemma ExistingInnerEventNamesTheInner(s: Storage, innerNumber: U32, superNumber: U32)
    requires Valid(s)
    requires innerNumber in s.innerThingsByNumbers
    ensures var inner := s.innerThingsByNumbers[innerNumber];
            var r := InsertSuperThingWithExistingInner(s, innerNumber, superNumber);
            r.events[|r.events| - 1] == NewSuperThingByExistingInner(superNumber, innerNumber, inner.hash, inner.balance)
  {
  }

  /** Inserting a super thing with a new inner thing stores exactly what an
      inner insert followed by an existing-inner insert of that number
      stores, and deposits the same first event; only the second event's
      kind tells them apart. */
  lemma NewInnerIsInnerThenExisting(s: Storage, number: U32, hash: Hash, balance: Balance, superNumber: U32)
    ensures var direct := InsertSuperThingWithNewInner(s, number, hash, balance, superNumber);
            var stepwise := InsertSuperThingWithExistingInner(InsertInnerThing(s, number, hash, balance), number, superNumber);
            && direct.innerThingsByNumbers == stepwise.innerThingsByNumbers
            && direct.superThingsBySuperNumbers == stepwise.superThingsBySuperNumbers
            && direct.events[..|s.events| + 1] == stepwise.events[..|s.events| + 1]
            && direct.events[|s.events| + 1] == NewSuperThingByNewInner(superNumber, number, hash, balance)
            && stepwise.events[|s.events| + 1] == NewSuperThingByExistingInner(superNumber, number, hash, balance)
  {
  }

  // ---------------------------------------------------------------------
  // The pallet's own scenarios

  lemma InsertInnerWorks()
    ensures var s := InsertInnerThing(Genesis, 3, 16, 7);
            && InnerThingsByNumbers(s, 3) == InnerThing(3, 16, 7)
            && s.events[0] == NewInnerThing(3, 16, 7)
  {
  }

  lemma InsertSuperThingWithExistingWorks()
    ensures var s1 := InsertInnerThing(Genesis, 3, 16, 7);
            var s2 := InsertSuperThingWithExistingInner(s1, 3, 5);
            && InnerThingsByNumbers(s2, 3) == InnerThing(3, 16, 7)
            && s2.superThingsBySuperNumbers[5] == SuperThing(5, InnerThing(3, 16, 7))
            && s2.events[1] == NewSuperThingByExistingInner(5, 3, 16, 7)
  {
  }

  lemma InsertSuperWithNewInnerWorks()
    ensures var s := InsertSuperThingWithNewInner(Genesis, 3, 16, 7, 5);
            && InnerThingsByNumbers(s, 3) == InnerThing(3, 16, 7)
            && s.superThingsBySuperNumbers[5] == SuperThing(5, InnerThing(3, 16, 7))
            && s.events == [NewInnerThing(3, 16, 7), NewSuperThingByNewInner(5, 3, 16, 7)]
  {
  }
}

/** The struct-storage pallet as the host runs it: the two maps updated in
    place and the pallet's event log. */
module StructStorage {
  import opened Frame
  import opened StructStorageSpec

  class Pallet {
    var innerThingsByNumbers: map<U32, InnerThing>
    var superThingsBySuperNumbers: map<U32, SuperThing>
    var events: seq<Event>

    function Snapshot(): Storage
      reads this
    {
      Storage(innerThingsByNumbers, superThingsBySuperNumbers, events)
    }

    ghost predicate Valid()
      reads this
    {
      StructStorageSpec.Valid(Snapshot())
    }

    constructor ()
      ensures Valid() && Snapshot() == Genesis
    {
      innerThingsByNumbers, superThingsBySuperNumbers, events := map[], map[], [];
    }

    method InsertInnerThing(number: U32, hash: Hash, balance: Balance)
      requires Valid()
      modifies this`innerThingsByNumbers, this`events
      ensures Valid()
      ensures Snapshot() == StructStorageSpec.InsertInnerThing(old(Snapshot()), number, hash, balance)
    {
      var innerThing := InnerThing(number, hash, balance);
      innerThingsByNumbers := innerThingsByNumbers[number := innerThing];
      events := events + [NewInnerThing(number, hash, balance)];
    }

    method InsertSuperThingWithExistingInner(innerNumber: U32, superNumber: U32)
      requires Valid()
      modifies this`superThingsBySuperNumbers, this`events
      ensures Valid()
      ensures Snapshot() == StructStorageSpec.InsertSuperThingWithExistingInner(old(Snapshot()), innerNumber, superNumber)
    {
      var innerThing := InnerThingsByNumbers(Snapshot(), innerNumber);
      var superThing := SuperThing(superNumber, innerThing);
      superThingsBySuperNumbers := superThingsBySuperNumbers[superNumber := superThing];
      events := events + [NewSuperThingByExistingInner(superNumber, innerThing.number, innerThing.hash, innerThing.balance)];
    }

    method InsertSuperThingWithNewInner(number: U32, hash: Hash, balance: Balance, superNumber: U32)
      requires Valid()
      modifies this
      ensures Valid()
      ensures Snapshot() == StructStorageSpec.InsertSuperThingWithNewInner(old(Snapshot()), number, hash, balance, superNumber)
    {
      var innerThing := InnerThing(number, hash, balance);
      innerThingsByNumbers := innerThingsByNumbers[number := innerThing];
      events := events + [NewInnerThing(number, hash, balance)];
      var superThing := SuperThing(superNumber, innerThing);
      superThingsBySuperNumbers := superThingsBySuperNumbers[superNumber := superThing];
      events := events + [NewSuperThingByNewInner(superNumber, number, hash, balance)];
    }
  }
}
