/** The events the double-map pallet deposits and the errors its calls fail with. */
module DoubleMapEvents {
  import opened Frame

  type GroupIndex = U32

  datatype Event =
    | NewMember(member: AccountId)
    | MemberJoinsGroup(member: AccountId, group: GroupIndex, score: U32)
    | RemoveMember(member: AccountId)
    | RemoveGroup(group: GroupIndex)

  datatype Error = AlreadyMember | NotAMember | NotInGroup
  {
    /** The message the call fails with. */
    function Message(): string
    {
      match this
      case AlreadyMember => "already a member, can't join"
      case NotAMember => "not a member, can't remove"
      case NotInGroup => "member isn't in the group, can't remove it"
    }
  }
}

/** The double-map registry as values: its three stores, its event log, and
    one function per dispatchable call giving the call's result and the
    storage after it. A failed call leaves the storage, log included, as it
    was; a successful call appends exactly one event. */
module DoubleMapSpec {
  import opened Frame
  import opened DoubleMapEvents
  import DoubleKeyStore

  /** `AllMembers`, `GroupMembership` (member to group), `MemberScore`
      ((group, member) to score) and the events the pallet deposited. */
  datatype Storage = Storage(
    allMembers: seq<AccountId>,
    groupMembership: map<AccountId, GroupIndex>,
    memberScore: map<(GroupIndex, AccountId), U32>,
    events: seq<Event>)

  datatype Outcome = Outcome(storage: Storage, result: DispatchResult<Error>)

  const Genesis := Storage([], map[], map[], [])

  /** The referential chain of the registry: no member is listed twice, a
      group link belongs to a member, and a score entry `(g, m)` exists only
      while `m` is linked to exactly `g` (so a member has at most one score). */
  ghost predicate Consistent(s: Storage)
  {
    && NoDuplicates(s.allMembers)
    && (forall m :: m in s.groupMembership ==> m in s.allMembers)
    && (forall k :: k in s.memberScore ==> k.1 in s.groupMembership && s.groupMembership[k.1] == k.0)
  }

  /** `join_all_members`: a caller that is not yet a member is appended to
      the member list; a member is turned away. */
  function JoinAllMembers(s: Storage, who: AccountId): (r: Outcome)
    ensures r.result.Ok? <==> who !in s.allMembers
    ensures r.result.Err? ==> r.result.error == AlreadyMember && r.storage == s
    ensures r.result.Ok? ==>
      && r.storage.allMembers == s.allMembers + [who]
      && r.storage.groupMembership == s.groupMembership
      && r.storage.memberScore == s.memberScore
      && r.storage.events == s.events + [NewMember(who)]
  {
    if who in s.allMembers then Outcome(s, Err(AlreadyMember))
    else Outcome(s.(allMembers := s.allMembers + [who], events := s.events + [NewMember(who)]), Ok(()))
  }

  /** The score table after `who` leaves whatever group it is linked to. */
  function DropScore(s: Storage, who: AccountId): map<(GroupIndex, AccountId), U32>
  {
    if who in s.groupMembership then DoubleKeyStore.Remove(s.memberScore, s.groupMembership[who], who)
    else s.memberScore
  }

  /** `join_a_group(group, score)`: a member is linked to `group` with
      `score`; the score it held under a previous group goes with the old
      link. A non-member is turned away. */
  function JoinAGroup(s: Storage, who: AccountId, group: GroupIndex, score: U32): (r: Outcome)
    ensures r.result.Ok? <==> who in s.allMembers
    ensures r.result.Err? ==> r.result.error == NotAMember && r.storage == s
    ensures r.result.Ok? ==>
      && r.storage.allMembers == s.allMembers
      && who in r.storage.groupMembership && r.storage.groupMembership[who] == group
      && (forall m :: m != who ==> (m in r.storage.groupMembership <==> m in s.groupMembership))
      && (forall m :: m != who && m in s.groupMembership ==> r.storage.groupMembership[m] == s.groupMembership[m])
      && (group, who) in r.storage.memberScore && r.storage.memberScore[(group, who)] == score
      && (who in s.groupMembership && s.groupMembership[who] != group ==>
            (s.groupMembership[who], who) !in r.storage.memberScore)
      && (forall k: (GroupIndex, AccountId) :: k.1 != who ==> (k in r.storage.memberScore <==> k in s.memberScore))
      && (forall k: (GroupIndex, AccountId) :: k.1 != who && k in s.memberScore ==> r.storage.memberScore[k] == s.memberScore[k])
      && r.storage.events == s.events + [MemberJoinsGroup(who, group, score)]
  {
    if who !in s.allMembers then Outcome(s, Err(NotAMember))
    else
      var scores := DoubleKeyStore.Insert(DropScore(s, who), group, who, score);
      Outcome(Storage(s.allMembers, s.groupMembership[who := group], scores,
                      s.events + [MemberJoinsGroup(who, group, score)]), Ok(()))
  }

  /** `remove_member`: a member leaves the member list, and its group link
      and the score under that group go with it. A non-member is turned away. */
  function RemoveMember(s: Storage, who: AccountId): (r: Outcome)
    ensures r.result.Ok? <==> who in s.allMembers
    ensures r.result.Err? ==> r.result.error == NotAMember && r.storage == s
    ensures r.result.Ok? ==>
      && (forall m :: m in r.storage.allMembers <==> m in s.allMembers && m != who)
      && (NoDuplicates(s.allMembers) ==> CutOnce(s.allMembers, who, r.storage.allMembers))
      && who !in r.storage.groupMembership
      && (forall m :: m != who ==> (m in r.storage.groupMembership <==> m in s.groupMembership))
      && (forall m :: m in r.storage.groupMembership ==> r.storage.groupMembership[m] == s.groupMembership[m])
      && (who in s.groupMembership ==> (s.groupMembership[who], who) !in r.storage.memberScore)
      && (forall k: (GroupIndex, AccountId) :: k.1 != who ==> (k in r.storage.memberScore <==> k in s.memberScore))
      && (forall k :: k in r.storage.memberScore ==> k in s.memberScore && r.storage.memberScore[k] == s.memberScore[k])
      && r.storage.events == s.events + [Event.RemoveMember(who)]
  {
    if who !in s.allMembers then Outcome(s, Err(NotAMember))
    else
      WithoutCutsOnePosition(s.allMembers, who);
      Outcome(Storage(Without(s.allMembers, who), s.groupMembership - {who}, DropScore(s, who),
                      s.events + [Event.RemoveMember(who)]), Ok(()))
  }

  /** `remove_group_score(group)`: a caller linked to `group` clears the
      score of every member of `group` at once; group links and entries of
      other groups stay. Any other caller is turned away. */
  function RemoveGroupScore(s: Storage, who: AccountId, group: GroupIndex): (r: Outcome)
    ensures r.result.Ok? <==> who in s.groupMembership && s.groupMembership[who] == group
    ensures r.result.Err? ==> r.result.error == NotInGroup && r.storage == s
    ensures r.result.Ok? ==>
      && r.storage.allMembers == s.allMembers
      && r.storage.groupMembership == s.groupMembership
      && (forall m :: (group, m) !in r.storage.memberScore)
      && (forall k: (GroupIndex, AccountId) :: k.0 != group ==> (k in r.storage.memberScore <==> k in s.memberScore))
      && (forall k :: k in r.storage.memberScore ==> k in s.memberScore && r.storage.memberScore[k] == s.memberScore[k])
      && r.storage.events == s.events + [RemoveGroup(group)]
  {
    if who !in s.groupMembership || s.groupMembership[who] != group then Outcome(s, Err(NotInGroup))
    else
      Outcome(s.(memberScore := DoubleKeyStore.RemovePrefix(s.memberScore, group),
                 events := s.events + [RemoveGroup(group)]), Ok(()))
  }

  /** A dispatchable call with its signed caller. */
  datatype Call =
    | JoinAllMembersCall(who: AccountId)
    | JoinAGroupCall(who: AccountId, group: GroupIndex, score: U32)
    | RemoveMemberCall(who: AccountId)
    | RemoveGroupScoreCall(who: AccountId, group: GroupIndex)

  /** The event a successful call deposits: it carries the call's own arguments. */
  function EventOf(c: Call): Event
  {
    match c
    case JoinAllMembersCall(who) => NewMember(who)
    case JoinAGroupCall(who, group, score) => MemberJoinsGroup(who, group, score)
    case RemoveMemberCall(who) => Event.RemoveMember(who)
    case RemoveGroupScoreCall(_, group) => RemoveGroup(group)
  }

  /** Executes one call. Validation precedes every write: a rejected call
      changes nothing and deposits nothing; an accepted one deposits exactly
      the event of the call. */
  function Dispatch(s: Storage, c: Call): (r: Outcome)
    ensures r.result.Err? ==> r.storage == s
    ensures r.result.Ok? ==> r.storage.events == s.events + [EventOf(c)]
  {
    match c
    case JoinAllMembersCall(who) => JoinAllMembers(s, who)
    case JoinAGroupCall(who, group, score) => JoinAGroup(s, who, group, score)
    case RemoveMemberCall(who) => RemoveMember(s, who)
    case RemoveGroupScoreCall(who, group) => RemoveGroupScore(s, who, group)
  }

  /** Executes the calls one after another, each against the storage the
      previous one committed. */
  function Run(s: Storage, calls: seq<Call>): Storage
    decreases |calls|
  {
    if calls == [] then s else Run(Dispatch(s, calls[0]).storage, calls[1..])
  }

  /** The number of calls in `calls` that succeed when run from `s`. */
  function Successes(s: Storage, calls: seq<Call>): nat
    decreases |calls|
  {
    if calls == [] then 0
    else (if Dispatch(s, calls[0]).result.Ok? then 1 else 0) + Successes(Dispatch(s, calls[0]).storage, calls[1..])
  }

  // ---------------------------------------------------------------------
  // The registry's invariant is kept by every call

  lemma JoinAllMembersKeepsConsistent(s: Storage, who: AccountId)
    requires Consistent(s)
    ensures Consistent(JoinAllMembers(s, who).storage)
  {
  }

  lemma JoinAGroupKeepsConsistent(s: Storage, who: AccountId, group: GroupIndex, score: U32)
    requires Consistent(s)
    ensures Consistent(JoinAGroup(s, who, group, score).storage)
  {
  }

  lemma RemoveMemberKeepsConsistent(s: Storage, who: AccountId)
    requires Consistent(s)
    ensures Consistent(RemoveMember(s, who).storage)
  {
  }

  lemma RemoveGroupScoreKeepsConsistent(s: Storage, who: AccountId, group: GroupIndex)
    requires Consistent(s)
    ensures Consistent(RemoveGroupScore(s, who, group).storage)
  {
  }

  lemma DispatchKeepsConsistent(s: Storage, c: Call)
    requires Consistent(s)
    ensures Consistent(Dispatch(s, c).storage)
  {
    match c
    case JoinAllMembersCall(who) => JoinAllMembersKeepsConsistent(s, who);
    case JoinAGroupCall(who, group, score) => JoinAGroupKeepsConsistent(s, who, group, score);
    case RemoveMemberCall(who) => RemoveMemberKeepsConsistent(s, who);
    case RemoveGroupScoreCall(who, group) => RemoveGroupScoreKeepsConsistent(s, who, group);
  }

  /** Every storage reachable from a consistent one by any sequence of
      calls is consistent; in particular every storage reachable from genesis. */
  lemma {:induction false} RunKeepsConsistent(s: Storage, calls: seq<Call>)
    requires Consistent(s)
    ensures Consistent(Run(s, calls))
    decreases |calls|
  {
    if calls != [] {
      DispatchKeepsConsistent(s, calls[0]);
      RunKeepsConsistent(Dispatch(s, calls[0]).storage, calls[1..]);
    }
  }

  /** The event log only grows, by exactly one event per successful call:
      rejected calls leave no trace in it. */
  lemma {:induction false} RunLogsOneEventPerSuccess(s: Storage, calls: seq<Call>)
    ensures s.events <= Run(s, calls).events
    ensures |Run(s, calls).events| == |s.events| + Successes(s, calls)
    decreases |calls|
  {
    if calls != [] {
      RunLogsOneEventPerSuccess(Dispatch(s, calls[0]).storage, calls[1..]);
    }
  }

  // ---------------------------------------------------------------------
  // Properties of the registry that span its stores

  /** A member holds at most one score, the one under the group it is linked to. */
  lemma AtMostOneScore(s: Storage, m: AccountId, g1: GroupIndex, g2: GroupIndex)
    requires Consistent(s)
    requires (g1, m) in s.memberScore && (g2, m) in s.memberScore
    ensures g1 == g2 && m in s.groupMembership && s.groupMembership[m] == g1 && m in s.allMembers
  {
  }

  /** Removing a member from a consistent registry leaves nothing that refers
      to it: no listing, no group link, and no score under any group. */
  lemma RemoveMemberLeavesNoTrace(s: Storage, who: AccountId)
    requires Consistent(s)
    requires who in s.allMembers
    ensures RemoveMember(s, who).result.Ok?
    ensures who !in RemoveMember(s, who).storage.allMembers
    ensures who !in RemoveMember(s, who).storage.groupMembership
    ensures forall g :: (g, who) !in RemoveMember(s, who).storage.memberScore
  {
  }

  /** In a consistent registry, joining a group leaves the caller with exactly
      one score: the new one. */
  lemma JoinAGroupReplacesScore(s: Storage, who: AccountId, group: GroupIndex, score: U32)
    requires Consistent(s)
    requires who in s.allMembers
    ensures forall g :: (g, who) in JoinAGroup(s, who, group, score).storage.memberScore <==> g == group
  {
  }

  /** Join rejects, rather than merges, a second join: after two joins in a
      row the caller is listed exactly once. */
  lemma JoinTwiceRejectsSecond(s: Storage, who: AccountId)
    requires who !in s.allMembers
    ensures var first := JoinAllMembers(s, who);
            var second := JoinAllMembers(first.storage, who);
            && first.result.Ok?
            && second.result == Err(AlreadyMember)
            && second.storage == first.storage
            && multiset(second.storage.allMembers)[who] == 1
  {
  }

  // ---------------------------------------------------------------------
  // The pallet's own scenarios

  /** A first join succeeds and lists the caller; a second join by the same
      caller is rejected; the log holds `NewMember(1)` first. */
  lemma JoinAllMembersWorks()
    ensures var s1 := JoinAllMembers(Genesis, 1);
            var s2 := JoinAllMembers(s1.storage, 1);
            && s1.result.Ok?
            && s2.result == Err(AlreadyMember) && s2.result.error.Message() == "already a member, can't join"
            && s2.storage.events[0] == NewMember(1)
            && s2.storage.allMembers == [1]
  {
  }

  /** Joining a group before joining the registry is rejected; after joining,
      `join_a_group(3, 5)` links account 1 to group 3 with score 5. */
  lemma GroupJoinWorks()
    ensures var s1 := JoinAGroup(Genesis, 1, 3, 5);
            var s2 := JoinAllMembers(s1.storage, 1);
            var s3 := JoinAGroup(s2.storage, 1, 3, 5);
            && s1.result == Err(NotAMember) && s1.storage == Genesis
            && s2.result.Ok? && s3.result.Ok?
            && s3.storage.events[1] == MemberJoinsGroup(1, 3, 5)
            && s3.storage.groupMembership[1] == 3
            && s3.storage.memberScore[(3, 1)] == 5
  {
  }

  /** Removing account 1 after it joined group 3 drops its link and its score. */
  lemma RemoveMemberWorks()
    ensures var s := Run(Genesis, [JoinAllMembersCall(1), JoinAGroupCall(1, 3, 5), RemoveMemberCall(1)]);
            && s.events[2] == Event.RemoveMember(1)
            && 1 !in s.groupMembership
            && !DoubleKeyStore.ContainsKey(s.memberScore, 3, 1)
  {
    var s1 := JoinAllMembers(Genesis, 1).storage;
    var s2 := JoinAGroup(s1, 1, 3, 5).storage;
    assert Run(Genesis, [JoinAllMembersCall(1), JoinAGroupCall(1, 3, 5), RemoveMemberCall(1)])
        == RemoveMember(s2, 1).storage;
  }

  /** Three members join group 3; account 4 (no group) and account 1 asking
      for group 2 are both rejected; account 1 then clears group 3, which
      removes all three scores, and `RemoveGroup(3)` is the seventh event. */
  lemma RemoveGroupScoreWorks()
    ensures var s1 := JoinAllMembers(Genesis, 1).storage;
            var s2 := JoinAllMembers(s1, 2).storage;
            var s3 := JoinAllMembers(s2, 3).storage;
            var s4 := JoinAGroup(s3, 1, 3, 5).storage;
            var s5 := JoinAGroup(s4, 2, 3, 5).storage;
            var s6 := JoinAGroup(s5, 3, 3, 5).storage;
            var rejected1 := RemoveGroupScore(s6, 4, 3);
            var rejected2 := RemoveGroupScore(rejected1.storage, 1, 2);
            var cleared := RemoveGroupScore(rejected2.storage, 1, 3);
            && rejected1.result == Err(NotInGroup) && rejected1.storage == s6
            && rejected2.result == Err(NotInGroup) && rejected2.storage == s6
            && cleared.result.Ok?
            && |cleared.storage.events| == 7
            && cleared.storage.events[6] == RemoveGroup(3)
            && !DoubleKeyStore.ContainsKey(cleared.storage.memberScore, 3, 1)
            && !DoubleKeyStore.ContainsKey(cleared.storage.memberScore, 3, 2)
            && !DoubleKeyStore.ContainsKey(cleared.storage.memberScore, 3, 3)
  {
  }
}

/** The double-map pallet as the host runs it: storage that each call
    validates and then updates in place, and the log it deposits events in. */
module DoubleMap {
  import opened Frame
  import opened DoubleMapEvents
  import opened DoubleMapSpec
  import DoubleKeyStore

  class Pallet {
    var allMembers: seq<AccountId>
    var groupMembership: map<AccountId, GroupIndex>
    var memberScore: map<(GroupIndex, AccountId), U32>
    var events: seq<Event>

    /** The pallet's storage as a value. */
    function Snapshot(): Storage
      reads this
    {
      Storage(allMembers, groupMembership, memberScore, events)
    }

    ghost predicate Valid()
      reads this
    {
      Consistent(Snapshot())
    }

    /** Empty storage, as at genesis. */
    constructor ()
      ensures Valid() && Snapshot() == Genesis
    {
      allMembers, groupMembership, memberScore, events := [], map[], map[], [];
    }

    method JoinAllMembers(who: AccountId) returns (res: DispatchResult<Error>)
      requires Valid()
      modifies this
      ensures Valid()
      ensures Outcome(Snapshot(), res) == DoubleMapSpec.JoinAllMembers(old(Snapshot()), who)
    {
      ghost var before := Snapshot();
      if who in allMembers {
        return Err(AlreadyMember);
      }
      allMembers := allMembers + [who];
      events := events + [NewMember(who)];
      res := Ok(());
      JoinAllMembersKeepsConsistent(before, who);
    }

    method JoinAGroup(who: AccountId, group: GroupIndex, score: U32) returns (res: DispatchResult<Error>)
      requires Valid()
      modifies this
      ensures Valid()
      ensures Outcome(Snapshot(), res) == DoubleMapSpec.JoinAGroup(old(Snapshot()), who, group, score)
    {
      ghost var before := Snapshot();
      if who !in allMembers {
        return Err(NotAMember);
      }
      if who in groupMembership {
        memberScore := DoubleKeyStore.Remove(memberScore, groupMembership[who], who);
      }
      memberScore := DoubleKeyStore.Insert(memberScore, group, who, score);
      groupMembership := groupMembership[who := group];
      events := events + [MemberJoinsGroup(who, group, score)];
      res := Ok(());
      JoinAGroupKeepsConsistent(before, who, group, score);
    }

    method RemoveMember(who: AccountId) returns (res: DispatchResult<Error>)
      requires Valid()
      modifies this
      ensures Valid()
      ensures Outcome(Snapshot(), res) == DoubleMapSpec.RemoveMember(old(Snapshot()), who)
    {
      ghost var before := Snapshot();
      if who !in allMembers {
        return Err(NotAMember);
      }
      allMembers := Without(allMembers, who);
      if who in groupMembership {
        var group := groupMembership[who];
        groupMembership := groupMembership - {who};
        memberScore := DoubleKeyStore.Remove(memberScore, group, who);
      }
      events := events + [Event.RemoveMember(who)];
      res := Ok(());
      assert memberScore == DropScore(before, who);
      assert Snapshot() == DoubleMapSpec.RemoveMember(before, who).storage;
      RemoveMemberKeepsConsistent(before, who);
    }

    method RemoveGroupScore(who: AccountId, group: GroupIndex) returns (res: DispatchResult<Error>)
      requires Valid()
      modifies this
      ensures Valid()
      ensures Outcome(Snapshot(), res) == DoubleMapSpec.RemoveGroupScore(old(Snapshot()), who, group)
    {
      ghost var before := Snapshot();
      if who !in groupMembership || groupMembership[who] != group {
        return Err(NotInGroup);
      }
      memberScore := DoubleKeyStore.RemovePrefix(memberScore, group);
      events := events + [RemoveGroup(group)];
      res := Ok(());
      RemoveGroupScoreKeepsConsistent(before, who, group);
    }
  }
}
