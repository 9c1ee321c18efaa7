// The membership replay: the accepted changes are the unique solution of "a change counts exactly
// when its author was a member just before it", timelines represent them faithfully, membership is
// provably traceable to the founder, and later changes never rewrite an earlier verdict.
module Membership {
  import opened Ordering
  import opened Operations
  import opened Aliases
  import opened Authorization

  // ---------- The accepted changes ----------

  /** `a` is consistent: each change is in it exactly when its author was a member just before it. */
  ghost predicate Settled(c: Context, changes: set<Op>, a: set<Op>)
    requires MembershipOps(changes)
  {
    a <= changes && forall o | o in changes :: o in a <==> Admits(c, a, o)
  }

  lemma {:induction false} MemberAsOfLocal(c: Context, a: set<Op>, b: set<Op>, g: GroupId, u: UserId, at: Order)
    requires IdsUnique(a) && IdsUnique(b)
    requires forall o | OrderLe(OrderOf(o), at) :: o in a <==> o in b
    ensures MemberAsOf(c, a, g, u, at) == MemberAsOf(c, b, g, u, at)
  {
    assert Upto(ChangesOf(c, a, g, u), at) == Upto(ChangesOf(c, b, g, u), at);
  }

  lemma {:induction false} AcceptedIsSettled(c: Context, changes: set<Op>)
    requires MembershipOps(changes)
    ensures Settled(c, changes, Accepted(c, changes))
    decreases |changes|
  {
    hide Admits, LastOp;
    if changes != {} {
      var last := LastOp(changes);
      var rest := changes - {last};
      AcceptedIsSettled(c, rest);
      SettledExtends(c, rest, Accepted(c, rest), last);
      assert rest + {last} == changes;
    }
  }

  /** Whether a change is admitted depends only on earlier changes. */
  lemma {:induction false} AdmitsLocal(c: Context, a: set<Op>, b: set<Op>, o: Op)
    requires IdsUnique(a) && IdsUnique(b) && o.kind.SetMembership?
    requires forall x | OrderLe(OrderOf(x), OrderOf(o)) && x != o :: x in a <==> x in b
    ensures Admits(c, a, o) == Admits(c, b, o)
  {
    MemberAsOfLocal(c, a - {o}, b - {o}, o.kind.group, Actor(c.devices, c.aliases, o), OrderOf(o));
  }

  /** A consistent selection stays consistent when a change later than all others is replayed. */
  lemma {:induction false} SettledExtends(c: Context, rest: set<Op>, before: set<Op>, last: Op)
    requires MembershipOps(rest + {last}) && last !in rest
    requires forall o | o in rest :: OpLe(o, last)
    requires Settled(c, rest, before)
    ensures Settled(c, rest + {last}, if Admits(c, before, last) then before + {last} else before)
  {
    hide Admits;
    var a := if Admits(c, before, last) then before + {last} else before;
    AdmitsLocal(c, a, before, last);
    forall o | o in rest ensures Admits(c, a, o) == Admits(c, before, o) {
      assert OpLe(o, last) && !SameId(o, last);
      AdmitsLocal(c, a, before, o);
    }
  }

  ghost predicate AgreeUpto(a: set<Op>, b: set<Op>, at: Order) {
    forall o | OrderLe(OrderOf(o), at) :: o in a <==> o in b
  }

  /** Two consistent selections agree as far as the changes they select from agree. */
  lemma {:induction false} SettledAgree(c: Context, m1: set<Op>, a1: set<Op>, m2: set<Op>, a2: set<Op>, x: Op)
    requires MembershipOps(m1) && MembershipOps(m2)
    requires Settled(c, m1, a1) && Settled(c, m2, a2)
    requires AgreeUpto(m1, m2, OrderOf(x)) && x in m1
    ensures x in a1 <==> x in a2
    decreases |Upto(m1, OrderOf(x))|
  {
    var at := OrderOf(x);
    forall y | OrderLe(OrderOf(y), at) && y != x ensures y in a1 <==> y in a2 {
      if y in m1 {
        assert y in m2 && !SameId(y, x);
        var smaller := Upto(m1, OrderOf(y));
        assert smaller <= Upto(m1, at) - {x} && x in Upto(m1, at);
        SetSmaller(smaller, Upto(m1, at), x);
        SettledAgree(c, m1, a1, m2, a2, y);
      }
    }
    AdmitsLocal(c, a1, a2, x);
  }

  lemma {:induction false} SetSmaller<T>(s: set<T>, t: set<T>, x: T)
    requires s <= t - {x} && x in t
    ensures |s| < |t|
  {
    SubsetSize(s, t - {x});
  }

  /** The replay's result is the only consistent selection. */
  lemma {:induction false} AcceptedIsUnique(c: Context, changes: set<Op>, a: set<Op>)
    requires MembershipOps(changes) && Settled(c, changes, a)
    ensures a == Accepted(c, changes)
  {
    AcceptedIsSettled(c, changes);
    forall x | x in changes ensures x in a <==> x in Accepted(c, changes) {
      SettledAgree(c, changes, a, changes, Accepted(c, changes), x);
    }
  }

  /** Replaying one change more, not earlier than the others. */
  lemma {:induction false} AcceptedStep(c: Context, changes: set<Op>, o: Op)
    requires MembershipOps(changes + {o}) && o !in changes
    requires forall x | x in changes :: OpLe(x, o)
    ensures Accepted(c, changes + {o})
         == if Admits(c, Accepted(c, changes), o) then Accepted(c, changes) + {o} else Accepted(c, changes)
  {
    var all := changes + {o};
    var last := LastOp(all);
    assert OpLe(o, last) && OpLe(last, o) && SameId(o, last);
    assert all - {o} == changes;
  }

  // ---------- Timelines ----------

  lemma {:induction false} LatestAtMeaning(es: seq<Event>, at: Order)
    ensures LatestAt(es, at).None? ==> forall i | 0 <= i < |es| :: !OrderLe(es[i].at, at)
    ensures LatestAt(es, at).Some? ==>
      exists i :: 0 <= i < |es| && OrderLe(es[i].at, at) && LatestAt(es, at).value == es[i].member
               && forall j | i < j < |es| :: !OrderLe(es[j].at, at)
  {
    if es != [] {
      var n := |es| - 1;
      LatestAtMeaning(es[..n], at);
      if OrderLe(es[n].at, at) {
        assert n + 1 == |es|;
      } else if LatestAt(es, at).Some? {
        var i :| 0 <= i < n && OrderLe(es[i].at, at) && LatestAt(es, at).value == es[i].member
              && forall j | i < j < n :: !OrderLe(es[..n][j].at, at);
        forall j | i < j < |es| ensures !OrderLe(es[j].at, at) { if j < n { assert es[..n][j] == es[j]; } }
      }
    }
  }

  lemma {:induction false} EventToChange(c: Context, changes: set<Op>, g: GroupId, u: UserId, es: seq<Event>, i: nat)
    returns (o: Op)
    requires MembershipOps(changes) && IsTimeline(c, changes, g, u, es)
    requires |Seed(c, g, u)| <= i < |es|
    ensures o in changes && EventOf(o) == es[i]
  {
    hide Seed, Ascending, IdsUnique;
    var k := |Seed(c, g, u)|;
    assert es[k..][i - k] in Elems(es[k..]);
    o :| o in changes && EventOf(o) == es[i];
  }

  lemma {:induction false} ChangeToEvent(c: Context, changes: set<Op>, g: GroupId, u: UserId, es: seq<Event>, o: Op)
    returns (i: nat)
    requires MembershipOps(changes) && IsTimeline(c, changes, g, u, es)
    requires o in changes
    ensures |Seed(c, g, u)| <= i < |es| && EventOf(o) == es[i]
    ensures forall j | i < j < |es| :: OrderLe(OrderOf(o), es[j].at)
  {
    hide Seed, OrderLe, IdsUnique;
    var k := |Seed(c, g, u)|;
    assert EventOf(o) in Elems(es[k..]);
    var m :| 0 <= m < |es[k..]| && es[k..][m] == EventOf(o);
    i := k + m;
    forall j | i < j < |es| ensures OrderLe(OrderOf(o), es[j].at) { assert es[k..][j - k] == es[j]; }
  }

  /** A timeline read at `at` gives the verdict of the changes up to `at`. */
  lemma {:induction false} TimelineVerdict(
      c: Context, changes: set<Op>, g: GroupId, u: UserId, es: seq<Event>, at: Order)
    requires MembershipOps(changes) && IsTimeline(c, changes, g, u, es)
    ensures LatestAt(es, at) == Some(true) <==> MemberAfter(c, Upto(changes, at), g, u)
  {
    hide LatestAt, OrderLe, LastOp, IsTimeline;
    LatestAtMeaning(es, at);
    var upto := Upto(changes, at);
    if upto == {} {
      TimelineVerdictOfNone(c, changes, g, u, es, at);
    } else {
      var x := LastOp(upto);
      var m := ChangeToEvent(c, changes, g, u, es, x);
      var i :| 0 <= i < |es| && OrderLe(es[i].at, at) && LatestAt(es, at).value == es[i].member
            && forall j | i < j < |es| :: !OrderLe(es[j].at, at);
      var y := EventToChange(c, changes, g, u, es, i);
      OrderFacts(x, y, at);
    }
  }

  lemma {:induction false} TimelineVerdictOfNone(
      c: Context, changes: set<Op>, g: GroupId, u: UserId, es: seq<Event>, at: Order)
    requires MembershipOps(changes) && IsTimeline(c, changes, g, u, es)
    requires Upto(changes, at) == {}
    ensures LatestAt(es, at) == Some(true) <==> Seed(c, g, u) != []
  {
    hide LatestAt, OrderLe;
    LatestAtMeaning(es, at);
    var k := |Seed(c, g, u)|;
    forall i | k <= i < |es| ensures !OrderLe(es[i].at, at) {
      var o := EventToChange(c, changes, g, u, es, i);
      assert o !in Upto(changes, at);
    }
    if k > 0 {
      assert es[0] == es[..k][0] == Event(MIN_ORDER, true);
      MinOrderFirst(at);
    }
  }

  /** The last flag of a timeline is the verdict of all the changes. */
  lemma {:induction false} TimelineLast(c: Context, changes: set<Op>, g: GroupId, u: UserId, es: seq<Event>)
    requires MembershipOps(changes) && IsTimeline(c, changes, g, u, es)
    ensures es != [] && es[|es| - 1].member <==> MemberAfter(c, changes, g, u)
  {
    if es == [] {
      forall o | o in changes ensures false { var i := ChangeToEvent(c, changes, g, u, es, o); }
    } else {
      var at := es[|es| - 1].at;
      TimelineVerdict(c, changes, g, u, es, at);
      forall o | o in changes ensures OrderLe(OrderOf(o), at) {
        var i := ChangeToEvent(c, changes, g, u, es, o);
      }
      assert Upto(changes, at) == changes;
    }
  }

  lemma {:induction false} VerdictOfTimelines(
      t: Timelines, c: Context, accepted: set<Op>, g: GroupId, u: UserId, at: Order)
    requires MembershipOps(accepted) && Represents(t, c, accepted)
    ensures IsMemberAsOf(t, g, u, at) <==> MemberAsOf(c, accepted, g, u, at)
  {
    TimelineVerdict(c, ChangesOf(c, accepted, g, u), g, u, Events(t, g, u), at);
  }

  lemma {:induction false} CurrentOfTimelines(t: Timelines, c: Context, accepted: set<Op>, g: GroupId, u: UserId)
    requires MembershipOps(accepted) && Represents(t, c, accepted)
    ensures u in CurrentMembers(t, g) <==> MemberAfter(c, ChangesOf(c, accepted, g, u), g, u)
  {
    TimelineLast(c, ChangesOf(c, accepted, g, u), g, u, Events(t, g, u));
  }

  lemma {:induction false} TimelineOfIsTimeline(c: Context, changes: set<Op>, g: GroupId, u: UserId)
    requires MembershipOps(changes)
    ensures IsTimeline(c, changes, g, u, TimelineOf(c, changes, g, u))
  {
    hide Seed, OrderLe, IdsUnique, InOrder;
    var ops := InOrder(changes);
    var es := TimelineOf(c, changes, g, u);
    var k := |Seed(c, g, u)|;
    var rest := seq(|ops|, i requires 0 <= i < |ops| => EventOf(ops[i]));
    assert es == Seed(c, g, u) + rest && es[k..] == rest && es[..k] == Seed(c, g, u);
    EventsOfOps(ops, rest);
  }

  lemma {:induction false} EventsOfOps(ops: seq<Op>, rest: seq<Event>)
    requires forall o | o in ops :: o.kind.SetMembership?
    requires |rest| == |ops| && forall i | 0 <= i < |ops| :: rest[i] == EventOf(ops[i])
    ensures Elems(rest) == set o | o in Elems(ops) :: EventOf(o)
  {
    forall o | o in Elems(ops) ensures EventOf(o) in Elems(rest) {
      var i :| 0 <= i < |ops| && ops[i] == o;
      assert rest[i] in rest;
    }
    forall e | e in Elems(rest) ensures e in set o | o in Elems(ops) :: EventOf(o) {
      var i :| 0 <= i < |rest| && rest[i] == e;
      assert ops[i] in Elems(ops);
    }
  }

  lemma {:induction false} EventsAreTimelines(c: Context, accepted: set<Op>, g: GroupId, u: UserId)
    requires MembershipOps(accepted)
    ensures Events(TimelinesOf(c, accepted), g, u) == TimelineOf(c, ChangesOf(c, accepted, g, u), g, u)
  {
    hide TimelineOf;
    if g !in GroupsSeen(c, accepted) || u !in UsersSeen(c, accepted, g) {
      assert ChangesOf(c, accepted, g, u) == {} by {
        hide TimelinesOf;
        assert forall o | o in accepted && o.kind.group == g ::
          g in GroupsSeen(c, accepted) && Resolve(c.aliases, o.kind.user) in UsersSeen(c, accepted, g);
      }
      EmptyTimeline(c, g, u);
    }
  }

  lemma {:induction false} EmptyTimeline(c: Context, g: GroupId, u: UserId)
    ensures TimelineOf(c, {}, g, u) == Seed(c, g, u)
  {
    assert |InOrder({})| == 0;
  }

  lemma {:induction false} TimelinesRepresent(c: Context, accepted: set<Op>)
    requires MembershipOps(accepted)
    ensures Represents(TimelinesOf(c, accepted), c, accepted)
  {
    hide IsTimeline, TimelineOf, TimelinesOf, ChangesOf, Events;
    forall g, u ensures IsTimeline(c, ChangesOf(c, accepted, g, u), g, u, Events(TimelinesOf(c, accepted), g, u)) {
      EventsAreTimelines(c, accepted, g, u);
      TimelineOfIsTimeline(c, ChangesOf(c, accepted, g, u), g, u);
    }
  }

  // ---------- Verdicts of a set of ops ----------

  lemma {:induction false} StandingMembers(s: set<Op>)
    requires IdsUnique(s)
    ensures forall g, u, at :: IsMemberAsOf(StandingOf(s).membership, g, u, at)
                           <==> MemberAsOf(ContextOf(s), AcceptedOf(s), g, u, at)
    ensures forall g, u :: u in CurrentMembers(StandingOf(s).membership, g)
                      <==> MemberAfter(ContextOf(s), ChangesOf(ContextOf(s), AcceptedOf(s), g, u), g, u)
  {
    var c, a := ContextOf(s), AcceptedOf(s);
    TimelinesRepresent(c, a);
    forall g, u, at ensures IsMemberAsOf(StandingOf(s).membership, g, u, at) <==> MemberAsOf(c, a, g, u, at) {
      VerdictOfTimelines(TimelinesOf(c, a), c, a, g, u, at);
    }
    forall g, u
      ensures u in CurrentMembers(StandingOf(s).membership, g) <==> MemberAfter(c, ChangesOf(c, a, g, u), g, u)
    {
      CurrentOfTimelines(TimelinesOf(c, a), c, a, g, u);
    }
  }

  /** The projection's members are the members as of any order that no op of the set exceeds. */
  lemma {:induction false} CurrentIsLatest(s: set<Op>, g: GroupId, u: UserId, at: Order)
    requires IdsUnique(s) && forall o | o in s :: OrderLe(OrderOf(o), at)
    ensures u in CurrentMembers(StandingOf(s).membership, g) <==> IsMemberAsOf(StandingOf(s).membership, g, u, at)
  {
    StandingMembers(s);
    var changes := ChangesOf(ContextOf(s), AcceptedOf(s), g, u);
    assert Upto(changes, at) == changes;
  }

  /** Timelines never decrease, and list exactly the changes whose author was a member strictly before them. */
  lemma {:induction false} TimelinesListAdmitted(s: set<Op>, o: Op)
    requires IdsUnique(s) && o in s && o.kind.SetMembership?
    ensures var c := ContextOf(s); var t := StandingOf(s).membership;
            && (o in AcceptedOf(s) <==> Admits(c, AcceptedOf(s), o))
            && forall g, u :: IsTimeline(c, ChangesOf(c, AcceptedOf(s), g, u), g, u, Events(t, g, u))
  {
    AcceptedIsSettled(ContextOf(s), MembershipOf(s));
    TimelinesRepresent(ContextOf(s), AcceptedOf(s));
  }

  // ---------- Provenance ----------

  /** An admission of `u` to `g` that counts. */
  ghost predicate Admission(s: set<Op>, o: Op, g: GroupId, u: UserId)
    requires IdsUnique(s)
  {
    && o in s && Changes(ContextOf(s), o, g, u) && o.kind.member
    && !RevokedAt(ContextOf(s).devices, o)
  }

  /** Each link was admitted by the previous one, itself a member then; the first by the founder. */
  ghost predicate AdmissionChain(s: set<Op>, g: GroupId, u: UserId, at: Order, chain: seq<Op>)
    requires IdsUnique(s)
    decreases |chain|
  {
    var c := ContextOf(s);
    if chain == [] then g in c.founders && c.founders[g] == u
    else
      var o := chain[|chain| - 1];
      && Admission(s, o, g, u) && OrderLe(OrderOf(o), at)
      && MemberAsOf(c, AcceptedOf(s) - {o}, g, ActorIn(s, o), OrderOf(o))
      && AdmissionChain(s, g, ActorIn(s, o), OrderOf(o), chain[..|chain| - 1])
      && (|chain| > 1 ==> OrderLt(OrderOf(chain[|chain| - 2]), OrderOf(o)))
  }

  lemma {:induction false} AcceptedWereAdmitted(s: set<Op>, o: Op)
    requires IdsUnique(s) && o in AcceptedOf(s)
    ensures o in s && !RevokedAt(ContextOf(s).devices, o)
    ensures MemberAsOf(ContextOf(s), AcceptedOf(s) - {o}, o.kind.group, ActorIn(s, o), OrderOf(o))
  {
    hide ContextOf;
    AcceptedIsSettled(ContextOf(s), MembershipOf(s));
  }

  ghost function ActorIn(s: set<Op>, o: Op): UserId
    requires IdsUnique(s)
  {
    Actor(ContextOf(s).devices, ContextOf(s).aliases, o)
  }

  ghost predicate IsPrefix(a: set<Op>, whole: set<Op>) {
    a <= whole && forall x, o | x in a && o in whole && OpLe(o, x) :: o in a
  }

  /** Every member is reached from the founder by a finite chain of admissions in increasing order. */
  lemma {:induction false} MembersAreAdmitted(s: set<Op>, a: set<Op>, g: GroupId, u: UserId, at: Order)
    returns (chain: seq<Op>)
    requires IdsUnique(s) && IsPrefix(a, AcceptedOf(s))
    requires MemberAsOf(ContextOf(s), a, g, u, at)
    ensures AdmissionChain(s, g, u, at, chain)
    ensures forall o | o in chain :: o in a
    decreases |a|
  {
    hide ContextOf, AcceptedOf, LastOp, OrderLe, OrderLt, Actor;
    var c := ContextOf(s);
    var upto := Upto(ChangesOf(c, a, g, u), at);
    if upto == {} {
      chain := [];
    } else {
      var o := LastOp(upto);
      AcceptedWereAdmitted(s, o);
      var earlier := Earlier(a, o);
      EarlierIsEnough(s, a, o, g, ActorIn(s, o));
      var prefix := MembersAreAdmitted(s, earlier, g, ActorIn(s, o), OrderOf(o));
      chain := prefix + [o];
      assert chain[..|chain| - 1] == prefix;
      if |chain| > 1 { assert chain[|chain| - 2] == prefix[|prefix| - 1] && prefix[|prefix| - 1] in prefix; }
    }
  }

  ghost function Earlier(a: set<Op>, o: Op): set<Op> { set x | x in a && OrderLt(OrderOf(x), OrderOf(o)) }

  lemma {:induction false} EarlierIsEnough(s: set<Op>, a: set<Op>, o: Op, g: GroupId, u: UserId)
    requires IdsUnique(s) && IsPrefix(a, AcceptedOf(s)) && o in a
    requires MemberAsOf(ContextOf(s), AcceptedOf(s) - {o}, g, u, OrderOf(o))
    ensures MemberAsOf(ContextOf(s), Earlier(a, o), g, u, OrderOf(o))
    ensures IsPrefix(Earlier(a, o), AcceptedOf(s))
    ensures |Earlier(a, o)| < |a|
  {
    hide ContextOf, AcceptedOf, MemberAsOf;
    forall x | OrderLe(OrderOf(x), OrderOf(o)) ensures x in AcceptedOf(s) - {o} <==> x in Earlier(a, o) {
      if x in AcceptedOf(s) && x != o { assert !SameId(x, o) && OpLe(x, o); }
    }
    MemberAsOfLocal(ContextOf(s), AcceptedOf(s) - {o}, Earlier(a, o), g, u, OrderOf(o));
    SetSmaller(Earlier(a, o), a, o);
  }

  /** Who is a member was let in by someone: there is a chain of admissions from the founder. */
  lemma {:induction false} MembershipProvenance(s: set<Op>, g: GroupId, u: UserId, at: Order) returns (chain: seq<Op>)
    requires IdsUnique(s) && IsMemberAsOf(StandingOf(s).membership, g, u, at)
    ensures g in ContextOf(s).founders
    ensures AdmissionChain(s, g, u, at, chain)
    ensures forall o | o in chain :: o in AcceptedOf(s)
  {
    StandingMembers(s);
    chain := MembersAreAdmitted(s, AcceptedOf(s), g, u, at);
    ChainHasFounder(s, g, u, at, chain);
  }

  lemma {:induction false} ChainHasFounder(s: set<Op>, g: GroupId, u: UserId, at: Order, chain: seq<Op>)
    requires IdsUnique(s) && AdmissionChain(s, g, u, at, chain)
    ensures g in ContextOf(s).founders
    decreases |chain|
  {
    if chain != [] {
      var o := chain[|chain| - 1];
      ChainHasFounder(s, g, ActorIn(s, o), OrderOf(o), chain[..|chain| - 1]);
    }
  }

  /** Nobody outside can admit themselves: without an admission authored by someone else, only the founder is in. */
  lemma {:induction false} NoSelfAdmission(s: set<Op>, g: GroupId, u: UserId, at: Order)
    requires IdsUnique(s)
    requires !(g in ContextOf(s).founders && ContextOf(s).founders[g] == u)
    requires forall o | Admission(s, o, g, u) :: ActorIn(s, o) == u
    ensures !IsMemberAsOf(StandingOf(s).membership, g, u, at)
  {
    if IsMemberAsOf(StandingOf(s).membership, g, u, at) {
      var chain := MembershipProvenance(s, g, u, at);
      OnlySelfAdmissions(s, g, u, at, chain);
    }
  }

  lemma {:induction false} OnlySelfAdmissions(s: set<Op>, g: GroupId, u: UserId, at: Order, chain: seq<Op>)
    requires IdsUnique(s)
    requires forall o | Admission(s, o, g, u) :: ActorIn(s, o) == u
    requires AdmissionChain(s, g, u, at, chain)
    ensures g in ContextOf(s).founders && ContextOf(s).founders[g] == u
    decreases |chain|
  {
    if chain != [] {
      var o := chain[|chain| - 1];
      OnlySelfAdmissions(s, g, u, OrderOf(o), chain[..|chain| - 1]);
    }
  }

  // ---------- Time slicing ----------

  lemma {:induction false} DevicesDependOnCertificates(s: set<Op>, t: set<Op>)
    requires forall o | IsGrant(o) || IsRevocation(o) :: o in s <==> o in t
    ensures DevicesOf(s) == DevicesOf(t)
  {
    hide GreatestCert, EarliestHlc;
    forall d ensures Grants(t, d) == Grants(s, d) && Revocations(t, d) == Revocations(s, d) {}
    assert Certified(t) == Certified(s) && RevokedDevices(t) == RevokedDevices(s);
  }

  /** Founders are unchanged as long as every founding op stays and no create is added. */
  lemma {:induction false} FoundersDependOnFoundingOps(s: set<Op>, t: set<Op>, d: Devices, aliases: map<UserId, UserId>)
    requires IdsUnique(s) && IdsUnique(t)
    requires forall o | o in t && o.kind.CreateGroup? :: o in s
    requires forall g | g in CreatedGroups(s, d) :: FoundingOp(s, d, g) in t
    ensures FoundersOf(s, d, aliases) == FoundersOf(t, d, aliases)
  {
    forall g | g in CreatedGroups(s, d) ensures g in CreatedGroups(t, d) && FoundingOp(s, d, g) == FoundingOp(t, d, g) {
      var o := FoundingOp(s, d, g);
      assert CreatesGroup(d, o, o.kind.group) && o.kind.group == g;
      assert o in GroupCreates(t, d, g);
      var p := FoundingOp(t, d, g);
      assert p in GroupCreates(s, d, g);
      assert OpLe(o, p) && OpLe(p, o) && SameId(o, p);
    }
    assert CreatedGroups(s, d) == CreatedGroups(t, d);
  }

  /** The non-membership stages never look at membership changes. */
  lemma {:induction false} ContextIgnoresMembership(s: set<Op>, more: set<Op>)
    requires IdsUnique(s + more) && forall o | o in more :: o.kind.SetMembership?
    ensures ContextOf(s + more) == ContextOf(s)
    ensures StandingOf(s + more).friendDecls == StandingOf(s).friendDecls
  {
    var t := s + more;
    DevicesDependOnCertificates(s, t);
    var d := DevicesOf(s);
    assert AliasEdges(t, d) == AliasEdges(s, d);
    var aliases := AliasMap(AliasEdges(s, d));
    FoundersDependOnFoundingOps(s, t, d, aliases);
    assert Declarations(t, d, aliases) == Declarations(s, d, aliases);
  }

  /** Membership changes ordered after `at` rewrite no verdict up to `at`. */
  lemma {:induction false} LaterChangesKeepThePast(s: set<Op>, more: set<Op>, g: GroupId, u: UserId, at: Order)
    requires IdsUnique(s + more)
    requires forall o | o in more :: o.kind.SetMembership? && OrderLt(at, OrderOf(o))
    ensures IsMemberAsOf(StandingOf(s + more).membership, g, u, at)
         <==> IsMemberAsOf(StandingOf(s).membership, g, u, at)
  {
    hide ContextOf, Accepted, IsMemberAsOf, OrderLe, OrderLt, CurrentMembers, MemberAsOf;
    ContextIgnoresMembership(s, more);
    StandingMembers(s);
    StandingMembers(s + more);
    assert AgreeUpto(MembershipOf(s), MembershipOf(s + more), at) by { NotBoth(at); }
    AcceptedAgree(ContextOf(s), MembershipOf(s), MembershipOf(s + more), at);
    MemberAsOfLocal(ContextOf(s), AcceptedOf(s), AcceptedOf(s + more), g, u, at);
  }

  lemma NotBoth(at: Order)
    ensures forall o: Order :: OrderLt(at, o) ==> !OrderLe(o, at)
  {}

  lemma {:induction false} AcceptedAgree(c: Context, m1: set<Op>, m2: set<Op>, at: Order)
    requires MembershipOps(m1) && MembershipOps(m2) && AgreeUpto(m1, m2, at)
    ensures AgreeUpto(Accepted(c, m1), Accepted(c, m2), at)
  {
    hide Settled, Accepted;
    AcceptedIsSettled(c, m1);
    AcceptedIsSettled(c, m2);
    forall x | OrderLe(OrderOf(x), at) ensures x in Accepted(c, m1) <==> x in Accepted(c, m2) {
      if x in m1 { SettledAgree(c, m1, Accepted(c, m1), m2, Accepted(c, m2), x); }
    }
  }

  // ---------- Plain logs ----------

  /** Ops that concern neither devices, nor merges, friends or memberships. */
  predicate IsPlain(o: Op) {
    !(o.kind.AuthorizeDevice? || o.kind.RevokeDevice?
      || o.kind.AddAlias? || o.kind.DeclareFriend? || o.kind.SetMembership?)
  }

  /** In a plain log everyone is their own key's identity, and only founders are members. */
  lemma {:induction false} PlainStanding(s: set<Op>)
    requires IdsUnique(s) && forall o | o in s :: IsPlain(o)
    ensures var st := StandingOf(s);
            && st.devices == Devices(map[], map[]) && st.aliases == map[] && st.friendDecls == map[]
            && forall g, u, at :: IsMemberAsOf(st.membership, g, u, at) <==> g in st.founders && st.founders[g] == u
  {
    hide GreatestCert, EarliestHlc, FoundingOp, TimelinesOf, Canonical;
    assert DevicesOf(s) == Devices(map[], map[]);
    assert AliasEdges(s, DevicesOf(s)) == {};
    assert AliasMap({}) == map[];
    assert Declarations(s, DevicesOf(s), map[]) == {};
    assert MembershipOf(s) == {};
    StandingMembers(s);
    var c := ContextOf(s);
    assert AcceptedOf(s) == {};
    forall g, u, at ensures MemberAsOf(c, {}, g, u, at) <==> g in c.founders && c.founders[g] == u {
      assert Upto(ChangesOf(c, {}, g, u), at) == {};
    }
  }
}
