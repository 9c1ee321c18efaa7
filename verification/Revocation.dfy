// What a revocation does. It takes back every op of the revoked key from its clock on, except certificates
// and revocations, and otherwise only marks the device.
module Revocation {
  import opened Operations
  import opened Registers
  import opened Authorization
  import opened Membership
  import opened Materialization
  import opened Convergence

  predicate ConcernsDevice(o: Op) { o.kind.AuthorizeDevice? || o.kind.RevokeDevice? }

  /** The op concerns a device, is by another key, or precedes the revocation. */
  predicate Survives(rev: Op, o: Op)
    requires rev.kind.RevokeDevice?
  {
    ConcernsDevice(o) || o.author != rev.kind.device || !HlcLe(rev.hlc, o.hlc)
  }

  function Survivors(rev: Op): Op -> bool
    requires rev.kind.RevokeDevice?
  {
    o => Survives(rev, o)
  }

  /** Everything that survives but the revocation itself. */
  function Others(rev: Op): Op -> bool
    requires rev.kind.RevokeDevice?
  {
    o => o != rev && Survives(rev, o)
  }

  // ---------- What is revoked is not authorized ----------

  lemma {:induction false} RevokedMeaning(s: set<Op>, o: Op)
    ensures RevokedAt(DevicesOf(s), o) <==> exists h :: h in Revocations(s, o.author) && HlcLe(h, o.hlc)
  {
    hide GreatestCert, Revocations;
    RevocationExists(s, o.author);
    assert forall a: Hlc, b: Hlc, c: Hlc {:trigger HlcLe(a, b), HlcLe(b, c)} ::
      HlcLe(a, b) && HlcLe(b, c) ==> HlcLe(a, c);
    if h :| h in Revocations(s, o.author) && HlcLe(h, o.hlc) {
      assert HlcLe(EarliestHlc(Revocations(s, o.author)), h);
    }
  }

  lemma {:induction false} TakenBackIsRevoked(s: set<Op>, rev: Op, o: Op)
    requires rev in s && IsRevocation(rev) && !Survives(rev, o)
    ensures RevokedAt(DevicesOf(s), o)
  {
    hide HlcLe;
    RevokedMeaning(s, o);
    assert rev.hlc in Revocations(s, rev.kind.device);
  }

  lemma {:induction false} RevokedIsUnauthorized(ops: seq<Op>, o: Op)
    requires IdsUnique(Elems(ops)) && RevokedAt(DevicesOf(Elems(ops)), o) && !ConcernsDevice(o)
    ensures !Authorized(ops, o) && !Entitled(AuthorityOf(ops), o)
  {
    hide DevicesOf, RevokedAt, AliasEdges, FoundersOf, Accepted, Register, TimelinesOf, Declarations, MemberAsOf;
    hide IsMemberAsOf, FriendOpOk, Actor;
    var c, changes := ContextOf(Elems(ops)), MembershipOf(Elems(ops));
    AcceptedIsSettled(c, changes);
  }

  // ---------- What a revocation leaves alone ----------

  /** Devices that differ in when keys were revoked, but not on the given ops. */
  ghost predicate RevokeAlike(c: Devices, d: Devices, s: set<Op>) {
    c.authorized == d.authorized && forall o | o in s && !ConcernsDevice(o) :: RevokedAt(c, o) == RevokedAt(d, o)
  }

  lemma {:induction false} DevicesWithout(s: set<Op>, rev: Op)
    requires rev in s && IsRevocation(rev)
    ensures var c, d := DevicesOf(s), DevicesOf(s - {rev});
            && c.authorized == d.authorized && c.revoked.Keys == d.revoked.Keys + {rev.kind.device}
            && forall o | Survives(rev, o) && !ConcernsDevice(o) :: RevokedAt(c, o) == RevokedAt(d, o)
  {
    hide GreatestCert, EarliestHlc, HlcLe, RevokedAt;
    var t, k := s - {rev}, rev.kind.device;
    forall d ensures Grants(t, d) == Grants(s, d) {}
    forall d ensures Revocations(s, d) == Revocations(t, d) + (if d == k then {rev.hlc} else {}) {}
    assert Certified(t) == Certified(s);
    assert RevokedDevices(s) == RevokedDevices(t) + {k};
    hide DevicesOf, Revocations;
    forall o | Survives(rev, o) && !ConcernsDevice(o) ensures RevokedAt(DevicesOf(s), o) == RevokedAt(DevicesOf(t), o) {
      RevokedMeaning(s, o);
      RevokedMeaning(t, o);
    }
  }

  lemma {:induction false} ContextWithout(s: set<Op>, rev: Op)
    requires IdsUnique(s) && rev in s && IsRevocation(rev) && forall o | o in s :: Survives(rev, o)
    ensures ContextOf(s) == ContextOf(s - {rev}).(devices := DevicesOf(s))
    ensures Declarations(s, DevicesOf(s), ContextOf(s).aliases)
         == Declarations(s - {rev}, DevicesOf(s - {rev}), ContextOf(s).aliases)
  {
    hide DevicesOf, RevokedAt, FoundingOp, Survives;
    var t, c, d := s - {rev}, DevicesOf(s), DevicesOf(s - {rev});
    DevicesWithout(s, rev);
    assert AliasEdges(s, c) == AliasEdges(t, d);
    var aliases := ContextOf(s).aliases;
    forall g ensures GroupCreates(s, c, g) == GroupCreates(t, d, g) {}
    assert CreatedGroups(s, c) == CreatedGroups(t, d);
    forall g | g in CreatedGroups(s, c)
      ensures FoundingOp(s, c, g) == FoundingOp(t, d, g)
    {
      SameFounding(s, t, c, d, g);
    }
    FoundersAlike(s, t, c, d, aliases);
    DeclarationsAlike(s, t, rev, c, d, aliases);
  }

  lemma {:induction false} DeclarationsAlike(
      s: set<Op>, t: set<Op>, rev: Op, c: Devices, d: Devices, aliases: map<UserId, UserId>)
    requires t == s - {rev} && rev.kind.RevokeDevice? && RevokeAlike(c, d, s)
    ensures Declarations(s, c, aliases) == Declarations(t, d, aliases)
  {
    hide RevokedAt;
    forall o ensures Actor(c, aliases, o) == Actor(d, aliases, o) {}
    hide Actor;
    forall o | o in s
      ensures IsDeclaration(c, aliases, o) ==> o in t && DeclarationOf(c, aliases, o) == DeclarationOf(d, aliases, o)
      ensures IsDeclaration(c, aliases, o) == IsDeclaration(d, aliases, o)
    {}
  }

  lemma {:induction false} SameFounding(s: set<Op>, t: set<Op>, c: Devices, d: Devices, g: GroupId)
    requires IdsUnique(s) && IdsUnique(t) && g in CreatedGroups(s, c) && g in CreatedGroups(t, d)
    requires GroupCreates(s, c, g) == GroupCreates(t, d, g)
    ensures FoundingOp(s, c, g) == FoundingOp(t, d, g)
  {}

  lemma {:induction false} FoundersAlike(s: set<Op>, t: set<Op>, c: Devices, d: Devices, aliases: map<UserId, UserId>)
    requires IdsUnique(s) && IdsUnique(t) && c.authorized == d.authorized && CreatedGroups(s, c) == CreatedGroups(t, d)
    requires forall g | g in CreatedGroups(s, c) :: FoundingOp(s, c, g) == FoundingOp(t, d, g)
    ensures FoundersOf(s, c, aliases) == FoundersOf(t, d, aliases)
  {
    hide CreatedGroups, FoundingOp;
    forall o ensures Actor(c, aliases, o) == Actor(d, aliases, o) {}
    hide Actor;
  }

  lemma {:induction false} AcceptedAlike(c: Context, d: Devices, changes: set<Op>)
    requires MembershipOps(changes) && RevokeAlike(c.devices, d, changes)
    ensures Accepted(c, changes) == Accepted(c.(devices := d), changes)
    decreases |changes|
  {
    hide LastOp, RevokedAt;
    if changes != {} {
      var last := LastOp(changes);
      AcceptedAlike(c, d, changes - {last});
      AdmitsAlike(c, d, Accepted(c, changes - {last}), last);
    }
  }

  lemma {:induction false} AdmitsAlike(c: Context, d: Devices, accepted: set<Op>, op: Op)
    requires IdsUnique(accepted) && op.kind.SetMembership? && RevokeAlike(c.devices, d, {op})
    requires forall o | o in accepted :: o.kind.SetMembership?
    ensures Admits(c, accepted, op) == Admits(c.(devices := d), accepted, op)
  {
    hide RevokedAt, LastOp;
    var e := c.(devices := d);
    assert op in {op};
    forall g, u ensures ChangesOf(c, accepted - {op}, g, u) == ChangesOf(e, accepted - {op}, g, u) {}
  }

  lemma {:induction false} TimelinesAlike(c: Context, d: Devices, accepted: set<Op>)
    requires MembershipOps(accepted)
    ensures TimelinesOf(c, accepted) == TimelinesOf(c.(devices := d), accepted)
  {
    hide TimelineOf, GroupsSeen, UsersSeen, ChangesOf;
    var e := c.(devices := d);
    SeenAlike(c, d, accepted);
    forall g, u { TimelineAlike(c, d, accepted, g, u); }
    forall g | g in GroupsSeen(c, accepted) ensures TimelinesOf(c, accepted)[g] == TimelinesOf(e, accepted)[g] {}
  }

  lemma {:induction false} SeenAlike(c: Context, d: Devices, accepted: set<Op>)
    requires MembershipOps(accepted)
    ensures GroupsSeen(c, accepted) == GroupsSeen(c.(devices := d), accepted)
    ensures forall g :: UsersSeen(c, accepted, g) == UsersSeen(c.(devices := d), accepted, g)
  {}

  lemma {:induction false} TimelineAlike(c: Context, d: Devices, accepted: set<Op>, g: GroupId, u: UserId)
    requires MembershipOps(accepted)
    ensures var e := c.(devices := d);
            && ChangesOf(c, accepted, g, u) == ChangesOf(e, accepted, g, u)
            && TimelineOf(c, ChangesOf(c, accepted, g, u), g, u) == TimelineOf(e, ChangesOf(e, accepted, g, u), g, u)
  {
    hide InOrder, EventOf;
    assert ChangesOf(c, accepted, g, u) == ChangesOf(c.(devices := d), accepted, g, u);
  }

  /** Without what it takes back, a revocation changes nothing the verdicts read but the devices. */
  lemma {:induction false} StandingWithout(s: set<Op>, rev: Op)
    requires IdsUnique(s) && rev in s && IsRevocation(rev) && forall o | o in s :: Survives(rev, o)
    ensures StandingOf(s) == StandingOf(s - {rev}).(devices := DevicesOf(s))
  {
    hide DevicesOf, RevokedAt, FoundersOf, AliasEdges, Accepted, TimelinesOf, Declarations;
    var t := s - {rev};
    DevicesWithout(s, rev);
    ContextWithout(s, rev);
    assert MembershipOf(s) == MembershipOf(t);
    AcceptedAlike(ContextOf(s), DevicesOf(t), MembershipOf(s));
    TimelinesAlike(ContextOf(s), DevicesOf(t), AcceptedOf(s));
  }

  // ---------- Verdicts and read model ----------

  lemma {:induction false} ReadsAlike(st: Standing, d: Devices, o: Op)
    requires RevokeAlike(st.devices, d, {o})
    ensures var e := st.(devices := d);
            && ActorOf(st, o) == ActorOf(e, o) && RawActor(st.devices, o) == RawActor(d, o)
            && (!ConcernsDevice(o) ==> RevokedAt(st.devices, o) == RevokedAt(d, o))
            && (forall actor, parties :: FriendOpOk(st, actor, parties) == FriendOpOk(e, actor, parties))
            && (forall fields :: PartiesOf(st, fields) == PartiesOf(e, fields))
  {
    hide RevokedAt;
    assert o in {o};
  }

  lemma {:induction false} VerdictAlike(a: Authority, d: Devices, o: Op)
    requires RevokeAlike(a.standing.devices, d, {o})
    ensures Entitled(a, o) == Entitled(a.(standing := a.standing.(devices := d)), o)
  {
    ReadsAlike(a.standing, d, o);
    hide RevokedAt, IsMemberAsOf, RevokeAlike, ActorOf, FriendOpOk, PartiesOf, RawActor;
  }

  lemma {:induction false} BindersAlike(st: Standing, d: Devices, o: Op)
    requires RevokeAlike(st.devices, d, {o})
    ensures ExpenseBinder(st)(o) == ExpenseBinder(st.(devices := d))(o)
    ensures SettlementBinder(st)(o) == SettlementBinder(st.(devices := d))(o)
    ensures ConcernsDevice(o) ==> ExpenseBinder(st)(o) == None && SettlementBinder(st)(o) == None
  {
    ReadsAlike(st, d, o);
    hide RevokedAt, IsMemberAsOf, RevokeAlike, ActorOf, FriendOpOk, PartiesOf;
  }

  /** A log in which everything survives: what it derives without the revocation differs in the devices alone. */
  lemma {:induction false} AuthorityWithout(m: seq<Op>, rev: Op)
    requires IdsUnique(Elems(m)) && rev in m && IsRevocation(rev) && forall o | o in m :: Survives(rev, o)
    ensures var rest := Filter(m, Others(rev));
            && Elems(rest) == Elems(m) - {rev} && IdsUnique(Elems(rest))
            && AuthorityOf(m)
               == AuthorityOf(rest).(standing := AuthorityOf(rest).standing.(devices := DevicesOf(Elems(m))))
            && AuthorityOf(m).standing == StandingOf(Elems(m)) && AuthorityOf(rest).standing == StandingOf(Elems(rest))
  {
    hide StandingOf, Register, DevicesOf, RevokedAt, Survives;
    var rest, s := Filter(m, Others(rev)), Elems(m);
    assert Elems(rest) == s - {rev};
    StandingWithout(s, rev);
    StandsOn(s - {rev});
    DevicesWithout(s, rev);
    var st, was := StandingOf(s), StandingOf(s - {rev});
    forall o | o in m
      ensures ExpenseBinder(st)(o) == if Others(rev)(o) then ExpenseBinder(was)(o) else None
      ensures SettlementBinder(st)(o) == if Others(rev)(o) then SettlementBinder(was)(o) else None
    {
      BindersAlike(st, was.devices, o);
    }
    RegisterOfFiltered(m, Others(rev), ExpenseBinder(was), ExpenseBinder(st));
    RegisterOfFiltered(m, Others(rev), SettlementBinder(was), SettlementBinder(st));
  }

  /** The read model of such a log without the revocation differs in the revoked mark alone. */
  lemma {:induction false} FoldWithout(m: seq<Op>, rev: Op)
    requires IdsUnique(Elems(m)) && rev in m && IsRevocation(rev) && forall o | o in m :: Survives(rev, o)
    ensures var rest := Filter(m, Others(rev));
            && IdsUnique(Elems(rest)) && AuthorityOf(rest).standing.devices == DevicesOf(Elems(rest))
            && MarksRevoked(FoldOf(m), FoldOf(rest), rev.kind.device)
            && forall o | Survives(rev, o) :: Entitled(AuthorityOf(m), o) == Entitled(AuthorityOf(rest), o)
  {
    hide AuthorityOf, StandingOf, Survives, RevokedAt, DevicesOf, Entitled, Register;
    hide GroupsOf, UsersOf, ExpensesOf, SettlementsOf;
    var rest := Filter(m, Others(rev));
    AuthorityWithout(m, rev);
    DevicesWithout(Elems(m), rev);
    StandsOn(Elems(m));
    StandsOn(Elems(rest));
    var a, d := AuthorityOf(m), DevicesOf(Elems(rest));
    forall o | Survives(rev, o) ensures Entitled(a, o) == Entitled(AuthorityOf(rest), o) { VerdictAlike(a, d, o); }
    NotEntitled(AuthorityOf(rest), rev);
    FilterTwice(m, Others(rev), Entitler(AuthorityOf(rest)), Entitler(a));
    FriendsAlike(a.standing, d);
  }

  lemma {:induction false} StandsOn(s: set<Op>)
    requires IdsUnique(s)
    ensures StandingOf(s).devices == DevicesOf(s)
  {
    hide DevicesOf, AliasEdges, FoundersOf, Accepted, TimelinesOf, Declarations;
  }

  lemma {:induction false} NotEntitled(a: Authority, o: Op)
    requires ConcernsDevice(o)
    ensures !Entitled(a, o)
  {
    hide RevokedAt, ActorOf;
  }

  lemma {:induction false} FriendsAlike(st: Standing, d: Devices)
    ensures ConfirmedFriends(st) == ConfirmedFriends(st.(devices := d))
  {
    var e := st.(devices := d);
    forall a, b ensures IsFriend(st, a, b) == IsFriend(e, a, b) {}
    hide IsFriend;
    forall a | a in ConfirmedFriends(st)
      ensures a in ConfirmedFriends(e) && ConfirmedFriends(e)[a] == ConfirmedFriends(st)[a]
    {}
    forall a | a in ConfirmedFriends(e) ensures a in ConfirmedFriends(st) {}
  }

  /** `p` is `q` with the device marked as revoked. */
  ghost predicate MarksRevoked(p: Projection, q: Projection, device: PublicKey) {
    p == q.(devices := map k | k in q.devices :: q.devices[k].(revoked := q.devices[k].revoked || k == device))
  }

  /**
   * A revocation anywhere in a log reads as if neither it nor any op of the revoked key from its clock
   * on had been written, certificates and revocations apart, but for the mark on the device.
   */
  lemma {:induction false} RevocationTakesBack(ops: seq<Op>, rev: Op)
    requires IdsUnique(Elems(ops)) && rev in ops && IsRevocation(rev)
    ensures var rest := Filter(ops, Others(rev));
            && IdsUnique(Elems(rest)) && MarksRevoked(FoldOf(ops), FoldOf(rest), rev.kind.device)
            && forall o :: Entitled(AuthorityOf(ops), o) <==> Survives(rev, o) && Entitled(AuthorityOf(rest), o)
  {
    hide AuthorityOf, StandingOf, Survives, RevokedAt, DevicesOf, Entitled, FoldOf, Authorized, MarksRevoked;
    var m := Filter(ops, Survivors(rev));
    forall o | !Survives(rev, o) ensures !Entitled(AuthorityOf(ops), o) && !Authorized(ops, o) {
      TakenBackIsRevoked(Elems(ops), rev, o);
      DevicesSurvive(rev, o);
      RevokedIsUnauthorized(ops, o);
    }
    DevicesSurvive(rev, rev);
    UnauthorizedOpsAreHarmless(ops, Survivors(rev));
    FoldWithout(m, rev);
    FilterTwice(ops, Survivors(rev), Others(rev), Others(rev));
  }

  lemma {:induction false} DevicesSurvive(rev: Op, o: Op)
    requires rev.kind.RevokeDevice?
    ensures ConcernsDevice(o) ==> Survives(rev, o)
  {}
}
