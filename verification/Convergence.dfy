// The read model is a function of the set of ops. What the fold means, independently of how it is
// computed; that delivery order and repetition do not matter; that unauthorized ops are harmless;
// and that dependents are judged against the group that is displayed.
module Convergence {
  import opened Operations
  import opened Aliases
  import opened Registers
  import opened Authorization
  import opened Membership
  import opened Materialization

  // ---------- Registers and facts of the same set ----------

  lemma {:induction false} FactsOfSet<K>(a: seq<Op>, b: seq<Op>, f: Op -> Option<K>)
    requires Elems(a) == Elems(b)
    ensures Facts(a, f) == Facts(b, f)
  {
    assert forall o :: o in a <==> o in Elems(a);
    assert forall o :: o in b <==> o in Elems(b);
  }

  lemma {:induction false} FilterElems(a: seq<Op>, b: seq<Op>, keep: Op -> bool)
    requires Elems(a) == Elems(b)
    ensures Elems(Filter(a, keep)) == Elems(Filter(b, keep))
    ensures Elems(Filter(a, keep)) <= Elems(a)
  {
    assert forall o :: o in a <==> o in Elems(a);
    assert forall o :: o in b <==> o in Elems(b);
  }

  lemma {:induction false} FilterConcat(a: seq<Op>, b: seq<Op>, keep: Op -> bool)
    ensures Filter(a + b, keep) == Filter(a, keep) + Filter(b, keep)
  {
    if b == [] {
      assert a + b == a;
    } else {
      var n := |b| - 1;
      FilterConcat(a, b[..n], keep);
      assert a + b == (a + b[..n]) + [b[n]] && b == b[..n] + [b[n]];
      FilterSnoc(a + b[..n], b[n], keep);
      FilterSnoc(b[..n], b[n], keep);
    }
  }

  /** Two logs from which every register and set reads the same. */
  ghost predicate SameFacts(a: seq<Op>, b: seq<Op>) {
    && Register(a, NameWrite) == Register(b, NameWrite)
    && Register(a, CurrencyWrite) == Register(b, CurrencyWrite)
    && Register(a, ClosedWrite) == Register(b, ClosedWrite)
    && Register(a, ProfileWrite) == Register(b, ProfileWrite)
    && Register(a, KeyWrite) == Register(b, KeyWrite)
    && Register(a, HomeWrite) == Register(b, HomeWrite)
    && Register(a, VersionWrite) == Register(b, VersionWrite)
    && Register(a, LockWrite) == Register(b, LockWrite)
    && Register(a, SettlementWrite) == Register(b, SettlementWrite)
    && Facts(a, GroupFact) == Facts(b, GroupFact)
    && Facts(a, PublishFact) == Facts(b, PublishFact)
    && Facts(a, VoidFact) == Facts(b, VoidFact)
    && Facts(a, VoidSettlementFact) == Facts(b, VoidSettlementFact)
  }

  lemma {:induction false} SameFactsAbsorbed(a: seq<Op>, more: seq<Op>)
    requires forall o | o in more :: o in a
    ensures SameFacts(a + more, a)
  {
    assert Elems(a + more) == Elems(a);
    hide Register, Facts;
    RegisterAbsorbs(a, more, NameWrite);
    RegisterAbsorbs(a, more, CurrencyWrite);
    RegisterAbsorbs(a, more, ClosedWrite);
    RegisterAbsorbs(a, more, ProfileWrite);
    RegisterAbsorbs(a, more, KeyWrite);
    RegisterAbsorbs(a, more, HomeWrite);
    RegisterAbsorbs(a, more, VersionWrite);
    RegisterAbsorbs(a, more, LockWrite);
    RegisterAbsorbs(a, more, SettlementWrite);
    FactsOfSet(a + more, a, GroupFact);
    FactsOfSet(a + more, a, PublishFact);
    FactsOfSet(a + more, a, VoidFact);
    FactsOfSet(a + more, a, VoidSettlementFact);
  }

  lemma {:induction false} SameFactsAssemble(a: seq<Op>, b: seq<Op>, st: Standing)
    requires SameFacts(a, b)
    ensures Assembled(a, st) == Assembled(b, st)
  {
    hide Register, Facts, ConfirmedFriends, DeviceRecords, CurrentMembers, ValueOr;
  }

  // ---------- Convergence ----------

  /** No expense or settlement is bound in two ways with the same, latest clock. */
  ghost predicate NoBindingConflicts(s: set<Op>)
    requires IdsUnique(s)
  {
    Unconflicted(s, ExpenseBinder(StandingOf(s))) && Unconflicted(s, SettlementBinder(StandingOf(s)))
  }

  /** No value shown is written twice, by entitled ops with the same, latest clock. */
  ghost predicate NoShownConflicts(ops: seq<Op>)
    requires IdsUnique(Elems(ops))
  {
    var s, p := Elems(EntitledOps(ops)), FoldOf(ops);
    && (forall g | g in p.groups ::
          UnconflictedAt(s, NameWrite, g) && UnconflictedAt(s, CurrencyWrite, g) && UnconflictedAt(s, ClosedWrite, g))
    && (forall u | u in p.users :: UnconflictedAt(s, ProfileWrite, u) && UnconflictedAt(s, KeyWrite, u))
    && (forall e | e in p.expenses :: UnconflictedAt(s, VersionWrite, e) && UnconflictedAt(s, LockWrite, e))
    && (forall t | t in p.settlements :: UnconflictedAt(s, SettlementWrite, t))
  }

  /** Nothing derived is decided by the order of ops with equal clocks. */
  ghost predicate NoConflicts(ops: seq<Op>)
    requires IdsUnique(Elems(ops))
  {
    NoBindingConflicts(Elems(ops)) && NoShownConflicts(ops)
  }

  lemma {:induction false} DistinctClocksNeverConflict(ops: seq<Op>)
    requires IdsUnique(Elems(ops)) && DistinctHlcs(Elems(ops))
    ensures NoConflicts(ops)
  {
    hide StandingOf, AuthorityOf, Unconflicted, UnconflictedAt, Entitled, FoldOf;
    var s, kept := Elems(ops), Elems(EntitledOps(ops));
    assert DistinctHlcs(kept);
    DistinctIsUnconflicted(s, ExpenseBinder(StandingOf(s)));
    DistinctIsUnconflicted(s, SettlementBinder(StandingOf(s)));
    DistinctAtEveryKey(kept, NameWrite);
    DistinctAtEveryKey(kept, CurrencyWrite);
    DistinctAtEveryKey(kept, ClosedWrite);
    DistinctAtEveryKey(kept, ProfileWrite);
    DistinctAtEveryKey(kept, KeyWrite);
    DistinctAtEveryKey(kept, VersionWrite);
    DistinctAtEveryKey(kept, LockWrite);
    DistinctAtEveryKey(kept, SettlementWrite);
  }

  lemma {:induction false} DistinctAtEveryKey<V>(s: set<Op>, w: Op -> Option<(string, V)>)
    requires DistinctHlcs(s)
    ensures forall k :: UnconflictedAt(s, w, k)
  {
    hide HlcLe;
  }

  lemma {:induction false} AuthorityOfSet(a: seq<Op>, b: seq<Op>)
    requires Elems(a) == Elems(b) && IdsUnique(Elems(a)) && NoBindingConflicts(Elems(a))
    ensures AuthorityOf(a) == AuthorityOf(b)
  {
    hide StandingOf, Register, Unconflicted;
    var st := StandingOf(Elems(a));
    RegisterOfSet(a, b, ExpenseBinder(st));
    RegisterOfSet(a, b, SettlementBinder(st));
  }

  /** Any delivery order and any repetition of the same ops folds to the same read model. */
  lemma {:induction false} FoldIsOrderFree(a: seq<Op>, b: seq<Op>)
    requires Elems(a) == Elems(b) && IdsUnique(Elems(a)) && NoConflicts(a)
    ensures FoldOf(a) == FoldOf(b)
  {
    hide StandingOf, AuthorityOf, Entitled, NoBindingConflicts, GroupsOf, UsersOf, ExpensesOf, SettlementsOf;
    hide UnconflictedAt, ConfirmedFriends, DeviceRecords;
    AuthorityOfSet(a, b);
    FilterElems(a, b, Entitler(AuthorityOf(a)));
    var x, y := EntitledOps(a), EntitledOps(b);
    ExpenseBindingsAgree(a);
    ExpenseBindingsAgree(b);
    GroupsOfSet(x, y, StandingOf(Elems(a)).membership);
    UsersOfSet(x, y);
    ExpensesOfSet(x, y);
    SettlementsOfSet(x, y);
  }

  lemma {:induction false} GroupsOfSet(a: seq<Op>, b: seq<Op>, t: Timelines)
    requires Elems(a) == Elems(b)
    requires forall g | g in GroupsOf(a, t) ::
      var s := Elems(a);
      UnconflictedAt(s, NameWrite, g) && UnconflictedAt(s, CurrencyWrite, g) && UnconflictedAt(s, ClosedWrite, g)
    ensures GroupsOf(a, t) == GroupsOf(b, t)
  {
    hide Register, UnconflictedAt, CurrentMembers;
    FactsOfSet(a, b, GroupFact);
    forall g | g in GroupsOf(a, t) ensures GroupsOf(a, t)[g] == GroupsOf(b, t)[g] {
      RegisterAtOfSet(a, b, NameWrite, g);
      RegisterAtOfSet(a, b, CurrencyWrite, g);
      RegisterAtOfSet(a, b, ClosedWrite, g);
    }
  }

  lemma {:induction false} UsersOfSet(a: seq<Op>, b: seq<Op>)
    requires Elems(a) == Elems(b)
    requires forall u | u in UsersOf(a) ::
      UnconflictedAt(Elems(a), ProfileWrite, u) && UnconflictedAt(Elems(a), KeyWrite, u)
    ensures UsersOf(a) == UsersOf(b)
  {
    hide Register, UnconflictedAt;
    RegisterKeysOfSet(a, b, ProfileWrite);
    forall u | u in UsersOf(a) ensures UsersOf(a)[u] == UsersOf(b)[u] {
      RegisterAtOfSet(a, b, ProfileWrite, u);
      RegisterAtOfSet(a, b, KeyWrite, u);
    }
  }

  lemma {:induction false} ExpensesOfSet(a: seq<Op>, b: seq<Op>)
    requires Elems(a) == Elems(b) && ValuesOf(Register(a, HomeWrite)) == ValuesOf(Register(b, HomeWrite))
    requires forall e | e in ExpensesOf(a) ::
      UnconflictedAt(Elems(a), VersionWrite, e) && UnconflictedAt(Elems(a), LockWrite, e)
    ensures ExpensesOf(a) == ExpensesOf(b)
  {
    hide Register, UnconflictedAt;
    FactsOfSet(a, b, VoidFact);
    FactsOfSet(a, b, PublishFact);
    RegisterKeysOfSet(a, b, VersionWrite);
    RegisterKeysOfSet(a, b, HomeWrite);
    forall e | e in ExpensesOf(a) ensures ExpensesOf(a)[e] == ExpensesOf(b)[e] {
      RegisterAtOfSet(a, b, VersionWrite, e);
      RegisterAtOfSet(a, b, LockWrite, e);
      assert ValuesOf(Register(a, HomeWrite))[e] == ValuesOf(Register(b, HomeWrite))[e];
    }
  }

  lemma {:induction false} SettlementsOfSet(a: seq<Op>, b: seq<Op>)
    requires Elems(a) == Elems(b)
    requires forall t | t in SettlementsOf(a) :: UnconflictedAt(Elems(a), SettlementWrite, t)
    ensures SettlementsOf(a) == SettlementsOf(b)
  {
    hide Register, UnconflictedAt;
    FactsOfSet(a, b, VoidSettlementFact);
    RegisterKeysOfSet(a, b, SettlementWrite);
    forall t | t in SettlementsOf(a) ensures SettlementsOf(a)[t] == SettlementsOf(b)[t] {
      RegisterAtOfSet(a, b, SettlementWrite, t);
    }
  }

  /** Folding ops a second time changes nothing, even when distinct ops carry equal clocks. */
  lemma {:induction false} FoldIsIdempotent(ops: seq<Op>, more: seq<Op>)
    requires IdsUnique(Elems(ops)) && forall o | o in more :: o in ops
    ensures Elems(ops + more) == Elems(ops)
    ensures FoldOf(ops + more) == FoldOf(ops)
  {
    assert Elems(ops + more) == Elems(ops);
    hide StandingOf, Assembled, SameFacts, Entitled, Register, Elems;
    var st := StandingOf(Elems(ops));
    RegisterAbsorbs(ops, more, ExpenseBinder(st));
    RegisterAbsorbs(ops, more, SettlementBinder(st));
    var keep := Entitler(AuthorityOf(ops));
    FilterConcat(ops, more, keep);
    SameFactsAbsorbed(Filter(ops, keep), Filter(more, keep));
    SameFactsAssemble(EntitledOps(ops + more), EntitledOps(ops), st);
  }

  // ---------- The materializer ----------

  ghost function Contents(batch: seq<SignedOp>): set<Op> { set o | o in batch :: o.op }

  /** Keyed by id, a map of ops is determined by the contents it holds, signatures aside. */
  lemma {:induction false} InIdOrderReadsContents(m: map<OpId, SignedOp>, n: map<OpId, SignedOp>)
    requires WellKeyed(m) && WellKeyed(n) && Held(m) == Held(n)
    ensures InIdOrder(m) == InIdOrder(n)
  {
    hide SortedIds;
    forall id | id in m ensures id in n && n[id].op == m[id].op { SameEntry(m, n, id); }
    forall id | id in n ensures id in m { SameEntry(n, m, id); }
    assert m.Keys == n.Keys;
    var ids := SortedIds(m.Keys);
    assert forall i | 0 <= i < |ids| :: ids[i] in ids;
  }

  lemma {:induction false} SameEntry(m: map<OpId, SignedOp>, n: map<OpId, SignedOp>, id: OpId)
    requires WellKeyed(m) && WellKeyed(n) && Held(m) == Held(n) && id in m
    ensures id in n && n[id].op == m[id].op
  {
    assert m[id].op in Held(n);
    var k :| k in n && n[k].op == m[id].op;
    assert n[k].op.id == k && m[id].op.id == id;
  }

  lemma {:induction false} RetainHolds(m: map<OpId, SignedOp>, o: SignedOp)
    requires WellKeyed(m) && IdsUnique(Held(m) + {o.op})
    ensures WellKeyed(Retain(m, o)) && Held(Retain(m, o)) == Held(m) + {o.op}
  {
    var r := Retain(m, o);
    if o.op.id in m {
      assert m[o.op.id].op in Held(m) && SameId(m[o.op.id].op, o.op);
    } else {
      assert r[o.op.id].op in Held(r);
      forall x | x in Held(m) ensures x in Held(r) {
        var id :| id in m && m[id].op == x;
        assert r[id] == m[id];
      }
    }
  }

  lemma {:induction false} RetainAllHolds(batch: seq<SignedOp>)
    requires IdsUnique(Contents(batch))
    ensures WellKeyed(RetainAll(map[], batch)) && Held(RetainAll(map[], batch)) == Contents(batch)
  {
    if batch != [] {
      var n := |batch| - 1;
      assert batch == batch[..n] + [batch[n]];
      assert Contents(batch) == Contents(batch[..n]) + {batch[n].op};
      RetainAllHolds(batch[..n]);
      RetainHolds(RetainAll(map[], batch[..n]), batch[n]);
    }
  }

  /** The materializer's read model depends only on which contents were delivered. */
  lemma {:induction false} MaterializerIsOrderFree(a: seq<SignedOp>, b: seq<SignedOp>)
    requires Contents(a) == Contents(b) && IdsUnique(Contents(a))
    ensures InIdOrder(RetainAll(map[], a)) == InIdOrder(RetainAll(map[], b))
    ensures Elems(InIdOrder(RetainAll(map[], a))) == Contents(a)
  {
    hide InIdOrder, RetainAll, WellKeyed, IdsUnique;
    RetainAllHolds(a);
    RetainAllHolds(b);
    InIdOrderReadsContents(RetainAll(map[], a), RetainAll(map[], b));
  }

  /** Incremental and batch folding agree when there are no conflicts. */
  lemma {:induction false} MaterializerAgreesWithProject(delivered: seq<SignedOp>, ops: seq<Op>)
    requires Contents(delivered) == Elems(ops) && IdsUnique(Elems(ops)) && NoConflicts(ops)
    ensures var incremental := InIdOrder(RetainAll(map[], delivered));
            IdsUnique(Elems(incremental)) && FoldOf(incremental) == FoldOf(ops)
  {
    hide InIdOrder, RetainAll, FoldOf, IdsUnique, NoConflicts;
    MaterializerIsOrderFree(delivered, delivered);
    FoldIsOrderFree(ops, InIdOrder(RetainAll(map[], delivered)));
  }

  // ---------- Unauthorized ops are harmless ----------

  /**
   * Whether an op has any standing: accepted if it changes membership, unrevoked and about someone
   * else if it declares a friend, signed by the identity itself if it concerns a device, and
   * entitled to fold otherwise.
   */
  ghost predicate Authorized(ops: seq<Op>, o: Op)
    requires IdsUnique(Elems(ops))
  {
    var c := ContextOf(Elems(ops));
    match o.kind
    case SetMembership(_, _, _) => o in AcceptedOf(Elems(ops))
    case DeclareFriend(_) => IsDeclaration(c.devices, c.aliases, o)
    case AuthorizeDevice(_, _, _) => IsGrant(o)
    case RevokeDevice(_, _) => IsRevocation(o)
    case _ => Entitled(AuthorityOf(ops), o)
  }

  ghost predicate KeepsAuthorized(ops: seq<Op>, keep: Op -> bool)
    requires IdsUnique(Elems(ops))
  {
    forall o | o in ops && Authorized(ops, o) :: keep(o)
  }

  /** Dropping rejected membership changes changes nothing about the accepted ones. */
  lemma {:induction false} AcceptedWithoutRejected(c: Context, changes: set<Op>, kept: set<Op>)
    requires MembershipOps(changes) && Accepted(c, changes) <= kept <= changes
    ensures Accepted(c, kept) == Accepted(c, changes)
  {
    hide Accepted, Admits;
    AcceptedIsSettled(c, changes);
    AcceptedIsUnique(c, kept, Accepted(c, changes));
  }

  ghost predicate IsFounding(s: set<Op>, d: Devices, o: Op)
    requires IdsUnique(s)
  {
    o.kind.CreateGroup? && o.kind.group in CreatedGroups(s, d) && o == FoundingOp(s, d, o.kind.group)
  }

  /** What the early stages consume is authorized: certificates, edges, declarations and founding ops. */
  lemma {:induction false} ConsumedIsAuthorized(ops: seq<Op>, o: Op)
    requires IdsUnique(Elems(ops)) && o in ops
    ensures var s := Elems(ops); var c := ContextOf(s);
            && (IsGrant(o) || IsRevocation(o) ==> Authorized(ops, o))
            && (IsEdge(c.devices, o) ==> Authorized(ops, o))
            && (IsDeclaration(c.devices, c.aliases, o) ==> Authorized(ops, o))
            && (IsFounding(s, c.devices, o) ==> Authorized(ops, o))
  {
    hide Register, IsMemberAsOf, AliasMap, Accepted, Actor, AliasAuthorized, RawActor, TimelinesOf;
    hide FoundingOp, DevicesOf;
    hide AliasEdges, CreatedGroups;
  }

  lemma {:induction false} ContextWithoutUnauthorized(ops: seq<Op>, keep: Op -> bool)
    requires IdsUnique(Elems(ops)) && KeepsAuthorized(ops, keep)
    ensures var s, t := Elems(ops), Elems(Filter(ops, keep));
            && t <= s && ContextOf(t) == ContextOf(s)
            && StandingOf(t).friendDecls == StandingOf(s).friendDecls
  {
    hide Authorized, AliasMap, Accepted, TimelinesOf, FoundingOp, DevicesOf, IsEdge, IsDeclaration;
    hide IsGrant, IsRevocation;
    var s, t := Elems(ops), Elems(Filter(ops, keep));
    forall o | o in s ensures Authorized(ops, o) ==> o in t {}
    forall o | o in s { ConsumedIsAuthorized(ops, o); }
    DevicesDependOnCertificates(s, t);
    var d := DevicesOf(s);
    assert AliasEdges(s, d) == AliasEdges(t, d);
    var aliases := AliasMap(AliasEdges(s, d));
    FoundersDependOnFoundingOps(s, t, d, aliases);
    assert Declarations(s, d, aliases) == Declarations(t, d, aliases);
  }

  /** Dropping unauthorized ops changes no device, alias, founder, membership or friendship. */
  lemma {:induction false} StandingWithoutUnauthorized(ops: seq<Op>, keep: Op -> bool)
    requires IdsUnique(Elems(ops)) && KeepsAuthorized(ops, keep)
    ensures Elems(Filter(ops, keep)) <= Elems(ops)
    ensures StandingOf(Elems(Filter(ops, keep))) == StandingOf(Elems(ops))
  {
    hide ContextOf, Accepted, TimelinesOf, Entitled, AuthorityOf;
    var s, t := Elems(ops), Elems(Filter(ops, keep));
    ContextWithoutUnauthorized(ops, keep);
    forall o | o in AcceptedOf(s) ensures o in MembershipOf(t) { assert Authorized(ops, o); }
    AcceptedWithoutRejected(ContextOf(s), MembershipOf(s), MembershipOf(t));
  }

  /** Dropping unauthorized ops, of any kind, changes no verdict and nothing in the read model. */
  lemma {:induction false} UnauthorizedOpsAreHarmless(ops: seq<Op>, keep: Op -> bool)
    requires IdsUnique(Elems(ops)) && KeepsAuthorized(ops, keep)
    ensures IdsUnique(Elems(Filter(ops, keep)))
    ensures AuthorityOf(Filter(ops, keep)) == AuthorityOf(ops)
    ensures FoldOf(Filter(ops, keep)) == FoldOf(ops)
  {
    hide StandingOf, Register, Assembled, IsMemberAsOf, RevokedAt, FriendOpOk, PartiesOf;
    var kept := Filter(ops, keep);
    StandingWithoutUnauthorized(ops, keep);
    var st := StandingOf(Elems(ops));
    forall o | o in ops && !keep(o) ensures BindExpense(st, o) == None && BindSettlement(st, o) == None {
      assert !Authorized(ops, o);
    }
    RegisterOfFiltered(ops, keep, ExpenseBinder(st), ExpenseBinder(st));
    RegisterOfFiltered(ops, keep, SettlementBinder(st), SettlementBinder(st));
    assert AuthorityOf(kept) == AuthorityOf(ops);
    forall o | o in ops && Entitled(AuthorityOf(ops), o) ensures keep(o) { assert Authorized(ops, o); }
    FilterTwice(ops, keep, Entitler(AuthorityOf(ops)), Entitler(AuthorityOf(ops)));
  }

  lemma {:induction false} FilterTwice(ops: seq<Op>, keep: Op -> bool, also: Op -> bool, both: Op -> bool)
    requires forall o | o in ops :: both(o) == (keep(o) && also(o))
    ensures Filter(Filter(ops, keep), also) == Filter(ops, both)
  {
    if ops != [] {
      var n := |ops| - 1;
      FilterTwice(ops[..n], keep, also, both);
      assert ops[n] in ops;
      if keep(ops[n]) { FilterSnoc(Filter(ops[..n], keep), ops[n], also); }
    }
  }

  // ---------- Time slicing reaches verdicts ----------

  /** Ops judged by membership of the group they name. */
  predicate NamesGroup(op: Op) {
    || op.kind.SetGroupName? || op.kind.SetGroupCurrency? || op.kind.SetClosedPeriod? || op.kind.CreateGroup?
    || ((op.kind.CreateExpense? || op.kind.RecordSettlement?) && op.kind.home.Some?)
  }

  /** Membership changes made later never alter the verdict on an op that names its group. */
  lemma {:induction false} LaterChangesKeepVerdicts(ops: seq<Op>, more: seq<Op>, op: Op)
    requires IdsUnique(Elems(ops + more)) && NamesGroup(op)
    requires forall o | o in more :: o.kind.SetMembership? && OrderLt(OrderOf(op), OrderOf(o))
    ensures IdsUnique(Elems(ops))
    ensures Entitled(AuthorityOf(ops + more), op) == Entitled(AuthorityOf(ops), op)
  {
    var s, t := Elems(ops), Elems(more);
    assert Elems(ops + more) == s + t;
    assert IdsUnique(s);
    ContextIgnoresMembership(s, t);
    forall g, u
      ensures IsMemberAsOf(StandingOf(s + t).membership, g, u, OrderOf(op))
           == IsMemberAsOf(StandingOf(s).membership, g, u, OrderOf(op))
    {
      hide StandingOf, ContextOf, IsMemberAsOf;
      LaterChangesKeepThePast(s, t, g, u, OrderOf(op));
    }
    DirectVerdict(AuthorityOf(ops + more), AuthorityOf(ops), op);
  }

  lemma {:induction false} DirectVerdict(a: Authority, b: Authority, op: Op)
    requires NamesGroup(op)
    requires a.standing.devices == b.standing.devices && a.standing.aliases == b.standing.aliases
    requires a.standing.founders == b.standing.founders && a.standing.friendDecls == b.standing.friendDecls
    requires forall g, u ::
      IsMemberAsOf(a.standing.membership, g, u, OrderOf(op)) == IsMemberAsOf(b.standing.membership, g, u, OrderOf(op))
    ensures Entitled(a, op) == Entitled(b, op)
  {
    hide IsMemberAsOf, RevokedAt, Actor, FriendOpOk, PartiesOf;
  }

  // ---------- The two bindings agree ----------

  ghost function Mapped<V, W>(r: map<string, Stamped<V>>, f: V -> W): map<string, Stamped<W>> {
    map k | k in r :: Stamped(r[k].hlc, f(r[k].value))
  }

  lemma {:induction false} RegisterMapped<V, W>(
      ops: seq<Op>, w1: Op -> Option<(string, V)>, w2: Op -> Option<(string, W)>, f: V -> W)
    requires forall o | o in ops ::
      w2(o) == match w1(o) case None => None case Some((k, v)) => Some((k, f(v)))
    ensures Register(ops, w2) == Mapped(Register(ops, w1), f)
  {
    if ops != [] {
      var n := |ops| - 1;
      RegisterMapped(ops[..n], w1, w2, f);
      assert ops[n] in ops;
    }
  }

  function BindingHome(b: Binding): Option<GroupId> { b.home }

  function SettlementHome(s: SettlementRecord): Option<GroupId> { s.group }

  ghost function ValuesOf<V>(r: map<string, Stamped<V>>): map<string, V> { map k | k in r :: r[k].value }

  /** The group an expense's dependents are judged against is the group it is displayed in, ties included. */
  lemma {:induction false} ExpenseBindingsAgree(ops: seq<Op>)
    requires IdsUnique(Elems(ops))
    ensures AuthorityOf(ops).expenseGroup == ValuesOf(Register(EntitledOps(ops), HomeWrite))
  {
    hide StandingOf, Register, IsMemberAsOf, RevokedAt, FriendOpOk, PartiesOf, Actor, OrderOf;
    var a := AuthorityOf(ops);
    var st := a.standing;
    var guarded: Op -> Option<(ExpenseId, Option<GroupId>)> := o => if Entitled(a, o) then HomeWrite(o) else None;
    RegisterOfFiltered(ops, Entitler(a), HomeWrite, guarded);
    forall o ensures guarded(o)
      == match ExpenseBinder(st)(o) case None => None case Some((k, v)) => Some((k, BindingHome(v))) {}
    RegisterMapped(ops, ExpenseBinder(st), guarded, BindingHome);
  }

  /** The group a settlement's void is judged against is the group the settlement is displayed in. */
  lemma {:induction false} SettlementBindingsAgree(ops: seq<Op>)
    requires IdsUnique(Elems(ops))
    ensures var shown := Register(EntitledOps(ops), SettlementWrite);
            AuthorityOf(ops).settlementGroup == map k | k in shown :: shown[k].value.group
  {
    hide StandingOf, Register, IsMemberAsOf, RevokedAt, FriendOpOk, SettlementParties, Actor, OrderOf;
    var a := AuthorityOf(ops);
    var st := a.standing;
    var guarded: Op -> Option<(SettlementId, SettlementRecord)> :=
      o => if Entitled(a, o) then SettlementWrite(o) else None;
    var home: Op -> Option<(SettlementId, Option<GroupId>)> :=
      o => if Entitled(a, o) && o.kind.RecordSettlement? then Some((o.kind.settlement, o.kind.home)) else None;
    RegisterOfFiltered(ops, Entitler(a), SettlementWrite, guarded);
    forall o ensures home(o)
      == match SettlementBinder(st)(o) case None => None case Some((k, v)) => Some((k, BindingHome(v))) {}
    RegisterMapped(ops, SettlementBinder(st), home, BindingHome);
    forall o ensures home(o)
      == match guarded(o) case None => None case Some((k, v)) => Some((k, SettlementHome(v))) {}
    RegisterMapped(ops, guarded, home, SettlementHome);
  }

  /** Every folded version of an expense has a group entry, so assembling never skips one. */
  lemma {:induction false} VersionsHaveHomes(ops: seq<Op>, e: ExpenseId)
    requires IdsUnique(Elems(ops)) && e in Register(EntitledOps(ops), VersionWrite)
    ensures e in Register(EntitledOps(ops), HomeWrite)
  {
    hide StandingOf, Register;
    ExpenseBindingsAgree(ops);
    var kept := EntitledOps(ops);
    var o := RegisterWinner(kept, VersionWrite, e);
    if o.kind.CreateExpense? {
      assert Writes(o, HomeWrite, e);
      RegisterKeys(kept, HomeWrite, e);
    }
  }

  // ---------- What the fold means ----------

  ghost predicate Counts(ops: seq<Op>, o: Op)
    requires IdsUnique(Elems(ops))
  {
    o in ops && Entitled(AuthorityOf(ops), o)
  }

  predicate Creates(o: Op, e: ExpenseId) { o.kind.CreateExpense? && o.kind.expense == e }

  predicate Versions(o: Op, e: ExpenseId) {
    (o.kind.CreateExpense? || o.kind.EditExpense?) && o.kind.expense == e
  }

  predicate Voids(o: Op, e: ExpenseId) { o.kind.VoidExpense? && o.kind.expense == e }

  predicate Locks(o: Op, e: ExpenseId) { o.kind.SetExpenseLock? && o.kind.expense == e }

  predicate Publishes(o: Op, e: ExpenseId) {
    (o.kind.PublishExpense? || (o.kind.CreateExpense? && !o.kind.draft)) && o.kind.expense == e
  }

  /** Delete wins: an expense shows exactly when entitled ops create it and none voids it, whatever their clocks. */
  lemma {:induction false} ExpenseShown(ops: seq<Op>, e: ExpenseId)
    requires IdsUnique(Elems(ops))
    ensures e in FoldOf(ops).expenses
       <==> (exists o :: Counts(ops, o) && Creates(o, e)) && !(exists o :: Counts(ops, o) && Voids(o, e))
  {
    hide StandingOf, AuthorityOf, Register, Entitled, ConfirmedFriends, DeviceRecords, GroupsOf, UsersOf, SettlementsOf;
    var kept := EntitledOps(ops);
    RegisterKeys(kept, HomeWrite, e);
    RegisterKeys(kept, VersionWrite, e);
    if e in Register(kept, VersionWrite) { VersionsHaveHomes(ops, e); }
    if o :| Counts(ops, o) && Creates(o, e) {
      assert o in kept && Writes(o, HomeWrite, e) && Writes(o, VersionWrite, e);
    }
    if o :| Counts(ops, o) && Voids(o, e) {
      assert o in kept && VoidFact(o) == Some(e);
    }
    if e in Facts(kept, VoidFact) {
      var o :| o in kept && VoidFact(o) == Some(e);
      assert Counts(ops, o) && Voids(o, e);
    }
    if e in Register(kept, HomeWrite) {
      var o :| o in kept && Writes(o, HomeWrite, e);
      assert Counts(ops, o) && Creates(o, e);
    }
  }

  /**
   * What an expense shows: verbatim the fields of the latest entitled create or edit, the group of
   * the latest entitled create, the latest entitled lock, and published once anything published it.
   */
  lemma {:induction false} ExpenseContents(ops: seq<Op>, e: ExpenseId) returns (version: Op, create: Op)
    requires IdsUnique(Elems(ops)) && e in FoldOf(ops).expenses
    ensures Counts(ops, version) && Versions(version, e)
    ensures forall o | Counts(ops, o) && Versions(o, e) :: HlcLe(o.hlc, version.hlc)
    ensures FoldOf(ops).expenses[e].fields == version.kind.fields
    ensures Counts(ops, create) && Creates(create, e)
    ensures forall o | Counts(ops, o) && Creates(o, e) :: HlcLe(o.hlc, create.hlc)
    ensures FoldOf(ops).expenses[e].group == create.kind.home
    ensures FoldOf(ops).expenses[e].published <==> exists o :: Counts(ops, o) && Publishes(o, e)
  {
    hide StandingOf, AuthorityOf, Register, Entitled, ConfirmedFriends, DeviceRecords, GroupsOf, UsersOf;
    hide SettlementsOf, HlcLe;
    var kept := EntitledOps(ops);
    version := RegisterWinner(kept, VersionWrite, e);
    create := RegisterWinner(kept, HomeWrite, e);
    forall o | Counts(ops, o) && Versions(o, e) ensures HlcLe(o.hlc, version.hlc) { assert Writes(o, VersionWrite, e); }
    forall o | Counts(ops, o) && Creates(o, e) ensures HlcLe(o.hlc, create.hlc) { assert Writes(o, HomeWrite, e); }
    if e in Facts(kept, PublishFact) {
      var o :| o in kept && PublishFact(o) == Some(e);
      assert Counts(ops, o) && Publishes(o, e);
    }
    if o :| Counts(ops, o) && Publishes(o, e) { assert o in kept && PublishFact(o) == Some(e); }
  }

  lemma {:induction false} ExpenseLock(ops: seq<Op>, e: ExpenseId)
    requires IdsUnique(Elems(ops)) && e in FoldOf(ops).expenses
    ensures (forall o :: !(Counts(ops, o) && Locks(o, e))) ==> !FoldOf(ops).expenses[e].locked
    ensures (exists o :: Counts(ops, o) && Locks(o, e)) ==>
      exists l :: Counts(ops, l) && Locks(l, e) && FoldOf(ops).expenses[e].locked == l.kind.locked
               && forall o | Counts(ops, o) && Locks(o, e) :: HlcLe(o.hlc, l.hlc)
  {
    hide StandingOf, AuthorityOf, Register, Entitled, ConfirmedFriends, DeviceRecords, GroupsOf, UsersOf;
    hide SettlementsOf, HlcLe;
    var kept := EntitledOps(ops);
    RegisterKeys(kept, LockWrite, e);
    if o :| Counts(ops, o) && Locks(o, e) { assert o in kept && Writes(o, LockWrite, e); }
    if e in Register(kept, LockWrite) {
      var l := RegisterWinner(kept, LockWrite, e);
      assert Counts(ops, l) && Locks(l, e);
      forall o | Counts(ops, o) && Locks(o, e) ensures HlcLe(o.hlc, l.hlc) { assert Writes(o, LockWrite, e); }
    }
  }

  predicate Records(o: Op, s: SettlementId) { o.kind.RecordSettlement? && o.kind.settlement == s }

  predicate VoidsSettlement(o: Op, s: SettlementId) { o.kind.VoidSettlement? && o.kind.settlement == s }

  /** A settlement shows exactly when recorded and never voided, and shows its latest entitled record. */
  lemma {:induction false} SettlementShown(ops: seq<Op>, s: SettlementId)
    requires IdsUnique(Elems(ops))
    ensures s in FoldOf(ops).settlements
       <==> (exists o :: Counts(ops, o) && Records(o, s)) && !(exists o :: Counts(ops, o) && VoidsSettlement(o, s))
    ensures s in FoldOf(ops).settlements ==>
      exists r :: Counts(ops, r) && Records(r, s)
               && FoldOf(ops).settlements[s] == SettlementRecord(r.kind.home, r.kind.from, r.kind.to, r.kind.amount)
               && forall o | Counts(ops, o) && Records(o, s) :: HlcLe(o.hlc, r.hlc)
  {
    hide StandingOf, AuthorityOf, Register, Entitled, ConfirmedFriends, DeviceRecords, GroupsOf, UsersOf;
    hide ExpensesOf, HlcLe;
    var kept := EntitledOps(ops);
    RegisterKeys(kept, SettlementWrite, s);
    if o :| Counts(ops, o) && Records(o, s) { assert o in kept && Writes(o, SettlementWrite, s); }
    if o :| Counts(ops, o) && VoidsSettlement(o, s) { assert o in kept && VoidSettlementFact(o) == Some(s); }
    if s in Facts(kept, VoidSettlementFact) {
      var o :| o in kept && VoidSettlementFact(o) == Some(s);
      assert Counts(ops, o) && VoidsSettlement(o, s);
    }
    if s in Register(kept, SettlementWrite) {
      var r := RegisterWinner(kept, SettlementWrite, s);
      assert Counts(ops, r) && Records(r, s);
      forall o | Counts(ops, o) && Records(o, s) ensures HlcLe(o.hlc, r.hlc) { assert Writes(o, SettlementWrite, s); }
    }
  }

  // ---------- Groups and users ----------

  /** An entitled op of a kind that no other entitled op of the kind is later than. */
  ghost predicate Latest(ops: seq<Op>, isKind: Op -> bool, o: Op)
    requires IdsUnique(Elems(ops))
  {
    Counts(ops, o) && isKind(o) && forall p | Counts(ops, p) && isKind(p) :: HlcLe(p.hlc, o.hlc)
  }

  ghost predicate Never(ops: seq<Op>, isKind: Op -> bool)
    requires IdsUnique(Elems(ops))
  {
    forall o | Counts(ops, o) :: !isKind(o)
  }

  function NamesOfGroup(g: GroupId): Op -> bool {
    (o: Op) => (o.kind.CreateGroup? || o.kind.SetGroupName?) && o.kind.group == g
  }

  function CurrenciesOf(g: GroupId): Op -> bool { (o: Op) => o.kind.SetGroupCurrency? && o.kind.group == g }

  function ClosingsOf(g: GroupId): Op -> bool { (o: Op) => o.kind.SetClosedPeriod? && o.kind.group == g }

  function ProfilesOf(u: UserId): Op -> bool { (o: Op) => o.kind.UpsertProfile? && o.kind.user == u }

  function KeysOf(u: UserId): Op -> bool { (o: Op) => o.kind.SetAgreementKey? && o.kind.user == u }

  /** A register of the entitled ops holds a latest write, and is empty when there was none. */
  lemma {:induction false} RegisterOfCounted<V>(
      ops: seq<Op>, w: Op -> Option<(string, V)>, isKind: Op -> bool, k: string)
    returns (o: Option<Op>)
    requires IdsUnique(Elems(ops)) && forall p :: isKind(p) <==> Writes(p, w, k)
    ensures o == None ==> Never(ops, isKind) && k !in Register(EntitledOps(ops), w)
    ensures o.Some? ==>
      && Latest(ops, isKind, o.value) && k in Register(EntitledOps(ops), w)
      && Some((k, Register(EntitledOps(ops), w)[k].value)) == w(o.value)
  {
    hide StandingOf, AuthorityOf, Register, Entitled, HlcLe;
    var kept := EntitledOps(ops);
    RegisterKeys(kept, w, k);
    assert forall p :: p in kept <==> Counts(ops, p);
    o := None;
    if k in Register(kept, w) {
      var winner := RegisterWinner(kept, w, k);
      o := Some(winner);
    }
  }

  /** A group shows its latest entitled name, currency and closing date, with the defaults for what was never set. */
  lemma {:induction false} GroupContents(ops: seq<Op>, g: GroupId)
    returns (named: Option<Op>, priced: Option<Op>, closed: Option<Op>)
    requires IdsUnique(Elems(ops)) && g in FoldOf(ops).groups
    ensures named.Some? && Latest(ops, NamesOfGroup(g), named.value)
    ensures FoldOf(ops).groups[g].name == named.value.kind.name
    ensures match priced
            case Some(o) => Latest(ops, CurrenciesOf(g), o) && FoldOf(ops).groups[g].currency == o.kind.currency
            case None => Never(ops, CurrenciesOf(g)) && FoldOf(ops).groups[g].currency == "USD"
    ensures match closed
            case Some(o) => Latest(ops, ClosingsOf(g), o) && FoldOf(ops).groups[g].closedUntilMs == o.kind.untilMs
            case None => Never(ops, ClosingsOf(g)) && FoldOf(ops).groups[g].closedUntilMs == 0
    ensures FoldOf(ops).groups[g].members == CurrentMembers(StandingOf(Elems(ops)).membership, g)
  {
    hide StandingOf, AuthorityOf, Register, Entitled, ConfirmedFriends, DeviceRecords, ExpensesOf, UsersOf;
    hide SettlementsOf, HlcLe;
    hide CurrentMembers;
    named := RegisterOfCounted(ops, NameWrite, NamesOfGroup(g), g);
    priced := RegisterOfCounted(ops, CurrencyWrite, CurrenciesOf(g), g);
    closed := RegisterOfCounted(ops, ClosedWrite, ClosingsOf(g), g);
    var o :| o in EntitledOps(ops) && GroupFact(o) == Some(g);
    assert Counts(ops, o) && NamesOfGroup(g)(o);
  }

  /** A user shows once an entitled profile exists, with the latest one and the latest entitled key. */
  lemma {:induction false} UserContents(ops: seq<Op>, u: UserId) returns (profile: Option<Op>, key: Option<Op>)
    requires IdsUnique(Elems(ops))
    ensures match profile
            case None => Never(ops, ProfilesOf(u)) && u !in FoldOf(ops).users
            case Some(o) => Latest(ops, ProfilesOf(u), o) && u in FoldOf(ops).users
                              && FoldOf(ops).users[u].name == o.kind.name
    ensures profile.Some? ==>
      match key
      case None => Never(ops, KeysOf(u)) && FoldOf(ops).users[u].agreementPub == None
      case Some(o) => Latest(ops, KeysOf(u), o) && FoldOf(ops).users[u].agreementPub == Some(o.kind.key)
  {
    hide StandingOf, AuthorityOf, Register, Entitled, ConfirmedFriends, DeviceRecords, ExpensesOf, GroupsOf;
    hide SettlementsOf, HlcLe;
    profile := RegisterOfCounted(ops, ProfileWrite, ProfilesOf(u), u);
    key := RegisterOfCounted(ops, KeyWrite, KeysOf(u), u);
  }
}
