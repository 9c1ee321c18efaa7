// When the order of ops matters to a reader. The read model of a log is the same for every order and
// repetition of its ops exactly when nothing that can be seen hangs on which of several ops with
// equal clocks comes first: neither a shown value, nor which of the latest creates of an entity it
// is bound to. Verdicts are, exactly when all latest creates of an entity admit the same ops.
module OrderFreedom {
  import opened Operations
  import opened Registers
  import opened Authorization
  import opened Membership
  import opened Materialization
  import opened Convergence
  import opened Integrity
  import opened Ties

  // ---------- What hangs on the binding of an expense ----------

  /** One of the latest among the creates of the expense that may bind it. */
  ghost predicate LatestCreate(st: Standing, s: set<Op>, x: Op, e: ExpenseId) {
    && x in s && Creates(x, e) && MayCreate(st, x)
    && forall z | z in s && Creates(z, e) && MayCreate(st, z) :: HlcLe(z.hlc, x.hlc)
  }

  /** The op may touch what a create or record enters. */
  predicate Admitted(st: Standing, o: Op, home: Option<GroupId>, parties: set<UserId>) {
    !RevokedAt(st.devices, o) && MayTouch(st, ActorOf(st, o), OrderOf(o), home, parties)
  }

  /** The op counts for the expense when it is bound to `x`: creates on their own, other ops if `x` admits them. */
  predicate SeenUnder(st: Standing, x: Op, o: Op, e: ExpenseId)
    requires Creates(x, e)
  {
    || (Creates(o, e) && MayCreate(st, o))
    || (ActsOn(o, e) && Admitted(st, o, x.kind.home, PartiesOf(st, x.kind.fields)))
  }

  ghost predicate VoidSeen(st: Standing, s: set<Op>, x: Op, e: ExpenseId)
    requires Creates(x, e)
  {
    exists o :: o in s && Voids(o, e) && SeenUnder(st, x, o, e)
  }

  ghost predicate PublishSeen(st: Standing, s: set<Op>, x: Op, e: ExpenseId)
    requires Creates(x, e)
  {
    exists o :: o in s && Publishes(o, e) && SeenUnder(st, x, o, e)
  }

  /** A version that some order shows: one of the latest seen, and of creates only the binding one. */
  ghost predicate MayShow(st: Standing, s: set<Op>, x: Op, v: Op, e: ExpenseId)
    requires Creates(x, e)
  {
    && v in s && Versions(v, e) && SeenUnder(st, x, v, e) && (v.kind.CreateExpense? ==> v == x)
    && forall z | z in s && Versions(z, e) && SeenUnder(st, x, z, e) :: HlcLe(z.hlc, v.hlc)
  }

  ghost predicate LatestLock(st: Standing, s: set<Op>, x: Op, l: Op, e: ExpenseId)
    requires Creates(x, e)
  {
    && l in s && Locks(l, e) && SeenUnder(st, x, l, e)
    && forall z | z in s && Locks(z, e) && SeenUnder(st, x, z, e) :: HlcLe(z.hlc, l.hlc)
  }

  /** A lock state that some order shows. */
  ghost predicate MayLock(st: Standing, s: set<Op>, x: Op, locked: bool, e: ExpenseId)
    requires Creates(x, e)
  {
    || (exists l :: LatestLock(st, s, x, l, e) && l.kind.locked == locked)
    || (!locked && forall l | l in s && Locks(l, e) :: !SeenUnder(st, x, l, e))
  }

  /** Bound to either create, the expense is hidden, or shows one record whatever the order of the rest. */
  ghost predicate ShownAlike(st: Standing, s: set<Op>, x: Op, y: Op, e: ExpenseId)
    requires Creates(x, e) && Creates(y, e)
  {
    && (VoidSeen(st, s, x, e) <==> VoidSeen(st, s, y, e))
    && (!VoidSeen(st, s, x, e) ==>
          && x.kind.home == y.kind.home
          && (PublishSeen(st, s, x, e) <==> PublishSeen(st, s, y, e))
          && (forall v, w | MayShow(st, s, x, v, e) && MayShow(st, s, y, w, e) :: v.kind.fields == w.kind.fields)
          && (forall p, q | MayLock(st, s, x, p, e) && MayLock(st, s, y, q, e) :: p == q))
  }

  ghost predicate ExpenseSettled(st: Standing, s: set<Op>, e: ExpenseId) {
    forall x, y | LatestCreate(st, s, x, e) && LatestCreate(st, s, y, e) :: ShownAlike(st, s, x, y, e)
  }

  // ---------- What hangs on the binding of a settlement ----------

  ghost predicate LatestRecord(st: Standing, s: set<Op>, x: Op, t: SettlementId) {
    && x in s && Records(x, t) && MayCreate(st, x)
    && forall z | z in s && Records(z, t) && MayCreate(st, z) :: HlcLe(z.hlc, x.hlc)
  }

  ghost predicate SettlementVoidSeen(st: Standing, s: set<Op>, x: Op, t: SettlementId)
    requires Records(x, t)
  {
    exists o :: o in s && VoidsSettlement(o, t)
             && Admitted(st, o, x.kind.home, SettlementParties(st, x.kind.from, x.kind.to))
  }

  function RecordOf(x: Op): SettlementRecord
    requires x.kind.RecordSettlement?
  {
    SettlementRecord(x.kind.home, x.kind.from, x.kind.to, x.kind.amount)
  }

  ghost predicate SettlementSettled(st: Standing, s: set<Op>, t: SettlementId) {
    forall x, y | LatestRecord(st, s, x, t) && LatestRecord(st, s, y, t) ::
      && (SettlementVoidSeen(st, s, x, t) <==> SettlementVoidSeen(st, s, y, t))
      && (!SettlementVoidSeen(st, s, x, t) ==> RecordOf(x) == RecordOf(y))
  }

  // ---------- What does not hang on any binding ----------

  /** An authority that has bound nothing: enough to judge what acts on no expense or settlement. */
  function Unbound(st: Standing): Authority { Authority(st, map[], map[], map[], map[]) }

  function Direct<V>(st: Standing, w: Op -> Option<(string, V)>): Op -> Option<(string, V)> {
    o => if Entitled(Unbound(st), o) then w(o) else None
  }

  ghost predicate GroupSettled(st: Standing, s: set<Op>, g: GroupId) {
    && UnconflictedAt(s, Direct(st, NameWrite), g) && UnconflictedAt(s, Direct(st, CurrencyWrite), g)
    && UnconflictedAt(s, Direct(st, ClosedWrite), g)
  }

  ghost predicate UserSettled(st: Standing, s: set<Op>, u: UserId) {
    UnconflictedAt(s, Direct(st, ProfileWrite), u) && UnconflictedAt(s, Direct(st, KeyWrite), u)
  }

  /** The whole condition: shown groups and users have no conflict, and every expense and settlement is settled. */
  ghost predicate NothingHangsOnOrder(a: seq<Op>)
    requires IdsUnique(Elems(a))
  {
    var s, st := Elems(a), StandingOf(Elems(a));
    && (forall g | g in FoldOf(a).groups :: GroupSettled(st, s, g))
    && (forall u | u in FoldOf(a).users :: UserSettled(st, s, u))
    && (forall e: ExpenseId :: ExpenseSettled(st, s, e))
    && (forall t: SettlementId :: SettlementSettled(st, s, t))
  }

  // ---------- Registers of a fold as registers of the log ----------

  ghost function Guarded<V>(a: Authority, w: Op -> Option<(string, V)>): Op -> Option<(string, V)> {
    o => if Entitled(a, o) then w(o) else None
  }

  lemma {:induction false} FoldRegister<V>(b: seq<Op>, w: Op -> Option<(string, V)>)
    requires IdsUnique(Elems(b))
    ensures Register(EntitledOps(b), w) == Register(b, Guarded(AuthorityOf(b), w))
  {
    hide Register, AuthorityOf, Entitled;
    RegisterOfFiltered(b, Entitler(AuthorityOf(b)), w, Guarded(AuthorityOf(b), w));
  }

  /** Ops that act on no expense or settlement are judged without the bindings. */
  lemma {:induction false} DirectVerdicts(a: Authority, o: Op)
    requires !(o.kind.EditExpense? || o.kind.PublishExpense? || o.kind.VoidExpense?
               || o.kind.SetExpenseLock? || o.kind.VoidSettlement?)
    ensures Entitled(a, o) == Entitled(Unbound(a.standing), o)
  {
    hide IsMemberAsOf, RevokedAt, FriendOpOk, PartiesOf, ActorOf;
  }

  lemma {:induction false} DirectRegister<V>(b: seq<Op>, w: Op -> Option<(string, V)>)
    requires IdsUnique(Elems(b))
    requires forall o | w(o).Some? ::
      !(o.kind.EditExpense? || o.kind.PublishExpense? || o.kind.VoidExpense?
        || o.kind.SetExpenseLock? || o.kind.VoidSettlement?)
    ensures Register(EntitledOps(b), w) == Register(b, Direct(StandingOf(Elems(b)), w))
  {
    hide Register, AuthorityOf, Entitled;
    AuthorityStands(b);
    FoldRegister(b, w);
    forall o | o in b ensures Guarded(AuthorityOf(b), w)(o) == Direct(StandingOf(Elems(b)), w)(o) {
      if w(o).Some? { DirectVerdicts(AuthorityOf(b), o); }
    }
    RegisterCongruent(b, Guarded(AuthorityOf(b), w), Direct(StandingOf(Elems(b)), w));
  }

  // ---------- What an order shows of an expense ----------

  /** The log binds the expense as `x` would. */
  ghost predicate BoundAs(b: seq<Op>, x: Op, e: ExpenseId)
    requires IdsUnique(Elems(b)) && Creates(x, e)
  {
    var a := AuthorityOf(b);
    && e in a.expenseGroup && a.expenseGroup[e] == x.kind.home
    && e in a.expenseParties && a.expenseParties[e] == PartiesOf(StandingOf(Elems(b)), x.kind.fields)
  }

  lemma {:induction false} SeenIsEntitled(b: seq<Op>, x: Op, o: Op, e: ExpenseId)
    requires IdsUnique(Elems(b)) && Creates(x, e) && BoundAs(b, x, e) && Touches(o, e)
    ensures Entitled(AuthorityOf(b), o) <==> SeenUnder(StandingOf(Elems(b)), x, o, e)
  {
    hide AuthorityOf, StandingOf, IsMemberAsOf, FriendOpOk, RevokedAt, PartiesOf, ActorOf;
    AuthorityStands(b);
  }

  /** The first of the latest creates binds the expense. */
  lemma {:induction false} Binder(b: seq<Op>, e: ExpenseId) returns (i: nat)
    requires IdsUnique(Elems(b)) && e in AuthorityOf(b).expenseGroup
    ensures var st := StandingOf(Elems(b));
            && i < |b| && Decides(b, ExpenseBinder(st), e, i) && Creates(b[i], e)
            && LatestCreate(st, Elems(b), b[i], e) && BoundAs(b, b[i], e)
  {
    hide StandingOf, Register, MayCreate, PartiesOf, HlcLe, Decides;
    var st := StandingOf(Elems(b));
    i := RegisterDecided(b, ExpenseBinder(st), e);
    DecidedIsLatest(b, st, e, i);
  }

  lemma {:induction false} DecidedIsLatest(b: seq<Op>, st: Standing, e: ExpenseId, i: nat)
    requires Decides(b, ExpenseBinder(st), e, i)
    ensures i < |b| && Creates(b[i], e) && LatestCreate(st, Elems(b), b[i], e)
  {
    hide MayCreate, PartiesOf, HlcLe;
    assert b[i] in b;
    forall z | z in Elems(b) && Creates(z, e) && MayCreate(st, z) ensures HlcLe(z.hlc, b[i].hlc) {
      var j :| 0 <= j < |b| && b[j] == z;
      assert Writes(b[j], ExpenseBinder(st), e);
    }
  }

  /** An expense shows exactly when something binds it and no void is seen under that. */
  lemma {:induction false} ShownUnlessVoided(b: seq<Op>, x: Op, e: ExpenseId)
    requires IdsUnique(Elems(b)) && Creates(x, e) && BoundAs(b, x, e)
    ensures e in FoldOf(b).expenses <==> !VoidSeen(StandingOf(Elems(b)), Elems(b), x, e)
  {
    hide FoldOf, AuthorityOf, StandingOf, Entitled, PartiesOf, SeenUnder;
    ExpenseShown(b, e);
    var create := BindingCreate(b, e);
    forall o | o in b && Voids(o, e) ensures Counts(b, o) <==> SeenUnder(StandingOf(Elems(b)), x, o, e) {
      SeenIsEntitled(b, x, o, e);
    }
    assert forall o :: o in b <==> o in Elems(b);
  }

  lemma {:induction false} NotShownUnbound(b: seq<Op>, e: ExpenseId)
    requires IdsUnique(Elems(b)) && e in FoldOf(b).expenses
    ensures e in AuthorityOf(b).expenseGroup
  {
    hide FoldOf, AuthorityOf, StandingOf, Entitled;
    ExpenseShown(b, e);
    var o :| Counts(b, o) && Creates(o, e);
    CreateBinds(b, o, e);
  }

  /** What is shown but for the version: the group bound, published if a publish is seen, and a possible lock. */
  lemma {:induction false} ShownUnder(b: seq<Op>, x: Op, e: ExpenseId)
    requires IdsUnique(Elems(b)) && Creates(x, e) && BoundAs(b, x, e) && e in FoldOf(b).expenses
    ensures FoldOf(b).expenses[e].group == x.kind.home
    ensures FoldOf(b).expenses[e].published <==> PublishSeen(StandingOf(Elems(b)), Elems(b), x, e)
    ensures MayLock(StandingOf(Elems(b)), Elems(b), x, FoldOf(b).expenses[e].locked, e)
  {
    hide FoldOf, AuthorityOf, StandingOf, Entitled, PartiesOf, SeenUnder, HlcLe;
    var version, create := ExpenseContents(b, e);
    ShownGroupIsBound(b, e);
    ExpenseLock(b, e);
    assert forall o :: o in b <==> o in Elems(b);
    forall o | o in b && (Publishes(o, e) || Locks(o, e))
      ensures Counts(b, o) <==> SeenUnder(StandingOf(Elems(b)), x, o, e)
    {
      SeenIsEntitled(b, x, o, e);
    }
  }

  lemma {:induction false} ShownGroupIsBound(b: seq<Op>, e: ExpenseId)
    requires IdsUnique(Elems(b)) && e in FoldOf(b).expenses && e in AuthorityOf(b).expenseGroup
    ensures FoldOf(b).expenses[e].group == AuthorityOf(b).expenseGroup[e]
  {
    hide AuthorityOf, StandingOf, Register, GroupsOf, UsersOf, SettlementsOf, ConfirmedFriends;
    hide DeviceRecords, EntitledOps;
    ExpenseBindingsAgree(b);
  }

  /** The version shown is one that may be. */
  lemma {:induction false} VersionUnder(b: seq<Op>, i: nat, e: ExpenseId) returns (v: Op)
    requires IdsUnique(Elems(b)) && e in FoldOf(b).expenses
    requires Decides(b, ExpenseBinder(StandingOf(Elems(b))), e, i) && Creates(b[i], e) && BoundAs(b, b[i], e)
    ensures MayShow(StandingOf(Elems(b)), Elems(b), b[i], v, e) && FoldOf(b).expenses[e].fields == v.kind.fields
  {
    hide AuthorityOf, StandingOf, Register, Entitled, BoundAs, MayCreate, PartiesOf, HlcLe, SeenUnder;
    hide GroupsOf, UsersOf, SettlementsOf, ConfirmedFriends, DeviceRecords;
    var st, w := StandingOf(Elems(b)), Guarded(AuthorityOf(b), VersionWrite);
    FoldRegister(b, VersionWrite);
    var j := RegisterDecided(b, w, e);
    v := b[j];
    FirstVersion(b, i, j, e);
  }

  lemma {:induction false} FirstVersion(b: seq<Op>, i: nat, j: nat, e: ExpenseId)
    requires IdsUnique(Elems(b)) && Decides(b, Guarded(AuthorityOf(b), VersionWrite), e, j)
    requires Decides(b, ExpenseBinder(StandingOf(Elems(b))), e, i) && Creates(b[i], e) && BoundAs(b, b[i], e)
    ensures MayShow(StandingOf(Elems(b)), Elems(b), b[i], b[j], e)
  {
    hide AuthorityOf, StandingOf, Entitled, BoundAs, PartiesOf, HlcLe, SeenUnder, MayCreate, Guarded, BindExpense;
    var st, w := StandingOf(Elems(b)), Guarded(AuthorityOf(b), VersionWrite);
    SeenWrites(b, b[i], b[i], e);
    SeenWrites(b, b[i], b[j], e);
    if b[j].kind.CreateExpense? { DecidersMeet(b, ExpenseBinder(st), w, e, i, j); }
    forall z | z in Elems(b) && Versions(z, e) && SeenUnder(st, b[i], z, e) ensures HlcLe(z.hlc, b[j].hlc) {
      var k :| 0 <= k < |b| && b[k] == z;
      SeenWrites(b, b[i], z, e);
      assert Writes(b[k], w, e);
    }
  }

  /** The versions seen are those the fold writes, and the creates among them those that may bind. */
  lemma {:induction false} SeenWrites(b: seq<Op>, x: Op, z: Op, e: ExpenseId)
    requires IdsUnique(Elems(b)) && Creates(x, e) && BoundAs(b, x, e)
    ensures var st, w := StandingOf(Elems(b)), Guarded(AuthorityOf(b), VersionWrite);
            && (Writes(z, w, e) <==> Versions(z, e) && SeenUnder(st, x, z, e))
            && (Creates(z, e) ==> (SeenUnder(st, x, z, e) <==> Writes(z, ExpenseBinder(st), e)))
  {
    hide AuthorityOf, StandingOf, Entitled, BoundAs, PartiesOf, Admitted, MayCreate;
    var w := Guarded(AuthorityOf(b), VersionWrite);
    assert w(z) == (if Entitled(AuthorityOf(b), z) then VersionWrite(z) else None);
    if Versions(z, e) { SeenIsEntitled(b, x, z, e); }
  }

  /** Logs with the same ops show an expense alike when it is settled. */
  lemma {:induction false} SettledShowsAlike(a: seq<Op>, b: seq<Op>, e: ExpenseId)
    requires Elems(a) == Elems(b) && IdsUnique(Elems(a)) && ExpenseSettled(StandingOf(Elems(a)), Elems(a), e)
    ensures e in FoldOf(a).expenses ==> e in FoldOf(b).expenses && FoldOf(b).expenses[e] == FoldOf(a).expenses[e]
  {
    hide FoldOf, AuthorityOf, StandingOf, Decides, LatestCreate, BoundAs, VoidSeen, PublishSeen, MayShow, MayLock;
    if e in FoldOf(a).expenses {
      NotShownUnbound(a, e);
      SameKeysBound(a, b, e);
      var i := Binder(a, e);
      var j := Binder(b, e);
      assert ShownAlike(StandingOf(Elems(a)), Elems(a), a[i], b[j], e);
      ShownUnlessVoided(a, a[i], e);
      ShownUnlessVoided(b, b[j], e);
      ShownUnder(a, a[i], e);
      ShownUnder(b, b[j], e);
      var v := VersionUnder(a, i, e);
      var w := VersionUnder(b, j, e);
    }
  }

  lemma {:induction false} SameKeysBound(a: seq<Op>, b: seq<Op>, e: ExpenseId)
    requires Elems(a) == Elems(b) && IdsUnique(Elems(a))
    ensures e in AuthorityOf(a).expenseGroup <==> e in AuthorityOf(b).expenseGroup
  {
    hide StandingOf, Register;
    RegisterKeysOfSet(a, b, ExpenseBinder(StandingOf(Elems(a))));
  }

  // ---------- Orders that show what may be shown ----------

  /** Putting a latest create in front, behind at most one op that binds nothing, binds the expense to it. */
  lemma {:induction false} FrontBinds(a: seq<Op>, x: Op, pre: seq<Op>, e: ExpenseId)
    requires IdsUnique(Elems(a)) && LatestCreate(StandingOf(Elems(a)), Elems(a), x, e)
    requires pre == [] || (|pre| == 1 && pre[0] in a && !pre[0].kind.CreateExpense?)
    ensures Elems(pre + ([x] + a)) == Elems(a) && BoundAs(pre + ([x] + a), x, e)
  {
    hide StandingOf, Register, MayCreate, PartiesOf, HlcLe;
    var st, w := StandingOf(Elems(a)), ExpenseBinder(StandingOf(Elems(a)));
    var b := pre + ([x] + a);
    assert Elems(b) == Elems(a);
    assert forall z :: z in a <==> z in Elems(a);
    FrontWins(a, w, x);
    if pre == [] { assert b == [x] + a; } else { assert b == [pre[0]] + ([x] + a); FrontSkips(pre[0], [x] + a, w, e); }
  }

  /** Every version that may be shown is shown in some order. */
  lemma {:induction false} VersionInFront(a: seq<Op>, x: Op, v: Op, e: ExpenseId) returns (b: seq<Op>)
    requires IdsUnique(Elems(a)) && LatestCreate(StandingOf(Elems(a)), Elems(a), x, e)
    requires MayShow(StandingOf(Elems(a)), Elems(a), x, v, e)
    ensures Elems(b) == Elems(a) && BoundAs(b, x, e)
    ensures e in FoldOf(b).expenses ==> FoldOf(b).expenses[e].fields == v.kind.fields
  {
    hide AuthorityOf, StandingOf, Register, Entitled, BoundAs, MayCreate, PartiesOf, HlcLe, SeenUnder;
    hide GroupsOf, UsersOf, SettlementsOf, ConfirmedFriends, DeviceRecords;
    var pre := if v == x then [] else [v];
    b := pre + ([x] + a);
    FrontBinds(a, x, pre, e);
    var rest := if v == x then a else [x] + a;
    assert b == [v] + rest;
    FrontShows(b, rest, x, v, e);
    FoldRegister(b, VersionWrite);
  }

  lemma {:induction false} FrontShows(b: seq<Op>, rest: seq<Op>, x: Op, v: Op, e: ExpenseId)
    requires b == [v] + rest && Elems(rest) == Elems(b) && IdsUnique(Elems(b)) && Creates(x, e) && BoundAs(b, x, e)
    requires MayShow(StandingOf(Elems(b)), Elems(b), x, v, e)
    ensures var r := Register(b, Guarded(AuthorityOf(b), VersionWrite)); e in r && r[e].value == v.kind.fields
  {
    hide AuthorityOf, StandingOf, Register, Entitled, BoundAs, PartiesOf, HlcLe, SeenUnder;
    var w := Guarded(AuthorityOf(b), VersionWrite);
    SeenIsEntitled(b, x, v, e);
    assert w(v) == Some((e, v.kind.fields));
    assert forall z :: z in rest <==> z in Elems(rest);
    forall z | z in rest && Writes(z, w, e) ensures HlcLe(z.hlc, v.hlc) {
      SeenIsEntitled(b, x, z, e);
    }
    FrontWins(rest, w, v);
  }

  /** Every lock state that may be shown is shown in some order. */
  lemma {:induction false} LockInFront(a: seq<Op>, x: Op, locked: bool, e: ExpenseId) returns (b: seq<Op>)
    requires IdsUnique(Elems(a)) && LatestCreate(StandingOf(Elems(a)), Elems(a), x, e)
    requires MayLock(StandingOf(Elems(a)), Elems(a), x, locked, e)
    ensures Elems(b) == Elems(a) && BoundAs(b, x, e)
    ensures e in FoldOf(b).expenses ==> FoldOf(b).expenses[e].locked == locked
  {
    hide AuthorityOf, StandingOf, Register, Entitled, BoundAs, MayCreate, PartiesOf, HlcLe, SeenUnder;
    hide GroupsOf, UsersOf, SettlementsOf, ConfirmedFriends, DeviceRecords;
    var st, s := StandingOf(Elems(a)), Elems(a);
    if l :| LatestLock(st, s, x, l, e) && l.kind.locked == locked {
      b := [l] + ([x] + a);
      FrontBinds(a, x, [l], e);
      FrontLocks(b, [x] + a, x, l, e);
    } else {
      b := [x] + a;
      FrontBinds(a, x, [], e);
      assert [] + b == b;
      NoLocks(b, x, e);
    }
    FoldRegister(b, LockWrite);
  }

  lemma {:induction false} FrontLocks(b: seq<Op>, rest: seq<Op>, x: Op, l: Op, e: ExpenseId)
    requires b == [l] + rest && Elems(rest) == Elems(b) && IdsUnique(Elems(b)) && Creates(x, e) && BoundAs(b, x, e)
    requires LatestLock(StandingOf(Elems(b)), Elems(b), x, l, e)
    ensures var r := Register(b, Guarded(AuthorityOf(b), LockWrite)); e in r && r[e].value == l.kind.locked
  {
    hide AuthorityOf, StandingOf, Register, Entitled, BoundAs, PartiesOf, HlcLe, SeenUnder;
    var w := Guarded(AuthorityOf(b), LockWrite);
    SeenIsEntitled(b, x, l, e);
    assert w(l) == Some((e, l.kind.locked));
    assert forall z :: z in rest <==> z in Elems(rest);
    forall z | z in rest && Writes(z, w, e) ensures HlcLe(z.hlc, l.hlc) {
      SeenIsEntitled(b, x, z, e);
    }
    FrontWins(rest, w, l);
  }

  lemma {:induction false} NoLocks(b: seq<Op>, x: Op, e: ExpenseId)
    requires IdsUnique(Elems(b)) && Creates(x, e) && BoundAs(b, x, e)
    requires forall l | l in Elems(b) && Locks(l, e) :: !SeenUnder(StandingOf(Elems(b)), x, l, e)
    ensures e !in Register(b, Guarded(AuthorityOf(b), LockWrite))
  {
    hide AuthorityOf, StandingOf, Register, Entitled, BoundAs, PartiesOf, SeenUnder;
    var w := Guarded(AuthorityOf(b), LockWrite);
    RegisterKeys(b, w, e);
    forall z | z in b ensures !Writes(z, w, e) {
      if Locks(z, e) {
        assert z in Elems(b);
        SeenIsEntitled(b, x, z, e);
        assert w(z) == None;
      } else {
        assert w(z) == LockWrite(z) || w(z) == None;
      }
    }
  }

  /** If every order folds alike, every expense is settled. */
  lemma {:induction false} AlikeIsSettled(a: seq<Op>, e: ExpenseId)
    requires IdsUnique(Elems(a)) && FoldsAlike(a)
    ensures ExpenseSettled(StandingOf(Elems(a)), Elems(a), e)
  {
    hide FoldOf, AuthorityOf, StandingOf, BoundAs, VoidSeen, PublishSeen, MayLock, MayCreate, SeenUnder, HlcLe;
    var st, s := StandingOf(Elems(a)), Elems(a);
    forall x, y | LatestCreate(st, s, x, e) && LatestCreate(st, s, y, e) ensures ShownAlike(st, s, x, y, e) {
      OrderOfOne(a, x, e);
      OrderOfOne(a, y, e);
      if !VoidSeen(st, s, x, e) {
        forall v, w | MayShow(st, s, x, v, e) && MayShow(st, s, y, w, e) ensures v.kind.fields == w.kind.fields {
          VersionIsShown(a, x, v, e);
          VersionIsShown(a, y, w, e);
        }
        forall p, q | MayLock(st, s, x, p, e) && MayLock(st, s, y, q, e) ensures p == q {
          LockIsShown(a, x, p, e);
          LockIsShown(a, y, q, e);
        }
      }
    }
  }

  /** What every order shows is what binding to any latest create shows. */
  lemma {:induction false} OrderOfOne(a: seq<Op>, x: Op, e: ExpenseId)
    requires IdsUnique(Elems(a)) && FoldsAlike(a) && LatestCreate(StandingOf(Elems(a)), Elems(a), x, e)
    ensures var st, s, p := StandingOf(Elems(a)), Elems(a), FoldOf(a);
            && (e in p.expenses <==> !VoidSeen(st, s, x, e))
            && (e in p.expenses ==>
                  p.expenses[e].group == x.kind.home && (p.expenses[e].published <==> PublishSeen(st, s, x, e)))
  {
    hide FoldOf, AuthorityOf, StandingOf, BoundAs, VoidSeen, PublishSeen, MayLock, MayCreate, HlcLe;
    var b := [x] + a;
    assert [] + b == b;
    FrontBinds(a, x, [], e);
    ShownUnlessVoided(b, x, e);
    if e in FoldOf(b).expenses { ShownUnder(b, x, e); }
    assert FoldOf(b) == FoldOf(a);
  }

  lemma {:induction false} VersionIsShown(a: seq<Op>, x: Op, v: Op, e: ExpenseId)
    requires IdsUnique(Elems(a)) && FoldsAlike(a) && LatestCreate(StandingOf(Elems(a)), Elems(a), x, e)
    requires MayShow(StandingOf(Elems(a)), Elems(a), x, v, e)
    ensures e in FoldOf(a).expenses ==> FoldOf(a).expenses[e].fields == v.kind.fields
  {
    hide FoldOf, StandingOf, BoundAs, MayShow, LatestCreate;
    var b := VersionInFront(a, x, v, e);
    assert FoldOf(b) == FoldOf(a);
  }

  lemma {:induction false} LockIsShown(a: seq<Op>, x: Op, locked: bool, e: ExpenseId)
    requires IdsUnique(Elems(a)) && FoldsAlike(a) && LatestCreate(StandingOf(Elems(a)), Elems(a), x, e)
    requires MayLock(StandingOf(Elems(a)), Elems(a), x, locked, e)
    ensures e in FoldOf(a).expenses ==> FoldOf(a).expenses[e].locked == locked
  {
    hide FoldOf, StandingOf, BoundAs, MayLock, LatestCreate;
    var b := LockInFront(a, x, locked, e);
    assert FoldOf(b) == FoldOf(a);
  }

  // ---------- Settlements ----------

  ghost predicate SettlementBoundAs(b: seq<Op>, x: Op, t: SettlementId)
    requires IdsUnique(Elems(b)) && Records(x, t)
  {
    var a := AuthorityOf(b);
    && t in a.settlementGroup && a.settlementGroup[t] == x.kind.home
    && t in a.settlementParties
    && a.settlementParties[t] == SettlementParties(StandingOf(Elems(b)), x.kind.from, x.kind.to)
  }

  lemma {:induction false} VoidIsAdmitted(b: seq<Op>, x: Op, o: Op, t: SettlementId)
    requires IdsUnique(Elems(b)) && Records(x, t) && SettlementBoundAs(b, x, t) && VoidsSettlement(o, t)
    ensures var st := StandingOf(Elems(b));
            Entitled(AuthorityOf(b), o) <==> Admitted(st, o, x.kind.home, SettlementParties(st, x.kind.from, x.kind.to))
  {
    hide AuthorityOf, StandingOf, IsMemberAsOf, FriendOpOk, RevokedAt, SettlementParties, ActorOf;
    AuthorityStands(b);
  }

  lemma {:induction false} RecordIsEntitled(b: seq<Op>, o: Op)
    requires IdsUnique(Elems(b)) && o.kind.RecordSettlement?
    ensures Entitled(AuthorityOf(b), o) <==> MayCreate(StandingOf(Elems(b)), o)
  {
    hide AuthorityOf, StandingOf, IsMemberAsOf, FriendOpOk, RevokedAt, SettlementParties, ActorOf;
    AuthorityStands(b);
  }

  /** The first of the latest records binds the settlement and is the record shown. */
  lemma {:induction false} RecordBinder(b: seq<Op>, t: SettlementId) returns (x: Op)
    requires IdsUnique(Elems(b)) && t in AuthorityOf(b).settlementGroup
    ensures LatestRecord(StandingOf(Elems(b)), Elems(b), x, t) && SettlementBoundAs(b, x, t)
    ensures var r := Register(EntitledOps(b), SettlementWrite); t in r && r[t].value == RecordOf(x)
  {
    hide StandingOf, Register, MayCreate, SettlementParties, HlcLe, Decides;
    var st := StandingOf(Elems(b));
    var i := RegisterDecided(b, SettlementBinder(st), t);
    DecidedIsLatestRecord(b, st, t, i);
    x := b[i];
    RecordShown(b, i, t);
  }

  lemma {:induction false} DecidedIsLatestRecord(b: seq<Op>, st: Standing, t: SettlementId, i: nat)
    requires Decides(b, SettlementBinder(st), t, i)
    ensures i < |b| && Records(b[i], t) && LatestRecord(st, Elems(b), b[i], t)
  {
    hide MayCreate, SettlementParties, HlcLe;
    assert b[i] in b;
    forall z | z in Elems(b) && Records(z, t) && MayCreate(st, z) ensures HlcLe(z.hlc, b[i].hlc) {
      var j :| 0 <= j < |b| && b[j] == z;
      assert Writes(b[j], SettlementBinder(st), t);
    }
  }

  lemma {:induction false} RecordShown(b: seq<Op>, i: nat, t: SettlementId)
    requires IdsUnique(Elems(b)) && Decides(b, SettlementBinder(StandingOf(Elems(b))), t, i) && Records(b[i], t)
    ensures var r := Register(EntitledOps(b), SettlementWrite); t in r && r[t].value == RecordOf(b[i])
  {
    hide AuthorityOf, StandingOf, Register, Entitled, MayCreate, SettlementParties, HlcLe;
    var w := Guarded(AuthorityOf(b), SettlementWrite);
    FoldRegister(b, SettlementWrite);
    assert b[i] in b;
    RecordIsEntitled(b, b[i]);
    assert Writes(b[i], w, t);
    RegisterKeys(b, w, t);
    var j := RegisterDecided(b, w, t);
    RecordIsEntitled(b, b[j]);
    DecidersMeet(b, SettlementBinder(StandingOf(Elems(b))), w, t, i, j);
  }

  /** A settlement shows its binding record, unless a void is admitted under that. */
  lemma {:induction false} RecordUnlessVoided(b: seq<Op>, t: SettlementId) returns (x: Op)
    requires IdsUnique(Elems(b)) && t in AuthorityOf(b).settlementGroup
    ensures LatestRecord(StandingOf(Elems(b)), Elems(b), x, t) && SettlementBoundAs(b, x, t)
    ensures t in FoldOf(b).settlements <==> !SettlementVoidSeen(StandingOf(Elems(b)), Elems(b), x, t)
    ensures t in FoldOf(b).settlements ==> FoldOf(b).settlements[t] == RecordOf(x)
  {
    hide AuthorityOf, StandingOf, Register, EntitledOps, SettlementBoundAs, MayCreate, HlcLe, SettlementVoidSeen;
    hide GroupsOf, UsersOf, ExpensesOf, ConfirmedFriends, DeviceRecords;
    x := RecordBinder(b, t);
    SettlementVoided(b, x, t);
  }

  lemma {:induction false} SettlementVoided(b: seq<Op>, x: Op, t: SettlementId)
    requires IdsUnique(Elems(b)) && Records(x, t) && SettlementBoundAs(b, x, t)
    ensures t in Facts(EntitledOps(b), VoidSettlementFact) <==> SettlementVoidSeen(StandingOf(Elems(b)), Elems(b), x, t)
  {
    hide AuthorityOf, StandingOf, Entitled, SettlementBoundAs, SettlementParties, Admitted;
    forall o | VoidsSettlement(o, t)
      ensures Entitled(AuthorityOf(b), o)
         <==> Admitted(StandingOf(Elems(b)), o, x.kind.home,
                       SettlementParties(StandingOf(Elems(b)), x.kind.from, x.kind.to))
    {
      VoidIsAdmitted(b, x, o, t);
    }
    assert forall o :: o in b <==> o in Elems(b);
    if t in Facts(EntitledOps(b), VoidSettlementFact) {
      var o :| o in EntitledOps(b) && VoidSettlementFact(o) == Some(t);
      assert VoidsSettlement(o, t);
    }
    if SettlementVoidSeen(StandingOf(Elems(b)), Elems(b), x, t) {
      var o :| o in Elems(b) && VoidsSettlement(o, t)
            && Admitted(StandingOf(Elems(b)), o, x.kind.home,
                        SettlementParties(StandingOf(Elems(b)), x.kind.from, x.kind.to));
      assert o in EntitledOps(b) && VoidSettlementFact(o) == Some(t);
    }
  }

  lemma {:induction false} SettlementUnbound(b: seq<Op>, t: SettlementId)
    requires IdsUnique(Elems(b)) && t in FoldOf(b).settlements
    ensures t in AuthorityOf(b).settlementGroup
  {
    hide FoldOf, AuthorityOf, StandingOf, Entitled;
    SettlementShown(b, t);
    var o :| Counts(b, o) && Records(o, t);
    RecordBinds(b, o, t);
  }

  lemma {:induction false} SameSettlementsBound(a: seq<Op>, b: seq<Op>, t: SettlementId)
    requires Elems(a) == Elems(b) && IdsUnique(Elems(a))
    ensures t in AuthorityOf(a).settlementGroup <==> t in AuthorityOf(b).settlementGroup
  {
    hide StandingOf, Register;
    RegisterKeysOfSet(a, b, SettlementBinder(StandingOf(Elems(a))));
  }

  lemma {:induction false} SettledSettlementsAlike(a: seq<Op>, b: seq<Op>, t: SettlementId)
    requires Elems(a) == Elems(b) && IdsUnique(Elems(a)) && SettlementSettled(StandingOf(Elems(a)), Elems(a), t)
    ensures t in FoldOf(a).settlements ==>
      t in FoldOf(b).settlements && FoldOf(b).settlements[t] == FoldOf(a).settlements[t]
  {
    hide FoldOf, AuthorityOf, StandingOf, LatestRecord, SettlementBoundAs, SettlementVoidSeen;
    if t in FoldOf(a).settlements {
      SettlementUnbound(a, t);
      SameSettlementsBound(a, b, t);
      var x := RecordUnlessVoided(a, t);
      var y := RecordUnlessVoided(b, t);
    }
  }

  /** What every order shows of a settlement is what binding to any latest record shows. */
  lemma {:induction false} OrderOfRecord(a: seq<Op>, x: Op, t: SettlementId)
    requires IdsUnique(Elems(a)) && FoldsAlike(a) && LatestRecord(StandingOf(Elems(a)), Elems(a), x, t)
    ensures t in FoldOf(a).settlements <==> !SettlementVoidSeen(StandingOf(Elems(a)), Elems(a), x, t)
    ensures t in FoldOf(a).settlements ==> FoldOf(a).settlements[t] == RecordOf(x)
  {
    hide AuthorityOf, StandingOf, Register, EntitledOps, SettlementVoidSeen, MayCreate, SettlementParties, HlcLe;
    hide GroupsOf, UsersOf, ExpensesOf, ConfirmedFriends, DeviceRecords;
    var b := [x] + a;
    RecordInFront(a, x, t);
    SettlementVoided(b, x, t);
    assert FoldOf(b) == FoldOf(a);
  }

  lemma {:induction false} RecordInFront(a: seq<Op>, x: Op, t: SettlementId)
    requires IdsUnique(Elems(a)) && LatestRecord(StandingOf(Elems(a)), Elems(a), x, t)
    ensures Elems([x] + a) == Elems(a) && SettlementBoundAs([x] + a, x, t)
    ensures var r := Register(EntitledOps([x] + a), SettlementWrite); t in r && r[t].value == RecordOf(x)
  {
    hide StandingOf, Register, MayCreate, SettlementParties, HlcLe, Entitled;
    var w := SettlementBinder(StandingOf(Elems(a)));
    var b := [x] + a;
    assert Elems(b) == Elems(a);
    assert forall z :: z in a <==> z in Elems(a);
    FrontWins(a, w, x);
    RecordFrontShows(a, x, t);
  }

  lemma {:induction false} RecordFrontShows(a: seq<Op>, x: Op, t: SettlementId)
    requires IdsUnique(Elems(a)) && LatestRecord(StandingOf(Elems(a)), Elems(a), x, t) && Elems([x] + a) == Elems(a)
    ensures var r := Register(EntitledOps([x] + a), SettlementWrite); t in r && r[t].value == RecordOf(x)
  {
    hide AuthorityOf, StandingOf, Register, MayCreate, SettlementParties, HlcLe, Entitled;
    var b := [x] + a;
    var w := Guarded(AuthorityOf(b), SettlementWrite);
    FoldRegister(b, SettlementWrite);
    assert MayCreate(StandingOf(Elems(b)), x);
    RecordIsEntitled(b, x);
    assert Entitled(AuthorityOf(b), x);
    assert w(x) == SettlementWrite(x);
    assert SettlementWrite(x) == Some((t, RecordOf(x)));
    assert forall z :: z in a <==> z in Elems(a);
    forall z | z in a && Writes(z, w, t) ensures HlcLe(z.hlc, x.hlc) {
      assert w(z) == SettlementWrite(z) || w(z) == None;
      RecordIsEntitled(b, z);
    }
    FrontWins(a, w, x);
  }

  lemma {:induction false} AlikeSettlementIsSettled(a: seq<Op>, t: SettlementId)
    requires IdsUnique(Elems(a)) && FoldsAlike(a)
    ensures SettlementSettled(StandingOf(Elems(a)), Elems(a), t)
  {
    hide FoldOf, AuthorityOf, StandingOf, SettlementVoidSeen, MayCreate, HlcLe, FoldsAlike;
    var st, s := StandingOf(Elems(a)), Elems(a);
    forall x | LatestRecord(st, s, x, t)
      ensures t in FoldOf(a).settlements <==> !SettlementVoidSeen(st, s, x, t)
      ensures t in FoldOf(a).settlements ==> FoldOf(a).settlements[t] == RecordOf(x)
    {
      OrderOfRecord(a, x, t);
    }
  }

  // ---------- Groups and users ----------

  /** If a part of the read model shows a fixed register at a key, order freedom leaves no conflict there. */
  lemma {:induction false} AlikeHasNoConflict<V>(
      a: seq<Op>, w: Op -> Option<(string, V)>, k: string, shown: Projection -> V)
    requires IdsUnique(Elems(a)) && FoldsAlike(a)
    requires forall b | Elems(b) == Elems(a) && k in Register(b, w) :: shown(FoldOf(b)) == Register(b, w)[k].value
    ensures UnconflictedAt(Elems(a), w, k)
  {
    hide FoldOf, Register, IdsUnique;
    var s := Elems(a);
    forall x, y | x in s && y in s && Writes(x, w, k) ensures !Conflict(s, w, x, y) {
      if Conflict(s, w, x, y) {
        assert Elems([x] + a) == s && Elems([y] + a) == s;
        assert forall z :: z in a <==> z in s;
        FrontWins(a, w, x);
        FrontWins(a, w, y);
        assert false;
      }
    }
  }

  /** The registers of groups and users, which no binding decides. */
  lemma {:induction false} DirectRegisters(b: seq<Op>)
    requires IdsUnique(Elems(b))
    ensures var st, kept := StandingOf(Elems(b)), EntitledOps(b);
            && Register(kept, NameWrite) == Register(b, Direct(st, NameWrite))
            && Register(kept, CurrencyWrite) == Register(b, Direct(st, CurrencyWrite))
            && Register(kept, ClosedWrite) == Register(b, Direct(st, ClosedWrite))
            && Register(kept, ProfileWrite) == Register(b, Direct(st, ProfileWrite))
            && Register(kept, KeyWrite) == Register(b, Direct(st, KeyWrite))
  {
    hide StandingOf, Register, EntitledOps;
    DirectRegister(b, NameWrite);
    DirectRegister(b, CurrencyWrite);
    DirectRegister(b, ClosedWrite);
    DirectRegister(b, ProfileWrite);
    DirectRegister(b, KeyWrite);
  }

  lemma {:induction false} GroupShows(b: seq<Op>, g: GroupId)
    requires IdsUnique(Elems(b)) && g in FoldOf(b).groups
    ensures var r, st := FoldOf(b).groups[g], StandingOf(Elems(b));
            && r.name == ValueOr(Register(b, Direct(st, NameWrite)), g, "")
            && r.currency == ValueOr(Register(b, Direct(st, CurrencyWrite)), g, "USD")
            && r.closedUntilMs == ValueOr(Register(b, Direct(st, ClosedWrite)), g, 0)
            && r.members == CurrentMembers(st.membership, g)
  {
    hide AuthorityOf, StandingOf, Register, EntitledOps, Direct, UsersOf, ExpensesOf, SettlementsOf;
    hide CurrentMembers, ConfirmedFriends, DeviceRecords;
    DirectRegisters(b);
  }

  lemma {:induction false} UserShows(b: seq<Op>, u: UserId)
    requires IdsUnique(Elems(b))
    ensures var r, st := FoldOf(b).users, StandingOf(Elems(b));
            var profiles, keys := Register(b, Direct(st, ProfileWrite)), Register(b, Direct(st, KeyWrite));
            && (u in r <==> u in profiles)
            && (u in r ==> r[u] == UserRecord(profiles[u].value, if u in keys then Some(keys[u].value) else None))
  {
    hide AuthorityOf, StandingOf, Register, EntitledOps, Direct, GroupsOf, ExpensesOf, SettlementsOf;
    hide CurrentMembers, ConfirmedFriends, DeviceRecords;
    DirectRegisters(b);
  }

  lemma {:induction false} SettledGroupsAlike(a: seq<Op>, b: seq<Op>, g: GroupId)
    requires Elems(a) == Elems(b) && IdsUnique(Elems(a)) && GroupSettled(StandingOf(Elems(a)), Elems(a), g)
    ensures g in FoldOf(a).groups ==> g in FoldOf(b).groups && FoldOf(b).groups[g] == FoldOf(a).groups[g]
  {
    hide FoldOf, StandingOf, ContextOf, Register, Direct, UnconflictedAt, CurrentMembers;
    if g in FoldOf(a).groups {
      var st := StandingOf(Elems(a));
      GroupsShownAreFounded(a, g);
      GroupsShownAreFounded(b, g);
      GroupShows(a, g);
      GroupShows(b, g);
      RegisterAtOfSet(a, b, Direct(st, NameWrite), g);
      RegisterAtOfSet(a, b, Direct(st, CurrencyWrite), g);
      RegisterAtOfSet(a, b, Direct(st, ClosedWrite), g);
    }
  }

  lemma {:induction false} SettledUsersAlike(a: seq<Op>, b: seq<Op>, u: UserId)
    requires Elems(a) == Elems(b) && IdsUnique(Elems(a)) && UserSettled(StandingOf(Elems(a)), Elems(a), u)
    ensures u in FoldOf(a).users ==> u in FoldOf(b).users && FoldOf(b).users[u] == FoldOf(a).users[u]
  {
    hide FoldOf, StandingOf, Register, Direct, UnconflictedAt;
    var st := StandingOf(Elems(a));
    UserShows(a, u);
    UserShows(b, u);
    RegisterAtOfSet(a, b, Direct(st, ProfileWrite), u);
    RegisterAtOfSet(a, b, Direct(st, KeyWrite), u);
  }

  lemma {:induction false} AlikeGroupIsSettled(a: seq<Op>, g: GroupId)
    requires IdsUnique(Elems(a)) && FoldsAlike(a) && g in FoldOf(a).groups
    ensures GroupSettled(StandingOf(Elems(a)), Elems(a), g)
  {
    hide FoldOf, StandingOf, Register, Direct, UnconflictedAt, CurrentMembers;
    var st := StandingOf(Elems(a));
    forall b | Elems(b) == Elems(a)
      ensures var r := FoldOf(b).groups[g];
              && g in FoldOf(b).groups
              && r.name == ValueOr(Register(b, Direct(st, NameWrite)), g, "")
              && r.currency == ValueOr(Register(b, Direct(st, CurrencyWrite)), g, "USD")
              && r.closedUntilMs == ValueOr(Register(b, Direct(st, ClosedWrite)), g, 0)
    {
      assert FoldOf(b) == FoldOf(a);
      GroupShows(b, g);
    }
    AlikeHasNoConflict(a, Direct(st, NameWrite), g, (p: Projection) => if g in p.groups then p.groups[g].name else "");
    AlikeHasNoConflict(a, Direct(st, CurrencyWrite), g,
                       (p: Projection) => if g in p.groups then p.groups[g].currency else "");
    AlikeHasNoConflict(a, Direct(st, ClosedWrite), g,
                       (p: Projection) => if g in p.groups then p.groups[g].closedUntilMs else 0);
  }

  lemma {:induction false} AlikeUserIsSettled(a: seq<Op>, u: UserId)
    requires IdsUnique(Elems(a)) && FoldsAlike(a) && u in FoldOf(a).users
    ensures UserSettled(StandingOf(Elems(a)), Elems(a), u)
  {
    hide FoldOf, StandingOf, Register, Direct, UnconflictedAt;
    var st := StandingOf(Elems(a));
    forall b | Elems(b) == Elems(a)
      ensures var r, keys := FoldOf(b).users[u], Register(b, Direct(st, KeyWrite));
              && u in FoldOf(b).users && u in Register(b, Direct(st, ProfileWrite))
              && r.name == Register(b, Direct(st, ProfileWrite))[u].value
              && (u in keys ==> r.agreementPub == Some(keys[u].value))
    {
      assert FoldOf(b) == FoldOf(a);
      UserShows(b, u);
    }
    AlikeHasNoConflict(a, Direct(st, ProfileWrite), u, (p: Projection) => if u in p.users then p.users[u].name else "");
    AlikeHasNoConflict(a, Direct(st, KeyWrite), u,
                       (p: Projection) =>
                         if u in p.users && p.users[u].agreementPub.Some? then p.users[u].agreementPub.value else "");
  }

  // ---------- The read model ----------

  /** What settles by itself: aliases, devices and friends depend on the set of ops alone. */
  lemma {:induction false} RestIsOrderFree(a: seq<Op>, b: seq<Op>)
    requires Elems(a) == Elems(b) && IdsUnique(Elems(a))
    ensures FoldOf(a).aliases == FoldOf(b).aliases && FoldOf(a).devices == FoldOf(b).devices
    ensures FoldOf(a).friends == FoldOf(b).friends
  {
    hide AuthorityOf, StandingOf, EntitledOps, GroupsOf, UsersOf, ExpensesOf, SettlementsOf;
    hide ConfirmedFriends, DeviceRecords;
  }

  lemma {:induction false} SettledShowsNoLess(a: seq<Op>, b: seq<Op>)
    requires Elems(a) == Elems(b) && IdsUnique(Elems(a)) && NothingHangsOnOrder(a)
    ensures forall g | g in FoldOf(a).groups :: g in FoldOf(b).groups && FoldOf(b).groups[g] == FoldOf(a).groups[g]
    ensures forall u | u in FoldOf(a).users :: u in FoldOf(b).users && FoldOf(b).users[u] == FoldOf(a).users[u]
    ensures forall e | e in FoldOf(a).expenses ::
      e in FoldOf(b).expenses && FoldOf(b).expenses[e] == FoldOf(a).expenses[e]
    ensures forall t | t in FoldOf(a).settlements ::
              t in FoldOf(b).settlements && FoldOf(b).settlements[t] == FoldOf(a).settlements[t]
  {
    hide FoldOf, StandingOf, GroupSettled, UserSettled, ExpenseSettled, SettlementSettled;
    forall g | g in FoldOf(a).groups ensures g in FoldOf(b).groups && FoldOf(b).groups[g] == FoldOf(a).groups[g] {
      SettledGroupsAlike(a, b, g);
    }
    forall u | u in FoldOf(a).users ensures u in FoldOf(b).users && FoldOf(b).users[u] == FoldOf(a).users[u] {
      SettledUsersAlike(a, b, u);
    }
    forall e | e in FoldOf(a).expenses
      ensures e in FoldOf(b).expenses && FoldOf(b).expenses[e] == FoldOf(a).expenses[e]
    {
      SettledShowsAlike(a, b, e);
    }
    forall t | t in FoldOf(a).settlements
      ensures t in FoldOf(b).settlements && FoldOf(b).settlements[t] == FoldOf(a).settlements[t]
    {
      SettledSettlementsAlike(a, b, t);
    }
  }

  /** The condition speaks of the set of ops alone: which groups and users show does not depend on order. */
  lemma {:induction false} ConditionOfSet(a: seq<Op>, b: seq<Op>)
    requires Elems(a) == Elems(b) && IdsUnique(Elems(a)) && NothingHangsOnOrder(a)
    ensures NothingHangsOnOrder(b)
  {
    hide FoldOf, StandingOf, ContextOf, GroupSettled, UserSettled, ExpenseSettled, SettlementSettled, Register, Direct;
    forall g ensures g in FoldOf(a).groups <==> g in FoldOf(b).groups {
      GroupsShownAreFounded(a, g);
      GroupsShownAreFounded(b, g);
    }
    RegisterKeysOfSet(a, b, Direct(StandingOf(Elems(a)), ProfileWrite));
    forall u ensures u in FoldOf(a).users <==> u in FoldOf(b).users {
      UserShows(a, u);
      UserShows(b, u);
    }
  }

  /** Every order and repetition reads alike exactly when nothing shown hangs on the order of equal clocks. */
  lemma {:induction false} FoldsAlikeIff(a: seq<Op>)
    requires IdsUnique(Elems(a))
    ensures FoldsAlike(a) <==> NothingHangsOnOrder(a)
  {
    hide FoldOf, StandingOf, GroupSettled, UserSettled, ExpenseSettled, SettlementSettled;
    if NothingHangsOnOrder(a) {
      forall b | Elems(b) == Elems(a) ensures FoldOf(b) == FoldOf(a) {
        hide NothingHangsOnOrder;
        ConditionOfSet(a, b);
        SettledShowsNoLess(a, b);
        SettledShowsNoLess(b, a);
        RestIsOrderFree(a, b);
        SameReadModel(FoldOf(a), FoldOf(b));
      }
    }
    if FoldsAlike(a) {
      hide FoldsAlike;
      forall g | g in FoldOf(a).groups
        ensures GroupSettled(StandingOf(Elems(a)), Elems(a), g)
      {
        AlikeGroupIsSettled(a, g);
      }
      forall u | u in FoldOf(a).users
        ensures UserSettled(StandingOf(Elems(a)), Elems(a), u)
      {
        AlikeUserIsSettled(a, u);
      }
      forall e ensures ExpenseSettled(StandingOf(Elems(a)), Elems(a), e) { AlikeIsSettled(a, e); }
      forall t ensures SettlementSettled(StandingOf(Elems(a)), Elems(a), t) { AlikeSettlementIsSettled(a, t); }
    }
  }

  /** Incremental folding agrees with batch folding in every order exactly when nothing shown hangs on the order. */
  lemma {:induction false} MaterializerAgreesIff(delivered: seq<SignedOp>)
    requires IdsUnique(Contents(delivered))
    ensures var incremental := InIdOrder(RetainAll(map[], delivered));
            && IdsUnique(Elems(incremental))
            && ((forall ops | Elems(ops) == Contents(delivered) :: FoldOf(ops) == FoldOf(incremental))
                <==> NothingHangsOnOrder(incremental))
  {
    hide InIdOrder, RetainAll, FoldOf, IdsUnique, NothingHangsOnOrder;
    MaterializerIsOrderFree(delivered, delivered);
    FoldsAlikeIff(InIdOrder(RetainAll(map[], delivered)));
  }

  lemma {:induction false} SameReadModel(p: Projection, q: Projection)
    requires p.aliases == q.aliases && p.devices == q.devices && p.friends == q.friends
    requires forall g | g in p.groups :: g in q.groups && q.groups[g] == p.groups[g]
    requires forall u | u in p.users :: u in q.users && q.users[u] == p.users[u]
    requires forall e | e in p.expenses :: e in q.expenses && q.expenses[e] == p.expenses[e]
    requires forall t | t in p.settlements :: t in q.settlements && q.settlements[t] == p.settlements[t]
    requires q.groups.Keys <= p.groups.Keys && q.users.Keys <= p.users.Keys
    requires q.expenses.Keys <= p.expenses.Keys && q.settlements.Keys <= p.settlements.Keys
    ensures p == q
  {
    assert p.groups.Keys == q.groups.Keys && p.users.Keys == q.users.Keys;
    assert p.expenses.Keys == q.expenses.Keys && p.settlements.Keys == q.settlements.Keys;
    assert p.groups == q.groups && p.users == q.users && p.expenses == q.expenses && p.settlements == q.settlements;
  }

  // ---------- Verdicts ----------

  /** Every op, of the log or not, is judged the same in every order. */
  ghost predicate JudgesAlike(a: seq<Op>)
    requires IdsUnique(Elems(a))
  {
    forall b, o | Elems(b) == Elems(a) :: Entitled(AuthorityOf(b), o) == Entitled(AuthorityOf(a), o)
  }

  /** Bound to either create, the expense admits the same ops. */
  ghost predicate CreatesAdmitAlike(st: Standing, x: Op, y: Op, e: ExpenseId)
    requires Creates(x, e) && Creates(y, e)
  {
    forall o :: Admitted(st, o, x.kind.home, PartiesOf(st, x.kind.fields))
            <==> Admitted(st, o, y.kind.home, PartiesOf(st, y.kind.fields))
  }

  ghost predicate RecordsAdmitAlike(st: Standing, x: Op, y: Op, t: SettlementId)
    requires Records(x, t) && Records(y, t)
  {
    forall o :: Admitted(st, o, x.kind.home, SettlementParties(st, x.kind.from, x.kind.to))
            <==> Admitted(st, o, y.kind.home, SettlementParties(st, y.kind.from, y.kind.to))
  }

  /** All latest creates of an expense, and all latest records of a settlement, admit the same ops. */
  ghost predicate AdmitAlike(st: Standing, s: set<Op>) {
    && (forall e, x, y | LatestCreate(st, s, x, e) && LatestCreate(st, s, y, e) :: CreatesAdmitAlike(st, x, y, e))
    && (forall t, x, y | LatestRecord(st, s, x, t) && LatestRecord(st, s, y, t) :: RecordsAdmitAlike(st, x, y, t))
  }

  /** Whether an op acting on an expense counts is whether the binding create admits it. */
  lemma {:induction false} ActingIsAdmitted(b: seq<Op>, x: Op, o: Op, e: ExpenseId)
    requires IdsUnique(Elems(b)) && Creates(x, e) && BoundAs(b, x, e) && ActsOn(o, e)
    ensures var st := StandingOf(Elems(b));
            Entitled(AuthorityOf(b), o) <==> Admitted(st, o, x.kind.home, PartiesOf(st, x.kind.fields))
  {
    hide AuthorityOf, StandingOf, Entitled, BoundAs, PartiesOf, Admitted, MayCreate;
    SeenIsEntitled(b, x, o, e);
  }

  lemma {:induction false} UnboundIsRefused(b: seq<Op>, o: Op)
    requires IdsUnique(Elems(b))
    ensures forall e | ActsOn(o, e) && Entitled(AuthorityOf(b), o) :: e in AuthorityOf(b).expenseGroup
    ensures forall t | VoidsSettlement(o, t) && Entitled(AuthorityOf(b), o) :: t in AuthorityOf(b).settlementGroup
  {
    hide AuthorityOf, StandingOf, IsMemberAsOf, FriendOpOk, RevokedAt, ActorOf;
  }

  lemma {:induction false} ExpenseVerdictAlike(a: seq<Op>, b: seq<Op>, o: Op, e: ExpenseId)
    requires Elems(a) == Elems(b) && IdsUnique(Elems(a)) && AdmitAlike(StandingOf(Elems(a)), Elems(a)) && ActsOn(o, e)
    ensures Entitled(AuthorityOf(a), o) == Entitled(AuthorityOf(b), o)
  {
    hide AuthorityOf, StandingOf, Entitled, BoundAs, LatestCreate, LatestRecord, Decides, Admitted, RecordsAdmitAlike;
    UnboundIsRefused(a, o);
    UnboundIsRefused(b, o);
    SameKeysBound(a, b, e);
    if e in AuthorityOf(a).expenseGroup {
      var i := Binder(a, e);
      var j := Binder(b, e);
      ActingIsAdmitted(a, a[i], o, e);
      ActingIsAdmitted(b, b[j], o, e);
      assert CreatesAdmitAlike(StandingOf(Elems(a)), a[i], b[j], e);
    }
  }

  lemma {:induction false} SettlementVerdictAlike(a: seq<Op>, b: seq<Op>, o: Op, t: SettlementId)
    requires Elems(a) == Elems(b) && IdsUnique(Elems(a)) && AdmitAlike(StandingOf(Elems(a)), Elems(a))
    requires VoidsSettlement(o, t)
    ensures Entitled(AuthorityOf(a), o) == Entitled(AuthorityOf(b), o)
  {
    hide AuthorityOf, StandingOf, Entitled, SettlementBoundAs, LatestCreate, MayCreate, HlcLe, Admitted, Register;
    hide CreatesAdmitAlike, EntitledOps;
    UnboundIsRefused(a, o);
    UnboundIsRefused(b, o);
    SameSettlementsBound(a, b, t);
    if t in AuthorityOf(a).settlementGroup {
      var x := RecordBinder(a, t);
      var y := RecordBinder(b, t);
      VoidIsAdmitted(a, x, o, t);
      VoidIsAdmitted(b, y, o, t);
      assert RecordsAdmitAlike(StandingOf(Elems(a)), x, y, t);
    }
  }

  lemma {:induction false} VerdictAlike(a: seq<Op>, b: seq<Op>, o: Op)
    requires Elems(a) == Elems(b) && IdsUnique(Elems(a)) && AdmitAlike(StandingOf(Elems(a)), Elems(a))
    ensures Entitled(AuthorityOf(a), o) == Entitled(AuthorityOf(b), o)
  {
    hide AuthorityOf, StandingOf, Entitled, AdmitAlike;
    if o.kind.EditExpense? || o.kind.PublishExpense? || o.kind.VoidExpense? || o.kind.SetExpenseLock? {
      ExpenseVerdictAlike(a, b, o, o.kind.expense);
    } else if o.kind.VoidSettlement? {
      SettlementVerdictAlike(a, b, o, o.kind.settlement);
    } else {
      DirectVerdicts(AuthorityOf(a), o);
      DirectVerdicts(AuthorityOf(b), o);
      AuthorityStands(a);
      AuthorityStands(b);
    }
  }

  /** Whether an op is admitted depends on its author and order alone, so its author could as well void. */
  lemma {:induction false} AdmittedByOrder(st: Standing, o: Op, v: Op, home: Option<GroupId>, parties: set<UserId>)
    requires o.author == v.author && OrderOf(o) == OrderOf(v)
    ensures Admitted(st, o, home, parties) == Admitted(st, v, home, parties)
  {
    hide IsMemberAsOf, FriendOpOk, HlcLe;
  }

  /** The op is judged as the order that puts `x` in front judges a void. */
  lemma {:induction false} JudgedAsCreate(a: seq<Op>, x: Op, o: Op, e: ExpenseId)
    requires IdsUnique(Elems(a)) && JudgesAlike(a) && LatestCreate(StandingOf(Elems(a)), Elems(a), x, e)
    ensures var st := StandingOf(Elems(a));
            Admitted(st, o, x.kind.home, PartiesOf(st, x.kind.fields))
            <==> Entitled(AuthorityOf(a), o.(kind := VoidExpense(e)))
  {
    hide AuthorityOf, StandingOf, Entitled, BoundAs, MayCreate, HlcLe, Admitted, PartiesOf;
    var st, v, b := StandingOf(Elems(a)), o.(kind := VoidExpense(e)), [x] + a;
    assert [] + b == b;
    FrontBinds(a, x, [], e);
    ActingIsAdmitted(b, x, v, e);
    AdmittedByOrder(st, o, v, x.kind.home, PartiesOf(st, x.kind.fields));
  }

  lemma {:induction false} JudgedAsRecord(a: seq<Op>, x: Op, o: Op, t: SettlementId)
    requires IdsUnique(Elems(a)) && JudgesAlike(a) && LatestRecord(StandingOf(Elems(a)), Elems(a), x, t)
    ensures var st := StandingOf(Elems(a));
            Admitted(st, o, x.kind.home, SettlementParties(st, x.kind.from, x.kind.to))
            <==> Entitled(AuthorityOf(a), o.(kind := VoidSettlement(t)))
  {
    hide AuthorityOf, StandingOf, Entitled, SettlementBoundAs, MayCreate, HlcLe, Admitted, SettlementParties;
    hide Register, EntitledOps;
    var st, v, b := StandingOf(Elems(a)), o.(kind := VoidSettlement(t)), [x] + a;
    RecordInFront(a, x, t);
    VoidIsAdmitted(b, x, v, t);
    AdmittedByOrder(st, o, v, x.kind.home, SettlementParties(st, x.kind.from, x.kind.to));
  }

  /** Every op is judged alike in every order exactly when the latest creates or records admit the same ops. */
  lemma {:induction false} JudgesAlikeIff(a: seq<Op>)
    requires IdsUnique(Elems(a))
    ensures JudgesAlike(a) <==> AdmitAlike(StandingOf(Elems(a)), Elems(a))
  {
    hide AuthorityOf, StandingOf, Entitled, MayCreate, HlcLe, CreatesAdmitAlike, RecordsAdmitAlike;
    var st, s := StandingOf(Elems(a)), Elems(a);
    if AdmitAlike(st, s) {
      forall b, o | Elems(b) == Elems(a) ensures Entitled(AuthorityOf(b), o) == Entitled(AuthorityOf(a), o) {
        VerdictAlike(a, b, o);
      }
    }
    if JudgesAlike(a) {
      hide JudgesAlike;
      forall e, x, y | LatestCreate(st, s, x, e) && LatestCreate(st, s, y, e) ensures CreatesAdmitAlike(st, x, y, e) {
        AdmitAsJudged(a, x, y, e);
      }
      forall t, x, y | LatestRecord(st, s, x, t) && LatestRecord(st, s, y, t) ensures RecordsAdmitAlike(st, x, y, t) {
        RecordsAdmitAsJudged(a, x, y, t);
      }
    }
  }

  lemma {:induction false} AdmitAsJudged(a: seq<Op>, x: Op, y: Op, e: ExpenseId)
    requires IdsUnique(Elems(a)) && JudgesAlike(a)
    requires LatestCreate(StandingOf(Elems(a)), Elems(a), x, e) && LatestCreate(StandingOf(Elems(a)), Elems(a), y, e)
    ensures CreatesAdmitAlike(StandingOf(Elems(a)), x, y, e)
  {
    hide AuthorityOf, StandingOf, Entitled, JudgesAlike, Admitted, PartiesOf, MayCreate;
    forall o ensures var st := StandingOf(Elems(a));
                     Admitted(st, o, x.kind.home, PartiesOf(st, x.kind.fields))
                     <==> Admitted(st, o, y.kind.home, PartiesOf(st, y.kind.fields)) {
      JudgedAsCreate(a, x, o, e);
      JudgedAsCreate(a, y, o, e);
    }
  }

  lemma {:induction false} RecordsAdmitAsJudged(a: seq<Op>, x: Op, y: Op, t: SettlementId)
    requires IdsUnique(Elems(a)) && JudgesAlike(a)
    requires LatestRecord(StandingOf(Elems(a)), Elems(a), x, t) && LatestRecord(StandingOf(Elems(a)), Elems(a), y, t)
    ensures RecordsAdmitAlike(StandingOf(Elems(a)), x, y, t)
  {
    hide AuthorityOf, StandingOf, Entitled, JudgesAlike, Admitted, SettlementParties, MayCreate;
    forall o ensures var st := StandingOf(Elems(a));
                     Admitted(st, o, x.kind.home, SettlementParties(st, x.kind.from, x.kind.to))
                     <==> Admitted(st, o, y.kind.home, SettlementParties(st, y.kind.from, y.kind.to)) {
      JudgedAsRecord(a, x, o, t);
      JudgedAsRecord(a, y, o, t);
    }
  }

  // ---------- A conflict nobody can see ----------

  /** Two creates of one expense with one clock, one of which names a guest as well, and a void by their author. */
  const ALONE := ExpenseFields(map["id:aa" := 1], 1, [Split("id:aa", 1)], "")
  const HOSTED := ExpenseFields(map["id:aa" := 1], 1, [Split("user:x", 1)], "")
  const ALONE_CREATE := Op(1, Hlc(5, 0, 1), PublicKey("aa"), CreateExpense("e", None, ALONE, false))
  const HOSTED_CREATE := Op(2, Hlc(5, 0, 1), PublicKey("aa"), CreateExpense("e", None, HOSTED, false))
  const BOTH_VOID := Op(3, Hlc(6, 0, 1), PublicKey("aa"), VoidExpense("e"))
  const UNSEEN := [ALONE_CREATE, HOSTED_CREATE, BOTH_VOID]

  /** The tables of the authority pass depend on the order, yet neither a verdict nor the read model does. */
  lemma {:induction false} ConflictNobodySees()
    ensures IdsUnique(Elems(UNSEEN))
    ensures !NoConflicts(UNSEEN) && !TablesAlike(UNSEEN)
    ensures JudgesAlike(UNSEEN) && FoldsAlike(UNSEEN)
  {
    hide StandingOf, TablesAlike, JudgesAlike, FoldsAlike, NoShownConflicts, AdmitAlike;
    hide NothingHangsOnOrder, Unconflicted;
    UnseenLog();
    UnseenConflict();
    UnseenAdmitsAlike();
    UnseenIsSettled();
    TablesAlikeIff(UNSEEN);
    JudgesAlikeIff(UNSEEN);
    FoldsAlikeIff(UNSEEN);
  }

  lemma {:induction false} UnseenLog()
    ensures Elems(UNSEEN) == {ALONE_CREATE, HOSTED_CREATE, BOTH_VOID} && IdsUnique(Elems(UNSEEN))
    ensures UserIdFor(PublicKey("aa")) == "id:aa" && !IsPlaceholder("id:aa") && IsPlaceholder("user:x")
    ensures var st := StandingOf(Elems(UNSEEN));
            st.devices == Devices(map[], map[]) && st.aliases == map[] && st.friendDecls == map[]
  {
    hide StandingOf;
    assert forall o :: o in UNSEEN <==> o == ALONE_CREATE || o == HOSTED_CREATE || o == BOTH_VOID;
    PlainStanding(Elems(UNSEEN));
    IdentityIds(PublicKey("aa"), PublicKey("aa"), "user:x");
  }

  /** Both creates admit the ops of their author, and no others. */
  lemma {:induction false} UnseenParties(o: Op)
    ensures var st := StandingOf(Elems(UNSEEN));
            && PartiesOf(st, ALONE) == {"id:aa"} && PartiesOf(st, HOSTED) == {"id:aa", "user:x"}
            && (Admitted(st, o, None, {"id:aa"}) <==> UserIdFor(o.author) == "id:aa")
            && (Admitted(st, o, None, {"id:aa", "user:x"}) <==> UserIdFor(o.author) == "id:aa")
  {
    hide StandingOf;
    UnseenLog();
    IdentityIds(o.author, o.author, "user:x");
    var st := StandingOf(Elems(UNSEEN));
    assert "id:aa" in ALONE.paidBy.Keys && Split("id:aa", 1) in ALONE.splits;
    assert "id:aa" in HOSTED.paidBy.Keys && Split("user:x", 1) in HOSTED.splits;
    assert PartiesOf(st, ALONE) == {"id:aa"};
    assert PartiesOf(st, HOSTED) == {"id:aa", "user:x"};
  }

  lemma {:induction false} UnseenLatest(x: Op)
    ensures var st, s := StandingOf(Elems(UNSEEN)), Elems(UNSEEN);
            && (forall e | LatestCreate(st, s, x, e) :: e == "e" && (x == ALONE_CREATE || x == HOSTED_CREATE))
            && (forall t :: !LatestRecord(st, s, x, t))
            && MayCreate(st, ALONE_CREATE) && MayCreate(st, HOSTED_CREATE)
  {
    hide StandingOf, Admitted, PartiesOf;
    UnseenLog();
    UnseenParties(ALONE_CREATE);
    UnseenParties(HOSTED_CREATE);
    CreatorIsAdmitted(StandingOf(Elems(UNSEEN)), ALONE_CREATE);
    CreatorIsAdmitted(StandingOf(Elems(UNSEEN)), HOSTED_CREATE);
  }

  lemma {:induction false} CreatorIsAdmitted(st: Standing, x: Op)
    requires x.kind.CreateExpense?
    ensures MayCreate(st, x) <==> Admitted(st, x, x.kind.home, PartiesOf(st, x.kind.fields))
  {
    hide MayTouch, RevokedAt, PartiesOf, ActorOf;
  }

  lemma {:induction false} UnseenConflict()
    ensures IdsUnique(Elems(UNSEEN)) && !NoBindingConflicts(Elems(UNSEEN))
  {
    hide StandingOf, MayCreate, PartiesOf;
    UnseenLog();
    var s, st := Elems(UNSEEN), StandingOf(Elems(UNSEEN));
    var w := ExpenseBinder(st);
    UnseenLatest(ALONE_CREATE);
    UnseenParties(ALONE_CREATE);
    assert "user:x" !in {"id:aa"};
    assert w(ALONE_CREATE) != w(HOSTED_CREATE);
    assert Conflict(s, w, ALONE_CREATE, HOSTED_CREATE);
  }

  lemma {:induction false} UnseenAdmitsAlike()
    ensures AdmitAlike(StandingOf(Elems(UNSEEN)), Elems(UNSEEN))
  {
    hide StandingOf, Admitted, PartiesOf, LatestRecord, RecordsAdmitAlike, MayCreate, HlcLe;
    UnseenLog();
    var s, st := Elems(UNSEEN), StandingOf(Elems(UNSEEN));
    forall e, x, y | LatestCreate(st, s, x, e) && LatestCreate(st, s, y, e) ensures CreatesAdmitAlike(st, x, y, e) {
      UnseenLatest(x);
      UnseenLatest(y);
      forall o ensures Admitted(st, o, x.kind.home, PartiesOf(st, x.kind.fields))
                       <==> Admitted(st, o, y.kind.home, PartiesOf(st, y.kind.fields)) { UnseenParties(o); }
    }
    forall t, x ensures !LatestRecord(st, s, x, t) { UnseenLatest(x); }
  }

  lemma {:induction false} UnseenIsSettled()
    ensures IdsUnique(Elems(UNSEEN)) && NothingHangsOnOrder(UNSEEN)
  {
    hide StandingOf, Admitted, PartiesOf, LatestRecord, MayCreate, HlcLe, FoldOf, ContextOf, Register, Direct;
    hide PublishSeen, MayShow, MayLock, SettlementVoidSeen;
    UnseenLog();
    var s, st := Elems(UNSEEN), StandingOf(Elems(UNSEEN));
    UnseenShowsNoGroups();
    forall e, x, y | LatestCreate(st, s, x, e) && LatestCreate(st, s, y, e) ensures ShownAlike(st, s, x, y, e) {
      UnseenLatest(x);
      UnseenLatest(y);
      UnseenParties(BOTH_VOID);
      assert BOTH_VOID in s && Voids(BOTH_VOID, e);
      assert SeenUnder(st, x, BOTH_VOID, e) && SeenUnder(st, y, BOTH_VOID, e);
    }
    forall t, x ensures !LatestRecord(st, s, x, t) { UnseenLatest(x); }
  }

  lemma {:induction false} NoCreatesNoFounders(s: set<Op>, g: GroupId)
    requires IdsUnique(s) && forall o | o in s :: !o.kind.CreateGroup?
    ensures g !in ContextOf(s).founders
  {
    hide DevicesOf, AliasEdges, FoundingOp;
  }

  lemma {:induction false} UnseenShowsNoGroups()
    ensures IdsUnique(Elems(UNSEEN)) && FoldOf(UNSEEN).groups == map[] && FoldOf(UNSEEN).users == map[]
  {
    hide StandingOf, FoldOf, ContextOf, Register, Entitled;
    UnseenLog();
    forall g ensures g !in FoldOf(UNSEEN).groups {
      GroupsShownAreFounded(UNSEEN, g);
      NoCreatesNoFounders(Elems(UNSEEN), g);
    }
    forall u ensures u !in FoldOf(UNSEEN).users {
      var w := Direct(StandingOf(Elems(UNSEEN)), ProfileWrite);
      UserShows(UNSEEN, u);
      RegisterKeys(UNSEEN, w, u);
      forall z | z in UNSEEN ensures !Writes(z, w, u) {
        assert z in Elems(UNSEEN) && ProfileWrite(z) == None;
        assert w(z) == ProfileWrite(z) || w(z) == None;
      }
    }
  }
}
