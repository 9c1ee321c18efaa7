// Equal clocks. The tables of the authority pass, and with them the read model, are independent of the
// order and repetition of ops exactly when no binding and no shown value has conflicting latest
// writes; and what goes wrong otherwise, on concrete logs.
module Ties {
  import opened Operations
  import opened Registers
  import opened Authorization
  import opened Membership
  import opened Materialization
  import opened Convergence

  // ---------- Putting a latest write in front ----------

  /** Putting an op of the log in front of it keeps the set, and the entitled ops with it in front. */
  lemma {:induction false} InFront(a: seq<Op>, x: Op)
    requires IdsUnique(Elems(a)) && NoBindingConflicts(Elems(a)) && x in EntitledOps(a)
    ensures Elems([x] + a) == Elems(a) && EntitledOps([x] + a) == [x] + EntitledOps(a)
  {
    hide NoBindingConflicts, AuthorityOf, Entitled;
    assert Elems([x] + a) == Elems(a);
    AuthorityOfSet(a, [x] + a);
    var keep := Entitler(AuthorityOf(a));
    FilterConcat([x], a, keep);
    FilterOne(x, keep);
  }

  lemma {:induction false} FilterOne(x: Op, keep: Op -> bool)
    requires keep(x)
    ensures Filter([x], keep) == [x]
  {
    assert [x] == [] + [x];
    FilterSnoc([], x, keep);
  }

  /** What the log reads as, whatever the order of its ops. */
  ghost predicate FoldsAlike(a: seq<Op>)
    requires IdsUnique(Elems(a))
  {
    forall b | Elems(b) == Elems(a) :: FoldOf(b) == FoldOf(a)
  }

  /** If a part of the read model shows a register at a key, order freedom leaves no conflict there. */
  lemma {:induction false} ShownAtHasNoConflict<V>(
      a: seq<Op>, w: Op -> Option<(string, V)>, k: string, shown: Projection -> V)
    requires IdsUnique(Elems(a)) && NoBindingConflicts(Elems(a)) && FoldsAlike(a)
    requires forall b | Elems(b) == Elems(a) && k in Register(EntitledOps(b), w) ::
      shown(FoldOf(b)) == Register(EntitledOps(b), w)[k].value
    ensures UnconflictedAt(Elems(EntitledOps(a)), w, k)
  {
    hide FoldOf, EntitledOps, Register, NoBindingConflicts, IdsUnique;
    var s := Elems(EntitledOps(a));
    forall x, y | x in s && y in s && Writes(x, w, k) ensures !Conflict(s, w, x, y) {
      if Conflict(s, w, x, y) {
        assert forall z :: z in EntitledOps(a) <==> z in s;
        InFront(a, x);
        InFront(a, y);
        FrontWins(EntitledOps(a), w, x);
        FrontWins(EntitledOps(a), w, y);
        assert false;
      }
    }
  }

  // ---------- The exact condition ----------

  lemma {:induction false} AlikeGroupsHaveNoConflict(a: seq<Op>, g: GroupId)
    requires IdsUnique(Elems(a)) && NoBindingConflicts(Elems(a)) && FoldsAlike(a) && g in FoldOf(a).groups
    ensures var s := Elems(EntitledOps(a));
            UnconflictedAt(s, NameWrite, g) && UnconflictedAt(s, CurrencyWrite, g) && UnconflictedAt(s, ClosedWrite, g)
  {
    hide Register, AuthorityOf, StandingOf, EntitledOps, NoBindingConflicts, UnconflictedAt, UsersOf;
    hide ExpensesOf, SettlementsOf;
    hide CurrentMembers, ConfirmedFriends, DeviceRecords;
    forall b | Elems(b) == Elems(a)
      ensures var r := FoldOf(b).groups[g]; var kept := EntitledOps(b);
              && g in FoldOf(b).groups
              && r.name == ValueOr(Register(kept, NameWrite), g, "")
              && r.currency == ValueOr(Register(kept, CurrencyWrite), g, "USD")
              && r.closedUntilMs == ValueOr(Register(kept, ClosedWrite), g, 0)
    {
      assert FoldOf(b) == FoldOf(a);
    }
    hide FoldOf;
    ShownAtHasNoConflict(a, NameWrite, g, (p: Projection) => if g in p.groups then p.groups[g].name else "");
    ShownAtHasNoConflict(a, CurrencyWrite, g, (p: Projection) => if g in p.groups then p.groups[g].currency else "");
    ShownAtHasNoConflict(a, ClosedWrite, g, (p: Projection) => if g in p.groups then p.groups[g].closedUntilMs else 0);
  }

  lemma {:induction false} AlikeUsersHaveNoConflict(a: seq<Op>, u: string)
    requires IdsUnique(Elems(a)) && NoBindingConflicts(Elems(a)) && FoldsAlike(a) && u in FoldOf(a).users
    ensures var s := Elems(EntitledOps(a)); UnconflictedAt(s, ProfileWrite, u) && UnconflictedAt(s, KeyWrite, u)
  {
    hide Register, AuthorityOf, StandingOf, EntitledOps, NoBindingConflicts, UnconflictedAt, GroupsOf;
    hide ExpensesOf, SettlementsOf;
    hide ConfirmedFriends, DeviceRecords;
    forall b | Elems(b) == Elems(a)
      ensures var r := FoldOf(b).users[u]; var kept := EntitledOps(b);
              && u in FoldOf(b).users && u in Register(kept, ProfileWrite)
              && r.name == Register(kept, ProfileWrite)[u].value
              && (u in Register(kept, KeyWrite) ==> r.agreementPub == Some(Register(kept, KeyWrite)[u].value))
    {
      assert FoldOf(b) == FoldOf(a);
    }
    hide FoldOf;
    ShownAtHasNoConflict(a, ProfileWrite, u, (p: Projection) => if u in p.users then p.users[u].name else "");
    ShownAtHasNoConflict(a, KeyWrite, u,
                         (p: Projection) =>
                           if u in p.users && p.users[u].agreementPub.Some? then p.users[u].agreementPub.value else "");
  }

  lemma {:induction false} AlikeExpensesHaveNoConflict(a: seq<Op>, e: ExpenseId)
    requires IdsUnique(Elems(a)) && NoBindingConflicts(Elems(a)) && FoldsAlike(a) && e in FoldOf(a).expenses
    ensures var s := Elems(EntitledOps(a)); UnconflictedAt(s, VersionWrite, e) && UnconflictedAt(s, LockWrite, e)
  {
    hide Register, AuthorityOf, StandingOf, EntitledOps, NoBindingConflicts, UnconflictedAt, GroupsOf;
    hide UsersOf, SettlementsOf;
    hide ConfirmedFriends, DeviceRecords;
    forall b | Elems(b) == Elems(a)
      ensures var r := FoldOf(b).expenses[e]; var kept := EntitledOps(b);
              && e in FoldOf(b).expenses && e in Register(kept, VersionWrite)
              && r.fields == Register(kept, VersionWrite)[e].value
              && r.locked == ValueOr(Register(kept, LockWrite), e, false)
    {
      assert FoldOf(b) == FoldOf(a);
    }
    hide FoldOf;
    var none := ExpenseFields(map[], 0, [], "");
    ShownAtHasNoConflict(a, VersionWrite, e, (p: Projection) => if e in p.expenses then p.expenses[e].fields else none);
    ShownAtHasNoConflict(a, LockWrite, e, (p: Projection) => e in p.expenses && p.expenses[e].locked);
  }

  lemma {:induction false} AlikeSettlementsHaveNoConflict(a: seq<Op>, t: SettlementId)
    requires IdsUnique(Elems(a)) && NoBindingConflicts(Elems(a)) && FoldsAlike(a) && t in FoldOf(a).settlements
    ensures UnconflictedAt(Elems(EntitledOps(a)), SettlementWrite, t)
  {
    hide Register, AuthorityOf, StandingOf, EntitledOps, NoBindingConflicts, UnconflictedAt, GroupsOf;
    hide UsersOf, ExpensesOf;
    hide ConfirmedFriends, DeviceRecords;
    forall b | Elems(b) == Elems(a)
      ensures var kept := EntitledOps(b);
              && t in FoldOf(b).settlements && t in Register(kept, SettlementWrite)
              && FoldOf(b).settlements[t] == Register(kept, SettlementWrite)[t].value
    {
      assert FoldOf(b) == FoldOf(a);
    }
    hide FoldOf;
    var none := SettlementRecord(None, "", "", 0);
    ShownAtHasNoConflict(a, SettlementWrite, t,
                         (p: Projection) => if t in p.settlements then p.settlements[t] else none);
  }

  /**
   * Once bindings are settled, every order and repetition of the ops folds alike exactly when no
   * shown name, currency, closing date, profile, key, version, lock or settlement has a conflict.
   */
  lemma {:induction false} BoundFoldsAlikeIff(a: seq<Op>)
    requires IdsUnique(Elems(a)) && NoBindingConflicts(Elems(a))
    ensures FoldsAlike(a) <==> NoShownConflicts(a)
  {
    hide FoldOf, NoBindingConflicts, UnconflictedAt, EntitledOps, IdsUnique;
    if NoShownConflicts(a) {
      forall b | Elems(b) == Elems(a) ensures FoldOf(b) == FoldOf(a) { FoldIsOrderFree(a, b); }
    }
    if FoldsAlike(a) {
      forall g | g in FoldOf(a).groups
        ensures var s := Elems(EntitledOps(a));
                UnconflictedAt(s, NameWrite, g) && UnconflictedAt(s, CurrencyWrite, g)
                && UnconflictedAt(s, ClosedWrite, g)
      {
        AlikeGroupsHaveNoConflict(a, g);
      }
      forall u | u in FoldOf(a).users
        ensures UnconflictedAt(Elems(EntitledOps(a)), ProfileWrite, u)
        ensures UnconflictedAt(Elems(EntitledOps(a)), KeyWrite, u)
      {
        AlikeUsersHaveNoConflict(a, u);
      }
      forall e | e in FoldOf(a).expenses
        ensures UnconflictedAt(Elems(EntitledOps(a)), VersionWrite, e)
        ensures UnconflictedAt(Elems(EntitledOps(a)), LockWrite, e)
      {
        AlikeExpensesHaveNoConflict(a, e);
      }
      forall t | t in FoldOf(a).settlements ensures UnconflictedAt(Elems(EntitledOps(a)), SettlementWrite, t) {
        AlikeSettlementsHaveNoConflict(a, t);
      }
    }
  }

  // ---------- Bindings ----------

  /** What the authority pass derives, its binding tables included, whatever the order of the ops. */
  ghost predicate TablesAlike(a: seq<Op>)
    requires IdsUnique(Elems(a))
  {
    forall b | Elems(b) == Elems(a) :: AuthorityOf(b) == AuthorityOf(a)
  }

  lemma {:induction false} FrontBindings(a: seq<Op>, b: seq<Op>, w: Op -> Option<(string, Binding)>, k: string)
    requires HomesOf(Register(a, w)) == HomesOf(Register(b, w))
    requires PartySetsOf(Register(a, w)) == PartySetsOf(Register(b, w))
    requires k in Register(a, w) && k in Register(b, w)
    ensures Register(a, w)[k].value == Register(b, w)[k].value
  {
    hide Register;
    assert HomesOf(Register(a, w))[k] == HomesOf(Register(b, w))[k];
    assert PartySetsOf(Register(a, w))[k] == PartySetsOf(Register(b, w))[k];
  }

  lemma {:induction false} AlikeBindersHaveNoConflict(a: seq<Op>, w: Op -> Option<(string, Binding)>)
    requires forall b | Elems(b) == Elems(a) ::
      HomesOf(Register(b, w)) == HomesOf(Register(a, w)) && PartySetsOf(Register(b, w)) == PartySetsOf(Register(a, w))
    ensures Unconflicted(Elems(a), w)
  {
    hide Register;
    var s := Elems(a);
    forall x, y | x in s && y in s ensures !Conflict(s, w, x, y) {
      if Conflict(s, w, x, y) {
        assert Elems([x] + a) == s && Elems([y] + a) == s;
        assert forall z :: z in a <==> z in s;
        FrontWins(a, w, x);
        FrontWins(a, w, y);
        FrontBindings([x] + a, [y] + a, w, w(x).value.0);
      }
    }
  }

  /** The authority tables are independent of order exactly when no entity is bound in two ways by latest creates. */
  lemma {:induction false} TablesAlikeIff(a: seq<Op>)
    requires IdsUnique(Elems(a))
    ensures TablesAlike(a) <==> NoBindingConflicts(Elems(a))
  {
    hide Register, StandingOf, Unconflicted, HomesOf, PartySetsOf;
    if NoBindingConflicts(Elems(a)) {
      forall b | Elems(b) == Elems(a) ensures AuthorityOf(b) == AuthorityOf(a) { AuthorityOfSet(a, b); }
    }
    if TablesAlike(a) {
      var st := StandingOf(Elems(a));
      forall b | Elems(b) == Elems(a)
        ensures HomesOf(Register(b, ExpenseBinder(st))) == HomesOf(Register(a, ExpenseBinder(st)))
        ensures PartySetsOf(Register(b, ExpenseBinder(st))) == PartySetsOf(Register(a, ExpenseBinder(st)))
        ensures HomesOf(Register(b, SettlementBinder(st))) == HomesOf(Register(a, SettlementBinder(st)))
        ensures PartySetsOf(Register(b, SettlementBinder(st))) == PartySetsOf(Register(a, SettlementBinder(st)))
      {
        assert AuthorityOf(b) == AuthorityOf(a);
      }
      AlikeBindersHaveNoConflict(a, ExpenseBinder(st));
      AlikeBindersHaveNoConflict(a, SettlementBinder(st));
    }
  }

  /** Authority tables and read model together are independent of order exactly when there is no conflict. */
  lemma {:induction false} OrderFreeIffNoConflicts(a: seq<Op>)
    requires IdsUnique(Elems(a))
    ensures TablesAlike(a) && FoldsAlike(a) <==> NoConflicts(a)
  {
    hide TablesAlike, FoldsAlike, NoBindingConflicts, NoShownConflicts, IdsUnique;
    TablesAlikeIff(a);
    if NoBindingConflicts(Elems(a)) { BoundFoldsAlikeIff(a); }
  }

  // ---------- Conflicts on concrete logs ----------

  const TIED_FIRST := Op(1, Hlc(5, 0, 1), PublicKey("aa"), UpsertProfile("id:aa", "A"))
  const TIED_SECOND := Op(2, Hlc(5, 0, 1), PublicKey("aa"), UpsertProfile("id:aa", "B"))

  /** Two ops of one author with one clock: the first of them in the slice decides. */
  lemma {:induction false} TiesCanConflict()
    ensures IdsUnique(Elems([TIED_FIRST, TIED_SECOND])) && IdsUnique(Elems([TIED_SECOND, TIED_FIRST]))
    ensures FoldOf([TIED_FIRST, TIED_SECOND]) != FoldOf([TIED_SECOND, TIED_FIRST])
  {
    hide FoldOf;
    OwnNameShown(TIED_FIRST, TIED_SECOND);
    OwnNameShown(TIED_SECOND, TIED_FIRST);
  }

  lemma {:induction false} OwnNameShown(first: Op, second: Op)
    requires {first, second} == {TIED_FIRST, TIED_SECOND}
    ensures IdsUnique(Elems([first, second]))
    ensures "id:aa" in FoldOf([first, second]).users && FoldOf([first, second]).users["id:aa"].name == first.kind.name
  {
    hide StandingOf, Register, GroupsOf, ExpensesOf, SettlementsOf, ConfirmedFriends, DeviceRecords;
    var ops := [first, second];
    assert forall o :: o in ops <==> o == first || o == second;
    assert first in {first, second} && second in {first, second};
    ProfilesFold(ops);
    hide Entitled, AuthorityOf;
    FilterAll(ops, Entitler(AuthorityOf(ops)));
    assert ops == ([] + [first]) + [second];
    RegisterSnoc([first], second, ProfileWrite);
    RegisterSnoc([], first, ProfileWrite);
    assert Register([], ProfileWrite) == map[] by { NothingWritten(ProfileWrite); }
    assert [] + [first] == [first];
  }

  lemma {:induction false} ProfilesFold(ops: seq<Op>)
    requires IdsUnique(Elems(ops)) && forall o | o in ops :: o.kind.UpsertProfile? && o.kind.user == UserIdFor(o.author)
    ensures forall o | o in ops :: Entitled(AuthorityOf(ops), o)
  {
    hide StandingOf, Register, IsMemberAsOf;
    PlainStanding(Elems(ops));
  }

  lemma {:induction false} NothingWritten<K, V>(w: Op -> Option<(K, V)>)
    ensures Register([], w) == map[]
  {
    assert Register([], w).Keys == {};
  }

  lemma {:induction false} FilterAll(ops: seq<Op>, keep: Op -> bool)
    requires forall o | o in ops :: keep(o)
    ensures Filter(ops, keep) == ops
  {
    if ops != [] {
      var n := |ops| - 1;
      FilterAll(ops[..n], keep);
      assert ops[n] in ops && ops == ops[..n] + [ops[n]];
    }
  }

  /** Two creates of one expense with one clock, each of its author alone, and a void by the first author. */
  const MINE := ExpenseFields(map["id:aa" := 1], 1, [Split("id:aa", 1)], "")
  const YOURS := ExpenseFields(map["id:bb" := 1], 1, [Split("id:bb", 1)], "")
  const MY_CREATE := Op(1, Hlc(5, 0, 1), PublicKey("aa"), CreateExpense("e", None, MINE, false))
  const YOUR_CREATE := Op(2, Hlc(5, 0, 1), PublicKey("bb"), CreateExpense("e", None, YOURS, false))
  const MY_VOID := Op(3, Hlc(6, 0, 1), PublicKey("aa"), VoidExpense("e"))

  /** A binding conflict: the order of the creates decides whether the void counts and the expense shows. */
  lemma {:induction false} BindingTieDecidesVerdict()
    ensures IdsUnique(Elems([MY_CREATE, YOUR_CREATE, MY_VOID])) && IdsUnique(Elems([YOUR_CREATE, MY_CREATE, MY_VOID]))
    ensures "e" !in FoldOf([MY_CREATE, YOUR_CREATE, MY_VOID]).expenses
    ensures "e" in FoldOf([YOUR_CREATE, MY_CREATE, MY_VOID]).expenses
  {
    hide FoldOf;
    VoidCountsForFirst(MY_CREATE, YOUR_CREATE);
    VoidCountsForFirst(YOUR_CREATE, MY_CREATE);
  }

  lemma {:induction false} VoidCountsForFirst(first: Op, second: Op)
    requires (first == MY_CREATE && second == YOUR_CREATE) || (first == YOUR_CREATE && second == MY_CREATE)
    ensures IdsUnique(Elems([first, second, MY_VOID]))
    ensures "e" in FoldOf([first, second, MY_VOID]).expenses <==> first == YOUR_CREATE
  {
    hide FoldOf, StandingOf, AuthorityOf, Register, IsMemberAsOf;
    var ops := [first, second, MY_VOID];
    assert forall o :: o in ops <==> o == first || o == second || o == MY_VOID;
    TwoKeys();
    BoundToFirst(first, second);
    ExpenseShown(ops, "e");
    assert Counts(ops, MY_VOID) <==> first == MY_CREATE;
    assert Counts(ops, first) && Creates(first, "e");
  }

  lemma {:induction false} TwoKeys()
    ensures UserIdFor(PublicKey("aa")) == "id:aa" && UserIdFor(PublicKey("bb")) == "id:bb" && "id:aa" != "id:bb"
  {
    assert "id:aa"[3] != "id:bb"[3];
  }

  /** The first of the two binds the expense. */
  lemma {:induction false} BoundToFirst(first: Op, second: Op)
    requires (first == MY_CREATE && second == YOUR_CREATE) || (first == YOUR_CREATE && second == MY_CREATE)
    ensures var ops := [first, second, MY_VOID]; var actor := UserIdFor(first.author);
            && IdsUnique(Elems(ops))
            && Entitled(AuthorityOf(ops), first)
            && (Entitled(AuthorityOf(ops), MY_VOID) <==> actor == "id:aa")
  {
    hide StandingOf, Register, IsMemberAsOf, Actor, RevokedAt, PartiesOf, FriendOpOk;
    var ops := [first, second, MY_VOID];
    assert forall o :: o in ops <==> o == first || o == second || o == MY_VOID;
    var st, actor := StandingOf(Elems(ops)), UserIdFor(first.author);
    var w := ExpenseBinder(st);
    TwoKeys();
    PlainStanding(Elems(ops));
    SoleParty(st, first, actor);
    SoleParty(st, second, UserIdFor(second.author));
    SoleParty(st, MY_VOID, "id:aa");
    FirstDecides(first, second, MY_VOID, w, "e", Binding(None, {actor}));
  }

  lemma {:induction false} FirstDecides<V>(
      first: Op, second: Op, third: Op, w: Op -> Option<(string, V)>, k: string, v: V)
    requires w(first) == Some((k, v)) && w(second).Some? && w(second).value.0 == k && w(third) == None
    requires first.hlc == second.hlc
    ensures var r := Register([first, second, third], w); k in r && r[k].value == v
  {
    hide Register;
    NothingWritten(w);
    assert [] + [first] == [first] && [first] + [second] == [first, second];
    assert [first, second] + [third] == [first, second, third];
    RegisterSnoc([], first, w);
    RegisterSnoc([first], second, w);
    RegisterSnoc([first, second], third, w);
  }

  /** The actor of each op, and whom the creates bind. */
  lemma {:induction false} SoleParty(st: Standing, o: Op, actor: UserId)
    requires st.devices == Devices(map[], map[]) && st.aliases == map[]
    requires o == MY_CREATE || o == YOUR_CREATE || o == MY_VOID
    requires actor == UserIdFor(o.author)
    ensures ActorOf(st, o) == actor && !RevokedAt(st.devices, o)
    ensures o.kind.CreateExpense? ==>
      PartiesOf(st, o.kind.fields) == {actor} && BindExpense(st, o) == Some(("e", Binding(None, {actor})))
    ensures o.kind.CreateExpense? ==> MayTouch(st, actor, OrderOf(o), None, {actor})
    ensures FriendOpOk(st, "id:aa", {actor}) <==> actor == "id:aa"
  {
    hide IsMemberAsOf;
    TwoKeys();
    if o.kind.CreateExpense? { assert PartiesOf(st, o.kind.fields) == {actor}; }
  }
}
