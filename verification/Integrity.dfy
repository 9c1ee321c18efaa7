// What the accepted ledger guarantees about who put what where, and what it does not: work on a group
// traces back to its founder, everything shown hangs in a shown group, an expense outside groups is
// entered among friends; but whoever enters an existing id anew, and latest, replaces the entry.
module Integrity {
  import opened Operations
  import opened Aliases
  import opened Registers
  import opened Authorization
  import opened Membership
  import opened Materialization
  import opened Convergence

  // ---------- Work on a group ----------

  function HomeOf(homes: map<string, Option<GroupId>>, id: string): Option<GroupId> {
    if id in homes then homes[id] else None
  }

  /** The group an op concerns: the one it names, or the one its entity is bound to. */
  function Concerns(a: Authority, op: Op): Option<GroupId> {
    match op.kind
    case SetGroupName(g, _) => Some(g)
    case SetGroupCurrency(g, _) => Some(g)
    case SetClosedPeriod(g, _) => Some(g)
    case CreateExpense(_, home, _, _) => home
    case RecordSettlement(_, home, _, _, _) => home
    case EditExpense(e, _) => HomeOf(a.expenseGroup, e)
    case PublishExpense(e) => HomeOf(a.expenseGroup, e)
    case VoidExpense(e) => HomeOf(a.expenseGroup, e)
    case SetExpenseLock(e, _) => HomeOf(a.expenseGroup, e)
    case VoidSettlement(s) => HomeOf(a.settlementGroup, s)
    case _ => None
  }

  /** On a group's affairs membership as of the op is all that matters, whatever the kind. */
  lemma MembershipDecides(a: Authority, op: Op, g: GroupId)
    requires Concerns(a, op) == Some(g)
    ensures Entitled(a, op)
       <==> !RevokedAt(a.standing.devices, op)
            && IsMemberAsOf(a.standing.membership, g, ActorOf(a.standing, op), OrderOf(op))
  {}

  /** Whoever works on a group was let in: a chain of admissions leads from the founder to the actor before the op. */
  lemma {:induction false} GroupWorkTracesToFounder(ops: seq<Op>, op: Op, g: GroupId) returns (chain: seq<Op>)
    requires IdsUnique(Elems(ops))
    requires Entitled(AuthorityOf(ops), op) && Concerns(AuthorityOf(ops), op) == Some(g)
    ensures g in ContextOf(Elems(ops)).founders
    ensures AdmissionChain(Elems(ops), g, ActorOf(StandingOf(Elems(ops)), op), OrderOf(op), chain)
    ensures forall o | o in chain :: o in AcceptedOf(Elems(ops))
  {
    hide Entitled, Concerns, StandingOf, ContextOf, AdmissionChain, AcceptedOf, Register, IsMemberAsOf;
    hide RevokedAt, ActorOf;
    MembershipDecides(AuthorityOf(ops), op, g);
    chain := MembershipProvenance(Elems(ops), g, ActorOf(StandingOf(Elems(ops)), op), OrderOf(op));
  }

  // ---------- Everything shown hangs in a shown group ----------

  /** The groups shown are exactly the founded ones. */
  lemma {:induction false} GroupsShownAreFounded(ops: seq<Op>, g: GroupId)
    requires IdsUnique(Elems(ops))
    ensures g in FoldOf(ops).groups <==> g in ContextOf(Elems(ops)).founders
  {
    hide Register, ExpensesOf, SettlementsOf, UsersOf, ConfirmedFriends, DeviceRecords, CurrentMembers, TimelinesOf;
    hide AliasMap, Accepted;
    var s, kept := Elems(ops), EntitledOps(ops);
    var c := ContextOf(s);
    if g in Facts(kept, GroupFact) {
      var o :| o in kept && GroupFact(o) == Some(g);
      assert Entitled(AuthorityOf(ops), o);
    }
    if g in c.founders {
      var o := FoundingOp(s, c.devices, g);
      assert FoundersOf(s, c.devices, c.aliases)[g] == Actor(c.devices, c.aliases, o);
      assert Entitled(AuthorityOf(ops), o);
      assert o in kept && GroupFact(o) == Some(g);
    }
  }

  /** No expense or settlement is shown in a group that is not. */
  lemma {:induction false} ShownHomesAreShown(ops: seq<Op>, id: string, g: GroupId)
    requires IdsUnique(Elems(ops))
    ensures id in FoldOf(ops).expenses && FoldOf(ops).expenses[id].group == Some(g) ==> g in FoldOf(ops).groups
    ensures id in FoldOf(ops).settlements && FoldOf(ops).settlements[id].group == Some(g) ==> g in FoldOf(ops).groups
  {
    hide FoldOf, StandingOf, ContextOf, AdmissionChain, AcceptedOf, Register, Entitled, AuthorityOf;
    GroupsShownAreFounded(ops, g);
    if id in FoldOf(ops).expenses && FoldOf(ops).expenses[id].group == Some(g) {
      var version, create := ExpenseContents(ops, id);
      var chain := GroupWorkTracesToFounder(ops, create, g);
    }
    SettlementShown(ops, id);
    if id in FoldOf(ops).settlements && FoldOf(ops).settlements[id].group == Some(g) {
      var r :| Counts(ops, r) && Records(r, id)
            && FoldOf(ops).settlements[id] == SettlementRecord(r.kind.home, r.kind.from, r.kind.to, r.kind.amount);
      var chain := GroupWorkTracesToFounder(ops, r, g);
    }
  }

  // ---------- Entries outside groups ----------

  /** Friends as the read model shows them, each listing the other. */
  predicate ShownFriends(p: Projection, a: UserId, b: UserId) {
    a in p.friends && b in p.friends[a] && b in p.friends && a in p.friends[b]
  }

  lemma {:induction false} FriendsAreShown(ops: seq<Op>, a: UserId, b: UserId)
    requires IdsUnique(Elems(ops))
    ensures IsFriend(StandingOf(Elems(ops)), a, b) <==> ShownFriends(FoldOf(ops), a, b)
  {
    hide StandingOf, AuthorityOf, Register, GroupsOf, ExpensesOf, SettlementsOf, UsersOf, DeviceRecords;
    var st := StandingOf(Elems(ops));
    assert FoldOf(ops).friends == ConfirmedFriends(st);
  }

  /** Whoever enters an expense outside any group takes part in it, together with shown friends and guests only. */
  lemma {:induction false} SharedAmongFriends(ops: seq<Op>, e: ExpenseId) returns (create: Op)
    requires IdsUnique(Elems(ops)) && e in FoldOf(ops).expenses && FoldOf(ops).expenses[e].group == None
    ensures Counts(ops, create) && Creates(create, e)
    ensures var st := StandingOf(Elems(ops)); var actor := ActorOf(st, create);
            var parties := PartiesOf(st, create.kind.fields);
            && actor in parties
            && forall p | p in parties :: p == actor || IsPlaceholder(p) || ShownFriends(FoldOf(ops), actor, p)
  {
    hide FoldOf, StandingOf, Register, PartiesOf, ActorOf, IsMemberAsOf, RevokedAt, ShownFriends, IsFriend;
    var version, c := ExpenseContents(ops, e);
    create := c;
    var st := StandingOf(Elems(ops));
    assert AuthorityOf(ops).standing == st;
    forall p { FriendsAreShown(ops, ActorOf(st, create), p); }
  }

  /** Edits are judged by who makes them: what an edit says, and whom it names, makes no difference. */
  lemma EditsMayNameAnyone(a: Authority, op: Op, other: Op)
    requires op.kind.EditExpense? && other.kind.EditExpense? && op.kind.expense == other.kind.expense
    requires op.(kind := other.kind) == other
    ensures Entitled(a, op) == Entitled(a, other)
  {}

  // ---------- Acting on an expense ----------

  /** Ops that act on an existing expense. */
  predicate ActsOn(op: Op, e: ExpenseId) {
    (op.kind.EditExpense? || op.kind.PublishExpense? || op.kind.VoidExpense? || op.kind.SetExpenseLock?)
    && op.kind.expense == e
  }

  /** Every op on the expense, creates included. */
  predicate Touches(op: Op, e: ExpenseId) { Creates(op, e) || ActsOn(op, e) }

  /** The user has a part in what a create or record enters: as a party, or at some time as a member of its group. */
  ghost predicate HasPart(st: Standing, home: Option<GroupId>, parties: set<UserId>, u: UserId) {
    match home
    case None => u in parties
    case Some(g) => exists at :: IsMemberAsOf(st.membership, g, u, at)
  }

  /** The entitled create an expense is bound to: no entitled create of it is later. */
  lemma {:induction false} BindingCreate(ops: seq<Op>, e: ExpenseId) returns (create: Op)
    requires IdsUnique(Elems(ops)) && e in AuthorityOf(ops).expenseGroup
    ensures Counts(ops, create) && Creates(create, e)
    ensures forall o | Counts(ops, o) && Creates(o, e) :: HlcLe(o.hlc, create.hlc)
    ensures AuthorityOf(ops).expenseGroup[e] == create.kind.home
    ensures e in AuthorityOf(ops).expenseParties
    ensures AuthorityOf(ops).expenseParties[e] == PartiesOf(StandingOf(Elems(ops)), create.kind.fields)
  {
    hide StandingOf, Register, PartiesOf, IsMemberAsOf, RevokedAt, HlcLe, FriendOpOk;
    var st := StandingOf(Elems(ops));
    create := RegisterWinner(ops, ExpenseBinder(st), e);
    forall o | Counts(ops, o) && Creates(o, e)
      ensures HlcLe(o.hlc, create.hlc)
    {
      assert Writes(o, ExpenseBinder(st), e);
    }
  }

  /** Whoever may act on an expense has a part in the create it is bound to. */
  lemma {:induction false} ActingNeedsPart(ops: seq<Op>, op: Op, e: ExpenseId) returns (create: Op)
    requires IdsUnique(Elems(ops)) && Entitled(AuthorityOf(ops), op) && ActsOn(op, e)
    ensures Counts(ops, create) && Creates(create, e)
    ensures forall o | Counts(ops, o) && Creates(o, e) :: HlcLe(o.hlc, create.hlc)
    ensures var st := StandingOf(Elems(ops));
            HasPart(st, create.kind.home, PartiesOf(st, create.kind.fields), ActorOf(st, op))
  {
    hide AuthorityOf, StandingOf, PartiesOf, ActorOf, IsMemberAsOf, RevokedAt, HlcLe, IsFriend, Counts;
    AuthorityStands(ops);
    create := BindingCreate(ops, e);
  }

  lemma AuthorityStands(ops: seq<Op>)
    requires IdsUnique(Elems(ops))
    ensures AuthorityOf(ops).standing == StandingOf(Elems(ops))
  {}

  /** The user has no part in any entitled create of the expense by someone else. */
  ghost predicate OutsideExpense(ops: seq<Op>, u: UserId, e: ExpenseId)
    requires IdsUnique(Elems(ops))
  {
    var st := StandingOf(Elems(ops));
    forall c | Counts(ops, c) && Creates(c, e) && ActorOf(st, c) != u ::
      !HasPart(st, c.kind.home, PartiesOf(st, c.kind.fields), u)
  }

  /** An outsider has an op on the expense that counts exactly when a create of the same id by them counts. */
  lemma {:induction false} OutsidersNeedTheirOwnCreate(ops: seq<Op>, u: UserId, e: ExpenseId)
    requires IdsUnique(Elems(ops)) && OutsideExpense(ops, u, e)
    ensures var st := StandingOf(Elems(ops));
            (exists o :: Counts(ops, o) && Touches(o, e) && ActorOf(st, o) == u)
            <==> (exists c :: Counts(ops, c) && Creates(c, e) && ActorOf(st, c) == u)
  {
    hide AuthorityOf, StandingOf, PartiesOf, ActorOf, IsMemberAsOf, Entitled, HlcLe, HasPart;
    var st := StandingOf(Elems(ops));
    if c :| Counts(ops, c) && Creates(c, e) && ActorOf(st, c) == u { assert Touches(c, e); }
    if o :| Counts(ops, o) && Touches(o, e) && ActorOf(st, o) == u {
      if ActsOn(o, e) {
        var create := ActingNeedsPart(ops, o, e);
        assert ActorOf(st, create) == u;
      }
    }
  }

  /**
   * An entitled create later than every other entitled version, with no entitled void, replaces the
   * expense: its group and fields are shown, and later ops are judged by it alone.
   */
  lemma {:induction false} LatestCreateReplaces(ops: seq<Op>, create: Op, e: ExpenseId, op: Op)
    requires IdsUnique(Elems(ops)) && Counts(ops, create) && Creates(create, e)
    requires forall o | Counts(ops, o) && Versions(o, e) && o != create :: HlcLt(o.hlc, create.hlc)
    requires !exists o :: Counts(ops, o) && Voids(o, e)
    ensures e in FoldOf(ops).expenses
    ensures FoldOf(ops).expenses[e].group == create.kind.home && FoldOf(ops).expenses[e].fields == create.kind.fields
    ensures var st := StandingOf(Elems(ops));
            ActsOn(op, e) ==>
              (Entitled(AuthorityOf(ops), op)
               <==> !RevokedAt(st.devices, op)
                    && MayTouch(st, ActorOf(st, op), OrderOf(op), create.kind.home, PartiesOf(st, create.kind.fields)))
  {
    hide AuthorityOf, StandingOf, PartiesOf, ActorOf, IsMemberAsOf, RevokedAt, FriendOpOk, FoldOf, Counts, HlcLt;
    ExpenseShown(ops, e);
    var version, shown := ExpenseContents(ops, e);
    NotBothLater(version, create);
    NotBothLater(shown, create);
    AuthorityStands(ops);
    CreateBinds(ops, create, e);
    var bound := BindingCreate(ops, e);
    NotBothLater(bound, create);
  }

  lemma NotBothLater(a: Op, b: Op)
    ensures HlcLe(b.hlc, a.hlc) ==> !HlcLt(a.hlc, b.hlc)
  {}

  lemma {:induction false} CreateBinds(ops: seq<Op>, create: Op, e: ExpenseId)
    requires IdsUnique(Elems(ops)) && Counts(ops, create) && Creates(create, e)
    ensures e in AuthorityOf(ops).expenseGroup
  {
    hide StandingOf, Register, PartiesOf, IsMemberAsOf, RevokedAt, FriendOpOk, ActorOf;
    var st := StandingOf(Elems(ops));
    assert Writes(create, ExpenseBinder(st), e);
    RegisterKeys(ops, ExpenseBinder(st), e);
  }

  // ---------- Acting on a settlement ----------

  predicate TouchesSettlement(op: Op, s: SettlementId) { Records(op, s) || VoidsSettlement(op, s) }

  lemma {:induction false} BindingRecord(ops: seq<Op>, s: SettlementId) returns (record: Op)
    requires IdsUnique(Elems(ops)) && s in AuthorityOf(ops).settlementGroup
    ensures Counts(ops, record) && Records(record, s)
    ensures forall o | Counts(ops, o) && Records(o, s) :: HlcLe(o.hlc, record.hlc)
    ensures AuthorityOf(ops).settlementGroup[s] == record.kind.home
    ensures s in AuthorityOf(ops).settlementParties
    ensures AuthorityOf(ops).settlementParties[s]
         == SettlementParties(StandingOf(Elems(ops)), record.kind.from, record.kind.to)
  {
    hide StandingOf, Register, SettlementParties, IsMemberAsOf, RevokedAt, HlcLe, FriendOpOk;
    var st := StandingOf(Elems(ops));
    record := RegisterWinner(ops, SettlementBinder(st), s);
    forall o | Counts(ops, o) && Records(o, s)
      ensures HlcLe(o.hlc, record.hlc)
    {
      assert Writes(o, SettlementBinder(st), s);
    }
  }

  ghost predicate OutsideSettlement(ops: seq<Op>, u: UserId, s: SettlementId)
    requires IdsUnique(Elems(ops))
  {
    var st := StandingOf(Elems(ops));
    forall r | Counts(ops, r) && Records(r, s) && ActorOf(st, r) != u ::
      !HasPart(st, r.kind.home, SettlementParties(st, r.kind.from, r.kind.to), u)
  }

  /** An outsider has an op on the settlement that counts exactly when a record of the same id by them counts. */
  lemma {:induction false} OutsidersNeedTheirOwnRecord(ops: seq<Op>, u: UserId, s: SettlementId)
    requires IdsUnique(Elems(ops)) && OutsideSettlement(ops, u, s)
    ensures var st := StandingOf(Elems(ops));
            (exists o :: Counts(ops, o) && TouchesSettlement(o, s) && ActorOf(st, o) == u)
            <==> (exists r :: Counts(ops, r) && Records(r, s) && ActorOf(st, r) == u)
  {
    hide AuthorityOf, StandingOf, SettlementParties, ActorOf, IsMemberAsOf, RevokedAt, HlcLe, IsFriend;
    var st := StandingOf(Elems(ops));
    AuthorityStands(ops);
    if r :| Counts(ops, r) && Records(r, s) && ActorOf(st, r) == u { assert TouchesSettlement(r, s); }
    if o :| Counts(ops, o) && TouchesSettlement(o, s) && ActorOf(st, o) == u {
      if VoidsSettlement(o, s) {
        var record := BindingRecord(ops, s);
        assert ActorOf(st, record) == u;
      }
    }
  }

  /** An entitled record later than every other entitled one, with no entitled void, replaces the settlement. */
  lemma {:induction false} LatestRecordReplaces(ops: seq<Op>, record: Op, s: SettlementId, op: Op)
    requires IdsUnique(Elems(ops)) && Counts(ops, record) && Records(record, s)
    requires forall o | Counts(ops, o) && Records(o, s) && o != record :: HlcLt(o.hlc, record.hlc)
    requires !exists o :: Counts(ops, o) && VoidsSettlement(o, s)
    ensures s in FoldOf(ops).settlements
    ensures FoldOf(ops).settlements[s]
         == SettlementRecord(record.kind.home, record.kind.from, record.kind.to, record.kind.amount)
    ensures var st := StandingOf(Elems(ops));
            VoidsSettlement(op, s) ==>
              (Entitled(AuthorityOf(ops), op)
               <==> !RevokedAt(st.devices, op)
                    && MayTouch(st, ActorOf(st, op), OrderOf(op), record.kind.home,
                                SettlementParties(st, record.kind.from, record.kind.to)))
  {
    hide AuthorityOf, StandingOf, SettlementParties, ActorOf, IsMemberAsOf, RevokedAt, FriendOpOk, FoldOf;
    hide Counts, HlcLt;
    SettlementShown(ops, s);
    var shown :| Counts(ops, shown) && Records(shown, s)
              && FoldOf(ops).settlements[s]
                 == SettlementRecord(shown.kind.home, shown.kind.from, shown.kind.to, shown.kind.amount)
              && forall o | Counts(ops, o) && Records(o, s) :: HlcLe(o.hlc, shown.hlc);
    NotBothLater(shown, record);
    AuthorityStands(ops);
    RecordBinds(ops, record, s);
    var bound := BindingRecord(ops, s);
    NotBothLater(bound, record);
  }

  lemma {:induction false} RecordBinds(ops: seq<Op>, record: Op, s: SettlementId)
    requires IdsUnique(Elems(ops)) && Counts(ops, record) && Records(record, s)
    ensures s in AuthorityOf(ops).settlementGroup
  {
    hide StandingOf, Register, SettlementParties, IsMemberAsOf, RevokedAt, FriendOpOk, ActorOf;
    var st := StandingOf(Elems(ops));
    assert Writes(record, SettlementBinder(st), s);
    RegisterKeys(ops, SettlementBinder(st), s);
  }

  // ---------- A stranger's create of a known id ----------

  const FOUNDING := Op(1, Hlc(1, 0, 1), PublicKey("ff"), CreateGroup("g", "trip"))
  const FOUNDERS_FIELDS := ExpenseFields(map["id:ff" := 1], 1, [Split("id:ff", 1)], "")
  const FOUNDERS_CREATE := Op(2, Hlc(2, 0, 1), PublicKey("ff"), CreateExpense("e", Some("g"), FOUNDERS_FIELDS, false))
  const FOUNDERS_RECORD := Op(3, Hlc(2, 1, 1), PublicKey("ff"), RecordSettlement("s", Some("g"), "id:ff", "user:x", 1))
  const STRANGERS_FIELDS := ExpenseFields(map["id:aa" := 1], 1, [Split("id:aa", 1)], "")
  const STRANGERS_CREATE := Op(4, Hlc(3, 0, 2), PublicKey("aa"), CreateExpense("e", None, STRANGERS_FIELDS, false))
  const STRANGERS_RECORD := Op(5, Hlc(3, 1, 2), PublicKey("aa"), RecordSettlement("s", None, "id:aa", "user:x", 1))

  const GROUP_LOG := [FOUNDING, FOUNDERS_CREATE, FOUNDERS_RECORD]
  const REPLACED_LOG := [FOUNDING, FOUNDERS_CREATE, FOUNDERS_RECORD, STRANGERS_CREATE, STRANGERS_RECORD]

  predicate IsExampleLog(ops: seq<Op>) { ops == GROUP_LOG || ops == REPLACED_LOG }

  lemma {:induction false} ExampleElems(ops: seq<Op>)
    requires IsExampleLog(ops)
    ensures IdsUnique(Elems(ops)) && forall o | o in ops :: IsPlain(o)
    ensures forall o :: o in ops <==> o in {FOUNDING, FOUNDERS_CREATE, FOUNDERS_RECORD}
                                      || (ops == REPLACED_LOG && o in {STRANGERS_CREATE, STRANGERS_RECORD})
  {
    assert |GROUP_LOG| == 3 && |REPLACED_LOG| == 5;
    assert GROUP_LOG[0] == FOUNDING && GROUP_LOG[1] == FOUNDERS_CREATE && GROUP_LOG[2] == FOUNDERS_RECORD;
    assert REPLACED_LOG[..3] == GROUP_LOG;
  }

  /** Only the founder is ever in the group. */
  lemma {:induction false} OnlyFounderIsIn(ops: seq<Op>)
    requires IsExampleLog(ops)
    ensures IdsUnique(Elems(ops))
    ensures var st := StandingOf(Elems(ops));
            && st.devices == Devices(map[], map[]) && st.aliases == map[] && st.friendDecls == map[]
            && forall u, at :: IsMemberAsOf(st.membership, "g", u, at) <==> u == "id:ff"
  {
    hide StandingOf, ContextOf, IsMemberAsOf;
    ExampleElems(ops);
    PlainStanding(Elems(ops));
    FounderOfExample(ops);
  }

  lemma {:induction false} FounderOfExample(ops: seq<Op>)
    requires IsExampleLog(ops)
    ensures IdsUnique(Elems(ops))
    ensures var founders := StandingOf(Elems(ops)).founders; "g" in founders && founders["g"] == "id:ff"
  {
    hide DevicesOf, AliasMap, AliasEdges, TimelinesOf, Accepted, FoundingOp;
    ExampleElems(ops);
    PlainStanding(Elems(ops));
    var s, d := Elems(ops), DevicesOf(Elems(ops));
    assert FOUNDING in s && CreatesGroup(d, FOUNDING, FOUNDING.kind.group);
    assert "g" in CreatedGroups(s, d);
    assert FoundingOp(s, d, "g") == FOUNDING;
    assert UserIdFor(PublicKey("ff")) == "id:ff";
  }

  /** Every op of the two logs counts. */
  lemma {:induction false} AllCount(ops: seq<Op>, o: Op)
    requires IsExampleLog(ops) && o in ops
    ensures IdsUnique(Elems(ops)) && Counts(ops, o) && ActorOf(StandingOf(Elems(ops)), o) == UserIdFor(o.author)
  {
    hide StandingOf, IsMemberAsOf, AuthorityOf;
    ExampleElems(ops);
    OnlyFounderIsIn(ops);
    FounderOfExample(ops);
    AuthorityStands(ops);
    var st := StandingOf(Elems(ops));
    assert UserIdFor(PublicKey("ff")) == "id:ff" && UserIdFor(PublicKey("aa")) == "id:aa" && "user:x"[0] == 'u';
    if o == STRANGERS_CREATE { assert PartiesOf(st, STRANGERS_FIELDS) == {"id:aa"}; }
    if o == STRANGERS_RECORD { assert SettlementParties(st, "id:aa", "user:x") == {"id:aa", "user:x"}; }
  }

  /** In each log the last create and the last record are shown. */
  lemma {:induction false} LastShown(ops: seq<Op>, create: Op, record: Op)
    requires IsExampleLog(ops)
    requires create == if ops == GROUP_LOG then FOUNDERS_CREATE else STRANGERS_CREATE
    requires record == if ops == GROUP_LOG then FOUNDERS_RECORD else STRANGERS_RECORD
    ensures IdsUnique(Elems(ops))
    ensures var p := FoldOf(ops);
            && "e" in p.expenses && p.expenses["e"].group == create.kind.home
            && p.expenses["e"].fields == create.kind.fields
            && "s" in p.settlements && p.settlements["s"].group == record.kind.home
            && p.settlements["s"].from == record.kind.from
  {
    hide FoldOf, StandingOf, AuthorityOf, Entitled, MayTouch, ActorOf, RevokedAt, PartiesOf, SettlementParties;
    ExampleElems(ops);
    assert |GROUP_LOG| != |REPLACED_LOG|;
    AllCount(ops, create);
    AllCount(ops, record);
    LatestCreateReplaces(ops, create, "e", create);
    LatestRecordReplaces(ops, record, "s", record);
  }

  /**
   * Somebody who is never in the group and has no part in its entries enters both ids anew, outside
   * any group: both entries leave the group and show what the stranger wrote.
   */
  lemma {:induction false} StrangerReplacesEntries(at: Order)
    ensures IdsUnique(Elems(GROUP_LOG)) && IdsUnique(Elems(REPLACED_LOG))
    ensures !IsMemberAsOf(StandingOf(Elems(REPLACED_LOG)).membership, "g", "id:aa", at)
    ensures OutsideExpense(REPLACED_LOG, "id:aa", "e") && OutsideSettlement(REPLACED_LOG, "id:aa", "s")
    ensures var p := FoldOf(GROUP_LOG);
            && "e" in p.expenses && p.expenses["e"].group == Some("g") && p.expenses["e"].fields == FOUNDERS_FIELDS
            && "s" in p.settlements && p.settlements["s"].group == Some("g") && p.settlements["s"].from == "id:ff"
    ensures var p := FoldOf(REPLACED_LOG);
            && "e" in p.expenses && p.expenses["e"].group == None && p.expenses["e"].fields == STRANGERS_FIELDS
            && "s" in p.settlements && p.settlements["s"].group == None && p.settlements["s"].from == "id:aa"
  {
    hide FoldOf, StandingOf, IsMemberAsOf;
    assert |GROUP_LOG| != |REPLACED_LOG|;
    LastShown(GROUP_LOG, FOUNDERS_CREATE, FOUNDERS_RECORD);
    LastShown(REPLACED_LOG, STRANGERS_CREATE, STRANGERS_RECORD);
    OnlyFounderIsIn(REPLACED_LOG);
    StrangerIsOutside();
  }

  lemma {:induction false} StrangerIsOutside()
    ensures IdsUnique(Elems(REPLACED_LOG))
    ensures OutsideExpense(REPLACED_LOG, "id:aa", "e") && OutsideSettlement(REPLACED_LOG, "id:aa", "s")
  {
    hide StandingOf, IsMemberAsOf, ActorOf, Entitled, PartiesOf, SettlementParties;
    ExampleElems(REPLACED_LOG);
    OnlyFounderIsIn(REPLACED_LOG);
    assert UserIdFor(PublicKey("aa")) == "id:aa" && "id:aa"[3] != "id:ff"[3];
    assert STRANGERS_CREATE in REPLACED_LOG && STRANGERS_RECORD in REPLACED_LOG;
    AllCount(REPLACED_LOG, STRANGERS_CREATE);
    AllCount(REPLACED_LOG, STRANGERS_RECORD);
  }
}
