// The value fold: entitled ops only, into last-writer-wins registers and grow-only sets, assembled
// into the read model.
module Materialization {
  import opened Ordering
  import opened Operations
  import opened Registers
  import opened Authorization
  import opened AuthorityPass

  // ---------- The read model ----------

  datatype GroupRecord = GroupRecord(name: string, currency: string, members: set<UserId>, closedUntilMs: int)
  datatype UserRecord = UserRecord(name: string, agreementPub: Option<string>)
  datatype ExpenseRecord = ExpenseRecord(group: Option<GroupId>, fields: ExpenseFields, locked: bool, published: bool)
  datatype SettlementRecord = SettlementRecord(group: Option<GroupId>, from: UserId, to: UserId, amount: int)

  datatype Projection = Projection(
    groups: map<GroupId, GroupRecord>,
    users: map<UserId, UserRecord>,
    expenses: map<ExpenseId, ExpenseRecord>,
    settlements: map<SettlementId, SettlementRecord>,
    aliases: map<UserId, UserId>,
    devices: map<PublicKey, DeviceRecord>,
    friends: map<UserId, set<UserId>>)

  // ---------- What each op writes ----------

  function NameWrite(op: Op): Option<(GroupId, string)> {
    if op.kind.CreateGroup? || op.kind.SetGroupName? then Some((op.kind.group, op.kind.name)) else None
  }

  function CurrencyWrite(op: Op): Option<(GroupId, string)> {
    if op.kind.SetGroupCurrency? then Some((op.kind.group, op.kind.currency)) else None
  }

  function ClosedWrite(op: Op): Option<(GroupId, int)> {
    if op.kind.SetClosedPeriod? then Some((op.kind.group, op.kind.untilMs)) else None
  }

  function ProfileWrite(op: Op): Option<(UserId, string)> {
    if op.kind.UpsertProfile? then Some((op.kind.user, op.kind.name)) else None
  }

  function KeyWrite(op: Op): Option<(UserId, string)> {
    if op.kind.SetAgreementKey? then Some((op.kind.user, op.kind.key)) else None
  }

  function HomeWrite(op: Op): Option<(ExpenseId, Option<GroupId>)> {
    if op.kind.CreateExpense? then Some((op.kind.expense, op.kind.home)) else None
  }

  function VersionWrite(op: Op): Option<(ExpenseId, ExpenseFields)> {
    if op.kind.CreateExpense? || op.kind.EditExpense? then Some((op.kind.expense, op.kind.fields)) else None
  }

  function LockWrite(op: Op): Option<(ExpenseId, bool)> {
    if op.kind.SetExpenseLock? then Some((op.kind.expense, op.kind.locked)) else None
  }

  function SettlementWrite(op: Op): Option<(SettlementId, SettlementRecord)> {
    if op.kind.RecordSettlement?
    then Some((op.kind.settlement, SettlementRecord(op.kind.home, op.kind.from, op.kind.to, op.kind.amount)))
    else None
  }

  function GroupFact(op: Op): Option<GroupId> {
    if op.kind.CreateGroup? then Some(op.kind.group) else None
  }

  function PublishFact(op: Op): Option<ExpenseId> {
    if op.kind.PublishExpense? || (op.kind.CreateExpense? && !op.kind.draft) then Some(op.kind.expense) else None
  }

  function VoidFact(op: Op): Option<ExpenseId> {
    if op.kind.VoidExpense? then Some(op.kind.expense) else None
  }

  function VoidSettlementFact(op: Op): Option<SettlementId> {
    if op.kind.VoidSettlement? then Some(op.kind.settlement) else None
  }

  /** A grow-only set: every key some op asserts. */
  ghost function Facts<K>(ops: seq<Op>, f: Op -> Option<K>): set<K> {
    set o | o in ops && f(o).Some? :: f(o).value
  }

  lemma {:induction false} FactsSnoc<K>(ops: seq<Op>, op: Op, f: Op -> Option<K>)
    ensures Facts(ops + [op], f) == Facts(ops, f) + if f(op).Some? then {f(op).value} else {}
  {
    forall k ensures k in Facts(ops + [op], f) <==> k in Facts(ops, f) || (f(op).Some? && f(op).value == k) {
      if k in Facts(ops, f) {
        var o :| o in ops && f(o).Some? && f(o).value == k;
        assert o in ops + [op];
      }
      if f(op).Some? && f(op).value == k { assert op in ops + [op]; }
    }
  }

  // ---------- Specification of the fold ----------

  function ValueOr<V>(r: map<string, Stamped<V>>, k: string, default: V): V {
    if k in r then r[k].value else default
  }

  ghost function GroupsOf(ops: seq<Op>, members: Timelines): map<GroupId, GroupRecord> {
    map g | g in Facts(ops, GroupFact) ::
      GroupRecord(ValueOr(Register(ops, NameWrite), g, ""), ValueOr(Register(ops, CurrencyWrite), g, "USD"),
                  CurrentMembers(members, g), ValueOr(Register(ops, ClosedWrite), g, 0))
  }

  ghost function ExpensesOf(ops: seq<Op>): map<ExpenseId, ExpenseRecord> {
    var versions, homes := Register(ops, VersionWrite), Register(ops, HomeWrite);
    map e | e in versions && e !in Facts(ops, VoidFact) && e in homes ::
      ExpenseRecord(homes[e].value, versions[e].value, ValueOr(Register(ops, LockWrite), e, false),
                    e in Facts(ops, PublishFact))
  }

  ghost function SettlementsOf(ops: seq<Op>): map<SettlementId, SettlementRecord> {
    var settlements := Register(ops, SettlementWrite);
    map s | s in settlements && s !in Facts(ops, VoidSettlementFact) :: settlements[s].value
  }

  ghost function UsersOf(ops: seq<Op>): map<UserId, UserRecord> {
    var profiles, keys := Register(ops, ProfileWrite), Register(ops, KeyWrite);
    map u | u in profiles :: UserRecord(profiles[u].value, if u in keys then Some(keys[u].value) else None)
  }

  ghost function Assembled(ops: seq<Op>, st: Standing): Projection {
    Projection(GroupsOf(ops, st.membership), UsersOf(ops), ExpensesOf(ops), SettlementsOf(ops),
               st.aliases, DeviceRecords(st.devices), ConfirmedFriends(st))
  }

  ghost function Entitler(a: Authority): Op -> bool { o => Entitled(a, o) }

  ghost function EntitledOps(ops: seq<Op>): seq<Op>
    requires IdsUnique(Elems(ops))
  {
    Filter(ops, Entitler(AuthorityOf(ops)))
  }

  /** The read model of a log. */
  ghost function FoldOf(ops: seq<Op>): Projection
    requires IdsUnique(Elems(ops))
  {
    Assembled(EntitledOps(ops), StandingOf(Elems(ops)))
  }

  // ---------- The accumulator ----------

  class Folder {
    var groupCreated: set<GroupId>
    var groupName: map<GroupId, Stamped<string>>
    var groupCurrency: map<GroupId, Stamped<string>>
    var groupClosedUntil: map<GroupId, Stamped<int>>
    var profiles: map<UserId, Stamped<string>>
    var agreementKeys: map<UserId, Stamped<string>>
    var expenseGroup: map<ExpenseId, Stamped<Option<GroupId>>>
    var expenseVersion: map<ExpenseId, Stamped<ExpenseFields>>
    var expenseLocked: map<ExpenseId, Stamped<bool>>
    var expensePublished: set<ExpenseId>
    var expenseVoided: set<ExpenseId>
    var settlements: map<SettlementId, Stamped<SettlementRecord>>
    var settlementVoided: set<SettlementId>

    ghost predicate HoldsGroups(ops: seq<Op>)
      reads this`groupCreated, this`groupName, this`groupCurrency, this`groupClosedUntil
    {
      && groupCreated == Facts(ops, GroupFact)
      && groupName == Register(ops, NameWrite)
      && groupCurrency == Register(ops, CurrencyWrite)
      && groupClosedUntil == Register(ops, ClosedWrite)
    }

    ghost predicate HoldsUsers(ops: seq<Op>)
      reads this`profiles, this`agreementKeys
    {
      profiles == Register(ops, ProfileWrite) && agreementKeys == Register(ops, KeyWrite)
    }

    ghost predicate HoldsExpenses(ops: seq<Op>)
      reads this`expenseGroup, this`expenseVersion, this`expenseLocked, this`expensePublished, this`expenseVoided
    {
      && expenseGroup == Register(ops, HomeWrite)
      && expenseVersion == Register(ops, VersionWrite)
      && expenseLocked == Register(ops, LockWrite)
      && expensePublished == Facts(ops, PublishFact)
      && expenseVoided == Facts(ops, VoidFact)
    }

    ghost predicate HoldsSettlements(ops: seq<Op>)
      reads this`settlements, this`settlementVoided
    {
      settlements == Register(ops, SettlementWrite) && settlementVoided == Facts(ops, VoidSettlementFact)
    }

    /** Every field is the register or set of the ops applied so far. */
    ghost predicate Holds(ops: seq<Op>)
      reads this
    {
      HoldsGroups(ops) && HoldsUsers(ops) && HoldsExpenses(ops) && HoldsSettlements(ops)
    }

    constructor ()
      ensures Holds([])
    {
      groupCreated, expensePublished, expenseVoided, settlementVoided := {}, {}, {}, {};
      groupName, groupCurrency, groupClosedUntil := map[], map[], map[];
      profiles, agreementKeys := map[], map[];
      expenseGroup, expenseVersion, expenseLocked, settlements := map[], map[], map[], map[];
    }

    method ApplyGroupOp(op: Op, ghost ops: seq<Op>)
      requires HoldsGroups(ops)
      modifies this`groupCreated, this`groupName, this`groupCurrency, this`groupClosedUntil
      ensures HoldsGroups(ops + [op])
    {
      hide Register, Facts, Lww;
      GroupsStep(ops, op);
      match op.kind {
        case CreateGroup(group, name) =>
          groupCreated := groupCreated + {group};
          groupName := Lww(groupName, group, Stamped(op.hlc, name));
        case SetGroupName(group, name) =>
          groupName := Lww(groupName, group, Stamped(op.hlc, name));
        case SetGroupCurrency(group, currency) =>
          groupCurrency := Lww(groupCurrency, group, Stamped(op.hlc, currency));
        case SetClosedPeriod(group, untilMs) =>
          groupClosedUntil := Lww(groupClosedUntil, group, Stamped(op.hlc, untilMs));
        case _ =>
      }
    }

    method ApplyUserOp(op: Op, ghost ops: seq<Op>)
      requires HoldsUsers(ops)
      modifies this`profiles, this`agreementKeys
      ensures HoldsUsers(ops + [op])
    {
      hide Register, Facts, Lww;
      UsersStep(ops, op);
      match op.kind {
        case UpsertProfile(user, name) =>
          profiles := Lww(profiles, user, Stamped(op.hlc, name));
        case SetAgreementKey(user, key) =>
          agreementKeys := Lww(agreementKeys, user, Stamped(op.hlc, key));
        case _ =>
      }
    }

    method ApplyExpenseOp(op: Op, ghost ops: seq<Op>)
      requires HoldsExpenses(ops)
      modifies this`expenseGroup, this`expenseVersion, this`expenseLocked, this`expensePublished, this`expenseVoided
      ensures HoldsExpenses(ops + [op])
    {
      hide Register, Facts, Lww;
      ExpensesStep(ops, op);
      match op.kind {
        case CreateExpense(expense, home, fields, draft) =>
          expenseGroup := Lww(expenseGroup, expense, Stamped(op.hlc, home));
          expenseVersion := Lww(expenseVersion, expense, Stamped(op.hlc, fields));
          if !draft { expensePublished := expensePublished + {expense}; }
        case EditExpense(expense, fields) =>
          expenseVersion := Lww(expenseVersion, expense, Stamped(op.hlc, fields));
        case PublishExpense(expense) =>
          expensePublished := expensePublished + {expense};
        case VoidExpense(expense) =>
          expenseVoided := expenseVoided + {expense};
        case SetExpenseLock(expense, locked) =>
          expenseLocked := Lww(expenseLocked, expense, Stamped(op.hlc, locked));
        case _ =>
      }
    }

    method ApplySettlementOp(op: Op, ghost ops: seq<Op>)
      requires HoldsSettlements(ops)
      modifies this`settlements, this`settlementVoided
      ensures HoldsSettlements(ops + [op])
    {
      hide Register, Facts, Lww;
      SettlementsStep(ops, op);
      match op.kind {
        case RecordSettlement(settlement, home, from, to, amount) =>
          settlements := Lww(settlements, settlement, Stamped(op.hlc, SettlementRecord(home, from, to, amount)));
        case VoidSettlement(settlement) =>
          settlementVoided := settlementVoided + {settlement};
        case _ =>
      }
    }

    /** Folds one op: each family of fields takes what the op writes to it. */
    method Apply(op: Op, ghost ops: seq<Op>)
      requires Holds(ops)
      modifies this
      ensures Holds(ops + [op])
    {
      hide Folder.HoldsGroups, Folder.HoldsUsers, Folder.HoldsExpenses, Folder.HoldsSettlements;
      ApplyGroupOp(op, ops);
      ApplyUserOp(op, ops);
      ApplyExpenseOp(op, ops);
      ApplySettlementOp(op, ops);
    }

    method AssembleGroups(t: Timelines, ghost ops: seq<Op>) returns (groups: map<GroupId, GroupRecord>)
      requires HoldsGroups(ops)
      ensures groups == GroupsOf(ops, t)
    {
      groups := map[];
      var todo := groupCreated;
      while todo != {}
        invariant todo <= groupCreated
        invariant groups == map g | g in groupCreated - todo ::
          GroupRecord(ValueOr(groupName, g, ""), ValueOr(groupCurrency, g, "USD"),
                      CurrentMembers(t, g), ValueOr(groupClosedUntil, g, 0))
      {
        hide Register, Facts, CurrentMembers, ValueOr;
        var g :| g in todo;
        groups := groups[g := GroupRecord(ValueOr(groupName, g, ""), ValueOr(groupCurrency, g, "USD"),
                                          CurrentMembers(t, g), ValueOr(groupClosedUntil, g, 0))];
        todo := todo - {g};
      }
    }

    method AssembleExpenses(ghost ops: seq<Op>) returns (expenses: map<ExpenseId, ExpenseRecord>)
      requires HoldsExpenses(ops)
      ensures expenses == ExpensesOf(ops)
    {
      expenses := map[];
      var todo := expenseVersion.Keys;
      while todo != {}
        invariant todo <= expenseVersion.Keys
        invariant expenses == map e | e in expenseVersion.Keys - todo && e !in expenseVoided && e in expenseGroup ::
          ExpenseRecord(expenseGroup[e].value, expenseVersion[e].value, ValueOr(expenseLocked, e, false),
                        e in expensePublished)
      {
        hide Register, Facts, ValueOr;
        var e :| e in todo;
        if e !in expenseVoided {
          if e in expenseGroup {
            expenses := expenses[e := ExpenseRecord(expenseGroup[e].value, expenseVersion[e].value,
                                                    ValueOr(expenseLocked, e, false), e in expensePublished)];
          }
        }
        todo := todo - {e};
      }
    }

    method AssembleSettlements(ghost ops: seq<Op>) returns (out: map<SettlementId, SettlementRecord>)
      requires HoldsSettlements(ops)
      ensures out == SettlementsOf(ops)
    {
      out := map[];
      var todo := settlements.Keys;
      while todo != {}
        invariant todo <= settlements.Keys
        invariant out == map s | s in settlements.Keys - todo && s !in settlementVoided :: settlements[s].value
      {
        hide Register, Facts;
        var s :| s in todo;
        if s !in settlementVoided { out := out[s := settlements[s].value]; }
        todo := todo - {s};
      }
    }

    method AssembleUsers(ghost ops: seq<Op>) returns (users: map<UserId, UserRecord>)
      requires HoldsUsers(ops)
      ensures users == UsersOf(ops)
    {
      users := map[];
      var todo := profiles.Keys;
      while todo != {}
        invariant todo <= profiles.Keys
        invariant users == map u | u in profiles.Keys - todo ::
          UserRecord(profiles[u].value, if u in agreementKeys then Some(agreementKeys[u].value) else None)
      {
        hide Register, Facts;
        var u :| u in todo;
        users := users[u := UserRecord(
          profiles[u].value, if u in agreementKeys then Some(agreementKeys[u].value) else None)];
        todo := todo - {u};
      }
    }

    method Assemble(a: Authority, ghost ops: seq<Op>) returns (p: Projection)
      requires Holds(ops)
      ensures p == Assembled(ops, a.standing)
    {
      hide Folder.HoldsGroups, Folder.HoldsUsers, Folder.HoldsExpenses, Folder.HoldsSettlements;
      hide GroupsOf, ExpensesOf, SettlementsOf, UsersOf;
      var groups := AssembleGroups(a.standing.membership, ops);
      var expenses := AssembleExpenses(ops);
      var recorded := AssembleSettlements(ops);
      var users := AssembleUsers(ops);
      p := Projection(groups, users, expenses, recorded, a.standing.aliases,
                      DeviceRecords(a.standing.devices), ConfirmedFriends(a.standing));
    }
  }

  // Every register and set after one more op.

  lemma {:induction false} GroupsStep(ops: seq<Op>, op: Op)
    ensures Register(ops + [op], NameWrite) == Write(Register(ops, NameWrite), op, NameWrite)
    ensures Register(ops + [op], CurrencyWrite) == Write(Register(ops, CurrencyWrite), op, CurrencyWrite)
    ensures Register(ops + [op], ClosedWrite) == Write(Register(ops, ClosedWrite), op, ClosedWrite)
    ensures Facts(ops + [op], GroupFact)
         == Facts(ops, GroupFact) + if GroupFact(op).Some? then {GroupFact(op).value} else {}
  {
    hide Register, Facts, Write;
    RegisterSnoc(ops, op, NameWrite);
    RegisterSnoc(ops, op, CurrencyWrite);
    RegisterSnoc(ops, op, ClosedWrite);
    FactsSnoc(ops, op, GroupFact);
  }

  lemma {:induction false} UsersStep(ops: seq<Op>, op: Op)
    ensures Register(ops + [op], ProfileWrite) == Write(Register(ops, ProfileWrite), op, ProfileWrite)
    ensures Register(ops + [op], KeyWrite) == Write(Register(ops, KeyWrite), op, KeyWrite)
  {
    hide Register, Write;
    RegisterSnoc(ops, op, ProfileWrite);
    RegisterSnoc(ops, op, KeyWrite);
  }

  lemma {:induction false} ExpensesStep(ops: seq<Op>, op: Op)
    ensures Register(ops + [op], HomeWrite) == Write(Register(ops, HomeWrite), op, HomeWrite)
    ensures Register(ops + [op], VersionWrite) == Write(Register(ops, VersionWrite), op, VersionWrite)
    ensures Register(ops + [op], LockWrite) == Write(Register(ops, LockWrite), op, LockWrite)
    ensures Facts(ops + [op], PublishFact)
         == Facts(ops, PublishFact) + if PublishFact(op).Some? then {PublishFact(op).value} else {}
    ensures Facts(ops + [op], VoidFact)
         == Facts(ops, VoidFact) + if VoidFact(op).Some? then {VoidFact(op).value} else {}
  {
    hide Register, Facts, Write;
    RegisterSnoc(ops, op, HomeWrite);
    RegisterSnoc(ops, op, VersionWrite);
    RegisterSnoc(ops, op, LockWrite);
    FactsSnoc(ops, op, PublishFact);
    FactsSnoc(ops, op, VoidFact);
  }

  lemma {:induction false} SettlementsStep(ops: seq<Op>, op: Op)
    ensures Register(ops + [op], SettlementWrite) == Write(Register(ops, SettlementWrite), op, SettlementWrite)
    ensures Facts(ops + [op], VoidSettlementFact)
         == Facts(ops, VoidSettlementFact) + if VoidSettlementFact(op).Some? then {VoidSettlementFact(op).value} else {}
  {
    hide Register, Facts, Write;
    RegisterSnoc(ops, op, SettlementWrite);
    FactsSnoc(ops, op, VoidSettlementFact);
  }

  lemma {:induction false} AssembledAlike(ops: seq<Op>, a: Standing, b: Standing)
    requires SameView(a, b)
    ensures Assembled(ops, a) == Assembled(ops, b)
  {
    hide Register, Facts, ConfirmedFriends, ExpensesOf, SettlementsOf, UsersOf, IsMemberAsOf, CurrentMembers;
    FriendsAlike(a, b);
    assert GroupsOf(ops, a.membership) == GroupsOf(ops, b.membership);
  }

  /** Derives authority from the whole log, then applies the entitled ops in log order. */
  method Fold(ops: seq<Op>) returns (p: Projection)
    requires IdsUnique(Elems(ops))
    ensures p == FoldOf(ops)
  {
    hide SameView, AuthorityOf, Entitled, Assembled, StandingOf;
    var authority := Build(ops);
    ghost var keep := Entitler(AuthorityOf(ops));
    var folder := new Folder();
    assert ops[..0] == [];
    for i := 0 to |ops|
      invariant folder.Holds(Filter(ops[..i], keep))
    {
      hide Folder.Holds, Filter;
      assert ops[..i + 1] == ops[..i] + [ops[i]];
      FilterSnoc(ops[..i], ops[i], keep);
      VerdictsAlike(authority, AuthorityOf(ops), ops[i]);
      if Entitled(authority, ops[i]) {
        folder.Apply(ops[i], Filter(ops[..i], keep));
      } else {
        assert Filter(ops[..i], keep) + [] == Filter(ops[..i], keep);
      }
    }
    assert ops[..|ops|] == ops;
    p := folder.Assemble(authority, EntitledOps(ops));
    SameStanding(ops, authority);
    AssembledAlike(EntitledOps(ops), authority.standing, StandingOf(Elems(ops)));
  }

  lemma {:induction false} SameStanding(ops: seq<Op>, a: Authority)
    requires IdsUnique(Elems(ops)) && SameAuthority(a, AuthorityOf(ops))
    ensures SameView(a.standing, StandingOf(Elems(ops)))
  {
    hide SameView, StandingOf, Register;
  }

  // ---------- The materializer ----------

  predicate IdLe(a: OpId, b: OpId) { a <= b }

  ghost predicate WellKeyed(m: map<OpId, SignedOp>) { forall id | id in m :: m[id].op.id == id }

  ghost function Held(m: map<OpId, SignedOp>): set<Op> { set id | id in m :: m[id].op }

  function SortedIds(ids: set<OpId>): (r: seq<OpId>)
    ensures |r| == |ids| && forall id :: id in r <==> id in ids
  {
    assert TotalOn(ids, IdLe);
    Sorted(ids, IdLe)
  }

  /** The contents of a map of ops in id order. */
  function InIdOrder(m: map<OpId, SignedOp>): (ops: seq<Op>)
    ensures Elems(ops) == Held(m)
  {
    hide SortedIds;
    var ids := SortedIds(m.Keys);
    var ops := seq(|ids|, i requires 0 <= i < |ids| => assert ids[i] in ids; m[ids[i]].op);
    IdOrderElems(m, ids, ops);
    ops
  }

  lemma {:induction false} IdOrderElems(m: map<OpId, SignedOp>, ids: seq<OpId>, ops: seq<Op>)
    requires forall id :: id in ids <==> id in m.Keys
    requires |ops| == |ids| && forall i | 0 <= i < |ids| :: ids[i] in m && ops[i] == m[ids[i]].op
    ensures Elems(ops) == Held(m)
  {
    forall id | id in m ensures m[id].op in Elems(ops) {
      assert id in ids;
      var i :| 0 <= i < |ids| && ids[i] == id;
      assert ops[i] in ops;
    }
    forall o | o in Elems(ops) ensures o in Held(m) {
      var i :| 0 <= i < |ops| && ops[i] == o;
      assert ids[i] in ids;
    }
  }

  /** Ids, and with them the contents of a keyed map, are listed in ascending order. */
  lemma {:induction false} IdOrderAscends(m: map<OpId, SignedOp>, i: nat, j: nat)
    requires WellKeyed(m) && i < j < |m|
    ensures var ids := SortedIds(m.Keys); |ids| == |m| && ids[i] < ids[j]
    ensures |InIdOrder(m)| == |m| && InIdOrder(m)[i].id < InIdOrder(m)[j].id
  {
    var ids := SortedIds(m.Keys);
    assert TotalOn(m.Keys, IdLe);
    assert ids[i] in ids && ids[j] in ids;
  }

  lemma {:induction false} WellKeyedIds(m: map<OpId, SignedOp>)
    requires WellKeyed(m)
    ensures IdsUnique(Held(m)) && IdsUnique(Elems(InIdOrder(m)))
  {
    hide InIdOrder;
  }

  /** Retains ops by id, keeping the first, and folds them in id order on demand. */
  class Materializer {
    var ops: map<OpId, SignedOp>

    ghost predicate Valid()
      reads this
    {
      WellKeyed(ops)
    }

    constructor ()
      ensures ops == map[] && Valid()
    {
      ops := map[];
    }

    method Apply(o: SignedOp)
      requires Valid()
      modifies this
      ensures Valid() && ops == Retain(old(ops), o)
    {
      if o.op.id !in ops { ops := ops[o.op.id := o]; }
    }

    method ApplyAll(batch: seq<SignedOp>)
      requires Valid()
      modifies this
      ensures Valid() && ops == RetainAll(old(ops), batch)
    {
      for i := 0 to |batch|
        invariant Valid() && ops == RetainAll(old(ops), batch[..i])
      {
        assert batch[..i + 1][..i] == batch[..i];
        Apply(batch[i]);
      }
      assert batch[..|batch|] == batch;
    }

    method Project() returns (p: Projection)
      requires Valid()
      ensures IdsUnique(Elems(InIdOrder(ops))) && p == FoldOf(InIdOrder(ops))
    {
      hide FoldOf;
      WellKeyedIds(ops);
      p := Fold(InIdOrder(ops));
    }
  }

  function Retain(m: map<OpId, SignedOp>, o: SignedOp): map<OpId, SignedOp> {
    if o.op.id in m then m else m[o.op.id := o]
  }

  function RetainAll(m: map<OpId, SignedOp>, batch: seq<SignedOp>): map<OpId, SignedOp> {
    if batch == [] then m else Retain(RetainAll(m, batch[..|batch| - 1]), batch[|batch| - 1])
  }

  /** What is retained under an id stays; otherwise the first op of the batch with that id is. */
  lemma {:induction false} FirstIsRetained(m: map<OpId, SignedOp>, batch: seq<SignedOp>, id: OpId)
    ensures var r := RetainAll(m, batch);
            && (id in m ==> id in r && r[id] == m[id])
            && (id in r && id !in m ==>
                  exists i :: 0 <= i < |batch| && batch[i] == r[id] && batch[i].op.id == id
                           && forall j | 0 <= j < i :: batch[j].op.id != id)
            && (forall o | o in batch :: o.op.id in r)
  {
    if batch != [] {
      var n := |batch| - 1;
      FirstIsRetained(m, batch[..n], id);
      var before := RetainAll(m, batch[..n]);
      forall o | o in batch ensures o.op.id in RetainAll(m, batch) {
        if o != batch[n] { assert o in batch[..n]; FirstIsRetained(m, batch[..n], o.op.id); }
      }
      if id in before && id !in m {
        var i :| 0 <= i < n && batch[..n][i] == before[id] && batch[..n][i].op.id == id
              && forall j | 0 <= j < i :: batch[..n][j].op.id != id;
        assert batch[i] == before[id];
        forall j | 0 <= j < i ensures batch[j].op.id != id { assert batch[..n][j].op.id != id; }
      }
      if id !in before && batch[n].op.id == id {
        forall j | 0 <= j < n ensures batch[j].op.id != id { assert batch[j] in batch[..n]; }
      }
    }
  }
}
