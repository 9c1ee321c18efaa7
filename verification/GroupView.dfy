// Per-group balances: the one-pass view of one's own net in every group, and the decomposition of
// the overall net into groups.
module GroupView {
  import opened Sums
  import opened Operations
  import opened Aliases
  import opened Materialization
  import opened Splitting
  import opened Debt
  import opened Balances
  import opened FriendView

  // ---------- Sub-projections ----------

  /** The expenses and settlements that belong to `home`, with the alias map; the rest is left empty. */
  function Part(p: Projection, home: Option<GroupId>): Projection {
    Projection(map[], map[],
               map id | id in p.expenses && p.expenses[id].group == home :: p.expenses[id],
               map id | id in p.settlements && p.settlements[id].group == home :: p.settlements[id],
               p.aliases, map[], map[])
  }

  function ForGroup(p: Projection, g: GroupId): Projection { Part(p, Some(g)) }

  // ---------- The one-pass view ----------

  ghost function MyExpense(p: Projection, me: UserId, g: GroupId): ExpenseId -> int {
    id => if id in p.expenses && p.expenses[id].group == Some(g) then ExpenseFlow(p, As(p.aliases, me))(id) else 0
  }

  /** What a settlement of `g` moves for `me`. */
  ghost function MySettlement(p: Projection, me: UserId, g: GroupId): SettlementId -> int {
    id => if id in p.settlements && p.settlements[id].group == Some(g)
          then MineOf(Resolve(p.aliases, p.settlements[id].from), Resolve(p.aliases, p.settlements[id].to),
                      p.settlements[id].amount, me)
          else 0
  }

  ghost function MyNet(p: Projection, me: UserId, g: GroupId): int {
    Sum(p.expenses.Keys, MyExpense(p, me, g)) + Sum(p.settlements.Keys, MySettlement(p, me, g))
  }

  ghost function MyNetIn(p: Projection, me: UserId): GroupId -> int { g => MyNet(p, me, g) }

  /** What the payers who resolve to `me` paid; `ok` if every sum on the way stayed within 64 bits. */
  method MyPayments(aliases: AliasTable, f: ExpenseFields, me: UserId) returns (delta: int, ok: bool)
    ensures delta == Sum(f.paidBy.Keys, PaidPart(f, As(aliases, me)))
    ensures Abs(delta) <= PaidVolume(f) && (PaidVolume(f) <= I64_MAX ==> ok)
    ensures ok ==> Fits(delta)
  {
    NothingOfMine(f, As(aliases, me));
    hide Sum, PaidPart, As, PaidSize, PaidVolume, Fits;
    delta, ok := 0, true;
    var todo := f.paidBy.Keys;
    assert f.paidBy.Keys - todo == {};
    FitsBelow(0, 0);
    while todo != {}
      invariant todo <= f.paidBy.Keys
      invariant delta == Sum(f.paidBy.Keys - todo, PaidPart(f, As(aliases, me)))
      invariant Abs(delta) <= Sum(f.paidBy.Keys - todo, PaidSize(f))
      invariant PaidVolume(f) <= I64_MAX ==> ok
      invariant ok ==> Fits(delta)
    {
      var payer :| payer in todo;
      PaymentStep(aliases, f, me, f.paidBy.Keys - todo, payer);
      PaidSoFar(f, f.paidBy.Keys - todo, payer);
      assert f.paidBy.Keys - (todo - {payer}) == (f.paidBy.Keys - todo) + {payer};
      FitsBelow(delta + f.paidBy[payer], Sum((f.paidBy.Keys - todo) + {payer}, PaidSize(f)));
      if Resolve(aliases, payer) == me {
        delta := delta + f.paidBy[payer];
        ok := ok && Fits(delta);
      }
      todo := todo - {payer};
    }
    assert f.paidBy.Keys - todo == f.paidBy.Keys;
  }

  lemma {:induction false} NothingOfMine(f: ExpenseFields, who: UserId -> bool)
    ensures Sum({}, PaidPart(f, who)) == 0 && Sum({}, PaidSize(f)) == 0
    ensures PaidVolume(f) == Sum(f.paidBy.Keys, PaidSize(f))
  {}

  method MyDelta(aliases: AliasTable, f: ExpenseFields, me: UserId) returns (delta: int, ok: bool)
    ensures delta == Delta(f, As(aliases, me))
    ensures Abs(delta) <= FieldVolume(f) && (FieldVolume(f) <= I64_MAX ==> ok)
    ensures ok ==> Fits(delta)
  {
    DeltaIsParts(f, As(aliases, me));
    hide PaidVolume, OwedVolume, PaidSize, OwedSize, FieldVolume, Delta, Sum, Range, PaidPart, OwedPart, As, Fits;
    delta, ok := MyPayments(aliases, f, me);
    NothingOwed(aliases, f);
    VolumesAreSizes(f);
    VolumeIsSizes(f);
    for i := 0 to |f.splits|
      invariant delta == Sum(f.paidBy.Keys, PaidPart(f, As(aliases, me))) - Sum(Range(i), OwedPart(f, As(aliases, me)))
      invariant Abs(delta) <= PaidVolume(f) + Sum(Range(i), OwedSize(f))
      invariant FieldVolume(f) <= I64_MAX ==> ok
      invariant ok ==> Fits(delta)
    {
      SplitStep(aliases, f, me, i);
      OwedSoFar(f, i);
      FitsBelow(delta - f.splits[i].owed, PaidVolume(f) + Sum(Range(i + 1), OwedSize(f)));
      if Resolve(aliases, f.splits[i].user) == me {
        delta := delta - f.splits[i].owed;
        ok := ok && Fits(delta);
      }
    }
  }

  lemma DeltaIsParts(f: ExpenseFields, who: UserId -> bool)
    ensures Delta(f, who) == Sum(f.paidBy.Keys, PaidPart(f, who)) - Sum(Range(|f.splits|), OwedPart(f, who))
  {}

  lemma FitsBelow(x: int, room: int)
    ensures Abs(x) <= room <= I64_MAX ==> Fits(x)
  {}

  /** The nets, and whether every checked operator stayed within 64 bits, as it does below the ledger's volume. */
  method MyNetByGroup(p: Projection, user: UserId) returns (out: map<GroupId, int>, ok: bool)
    ensures Shows(out, MyNetIn(p, Resolve(p.aliases, user)))
    ensures forall g :: g in out <==> MyNet(p, Resolve(p.aliases, user), g) != 0
    ensures LedgerVolume(p) <= I64_MAX ==> ok
    ensures ok ==> forall g | g in out :: Fits(out[g])
  {
    hide Sum, BalanceOf, Delta, Post, MyExpense, MySettlement, Resolve, Bounded, AllFit, LedgerVolume, ExpenseVolume;
    hide FieldVolume, Fits;
    var me := Resolve(p.aliases, user);
    out, ok := map[], true;
    var todo := p.expenses.Keys;
    assert p.expenses.Keys - todo == {};
    NothingMine(p, me);
    while todo != {}
      invariant todo <= p.expenses.Keys
      invariant forall g :: BalanceOf(out, g) == Sum(p.expenses.Keys - todo, MyExpense(p, me, g))
      invariant Bounded(out, Sum(p.expenses.Keys - todo, ExpenseVolume(p)))
      invariant LedgerVolume(p) <= I64_MAX ==> ok
      invariant ok ==> AllFit(out)
    {
      var id :| id in todo;
      ghost var done := p.expenses.Keys - todo;
      assert p.expenses.Keys - (todo - {id}) == done + {id};
      var e := p.expenses[id];
      MineSoFar(p, me, done, id);
      if e.group.Some? && e.published {
        var fits: bool;
        out, fits := PostMyDelta(p.aliases, e.fields, out, e.group.value, me, Sum(done, ExpenseVolume(p)));
        ok := ok && fits;
      } else {
        BoundedWider(out, Sum(done, ExpenseVolume(p)), Sum(done + {id}, ExpenseVolume(p)));
      }
      todo := todo - {id};
    }
    assert p.expenses.Keys - todo == p.expenses.Keys;
    var settled: bool;
    out, settled := FoldMySettlements(p, me, out, Sum(p.expenses.Keys, ExpenseVolume(p)));
    ok := ok && settled;
    MineIsSums(p, me);
    ghost var all := out;
    out := RetainNonZero(out, MyNetIn(p, me));
    ShownFit(all, out, MyNetIn(p, me), LedgerVolume(p));
  }

  lemma {:induction false} NothingMine(p: Projection, me: UserId)
    ensures forall g :: Sum({}, MyExpense(p, me, g)) == 0 && BalanceOf(map[], g) == 0
    ensures Sum({}, ExpenseVolume(p)) == 0 && Bounded(map[], 0) && AllFit(map[])
  {
    hide MyExpense, ExpenseVolume;
  }

  lemma {:induction false} MineIsSums(p: Projection, me: UserId)
    ensures forall g :: MyNetIn(p, me)(g)
                     == Sum(p.expenses.Keys, MyExpense(p, me, g)) + Sum(p.settlements.Keys, MySettlement(p, me, g))
    ensures LedgerVolume(p) == Sum(p.expenses.Keys, ExpenseVolume(p)) + Sum(p.settlements.Keys, SettlementVolume(p))
  {
    hide Sum, MyExpense, MySettlement, ExpenseVolume, SettlementVolume;
  }

  /** One more expense: what it adds to the entry of its group, and to the volume. */
  lemma {:induction false} MineSoFar(p: Projection, me: UserId, done: set<ExpenseId>, id: ExpenseId)
    requires done <= p.expenses.Keys && id in p.expenses && id !in done
    ensures var e := p.expenses[id];
            && (forall g :: Sum(done + {id}, MyExpense(p, me, g))
                         == Sum(done, MyExpense(p, me, g))
                            + if e.group == Some(g) && e.published then Delta(e.fields, As(p.aliases, me)) else 0)
            && Sum(done + {id}, ExpenseVolume(p))
               == Sum(done, ExpenseVolume(p)) + (if e.published then FieldVolume(e.fields) else 0) <= LedgerVolume(p)
            && FieldVolume(e.fields) >= 0
  {
    hide Sum, Delta, MyExpense, PaidVolume, OwedVolume, LedgerVolume;
    forall g ensures Sum(done + {id}, MyExpense(p, me, g))
                  == Sum(done, MyExpense(p, me, g))
                     + if p.expenses[id].group == Some(g) && p.expenses[id].published
                       then Delta(p.expenses[id].fields, As(p.aliases, me)) else 0 {
      MyExpenseStep(p, me, g, done, id);
    }
    SumInsert(done, ExpenseVolume(p), id);
    VolumesOf(p, done + {id});
    VolumesAreSizes(p.expenses[id].fields);
  }

  /** Posts the viewer's share in one expense to its group, unless it is nothing. */
  method PostMyDelta(aliases: AliasTable, f: ExpenseFields, out0: map<GroupId, int>, group: GroupId, me: UserId,
                     ghost room: int)
    returns (out: map<GroupId, int>, ok: bool)
    requires Bounded(out0, room)
    ensures forall g :: BalanceOf(out, g) == BalanceOf(out0, g) + if g == group then Delta(f, As(aliases, me)) else 0
    ensures Bounded(out, room + FieldVolume(f)) && (room + FieldVolume(f) <= I64_MAX ==> ok)
    ensures ok && AllFit(out0) ==> AllFit(out)
  {
    hide BalanceOf, Delta, Post, Bounded, AllFit, Fits, FieldVolume;
    out := out0;
    RoomIsNatural(out0, room);
    var delta: int;
    delta, ok := MyDelta(aliases, f, me);
    if delta != 0 {
      PostAdds(out0, group, delta);
      PostStaysBounded(out0, group, delta, room);
      out := Post(out0, group, delta);
      ok := ok && Fits(BalanceOf(out, group));
      BoundedWider(out, room + Abs(delta), room + FieldVolume(f));
    } else {
      BoundedWider(out, room, room + FieldVolume(f));
    }
  }

  method FoldMySettlements(p: Projection, me: UserId, out0: map<GroupId, int>, ghost room: int)
    returns (out: map<GroupId, int>, ok: bool)
    requires Bounded(out0, room)
    ensures forall g :: BalanceOf(out, g) == BalanceOf(out0, g) + Sum(p.settlements.Keys, MySettlement(p, me, g))
    ensures Bounded(out, room + Sum(p.settlements.Keys, SettlementVolume(p)))
    ensures room + Sum(p.settlements.Keys, SettlementVolume(p)) <= I64_MAX ==> ok
    ensures ok && AllFit(out0) ==> AllFit(out)
  {
    hide Sum, BalanceOf, MySettlement, SettlementVolume, Resolve, Bounded, AllFit, MineOf;
    out, ok := out0, true;
    var todo := p.settlements.Keys;
    assert p.settlements.Keys - todo == {};
    NoneOfMine(p, me);
    while todo != {}
      invariant todo <= p.settlements.Keys
      invariant forall g ::
        BalanceOf(out, g) == BalanceOf(out0, g) + Sum(p.settlements.Keys - todo, MySettlement(p, me, g))
      invariant Bounded(out, room + Sum(p.settlements.Keys - todo, SettlementVolume(p)))
      invariant room + Sum(p.settlements.Keys, SettlementVolume(p)) <= I64_MAX ==> ok
      invariant ok && AllFit(out0) ==> AllFit(out)
    {
      var id :| id in todo;
      ghost var done := p.settlements.Keys - todo;
      assert p.settlements.Keys - (todo - {id}) == done + {id};
      var s := p.settlements[id];
      var from, to := Resolve(p.aliases, s.from), Resolve(p.aliases, s.to);
      forall g ensures Sum(done + {id}, MySettlement(p, me, g))
                    == Sum(done, MySettlement(p, me, g))
                       + if s.group == Some(g) then MineOf(from, to, s.amount, me) else 0 {
        MySettlementStep(p, me, g, done, id);
      }
      SettledSoFar(p, done, id);
      if s.group.Some? {
        var fits: bool;
        out, fits := PostMine(out, s.group.value, from, to, s.amount, me, room + Sum(done, SettlementVolume(p)));
        ok := ok && fits;
      } else {
        BoundedWider(out, room + Sum(done, SettlementVolume(p)), room + Sum(done + {id}, SettlementVolume(p)));
      }
      todo := todo - {id};
    }
    assert p.settlements.Keys - todo == p.settlements.Keys;
  }

  lemma {:induction false} NoneOfMine(p: Projection, me: UserId)
    ensures forall g :: Sum({}, MySettlement(p, me, g)) == 0
    ensures Sum({}, SettlementVolume(p)) == 0
  {
    hide MySettlement, SettlementVolume;
  }

  /** What a settlement moves for `me`: the paying end is looked at first. */
  function MineOf(from: UserId, to: UserId, amount: int, me: UserId): int {
    if from == me then amount else if to == me then -amount else 0
  }

  /** Posts a settlement of `group` for `me`. */
  method PostMine(out0: map<GroupId, int>, group: GroupId, from: UserId, to: UserId, amount: int, me: UserId,
                  ghost room: int)
    returns (out: map<GroupId, int>, ok: bool)
    requires Bounded(out0, room)
    ensures forall g :: BalanceOf(out, g) == BalanceOf(out0, g) + if g == group then MineOf(from, to, amount, me) else 0
    ensures Bounded(out, room + Abs(amount)) && (room + Abs(amount) <= I64_MAX ==> ok)
    ensures ok && AllFit(out0) ==> AllFit(out)
  {
    hide Post, BalanceOf, Bounded, AllFit;
    out, ok := out0, true;
    BoundedWider(out0, room, room + Abs(amount));
    if from == me {
      PostAdds(out, group, amount);
      PostStaysBounded(out, group, amount, room);
      out := Post(out, group, amount);
      ok := Fits(BalanceOf(out, group));
    } else if to == me {
      PostAdds(out, group, -amount);
      PostStaysBounded(out, group, -amount, room);
      out := Post(out, group, -amount);
      ok := Fits(BalanceOf(out, group));
    }
  }

  lemma {:induction false} MyExpenseStep(p: Projection, me: UserId, g: GroupId, done: set<ExpenseId>, id: ExpenseId)
    requires id in p.expenses && id !in done
    ensures var e := p.expenses[id];
            Sum(done + {id}, MyExpense(p, me, g))
            == Sum(done, MyExpense(p, me, g))
               + if e.group == Some(g) && e.published then Delta(e.fields, As(p.aliases, me)) else 0
  {
    SumInsert(done, MyExpense(p, me, g), id);
    assert MyExpense(p, me, g)(id)
       == if p.expenses[id].group == Some(g) then ExpenseFlow(p, As(p.aliases, me))(id) else 0;
  }

  lemma {:induction false} MySettlementStep(
      p: Projection, me: UserId, g: GroupId, done: set<SettlementId>, id: SettlementId)
    requires id in p.settlements && id !in done
    ensures var s := p.settlements[id]; var from, to := Resolve(p.aliases, s.from), Resolve(p.aliases, s.to);
            Sum(done + {id}, MySettlement(p, me, g))
            == Sum(done, MySettlement(p, me, g))
               + if s.group == Some(g) then MineOf(from, to, s.amount, me) else 0
  {
    SumInsert(done, MySettlement(p, me, g), id);
  }

  // ---------- Refinement of the slow view ----------

  /** The flow of a part, summed over the whole ledger with the other records silenced. */
  ghost function ExpenseFlowAt(p: Projection, who: UserId -> bool, home: Option<GroupId>): ExpenseId -> int {
    id => if id in p.expenses && p.expenses[id].group == home then ExpenseFlow(p, who)(id) else 0
  }

  ghost function SettlementFlowAt(p: Projection, who: UserId -> bool, home: Option<GroupId>): SettlementId -> int {
    id => if id in p.settlements && p.settlements[id].group == home then SettlementFlow(p, who)(id) else 0
  }

  lemma {:induction false} PartFlow(p: Projection, who: UserId -> bool, home: Option<GroupId>)
    ensures Flow(Part(p, home), who)
         == Sum(p.expenses.Keys, ExpenseFlowAt(p, who, home)) + Sum(p.settlements.Keys, SettlementFlowAt(p, who, home))
  {
    hide Sum;
    PartExpenses(p, who, home);
    PartSettlements(p, who, home);
  }

  lemma {:induction false} PartExpenses(p: Projection, who: UserId -> bool, home: Option<GroupId>)
    ensures Sum(Part(p, home).expenses.Keys, ExpenseFlow(Part(p, home), who))
         == Sum(p.expenses.Keys, ExpenseFlowAt(p, who, home))
  {
    hide Delta, Sum;
    var q := Part(p, home);
    forall id | id in p.expenses.Keys - q.expenses.Keys ensures ExpenseFlowAt(p, who, home)(id) == 0 {}
    SumSupport(p.expenses.Keys, q.expenses.Keys, ExpenseFlowAt(p, who, home));
    forall id | id in q.expenses.Keys ensures ExpenseFlowAt(p, who, home)(id) == ExpenseFlow(q, who)(id) {
      assert q.expenses[id] == p.expenses[id];
      assert ExpenseFlow(p, who)(id) == ExpenseFlow(q, who)(id);
    }
    SumCongruent(q.expenses.Keys, ExpenseFlowAt(p, who, home), ExpenseFlow(q, who));
  }

  lemma {:induction false} PartSettlements(p: Projection, who: UserId -> bool, home: Option<GroupId>)
    ensures Sum(Part(p, home).settlements.Keys, SettlementFlow(Part(p, home), who))
         == Sum(p.settlements.Keys, SettlementFlowAt(p, who, home))
  {
    hide Sum;
    var q := Part(p, home);
    forall id | id in p.settlements.Keys - q.settlements.Keys ensures SettlementFlowAt(p, who, home)(id) == 0 {}
    SumSupport(p.settlements.Keys, q.settlements.Keys, SettlementFlowAt(p, who, home));
    forall id | id in q.settlements.Keys ensures SettlementFlowAt(p, who, home)(id) == SettlementFlow(q, who)(id) {
      assert q.settlements[id] == p.settlements[id];
      assert SettlementFlow(p, who)(id) == SettlementFlow(q, who)(id);
    }
    SumCongruent(q.settlements.Keys, SettlementFlowAt(p, who, home), SettlementFlow(q, who));
  }

  /** The self-settled amounts of a group, summed over the whole ledger. */
  ghost function SelfSettledAt(p: Projection, me: UserId, g: GroupId): SettlementId -> int {
    id => if id in p.settlements && p.settlements[id].group == Some(g) then SelfSettled(p, me)(id) else 0
  }

  lemma {:induction false} PartSelfSettled(p: Projection, me: UserId, g: GroupId)
    ensures SelfSettledTotal(ForGroup(p, g), me) == Sum(p.settlements.Keys, SelfSettledAt(p, me, g))
  {
    hide Sum, Resolve;
    var q := ForGroup(p, g);
    forall id | id in p.settlements.Keys - q.settlements.Keys ensures SelfSettledAt(p, me, g)(id) == 0 {}
    SumSupport(p.settlements.Keys, q.settlements.Keys, SelfSettledAt(p, me, g));
    forall id | id in q.settlements.Keys ensures SelfSettledAt(p, me, g)(id) == SelfSettled(q, me)(id) {
      assert q.settlements[id] == p.settlements[id];
      assert SelfSettled(p, me)(id) == SelfSettled(q, me)(id);
    }
    SumCongruent(q.settlements.Keys, SelfSettledAt(p, me, g), SelfSettled(q, me));
  }

  lemma {:induction false} MySettlementParts(p: Projection, me: UserId, g: GroupId, id: SettlementId)
    requires id in p.settlements
    ensures MySettlement(p, me, g)(id)
         == SettlementFlowAt(p, As(p.aliases, me), Some(g))(id) + SelfSettledAt(p, me, g)(id)
  {
    hide Resolve;
    assert SettlementFlow(p, As(p.aliases, me))(id) + SelfSettled(p, me)(id)
        == if Resolve(p.aliases, p.settlements[id].from) == me then p.settlements[id].amount
           else if Resolve(p.aliases, p.settlements[id].to) == me then -p.settlements[id].amount else 0;
  }

  /**
   * The one-pass view of a group is the viewer's entry in the group's own net balances, plus the
   * group's settlements whose two ends both resolve to the viewer.
   */
  lemma {:induction false} OnePassRefinesSlowView(p: Projection, me: UserId, g: GroupId)
    ensures MyNet(p, me, g) == Net(ForGroup(p, g), me) + SelfSettledTotal(ForGroup(p, g), me)
  {
    hide Delta, Sum, Resolve, SelfSettledTotal;
    var who := As(p.aliases, me);
    PartFlow(p, who, Some(g));
    PartSelfSettled(p, me, g);
    forall id | id in p.expenses.Keys ensures MyExpense(p, me, g)(id) == ExpenseFlowAt(p, who, Some(g))(id) {}
    SumCongruent(p.expenses.Keys, MyExpense(p, me, g), ExpenseFlowAt(p, who, Some(g)));
    forall id | id in p.settlements.Keys
      ensures MySettlement(p, me, g)(id) == 1 * SettlementFlowAt(p, who, Some(g))(id) + SelfSettledAt(p, me, g)(id)
    {
      MySettlementParts(p, me, g, id);
    }
    SumLinear(p.settlements.Keys, 1, SettlementFlowAt(p, who, Some(g)), SelfSettledAt(p, me, g),
              MySettlement(p, me, g));
  }

  /** The documented equality of the two views holds exactly when those settlements add up to zero. */
  lemma {:induction false} OnePassMatchesIff(p: Projection, me: UserId, g: GroupId)
    ensures MyNet(p, me, g) == Net(ForGroup(p, g), me) <==> SelfSettledTotal(ForGroup(p, g), me) == 0
  {
    hide MyNet, Net, SelfSettledTotal, ForGroup;
    OnePassRefinesSlowView(p, me, g);
  }

  /** A guest of the group who repaid me one cent and was later merged into me. */
  const MERGED_IN_GROUP := Projection(map[], map[], map[], map["s" := SettlementRecord(Some("g"), "user:g", "id:m", 1)],
                                      map["user:g" := "id:m"], map[], map[])

  /** The equality fails there: the one-pass view shows a cent, the group's own balances nothing. */
  lemma {:induction false} SelfSettlementSplitsTheViews()
    ensures var p := MERGED_IN_GROUP; MyNet(p, "id:m", "g") == 1 && Net(ForGroup(p, "g"), "id:m") == 0
  {
    var p, me := MERGED_IN_GROUP, "id:m";
    hide Delta, Sum;
    assert Resolve(p.aliases, "user:g") == me && Resolve(p.aliases, me) == me;
    assert p.settlements.Keys == {"s"} && p.expenses.Keys == {};
    SumZero(p.expenses.Keys, MyExpense(p, me, "g"));
    SumSingle(p.settlements.Keys, MySettlement(p, me, "g"), "s");
    var q := ForGroup(p, "g");
    assert q.settlements.Keys == {"s"} && q.settlements["s"] == p.settlements["s"] && q.expenses.Keys == {};
    SumZero(q.expenses.Keys, ExpenseFlow(q, As(q.aliases, me)));
    SumSingle(q.settlements.Keys, SettlementFlow(q, As(q.aliases, me)), "s");
  }

  // ---------- Decomposition into groups ----------

  ghost function Homes(p: Projection): set<Option<GroupId>> {
    (set id | id in p.expenses :: p.expenses[id].group) + (set id | id in p.settlements :: p.settlements[id].group)
  }

  ghost function PartNet(p: Projection, u: UserId): Option<GroupId> -> int { home => Net(Part(p, home), u) }

  ghost function ExpenseRow(p: Projection, who: UserId -> bool): Option<GroupId> -> ExpenseId -> int {
    home => ExpenseFlowAt(p, who, home)
  }

  ghost function ExpenseCell(p: Projection, who: UserId -> bool, id: ExpenseId): Option<GroupId> -> int {
    home => ExpenseFlowAt(p, who, home)(id)
  }

  ghost function ExpenseCells(p: Projection, who: UserId -> bool): ExpenseId -> Option<GroupId> -> int {
    id => ExpenseCell(p, who, id)
  }

  ghost function SettlementRow(p: Projection, who: UserId -> bool): Option<GroupId> -> SettlementId -> int {
    home => SettlementFlowAt(p, who, home)
  }

  ghost function SettlementCell(p: Projection, who: UserId -> bool, id: SettlementId): Option<GroupId> -> int {
    home => SettlementFlowAt(p, who, home)(id)
  }

  ghost function SettlementCells(p: Projection, who: UserId -> bool): SettlementId -> Option<GroupId> -> int {
    id => SettlementCell(p, who, id)
  }

  /** A user's overall net is the sum over all groups, and the part outside any group. */
  lemma {:induction false} NetSplitsByGroup(p: Projection, u: UserId)
    ensures Net(p, u) == Sum(Homes(p), PartNet(p, u))
  {
    hide Sum, Delta;
    var who, homes := As(p.aliases, u), Homes(p);
    var expenseSum: Option<GroupId> -> int := home => Sum(p.expenses.Keys, ExpenseFlowAt(p, who, home));
    var settlementSum: Option<GroupId> -> int := home => Sum(p.settlements.Keys, SettlementFlowAt(p, who, home));
    forall home ensures PartNet(p, u)(home) == 1 * expenseSum(home) + settlementSum(home) { PartFlow(p, who, home); }
    SumLinear(homes, 1, expenseSum, settlementSum, PartNet(p, u));
    forall id | id in p.expenses.Keys ensures ExpenseFlow(p, who)(id) == Sum(homes, ExpenseCells(p, who)(id)) {
      SumSingle(homes, ExpenseCell(p, who, id), p.expenses[id].group);
    }
    SumExchange(homes, p.expenses.Keys, expenseSum, ExpenseFlow(p, who), ExpenseRow(p, who), ExpenseCells(p, who));
    forall id | id in p.settlements.Keys ensures SettlementFlow(p, who)(id) == Sum(homes, SettlementCells(p, who)(id)) {
      SumSingle(homes, SettlementCell(p, who, id), p.settlements[id].group);
    }
    SumExchange(homes, p.settlements.Keys, settlementSum, SettlementFlow(p, who), SettlementRow(p, who),
                SettlementCells(p, who));
  }
}
