// From signed ops to money: balances of a folded log.
module Ledger {
  import opened Sums
  import opened Operations
  import opened Aliases
  import opened Materialization
  import opened Convergence
  import opened Policy
  import opened Expenses
  import opened Debt
  import opened Balances

  /** Every create and edit carries a version whose payments equal its splits. */
  ghost predicate VersionsReconcile(ops: seq<Op>) {
    forall o | o in ops && (o.kind.CreateExpense? || o.kind.EditExpense?) ::
      TotalPaid(o.kind.fields) == TotalOwed(o.kind.fields)
  }

  /** Whole versions win or lose, so a folded ledger reconciles whenever every version does. */
  lemma {:induction false} FoldReconciles(ops: seq<Op>)
    requires IdsUnique(Elems(ops)) && VersionsReconcile(ops)
    ensures Reconciles(FoldOf(ops))
  {
    hide FoldOf, TotalPaid, TotalOwed, IdsUnique;
    forall id | id in FoldOf(ops).expenses
      ensures TotalPaid(FoldOf(ops).expenses[id].fields) == TotalOwed(FoldOf(ops).expenses[id].fields)
    {
      var version, create := ExpenseContents(ops, id);
    }
  }

  /** The net balances of any log of reconciling versions add up to zero, whatever was merged. */
  lemma {:induction false} LedgerIsZeroSum(ops: seq<Op>, aliases: AliasTable, net: map<UserId, int>)
    requires IdsUnique(Elems(ops)) && VersionsReconcile(ops)
    requires Shows(net, NetIn(FoldOf(ops).(aliases := aliases)))
    ensures Sum(net.Keys, BalanceIn(net)) == 0
  {
    hide FoldOf, Net, IdsUnique;
    FoldReconciles(ops);
    SettlingUpClears(FoldOf(ops).(aliases := aliases), net, "");
  }

  /** Logs with the same ops give every user the same balance. */
  lemma {:induction false} BalancesConverge(a: seq<Op>, b: seq<Op>, u: UserId)
    requires Elems(a) == Elems(b) && IdsUnique(Elems(a)) && NoConflicts(a)
    ensures Net(FoldOf(a), u) == Net(FoldOf(b), u)
  {
    hide FoldOf, Net;
    FoldIsOrderFree(a, b);
  }

  // ---------- Paying up ----------

  /** The ledger with a payment recorded under a new id. */
  function Recorded(p: Projection, id: SettlementId, s: SettlementRecord): Projection {
    p.(settlements := p.settlements[id := s])
  }

  /** A recorded payment raises the payer's balance by its amount and lowers the payee's. */
  lemma {:induction false} RecordingMoves(p: Projection, id: SettlementId, s: SettlementRecord, u: UserId)
    requires id !in p.settlements
    ensures Net(Recorded(p, id, s), u)
         == Net(p, u) + (if Resolve(p.aliases, s.from) == u then s.amount else 0)
            - (if Resolve(p.aliases, s.to) == u then s.amount else 0)
  {
    hide Sum, Delta, Resolve;
    var q, who := Recorded(p, id, s), As(p.aliases, u);
    assert q.settlements.Keys == p.settlements.Keys + {id};
    SumInsert(p.settlements.Keys, SettlementFlow(q, who), id);
    SumCongruent(p.settlements.Keys, SettlementFlow(p, who), SettlementFlow(q, who));
    SumCongruent(p.expenses.Keys, ExpenseFlow(p, who), ExpenseFlow(q, who));
  }

  /** The ledger with transfers recorded one after the other. */
  function AllRecorded(p: Projection, ids: seq<SettlementId>, home: Option<GroupId>, ts: seq<Transfer>): Projection
    requires |ids| == |ts|
  {
    if ts == [] then p
    else
      var n := |ts| - 1;
      Recorded(AllRecorded(p, ids[..n], home, ts[..n]), ids[n],
               SettlementRecord(home, ts[n].from, ts[n].to, ts[n].amount))
  }

  /** Ids that are new to the ledger and differ from one another. */
  ghost predicate NewIds(p: Projection, ids: seq<SettlementId>) {
    (forall i | 0 <= i < |ids| :: ids[i] !in p.settlements) && forall i, j | 0 <= i < j < |ids| :: ids[i] != ids[j]
  }

  lemma {:induction false} RecordingAllKeeps(
      p: Projection, ids: seq<SettlementId>, home: Option<GroupId>, ts: seq<Transfer>)
    requires |ids| == |ts|
    ensures AllRecorded(p, ids, home, ts).aliases == p.aliases
    ensures AllRecorded(p, ids, home, ts).settlements.Keys == p.settlements.Keys + Elems(ids)
  {
    if ts != [] {
      var n := |ts| - 1;
      RecordingAllKeeps(p, ids[..n], home, ts[..n]);
      assert ids == ids[..n] + [ids[n]];
    }
  }

  lemma {:induction false} PaidSnoc(ts: seq<Transfer>, u: UserId)
    requires ts != []
    ensures var n := |ts| - 1;
            && Paid(ts, u) == Paid(ts[..n], u) + (if ts[n].from == u then ts[n].amount else 0)
            && Received(ts, u) == Received(ts[..n], u) + (if ts[n].to == u then ts[n].amount else 0)
  {
    var n := |ts| - 1;
    assert ts == ts[..n] + [ts[n]];
    PaidConcat(ts[..n], [ts[n]], u);
  }

  lemma {:induction false} RecordingAllMoves(
      p: Projection, ids: seq<SettlementId>, home: Option<GroupId>, ts: seq<Transfer>, u: UserId)
    requires |ids| == |ts| && NewIds(p, ids)
    requires forall t | t in ts :: Resolve(p.aliases, t.from) == t.from && Resolve(p.aliases, t.to) == t.to
    ensures Net(AllRecorded(p, ids, home, ts), u) == Net(p, u) + Paid(ts, u) - Received(ts, u)
  {
    hide Net, Resolve, Paid, Received, Recorded;
    if ts == [] {
      NothingPaid(u);
    } else {
      var n := |ts| - 1;
      var t := ts[n];
      assert t in ts;
      RecordingAllMoves(p, ids[..n], home, ts[..n], u);
      PaidSnoc(ts, u);
      RecordingAllKeeps(p, ids[..n], home, ts[..n]);
      var before := AllRecorded(p, ids[..n], home, ts[..n]);
      RecordingMoves(before, ids[n], SettlementRecord(home, t.from, t.to, t.amount), u);
    }
  }

  lemma NothingPaid(u: UserId)
    ensures Paid([], u) == 0 && Received([], u) == 0
  {}

  /** Only canonical ids have a balance. */
  lemma {:induction false} BalancesAreCanonical(p: Projection, u: UserId)
    requires forall k :: Resolve(p.aliases, Resolve(p.aliases, k)) == Resolve(p.aliases, k)
    ensures Net(p, u) != 0 ==> Resolve(p.aliases, u) == u
  {
    hide Resolve, Sum, Delta;
    if Resolve(p.aliases, u) != u {
      var none: UserId -> bool := k => false;
      FlowReads(p, p, As(p.aliases, u), none);
      FlowAdds(p, none, none, none);
    }
  }

  lemma {:induction false} FoldedAliasesSettle(ops: seq<Op>, k: UserId)
    requires IdsUnique(Elems(ops))
    ensures var p := FoldOf(ops); Resolve(p.aliases, Resolve(p.aliases, k)) == Resolve(p.aliases, k)
  {
    hide FoldOf, AliasMap, MergedPairs;
    ReadsAuthors(ops);
    ReadsEdges(ops);
    ResolveIsLeastAndIdempotent(MergedPairs(Elems(ops), FoldOf(ops)), k);
  }

  /** Recording all suggested payments of a folded ledger of reconciling versions leaves everybody at zero. */
  lemma {:induction false} PayingUpClears(
      ops: seq<Op>, net: map<UserId, int>, ids: seq<SettlementId>, home: Option<GroupId>, u: UserId)
    requires IdsUnique(Elems(ops)) && VersionsReconcile(ops) && Shows(net, NetIn(FoldOf(ops)))
    requires |ids| == |SettleBalances(net)| && NewIds(FoldOf(ops), ids)
    ensures Net(AllRecorded(FoldOf(ops), ids, home, SettleBalances(net)), u) == 0
  {
    hide FoldOf, Net, IdsUnique, Resolve, SettleBalances, Paid, Received, NewIds, AllRecorded, PairsDiffer, Side, Moved;
    var p, ts := FoldOf(ops), SettleBalances(net);
    FoldReconciles(ops);
    SettlingUpClears(p, net, u);
    SettlementIsSound(net);
    forall k { FoldedAliasesSettle(ops, k); }
    forall t | t in ts ensures Resolve(p.aliases, t.from) == t.from && Resolve(p.aliases, t.to) == t.to {
      ShownBalance(net, NetIn(p), t.from);
      ShownBalance(net, NetIn(p), t.to);
      BalancesAreCanonical(p, t.from);
      BalancesAreCanonical(p, t.to);
    }
    RecordingAllMoves(p, ids, home, ts, u);
  }
}
