// Per-friend balances: each expense is attributed to the transfers of its own settle-up, recorded
// settlements are folded in, and only what touches the viewer is kept.
module FriendView {
  import opened Sums
  import opened Operations
  import opened Aliases
  import opened Materialization
  import opened Splitting
  import opened Expenses
  import opened Debt
  import opened Balances

  // ---------- Specification ----------

  /** The non-zero nets of one expense. */
  ghost function DeltaMap(aliases: AliasTable, f: ExpenseFields): map<UserId, int> {
    map u | u in FieldUsers(aliases, f) && Delta(f, As(aliases, u)) != 0 :: Delta(f, As(aliases, u))
  }

  ghost function Transfers(aliases: AliasTable, f: ExpenseFields): seq<Transfer> {
    SettleBalances(DeltaMap(aliases, f))
  }

  /** What a transfer says of `other` to `me`: who pays me owed me, whom I pay I owed. */
  function Edge(from: UserId, to: UserId, amount: int, me: UserId, other: UserId): int {
    if to == me then (if from == other then amount else 0)
    else if from == me then (if to == other then -amount else 0)
    else 0
  }

  ghost function Edges(ts: seq<Transfer>, me: UserId, other: UserId): int {
    if ts == [] then 0
    else
      var t := ts[|ts| - 1];
      Edges(ts[..|ts| - 1], me, other) + Edge(t.from, t.to, t.amount, me, other)
  }

  ghost function ExpenseEdge(p: Projection, me: UserId, other: UserId): ExpenseId -> int {
    id => if id in p.expenses && p.expenses[id].published
          then Edges(Transfers(p.aliases, p.expenses[id].fields), me, other) else 0
  }

  /** A recorded payment is a transfer the other way round: it has already been made. */
  ghost function SettlementEdge(p: Projection, me: UserId, other: UserId): SettlementId -> int {
    id => if id in p.settlements
          then -Edge(Resolve(p.aliases, p.settlements[id].from), Resolve(p.aliases, p.settlements[id].to),
                     p.settlements[id].amount, me, other)
          else 0
  }

  /** What `other` owes `me`, both canonical. */
  ghost function Owes(p: Projection, me: UserId, other: UserId): int {
    Sum(p.expenses.Keys, ExpenseEdge(p, me, other)) + Sum(p.settlements.Keys, SettlementEdge(p, me, other))
  }

  ghost function OwesTo(p: Projection, me: UserId): UserId -> int { other => Owes(p, me, other) }

  // ---------- The pairwise_with loops ----------

  /** What one expense posts, signs aside. */
  ghost function FieldVolume(f: ExpenseFields): int { PaidVolume(f) + OwedVolume(f) }

  method ExpenseNets(aliases: AliasTable, f: ExpenseFields) returns (net: map<UserId, int>, ok: bool)
    ensures net == DeltaMap(aliases, f)
    ensures forall u | u in net :: Abs(net[u]) <= FieldVolume(f)
    ensures FieldVolume(f) <= I64_MAX ==> ok
  {
    hide Delta, PaidVolume, OwedVolume;
    var posted: map<UserId, int>;
    posted, ok := PostExpense(map[], aliases, f, 0);
    net := map u | u in posted && posted[u] != 0 :: posted[u];
    forall u ensures u in net <==> u in DeltaMap(aliases, f) {
      if Delta(f, As(aliases, u)) != 0 { DeltaNeedsUser(aliases, f, u); }
      assert BalanceOf(posted, u) == Delta(f, As(aliases, u));
    }
    forall u | u in net ensures Abs(net[u]) <= FieldVolume(f) { assert net[u] == BalanceOf(posted, u); }
  }

  lemma {:induction false} DeltaNeedsUser(aliases: AliasTable, f: ExpenseFields, u: UserId)
    requires Delta(f, As(aliases, u)) != 0
    ensures u in FieldUsers(aliases, f)
  {
    if u !in FieldUsers(aliases, f) {
      var none: UserId -> bool := k => false;
      forall k | Payer(f, k) ensures !As(aliases, u)(k) { FieldUsersCover(aliases, f, k); }
      DeltaReads(f, As(aliases, u), none);
      SumZero(f.paidBy.Keys, PaidPart(f, none));
      SumZero(Range(|f.splits|), OwedPart(f, none));
      assert false;
    }
  }

  /** What the transfers that touch `me` move. */
  ghost function EdgeVolume(ts: seq<Transfer>, me: UserId): int {
    if ts == [] then 0
    else
      var t := ts[|ts| - 1];
      EdgeVolume(ts[..|ts| - 1], me) + if t.to == me || t.from == me then Abs(t.amount) else 0
  }

  /** Folds the transfers that touch `me`. */
  method PostEdges(owed0: map<UserId, int>, ts: seq<Transfer>, me: UserId, ghost room: int)
    returns (owed: map<UserId, int>, ok: bool)
    requires Bounded(owed0, room)
    ensures forall u :: BalanceOf(owed, u) == BalanceOf(owed0, u) + Edges(ts, me, u)
    ensures Bounded(owed, room + EdgeVolume(ts, me)) && (room + EdgeVolume(ts, me) <= I64_MAX ==> ok)
    ensures ok && AllFit(owed0) ==> AllFit(owed)
  {
    owed, ok := owed0, true;
    for i := 0 to |ts|
      invariant forall u :: BalanceOf(owed, u) == BalanceOf(owed0, u) + Edges(ts[..i], me, u)
      invariant Bounded(owed, room + EdgeVolume(ts[..i], me))
      invariant room + EdgeVolume(ts[..i], me) <= I64_MAX ==> ok
      invariant ok && AllFit(owed0) ==> AllFit(owed)
    {
      hide BalanceOf, Post, Bounded, AllFit, Edges, EdgeVolume, Edge, Fits;
      var t := ts[i];
      EdgesStep(ts, i, me);
      EdgePosted(owed, t, me, room + EdgeVolume(ts[..i], me));
      if t.to == me {
        owed := Post(owed, t.from, t.amount);
        ok := ok && Fits(BalanceOf(owed, t.from));
      } else if t.from == me {
        owed := Post(owed, t.to, -t.amount);
        ok := ok && Fits(BalanceOf(owed, t.to));
      }
    }
    assert ts[..|ts|] == ts;
  }

  lemma {:induction false} EdgesStep(ts: seq<Transfer>, i: nat, me: UserId)
    requires i < |ts|
    ensures forall u ::
      Edges(ts[..i + 1], me, u) == Edges(ts[..i], me, u) + Edge(ts[i].from, ts[i].to, ts[i].amount, me, u)
    ensures EdgeVolume(ts[..i + 1], me)
         == EdgeVolume(ts[..i], me) + if ts[i].to == me || ts[i].from == me then Abs(ts[i].amount) else 0
  {
    assert ts[..i + 1][..i] == ts[..i];
  }

  /** Folding one transfer: who pays `me` owes more, whom `me` pays owes less. */
  lemma {:induction false} EdgePosted(owed: map<UserId, int>, t: Transfer, me: UserId, room: int)
    requires Bounded(owed, room)
    ensures var next := if t.to == me then Post(owed, t.from, t.amount)
                        else if t.from == me then Post(owed, t.to, -t.amount) else owed;
            var more := if t.to == me || t.from == me then Abs(t.amount) else 0;
            var fits := if t.to == me then Fits(BalanceOf(next, t.from))
                        else t.from == me ==> Fits(BalanceOf(next, t.to));
            && (forall u :: BalanceOf(next, u) == BalanceOf(owed, u) + Edge(t.from, t.to, t.amount, me, u))
            && Bounded(next, room + more)
            && (room + more <= I64_MAX ==> fits)
            && (AllFit(owed) && fits ==> AllFit(next))
  {
    hide BalanceOf, Post, Bounded, AllFit, Fits;
    if t.to == me {
      PostAdds(owed, t.from, t.amount);
      PostStaysBounded(owed, t.from, t.amount, room);
    } else if t.from == me {
      PostAdds(owed, t.to, -t.amount);
      PostStaysBounded(owed, t.to, -t.amount, room);
    }
  }

  lemma {:induction false} EdgeVolumeIsMoved(ts: seq<Transfer>, me: UserId)
    requires forall t | t in ts :: t.amount >= 0
    ensures 0 <= EdgeVolume(ts, me) <= Paid(ts, me) + Received(ts, me)
  {
    if ts != [] {
      var n := |ts| - 1;
      var t := ts[n];
      EdgeVolumeIsMoved(ts[..n], me);
      PaidConcat(ts[..n], [t], me);
      assert ts == ts[..n] + [t] && t in ts;
    }
  }

  /** The transfers of an expense bring the viewer no more than its volume. */
  lemma {:induction false} EdgeVolumeIsBounded(aliases: AliasTable, f: ExpenseFields, me: UserId)
    requires forall u | u in DeltaMap(aliases, f) :: Abs(DeltaMap(aliases, f)[u]) <= FieldVolume(f)
    ensures 0 <= EdgeVolume(Transfers(aliases, f), me) <= FieldVolume(f)
  {
    hide Delta, FieldVolume, EdgeVolume, Paid, Received, SettleBalances, DeltaMap, PairsDiffer, Moved, Side;
    VolumesAreSizes(f);
    VolumeIsSizes(f);
    SettlementIsSound(DeltaMap(aliases, f));
    EdgeVolumeIsMoved(Transfers(aliases, f), me);
  }

  lemma VolumeIsSizes(f: ExpenseFields)
    ensures FieldVolume(f) == PaidVolume(f) + OwedVolume(f)
  {}

  /** The view, and whether every checked operator stayed within 64 bits, as it does below the ledger's volume. */
  method PairwiseWith(p: Projection, user: UserId) returns (owed: map<UserId, int>, ok: bool)
    ensures Shows(owed, OwesTo(p, Resolve(p.aliases, user)))
    ensures forall u :: u in owed <==> Owes(p, Resolve(p.aliases, user), u) != 0
    ensures LedgerVolume(p) <= I64_MAX ==> ok
    ensures ok ==> forall u | u in owed :: Fits(owed[u])
  {
    hide Sum, BalanceOf, Edges, DeltaMap, Resolve, SettleBalances, Bounded, AllFit, LedgerVolume, ExpenseVolume, Delta;
    hide PaidVolume, OwedVolume, EdgeVolume, ExpenseEdge, SettlementEdge, AllWithin;
    var me := Resolve(p.aliases, user);
    owed, ok := map[], true;
    var todo := p.expenses.Keys;
    assert p.expenses.Keys - todo == {};
    NothingViewed(p, me);
    while todo != {}
      invariant todo <= p.expenses.Keys
      invariant forall u :: BalanceOf(owed, u) == Sum(p.expenses.Keys - todo, ExpenseEdge(p, me, u))
      invariant Bounded(owed, Sum(p.expenses.Keys - todo, ExpenseVolume(p)))
      invariant LedgerVolume(p) <= I64_MAX ==> ok
      invariant ok ==> AllFit(owed)
    {
      var id :| id in todo;
      ghost var done := p.expenses.Keys - todo;
      assert p.expenses.Keys - (todo - {id}) == done + {id};
      ViewedSoFar(p, me, done, id);
      if p.expenses[id].published {
        var fits: bool;
        owed, fits := PostView(p.aliases, p.expenses[id].fields, owed, me, Sum(done, ExpenseVolume(p)));
        ok := ok && fits;
      }
      todo := todo - {id};
    }
    assert p.expenses.Keys - todo == p.expenses.Keys;
    var settled: bool;
    owed, settled := FoldSettlements(p, me, owed, Sum(p.expenses.Keys, ExpenseVolume(p)));
    ok := ok && settled;
    ViewsAreEdges(p, me);
    ghost var all := owed;
    owed := RetainNonZero(owed, OwesTo(p, me));
    ShownFit(all, owed, OwesTo(p, me), LedgerVolume(p));
  }

  lemma {:induction false} NothingViewed(p: Projection, me: UserId)
    ensures forall u :: Sum({}, ExpenseEdge(p, me, u)) == 0 && BalanceOf(map[], u) == 0
    ensures Sum({}, ExpenseVolume(p)) == 0 && Bounded(map[], 0) && AllFit(map[])
  {
    hide ExpenseEdge, ExpenseVolume;
  }

  lemma {:induction false} ViewsAreEdges(p: Projection, me: UserId)
    ensures forall u :: OwesTo(p, me)(u)
                     == Sum(p.expenses.Keys, ExpenseEdge(p, me, u)) + Sum(p.settlements.Keys, SettlementEdge(p, me, u))
    ensures LedgerVolume(p) == Sum(p.expenses.Keys, ExpenseVolume(p)) + Sum(p.settlements.Keys, SettlementVolume(p))
  {
    hide Sum, ExpenseEdge, SettlementEdge, ExpenseVolume;
  }

  /** One more expense: what its transfers say of every other user, and what it adds to the volume. */
  lemma {:induction false} ViewedSoFar(p: Projection, me: UserId, done: set<ExpenseId>, id: ExpenseId)
    requires done <= p.expenses.Keys && id in p.expenses && id !in done
    ensures var e := p.expenses[id];
            && (forall u :: Sum(done + {id}, ExpenseEdge(p, me, u))
                         == Sum(done, ExpenseEdge(p, me, u))
                            + if e.published then Edges(Transfers(p.aliases, e.fields), me, u) else 0)
            && Sum(done + {id}, ExpenseVolume(p))
               == Sum(done, ExpenseVolume(p)) + (if e.published then FieldVolume(e.fields) else 0) <= LedgerVolume(p)
  {
    hide Sum, Edges, Transfers, PaidVolume, OwedVolume, LedgerVolume;
    forall u ensures Sum(done + {id}, ExpenseEdge(p, me, u))
                  == ExpenseEdge(p, me, u)(id) + Sum(done, ExpenseEdge(p, me, u)) {
      SumInsert(done, ExpenseEdge(p, me, u), id);
    }
    SumInsert(done, ExpenseVolume(p), id);
    VolumesOf(p, done + {id});
  }

  /** Folds the settle-up of one expense into the view. */
  method PostView(aliases: AliasTable, f: ExpenseFields, owed0: map<UserId, int>, me: UserId, ghost room: int)
    returns (owed: map<UserId, int>, ok: bool)
    requires Bounded(owed0, room)
    ensures forall u :: BalanceOf(owed, u) == BalanceOf(owed0, u) + Edges(Transfers(aliases, f), me, u)
    ensures Bounded(owed, room + FieldVolume(f)) && (room + FieldVolume(f) <= I64_MAX ==> ok)
    ensures ok && AllFit(owed0) ==> AllFit(owed)
  {
    hide BalanceOf, Edges, DeltaMap, SettleBalances, AllFit, Bounded, EdgeVolume, FieldVolume, AllWithin;
    RoomIsNatural(owed0, room);
    var net, nets := ExpenseNets(aliases, f);
    var ts, transfers := SimplifyDebts(net);
    WithinVolume(net, FieldVolume(f));
    EdgeVolumeIsBounded(aliases, f, me);
    var fits: bool;
    owed, fits := PostEdges(owed0, ts, me, room);
    BoundedWider(owed, room + EdgeVolume(ts, me), room + FieldVolume(f));
    ok := nets && transfers && fits;
  }

  lemma {:induction false} RoomIsNatural(net: map<UserId, int>, room: int)
    requires Bounded(net, room)
    ensures room >= 0
  {
    assert Abs(BalanceOf(net, "")) <= room;
  }

  lemma {:induction false} BoundedWider(net: map<UserId, int>, room: int, more: int)
    requires Bounded(net, room) && room <= more
    ensures Bounded(net, more)
  {
    forall u ensures Abs(BalanceOf(net, u)) <= more { assert Abs(BalanceOf(net, u)) <= room; }
  }

  method FoldSettlements(p: Projection, me: UserId, owed0: map<UserId, int>, ghost room: int)
    returns (owed: map<UserId, int>, ok: bool)
    requires Bounded(owed0, room)
    ensures forall u :: BalanceOf(owed, u) == BalanceOf(owed0, u) + Sum(p.settlements.Keys, SettlementEdge(p, me, u))
    ensures Bounded(owed, room + Sum(p.settlements.Keys, SettlementVolume(p)))
    ensures room + Sum(p.settlements.Keys, SettlementVolume(p)) <= I64_MAX ==> ok
    ensures ok && AllFit(owed0) ==> AllFit(owed)
  {
    hide Sum, BalanceOf, SettlementEdge, SettlementVolume, Resolve, Bounded, AllFit, Edge;
    owed, ok := owed0, true;
    var todo := p.settlements.Keys;
    assert p.settlements.Keys - todo == {};
    NoneFolded(p, me);
    while todo != {}
      invariant todo <= p.settlements.Keys
      invariant forall u ::
        BalanceOf(owed, u) == BalanceOf(owed0, u) + Sum(p.settlements.Keys - todo, SettlementEdge(p, me, u))
      invariant Bounded(owed, room + Sum(p.settlements.Keys - todo, SettlementVolume(p)))
      invariant room + Sum(p.settlements.Keys, SettlementVolume(p)) <= I64_MAX ==> ok
      invariant ok && AllFit(owed0) ==> AllFit(owed)
    {
      var id :| id in todo;
      ghost var done := p.settlements.Keys - todo;
      assert p.settlements.Keys - (todo - {id}) == done + {id};
      var s := p.settlements[id];
      var from, to := Resolve(p.aliases, s.from), Resolve(p.aliases, s.to);
      forall u ensures Sum(done + {id}, SettlementEdge(p, me, u))
                    == Sum(done, SettlementEdge(p, me, u)) - Edge(from, to, s.amount, me, u) {
        SettlementEdgeStep(p, me, u, done, id);
      }
      SettledSoFar(p, done, id);
      var fits: bool;
      owed, fits := PostPayment(owed, from, to, s.amount, me, room + Sum(done, SettlementVolume(p)));
      ok := ok && fits;
      todo := todo - {id};
    }
    assert p.settlements.Keys - todo == p.settlements.Keys;
  }

  lemma {:induction false} NoneFolded(p: Projection, me: UserId)
    ensures forall u :: Sum({}, SettlementEdge(p, me, u)) == 0
    ensures Sum({}, SettlementVolume(p)) == 0
  {
    hide SettlementEdge, SettlementVolume;
  }

  /** A recorded payment: who paid `me` owes less, whom `me` paid owes more. */
  method PostPayment(owed0: map<UserId, int>, from: UserId, to: UserId, amount: int, me: UserId, ghost room: int)
    returns (owed: map<UserId, int>, ok: bool)
    requires Bounded(owed0, room)
    ensures forall u :: BalanceOf(owed, u) == BalanceOf(owed0, u) - Edge(from, to, amount, me, u)
    ensures Bounded(owed, room + Abs(amount)) && (room + Abs(amount) <= I64_MAX ==> ok)
    ensures ok && AllFit(owed0) ==> AllFit(owed)
  {
    hide Post, BalanceOf, Bounded, AllFit;
    owed, ok := owed0, true;
    BoundedWider(owed0, room, room + Abs(amount));
    if to == me {
      PostAdds(owed, from, -amount);
      PostStaysBounded(owed, from, -amount, room);
      owed := Post(owed, from, -amount);
      ok := Fits(BalanceOf(owed, from));
    } else if from == me {
      PostAdds(owed, to, amount);
      PostStaysBounded(owed, to, amount, room);
      owed := Post(owed, to, amount);
      ok := Fits(BalanceOf(owed, to));
    }
  }

  lemma {:induction false} SettlementEdgeStep(
      p: Projection, me: UserId, u: UserId, done: set<SettlementId>, id: SettlementId)
    requires id in p.settlements && id !in done
    ensures var s := p.settlements[id];
            Sum(done + {id}, SettlementEdge(p, me, u))
            == Sum(done, SettlementEdge(p, me, u))
               - Edge(Resolve(p.aliases, s.from), Resolve(p.aliases, s.to), s.amount, me, u)
  {
    SumInsert(done, SettlementEdge(p, me, u), id);
  }

  // ---------- Antisymmetry ----------

  lemma {:induction false} EdgesAntisymmetric(ts: seq<Transfer>, a: UserId, b: UserId)
    requires a != b
    ensures Edges(ts, a, b) == -Edges(ts, b, a)
  {
    if ts != [] { EdgesAntisymmetric(ts[..|ts| - 1], a, b); }
  }

  /** What a's view says of b is the negation of what b's says of a, on every ledger. */
  lemma {:induction false} ViewsAreAntisymmetric(p: Projection, a: UserId, b: UserId)
    requires a != b
    ensures Owes(p, a, b) == -Owes(p, b, a)
  {
    var zeroE: ExpenseId -> int := id => 0;
    var zeroS: SettlementId -> int := id => 0;
    forall id | id in p.expenses.Keys ensures ExpenseEdge(p, a, b)(id) == -1 * ExpenseEdge(p, b, a)(id) + zeroE(id) {
      EdgesAntisymmetric(Transfers(p.aliases, p.expenses[id].fields), a, b);
    }
    SumLinear(p.expenses.Keys, -1, ExpenseEdge(p, b, a), zeroE, ExpenseEdge(p, a, b));
    SumLinear(p.settlements.Keys, -1, SettlementEdge(p, b, a), zeroS, SettlementEdge(p, a, b));
    SumZero(p.expenses.Keys, zeroE);
    SumZero(p.settlements.Keys, zeroS);
  }

  // ---------- Reconciliation with the net ----------

  /** Settlements whose two ends both resolve to `me`: recorded before the ends were merged. */
  ghost function SelfSettled(p: Projection, me: UserId): SettlementId -> int {
    id => if id in p.settlements
             && Resolve(p.aliases, p.settlements[id].from) == me && Resolve(p.aliases, p.settlements[id].to) == me
          then p.settlements[id].amount else 0
  }

  ghost function SelfSettledTotal(p: Projection, me: UserId): int { Sum(p.settlements.Keys, SelfSettled(p, me)) }

  ghost function EdgeTo(from: UserId, to: UserId, amount: int, me: UserId): UserId -> int {
    other => Edge(from, to, amount, me, other)
  }

  ghost function EdgesTo(ts: seq<Transfer>, me: UserId): UserId -> int { other => Edges(ts, me, other) }

  /** Over everyone, a transfer's edge is what it brings `me`; one from `me` to `me` counts as received. */
  lemma {:induction false} EdgeTotal(from: UserId, to: UserId, amount: int, me: UserId, users: set<UserId>)
    requires from in users && to in users
    ensures Sum(users, EdgeTo(from, to, amount, me)) == if to == me then amount else if from == me then -amount else 0
  {
    SumSingle(users, EdgeTo(from, to, amount, me), if to == me then from else to);
  }

  lemma {:induction false} EdgesTotal(ts: seq<Transfer>, me: UserId, users: set<UserId>)
    requires forall t | t in ts :: t.from in users && t.to in users && t.from != t.to
    ensures Sum(users, EdgesTo(ts, me)) == Received(ts, me) - Paid(ts, me)
  {
    if ts == [] {
      SumZero(users, EdgesTo(ts, me));
    } else {
      var n := |ts| - 1;
      var t := ts[n];
      assert t in ts;
      EdgesTotal(ts[..n], me, users);
      EdgeTotal(t.from, t.to, t.amount, me, users);
      SumLinear(users, 1, EdgesTo(ts[..n], me), EdgeTo(t.from, t.to, t.amount, me), EdgesTo(ts, me));
      assert ts == ts[..n] + [t];
      PaidConcat(ts[..n], [t], me);
    }
  }

  /** The nets of a balanced expense sum to zero. */
  lemma {:induction false} BalancedNets(aliases: AliasTable, f: ExpenseFields)
    requires TotalPaid(f) == TotalOwed(f)
    ensures Sum(DeltaMap(aliases, f).Keys, BalanceIn(DeltaMap(aliases, f))) == 0
  {
    hide Delta, Sum, TotalPaid, TotalOwed, FieldUsers, Payer;
    var users := FieldUsers(aliases, f);
    var delta: UserId -> int := u => Delta(f, As(aliases, u));
    DeltasAddUp(aliases, f, users, delta);
    forall k | Payer(f, k) ensures Among(aliases, users)(k) { FieldUsersCover(aliases, f, k); }
    DeltaOfEveryone(f, Among(aliases, users));
    SumSupport(users, DeltaMap(aliases, f).Keys, delta);
    SumCongruent(DeltaMap(aliases, f).Keys, delta, BalanceIn(DeltaMap(aliases, f)));
  }

  lemma {:induction false} DeltasAddUp(aliases: AliasTable, f: ExpenseFields, users: set<UserId>, delta: UserId -> int)
    requires forall u :: delta(u) == Delta(f, As(aliases, u))
    ensures Sum(users, delta) == Delta(f, Among(aliases, users))
    decreases |users|
  {
    if users == {} {
      var none: UserId -> bool := k => false;
      DeltaReads(f, Among(aliases, {}), none);
      DeltaAdds(f, none, none, none);
    } else {
      var u := Pick(users);
      DeltasAddUp(aliases, f, users - {u}, delta);
      DeltaAdds(f, As(aliases, u), Among(aliases, users - {u}), Among(aliases, users));
    }
  }

  /** What the transfers of one expense leave of the viewer's share in it: nothing when it is balanced. */
  ghost function Residue(aliases: AliasTable, f: ExpenseFields, me: UserId): int {
    Delta(f, As(aliases, me)) + Paid(Transfers(aliases, f), me) - Received(Transfers(aliases, f), me)
  }

  ghost function ResidueIn(p: Projection, me: UserId): ExpenseId -> int {
    id => if id in p.expenses && p.expenses[id].published then Residue(p.aliases, p.expenses[id].fields, me) else 0
  }

  /** What the per-expense settlements of the whole ledger leave of the viewer's shares. */
  ghost function Unattributed(p: Projection, me: UserId): int { Sum(p.expenses.Keys, ResidueIn(p, me)) }

  /** The edges of an expense add up to the viewer's share in it, less the residue. */
  lemma {:induction false} ExpenseAttributes(aliases: AliasTable, f: ExpenseFields, me: UserId, users: set<UserId>)
    requires FieldUsers(aliases, f) <= users
    ensures Sum(users, EdgesTo(Transfers(aliases, f), me)) == Delta(f, As(aliases, me)) - Residue(aliases, f, me)
  {
    hide Delta, Paid, Received, Sum;
    SettlementIsSound(DeltaMap(aliases, f));
    EdgesTotal(Transfers(aliases, f), me, users);
  }

  lemma {:induction false} BalancedLeavesNothing(aliases: AliasTable, f: ExpenseFields, me: UserId)
    requires TotalPaid(f) == TotalOwed(f)
    ensures Residue(aliases, f, me) == 0
  {
    hide Delta, Paid, Received, Sum, TotalPaid, TotalOwed, DeltaMap, BalanceOf, SettleBalances;
    BalancedNets(aliases, f);
    SettlementClears(DeltaMap(aliases, f), me);
    DeltaMapShows(aliases, f, me);
  }

  /** Settling an expense leaves nothing of a ranked share exactly when the shares up to it can be matched. */
  lemma {:induction false} ResidueVanishesIff(aliases: AliasTable, f: ExpenseFields, sign: int, i: nat)
    requires (sign == 1 || sign == -1) && i < |Ranked(DeltaMap(aliases, f), sign)|
    ensures var net := DeltaMap(aliases, f); var r := Ranked(net, sign);
            Residue(aliases, f, r[i].0) == 0
            <==> Total(r[..i + 1]) <= Min(Total(Ranked(net, -1)), Total(Ranked(net, 1)))
  {
    hide Delta, Paid, Received, DeltaMap, BalanceOf, SettleBalances, Ranked, Total;
    AccountIsSettledIff(DeltaMap(aliases, f), sign, i);
    DeltaMapShows(aliases, f, Ranked(DeltaMap(aliases, f), sign)[i].0);
  }

  /** Who has no share in an expense is left nothing. */
  lemma {:induction false} NoShareNoResidue(aliases: AliasTable, f: ExpenseFields, me: UserId)
    requires Delta(f, As(aliases, me)) == 0
    ensures Residue(aliases, f, me) == 0
  {
    hide Delta, Paid, Received, DeltaMap, SettleBalances;
    DeltaMapShows(aliases, f, me);
    SettlementIsSound(DeltaMap(aliases, f));
  }

  lemma {:induction false} DeltaMapShows(aliases: AliasTable, f: ExpenseFields, u: UserId)
    ensures BalanceOf(DeltaMap(aliases, f), u) == Delta(f, As(aliases, u))
  {
    hide Delta;
    if Delta(f, As(aliases, u)) != 0 { DeltaNeedsUser(aliases, f, u); }
  }

  /**
   * On every ledger the per-friend balances add up to the net balance, less the settlements whose
   * two ends both resolve to the viewer, less what the per-expense settlements leave.
   */
  lemma {:induction false} ViewReconcilesWithNet(p: Projection, me: UserId, users: set<UserId>)
    requires MentionedUsers(p) <= users
    ensures Sum(users, OwesTo(p, me)) == Net(p, me) - SelfSettledTotal(p, me) - Unattributed(p, me)
  {
    var byExpense: UserId -> int := u => Sum(p.expenses.Keys, ExpenseEdge(p, me, u));
    var bySettlement: UserId -> int := u => Sum(p.settlements.Keys, SettlementEdge(p, me, u));
    SumLinear(users, 1, byExpense, bySettlement, OwesTo(p, me));
    ExpensesReconcile(p, me, users, byExpense);
    SettlementsReconcile(p, me, users, bySettlement);
  }

  ghost function ExpenseEdgesOf(p: Projection, me: UserId): UserId -> ExpenseId -> int { u => ExpenseEdge(p, me, u) }

  ghost function ExpenseViewOf(p: Projection, me: UserId): ExpenseId -> UserId -> int {
    id => ExpenseView(p, me, id)
  }

  ghost function ExpenseView(p: Projection, me: UserId, id: ExpenseId): UserId -> int { u => ExpenseEdge(p, me, u)(id) }

  ghost function SettlementEdgesOf(p: Projection, me: UserId): UserId -> SettlementId -> int {
    u => SettlementEdge(p, me, u)
  }

  ghost function SettlementViewOf(p: Projection, me: UserId): SettlementId -> UserId -> int {
    id => SettlementView(p, me, id)
  }

  ghost function SettlementView(p: Projection, me: UserId, id: SettlementId): UserId -> int {
    u => SettlementEdge(p, me, u)(id)
  }

  lemma {:induction false} ExpenseColumn(p: Projection, me: UserId, users: set<UserId>, id: ExpenseId)
    requires MentionedUsers(p) <= users && id in p.expenses
    ensures ExpenseFlow(p, As(p.aliases, me))(id) - ResidueIn(p, me)(id) == Sum(users, ExpenseView(p, me, id))
  {
    hide Sum, Delta, Transfers, Edges, Residue;
    var f := p.expenses[id].fields;
    if p.expenses[id].published {
      assert FieldUsers(p.aliases, f) <= MentionedUsers(p);
      ExpenseAttributes(p.aliases, f, me, users);
      forall u ensures EdgesTo(Transfers(p.aliases, f), me)(u) == ExpenseView(p, me, id)(u) {
        assert ExpenseEdge(p, me, u)(id) == Edges(Transfers(p.aliases, f), me, u);
      }
      SumCongruent(users, EdgesTo(Transfers(p.aliases, f), me), ExpenseView(p, me, id));
    } else {
      forall u ensures ExpenseView(p, me, id)(u) == 0 { assert ExpenseEdge(p, me, u)(id) == 0; }
      SumZero(users, ExpenseView(p, me, id));
    }
  }

  lemma {:induction false} ExpensesReconcile(p: Projection, me: UserId, users: set<UserId>, byExpense: UserId -> int)
    requires MentionedUsers(p) <= users
    requires forall u :: byExpense(u) == Sum(p.expenses.Keys, ExpenseEdge(p, me, u))
    ensures Sum(users, byExpense) == Sum(p.expenses.Keys, ExpenseFlow(p, As(p.aliases, me))) - Unattributed(p, me)
  {
    hide Sum, ExpenseFlow, ExpenseEdge, ResidueIn, MentionedUsers;
    var column: ExpenseId -> int := id => ExpenseFlow(p, As(p.aliases, me))(id) - ResidueIn(p, me)(id);
    forall id | id in p.expenses.Keys ensures column(id) == Sum(users, ExpenseViewOf(p, me)(id)) {
      ExpenseColumn(p, me, users, id);
    }
    SumExchange(users, p.expenses.Keys, byExpense, column, ExpenseEdgesOf(p, me), ExpenseViewOf(p, me));
    SumLinear(p.expenses.Keys, -1, ResidueIn(p, me), ExpenseFlow(p, As(p.aliases, me)), column);
  }

  lemma {:induction false} SettlementColumn(p: Projection, me: UserId, users: set<UserId>, id: SettlementId)
    requires MentionedUsers(p) <= users && id in p.settlements
    ensures SettlementFlow(p, As(p.aliases, me))(id) - SelfSettled(p, me)(id) == Sum(users, SettlementView(p, me, id))
  {
    hide Sum, Resolve;
    var s := p.settlements[id];
    var from, to := Resolve(p.aliases, s.from), Resolve(p.aliases, s.to);
    assert from in MentionedUsers(p) && to in MentionedUsers(p);
    EdgeTotal(from, to, s.amount, me, users);
    forall u ensures SettlementView(p, me, id)(u) == -EdgeTo(from, to, s.amount, me)(u) {
      assert SettlementEdge(p, me, u)(id) == -Edge(from, to, s.amount, me, u);
    }
    SumNegated(users, EdgeTo(from, to, s.amount, me), SettlementView(p, me, id));
  }

  lemma {:induction false} SettlementsReconcile(
      p: Projection, me: UserId, users: set<UserId>, bySettlement: UserId -> int)
    requires MentionedUsers(p) <= users
    requires forall u :: bySettlement(u) == Sum(p.settlements.Keys, SettlementEdge(p, me, u))
    ensures Sum(users, bySettlement)
         == Sum(p.settlements.Keys, SettlementFlow(p, As(p.aliases, me))) - SelfSettledTotal(p, me)
  {
    hide Sum, SettlementFlow, SettlementEdge, SelfSettled, MentionedUsers;
    var column: SettlementId -> int := id => SettlementFlow(p, As(p.aliases, me))(id) - SelfSettled(p, me)(id);
    forall id | id in p.settlements.Keys ensures column(id) == Sum(users, SettlementViewOf(p, me)(id)) {
      SettlementColumn(p, me, users, id);
    }
    SumExchange(users, p.settlements.Keys, bySettlement, column, SettlementEdgesOf(p, me), SettlementViewOf(p, me));
    SumLinear(p.settlements.Keys, -1, SelfSettled(p, me), SettlementFlow(p, As(p.aliases, me)), column);
  }

  lemma {:induction false} SumNegated(users: set<UserId>, f: UserId -> int, g: UserId -> int)
    requires forall u | u in users :: g(u) == -f(u)
    ensures Sum(users, g) == -Sum(users, f)
  {
    var zero: UserId -> int := u => 0;
    SumLinear(users, -1, f, zero, g);
    SumZero(users, zero);
  }

  /** A ledger whose published expenses are balanced leaves nothing unattributed. */
  lemma {:induction false} ReconcilingAttributesAll(p: Projection, me: UserId)
    requires Reconciles(p)
    ensures Unattributed(p, me) == 0
  {
    hide Residue, TotalPaid, TotalOwed;
    forall id | id in p.expenses.Keys ensures ResidueIn(p, me)(id) == 0 {
      if p.expenses[id].published { BalancedLeavesNothing(p.aliases, p.expenses[id].fields, me); }
    }
    SumZero(p.expenses.Keys, ResidueIn(p, me));
  }

  /**
   * The map shown adds up to the viewer's net balance exactly when the self-settled amounts and what
   * the unbalanced expenses leave cancel; on balanced expenses, when the former add up to zero.
   */
  lemma {:induction false} ShownViewReconciles(p: Projection, user: UserId, owed: map<UserId, int>)
    requires Shows(owed, OwesTo(p, Resolve(p.aliases, user)))
    ensures var me := Resolve(p.aliases, user);
            && (Sum(owed.Keys, BalanceIn(owed)) == Net(p, me) <==> SelfSettledTotal(p, me) + Unattributed(p, me) == 0)
            && (Reconciles(p) ==> (Sum(owed.Keys, BalanceIn(owed)) == Net(p, me) <==> SelfSettledTotal(p, me) == 0))
  {
    hide Sum, Net, Owes, Reconciles, SelfSettledTotal, Unattributed, MentionedUsers;
    var me := Resolve(p.aliases, user);
    var users := owed.Keys + MentionedUsers(p);
    ViewReconcilesWithNet(p, me, users);
    if Reconciles(p) { ReconcilingAttributesAll(p, me); }
    SumSupport(users, owed.Keys, OwesTo(p, me));
    SumCongruent(owed.Keys, OwesTo(p, me), BalanceIn(owed));
  }

  /** In particular when no settlement has both ends resolve to the viewer. */
  lemma {:induction false} NoSelfSettlement(p: Projection, me: UserId)
    requires forall id | id in p.settlements ::
      Resolve(p.aliases, p.settlements[id].from) != me || Resolve(p.aliases, p.settlements[id].to) != me
    ensures SelfSettledTotal(p, me) == 0
  {
    SumZero(p.settlements.Keys, SelfSettled(p, me));
  }

  /** A guest who repaid me one cent and was later merged into me. */
  const MERGED_AFTER_PAYING := Projection(map[], map[], map[], map["s" := SettlementRecord(None, "user:g", "id:m", 1)],
                                          map["user:g" := "id:m"], map[], map[])

  /** The documented equality fails there: the view still shows a debt to oneself, the net is zero. */
  lemma {:induction false} SelfSettlementBreaksTheView()
    ensures var p := MERGED_AFTER_PAYING;
            Reconciles(p) && Net(p, "id:m") == 0 && Owes(p, "id:m", "id:m") == -1
  {
    var p, me := MERGED_AFTER_PAYING, "id:m";
    SumRemove(p.settlements.Keys, SettlementFlow(p, As(p.aliases, me)), "s");
    SumRemove(p.settlements.Keys, SettlementEdge(p, me, me), "s");
    assert p.settlements.Keys - {"s"} == {} && p.expenses.Keys == {};
    assert Resolve(p.aliases, "user:g") == me && Resolve(p.aliases, me) == me;
  }

  const UNBALANCED := ExpenseFields(map["id:m" := 10], 10, [], "")

  /** One published expense that was paid and is owed by nobody. */
  const OWED_BY_NOBODY := Projection(map[], map[], map["e" := ExpenseRecord(None, UNBALANCED, false, true)], map[],
                                     map[], map[], map[])

  /** The documented equality fails there too, with no settlement at all: the net is ten, the view is empty. */
  lemma {:induction false} UnbalancedExpenseBreaksTheView(u: UserId)
    ensures var p := OWED_BY_NOBODY;
            && !Reconciles(p) && SelfSettledTotal(p, "id:m") == 0
            && Net(p, "id:m") == 10 && Unattributed(p, "id:m") == 10 && Owes(p, "id:m", u) == 0
  {
    hide Delta, Transfers, Sum, TotalPaid, TotalOwed;
    var p, me := OWED_BY_NOBODY, "id:m";
    assert p.expenses.Keys == {"e"} && p.settlements.Keys == {};
    NobodyOwes(me, 10);
    PaidByMe(me, 10);
    SumSingle(p.expenses.Keys, ExpenseFlow(p, As(p.aliases, me)), "e");
    SumSingle(p.expenses.Keys, ResidueIn(p, me), "e");
    SumSingle(p.expenses.Keys, ExpenseEdge(p, me, u), "e");
    SumZero(p.settlements.Keys, SettlementFlow(p, As(p.aliases, me)));
    SumZero(p.settlements.Keys, SettlementEdge(p, me, u));
    SumZero(p.settlements.Keys, SelfSettled(p, me));
  }

  lemma {:induction false} PaidByMe(me: UserId, amount: int)
    requires me == "id:m" && amount == 10
    ensures TotalPaid(UNBALANCED) == amount && TotalOwed(UNBALANCED) == 0
  {
    assert UNBALANCED.paidBy.Keys == {me};
    SumSingle(UNBALANCED.paidBy.Keys, PaidIn(UNBALANCED.paidBy), me);
  }

  lemma {:induction false} NobodyOwes(me: UserId, amount: int)
    requires me == "id:m" && amount == 10
    ensures Delta(UNBALANCED, As(map[], me)) == amount && Transfers(map[], UNBALANCED) == []
  {
    assert UNBALANCED.paidBy.Keys == {me} && UNBALANCED.splits == [];
    SumSingle(UNBALANCED.paidBy.Keys, PaidPart(UNBALANCED, As(map[], me)), me);
    var net := DeltaMap(map[], UNBALANCED);
    forall u | u in net ensures u == me {
      assert u in FieldUsers(map[], UNBALANCED);
    }
    assert net == map[me := amount];
    assert Side(net, -1) == {};
    TransfersAreFew(Ranked(net, -1), Ranked(net, 1));
  }
}
