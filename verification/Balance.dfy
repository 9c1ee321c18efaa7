// What a ledger says of money: net balances under alias resolution, the views derived from them,
// and the laws that tie the views together.
module Balances {
  import opened Sums
  import opened Operations
  import opened Aliases
  import opened Materialization
  import opened Splitting
  import opened Expenses
  import opened Debt

  type AliasTable = map<UserId, UserId>

  // ---------- Specification: the money that flows to a set of ids ----------

  /** The ids that resolve to `u`. */
  ghost function As(aliases: AliasTable, u: UserId): UserId -> bool { k => Resolve(aliases, k) == u }

  /** The ids that resolve into `users`. */
  ghost function Among(aliases: AliasTable, users: set<UserId>): UserId -> bool { k => Resolve(aliases, k) in users }

  ghost function PaidPart(f: ExpenseFields, who: UserId -> bool): UserId -> int {
    k => if k in f.paidBy && who(k) then f.paidBy[k] else 0
  }

  ghost function OwedPart(f: ExpenseFields, who: UserId -> bool): nat -> int {
    (i: nat) => if i < |f.splits| && who(f.splits[i].user) then f.splits[i].owed else 0
  }

  /** What the ids paid minus what they owe in one expense version. */
  ghost function Delta(f: ExpenseFields, who: UserId -> bool): int {
    Sum(f.paidBy.Keys, PaidPart(f, who)) - Sum(Range(|f.splits|), OwedPart(f, who))
  }

  ghost function ExpenseFlow(p: Projection, who: UserId -> bool): ExpenseId -> int {
    id => if id in p.expenses && p.expenses[id].published then Delta(p.expenses[id].fields, who) else 0
  }

  ghost function SettlementFlow(p: Projection, who: UserId -> bool): SettlementId -> int {
    id => if id in p.settlements
          then (if who(p.settlements[id].from) then p.settlements[id].amount else 0)
             - (if who(p.settlements[id].to) then p.settlements[id].amount else 0)
          else 0
  }

  ghost function Flow(p: Projection, who: UserId -> bool): int {
    Sum(p.expenses.Keys, ExpenseFlow(p, who)) + Sum(p.settlements.Keys, SettlementFlow(p, who))
  }

  /** The net balance of a canonical id: positive when it is owed. */
  ghost function Net(p: Projection, u: UserId): int { Flow(p, As(p.aliases, u)) }

  ghost function NetIn(p: Projection): UserId -> int { u => Net(p, u) }

  /** The map that shows exactly the non-zero values of `f`. */
  ghost predicate Shows(m: map<UserId, int>, f: UserId -> int) {
    (forall u | u in m :: f(u) != 0 && m[u] == f(u)) && (forall u | f(u) != 0 :: u in m)
  }

  // ---------- Flow is additive ----------

  lemma {:induction false} DeltaAdds(e: ExpenseFields, f: UserId -> bool, g: UserId -> bool, h: UserId -> bool)
    requires forall k :: h(k) == (f(k) || g(k)) && !(f(k) && g(k))
    ensures Delta(e, h) == Delta(e, f) + Delta(e, g)
  {
    forall k ensures PaidPart(e, h)(k) == 1 * PaidPart(e, f)(k) + PaidPart(e, g)(k) {}
    forall i: nat | i in Range(|e.splits|) ensures OwedPart(e, h)(i) == 1 * OwedPart(e, f)(i) + OwedPart(e, g)(i) {
      var u := e.splits[i].user;
      assert h(u) == (f(u) || g(u)) && !(f(u) && g(u));
    }
    SumLinear(e.paidBy.Keys, 1, PaidPart(e, f), PaidPart(e, g), PaidPart(e, h));
    SumLinear(Range(|e.splits|), 1, OwedPart(e, f), OwedPart(e, g), OwedPart(e, h));
  }

  /** The flow to a disjoint union is the sum of the flows. */
  lemma {:induction false} FlowAdds(p: Projection, f: UserId -> bool, g: UserId -> bool, h: UserId -> bool)
    requires forall k :: h(k) == (f(k) || g(k)) && !(f(k) && g(k))
    ensures Flow(p, h) == Flow(p, f) + Flow(p, g)
  {
    forall id | id in p.expenses.Keys
      ensures ExpenseFlow(p, h)(id) == 1 * ExpenseFlow(p, f)(id) + ExpenseFlow(p, g)(id)
    {
      DeltaAdds(p.expenses[id].fields, f, g, h);
    }
    forall id | id in p.settlements.Keys
      ensures SettlementFlow(p, h)(id) == 1 * SettlementFlow(p, f)(id) + SettlementFlow(p, g)(id)
    {
      var from, to := p.settlements[id].from, p.settlements[id].to;
      assert h(from) == (f(from) || g(from)) && !(f(from) && g(from));
      assert h(to) == (f(to) || g(to)) && !(f(to) && g(to));
    }
    SumLinear(p.expenses.Keys, 1, ExpenseFlow(p, f), ExpenseFlow(p, g), ExpenseFlow(p, h));
    SumLinear(p.settlements.Keys, 1, SettlementFlow(p, f), SettlementFlow(p, g), SettlementFlow(p, h));
  }

  ghost predicate Payer(f: ExpenseFields, k: UserId) { k in f.paidBy || exists s :: s in f.splits && s.user == k }

  /** The raw ids the ledger mentions. */
  ghost predicate Mentions(p: Projection, k: UserId) {
    || (exists id :: id in p.expenses && Payer(p.expenses[id].fields, k))
    || (exists id :: id in p.settlements && (p.settlements[id].from == k || p.settlements[id].to == k))
  }

  lemma {:induction false} DeltaReads(e: ExpenseFields, f: UserId -> bool, g: UserId -> bool)
    requires forall k | Payer(e, k) :: f(k) == g(k)
    ensures Delta(e, f) == Delta(e, g)
  {
    assert forall i | 0 <= i < |e.splits| :: e.splits[i] in e.splits && Payer(e, e.splits[i].user);
    assert forall k | k in e.paidBy :: Payer(e, k);
    SumCongruent(e.paidBy.Keys, PaidPart(e, f), PaidPart(e, g));
    SumCongruent(Range(|e.splits|), OwedPart(e, f), OwedPart(e, g));
  }

  /** Only mentioned ids matter. */
  lemma {:induction false} FlowReads(p: Projection, q: Projection, f: UserId -> bool, g: UserId -> bool)
    requires p.expenses == q.expenses && p.settlements == q.settlements
    requires forall k | Mentions(p, k) :: f(k) == g(k)
    ensures Flow(p, f) == Flow(q, g)
  {
    hide Sum, Delta, Payer;
    forall id | id in p.expenses.Keys ensures ExpenseFlow(p, f)(id) == ExpenseFlow(q, g)(id) {
      forall k | Payer(p.expenses[id].fields, k) ensures f(k) == g(k) { assert Mentions(p, k); }
      DeltaReads(p.expenses[id].fields, f, g);
    }
    SumCongruent(p.expenses.Keys, ExpenseFlow(p, f), ExpenseFlow(q, g));
    assert forall id | id in p.settlements :: Mentions(p, p.settlements[id].from) && Mentions(p, p.settlements[id].to);
    SumCongruent(p.settlements.Keys, SettlementFlow(p, f), SettlementFlow(q, g));
  }

  lemma {:induction false} FlowToNobody(p: Projection, who: UserId -> bool)
    requires forall k | Mentions(p, k) :: !who(k)
    ensures Flow(p, who) == 0
  {
    var none: UserId -> bool := k => false;
    FlowReads(p, p, who, none);
    FlowAdds(p, none, none, none);
  }

  /** The balances of several canonical ids add up to what flows to all ids that resolve to one of them. */
  lemma {:induction false} NetsAddUp(p: Projection, users: set<UserId>)
    ensures Sum(users, NetIn(p)) == Flow(p, Among(p.aliases, users))
    decreases |users|
  {
    if users == {} {
      FlowToNobody(p, Among(p.aliases, {}));
    } else {
      var u := Pick(users);
      NetsAddUp(p, users - {u});
      FlowAdds(p, As(p.aliases, u), Among(p.aliases, users - {u}), Among(p.aliases, users));
    }
  }

  // ---------- Zero sum ----------

  lemma {:induction false} OwedSumIsSum(splits: seq<Split>, f: nat -> int)
    requires forall i: nat | i < |splits| :: f(i) == splits[i].owed
    ensures OwedSum(splits) == Sum(Range(|splits|), f)
  {
    if splits != [] {
      var n := |splits| - 1;
      OwedSumIsSum(splits[..n], f);
      SumRange(n, f);
    }
  }

  lemma {:induction false} DeltaOfEveryone(e: ExpenseFields, who: UserId -> bool)
    requires forall k | Payer(e, k) :: who(k)
    ensures Delta(e, who) == TotalPaid(e) - TotalOwed(e)
  {
    assert forall i | 0 <= i < |e.splits| :: e.splits[i] in e.splits && Payer(e, e.splits[i].user);
    assert forall k | k in e.paidBy :: Payer(e, k);
    SumCongruent(e.paidBy.Keys, PaidPart(e, who), PaidIn(e.paidBy));
    OwedSumIsSum(e.splits, OwedPart(e, who));
  }

  /** Every published expense of the ledger was paid as much as it was owed. */
  ghost predicate Reconciles(p: Projection) {
    forall id | id in p.expenses && p.expenses[id].published ::
      TotalPaid(p.expenses[id].fields) == TotalOwed(p.expenses[id].fields)
  }

  ghost function ImbalanceIn(p: Projection): ExpenseId -> int {
    id => if id in p.expenses && p.expenses[id].published
          then TotalPaid(p.expenses[id].fields) - TotalOwed(p.expenses[id].fields) else 0
  }

  /** Over any users that cover everyone a ledger mentions, the nets add up to what was paid beyond what is owed. */
  lemma {:induction false} NetsSumToImbalance(p: Projection, users: set<UserId>)
    requires forall k | Mentions(p, k) :: Resolve(p.aliases, k) in users
    ensures Sum(users, NetIn(p)) == Sum(p.expenses.Keys, ImbalanceIn(p))
  {
    hide Sum, Delta, TotalPaid, TotalOwed, Payer;
    var who := Among(p.aliases, users);
    NetsAddUp(p, users);
    forall id | id in p.expenses.Keys ensures ExpenseFlow(p, who)(id) == ImbalanceIn(p)(id) {
      forall k | Payer(p.expenses[id].fields, k) ensures who(k) { assert Mentions(p, k); }
      DeltaOfEveryone(p.expenses[id].fields, who);
    }
    SumCongruent(p.expenses.Keys, ExpenseFlow(p, who), ImbalanceIn(p));
    assert forall id | id in p.settlements :: Mentions(p, p.settlements[id].from) && Mentions(p, p.settlements[id].to);
    SumZero(p.settlements.Keys, SettlementFlow(p, who));
  }

  /** So a reconciling ledger nets to zero. */
  lemma {:induction false} NetIsZeroSum(p: Projection, users: set<UserId>)
    requires Reconciles(p)
    requires forall k | Mentions(p, k) :: Resolve(p.aliases, k) in users
    ensures Sum(users, NetIn(p)) == 0
  {
    hide Sum, TotalPaid, TotalOwed, Mentions;
    NetsSumToImbalance(p, users);
    SumZero(p.expenses.Keys, ImbalanceIn(p));
  }

  // ---------- Merging redistributes ----------

  ghost function Unaliased(p: Projection): Projection { p.(aliases := map[]) }

  /** A canonical id's balance is the sum of the unaliased balances of the ids that resolve to it. */
  lemma {:induction false} MergingRedistributes(p: Projection, c: UserId, merged: set<UserId>)
    requires forall k | Mentions(p, k) :: k in merged <==> Resolve(p.aliases, k) == c
    ensures Net(p, c) == Sum(merged, NetIn(Unaliased(p)))
  {
    NetsAddUp(Unaliased(p), merged);
    FlowReads(p, Unaliased(p), As(p.aliases, c), Among(map[], merged));
  }

  // ---------- The net_balances loops ----------

  function Post(net: map<UserId, int>, u: UserId, amount: int): map<UserId, int> {
    net[u := BalanceOf(net, u) + amount]
  }

  // The operators on cents are checked: they stop the program rather than leave 64 bits. `ok` says that
  // none has stopped it so far, and a volume bounds what can have been posted to any entry by then.

  ghost predicate Bounded(net: map<UserId, int>, room: int) { forall u :: Abs(BalanceOf(net, u)) <= room }

  ghost predicate AllFit(net: map<UserId, int>) { forall u :: Fits(BalanceOf(net, u)) }

  ghost function PaidSize(f: ExpenseFields): UserId -> int { u => if u in f.paidBy then Abs(f.paidBy[u]) else 0 }

  ghost function OwedSize(f: ExpenseFields): nat -> int {
    (i: nat) => if i < |f.splits| then Abs(f.splits[i].owed) else 0
  }

  ghost function PaidVolume(f: ExpenseFields): int { Sum(f.paidBy.Keys, PaidSize(f)) }

  ghost function OwedVolume(f: ExpenseFields): int { Sum(Range(|f.splits|), OwedSize(f)) }

  ghost function ExpenseVolume(p: Projection): ExpenseId -> int {
    id => if id in p.expenses && p.expenses[id].published
          then PaidVolume(p.expenses[id].fields) + OwedVolume(p.expenses[id].fields) else 0
  }

  ghost function SettlementVolume(p: Projection): SettlementId -> int {
    id => if id in p.settlements then Abs(p.settlements[id].amount) else 0
  }

  /** Everything ever posted, signs aside. */
  ghost function LedgerVolume(p: Projection): int {
    Sum(p.expenses.Keys, ExpenseVolume(p)) + Sum(p.settlements.Keys, SettlementVolume(p))
  }

  lemma {:induction false} PostStaysBounded(net: map<UserId, int>, u: UserId, amount: int, room: int)
    requires Bounded(net, room)
    ensures Bounded(Post(net, u, amount), room + Abs(amount))
    ensures room + Abs(amount) <= I64_MAX ==> Fits(BalanceOf(Post(net, u, amount), u))
    ensures AllFit(net) && Fits(BalanceOf(Post(net, u, amount), u)) ==> AllFit(Post(net, u, amount))
  {
    PostAdds(net, u, amount);
    assert Abs(BalanceOf(net, u)) <= room;
  }

  lemma {:induction false} PaidSoFar(f: ExpenseFields, done: set<UserId>, payer: UserId)
    requires done <= f.paidBy.Keys && payer in f.paidBy && payer !in done
    ensures Sum(done + {payer}, PaidSize(f)) == Sum(done, PaidSize(f)) + Abs(f.paidBy[payer]) <= PaidVolume(f)
  {
    SumInsert(done, PaidSize(f), payer);
    PartOfVolume(done + {payer}, f.paidBy.Keys, PaidSize(f));
  }

  lemma {:induction false} PartOfVolume<T(!new)>(done: set<T>, all: set<T>, size: T -> int)
    requires done <= all && forall x | x in all :: size(x) >= 0
    ensures Sum(done, size) <= Sum(all, size)
  {
    SumDisjoint(done, all - done, size);
    SumNonNegative(all - done, size);
    assert done + (all - done) == all;
  }

  lemma {:induction false} OwedSoFar(f: ExpenseFields, i: nat)
    requires i < |f.splits|
    ensures Sum(Range(i + 1), OwedSize(f)) == Sum(Range(i), OwedSize(f)) + Abs(f.splits[i].owed) <= OwedVolume(f)
  {
    SumRange(i, OwedSize(f));
    PartOfVolume(Range(i + 1), Range(|f.splits|), OwedSize(f));
  }

  lemma PostAdds(net: map<UserId, int>, u: UserId, amount: int)
    ensures forall v :: BalanceOf(Post(net, u, amount), v) == BalanceOf(net, v) + if v == u then amount else 0
  {}

  /** Drops the zero entries. */
  method RetainNonZero(net: map<UserId, int>, ghost f: UserId -> int) returns (r: map<UserId, int>)
    requires forall u :: BalanceOf(net, u) == f(u)
    ensures Shows(r, f)
  {
    r := map u | u in net && net[u] != 0 :: net[u];
  }

  method PostPayments(net0: map<UserId, int>, aliases: AliasTable, f: ExpenseFields, ghost room: int)
    returns (net: map<UserId, int>, ok: bool)
    requires Bounded(net0, room)
    ensures forall u :: BalanceOf(net, u) == BalanceOf(net0, u) + Sum(f.paidBy.Keys, PaidPart(f, As(aliases, u)))
    ensures Bounded(net, room + PaidVolume(f)) && (room + PaidVolume(f) <= I64_MAX ==> ok)
    ensures ok && AllFit(net0) ==> AllFit(net)
  {
    hide PaymentsPosted, Sum, Post, BalanceOf, Bounded, AllFit, PaidVolume;
    net, ok := net0, true;
    var todo := f.paidBy.Keys;
    NoPayments(net0, aliases, f, room);
    while todo != {}
      invariant todo <= f.paidBy.Keys
      invariant PaymentsPosted(net0, net, aliases, f, f.paidBy.Keys - todo, room)
      invariant room + PaidVolume(f) <= I64_MAX ==> ok
      invariant ok && AllFit(net0) ==> AllFit(net)
    {
      var payer :| payer in todo;
      ghost var done := f.paidBy.Keys - todo;
      assert f.paidBy.Keys - (todo - {payer}) == done + {payer};
      PaymentPosted(net0, net, aliases, f, done, payer, room);
      net := Post(net, Resolve(aliases, payer), f.paidBy[payer]);
      ok := ok && Fits(BalanceOf(net, Resolve(aliases, payer)));
      todo := todo - {payer};
    }
    assert f.paidBy.Keys - todo == f.paidBy.Keys;
    AllPaymentsPosted(net0, net, aliases, f, room);
  }

  ghost predicate PaymentsPosted(net0: map<UserId, int>, net: map<UserId, int>, aliases: AliasTable, f: ExpenseFields,
                                 done: set<UserId>, room: int)
  {
    && (forall u :: BalanceOf(net, u) == BalanceOf(net0, u) + Sum(done, PaidPart(f, As(aliases, u))))
    && Bounded(net, room + Sum(done, PaidSize(f)))
  }

  lemma {:induction false} NoPayments(net0: map<UserId, int>, aliases: AliasTable, f: ExpenseFields, room: int)
    requires Bounded(net0, room)
    ensures PaymentsPosted(net0, net0, aliases, f, f.paidBy.Keys - f.paidBy.Keys, room)
  {
    hide PaidPart, PaidSize;
    assert f.paidBy.Keys - f.paidBy.Keys == {};
    assert forall u :: Sum({}, PaidPart(f, As(aliases, u))) == 0;
  }

  lemma {:induction false} AllPaymentsPosted(net0: map<UserId, int>, net: map<UserId, int>, aliases: AliasTable,
                                             f: ExpenseFields, room: int)
    requires PaymentsPosted(net0, net, aliases, f, f.paidBy.Keys, room)
    ensures forall u :: BalanceOf(net, u) == BalanceOf(net0, u) + Sum(f.paidBy.Keys, PaidPart(f, As(aliases, u)))
    ensures Bounded(net, room + PaidVolume(f))
  {
    hide Sum, BalanceOf, PaidPart, PaidSize, Bounded;
  }

  lemma {:induction false} PaymentPosted(net0: map<UserId, int>, net: map<UserId, int>, aliases: AliasTable,
                                         f: ExpenseFields,
                                         done: set<UserId>, payer: UserId, room: int)
    requires PaymentsPosted(net0, net, aliases, f, done, room)
    requires done <= f.paidBy.Keys && payer in f.paidBy && payer !in done
    ensures var to := Resolve(aliases, payer); var next := Post(net, to, f.paidBy[payer]);
            && PaymentsPosted(net0, next, aliases, f, done + {payer}, room)
            && (room + PaidVolume(f) <= I64_MAX ==> Fits(BalanceOf(next, to)))
            && (AllFit(net) && Fits(BalanceOf(next, to)) ==> AllFit(next))
  {
    hide Sum, Post, BalanceOf, PaidPart, Bounded, AllFit, PaidVolume, PaidSize;
    var to := Resolve(aliases, payer);
    PaidSoFar(f, done, payer);
    PostStaysBounded(net, to, f.paidBy[payer], room + Sum(done, PaidSize(f)));
    PostAdds(net, to, f.paidBy[payer]);
    forall u ensures Sum(done + {payer}, PaidPart(f, As(aliases, u)))
                  == Sum(done, PaidPart(f, As(aliases, u))) + if u == to then f.paidBy[payer] else 0 {
      PaymentStep(aliases, f, u, done, payer);
    }
  }

  lemma {:induction false} PaymentStep(
      aliases: AliasTable, f: ExpenseFields, u: UserId, done: set<UserId>, payer: UserId)
    requires payer in f.paidBy && payer !in done
    ensures Sum(done + {payer}, PaidPart(f, As(aliases, u)))
         == Sum(done, PaidPart(f, As(aliases, u))) + if u == Resolve(aliases, payer) then f.paidBy[payer] else 0
  {
    SumInsert(done, PaidPart(f, As(aliases, u)), payer);
  }

  method PostSplits(net0: map<UserId, int>, aliases: AliasTable, f: ExpenseFields, ghost room: int)
    returns (net: map<UserId, int>, ok: bool)
    requires Bounded(net0, room)
    ensures forall u :: BalanceOf(net, u) == BalanceOf(net0, u) - Sum(Range(|f.splits|), OwedPart(f, As(aliases, u)))
    ensures Bounded(net, room + OwedVolume(f)) && (room + OwedVolume(f) <= I64_MAX ==> ok)
    ensures ok && AllFit(net0) ==> AllFit(net)
  {
    hide Sum, Post, BalanceOf, Range, OwedPart, Bounded, AllFit, OwedVolume, OwedSize;
    net, ok := net0, true;
    NothingOwed(aliases, f);
    for i := 0 to |f.splits|
      invariant forall u :: BalanceOf(net, u) == BalanceOf(net0, u) - Sum(Range(i), OwedPart(f, As(aliases, u)))
      invariant Bounded(net, room + Sum(Range(i), OwedSize(f)))
      invariant room + OwedVolume(f) <= I64_MAX ==> ok
      invariant ok && AllFit(net0) ==> AllFit(net)
    {
      var s := f.splits[i];
      PostAdds(net, Resolve(aliases, s.user), -s.owed);
      forall u ensures Sum(Range(i + 1), OwedPart(f, As(aliases, u)))
                    == Sum(Range(i), OwedPart(f, As(aliases, u)))
                       + if u == Resolve(aliases, s.user) then s.owed else 0 {
        SplitStep(aliases, f, u, i);
      }
      OwedSoFar(f, i);
      PostStaysBounded(net, Resolve(aliases, s.user), -s.owed, room + Sum(Range(i), OwedSize(f)));
      net := Post(net, Resolve(aliases, s.user), -s.owed);
      ok := ok && Fits(BalanceOf(net, Resolve(aliases, s.user)));
    }
  }

  lemma {:induction false} NothingOwed(aliases: AliasTable, f: ExpenseFields)
    ensures forall u :: Sum(Range(0), OwedPart(f, As(aliases, u))) == 0
    ensures Sum(Range(0), OwedSize(f)) == 0 && OwedVolume(f) == Sum(Range(|f.splits|), OwedSize(f))
  {}

  lemma {:induction false} SplitStep(aliases: AliasTable, f: ExpenseFields, u: UserId, i: nat)
    requires i < |f.splits|
    ensures Sum(Range(i + 1), OwedPart(f, As(aliases, u)))
         == Sum(Range(i), OwedPart(f, As(aliases, u)))
            + if u == Resolve(aliases, f.splits[i].user) then f.splits[i].owed else 0
  {
    SumRange(i, OwedPart(f, As(aliases, u)));
  }

  /** Posts one expense: payers are credited, split users debited. */
  method PostExpense(net0: map<UserId, int>, aliases: AliasTable, f: ExpenseFields, ghost room: int)
    returns (net: map<UserId, int>, ok: bool)
    requires Bounded(net0, room)
    ensures forall u :: BalanceOf(net, u) == BalanceOf(net0, u) + Delta(f, As(aliases, u))
    ensures Bounded(net, room + PaidVolume(f) + OwedVolume(f))
    ensures room + PaidVolume(f) + OwedVolume(f) <= I64_MAX ==> ok
    ensures ok && AllFit(net0) ==> AllFit(net)
  {
    VolumesAreSizes(f);
    hide Sum, BalanceOf, PaidPart, OwedPart, Range, Bounded, AllFit, PaidVolume, OwedVolume;
    net, ok := PostPayments(net0, aliases, f, room);
    var fits: bool;
    net, fits := PostSplits(net, aliases, f, room + PaidVolume(f));
    ok := ok && fits;
  }

  lemma {:induction false} VolumesAreSizes(f: ExpenseFields)
    ensures PaidVolume(f) >= 0 && OwedVolume(f) >= 0
  {
    SumNonNegative(f.paidBy.Keys, PaidSize(f));
    SumNonNegative(Range(|f.splits|), OwedSize(f));
  }

  /** The nets, and whether every checked operator on the way stayed within 64 bits: it does below that volume. */
  method NetBalances(p: Projection) returns (net: map<UserId, int>, ok: bool)
    ensures Shows(net, NetIn(p)) && forall u :: u in net <==> Net(p, u) != 0
    ensures LedgerVolume(p) <= I64_MAX ==> ok
    ensures ok ==> forall u | u in net :: Fits(net[u])
    ensures forall u | u in net :: Abs(net[u]) <= LedgerVolume(p)
  {
    hide Sum, Delta, BalanceOf, As, Bounded, AllFit, LedgerVolume, PaidVolume, OwedVolume, ExpenseFlow, ExpenseVolume;
    hide SettlementFlow, SettlementVolume, Net, Resolve, Fits;
    net, ok := map[], true;
    var todo := p.expenses.Keys;
    assert p.expenses.Keys - todo == {};
    NothingPosted(p);
    while todo != {}
      invariant todo <= p.expenses.Keys
      invariant forall u :: BalanceOf(net, u) == Sum(p.expenses.Keys - todo, ExpenseFlow(p, As(p.aliases, u)))
      invariant Bounded(net, Sum(p.expenses.Keys - todo, ExpenseVolume(p)))
      invariant LedgerVolume(p) <= I64_MAX ==> ok
      invariant ok ==> AllFit(net)
    {
      var id :| id in todo;
      ghost var done := p.expenses.Keys - todo;
      assert p.expenses.Keys - (todo - {id}) == done + {id};
      PostedSoFar(p, done, id);
      if p.expenses[id].published {
        var fits: bool;
        net, fits := PostExpense(net, p.aliases, p.expenses[id].fields, Sum(done, ExpenseVolume(p)));
        ok := ok && fits;
      }
      todo := todo - {id};
    }
    assert p.expenses.Keys - todo == p.expenses.Keys;
    var settled: bool;
    net, settled := PostSettlements(p, net, Sum(p.expenses.Keys, ExpenseVolume(p)));
    ok := ok && settled;
    NetsAreFlows(p);
    ghost var all := net;
    net := RetainNonZero(net, NetIn(p));
    ShownFit(all, net, NetIn(p), LedgerVolume(p));
  }

  lemma {:induction false} NothingPosted(p: Projection)
    ensures forall u :: Sum({}, ExpenseFlow(p, As(p.aliases, u))) == 0 && BalanceOf(map[], u) == 0
    ensures Sum({}, ExpenseVolume(p)) == 0 && Bounded(map[], 0) && AllFit(map[])
  {}

  lemma {:induction false} ShownFit(all: map<UserId, int>, shown: map<UserId, int>, f: UserId -> int, volume: int)
    requires Shows(shown, f) && forall u :: BalanceOf(all, u) == f(u)
    ensures AllFit(all) ==> forall u | u in shown :: Fits(shown[u])
    ensures Bounded(all, volume) ==> forall u | u in shown :: Abs(shown[u]) <= volume
  {
    forall u | u in shown ensures shown[u] == BalanceOf(all, u) {}
  }

  lemma {:induction false} NetsAreFlows(p: Projection)
    ensures forall u :: NetIn(p)(u) == Sum(p.expenses.Keys, ExpenseFlow(p, As(p.aliases, u)))
                                    + Sum(p.settlements.Keys, SettlementFlow(p, As(p.aliases, u)))
    ensures LedgerVolume(p) == Sum(p.expenses.Keys, ExpenseVolume(p)) + Sum(p.settlements.Keys, SettlementVolume(p))
  {}

  /** One more expense: what it adds to every entry, and to the volume. */
  lemma {:induction false} PostedSoFar(p: Projection, done: set<ExpenseId>, id: ExpenseId)
    requires done <= p.expenses.Keys && id in p.expenses && id !in done
    ensures var e := p.expenses[id];
            && (forall u :: Sum(done + {id}, ExpenseFlow(p, As(p.aliases, u)))
                         == Sum(done, ExpenseFlow(p, As(p.aliases, u)))
                            + if e.published then Delta(e.fields, As(p.aliases, u)) else 0)
            && Sum(done + {id}, ExpenseVolume(p))
               == Sum(done, ExpenseVolume(p)) + (if e.published then PaidVolume(e.fields) + OwedVolume(e.fields) else 0)
               <= LedgerVolume(p)
  {
    hide Sum, Delta, As, PaidVolume, OwedVolume, LedgerVolume;
    forall u ensures Sum(done + {id}, ExpenseFlow(p, As(p.aliases, u)))
                  == ExpenseFlow(p, As(p.aliases, u))(id) + Sum(done, ExpenseFlow(p, As(p.aliases, u))) {
      SumInsert(done, ExpenseFlow(p, As(p.aliases, u)), id);
    }
    SumInsert(done, ExpenseVolume(p), id);
    VolumesOf(p, done + {id});
  }

  /** The volume of some expenses is no more than the ledger's. */
  lemma {:induction false} VolumesOf(p: Projection, done: set<ExpenseId>)
    requires done <= p.expenses.Keys
    ensures 0 <= Sum(done, ExpenseVolume(p)) <= LedgerVolume(p)
  {
    hide PaidVolume, OwedVolume;
    forall id | id in p.expenses.Keys ensures ExpenseVolume(p)(id) >= 0 { VolumesAreSizes(p.expenses[id].fields); }
    SumNonNegative(done, ExpenseVolume(p));
    PartOfVolume(done, p.expenses.Keys, ExpenseVolume(p));
    SumNonNegative(p.settlements.Keys, SettlementVolume(p));
  }

  method PostSettlements(
      p: Projection, net0: map<UserId, int>, ghost room: int) returns (net: map<UserId, int>, ok: bool)
    requires Bounded(net0, room)
    ensures forall u ::
      BalanceOf(net, u) == BalanceOf(net0, u) + Sum(p.settlements.Keys, SettlementFlow(p, As(p.aliases, u)))
    ensures Bounded(net, room + Sum(p.settlements.Keys, SettlementVolume(p)))
    ensures room + Sum(p.settlements.Keys, SettlementVolume(p)) <= I64_MAX ==> ok
    ensures ok && AllFit(net0) ==> AllFit(net)
  {
    hide Sum, BalanceOf, SettlementFlow, SettlementVolume, As, Resolve, Bounded, AllFit;
    net, ok := net0, true;
    var todo := p.settlements.Keys;
    assert p.settlements.Keys - todo == {};
    NothingSettled(p);
    while todo != {}
      invariant todo <= p.settlements.Keys
      invariant forall u :: BalanceOf(net, u)
                         == BalanceOf(net0, u) + Sum(p.settlements.Keys - todo, SettlementFlow(p, As(p.aliases, u)))
      invariant Bounded(net, room + Sum(p.settlements.Keys - todo, SettlementVolume(p)))
      invariant room + Sum(p.settlements.Keys, SettlementVolume(p)) <= I64_MAX ==> ok
      invariant ok && AllFit(net0) ==> AllFit(net)
    {
      var id :| id in todo;
      ghost var done := p.settlements.Keys - todo;
      assert p.settlements.Keys - (todo - {id}) == done + {id};
      var s := p.settlements[id];
      var from, to := Resolve(p.aliases, s.from), Resolve(p.aliases, s.to);
      forall u ensures Sum(done + {id}, SettlementFlow(p, As(p.aliases, u)))
                    == Sum(done, SettlementFlow(p, As(p.aliases, u)))
                       + (if u == from then s.amount else 0) - (if u == to then s.amount else 0) {
        SettlementStep(p, u, done, id);
      }
      SettledSoFar(p, done, id);
      var fits: bool;
      net, fits := PostTransfer(net, from, to, s.amount, room + Sum(done, SettlementVolume(p)));
      ok := ok && fits;
      todo := todo - {id};
    }
    assert p.settlements.Keys - todo == p.settlements.Keys;
  }

  lemma {:induction false} NothingSettled(p: Projection)
    ensures forall u :: Sum({}, SettlementFlow(p, As(p.aliases, u))) == 0
    ensures Sum({}, SettlementVolume(p)) == 0
  {}

  lemma {:induction false} SettledSoFar(p: Projection, done: set<SettlementId>, id: SettlementId)
    requires done <= p.settlements.Keys && id in p.settlements && id !in done
    ensures Sum(done + {id}, SettlementVolume(p))
         == Sum(done, SettlementVolume(p)) + Abs(p.settlements[id].amount)
         <= Sum(p.settlements.Keys, SettlementVolume(p))
  {
    SumInsert(done, SettlementVolume(p), id);
    PartOfVolume(done + {id}, p.settlements.Keys, SettlementVolume(p));
  }

  /** Credits one end and then debits the other; when both are one, the entry goes up and comes back. */
  method PostTransfer(net0: map<UserId, int>, from: UserId, to: UserId, amount: int, ghost room: int)
    returns (net: map<UserId, int>, ok: bool)
    requires Bounded(net0, room)
    ensures forall u :: BalanceOf(net, u)
                     == BalanceOf(net0, u) + (if u == from then amount else 0) - (if u == to then amount else 0)
    ensures Bounded(net, room + Abs(amount)) && (room + Abs(amount) <= I64_MAX ==> ok)
    ensures ok && AllFit(net0) ==> AllFit(net)
  {
    hide Post, BalanceOf;
    PostAdds(net0, from, amount);
    PostStaysBounded(net0, from, amount, room);
    net := Post(net0, from, amount);
    ok := Fits(BalanceOf(net, from));
    PostAdds(net, to, -amount);
    net := Post(net, to, -amount);
    ok := ok && Fits(BalanceOf(net, to));
    forall u ensures Abs(BalanceOf(net, u)) <= room + Abs(amount) { assert Abs(BalanceOf(net0, u)) <= room; }
    assert Abs(BalanceOf(net, to)) <= room + Abs(amount);
  }

  lemma {:induction false} SettlementStep(p: Projection, u: UserId, done: set<SettlementId>, id: SettlementId)
    requires id in p.settlements && id !in done
    ensures var s := p.settlements[id];
            Sum(done + {id}, SettlementFlow(p, As(p.aliases, u)))
            == Sum(done, SettlementFlow(p, As(p.aliases, u)))
               + (if u == Resolve(p.aliases, s.from) then s.amount else 0)
               - (if u == Resolve(p.aliases, s.to) then s.amount else 0)
  {
    SumInsert(done, SettlementFlow(p, As(p.aliases, u)), id);
  }

  /** Suggested payments over the net balances, within 64 bits when the volume is. */
  method SettleUp(p: Projection) returns (transfers: seq<Transfer>, ok: bool)
    ensures exists net :: Shows(net, NetIn(p)) && transfers == SettleBalances(net)
    ensures LedgerVolume(p) <= I64_MAX ==> ok
  {
    var net, fits := NetBalances(p);
    hide LedgerVolume, SettleBalances;
    transfers, ok := SimplifyDebts(net);
    WithinVolume(net, LedgerVolume(p));
    ok := ok && fits;
  }

  lemma {:induction false} WithinVolume(net: map<UserId, int>, volume: int)
    requires forall u | u in net :: Abs(net[u]) <= volume
    ensures volume <= I64_MAX ==> AllWithin(net) && I64_MIN !in net.Values
  {
    forall u | u in net ensures volume <= I64_MAX ==> I64_MIN < net[u] <= I64_MAX { assert Abs(net[u]) <= volume; }
  }

  lemma ShownBalance(net: map<UserId, int>, f: UserId -> int, u: UserId)
    requires Shows(net, f)
    ensures BalanceOf(net, u) == f(u)
  {}

  /** Settling up a reconciling ledger leaves everybody at zero. */
  lemma {:induction false} SettlingUpClears(p: Projection, net: map<UserId, int>, u: UserId)
    requires Reconciles(p) && Shows(net, NetIn(p))
    ensures Sum(net.Keys, BalanceIn(net)) == 0
    ensures Net(p, u) + Paid(SettleBalances(net), u) - Received(SettleBalances(net), u) == 0
  {
    hide Net, BalanceOf, Mentions, MentionedUsers, Reconciles, Paid, Received;
    var users := net.Keys + MentionedUsers(p);
    forall k | Mentions(p, k) ensures Resolve(p.aliases, k) in users { MentionedUsersCover(p, k); }
    NetIsZeroSum(p, users);
    forall v ensures BalanceOf(net, v) == Net(p, v) { ShownBalance(net, NetIn(p), v); }
    SumSupport(users, net.Keys, NetIn(p));
    SumCongruent(net.Keys, NetIn(p), BalanceIn(net));
    SettlementClears(net, u);
  }

  ghost function FieldUsers(aliases: AliasTable, f: ExpenseFields): set<UserId> {
    (set k | k in f.paidBy :: Resolve(aliases, k)) + (set s | s in f.splits :: Resolve(aliases, s.user))
  }

  /** The canonical ids of everyone the ledger mentions. */
  ghost function MentionedUsers(p: Projection): set<UserId> {
    (set id, u | id in p.expenses && u in FieldUsers(p.aliases, p.expenses[id].fields) :: u)
    + (set id | id in p.settlements :: Resolve(p.aliases, p.settlements[id].from))
    + (set id | id in p.settlements :: Resolve(p.aliases, p.settlements[id].to))
  }

  lemma {:induction false} FieldUsersCover(aliases: AliasTable, f: ExpenseFields, k: UserId)
    requires Payer(f, k)
    ensures Resolve(aliases, k) in FieldUsers(aliases, f)
  {
    if k !in f.paidBy { var s :| s in f.splits && s.user == k; }
  }

  lemma {:induction false} MentionedUsersCover(p: Projection, k: UserId)
    requires Mentions(p, k)
    ensures Resolve(p.aliases, k) in MentionedUsers(p)
  {
    if id :| id in p.expenses && Payer(p.expenses[id].fields, k) {
      FieldUsersCover(p.aliases, p.expenses[id].fields, k);
    } else {
      var id :| id in p.settlements && (p.settlements[id].from == k || p.settlements[id].to == k);
    }
  }
}
