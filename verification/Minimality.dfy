// When the greedy settlement is a minimum. Payments that settle balances group the accounts into
// parts that sum to zero, each payment saving one group at most; the greedy match splits off a part
// exactly where the ranked debtors and creditors run level. So greedy is minimal exactly when no
// grouping has more parts than there are such points.
module Minimality {
  import opened Ordering
  import opened Sums
  import opened Operations
  import opened Debt

  function NonZero(balances: map<UserId, int>): set<UserId> { set u | u in balances && balances[u] != 0 }

  ghost predicate Settles(balances: map<UserId, int>, ts: seq<Transfer>) {
    forall u :: BalanceOf(balances, u) + Paid(ts, u) - Received(ts, u) == 0
  }

  // ---------- Groupings ----------

  function Block(g: map<UserId, UserId>, l: UserId): set<UserId> { set u | u in g && g[u] == l }

  /** A labelling of the non-zero accounts; the balances under each label sum to zero. */
  ghost predicate Grouping(balances: map<UserId, int>, g: map<UserId, UserId>) {
    g.Keys == NonZero(balances) && forall l | l in g.Values :: Sum(Block(g, l), BalanceIn(balances)) == 0
  }

  // ---------- Payments group the accounts ----------

  /** Accounts joined by payments get one label. */
  ghost function Label(ts: seq<Transfer>, u: UserId): UserId {
    if ts == [] then u
    else
      var before, t := ts[..|ts| - 1], ts[|ts| - 1];
      if Label(before, u) == Label(before, t.from) then Label(before, t.to) else Label(before, u)
  }

  ghost function Labels(ts: seq<Transfer>, us: set<UserId>): set<UserId> { set u | u in us :: Label(ts, u) }

  lemma {:induction false} PaymentsJoin(ts: seq<Transfer>, t: Transfer)
    requires t in ts
    ensures Label(ts, t.from) == Label(ts, t.to)
  {
    var n := |ts| - 1;
    if t in ts[..n] { PaymentsJoin(ts[..n], t); }
  }

  /** Each payment merges two labels at most. */
  lemma {:induction false} LabelsAreMany(ts: seq<Transfer>, us: set<UserId>)
    ensures |Labels(ts, us)| >= |us| - |ts|
  {
    if ts == [] {
      assert Labels(ts, us) == us;
    } else {
      var before, t := ts[..|ts| - 1], ts[|ts| - 1];
      LabelsAreMany(before, us);
      var lost := {Label(before, t.from)};
      forall l | l in Labels(before, us) ensures l in Labels(ts, us) + lost {
        var u :| u in us && Label(before, u) == l;
        assert l in lost || Label(ts, u) == l;
      }
      SubsetSize(Labels(before, us), Labels(ts, us) + lost);
    }
  }

  ghost function NetFlow(ts: seq<Transfer>): UserId -> int { u => Received(ts, u) - Paid(ts, u) }

  ghost function FlowOf(t: Transfer): UserId -> int {
    u => (if t.to == u then t.amount else 0) - if t.from == u then t.amount else 0
  }

  lemma {:induction false} OnePaymentStays(t: Transfer, us: set<UserId>)
    requires t.from in us <==> t.to in us
    ensures Sum(us, FlowOf(t)) == 0
  {
    var got: UserId -> int := u => if t.to == u then t.amount else 0;
    var gave: UserId -> int := u => if t.from == u then t.amount else 0;
    SumSingle(us, got, t.to);
    SumSingle(us, gave, t.from);
    SumLinear(us, -1, gave, got, FlowOf(t));
  }

  /** Nothing flows into or out of a set no payment leaves. */
  lemma {:induction false} FlowZero(ts: seq<Transfer>, us: set<UserId>)
    requires forall t | t in ts :: t.from in us <==> t.to in us
    ensures Sum(us, NetFlow(ts)) == 0
  {
    if ts == [] {
      SumZero(us, NetFlow(ts));
    } else {
      OnePaymentStays(ts[0], us);
      FlowZero(ts[1..], us);
      SumLinear(us, 1, FlowOf(ts[0]), NetFlow(ts[1..]), NetFlow(ts));
    }
  }

  ghost function Touched(balances: map<UserId, int>, ts: seq<Transfer>): set<UserId> {
    NonZero(balances) + (set t | t in ts :: t.from) + (set t | t in ts :: t.to)
  }

  /** Any set of touched accounts that no payment leaves sums to zero over its non-zero accounts. */
  lemma {:induction false} ClosedPartIsZero(
      balances: map<UserId, int>, ts: seq<Transfer>, us: set<UserId>, part: set<UserId>)
    requires Settles(balances, ts) && part <= us
    requires forall t | t in ts :: t.from in us <==> t.to in us
    requires forall u | u in us - part :: BalanceOf(balances, u) == 0
    ensures Sum(part, BalanceIn(balances)) == 0
  {
    FlowZero(ts, us);
    SumCongruent(us, BalanceIn(balances), NetFlow(ts));
    SumSupport(us, part, BalanceIn(balances));
  }

  /** Payments that settle the balances group the accounts; fewer payments leave more groups. */
  lemma {:induction false} FewPaymentsManyGroups(
      balances: map<UserId, int>, ts: seq<Transfer>) returns (g: map<UserId, UserId>)
    requires Settles(balances, ts)
    ensures Grouping(balances, g) && |g.Values| >= |NonZero(balances)| - |ts|
  {
    hide Settles;
    var n := NonZero(balances);
    g := map u | u in n :: Label(ts, u);
    assert forall u | u in n :: g[u] in g.Values;
    assert g.Values == Labels(ts, n);
    LabelsAreMany(ts, n);
    forall l | l in g.Values ensures Sum(Block(g, l), BalanceIn(balances)) == 0 {
      var us := set u | u in Touched(balances, ts) && Label(ts, u) == l;
      forall t | t in ts ensures t.from in us <==> t.to in us {
        PaymentsJoin(ts, t);
        assert t.from in Touched(balances, ts) && t.to in Touched(balances, ts);
      }
      ClosedPartIsZero(balances, ts, us, Block(g, l));
    }
  }

  /** Only balances that sum to zero can be settled. */
  lemma {:induction false} SettledSumsToZero(balances: map<UserId, int>, ts: seq<Transfer>)
    requires Settles(balances, ts)
    ensures Sum(balances.Keys, BalanceIn(balances)) == 0
  {
    hide Settles;
    var us := Touched(balances, ts) + balances.Keys;
    forall t | t in ts ensures t.from in us && t.to in us {
      assert t.from in Touched(balances, ts) && t.to in Touched(balances, ts);
    }
    ClosedPartIsZero(balances, ts, us, balances.Keys);
  }

  // ---------- Groups can be settled apart ----------

  function Part(balances: map<UserId, int>, us: set<UserId>): map<UserId, int> {
    map u | u in balances && u in us :: balances[u]
  }

  /** The payments zero the accounts of `us` and touch no other balance. */
  ghost predicate SettlesPart(balances: map<UserId, int>, us: set<UserId>, ts: seq<Transfer>) {
    forall u :: (if u in us then BalanceOf(balances, u) else 0) + Paid(ts, u) - Received(ts, u) == 0
  }

  lemma {:induction false} SettleBoth(balances: map<UserId, int>, us: set<UserId>, ts: seq<Transfer>,
                                      vs: set<UserId>, more: seq<Transfer>)
    requires us !! vs && SettlesPart(balances, us, ts) && SettlesPart(balances, vs, more)
    ensures SettlesPart(balances, us + vs, ts + more)
  {
    hide Paid, Received, BalanceOf;
    forall u
      ensures (if u in us + vs then BalanceOf(balances, u) else 0) + Paid(ts + more, u) - Received(ts + more, u) == 0
    {
      PaidConcat(ts, more, u);
    }
  }

  lemma {:induction false} SideSize(balances: map<UserId, int>, sign: int)
    requires sign != 0
    ensures |Side(balances, sign)| == |set u | u in balances && sign * balances[u] > 0|
  {
    var us := set u | u in balances && sign * balances[u] > 0;
    var account: UserId -> Account := u => (u, sign * BalanceOf(balances, u));
    ImageSize(us, account);
    var image := Image(us, account);
    forall a ensures a in Side(balances, sign) <==> a in image {
      if a in Side(balances, sign) { assert a.0 in us && account(a.0) == a; }
      if a in image { assert a.0 in us; }
    }
    assert Side(balances, sign) == image;
  }

  /** Every non-zero account owes or is owed. */
  lemma {:induction false} SidesSize(balances: map<UserId, int>)
    ensures |Ranked(balances, -1)| + |Ranked(balances, 1)| == |NonZero(balances)|
  {
    hide Side;
    SideSize(balances, -1);
    SideSize(balances, 1);
    var owing := set u | u in balances && -1 * balances[u] > 0;
    var owed := set u | u in balances && 1 * balances[u] > 0;
    assert owing + owed == NonZero(balances) && owing * owed == {};
  }

  /** A part that sums to zero is settled by fewer payments than it has accounts. */
  lemma {:induction false} SettlePart(balances: map<UserId, int>, us: set<UserId>) returns (ts: seq<Transfer>)
    requires us <= NonZero(balances) && us != {} && Sum(us, BalanceIn(balances)) == 0
    ensures |ts| <= |us| - 1 && SettlesPart(balances, us, ts)
  {
    hide Sum, SettleBalances, SidePart, PairsDiffer, Moved, Ranked, Paid, Received;
    var part := Part(balances, us);
    assert part.Keys == us && NonZero(part) == us;
    SumCongruent(us, BalanceIn(balances), BalanceIn(part));
    ts := SettleBalances(part);
    SettledInFew(part);
    forall u ensures (if u in us then BalanceOf(balances, u) else 0) + Paid(ts, u) - Received(ts, u) == 0 {
      SettlementClears(part, u);
    }
  }

  lemma {:induction false} SettledInFew(balances: map<UserId, int>)
    requires NonZero(balances) != {}
    ensures |SettleBalances(balances)| <= |NonZero(balances)| - 1
  {
    SidesSize(balances);
    TransfersAreFew(Ranked(balances, -1), Ranked(balances, 1));
  }

  lemma {:induction false} BlockHasAccounts(g: map<UserId, UserId>, l: UserId)
    requires l in g.Values
    ensures Block(g, l) != {} && Block(g, l) <= g.Keys
  {
    var u :| u in g && g[u] == l;
    assert u in Block(g, l);
  }

  ghost function Under(g: map<UserId, UserId>, labels: set<UserId>): set<UserId> { set u | u in g && g[u] in labels }

  /** Settling some of the groups one after the other. */
  lemma {:induction false} SettleGroups(balances: map<UserId, int>, g: map<UserId, UserId>, labels: set<UserId>)
    returns (ts: seq<Transfer>)
    requires Grouping(balances, g) && labels <= g.Values
    ensures |ts| <= |Under(g, labels)| - |labels| && SettlesPart(balances, Under(g, labels), ts)
    decreases |labels|
  {
    hide Sum, NonZero, Block;
    if labels == {} {
      ts := [];
      assert Under(g, labels) == {};
    } else {
      hide SettlesPart;
      var l := Pick(labels);
      var rest := labels - {l};
      var first := SettleGroups(balances, g, rest);
      BlockHasAccounts(g, l);
      BlockLeavesRest(g, labels, l);
      var next := SettlePart(balances, Block(g, l));
      ts := first + next;
      SettleBoth(balances, Under(g, rest), first, Block(g, l), next);
    }
  }

  lemma {:induction false} BlockLeavesRest(g: map<UserId, UserId>, labels: set<UserId>, l: UserId)
    requires l in labels
    ensures Under(g, labels) == Under(g, labels - {l}) + Block(g, l) && Under(g, labels - {l}) !! Block(g, l)
  {}

  /** Every grouping yields payments that settle, one fewer than accounts for each group. */
  lemma {:induction false} ManyGroupsFewPayments(
      balances: map<UserId, int>, g: map<UserId, UserId>) returns (ts: seq<Transfer>)
    requires Grouping(balances, g)
    ensures Settles(balances, ts) && |ts| <= |NonZero(balances)| - |g.Values|
  {
    hide Sum, Paid, Received;
    ts := SettleGroups(balances, g, g.Values);
    assert Under(g, g.Values) == NonZero(balances);
    forall u ensures BalanceOf(balances, u) + Paid(ts, u) - Received(ts, u) == 0 {
      assert BalanceOf(balances, u) != 0 ==> u in g;
    }
  }

  // ---------- How many payments greedy makes ----------

  /** The running totals of a ranked side. */
  ghost function RunningTotals(accounts: seq<Account>): set<int> {
    if accounts == [] then {} else {accounts[0].1} + set x | x in RunningTotals(accounts[1..]) :: accounts[0].1 + x
  }

  /** Some of the first accounts, at least one, add up to `x`. */
  ghost predicate PrefixTotal(accounts: seq<Account>, x: int) {
    exists i :: 0 < i <= |accounts| && Total(accounts[..i]) == x
  }

  lemma {:induction false} RunningTotalsArePrefixTotals(accounts: seq<Account>, x: int)
    ensures x in RunningTotals(accounts) <==> PrefixTotal(accounts, x)
  {
    if accounts != [] {
      var head, rest := accounts[0].1, accounts[1..];
      RunningTotalsArePrefixTotals(rest, x - head);
      forall i | 0 < i <= |accounts| ensures Total(accounts[..i]) == head + Total(rest[..i - 1]) {
        assert accounts[..i][1..] == rest[..i - 1];
      }
      if x == head {
        assert Total(accounts[..1]) == head;
      } else if x in RunningTotals(accounts) {
        assert x - head in RunningTotals(rest);
        var j :| 0 < j <= |rest| && Total(rest[..j]) == x - head;
        assert Total(accounts[..j + 1]) == x;
      }
      if i :| 0 < i <= |accounts| && Total(accounts[..i]) == x {
        if i > 1 {
          assert Total(rest[..i - 1]) == x - head;
          assert x == head + (x - head);
        }
      }
    }
  }

  /** The points at which debtors and creditors run level. */
  ghost function Level(ds: seq<Account>, cs: seq<Account>): set<int> { RunningTotals(ds) * RunningTotals(cs) }

  lemma {:induction false} RunningTotalsPositive(accounts: seq<Account>)
    requires Distinct(accounts)
    ensures forall x | x in RunningTotals(accounts) :: x >= accounts[0].1 > 0
  {
    if accounts != [] { RunningTotalsPositive(accounts[1..]); }
  }

  ghost function Shifted(s: set<int>, amount: int): set<int> { set x | x in s :: amount + x }

  lemma {:induction false} ShiftedSize(s: set<int>, amount: int)
    ensures |Shifted(s, amount)| == |s|
  {
    var shift: int -> int := x => amount + x;
    ImageSize(s, shift);
    var image := Image(s, shift);
    forall y ensures y in Shifted(s, amount) <==> y in image {
      if y in Shifted(s, amount) { assert shift(y - amount) == y; }
      if y in image { var x :| x in s && shift(x) == y; }
    }
    assert Shifted(s, amount) == image;
  }

  /** Paying down the head moves the running totals down. */
  lemma {:induction false} PaidDownTotals(accounts: seq<Account>, pay: int)
    requires Distinct(accounts) && accounts != [] && 0 < pay <= accounts[0].1
    ensures var rest := Shifted(RunningTotals(PaidDown(accounts, pay)), pay);
            RunningTotals(accounts) == (if accounts[0].1 == pay then {pay} else {}) + rest && pay !in rest
  {
    hide Distinct;
    PaidDownFacts(accounts, pay);
    RunningTotalsPositive(PaidDown(accounts, pay));
    var head, rest := accounts[0].1, accounts[1..];
    if head != pay {
      var left := PaidDown(accounts, pay);
      assert left[1..] == rest && left[0].1 == head - pay;
      forall x ensures x in RunningTotals(accounts) <==> x in Shifted(RunningTotals(left), pay) {
        if x in RunningTotals(accounts) { assert x - pay in RunningTotals(left); }
      }
    }
  }

  /** One payment for each account, less one for each point at which both sides run level. */
  lemma {:induction false} GreedyCount(ds: seq<Account>, cs: seq<Account>)
    requires Distinct(ds) && Distinct(cs) && Total(ds) == Total(cs)
    ensures |Match(ds, cs)| == |ds| + |cs| - |Level(ds, cs)|
    decreases |ds| + |cs|
  {
    hide Distinct, RunningTotals, PaidDown, Match;
    TotalNonNegative(ds);
    TotalNonNegative(cs);
    if ds == [] || cs == [] {
      NoTotals();
      MatchDone(ds, cs);
    } else {
      var pay := Min(ds[0].1, cs[0].1);
      MatchStep(ds, cs);
      PaidDownFacts(ds, pay);
      PaidDownFacts(cs, pay);
      PaidDownTotals(ds, pay);
      PaidDownTotals(cs, pay);
      var dl, cl := PaidDown(ds, pay), PaidDown(cs, pay);
      GreedyCount(dl, cl);
      ShiftedSize(Level(dl, cl), pay);
      LevelStep(ds, cs, dl, cl, pay);
    }
  }

  lemma NoTotals()
    ensures RunningTotals([]) == {}
  {}

  lemma {:induction false} LevelStep(ds: seq<Account>, cs: seq<Account>, dl: seq<Account>, cl: seq<Account>, pay: int)
    requires ds != [] && cs != [] && pay == Min(ds[0].1, cs[0].1)
    requires RunningTotals(ds) == (if ds[0].1 == pay then {pay} else {}) + Shifted(RunningTotals(dl), pay)
    requires RunningTotals(cs) == (if cs[0].1 == pay then {pay} else {}) + Shifted(RunningTotals(cl), pay)
    requires pay !in Shifted(RunningTotals(dl), pay) && pay !in Shifted(RunningTotals(cl), pay)
    ensures Level(ds, cs) == (if ds[0].1 == cs[0].1 then {pay} else {}) + Shifted(Level(dl, cl), pay)
    ensures pay !in Shifted(Level(dl, cl), pay)
  {
    hide RunningTotals;
    forall x ensures x in Shifted(Level(dl, cl), pay)
                <==> x in Shifted(RunningTotals(dl), pay) && x in Shifted(RunningTotals(cl), pay) {
      if x in Shifted(RunningTotals(dl), pay) && x in Shifted(RunningTotals(cl), pay) {
        assert x - pay in Level(dl, cl);
      }
    }
  }

  ghost function LevelPoints(balances: map<UserId, int>): set<int> { Level(Ranked(balances, -1), Ranked(balances, 1)) }

  /** The sides run level where some of the largest debts add up to what some of the largest credits do. */
  lemma {:induction false} LevelPointsMeaning(balances: map<UserId, int>, x: int)
    ensures x in LevelPoints(balances)
       <==> PrefixTotal(Ranked(balances, -1), x) && PrefixTotal(Ranked(balances, 1), x)
  {
    hide Ranked, RunningTotals, PrefixTotal;
    RunningTotalsArePrefixTotals(Ranked(balances, -1), x);
    RunningTotalsArePrefixTotals(Ranked(balances, 1), x);
  }

  /** The number of suggested payments for balances that sum to zero. */
  lemma {:induction false} SuggestedPayments(balances: map<UserId, int>)
    requires Sum(balances.Keys, BalanceIn(balances)) == 0
    ensures |SettleBalances(balances)| == |NonZero(balances)| - |LevelPoints(balances)|
  {
    hide Ranked, Match, Level;
    ZeroSumTotals(balances);
    GreedyCount(Ranked(balances, -1), Ranked(balances, 1));
    SidesSize(balances);
  }

  // ---------- When greedy is minimal ----------

  /** Some payments settle the balances, the suggested ones among them, exactly when they sum to zero. */
  lemma {:induction false} SettledIffZeroSum(balances: map<UserId, int>)
    ensures Settles(balances, SettleBalances(balances)) <==> Sum(balances.Keys, BalanceIn(balances)) == 0
    ensures (exists ts :: Settles(balances, ts)) <==> Sum(balances.Keys, BalanceIn(balances)) == 0
  {
    hide SettleBalances, Sum;
    if Sum(balances.Keys, BalanceIn(balances)) == 0 {
      forall u { SettlementClears(balances, u); }
      assert Settles(balances, SettleBalances(balances));
    }
    if ts :| Settles(balances, ts) { SettledSumsToZero(balances, ts); }
  }

  /**
   * No payments settle the balances in fewer steps than the suggested ones exactly when no grouping
   * has more groups than there are points at which the ranked debtors and creditors run level.
   */
  lemma {:induction false} GreedyIsMinimalIff(balances: map<UserId, int>)
    ensures (forall ts | Settles(balances, ts) :: |SettleBalances(balances)| <= |ts|)
       <==> (forall g | Grouping(balances, g) :: |g.Values| <= |LevelPoints(balances)|)
  {
    hide SettleBalances, Settles, Grouping, LevelPoints, NonZero, Sum;
    if forall g | Grouping(balances, g) :: |g.Values| <= |LevelPoints(balances)| {
      forall ts | Settles(balances, ts) ensures |SettleBalances(balances)| <= |ts| {
        var g := FewPaymentsManyGroups(balances, ts);
        SettledSumsToZero(balances, ts);
        SuggestedPayments(balances);
      }
    }
    if forall ts | Settles(balances, ts) :: |SettleBalances(balances)| <= |ts| {
      forall g | Grouping(balances, g) ensures |g.Values| <= |LevelPoints(balances)| {
        var ts := ManyGroupsFewPayments(balances, g);
        SettledSumsToZero(balances, ts);
        SuggestedPayments(balances);
      }
    }
  }

  /** The fewest payments that settle are one for each account less one for each group of the finest grouping. */
  lemma {:induction false} FewestPayments(
      balances: map<UserId, int>, g: map<UserId, UserId>) returns (ts: seq<Transfer>)
    requires Grouping(balances, g) && forall h | Grouping(balances, h) :: |h.Values| <= |g.Values|
    ensures Settles(balances, ts) && |ts| == |NonZero(balances)| - |g.Values|
    ensures forall other | Settles(balances, other) :: |ts| <= |other|
  {
    hide Settles, Grouping, NonZero;
    ts := ManyGroupsFewPayments(balances, g);
    forall other | Settles(balances, other) ensures |NonZero(balances)| - |g.Values| <= |other| {
      var h := FewPaymentsManyGroups(balances, other);
    }
  }

  /** No proper part of the non-zero accounts sums to zero. */
  ghost predicate Indivisible(balances: map<UserId, int>) {
    forall part | part < NonZero(balances) && part != {} :: Sum(part, BalanceIn(balances)) != 0
  }

  /** In particular when the accounts cannot be divided at all. */
  lemma {:induction false} IndivisibleIsMinimal(balances: map<UserId, int>, ts: seq<Transfer>)
    requires Indivisible(balances) && Settles(balances, ts)
    ensures |SettleBalances(balances)| <= |ts|
  {
    hide SettleBalances, Settles, Sum;
    var g := FewPaymentsManyGroups(balances, ts);
    if NonZero(balances) == {} {
      SettledSumsToZero(balances, ts);
      SuggestedPayments(balances);
    } else {
      SettledInFew(balances);
      OneGroup(balances, g);
    }
  }

  lemma {:induction false} OneGroup(balances: map<UserId, int>, g: map<UserId, UserId>)
    requires Indivisible(balances) && Grouping(balances, g)
    ensures |g.Values| <= 1
  {
    if l :| l in g.Values {
      var u :| u in g && g[u] == l;
      assert u in Block(g, l);
      assert Block(g, l) == NonZero(balances);
      forall m | m in g.Values ensures m == l {
        var v :| v in g && g[v] == m;
        assert v in Block(g, l);
      }
      assert g.Values == {l};
    }
  }

  // ---------- Greedy is not always minimal ----------

  const UNEVEN := map["a" := -6, "b" := -5, "c" := 5, "d" := 3, "e" := 3]

  const THREE_PAYMENTS := [Transfer("b", "c", 5), Transfer("a", "d", 3), Transfer("a", "e", 3)]

  /** The ranking is whatever lists a side in descending order. */
  lemma {:induction false} RankedIs(balances: map<UserId, int>, sign: int, r: seq<Account>)
    requires StrictlyAscending(r, ByAmountDesc)
    requires forall a :: a in r <==> a in Side(balances, sign)
    ensures Ranked(balances, sign) == r
  {
    hide ByAmountDesc, StrictlyAscending;
    AccountsTotal(set a | a in r);
    AscendingIsUnique(r, Ranked(balances, sign), ByAmountDesc);
  }

  lemma {:induction false} UnevenRanks()
    ensures Ranked(UNEVEN, -1) == [("a", 6), ("b", 5)] && Ranked(UNEVEN, 1) == [("c", 5), ("d", 3), ("e", 3)]
  {
    hide Ranked;
    assert Side(UNEVEN, -1) == {("a", 6), ("b", 5)} by { SideOfUneven(-1); }
    assert Side(UNEVEN, 1) == {("c", 5), ("d", 3), ("e", 3)} by { SideOfUneven(1); }
    hide Side;
    assert StrLe("d", "e");
    RankedIs(UNEVEN, -1, [("a", 6), ("b", 5)]);
    RankedIs(UNEVEN, 1, [("c", 5), ("d", 3), ("e", 3)]);
  }

  lemma {:induction false} SideOfUneven(sign: int)
    requires sign == 1 || sign == -1
    ensures Side(UNEVEN, sign) == if sign == 1 then {("c", 5), ("d", 3), ("e", 3)} else {("a", 6), ("b", 5)}
  {
    assert UNEVEN.Keys == {"a", "b", "c", "d", "e"};
    assert UNEVEN["a"] == -6 && UNEVEN["b"] == -5 && UNEVEN["c"] == 5 && UNEVEN["d"] == 3 && UNEVEN["e"] == 3;
  }

  /** One round of the match, with what it leaves. */
  lemma {:induction false} OneMore(ds: seq<Account>, cs: seq<Account>, dsLeft: seq<Account>, csLeft: seq<Account>)
    requires Distinct(ds) && Distinct(cs) && ds != [] && cs != []
    requires var pay := Min(ds[0].1, cs[0].1); dsLeft == PaidDown(ds, pay) && csLeft == PaidDown(cs, pay)
    ensures Distinct(dsLeft) && Distinct(csLeft) && |Match(ds, cs)| == 1 + |Match(dsLeft, csLeft)|
  {
    hide Match, Distinct, PaidDown;
    MatchStep(ds, cs);
  }

  /** The largest pays the largest even where three payments would do: the documented minimum is not met. */
  lemma {:induction false} GreedyIsNotMinimal()
    ensures |SettleBalances(UNEVEN)| == 4
    ensures |THREE_PAYMENTS| == 3 && Settles(UNEVEN, THREE_PAYMENTS)
  {
    hide Ranked, Match, Distinct, Settles;
    UnevenRanks();
    var e3: seq<Account> := [("e", 3)];
    assert [("c", 5), ("d", 3)] + e3 == [("c", 5), ("d", 3), ("e", 3)];
    OneMore([("a", 6), ("b", 5)], [("c", 5), ("d", 3)] + e3, [("a", 1), ("b", 5)], [("d", 3)] + e3);
    OneMore([("a", 1), ("b", 5)], [("d", 3)] + e3, [("b", 5)], [("d", 2)] + e3);
    OneMore([("b", 5)], [("d", 2)] + e3, [("b", 3)], e3);
    OneMore([("b", 3)], e3, [], []);
    MatchDone([], []);
    ThreePaymentsSettle();
  }

  lemma {:induction false} ThreePaymentsSettle()
    ensures Settles(UNEVEN, THREE_PAYMENTS)
  {
    var ts := THREE_PAYMENTS;
    assert ts[1..] == [Transfer("a", "d", 3), Transfer("a", "e", 3)];
    assert ts[1..][1..] == [Transfer("a", "e", 3)];
    assert ts[1..][1..][1..] == [];
    forall u ensures BalanceOf(UNEVEN, u) + Paid(ts, u) - Received(ts, u) == 0 {
      assert Paid(ts[1..][1..], u) == if u == "a" then 3 else 0;
      assert Paid(ts[1..], u) == if u == "a" then 6 else 0;
      assert Received(ts[1..][1..], u) == if u == "e" then 3 else 0;
      assert Received(ts[1..], u) == if u == "d" || u == "e" then 3 else 0;
    }
  }
}
