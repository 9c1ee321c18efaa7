// An expense version, the plans that divide it, and the validation that makes it balanced.
module Expenses {
  import opened Ordering
  import opened Sums
  import opened Operations
  import opened Splitting

  // ---------- Totals of a version ----------

  ghost function PaidIn(paidBy: map<UserId, int>): UserId -> int { u => if u in paidBy then paidBy[u] else 0 }

  ghost function TotalPaid(f: ExpenseFields): int { Sum(f.paidBy.Keys, PaidIn(f.paidBy)) }

  function TotalOwed(f: ExpenseFields): int { OwedSum(f.splits) }

  /** Payments and splits both reconcile to the total. */
  ghost predicate IsBalanced(f: ExpenseFields) { TotalPaid(f) == f.total && TotalOwed(f) == f.total }

  // ---------- Plans ----------

  datatype SplitPlan =
    | Equal(participants: seq<UserId>)
    | Exact(amounts: map<UserId, I64>)
    | Weighted(weights: Weights)

  /** The amounts as splits, in id order. */
  function AmountsInOrder(amounts: map<UserId, int>): (r: seq<Split>)
    ensures |r| == |amounts|
  {
    hide *;
    var us := SortedStrings(amounts.Keys);
    AllIn(us);
    seq(|us|, i requires 0 <= i < |us| => Split(us[i], amounts[us[i]]))
  }

  lemma AllIn(us: seq<UserId>)
    ensures forall i | 0 <= i < |us| :: us[i] in us
  {}

  /** Each user is listed once, with their amount. */
  lemma {:induction false} AmountsListed(amounts: map<UserId, int>)
    ensures var r := AmountsInOrder(amounts);
            && (set s | s in r :: s.user) == amounts.Keys
            && (forall s | s in r :: s.user in amounts && s.owed == amounts[s.user])
            && (forall i, j | 0 <= i < j < |r| :: r[i].user != r[j].user && StrLe(r[i].user, r[j].user))
  {
    hide SortedStrings, StrLe;
    var us, r := SortedStrings(amounts.Keys), AmountsInOrder(amounts);
    AllIn(us);
    forall u | u in amounts.Keys ensures u in set s | s in r :: s.user {
      assert u in us;
      var i :| 0 <= i < |us| && us[i] == u;
      assert r[i] in r;
    }
  }

  /** What a plan yields for a total. */
  ghost function PlanResult(plan: SplitPlan, total: I64): Result<seq<Split>, SplitError> {
    match plan
    case Equal(participants) =>
      if participants == [] then Err(Empty) else Ok(SplitEqual(total, participants))
    case Exact(amounts) =>
      if amounts == map[] then Err(Empty)
      else
        var actual := Sum(amounts.Keys, PaidIn(amounts));
        if actual != total then Err(Unbalanced(total, actual)) else Ok(AmountsInOrder(amounts))
    case Weighted(weights) => WeightedResult(total, weights)
  }

  /** When a plan is refused, and with what. */
  lemma {:induction false} PlanRefusals(plan: SplitPlan, total: I64)
    ensures PlanResult(plan, total) == Err(Empty)
       <==> plan == Equal([]) || plan == Exact(map[]) || plan == Weighted(map[])
    ensures PlanResult(plan, total) == Err(ZeroWeight)
       <==> plan.Weighted? && plan.weights != map[] && forall u | u in plan.weights :: plan.weights[u] == 0
    ensures forall x, y ::
      (PlanResult(plan, total) == Err(Unbalanced(x, y))
       <==> plan.Exact? && plan.amounts != map[] && x == total
            && y == Sum(plan.amounts.Keys, PaidIn(plan.amounts)) != total)
  {
    hide WeightedSplit, SplitEqual, AmountsInOrder;
    if plan.Weighted? {
      WeightsNonNegative(plan.weights);
      NoWeight(plan.weights);
    }
  }

  lemma {:induction false} NoWeight(weights: Weights)
    ensures TotalWeight(weights) == 0 <==> forall u | u in weights :: weights[u] == 0
  {
    if u :| u in weights && weights[u] != 0 {
      SumRemove(weights.Keys, WeightIn(weights), u);
      SumNonNegative(weights.Keys - {u}, WeightIn(weights));
    } else {
      SumZero(weights.Keys, WeightIn(weights));
    }
  }

  // ---------- Checked and wrapping sums ----------

  /** Unchecked 64-bit arithmetic: the sum modulo 2^64, read as a signed word. */
  function Wrapped(x: int): I64 { (x - I64_MIN) % 0x1_0000_0000_0000_0000 + I64_MIN }

  /** The sum of the amounts of the first `i` users in id order. */
  ghost function RunningSum(amounts: map<UserId, int>, i: nat): int
    requires i <= |amounts|
  {
    Sum(Elems(SortedStrings(amounts.Keys)[..i]), PaidIn(amounts))
  }

  /** No checked addition stops on the way, in id order. */
  ghost predicate FoldFits(amounts: map<UserId, int>) { forall i | 0 <= i <= |amounts| :: Fits(RunningSum(amounts, i)) }

  ghost predicate OwedFits(splits: seq<Split>) { forall i | 0 <= i <= |splits| :: Fits(OwedSum(splits[..i])) }

  /** A plan is computed without stopping. */
  ghost predicate PlanFits(plan: SplitPlan) { plan.Exact? ==> FoldFits(plan.amounts) }

  lemma {:induction false} RunningStep(amounts: map<UserId, int>, i: nat)
    requires i < |amounts|
    ensures var u := SortedStrings(amounts.Keys)[i];
            u in amounts && RunningSum(amounts, i + 1) == RunningSum(amounts, i) + amounts[u]
  {
    hide SortedStrings, StrictlyAscending;
    var us := SortedStrings(amounts.Keys);
    assert us[i] in us;
    assert us[..i + 1] == us[..i] + [us[i]];
    assert Elems(us[..i + 1]) == Elems(us[..i]) + {us[i]} && us[i] !in Elems(us[..i]);
    SumInsert(Elems(us[..i]), PaidIn(amounts), us[i]);
  }

  lemma {:induction false} RunningEnds(amounts: map<UserId, int>)
    ensures RunningSum(amounts, 0) == 0 && RunningSum(amounts, |amounts|) == Sum(amounts.Keys, PaidIn(amounts))
  {
    hide SortedStrings, StrictlyAscending;
    var us := SortedStrings(amounts.Keys);
    assert us[..|us|] == us && Elems(us) == amounts.Keys;
  }

  /** A checked sum of the amounts, in id order; `ok` says that no addition stopped. */
  method SumAmounts(amounts: map<UserId, I64>) returns (sum: int, ok: bool)
    ensures sum == Sum(amounts.Keys, PaidIn(amounts))
    ensures ok <==> FoldFits(amounts)
  {
    hide RunningSum, SortedStrings, StrictlyAscending;
    sum, ok := 0, true;
    var us := SortedStrings(amounts.Keys);
    RunningEnds(amounts);
    for i := 0 to |us|
      invariant sum == RunningSum(amounts, i)
      invariant ok <==> forall j | 0 <= j <= i :: Fits(RunningSum(amounts, j))
    {
      RunningStep(amounts, i);
      sum := sum + amounts[us[i]];
      ok := ok && Fits(sum);
    }
  }

  method SumOwed(splits: seq<Split>) returns (sum: int, ok: bool)
    ensures sum == OwedSum(splits)
    ensures ok <==> OwedFits(splits)
  {
    sum, ok := 0, true;
    assert splits[..0] == [];
    for i := 0 to |splits|
      invariant sum == OwedSum(splits[..i])
      invariant ok <==> forall j | 0 <= j <= i :: Fits(OwedSum(splits[..j]))
    {
      assert splits[..i + 1][..i] == splits[..i];
      sum := sum + splits[i].owed;
      ok := ok && Fits(sum);
    }
    assert splits[..|splits|] == splits;
  }

  /** A plain sum wraps round silently, in any order. */
  method SumPlain(amounts: map<UserId, I64>) returns (sum: I64)
    ensures sum == Wrapped(Sum(amounts.Keys, PaidIn(amounts)))
  {
    sum := 0;
    var todo := amounts.Keys;
    assert amounts.Keys - todo == {};
    while todo != {}
      invariant todo <= amounts.Keys
      invariant sum == Wrapped(Sum(amounts.Keys - todo, PaidIn(amounts)))
    {
      var u :| u in todo;
      ghost var done := amounts.Keys - todo;
      SumInsert(done, PaidIn(amounts), u);
      assert amounts.Keys - (todo - {u}) == done + {u};
      WrappedAdds(Sum(done, PaidIn(amounts)), amounts[u]);
      sum := Wrapped(sum + amounts[u]);
      todo := todo - {u};
    }
    assert amounts.Keys - {} == amounts.Keys;
  }

  lemma {:induction false} WrappedAdds(x: int, y: int)
    ensures Wrapped(Wrapped(x) + y) == Wrapped(x + y)
  {}

  /** Only what does not fit is changed by wrapping. */
  lemma {:induction false} WrappedMeets(x: int)
    ensures Wrapped(x) == x <==> Fits(x)
  {}

  /** Computes a plan; `ok` says that no checked addition stopped. */
  method Compute(plan: SplitPlan, total: I64) returns (r: Result<seq<Split>, SplitError>, ok: bool)
    ensures r == PlanResult(plan, total)
    ensures ok <==> PlanFits(plan)
  {
    ok := true;
    match plan {
      case Equal(participants) =>
        r := if participants == [] then Err(Empty) else Ok(SplitEqual(total, participants));
      case Exact(amounts) =>
        if amounts == map[] {
          RunningEnds(amounts);
          r := Err(Empty);
        } else {
          var actual: int;
          actual, ok := SumAmounts(amounts);
          r := if actual != total then Err(Unbalanced(total, actual)) else Ok(AmountsInOrder(amounts));
        }
      case Weighted(weights) =>
        r := SplitByWeights(total, weights);
    }
  }

  /** Every plan's shares add up to a non-negative total exactly. */
  lemma {:induction false} PlansAreExact(plan: SplitPlan, total: I64)
    requires total >= 0 && PlanResult(plan, total).Ok?
    ensures OwedSum(PlanResult(plan, total).value) == total
  {
    match plan {
      case Equal(participants) => SplitEqualIsExact(total, participants);
      case Exact(amounts) =>
        hide AmountsInOrder;
        AmountsListed(amounts);
        OwedSumOverUsers(AmountsInOrder(amounts), amounts.Keys, PaidIn(amounts));
      case Weighted(weights) => WeightedSplitIsExact(total, weights);
    }
  }

  // ---------- The shares of a plan never stop the sum ----------

  lemma {:induction false} NonNegativePrefix(splits: seq<Split>, i: nat)
    requires i <= |splits| && forall s | s in splits :: s.owed >= 0
    ensures 0 <= OwedSum(splits[..i]) <= OwedSum(splits)
  {
    if i == |splits| {
      assert splits[..i] == splits;
      if i > 0 {
        assert splits[i - 1] in splits;
        NonNegativePrefix(splits[..i - 1], i - 1);
        assert splits[..i - 1][..i - 1] == splits[..i - 1];
      }
    } else {
      var n := |splits| - 1;
      assert splits[n] in splits && splits[..n][..i] == splits[..i];
      NonNegativePrefix(splits[..n], i);
    }
  }

  lemma {:induction false} ExactPrefix(amounts: map<UserId, int>, i: nat)
    requires i <= |amounts|
    ensures OwedSum(AmountsInOrder(amounts)[..i]) == RunningSum(amounts, i)
  {
    hide RunningSum, SortedStrings, StrictlyAscending;
    var r := AmountsInOrder(amounts);
    RunningEnds(amounts);
    if i > 0 {
      ExactPrefix(amounts, i - 1);
      RunningStep(amounts, i - 1);
      assert r[..i][..i - 1] == r[..i - 1];
    }
  }

  lemma {:induction false} WeightedAreNonNegative(total: I64, weights: Weights, s: Split)
    requires total >= 0 && TotalWeight(weights) > 0 && s in WeightedSplit(total, weights)
    ensures s.owed >= 0
  {
    hide TotalWeight, UsersInOrder, OwedBy, StrictlyAscending;
    var us := UsersInOrder(weights);
    var i :| 0 <= i < |us| && WeightedSplit(total, weights)[i] == s;
    assert us[i] in us;
    SharesFit(total, weights, us[i]);
  }

  lemma {:induction false} DividedAreNonNegative(plan: SplitPlan, total: I64, s: Split)
    requires total >= 0 && !plan.Exact? && PlanResult(plan, total).Ok? && s in PlanResult(plan, total).value
    ensures s.owed >= 0
  {
    hide TotalWeight, WeightedSplit, SplitEqual;
    match plan {
      case Equal(participants) =>
        SplitEqualIsExact(total, participants);
        QuotientSign(total, |participants|);
      case Weighted(weights) => WeightedAreNonNegative(total, weights, s);
    }
  }

  lemma {:induction false} QuotientSign(a: int, b: int)
    requires a >= 0 && b > 0
    ensures a / b >= 0
  {}

  /** Whatever a plan yields for a positive total, adding up the shares in order never leaves 64 bits. */
  lemma {:induction false} PlansOwedFits(plan: SplitPlan, total: I64)
    requires total >= 0 && PlanResult(plan, total).Ok? && PlanFits(plan)
    ensures OwedFits(PlanResult(plan, total).value)
  {
    hide RunningSum, WeightedResult, SplitEqual, AmountsInOrder;
    var splits := PlanResult(plan, total).value;
    PlansAreExact(plan, total);
    if plan.Exact? {
      forall i | 0 <= i <= |splits| ensures Fits(OwedSum(splits[..i])) { ExactPrefix(plan.amounts, i); }
    } else {
      forall s | s in splits ensures s.owed >= 0 { DividedAreNonNegative(plan, total, s); }
      forall i | 0 <= i <= |splits| ensures Fits(OwedSum(splits[..i])) { NonNegativePrefix(splits, i); }
    }
  }

  // ---------- Building a version ----------

  datatype ExpenseFieldsInput = ExpenseFieldsInput(
    paidBy: map<UserId, I64>, total: I64, plan: SplitPlan, details: string)

  datatype AppError =
    | NotPositive | NoPayer | PaymentsDiffer(paid: int, total: int) | BadSplit(error: SplitError) | SplitsDiffer

  /**
   * Validates an input; `ok` says that no checked addition stopped. Every version that gets through is
   * balanced, and one gets through exactly when the total is positive, somebody paid, the payments
   * add up to it, the plan applies, and no sum of payments or exact amounts leaves 64 bits on the
   * way. A sum of payments that wraps round to the total is stopped, and the last check on the
   * splits never fires.
   */
  method BuildFields(input: ExpenseFieldsInput) returns (r: Result<ExpenseFields, AppError>, ok: bool)
    ensures ok && r.Ok? ==> IsBalanced(r.value) && r.value.total > 0
    ensures r.Ok? ==> r.value.paidBy == input.paidBy && r.value.total == input.total && r.value.details == input.details
    ensures r.Ok? ==> PlanResult(input.plan, input.total) == Ok(r.value.splits)
    ensures ok && r.Ok? <==> (input.total > 0 && input.paidBy != map[]
                              && Sum(input.paidBy.Keys, PaidIn(input.paidBy)) == input.total && FoldFits(input.paidBy)
                              && PlanResult(input.plan, input.total).Ok? && PlanFits(input.plan))
    ensures input.total <= 0 ==> ok && r == Err(NotPositive)
    ensures input.total > 0 && input.paidBy == map[] ==> ok && r == Err(NoPayer)
    ensures var paid := Wrapped(Sum(input.paidBy.Keys, PaidIn(input.paidBy)));
            input.total > 0 && input.paidBy != map[] ==>
              if paid != input.total then ok && r == Err(PaymentsDiffer(paid, input.total))
              else if ok && PlanResult(input.plan, input.total).Err?
              then r == Err(BadSplit(PlanResult(input.plan, input.total).error))
              else true
    ensures ok ==> r != Err(SplitsDiffer)
  {
    hide PlanResult, RunningSum, OwedFits;
    ok := true;
    if input.total <= 0 { return Err(NotPositive), ok; }
    if input.paidBy == map[] { return Err(NoPayer), ok; }
    var paid := SumPlain(input.paidBy);
    WrappedMeets(Sum(input.paidBy.Keys, PaidIn(input.paidBy)));
    RunningEnds(input.paidBy);
    if paid != input.total { return Err(PaymentsDiffer(paid, input.total)), ok; }
    var computed;
    computed, ok := Compute(input.plan, input.total);
    if computed.Err? { return Err(BadSplit(computed.error)), ok; }
    var fields := ExpenseFields(input.paidBy, input.total, computed.value, input.details);
    PlansAreExact(input.plan, input.total);
    if ok { PlansOwedFits(input.plan, input.total); }
    var totalPaid, paidFits := SumAmounts(input.paidBy);
    ok := ok && paidFits;
    if totalPaid == fields.total {
      var totalOwed, owedFits := SumOwed(fields.splits);
      ok := ok && owedFits;
      if totalOwed == fields.total { return Ok(fields), ok; }
    }
    return Err(SplitsDiffer), ok;
  }
}
