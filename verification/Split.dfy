// Dividing an amount among participants to the last cent.
module Splitting {
  import opened Ordering
  import opened Sums
  import opened Operations

  const I64_MAX := 0x7FFF_FFFF_FFFF_FFFF
  const I64_MIN := -0x8000_0000_0000_0000
  const I128_MAX := 0x7FFF_FFFF_FFFF_FFFF_FFFF_FFFF_FFFF_FFFF

  /** Whether a 64-bit word holds the value. */
  predicate Fits(x: int) { I64_MIN <= x <= I64_MAX }

  type I64 = x: int | I64_MIN <= x <= I64_MAX

  datatype SplitError = Empty | ZeroWeight | Unbalanced(expected: int, actual: int)

  datatype Result<+T, +E> = Ok(value: T) | Err(error: E)

  // ---------- Machine division ----------

  /** Signed division truncates toward zero. */
  function TruncDiv(a: int, b: int): int
    requires b > 0
  {
    if a >= 0 then a / b else -(-a / b)
  }

  function TruncRem(a: int, b: int): int
    requires b > 0
  {
    a - TruncDiv(a, b) * b
  }

  /** A signed remainder stored in an unsigned 128-bit word. */
  function AsU128(r: int): int { if r < 0 then r + 2 * (I128_MAX + 1) else r }

  lemma DivFacts(a: int, b: int)
    requires b > 0
    ensures a == (a / b) * b + a % b && 0 <= a % b < b
  {}

  // ---------- Equal shares ----------

  function OwedSum(splits: seq<Split>): int {
    if splits == [] then 0 else OwedSum(splits[..|splits| - 1]) + splits[|splits| - 1].owed
  }

  /** Euclidean quotient each, and one more cent for the first of the remainder. */
  function SplitEqual(total: int, users: seq<UserId>): (r: seq<Split>) {
    if users == [] then []
    else
      var n := |users|;
      var base := total / n;
      var remainder := total - base * n;
      seq(n, i requires 0 <= i < n => Split(users[i], base + if i < remainder then 1 else 0))
  }

  lemma {:induction false} FirstGetOne(splits: seq<Split>, base: int, first: nat)
    requires first <= |splits|
    requires forall i | 0 <= i < |splits| :: splits[i].owed == base + if i < first then 1 else 0
    ensures OwedSum(splits) == base * |splits| + first
  {
    if splits != [] {
      var n := |splits| - 1;
      FirstGetOne(splits[..n], base, if first > n then n else first);
      assert base * |splits| == base * n + base;
    }
  }

  /**
   * Equal shares add up to the total, also a negative one, exactly when there is somebody to share it
   * or nothing to share; they differ by at most a cent, and the larger come first.
   */
  lemma {:induction false} SplitEqualIsExact(total: int, users: seq<UserId>)
    ensures OwedSum(SplitEqual(total, users)) == total <==> users != [] || total == 0
    ensures forall s | s in SplitEqual(total, users) :: users != [] && total / |users| <= s.owed <= total / |users| + 1
    ensures |SplitEqual(total, users)| == |users|
    ensures forall i | 0 <= i < |users| :: SplitEqual(total, users)[i].user == users[i]
    ensures forall i, j | 0 <= i < j < |users| :: SplitEqual(total, users)[i].owed >= SplitEqual(total, users)[j].owed
  {
    if users != [] {
      var n := |users|;
      DivFacts(total, n);
      FirstGetOne(SplitEqual(total, users), total / n, total % n);
    }
  }

  // ---------- Weighted shares ----------

  type Weights = map<UserId, U64>

  function UsersInOrder(weights: Weights): (r: seq<UserId>)
    ensures |r| == |weights| && (forall u :: u in r <==> u in weights)
    ensures StrictlyAscending(r, StrLe) && forall i, j | 0 <= i < j < |r| :: r[i] != r[j]
  {
    hide StrictlyAscending;
    SortedStrings(weights.Keys)
  }

  ghost function WeightIn(weights: Weights): UserId -> int { u => if u in weights then weights[u] else 0 }

  ghost function TotalWeight(weights: Weights): int { Sum(weights.Keys, WeightIn(weights)) }

  /** A participant's floored share and the remainder the division left. */
  datatype Share = Share(user: UserId, floored: int, remainder: int)

  function ShareOf(total: I64, weight: U64, totalWeight: int, u: UserId): Share
    requires totalWeight > 0
  {
    Share(u, TruncDiv(total * weight, totalWeight), AsU128(TruncRem(total * weight, totalWeight)))
  }

  /** Larger remainder first, ties by user id. */
  predicate Precedes(a: Share, b: Share) {
    a.remainder > b.remainder || (a.remainder == b.remainder && StrLe(a.user, b.user))
  }

  /** The shares of distinct users, in the order they are handed leftover cents. */
  ghost predicate OnePerUser(s: set<Share>) { forall a, b | a in s && b in s && a.user == b.user :: a == b }

  lemma {:induction false} SharesTotal(s: set<Share>)
    requires OnePerUser(s)
    ensures TotalOn(s, Precedes)
  {
    hide StrLe;
    forall a, b | a in s && b in s
      ensures Precedes(a, a) && (Precedes(a, b) || Precedes(b, a)) && (Precedes(a, b) && Precedes(b, a) ==> a == b)
    {
      StrOrder(a.user, b.user);
    }
    forall a, b, c | a in s && b in s && c in s && Precedes(a, b) && Precedes(b, c) ensures Precedes(a, c) {
      if StrLe(a.user, b.user) && StrLe(b.user, c.user) { StrTransitive(a.user, b.user, c.user); }
    }
  }

  ghost function Shares(total: I64, weights: Weights): (s: set<Share>)
    requires TotalWeight(weights) > 0
    ensures OnePerUser(s)
  {
    set u | u in weights :: ShareOf(total, weights[u], TotalWeight(weights), u)
  }

  ghost function FlooredIn(total: I64, weights: Weights): UserId -> int
    requires TotalWeight(weights) > 0
  {
    u => if u in weights then ShareOf(total, weights[u], TotalWeight(weights), u).floored else 0
  }

  /** The cents the floored shares leave over; not positive when the total is negative. */
  ghost function Leftover(total: I64, weights: Weights): int
    requires TotalWeight(weights) > 0
  {
    total - Sum(weights.Keys, FlooredIn(total, weights))
  }

  ghost function Handout(total: I64, weights: Weights): (r: seq<Share>)
    requires TotalWeight(weights) > 0
    ensures (forall s :: s in r <==> s in Shares(total, weights)) && StrictlyAscending(r, Precedes)
  {
    SharesTotal(Shares(total, weights));
    Sorted(Shares(total, weights), Precedes)
  }

  /** The first `leftover` users in handout order get one extra cent. */
  ghost predicate GetsExtra(total: I64, weights: Weights, u: UserId)
    requires TotalWeight(weights) > 0
  {
    var order := Handout(total, weights);
    exists k :: 0 <= k < |order| && k < Leftover(total, weights) && order[k].user == u
  }

  ghost function OwedBy(total: I64, weights: Weights, u: UserId): int
    requires TotalWeight(weights) > 0 && u in weights
  {
    ShareOf(total, weights[u], TotalWeight(weights), u).floored + if GetsExtra(total, weights, u) then 1 else 0
  }

  ghost function WeightedSplit(total: I64, weights: Weights): seq<Split>
    requires TotalWeight(weights) > 0
  {
    var us := UsersInOrder(weights);
    seq(|us|, i requires 0 <= i < |us| => Split(us[i], OwedBy(total, weights, us[i])))
  }

  // ---------- The arithmetic of quotas ----------

  ghost function RemainderIn(total: I64, weights: Weights): UserId -> int
    requires TotalWeight(weights) > 0
  {
    u => if u in weights then TruncRem(total * weights[u], TotalWeight(weights)) else 0
  }

  ghost function NumeratorIn(total: I64, weights: Weights): UserId -> int {
    u => total * WeightIn(weights)(u)
  }

  lemma {:induction false} TruncFacts(a: int, b: int)
    requires b > 0
    ensures a >= 0 ==> 0 <= TruncRem(a, b) < b && TruncDiv(a, b) >= 0
    ensures a <= 0 ==> -b < TruncRem(a, b) <= 0 && TruncDiv(a, b) <= 0
    ensures a == TruncDiv(a, b) * b + TruncRem(a, b)
  {
    DivFacts(a, b);
    DivFacts(-a, b);
  }

  lemma {:induction false} SumScaled(s: set<UserId>, c: int, f: UserId -> int, g: UserId -> int)
    requires forall u | u in s :: g(u) == c * f(u)
    ensures Sum(s, g) == c * Sum(s, f)
  {
    SumLinear(s, c, f, u => 0, g);
    SumZero(s, (u: UserId) => 0);
    SumCongruent(s, u => 0, (u: UserId) => 0);
  }

  /** What is left over is what the remainders add up to, in units of the total weight. */
  lemma {:induction false} LeftoverIsRemainders(total: I64, weights: Weights)
    requires TotalWeight(weights) > 0
    ensures Sum(weights.Keys, RemainderIn(total, weights)) == Leftover(total, weights) * TotalWeight(weights)
  {
    var W, f, r, num := TotalWeight(weights), FlooredIn(total, weights), RemainderIn(total, weights),
        NumeratorIn(total, weights);
    forall u | u in weights.Keys ensures num(u) == W * f(u) + r(u) {
      TruncFacts(total * weights[u], W);
      MulCommutes(TruncDiv(total * weights[u], W), W);
    }
    hide FlooredIn, RemainderIn, TotalWeight, WeightIn, ShareOf;
    SumLinear(weights.Keys, W, f, r, num);
    SumScaled(weights.Keys, total, WeightIn(weights), num);
    assert Sum(weights.Keys, WeightIn(weights)) == W by { TotalIsSum(weights); }
    MulSubtract(total, Sum(weights.Keys, f), W, Sum(weights.Keys, r));
  }

  lemma TotalIsSum(weights: Weights)
    ensures TotalWeight(weights) == Sum(weights.Keys, WeightIn(weights))
  {}

  lemma MulCommutes(a: int, b: int)
    ensures a * b == b * a
  {}

  lemma MulSubtract(total: int, f: int, w: int, r: int)
    requires total * w == w * f + r
    ensures r == (total - f) * w
  {}

  // ---------- Who gets the leftover cents ----------

  ghost function Prefix(order: seq<Share>, k: nat): set<UserId>
    requires k <= |order|
  {
    set i | 0 <= i < k :: order[i].user
  }

  lemma {:induction false} PrefixSize(order: seq<Share>, k: nat)
    requires k <= |order| && forall i, j | 0 <= i < j < |order| :: order[i].user != order[j].user
    ensures |Prefix(order, k)| == k
  {
    if k > 0 {
      PrefixSize(order, k - 1);
      assert Prefix(order, k) == Prefix(order, k - 1) + {order[k - 1].user};
    }
  }

  /** The handout order lists each participant once. */
  lemma {:induction false} HandoutListsUsers(total: I64, weights: Weights)
    requires TotalWeight(weights) > 0
    ensures var order := Handout(total, weights);
            && |order| == |weights| && Prefix(order, |order|) == weights.Keys
            && (forall i, j | 0 <= i < j < |order| :: order[i].user != order[j].user)
            && (forall i | 0 <= i < |order| ::
                  order[i].user in weights
                  && order[i] == ShareOf(total, weights[order[i].user], TotalWeight(weights), order[i].user))
  {
    hide ShareOf, Precedes, TotalWeight, Handout;
    var order := Handout(total, weights);
    forall i | 0 <= i < |order|
      ensures order[i].user in weights
              && order[i] == ShareOf(total, weights[order[i].user], TotalWeight(weights), order[i].user)
    {
      assert order[i] in order && order[i] in Shares(total, weights);
      var u :| u in weights && order[i] == ShareOf(total, weights[u], TotalWeight(weights), u);
      ShareUser(total, weights[u], TotalWeight(weights), u);
    }
    forall u | u in weights.Keys ensures u in Prefix(order, |order|) {
      ShareUser(total, weights[u], TotalWeight(weights), u);
      assert ShareOf(total, weights[u], TotalWeight(weights), u) in Shares(total, weights);
    }
    forall i, j | 0 <= i < j < |order| ensures order[i].user != order[j].user { assert order[i] != order[j]; }
    assert Prefix(order, |order|) == weights.Keys;
    PrefixSize(order, |order|);
  }

  lemma ShareUser(total: I64, weight: U64, totalWeight: int, u: UserId)
    requires totalWeight > 0
    ensures ShareOf(total, weight, totalWeight, u).user == u
  {}

  /** Participants whose quota is not a whole number of cents. */
  ghost function Fractional(total: I64, weights: Weights): set<UserId>
    requires TotalWeight(weights) > 0
  {
    set u | u in weights && RemainderIn(total, weights)(u) != 0
  }

  lemma {:induction false} MulOrder(a: int, b: int, w: int)
    requires w > 0
    ensures a < b <==> a * w < b * w
  {
    MulDistributes(b - a, a, w);
    if a < b { MulAtLeast(b - a, w); } else { MulDistributes(a - b, b, w); NonNegativeProduct(a - b, w); }
  }

  lemma MulDistributes(a: int, b: int, w: int)
    ensures (a + b) * w == a * w + b * w
  {}

  lemma MulAtLeast(a: int, w: int)
    requires a >= 1 && w > 0
    ensures a * w >= w
  {}

  lemma {:induction false} BoundFromProduct(l: int, w: int, n: int, sum: int)
    requires w > 0 && n >= 0 && l * w == sum && 0 <= sum <= (w - 1) * n
    ensures 0 <= l <= n && (n > 0 ==> l < n)
  {
    MulOrder(l, 0, w);
    MulOrder(n, l, w);
    MulOrder(l, n, w);
    assert (w - 1) * n == n * w - n;
  }

  /** For a non-negative total, fewer cents are left over than participants, and no more than fractional quotas. */
  lemma {:induction false} LeftoverIsSmall(total: I64, weights: Weights)
    requires total >= 0 && TotalWeight(weights) > 0
    ensures 0 <= Leftover(total, weights) < |weights|
    ensures Leftover(total, weights) <= |Fractional(total, weights)|
  {
    var W, r, P := TotalWeight(weights), RemainderIn(total, weights), Fractional(total, weights);
    forall u | u in weights.Keys ensures 0 <= r(u) <= W - 1 {
      NonNegativeProduct(total, weights[u]);
      TruncFacts(total * weights[u], W);
    }
    hide RemainderIn, Leftover;
    LeftoverIsRemainders(total, weights);
    SumSupport(weights.Keys, P, r);
    SumNonNegative(P, r);
    SumBound(P, r, W - 1);
    BoundFromProduct(Leftover(total, weights), W, |P|, Sum(P, r));
    SubsetSize(P, weights.Keys);
    if weights.Keys == {} { SumZero(weights.Keys, WeightIn(weights)); }
  }

  lemma NonNegativeProduct(a: int, b: int)
    requires a >= 0 && b >= 0
    ensures a * b >= 0
  {}

  /** The users with an extra cent are as many as the cents left over. */
  lemma {:induction false} ExtrasCount(total: I64, weights: Weights) returns (winners: set<UserId>)
    requires TotalWeight(weights) > 0 && 0 <= Leftover(total, weights) <= |weights|
    ensures winners <= weights.Keys && |winners| == Leftover(total, weights)
    ensures forall u :: u in winners <==> GetsExtra(total, weights, u)
  {
    hide Leftover, Handout, TotalWeight, ShareOf;
    var order, l := Handout(total, weights), Leftover(total, weights);
    HandoutListsUsers(total, weights);
    winners := Prefix(order, l);
    PrefixSize(order, l);
    assert forall i | 0 <= i < l :: order[i].user in Prefix(order, |order|);
  }

  lemma {:induction false} HandoutRemainders(total: I64, weights: Weights)
    requires total >= 0 && TotalWeight(weights) > 0
    ensures var order := Handout(total, weights);
            forall i | 0 <= i < |order| ::
              order[i].user in weights && order[i].remainder == RemainderIn(total, weights)(order[i].user) >= 0
  {
    hide TotalWeight, Handout;
    HandoutListsUsers(total, weights);
    var order := Handout(total, weights);
    forall i | 0 <= i < |order| ensures order[i].remainder == RemainderIn(total, weights)(order[i].user) >= 0 {
      NonNegativeProduct(total, weights[order[i].user]);
      TruncFacts(total * weights[order[i].user], TotalWeight(weights));
    }
  }

  /** Only a participant with a fractional quota gets an extra cent. */
  lemma {:induction false} ExtraIsFractional(total: I64, weights: Weights, u: UserId)
    requires total >= 0 && TotalWeight(weights) > 0 && u in weights && GetsExtra(total, weights, u)
    ensures u in Fractional(total, weights)
  {
    hide Leftover, Handout, TotalWeight, RemainderIn;
    var order, l := Handout(total, weights), Leftover(total, weights);
    LeftoverIsSmall(total, weights);
    HandoutListsUsers(total, weights);
    HandoutRemainders(total, weights);
    var k :| 0 <= k < |order| && k < l && order[k].user == u;
    if u !in Fractional(total, weights) {
      FractionalComeFirst(total, weights, k);
      PrefixSize(order, k);
      SubsetSize(Fractional(total, weights), Prefix(order, k));
      assert false;
    }
  }

  lemma {:induction false} FractionalComeFirst(total: I64, weights: Weights, k: nat)
    requires total >= 0 && TotalWeight(weights) > 0
    requires k < |Handout(total, weights)| && Handout(total, weights)[k].remainder == 0
    ensures Fractional(total, weights) <= Prefix(Handout(total, weights), k)
  {
    hide Handout, TotalWeight, RemainderIn;
    var order := Handout(total, weights);
    HandoutListsUsers(total, weights);
    HandoutRemainders(total, weights);
    forall p | p in Fractional(total, weights) ensures p in Prefix(order, k) {
      assert p in Prefix(order, |order|);
      var i :| 0 <= i < |order| && order[i].user == p;
      assert i <= k || Precedes(order[k], order[i]);
    }
  }

  // ---------- What a weighted split promises ----------

  lemma {:induction false} OwedSumOverUsers(splits: seq<Split>, users: set<UserId>, f: UserId -> int)
    requires forall i, j | 0 <= i < j < |splits| :: splits[i].user != splits[j].user
    requires users == set s | s in splits :: s.user
    requires forall s | s in splits :: s.owed == f(s.user)
    ensures OwedSum(splits) == Sum(users, f)
  {
    if splits != [] {
      var n := |splits| - 1;
      var rest, last := splits[..n], splits[n];
      assert splits == rest + [last];
      var others := set s | s in rest :: s.user;
      assert last in splits;
      assert forall i | 0 <= i < n :: rest[i] == splits[i];
      assert last.user !in others;
      assert users == others + {last.user};
      OwedSumOverUsers(rest, others, f);
      SumInsert(others, f, last.user);
    }
  }

  ghost function OwedIn(total: I64, weights: Weights): UserId -> int
    requires TotalWeight(weights) > 0
  {
    u => if u in weights then OwedBy(total, weights, u) else 0
  }

  lemma {:induction false} SplitUsers(total: I64, weights: Weights)
    requires TotalWeight(weights) > 0
    ensures OwedSum(WeightedSplit(total, weights)) == Sum(weights.Keys, OwedIn(total, weights))
  {
    hide OwedBy, TotalWeight, UsersInOrder, StrictlyAscending, OwedIn;
    var splits, us := WeightedSplit(total, weights), UsersInOrder(weights);
    assert forall i | 0 <= i < |us| :: us[i] in us && splits[i] == Split(us[i], OwedBy(total, weights, us[i]));
    forall i | 0 <= i < |us| ensures splits[i].owed == OwedIn(total, weights)(us[i]) { OwedAt(total, weights, us[i]); }
    UsersOfSplits(splits, us);
    assert weights.Keys == set s | s in splits :: s.user;
    OwedSumOverUsers(splits, weights.Keys, OwedIn(total, weights));
  }

  lemma OwedAt(total: I64, weights: Weights, u: UserId)
    requires TotalWeight(weights) > 0 && u in weights
    ensures OwedIn(total, weights)(u) == OwedBy(total, weights, u)
  {}

  lemma {:induction false} UsersOfSplits(splits: seq<Split>, us: seq<UserId>)
    requires |splits| == |us| && forall i | 0 <= i < |us| :: splits[i].user == us[i]
    ensures (set s | s in splits :: s.user) == Elems(us)
  {
    forall u | u in Elems(us) ensures u in set s | s in splits :: s.user {
      var i :| 0 <= i < |us| && us[i] == u;
      assert splits[i] in splits;
    }
  }

  /** The shares add up to the total exactly when it is not negative or every quota is a whole number of cents. */
  lemma {:induction false} WeightedSplitIsExact(total: I64, weights: Weights)
    requires TotalWeight(weights) > 0
    ensures OwedSum(WeightedSplit(total, weights)) == total
       <==> total >= 0 || forall u | u in weights :: (total * weights[u]) % TotalWeight(weights) == 0
  {
    SplitUsers(total, weights);
    if total >= 0 {
      NonNegativeSplitIsExact(total, weights);
    } else {
      NegativeSplit(total, weights);
    }
  }

  lemma {:induction false} NonNegativeSplitIsExact(total: I64, weights: Weights)
    requires total >= 0 && TotalWeight(weights) > 0
    ensures Sum(weights.Keys, OwedIn(total, weights)) == total
  {
    LeftoverIsSmall(total, weights);
    var winners := ExtrasCount(total, weights);
    var extra: UserId -> int := u => if u in winners then 1 else 0;
    SumIndicator(weights.Keys, winners, extra);
    hide TotalWeight, ShareOf, GetsExtra;
    forall u | u in weights.Keys ensures OwedIn(total, weights)(u) == 1 * FlooredIn(total, weights)(u) + extra(u) {}
    hide OwedIn, FlooredIn;
    SumLinear(weights.Keys, 1, FlooredIn(total, weights), extra, OwedIn(total, weights));
  }

  lemma {:induction false} NegativeSplit(total: I64, weights: Weights)
    requires total < 0 && TotalWeight(weights) > 0
    ensures Sum(weights.Keys, OwedIn(total, weights)) == total
       <==> forall u | u in weights :: (total * weights[u]) % TotalWeight(weights) == 0
  {
    var W, r := TotalWeight(weights), RemainderIn(total, weights);
    var negated: UserId -> int := u => -r(u);
    forall u | u in weights.Keys
      ensures negated(u) >= 0 && (r(u) == 0 <==> (total * weights[u]) % W == 0)
    {
      NonNegativeProduct(0 - (total as int), weights[u]);
      TruncFacts(total * weights[u], W);
      DivisibleBothWays(total * weights[u], W);
    }
    LeftoverIsRemainders(total, weights);
    SumScaled(weights.Keys, -1, r, negated);
    SumNonNegative(weights.Keys, negated);
    NegativeProduct(Leftover(total, weights), W, Sum(weights.Keys, r));
    forall u | u in weights.Keys ensures OwedIn(total, weights)(u) == FlooredIn(total, weights)(u) {
      assert !GetsExtra(total, weights, u);
    }
    SumCongruent(weights.Keys, OwedIn(total, weights), FlooredIn(total, weights));
    if forall u | u in weights :: (total * weights[u]) % W == 0 {
      SumZero(weights.Keys, r);
    } else {
      var u :| u in weights && (total * weights[u]) % W != 0;
      assert negated(u) > 0;
    }
  }

  lemma {:induction false} NegativeProduct(l: int, w: int, sum: int)
    requires w > 0 && l * w == sum && sum <= 0
    ensures l <= 0 && (l == 0 <==> sum == 0)
  {
    MulOrder(0, l, w);
    MulOrder(l, 0, w);
  }

  lemma {:induction false} DivisibleBothWays(a: int, b: int)
    requires b > 0 && a <= 0
    ensures TruncRem(a, b) == 0 <==> a % b == 0
  {
    TruncFacts(a, b);
    DivFacts(a, b);
    var q, r := TruncDiv(a, b), TruncRem(a, b);
    hide TruncDiv, TruncRem;
    if r == 0 { QuotientIsUnique(a, b, q, 0); }
    if a % b == 0 && r < 0 {
      MulDistributes(q, -1, b);
      QuotientIsUnique(a, b, q - 1, r + b);
    }
  }

  lemma {:induction false} QuotientIsUnique(a: int, b: int, q: int, r: int)
    requires b > 0 && a == q * b + r && 0 <= r < b
    ensures a / b == q && a % b == r
  {
    DivFacts(a, b);
    var d := q - a / b;
    MulDistributes(d, a / b, b);
    MulOrder(d, 1, b);
    MulOrder(-1, d, b);
  }

  const HALVES: Weights := map["a" := 1, "b" := 1]

  lemma {:induction false} HalvesWeigh()
    ensures TotalWeight(HALVES) == 2
  {
    var w := WeightIn(HALVES);
    assert HALVES.Keys == {"a", "b"};
    SumRemove({"a", "b"}, w, "a");
    assert {"a", "b"} - {"a"} == {"b"};
    SumRemove({"b"}, w, "b");
    assert {"b"} - {"b"} == {};
  }

  /** Truncation toward zero loses cents on a negative total that does not divide. */
  lemma {:induction false} NegativeTotalsCanLoseCents()
    ensures TotalWeight(HALVES) == 2 && OwedSum(WeightedSplit(-1, HALVES)) != -1
  {
    HalvesWeigh();
    hide TotalWeight, WeightedSplit;
    WeightedSplitIsExact(-1, HALVES);
    assert "a" in HALVES && HALVES["a"] == 1;
  }

  /** Each share is its exact quota rounded down or up: a whole or zero quota gets no extra cent. */
  lemma {:induction false} SharesAreRoundedQuotas(total: I64, weights: Weights, u: UserId)
    requires total >= 0 && TotalWeight(weights) > 0 && u in weights
    ensures var quota := total * weights[u]; var W := TotalWeight(weights); var owed := OwedBy(total, weights, u);
            && quota / W <= owed <= quota / W + 1
            && (quota % W == 0 ==> owed == quota / W)
            && (weights[u] == 0 ==> owed == 0)
  {
    hide GetsExtra, TotalWeight;
    var quota, W := total * weights[u], TotalWeight(weights);
    NonNegativeProduct(total, weights[u]);
    assert ShareOf(total, weights[u], W, u).floored == quota / W
       && TruncRem(quota, W) == quota % W by { DivFacts(quota, W); }
    if GetsExtra(total, weights, u) { ExtraIsFractional(total, weights, u); }
    hide ShareOf, TruncRem;
    if weights[u] == 0 { assert quota == 0; QuotientIsUnique(0, W, 0, 0); }
  }

  /** A heavier weight never owes less. */
  lemma {:induction false} HeavierOwesNoLess(total: I64, weights: Weights, a: UserId, b: UserId)
    requires total >= 0 && TotalWeight(weights) > 0 && a in weights && b in weights
    requires weights[a] > weights[b]
    ensures OwedBy(total, weights, a) >= OwedBy(total, weights, b)
  {
    hide ShareOf, GetsExtra, TotalWeight;
    var W := TotalWeight(weights);
    var x, y := ShareOf(total, weights[a], W, a), ShareOf(total, weights[b], W, b);
    if total == 0 {
      ZeroTotal(weights, a);
      ZeroTotal(weights, b);
    } else {
      HeavierShare(total, weights[a], weights[b], W, a, b);
      if x.floored == y.floored && GetsExtra(total, weights, b) {
        ExtraPasses(total, weights, a, b);
      }
    }
  }

  lemma {:induction false} ZeroTotal(weights: Weights, u: UserId)
    requires TotalWeight(weights) > 0 && u in weights
    ensures OwedBy(0, weights, u) == 0
  {
    hide ShareOf, GetsExtra, TotalWeight, OwedBy;
    SharesAreRoundedQuotas(0, weights, u);
    assert 0 * weights[u] == 0;
    QuotientIsUnique(0, TotalWeight(weights), 0, 0);
  }

  lemma {:induction false} HeavierShare(total: I64, wa: U64, wb: U64, w: int, a: UserId, b: UserId)
    requires total >= 0 && w > 0 && wa > wb
    ensures var x, y := ShareOf(total, wa, w, a), ShareOf(total, wb, w, b);
            && x.floored >= y.floored
            && (x.floored == y.floored && total > 0 ==> x.remainder > y.remainder)
  {
    NonNegativeProduct(total, wa);
    NonNegativeProduct(total, wb);
    TruncFacts(total * wa, w);
    TruncFacts(total * wb, w);
    if total > 0 { MulOrder(wb, wa, total); }
    var qa, qb := TruncDiv(total * wa, w), TruncDiv(total * wb, w);
    MulDistributes(qa, 1, w);
    MulOrder(qb, qa + 1, w);
  }

  /** Whoever comes earlier in the handout gets an extra cent no later. */
  lemma {:induction false} ExtraPasses(total: I64, weights: Weights, a: UserId, b: UserId)
    requires TotalWeight(weights) > 0 && a in weights && b in weights && GetsExtra(total, weights, b)
    requires var W := TotalWeight(weights);
             ShareOf(total, weights[a], W, a).remainder > ShareOf(total, weights[b], W, b).remainder
    ensures GetsExtra(total, weights, a)
  {
    hide Handout, TotalWeight, ShareOf, Leftover, StrLe;
    var order := Handout(total, weights);
    HandoutListsUsers(total, weights);
    var k :| 0 <= k < |order| && k < Leftover(total, weights) && order[k].user == b;
    assert a in Prefix(order, |order|);
    var i :| 0 <= i < |order| && order[i].user == a;
    assert i <= k || Precedes(order[k], order[i]);
  }

  /** The extra cents go to the larger remainders, and among equal ones to the smaller ids. */
  lemma {:induction false} ExtraGoesByRemainder(total: I64, weights: Weights, a: UserId, b: UserId)
    requires total >= 0 && TotalWeight(weights) > 0 && a in weights && b in weights && a != b
    requires OwedBy(total, weights, a) == total * weights[a] / TotalWeight(weights) + 1
    requires OwedBy(total, weights, b) == total * weights[b] / TotalWeight(weights)
    ensures var W := TotalWeight(weights); var x, y := total * weights[a] % W, total * weights[b] % W;
            x > y || (x == y && StrLe(a, b))
  {
    hide Handout, TotalWeight, Leftover, StrLe, ShareOf;
    var order, W := Handout(total, weights), TotalWeight(weights);
    HandoutListsUsers(total, weights);
    WholeShare(total, weights[a], W, a);
    WholeShare(total, weights[b], W, b);
    var i :| 0 <= i < |order| && i < Leftover(total, weights) && order[i].user == a;
    assert b in Prefix(order, |order|);
    var k :| 0 <= k < |order| && order[k].user == b;
    assert i < k && Precedes(order[i], order[k]);
  }

  lemma {:induction false} WholeShare(total: I64, weight: U64, W: int, u: UserId)
    requires total >= 0 && W > 0
    ensures ShareOf(total, weight, W, u) == Share(u, total * weight / W, total * weight % W)
  {
    NonNegativeProduct(total, weight);
    DivFacts(total * weight, W);
  }

  /** Of a negative total everybody owes the quota truncated toward zero, and nobody an extra cent. */
  lemma {:induction false} NegativeSharesAreTruncated(total: I64, weights: Weights, u: UserId)
    requires total < 0 && TotalWeight(weights) > 0 && u in weights
    ensures var quota: int := total * weights[u]; OwedBy(total, weights, u) == -((0 - quota) / TotalWeight(weights))
  {
    hide Handout, TotalWeight, Leftover, GetsExtra, OwedBy;
    NegativeLeavesNothing(total, weights);
    NobodyGetsExtra(total, weights, u);
    FlooredAt(total, weights, u);
    var quota: int := total * weights[u];
    NegativeFloors(total, weights[u], TotalWeight(weights), u);
  }

  lemma {:induction false} NegativeFloors(total: I64, weight: U64, W: int, u: UserId)
    requires total < 0 && W > 0
    ensures var quota: int := total * weight; ShareOf(total, weight, W, u).floored == -((0 - quota) / W)
  {
    NonNegativeProduct(0 - (total as int), weight);
  }

  // ---------- Equal weights ----------

  lemma {:induction false} OrderedHandout(total: I64, weights: Weights)
    requires TotalWeight(weights) > 0
    requires forall u, v | u in weights && v in weights :: weights[u] == weights[v]
    ensures var order, us := Handout(total, weights), UsersInOrder(weights);
            |order| == |us| && forall i | 0 <= i < |us| :: order[i].user == us[i]
  {
    hide Handout, UsersInOrder, TotalWeight, ShareOf, StrLe;
    var order, us := Handout(total, weights), UsersInOrder(weights);
    HandoutListsUsers(total, weights);
    var names := seq(|order|, i requires 0 <= i < |order| => order[i].user);
    forall i, j | 0 <= i < j < |names| ensures StrLe(names[i], names[j]) && names[i] != names[j] {
      assert Precedes(order[i], order[j]);
      SameRemainder(total, weights, order[i].user, order[j].user);
    }
    hide StrictlyAscending;
    NamesOf(order, names);
    assert forall u :: u in names <==> u in us;
    StrTotal(set x | x in names);
    AscendingIsUnique(names, us, StrLe);
  }

  lemma {:induction false} NamesOf(order: seq<Share>, names: seq<UserId>)
    requires |names| == |order| && forall i | 0 <= i < |order| :: names[i] == order[i].user
    ensures forall u :: u in names <==> u in Prefix(order, |order|)
  {
    forall u | u in Prefix(order, |order|) ensures u in names {
      var i :| 0 <= i < |order| && order[i].user == u;
      assert names[i] in names;
    }
  }

  lemma SameRemainder(total: I64, weights: Weights, u: UserId, v: UserId)
    requires TotalWeight(weights) > 0 && u in weights && v in weights && weights[u] == weights[v]
    ensures var W := TotalWeight(weights);
            ShareOf(total, weights[u], W, u).remainder == ShareOf(total, weights[v], W, v).remainder
  {}

  /** With all weights equal, weighting is splitting equally among the users in id order. */
  lemma {:induction false} EqualWeightsSplitEqually(total: I64, weights: Weights, w: U64)
    requires total >= 0 && TotalWeight(weights) > 0
    requires forall u | u in weights :: weights[u] == w
    ensures WeightedSplit(total, weights) == SplitEqual(total, UsersInOrder(weights))
  {
    hide Handout, UsersInOrder, TotalWeight, ShareOf, StrLe, GetsExtra, Leftover;
    var us, n := UsersInOrder(weights), |weights|;
    EqualQuotas(total, weights, w);
    DivFacts(total, n);
    forall i | 0 <= i < |us|
      ensures us[i] in weights && OwedBy(total, weights, us[i]) == total / n + if i < total % n then 1 else 0
    {
      assert us[i] in us;
      ExtraInOrder(total, weights, i);
    }
  }

  /** With equal weights the extra cents go to the first users in id order. */
  lemma {:induction false} ExtraInOrder(total: I64, weights: Weights, i: nat)
    requires TotalWeight(weights) > 0 && i < |UsersInOrder(weights)|
    requires forall u, v | u in weights && v in weights :: weights[u] == weights[v]
    ensures GetsExtra(total, weights, UsersInOrder(weights)[i]) <==> i < Leftover(total, weights)
  {
    hide Handout, UsersInOrder, TotalWeight, ShareOf, StrLe, Leftover;
    var us, order := UsersInOrder(weights), Handout(total, weights);
    OrderedHandout(total, weights);
    HandoutListsUsers(total, weights);
    assert order[i].user == us[i];
  }

  lemma {:induction false} EqualQuotas(total: I64, weights: Weights, w: U64)
    requires total >= 0 && TotalWeight(weights) > 0
    requires forall u | u in weights :: weights[u] == w
    ensures |weights| > 0 && Leftover(total, weights) == total % |weights|
    ensures forall u | u in weights :: ShareOf(total, w, TotalWeight(weights), u).floored == total / |weights|
  {
    var n, W := |weights|, TotalWeight(weights);
    var one: UserId -> int := u => if u in weights.Keys then 1 else 0;
    SumIndicator(weights.Keys, weights.Keys, one);
    SumScaled(weights.Keys, w, one, WeightIn(weights));
    assert W == w * n;
    assert w * 0 == 0;
    NonNegativeProduct(total, w);
    QuotaOfEqual(total, w, n);
    TruncFacts(total * w, W);
    var f := FlooredIn(total, weights);
    forall u | u in weights.Keys ensures f(u) == (total / n) * one(u) {}
    SumScaled(weights.Keys, total / n, one, f);
    DivFacts(total, n);
  }

  lemma {:induction false} QuotaOfEqual(total: int, w: int, n: int)
    requires total >= 0 && n > 0 && w * n > 0 && w >= 0
    ensures (total * w) / (w * n) == total / n
  {
    DivFacts(total, n);
    var q, r := total / n, total % n;
    assert 0 * n == 0;
    assert total * w == q * (w * n) + r * w by {
      assert total * w == (q * n + r) * w;
      MulDistributes(q * n, r, w);
      Regroup(q, n, w);
    }
    NonNegativeProduct(r, w);
    MulOrder(r, n, w);
    MulCommutes(n, w);
    QuotientIsUnique(total * w, w * n, q, r * w);
  }

  lemma Regroup(q: int, n: int, w: int)
    ensures (q * n) * w == q * (w * n)
  {}

  // ---------- Narrowing ----------

  /** The products fit 128 bits, quotients fit 64, and the remainder's cast keeps it unless it is negative. */
  lemma {:induction false} NarrowingIsExact(total: I64, weights: Weights, u: UserId)
    requires u in weights && TotalWeight(weights) > 0 && |weights| <= I64_MAX
    ensures -I128_MAX - 1 <= total * weights[u] <= I128_MAX
    ensures TotalWeight(weights) <= I128_MAX
    ensures I64_MIN <= TruncDiv(total * weights[u], TotalWeight(weights)) <= I64_MAX
    ensures AsU128(TruncRem(total * weights[u], TotalWeight(weights)))
         == TruncRem(total * weights[u], TotalWeight(weights))
       <==> total >= 0 || (total * weights[u]) % TotalWeight(weights) == 0
  {
    var W, w := TotalWeight(weights), weights[u];
    SumBound(weights.Keys, WeightIn(weights), 0xFFFF_FFFF_FFFF_FFFF);
    SumNonNegative(weights.Keys, WeightIn(weights));
    assert w <= W;
    QuotaWithinTotal(total, w, W);
    WideProduct(total, w);
    if total < 0 {
      NonNegativeProduct(0 - (total as int), w);
      TruncFacts(total * w, W);
      DivisibleBothWays(total * w, W);
    }
  }

  /** So do the 64-bit accumulators: the running sum of quotients and the leftover. */
  lemma {:induction false} AccumulatorsFit(total: I64, weights: Weights, done: set<UserId>)
    requires TotalWeight(weights) > 0 && done <= weights.Keys
    ensures var lo, hi := if total >= 0 then 0 else total, if total >= 0 then total else 0;
            lo <= Sum(done, FlooredIn(total, weights)) <= hi && lo <= Leftover(total, weights) <= hi
  {
    hide TotalWeight, ShareOf, FlooredIn;
    var f := FlooredIn(total, weights);
    forall v | v in weights.Keys ensures if total >= 0 then f(v) >= 0 else f(v) <= 0 { QuotaSign(total, weights, v); }
    SumDisjoint(done, weights.Keys - done, f);
    assert done + (weights.Keys - done) == weights.Keys;
    SumSign(done, f, total >= 0);
    SumSign(weights.Keys - done, f, total >= 0);
    if total >= 0 { LeftoverIsSmall(total, weights); } else { NegativeLeavesNothing(total, weights); }
  }

  /** And the final shares. */
  lemma {:induction false} SharesFit(total: I64, weights: Weights, u: UserId)
    requires TotalWeight(weights) > 0 && u in weights
    ensures (if total >= 0 then 0 else total) <= OwedBy(total, weights, u) <= (if total >= 0 then total else 0)
  {
    hide TotalWeight, ShareOf, FlooredIn, OwedBy;
    if total >= 0 {
      forall v | v in weights.Keys ensures OwedIn(total, weights)(v) >= 0 {
        QuotaSign(total, weights, v);
        FlooredOrMore(total, weights, v);
      }
      NonNegativeSplitIsExact(total, weights);
      SumNonNegative(weights.Keys, OwedIn(total, weights));
      assert OwedIn(total, weights)(u) == OwedBy(total, weights, u);
    } else {
      NegativeLeavesNothing(total, weights);
      NobodyGetsExtra(total, weights, u);
      AccumulatorsFit(total, weights, {u});
      SumSingle({u}, FlooredIn(total, weights), u);
    }
  }

  lemma {:induction false} FlooredOrMore(total: I64, weights: Weights, u: UserId)
    requires TotalWeight(weights) > 0 && u in weights
    ensures OwedIn(total, weights)(u) >= FlooredIn(total, weights)(u)
  {
    hide TotalWeight, GetsExtra, ShareOf;
  }

  lemma {:induction false} QuotaSign(total: I64, weights: Weights, u: UserId)
    requires TotalWeight(weights) > 0 && u in weights
    ensures if total >= 0 then FlooredIn(total, weights)(u) >= 0 else FlooredIn(total, weights)(u) <= 0
  {
    hide TotalWeight;
    var t: int := total;
    NonNegativeProduct(if t >= 0 then t else -t, weights[u]);
    TruncFacts(t * weights[u], TotalWeight(weights));
  }

  lemma {:induction false} SumSign(s: set<UserId>, f: UserId -> int, positive: bool)
    requires forall u | u in s :: if positive then f(u) >= 0 else f(u) <= 0
    ensures if positive then Sum(s, f) >= 0 else Sum(s, f) <= 0
  {
    if positive { SumNonNegative(s, f); } else { SumBound(s, f, 0); }
  }

  lemma {:induction false} NobodyGetsExtra(total: I64, weights: Weights, u: UserId)
    requires TotalWeight(weights) > 0 && u in weights && Leftover(total, weights) <= 0
    ensures OwedBy(total, weights, u) == FlooredIn(total, weights)(u)
  {
    hide TotalWeight, Leftover, ShareOf, Handout;
  }

  lemma {:induction false} WideProduct(total: I64, w: U64)
    ensures -I128_MAX - 1 <= total * w <= I128_MAX
  {
    if total >= 0 {
      ProductBound(total, I64_MAX, w, 0xFFFF_FFFF_FFFF_FFFF);
    } else {
      ProductBound(0 - (total as int), 0x8000_0000_0000_0000, w, 0xFFFF_FFFF_FFFF_FFFF);
      assert (0 - (total as int)) * w == -(total * w);
    }
  }

  lemma {:induction false} ProductBound(a: int, amax: int, b: int, bmax: int)
    requires 0 <= a <= amax && 0 <= b <= bmax
    ensures 0 <= a * b <= amax * bmax
  {
    NonNegativeProduct(a, b);
    NonNegativeProduct(amax - a, b);
    NonNegativeProduct(amax, bmax - b);
    assert (amax - a) * b == amax * b - a * b;
    assert amax * (bmax - b) == amax * bmax - amax * b;
  }

  lemma {:induction false} QuotaWithinTotal(total: I64, w: int, W: int)
    requires 0 <= w <= W && W > 0
    ensures (if total >= 0 then 0 else total) <= TruncDiv(total * w, W) <= (if total >= 0 then total else 0)
    ensures total >= 0 ==> TruncRem(total * w, W) >= 0
  {
    var t: int := total;
    var m := if t >= 0 then t else -t;
    NonNegativeProduct(m, w);
    NonNegativeProduct(m, W - w);
    assert m * (W - w) == m * W - m * w;
    DivFacts(m * w, W);
    MulOrder(m, (m * w) / W, W);
    TruncFacts(t * w, W);
    if t < 0 { assert t * w == -(m * w); }
  }

  // ---------- The algorithm ----------

  lemma {:induction false} PrefixOfUsers(us: seq<UserId>, i: nat)
    requires i < |us| && forall j, k | 0 <= j < k < |us| :: us[j] != us[k]
    ensures Elems(us[..i + 1]) == Elems(us[..i]) + {us[i]} && us[i] !in Elems(us[..i])
  {
    assert us[..i + 1] == us[..i] + [us[i]];
  }

  method SumWeights(weights: Weights, us: seq<UserId>) returns (totalWeight: int)
    requires us == UsersInOrder(weights)
    ensures totalWeight == TotalWeight(weights)
  {
    hide UsersInOrder, StrictlyAscending;
    totalWeight := 0;
    for i := 0 to |us|
      invariant totalWeight == Sum(Elems(us[..i]), WeightIn(weights))
    {
      PrefixOfUsers(us, i);
      SumInsert(Elems(us[..i]), WeightIn(weights), us[i]);
      assert us[i] in us;
      totalWeight := totalWeight + weights[us[i]];
    }
    assert us[..|us|] == us && Elems(us) == weights.Keys;
  }

  /** The floored shares, in id order, and what they add up to. */
  method FloorShares(total: I64, weights: Weights, us: seq<UserId>, totalWeight: int)
    returns (shares: seq<Share>, distributed: int)
    requires us == UsersInOrder(weights) && totalWeight == TotalWeight(weights) > 0
    ensures shares == SharesInOrder(total, weights)
    ensures total - distributed == Leftover(total, weights)
  {
    hide UsersInOrder, StrictlyAscending, TotalWeight, ShareOf, SharesInOrder, Leftover, FlooredIn;
    assert forall i | 0 <= i < |us| :: us[i] in us;
    shares := [];
    distributed := 0;
    for i := 0 to |us|
      invariant distributed == Sum(Elems(us[..i]), FlooredIn(total, weights))
      invariant |shares| == i && forall j | 0 <= j < i ::
        shares[j] == ShareOf(total, weights[us[j]], totalWeight, us[j])
    {
      PrefixOfUsers(us, i);
      SumInsert(Elems(us[..i]), FlooredIn(total, weights), us[i]);
      var share := ShareOf(total, weights[us[i]], totalWeight, us[i]);
      FlooredAt(total, weights, us[i]);
      shares := shares + [share];
      distributed := distributed + share.floored;
    }
    FlooredShares(total, weights, shares, distributed);
  }

  lemma FlooredAt(total: I64, weights: Weights, u: UserId)
    requires TotalWeight(weights) > 0 && u in weights
    ensures FlooredIn(total, weights)(u) == ShareOf(total, weights[u], TotalWeight(weights), u).floored
  {}

  lemma {:induction false} FlooredShares(total: I64, weights: Weights, shares: seq<Share>, distributed: int)
    requires TotalWeight(weights) > 0
    requires var us := UsersInOrder(weights);
             && |shares| == |us| && distributed == Sum(Elems(us[..|us|]), FlooredIn(total, weights))
             && forall j | 0 <= j < |us| ::
               us[j] in weights && shares[j] == ShareOf(total, weights[us[j]], TotalWeight(weights), us[j])
    ensures shares == SharesInOrder(total, weights) && total - distributed == Leftover(total, weights)
  {
    hide UsersInOrder, StrictlyAscending, TotalWeight, ShareOf, FlooredIn;
    var us := UsersInOrder(weights);
    assert us[..|us|] == us && Elems(us) == weights.Keys;
  }

  /** The shares in id order. */
  ghost function SharesInOrder(total: I64, weights: Weights): (r: seq<Share>)
    requires TotalWeight(weights) > 0
    ensures |r| == |UsersInOrder(weights)|
  {
    var us := UsersInOrder(weights);
    seq(|us|, i requires 0 <= i < |us| => ShareOf(total, weights[us[i]], TotalWeight(weights), us[i]))
  }

  lemma {:induction false} SharesInOrderElems(total: I64, weights: Weights)
    requires TotalWeight(weights) > 0
    ensures Elems(SharesInOrder(total, weights)) == Shares(total, weights)
  {
    hide ShareOf, TotalWeight, UsersInOrder;
    var us, shares := UsersInOrder(weights), SharesInOrder(total, weights);
    forall s ensures s in Elems(shares) <==> s in Shares(total, weights) {
      if s in Shares(total, weights) {
        var u :| u in weights && s == ShareOf(total, weights[u], TotalWeight(weights), u);
        assert u in us;
        var i :| 0 <= i < |us| && us[i] == u;
        assert shares[i] in shares;
      }
      if s in Elems(shares) {
        var i :| 0 <= i < |shares| && shares[i] == s;
        assert us[i] in us;
      }
    }
  }

  /** The positions of the shares in handout order: what sorting the indices yields. */
  method SortByRemainder(ghost total: I64, ghost weights: Weights, shares: array<Share>) returns (order: seq<nat>)
    requires TotalWeight(weights) > 0 && shares[..] == SharesInOrder(total, weights)
    ensures |order| == |Handout(total, weights)|
    ensures forall k | 0 <= k < |order| :: order[k] < shares.Length && shares[order[k]] == Handout(total, weights)[k]
  {
    hide SharesInOrder, TotalWeight, Precedes, StrictlyAscending, TotalOn, Handout, Shares;
    var contents := shares[..];
    var all := set s | s in contents;
    SharesInOrderElems(total, weights);
    assert all == Elems(contents);
    RankedIsHandout(total, weights, all);
    var ranked := Sorted(all, Precedes);
    assert forall s | s in ranked :: s in all;
    order := PositionsOf(contents, ranked);
  }

  method PositionsOf(shares: seq<Share>, ranked: seq<Share>) returns (order: seq<nat>)
    requires forall s | s in ranked :: s in shares
    ensures |order| == |ranked|
    ensures forall k | 0 <= k < |order| :: order[k] < |shares| && shares[order[k]] == ranked[k]
  {
    order := [];
    for k := 0 to |ranked|
      invariant |order| == k
      invariant forall m | 0 <= m < k :: order[m] < |shares| && shares[order[m]] == ranked[m]
    {
      assert ranked[k] in ranked;
      var i :| 0 <= i < |shares| && shares[i] == ranked[k];
      order := order + [i];
    }
  }

  lemma {:induction false} RankedIsHandout(total: I64, weights: Weights, all: set<Share>)
    requires TotalWeight(weights) > 0 && all == Shares(total, weights)
    ensures TotalOn(all, Precedes) && Sorted(all, Precedes) == Handout(total, weights)
  {
    SharesTotal(all);
  }

  /** A share that has been handed `extra` cents. */
  function WithExtra(s: Share, extra: int): Share { s.(floored := s.floored + extra) }

  ghost predicate InHead(order: seq<nat>, i: nat, j: nat) { exists k :: 0 <= k < |order| && k < i && order[k] == j }

  lemma SmallModulo(i: nat, n: nat)
    requires i < n
    ensures i % n == i
  {}

  /** One more position in the head: the next, which was not in it. */
  lemma {:induction false} NextInHead(order: seq<nat>, i: nat, j: nat)
    requires i < |order| && forall k, m | 0 <= k < m < |order| :: order[k] != order[m]
    ensures InHead(order, i + 1, j) <==> InHead(order, i, j) || j == order[i]
    ensures !InHead(order, i, order[i])
  {
    if j == order[i] { assert i < i + 1; }
  }

  /** Hands one cent to each of the first `leftover` positions in `order`. */
  method HandOut(shares: array<Share>, order: seq<nat>, leftover: int)
    requires leftover <= 0 || leftover < |order|
    requires forall k | 0 <= k < |order| :: order[k] < shares.Length
    requires forall k, m | 0 <= k < m < |order| :: order[k] != order[m]
    modifies shares
    ensures forall j | 0 <= j < shares.Length ::
      shares[j] == WithExtra(old(shares[j]), if leftover > 0 && InHead(order, leftover, j) then 1 else 0)
  {
    assert forall j :: !InHead(order, 0, j);
    hide InHead;
    var left, i := leftover, 0;
    while left > 0
      invariant 0 <= i && left == leftover - i && (leftover > 0 ==> i <= leftover) && (leftover <= 0 ==> i == 0)
      invariant forall j | 0 <= j < shares.Length ::
        shares[j] == WithExtra(old(shares[j]), if InHead(order, i, j) then 1 else 0)
    {
      SmallModulo(i, |order|);
      var at := order[i % |order|];
      shares[at] := shares[at].(floored := shares[at].floored + 1);
      forall j ensures (InHead(order, i + 1, j) <==> InHead(order, i, j) || j == at) && !InHead(order, i, at) {
        NextInHead(order, i, j);
      }
      left := left - 1;
      i := i + 1;
    }
  }

  /** A negative total leaves nothing to hand out. */
  lemma {:induction false} NegativeLeavesNothing(total: I64, weights: Weights)
    requires total < 0 && TotalWeight(weights) > 0
    ensures Leftover(total, weights) <= 0
  {
    var W, r := TotalWeight(weights), RemainderIn(total, weights);
    var negated: UserId -> int := u => -r(u);
    forall u | u in weights.Keys ensures negated(u) >= 0 {
      NonNegativeProduct(0 - (total as int), weights[u]);
      TruncFacts(total * weights[u], W);
    }
    LeftoverIsRemainders(total, weights);
    SumScaled(weights.Keys, -1, r, negated);
    SumNonNegative(weights.Keys, negated);
    NegativeProduct(Leftover(total, weights), W, Sum(weights.Keys, r));
  }

  /** Whoever holds one of the first positions of the handout is owed the extra cent. */
  lemma {:induction false} HeadIsExtra(total: I64, weights: Weights, order: seq<nat>, j: nat)
    requires TotalWeight(weights) > 0 && j < |UsersInOrder(weights)|
    requires |order| == |Handout(total, weights)|
    requires forall k | 0 <= k < |order| ::
      order[k] < |UsersInOrder(weights)| && SharesInOrder(total, weights)[order[k]] == Handout(total, weights)[k]
    ensures GetsExtra(total, weights, UsersInOrder(weights)[j])
       <==> Leftover(total, weights) > 0 && InHead(order, Leftover(total, weights), j)
  {
    hide TotalWeight, Leftover, Handout, UsersInOrder, StrictlyAscending;
    var us := UsersInOrder(weights);
    assert forall k | 0 <= k < |order| :: Handout(total, weights)[k].user == us[order[k]];
  }

  lemma {:induction false} HandoutPositionsDiffer(total: I64, weights: Weights, order: seq<nat>)
    requires TotalWeight(weights) > 0 && |order| == |Handout(total, weights)|
    requires forall k | 0 <= k < |order| ::
      order[k] < |SharesInOrder(total, weights)|
      && SharesInOrder(total, weights)[order[k]] == Handout(total, weights)[k]
    ensures forall k, m | 0 <= k < m < |order| :: order[k] != order[m]
    ensures |order| == |weights|
  {
    hide TotalWeight, Handout, SharesInOrder;
    HandoutListsUsers(total, weights);
  }

  /** The floored shares with the leftover cents handed out are the weighted split. */
  method CollectSplits(total: I64, weights: Weights, us: seq<UserId>, shares: array<Share>, ghost order: seq<nat>)
    returns (splits: seq<Split>)
    requires TotalWeight(weights) > 0 && us == UsersInOrder(weights) && shares.Length == |us|
    requires |order| == |Handout(total, weights)|
    requires forall k | 0 <= k < |order| ::
      order[k] < |us| && SharesInOrder(total, weights)[order[k]] == Handout(total, weights)[k]
    requires var l := Leftover(total, weights);
             forall j | 0 <= j < |us| ::
               shares[j] == WithExtra(SharesInOrder(total, weights)[j], if l > 0 && InHead(order, l, j) then 1 else 0)
    ensures splits == WeightedSplit(total, weights)
  {
    hide UsersInOrder, TotalWeight, Handout, ShareOf, Leftover, GetsExtra, InHead, StrictlyAscending;
    splits := [];
    for j := 0 to |us|
      invariant |splits| == j
      invariant forall m | 0 <= m < j :: us[m] in weights && splits[m] == Split(us[m], OwedBy(total, weights, us[m]))
    {
      assert us[j] in us;
      HeadIsExtra(total, weights, order, j);
      ShareUser(total, weights[us[j]], TotalWeight(weights), us[j]);
      splits := splits + [Split(shares[j].user, shares[j].floored)];
    }
  }

  /** Floors every quota, then hands the leftover cents to the largest remainders. */
  method SplitByWeights(total: I64, weights: Weights) returns (r: Result<seq<Split>, SplitError>)
    ensures r == WeightedResult(total, weights)
  {
    hide UsersInOrder, TotalWeight, Handout, ShareOf, Leftover, GetsExtra, InHead, StrictlyAscending;
    hide WeightedSplit, SharesInOrder;
    if weights == map[] { return Err(Empty); }
    var us := UsersInOrder(weights);
    var totalWeight := SumWeights(weights, us);
    WeightsNonNegative(weights);
    if totalWeight == 0 { return Err(ZeroWeight); }
    var floored, distributed := FloorShares(total, weights, us, totalWeight);
    var shares := new Share[|floored|](i requires 0 <= i < |floored| => floored[i]);
    ghost var before := shares[..];
    assert before == floored;
    var order := SortByRemainder(total, weights, shares);
    assert forall k | 0 <= k < |order| :: before[order[k]] == shares[order[k]];
    HandoutPositionsDiffer(total, weights, order);
    if total >= 0 { LeftoverIsSmall(total, weights); } else { NegativeLeavesNothing(total, weights); }
    HandOut(shares, order, total - distributed);
    var splits := CollectSplits(total, weights, us, shares, order);
    r := Ok(splits);
  }

  lemma {:induction false} WeightsNonNegative(weights: Weights)
    ensures TotalWeight(weights) >= 0
  {
    SumNonNegative(weights.Keys, WeightIn(weights));
  }

  ghost function WeightedResult(total: I64, weights: Weights): Result<seq<Split>, SplitError> {
    if weights == map[] then Err(Empty)
    else if TotalWeight(weights) <= 0 then Err(ZeroWeight)
    else Ok(WeightedSplit(total, weights))
  }
}
