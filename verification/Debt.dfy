// Settling balances: the largest debtor pays the largest creditor until one side is exhausted.
module Debt {
  import opened Ordering
  import opened Sums
  import opened Operations
  import opened Splitting

  datatype Transfer = Transfer(from: UserId, to: UserId, amount: int)

  type Account = (UserId, int)

  /** Larger amounts first, ties by user id. */
  predicate ByAmountDesc(a: Account, b: Account) { a.1 > b.1 || (a.1 == b.1 && StrLe(a.0, b.0)) }

  lemma {:induction false} AccountsTotal(s: set<Account>)
    ensures TotalOn(s, ByAmountDesc)
  {
    hide StrLe;
    forall a: Account, b: Account
      ensures ByAmountDesc(a, a) && (ByAmountDesc(a, b) || ByAmountDesc(b, a))
      ensures ByAmountDesc(a, b) && ByAmountDesc(b, a) ==> a == b
    {
      StrOrder(a.0, b.0);
    }
    forall a: Account, b: Account, c: Account | ByAmountDesc(a, b) && ByAmountDesc(b, c) ensures ByAmountDesc(a, c) {
      if StrLe(a.0, b.0) && StrLe(b.0, c.0) { StrTransitive(a.0, b.0, c.0); }
    }
  }

  // ---------- Specification ----------

  /** What `u` owes (sign -1) or is owed (sign 1). */
  function Side(balances: map<UserId, int>, sign: int): set<Account> {
    set u | u in balances && sign * balances[u] > 0 :: (u, sign * balances[u])
  }

  function Ranked(balances: map<UserId, int>, sign: int): (r: seq<Account>)
    ensures forall a :: a in r <==> a in Side(balances, sign)
    ensures |r| == |Side(balances, sign)|
    ensures Distinct(r) && StrictlyAscending(r, ByAmountDesc)
  {
    AccountsTotal(Side(balances, sign));
    var r := Sorted(Side(balances, sign), ByAmountDesc);
    SidesAreDistinct(balances, sign, r);
    r
  }

  /** Positive amounts, each user once. */
  ghost predicate Distinct(r: seq<Account>) {
    (forall i | 0 <= i < |r| :: r[i].1 > 0) && (forall i, j | 0 <= i < j < |r| :: r[i].0 != r[j].0)
  }

  lemma {:induction false} SidesAreDistinct(balances: map<UserId, int>, sign: int, r: seq<Account>)
    requires forall a :: a in r <==> a in Side(balances, sign)
    requires StrictlyAscending(r, ByAmountDesc)
    ensures Distinct(r)
  {
    forall i | 0 <= i < |r| ensures r[i].1 > 0 { assert r[i] in r; }
    forall i, j | 0 <= i < j < |r| ensures r[i].0 != r[j].0 { assert r[i] in r && r[j] in r && r[i] != r[j]; }
  }

  function Min(a: int, b: int): int { if a <= b then a else b }

  function PaidDown(accounts: seq<Account>, pay: int): seq<Account>
    requires accounts != []
  {
    if accounts[0].1 == pay then accounts[1..] else [(accounts[0].0, accounts[0].1 - pay)] + accounts[1..]
  }

  /** Matching two ranked sides: the heads settle the smaller of their amounts. */
  function Match(debtors: seq<Account>, creditors: seq<Account>): seq<Transfer>
    requires Distinct(debtors) && Distinct(creditors)
    decreases |debtors| + |creditors|
  {
    if debtors == [] || creditors == [] then []
    else
      var pay := Min(debtors[0].1, creditors[0].1);
      PaidDownFacts(debtors, pay);
      PaidDownFacts(creditors, pay);
      [Transfer(debtors[0].0, creditors[0].0, pay)] + Match(PaidDown(debtors, pay), PaidDown(creditors, pay))
  }

  function SettleBalances(balances: map<UserId, int>): seq<Transfer> {
    Match(Ranked(balances, -1), Ranked(balances, 1))
  }

  // ---------- The two-pointer loop ----------

  /** The part of the array that is still to be settled. */
  ghost predicate Holds(a: array<Account>, at: nat, rest: seq<Account>)
    reads a
  {
    at <= a.Length && a[at..] == rest
  }

  ghost predicate AmountsFit(accounts: seq<Account>) { forall i | 0 <= i < |accounts| :: Fits(accounts[i].1) }

  lemma {:induction false} PaidDownFits(accounts: seq<Account>, pay: int)
    requires Distinct(accounts) && AmountsFit(accounts) && accounts != [] && 0 < pay <= accounts[0].1
    ensures Fits(accounts[0].1 - pay) && AmountsFit(PaidDown(accounts, pay))
  {
    assert Fits(accounts[0].1);
    forall i | 0 <= i < |PaidDown(accounts, pay)| ensures Fits(PaidDown(accounts, pay)[i].1) {
      assert 0 < i + 1 < |accounts| ==> Fits(accounts[i + 1].1);
      assert Fits(accounts[i].1);
    }
  }

  /** Takes `pay` off the account at `at` in place, and steps over it once it is settled; `fits` if within 64 bits. */
  method PayHead(a: array<Account>, at: nat, pay: int, ghost rest: seq<Account>) returns (next: nat, fits: bool)
    requires Holds(a, at, rest) && Distinct(rest) && rest != [] && 0 < pay <= rest[0].1
    modifies a
    ensures Distinct(PaidDown(rest, pay)) && Holds(a, next, PaidDown(rest, pay))
    ensures at <= next <= at + 1 && (next == at + 1 <==> pay == rest[0].1)
    ensures fits == Fits(rest[0].1 - pay)
    ensures AmountsFit(rest) ==> fits && AmountsFit(PaidDown(rest, pay))
  {
    hide Distinct, Users, Total, AmountOf, AmountsFit, Fits;
    PaidDownFacts(rest, pay);
    if AmountsFit(rest) { PaidDownFits(rest, pay); }
    assert a[at] == rest[0] && a[at + 1..] == rest[1..];
    fits := Fits(a[at].1 - pay);
    a[at] := (a[at].0, a[at].1 - pay);
    next := if a[at].1 == 0 then at + 1 else at;
    assert a[at + 1..] == rest[1..];
    assert a[at..] == [a[at]] + a[at + 1..];
  }

  method ToArray(s: seq<Account>) returns (a: array<Account>)
    ensures fresh(a) && Holds(a, 0, s)
  {
    a := new Account[|s|](i requires 0 <= i < |s| => s[i]);
  }

  ghost predicate AllWithin(balances: map<UserId, int>) { forall u | u in balances :: Fits(balances[u]) }

  /**
   * The amounts are plain 64-bit numbers, and `ok` says that no operator on them left that range: that
   * none does is to say that no balance is the least of them, which has no negation.
   */
  method SimplifyDebts(balances: map<UserId, int>) returns (transfers: seq<Transfer>, ok: bool)
    ensures transfers == SettleBalances(balances)
    ensures AllWithin(balances) ==> (ok <==> I64_MIN !in balances.Values)
  {
    ok := forall u | u in balances && balances[u] < 0 :: Fits(-balances[u]);
    NegationsFit(balances, ok);
    ghost var fits := ok;
    var owing, owed := Ranked(balances, -1), Ranked(balances, 1);
    assert Match(owing, owed) == SettleBalances(balances);
    hide SettleBalances, PaidDown, Distinct, Ranked, Match, Holds, AllWithin, AmountsFit, Fits;
    var debtors := ToArray(owing);
    var creditors := ToArray(owed);
    transfers := [];
    var d, c := 0, 0;
    ghost var ds, cs := owing, owed;
    while d < debtors.Length && c < creditors.Length
      invariant debtors != creditors && fresh(debtors) && fresh(creditors)
      invariant Holds(debtors, d, ds) && Holds(creditors, c, cs)
      invariant Distinct(ds) && Distinct(cs)
      invariant transfers + Match(ds, cs) == SettleBalances(balances)
      invariant AllWithin(balances) && fits ==> ok && AmountsFit(ds) && AmountsFit(cs)
      invariant ok ==> fits
      decreases debtors.Length - d + creditors.Length - c
    {
      HeldHead(debtors, d, ds);
      HeldHead(creditors, c, cs);
      MatchStep(ds, cs);
      var pay := Min(debtors[d].1, creditors[c].1);
      ghost var settled := transfers;
      if pay > 0 {
        transfers := transfers + [Transfer(debtors[d].0, creditors[c].0, pay)];
      }
      Reassociate(settled, Transfer(ds[0].0, cs[0].0, pay), Match(PaidDown(ds, pay), PaidDown(cs, pay)));
      var paid: bool, received: bool;
      d, paid := PayHead(debtors, d, pay, ds);
      c, received := PayHead(creditors, c, pay, cs);
      ok := ok && paid && received;
      ds, cs := PaidDown(ds, pay), PaidDown(cs, pay);
    }
    HeldHead(debtors, d, ds);
    HeldHead(creditors, c, cs);
    MatchDone(ds, cs);
  }

  /** Negating the balances that are owed stays within 64 bits unless one of them is the least number. */
  lemma {:induction false} NegationsFit(balances: map<UserId, int>, ok: bool)
    requires ok == forall u | u in balances && balances[u] < 0 :: Fits(-balances[u])
    ensures AllWithin(balances) ==> (ok <==> I64_MIN !in balances.Values)
    ensures AllWithin(balances) && ok ==> AmountsFit(Ranked(balances, -1)) && AmountsFit(Ranked(balances, 1))
  {
    if AllWithin(balances) && I64_MIN in balances.Values {
      var u :| u in balances && balances[u] == I64_MIN;
      assert !Fits(-balances[u]);
    }
    if AllWithin(balances) && ok {
      RankedFits(balances, -1);
      RankedFits(balances, 1);
    }
  }

  lemma {:induction false} RankedFits(balances: map<UserId, int>, sign: int)
    requires sign == 1 || sign == -1
    requires AllWithin(balances) && forall u | u in balances && balances[u] < 0 :: Fits(-balances[u])
    ensures AmountsFit(Ranked(balances, sign))
  {
    var r := Ranked(balances, sign);
    forall i | 0 <= i < |r| ensures Fits(r[i].1) { assert r[i] in r && r[i] in Side(balances, sign); }
  }

  lemma {:induction false} HeldHead(a: array<Account>, at: nat, rest: seq<Account>)
    requires Holds(a, at, rest)
    ensures at <= a.Length && (at < a.Length <==> rest != [])
    ensures rest != [] ==> a[at] == rest[0]
  {}

  lemma Reassociate(settled: seq<Transfer>, t: Transfer, rest: seq<Transfer>)
    ensures settled + ([t] + rest) == (settled + [t]) + rest
  {}

  lemma {:induction false} MatchStep(ds: seq<Account>, cs: seq<Account>)
    requires Distinct(ds) && Distinct(cs) && ds != [] && cs != []
    ensures var pay := Min(ds[0].1, cs[0].1);
            && 0 < pay <= ds[0].1 && pay <= cs[0].1
            && Distinct(PaidDown(ds, pay)) && Distinct(PaidDown(cs, pay))
            && Match(ds, cs) == [Transfer(ds[0].0, cs[0].0, pay)] + Match(PaidDown(ds, pay), PaidDown(cs, pay))
  {
    var pay := Min(ds[0].1, cs[0].1);
    PaidDownFacts(ds, pay);
    PaidDownFacts(cs, pay);
  }

  lemma MatchDone(ds: seq<Account>, cs: seq<Account>)
    requires Distinct(ds) && Distinct(cs)
    ensures ds == [] || cs == [] ==> Match(ds, cs) == []
  {}

  // ---------- What a settlement does ----------

  function Paid(ts: seq<Transfer>, u: UserId): int {
    if ts == [] then 0 else (if ts[0].from == u then ts[0].amount else 0) + Paid(ts[1..], u)
  }

  function Received(ts: seq<Transfer>, u: UserId): int {
    if ts == [] then 0 else (if ts[0].to == u then ts[0].amount else 0) + Received(ts[1..], u)
  }

  function Moved(ts: seq<Transfer>): int {
    if ts == [] then 0 else ts[0].amount + Moved(ts[1..])
  }

  lemma {:induction false} PaidConcat(a: seq<Transfer>, b: seq<Transfer>, u: UserId)
    ensures Paid(a + b, u) == Paid(a, u) + Paid(b, u) && Received(a + b, u) == Received(a, u) + Received(b, u)
  {
    if a == [] {
      assert a + b == b;
    } else {
      assert (a + b)[1..] == a[1..] + b;
      PaidConcat(a[1..], b, u);
    }
  }

  function Users(accounts: seq<Account>): set<UserId> { set a | a in accounts :: a.0 }

  function AmountOf(accounts: seq<Account>, u: UserId): int {
    if accounts == [] then 0 else (if accounts[0].0 == u then accounts[0].1 else 0) + AmountOf(accounts[1..], u)
  }

  function Total(accounts: seq<Account>): int {
    if accounts == [] then 0 else accounts[0].1 + Total(accounts[1..])
  }

  lemma {:induction false} PaidDownFacts(accounts: seq<Account>, pay: int)
    requires Distinct(accounts) && accounts != [] && 0 < pay <= accounts[0].1
    ensures var rest := PaidDown(accounts, pay);
            && Distinct(rest) && Users(rest) <= Users(accounts)
            && (accounts[0].1 == pay <==> |rest| == |accounts| - 1)
            && (accounts[0].1 != pay <==> |rest| == |accounts|)
            && (accounts[0].1 == pay ==> accounts[0].0 !in Users(rest))
            && Total(rest) == Total(accounts) - pay
            && forall u :: AmountOf(rest, u) == AmountOf(accounts, u) - if u == accounts[0].0 then pay else 0
  {
    var rest := PaidDown(accounts, pay);
    if accounts[0].1 != pay {
      assert rest[1..] == accounts[1..];
    }
    forall u | u in Users(rest) ensures u in Users(accounts) {
      var a :| a in rest && a.0 == u;
      if a in accounts[1..] { assert a in accounts; } else { assert accounts[0] in accounts; }
    }
  }

  lemma {:induction false} TotalNonNegative(accounts: seq<Account>)
    requires Distinct(accounts)
    ensures Total(accounts) >= 0 && (accounts != [] ==> Total(accounts) >= accounts[0].1 > 0)
  {
    if accounts != [] { TotalNonNegative(accounts[1..]); }
  }

  lemma {:induction false} AmountNonNegative(accounts: seq<Account>, u: UserId)
    requires Distinct(accounts)
    ensures AmountOf(accounts, u) >= 0
  {
    if accounts != [] { AmountNonNegative(accounts[1..], u); }
  }

  /** Transfers are positive and run from a debtor to a creditor. */
  lemma {:induction false} TransfersAreProper(ds: seq<Account>, cs: seq<Account>)
    requires Distinct(ds) && Distinct(cs)
    ensures forall t | t in Match(ds, cs) :: t.amount > 0 && t.from in Users(ds) && t.to in Users(cs)
    decreases |ds| + |cs|
  {
    if ds != [] && cs != [] {
      var pay := Min(ds[0].1, cs[0].1);
      PaidDownFacts(ds, pay);
      PaidDownFacts(cs, pay);
      TransfersAreProper(PaidDown(ds, pay), PaidDown(cs, pay));
      assert ds[0] in ds && cs[0] in cs;
    }
  }

  ghost predicate PairsDiffer(ts: seq<Transfer>) {
    forall i, j | 0 <= i < j < |ts| :: ts[i].from != ts[j].from || ts[i].to != ts[j].to
  }

  lemma {:induction false} PairsDifferCons(t: Transfer, rest: seq<Transfer>)
    requires PairsDiffer(rest) && forall x | x in rest :: x.from != t.from || x.to != t.to
    ensures PairsDiffer([t] + rest)
  {
    var ts := [t] + rest;
    forall i, j | 0 <= i < j < |ts| ensures ts[i].from != ts[j].from || ts[i].to != ts[j].to {
      assert ts[j] == rest[j - 1] && rest[j - 1] in rest;
      if i > 0 { assert ts[i] == rest[i - 1]; }
    }
  }

  /** No debtor and creditor meet twice. */
  lemma {:induction false} PairsNeverRepeat(ds: seq<Account>, cs: seq<Account>)
    requires Distinct(ds) && Distinct(cs)
    ensures PairsDiffer(Match(ds, cs))
    decreases |ds| + |cs|
  {
    hide PairsDiffer, PaidDown;
    if ds != [] && cs != [] {
      var pay := Min(ds[0].1, cs[0].1);
      PaidDownFacts(ds, pay);
      PaidDownFacts(cs, pay);
      PairsNeverRepeat(PaidDown(ds, pay), PaidDown(cs, pay));
      TransfersAreProper(PaidDown(ds, pay), PaidDown(cs, pay));
      PairsDifferCons(Transfer(ds[0].0, cs[0].0, pay), Match(PaidDown(ds, pay), PaidDown(cs, pay)));
    } else {
      NoTransfersDiffer();
    }
  }

  lemma NoTransfersDiffer()
    ensures PairsDiffer([])
  {}

  /** Each round exhausts a party, so there is at most one transfer fewer than there are parties. */
  lemma {:induction false} TransfersAreFew(ds: seq<Account>, cs: seq<Account>)
    requires Distinct(ds) && Distinct(cs)
    ensures ds != [] && cs != [] ==> |Match(ds, cs)| <= |ds| + |cs| - 1
    ensures ds == [] || cs == [] ==> Match(ds, cs) == []
    decreases |ds| + |cs|
  {
    if ds != [] && cs != [] {
      var pay := Min(ds[0].1, cs[0].1);
      PaidDownFacts(ds, pay);
      PaidDownFacts(cs, pay);
      TransfersAreFew(PaidDown(ds, pay), PaidDown(cs, pay));
    }
  }

  /** What moves is the smaller of the two totals, and nobody pays or receives more than their amount. */
  lemma {:induction false} TransfersAreBounded(ds: seq<Account>, cs: seq<Account>, u: UserId)
    requires Distinct(ds) && Distinct(cs)
    ensures Moved(Match(ds, cs)) == Min(Total(ds), Total(cs))
    ensures 0 <= Paid(Match(ds, cs), u) <= AmountOf(ds, u)
    ensures 0 <= Received(Match(ds, cs), u) <= AmountOf(cs, u)
    ensures Total(ds) <= Total(cs) ==> Paid(Match(ds, cs), u) == AmountOf(ds, u)
    ensures Total(cs) <= Total(ds) ==> Received(Match(ds, cs), u) == AmountOf(cs, u)
    decreases |ds| + |cs|
  {
    TotalNonNegative(ds);
    TotalNonNegative(cs);
    AmountNonNegative(ds, u);
    AmountNonNegative(cs, u);
    if ds != [] && cs != [] {
      var pay := Min(ds[0].1, cs[0].1);
      PaidDownFacts(ds, pay);
      PaidDownFacts(cs, pay);
      TransfersAreBounded(PaidDown(ds, pay), PaidDown(cs, pay), u);
      var ts := Match(ds, cs);
      assert ts[1..] == Match(PaidDown(ds, pay), PaidDown(cs, pay));
    }
  }

  /** What is left of `available`, at most `wanted`. */
  function Within(available: int, wanted: int): int {
    if available <= 0 then 0 else if available <= wanted then available else wanted
  }

  /** One round, as what it moves and what it leaves. */
  lemma {:induction false} MatchRound(ds: seq<Account>, cs: seq<Account>, u: UserId)
    requires Distinct(ds) && Distinct(cs) && ds != [] && cs != []
    ensures var pay := Min(ds[0].1, cs[0].1); var dl, cl := PaidDown(ds, pay), PaidDown(cs, pay);
            && 0 < pay && Distinct(dl) && Distinct(cl) && |dl| + |cl| < |ds| + |cs|
            && Total(dl) == Total(ds) - pay >= 0 && Total(cl) == Total(cs) - pay >= 0
            && Received(Match(ds, cs), u) == (if u == cs[0].0 then pay else 0) + Received(Match(dl, cl), u)
            && Paid(Match(ds, cs), u) == (if u == ds[0].0 then pay else 0) + Paid(Match(dl, cl), u)
  {
    hide Match, AmountOf, Users, Distinct, PaidDown, Total;
    var pay := Min(ds[0].1, cs[0].1);
    MatchStep(ds, cs);
    PaidDownFacts(ds, pay);
    PaidDownFacts(cs, pay);
    TotalNonNegative(PaidDown(ds, pay));
    TotalNonNegative(PaidDown(cs, pay));
    assert Match(ds, cs)[1..] == Match(PaidDown(ds, pay), PaidDown(cs, pay));
  }

  /** A settled head gets nothing more. */
  lemma {:induction false} SettledHeadIsDone(ds: seq<Account>, cs: seq<Account>)
    requires Distinct(ds) && Distinct(cs) && ds != [] && cs != [] && ds[0].1 >= cs[0].1
    ensures Received(Match(PaidDown(ds, cs[0].1), PaidDown(cs, cs[0].1)), cs[0].0) == 0
  {
    hide Match, Users, PaidDown, Distinct, Received;
    TotalNonNegative(cs);
    PaidDownFacts(ds, cs[0].1);
    PaidDownFacts(cs, cs[0].1);
    AmountOfUnique(cs, 0);
    TransfersAreBounded(PaidDown(ds, cs[0].1), PaidDown(cs, cs[0].1), cs[0].0);
  }

  /** Creditors are served in rank order from what moves: each gets its amount or what is left. */
  lemma {:induction false} CreditorsAreServedInOrder(ds: seq<Account>, cs: seq<Account>, i: nat)
    requires Distinct(ds) && Distinct(cs) && i < |cs|
    ensures Received(Match(ds, cs), cs[i].0) == Within(Min(Total(ds), Total(cs)) - Total(cs[..i]), cs[i].1)
    decreases |ds| + |cs|
  {
    hide Match, PaidDown, Received, Paid, Total, Distinct;
    PrefixTotals(cs, i);
    TotalNonNegative(ds);
    TotalNonNegative(cs);
    if ds == [] {
      NothingMoves(cs, cs[i].0);
    } else {
      var pay := Min(ds[0].1, cs[0].1);
      MatchRound(ds, cs, cs[i].0);
      PaidDownAt(cs, pay, i);
      DistinctUsers(cs, i);
      if pay < cs[0].1 {
        CreditorsAreServedInOrder(PaidDown(ds, pay), PaidDown(cs, pay), i);
      } else if i > 0 {
        CreditorsAreServedInOrder(PaidDown(ds, pay), PaidDown(cs, pay), i - 1);
      } else {
        SettledHeadIsDone(ds, cs);
      }
    }
  }

  lemma NothingMoves(cs: seq<Account>, u: UserId)
    requires Distinct(cs)
    ensures Received(Match([], cs), u) == 0 && Total([]) == 0
  {}

  lemma DistinctUsers(accounts: seq<Account>, i: nat)
    requires Distinct(accounts) && i < |accounts|
    ensures accounts[i].1 > 0 && (accounts[i].0 == accounts[0].0 <==> i == 0)
  {}

  lemma {:induction false} PaidDownAt(accounts: seq<Account>, pay: int, i: nat)
    requires Distinct(accounts) && i < |accounts| && 0 < pay <= accounts[0].1
    ensures var rest := PaidDown(accounts, pay);
            && (pay < accounts[0].1 ==>
                  |rest| == |accounts| && rest[i] == (accounts[i].0, accounts[i].1 - if i == 0 then pay else 0)
                  && Total(rest[..i]) == Total(accounts[..i]) - if i == 0 then 0 else pay)
            && (pay == accounts[0].1 && i > 0 ==>
                  |rest| == |accounts| - 1 && rest[i - 1] == accounts[i]
                  && Total(rest[..i - 1]) == Total(accounts[..i]) - pay)
  {
    hide Distinct;
    if i > 0 {
      assert accounts[..i][1..] == accounts[1..][..i - 1];
      if pay < accounts[0].1 {
        assert PaidDown(accounts, pay)[..i][1..] == accounts[1..][..i - 1];
      }
    }
  }

  /** The sides of the match mirror each other. */
  lemma {:induction false} MatchMirrors(ds: seq<Account>, cs: seq<Account>, u: UserId)
    requires Distinct(ds) && Distinct(cs)
    ensures Paid(Match(ds, cs), u) == Received(Match(cs, ds), u)
    decreases |ds| + |cs|
  {
    if ds == [] || cs == [] {
      MatchDone(ds, cs);
      MatchDone(cs, ds);
    } else {
      hide Match, PaidDown, Received, Paid, Total, Distinct;
      var pay := Min(ds[0].1, cs[0].1);
      MatchRound(ds, cs, u);
      MatchRound(cs, ds, u);
      MatchMirrors(PaidDown(ds, pay), PaidDown(cs, pay), u);
    }
  }

  /** Debtors pay in rank order until what moves is paid. */
  lemma {:induction false} DebtorsPayInOrder(ds: seq<Account>, cs: seq<Account>, i: nat)
    requires Distinct(ds) && Distinct(cs) && i < |ds|
    ensures Paid(Match(ds, cs), ds[i].0) == Within(Min(Total(ds), Total(cs)) - Total(ds[..i]), ds[i].1)
  {
    MatchMirrors(ds, cs, ds[i].0);
    CreditorsAreServedInOrder(cs, ds, i);
  }

  lemma {:induction false} PrefixTotals(accounts: seq<Account>, i: nat)
    requires Distinct(accounts) && i < |accounts|
    ensures 0 <= Total(accounts[..i]) && Total(accounts[..i]) + accounts[i].1 <= Total(accounts)
    ensures i == 0 ==> Total(accounts[..i]) == 0
  {
    TotalNonNegative(accounts);
    if i > 0 {
      assert accounts[..i][1..] == accounts[1..][..i - 1];
      PrefixTotals(accounts[1..], i - 1);
    } else {
      TotalNonNegative(accounts[1..]);
    }
  }

  // ---------- In terms of balances ----------

  function BalanceOf(balances: map<UserId, int>, u: UserId): int { if u in balances then balances[u] else 0 }

  ghost function BalanceIn(balances: map<UserId, int>): UserId -> int { u => BalanceOf(balances, u) }

  ghost function SidePart(balances: map<UserId, int>, sign: int): UserId -> int {
    u => if sign * BalanceOf(balances, u) > 0 then sign * BalanceOf(balances, u) else 0
  }

  lemma {:induction false} AmountOfUnique(accounts: seq<Account>, i: nat)
    requires Distinct(accounts) && i < |accounts|
    ensures AmountOf(accounts, accounts[i].0) == accounts[i].1
  {
    if i > 0 {
      AmountOfUnique(accounts[1..], i - 1);
    } else {
      AmountOfAbsent(accounts[1..], accounts[0].0);
    }
  }

  lemma {:induction false} AmountOfAbsent(accounts: seq<Account>, u: UserId)
    requires forall i | 0 <= i < |accounts| :: accounts[i].0 != u
    ensures AmountOf(accounts, u) == 0
  {
    if accounts != [] { AmountOfAbsent(accounts[1..], u); }
  }

  lemma {:induction false} RankedAmount(balances: map<UserId, int>, sign: int, u: UserId)
    ensures AmountOf(Ranked(balances, sign), u) == SidePart(balances, sign)(u)
    ensures u in Users(Ranked(balances, sign)) <==> sign * BalanceOf(balances, u) > 0
  {
    var r := Ranked(balances, sign);
    if sign * BalanceOf(balances, u) > 0 {
      assert (u, sign * balances[u]) in Side(balances, sign);
      assert (u, sign * balances[u]) in r;
      var i :| 0 <= i < |r| && r[i] == (u, sign * balances[u]);
      AmountOfUnique(r, i);
    } else {
      forall i | 0 <= i < |r| ensures r[i].0 != u { assert r[i] in r; }
      AmountOfAbsent(r, u);
    }
  }

  lemma {:induction false} TotalIsSum(accounts: seq<Account>, users: set<UserId>, f: UserId -> int)
    requires Distinct(accounts) && Users(accounts) <= users
    requires forall u | u in users :: f(u) == AmountOf(accounts, u)
    ensures Total(accounts) == Sum(users, f)
  {
    if accounts == [] {
      SumZero(users, f);
    } else {
      var head, rest := accounts[0], accounts[1..];
      var g: UserId -> int := u => AmountOf(rest, u);
      assert head in accounts;
      forall u | u in Users(rest) ensures u in users { var a :| a in rest && a.0 == u; assert a in accounts; }
      TotalIsSum(rest, users, g);
      AmountOfAbsent(rest, head.0);
      SumRemove(users, f, head.0);
      SumRemove(users, g, head.0);
      SumCongruent(users - {head.0}, f, g);
    }
  }

  lemma {:induction false} RankedTotal(balances: map<UserId, int>, sign: int)
    ensures Total(Ranked(balances, sign)) == Sum(balances.Keys, SidePart(balances, sign))
  {
    var r := Ranked(balances, sign);
    forall u { RankedAmount(balances, sign, u); }
    forall u | u in Users(r) ensures u in balances.Keys { RankedAmount(balances, sign, u); }
    TotalIsSum(r, balances.Keys, SidePart(balances, sign));
  }

  /** Balances that sum to zero owe as much as they are owed. */
  lemma {:induction false} ZeroSumTotals(balances: map<UserId, int>)
    requires Sum(balances.Keys, BalanceIn(balances)) == 0
    ensures Total(Ranked(balances, -1)) == Total(Ranked(balances, 1))
  {
    RankedTotal(balances, -1);
    RankedTotal(balances, 1);
    SumLinear(balances.Keys, -1, SidePart(balances, -1), SidePart(balances, 1), BalanceIn(balances));
  }

  /**
   * Settling any balances: transfers are positive, from someone who owes to someone who is owed,
   * never between the same two twice; what moves is the smaller total; nobody overpays or is
   * overpaid; and there are at most n - 1 transfers among n non-zero balances.
   */
  lemma {:induction false} SettlementIsSound(balances: map<UserId, int>)
    ensures var ts := SettleBalances(balances);
            && (forall t | t in ts :: t.amount > 0 && BalanceOf(balances, t.from) < 0 < BalanceOf(balances, t.to))
            && PairsDiffer(ts)
            && Moved(ts) == Min(Sum(balances.Keys, SidePart(balances, -1)), Sum(balances.Keys, SidePart(balances, 1)))
            && (forall u :: 0 <= Paid(ts, u) <= SidePart(balances, -1)(u)
                           && 0 <= Received(ts, u) <= SidePart(balances, 1)(u))
            && (ts != [] ==> |ts| <= |Side(balances, -1)| + |Side(balances, 1)| - 1)
  {
    var ds, cs := Ranked(balances, -1), Ranked(balances, 1);
    TransfersAreProper(ds, cs);
    PairsNeverRepeat(ds, cs);
    TransfersAreFew(ds, cs);
    RankedTotal(balances, -1);
    RankedTotal(balances, 1);
    forall u
      ensures u in Users(ds) <==> BalanceOf(balances, u) < 0
      ensures u in Users(cs) <==> BalanceOf(balances, u) > 0
      ensures 0 <= Paid(Match(ds, cs), u) <= SidePart(balances, -1)(u)
      ensures 0 <= Received(Match(ds, cs), u) <= SidePart(balances, 1)(u)
    {
      RankedAmount(balances, -1, u);
      RankedAmount(balances, 1, u);
      TransfersAreBounded(ds, cs, u);
    }
    TransfersAreBounded(ds, cs, "");
  }

  /** The first transfer is between the largest debtor and the largest creditor, ties going to the smaller id. */
  lemma {:induction false} LargestSettleFirst(balances: map<UserId, int>, u: UserId)
    requires SettleBalances(balances) != []
    ensures var t := SettleBalances(balances)[0];
            && (BalanceOf(balances, u) < 0 ==>
                  u == t.from || BalanceOf(balances, t.from) < BalanceOf(balances, u)
                  || (BalanceOf(balances, t.from) == BalanceOf(balances, u) && StrLe(t.from, u)))
            && (BalanceOf(balances, u) > 0 ==>
                  u == t.to || BalanceOf(balances, t.to) > BalanceOf(balances, u)
                  || (BalanceOf(balances, t.to) == BalanceOf(balances, u) && StrLe(t.to, u)))
  {
    hide StrLe;
    FirstRanked(balances, -1, u);
    FirstRanked(balances, 1, u);
  }

  lemma {:induction false} FirstRanked(balances: map<UserId, int>, sign: int, u: UserId)
    requires Ranked(balances, sign) != []
    ensures var r := Ranked(balances, sign);
            && r[0].1 == sign * BalanceOf(balances, r[0].0)
            && (sign * BalanceOf(balances, u) > 0 ==>
                  u == r[0].0 || ByAmountDesc(r[0], (u, sign * BalanceOf(balances, u))))
  {
    var r := Ranked(balances, sign);
    if sign * BalanceOf(balances, u) > 0 {
      var a := (u, sign * balances[u]);
      assert a in Side(balances, sign) && a in r;
      var i :| 0 <= i < |r| && r[i] == a;
    }
    assert r[0] in r;
  }

  /** The larger amounts come first, and among equal ones the smaller ids. */
  lemma {:induction false} RankedIsByAmount(balances: map<UserId, int>, sign: int, i: nat, j: nat)
    requires i < j < |Ranked(balances, sign)|
    ensures var r := Ranked(balances, sign);
            && r[i].0 != r[j].0
            && r[i].1 == sign * BalanceOf(balances, r[i].0) && r[j].1 == sign * BalanceOf(balances, r[j].0)
            && (r[i].1 > r[j].1 || (r[i].1 == r[j].1 && StrLe(r[i].0, r[j].0)))
  {
    hide StrLe;
    var r := Ranked(balances, sign);
    assert r[i] in r && r[j] in r;
  }

  /** Paying down keeps the users in order. */
  lemma {:induction false} PaidDownUsers(accounts: seq<Account>, pay: int, k: nat)
    requires accounts != [] && k < |PaidDown(accounts, pay)|
    ensures var rest := PaidDown(accounts, pay); var shift := |accounts| - |rest|;
            0 <= shift && rest[k].0 == accounts[k + shift].0
  {}

  /** Where the parties of an earlier and a later transfer are ranked. */
  lemma {:induction false} MatchOrder(ds: seq<Account>, cs: seq<Account>, i: nat, j: nat)
    returns (d: nat, e: nat, c: nat, f: nat)
    requires Distinct(ds) && Distinct(cs) && i <= j < |Match(ds, cs)|
    ensures d <= e < |ds| && c <= f < |cs|
    ensures Match(ds, cs)[i].from == ds[d].0 && Match(ds, cs)[i].to == cs[c].0
    ensures Match(ds, cs)[j].from == ds[e].0 && Match(ds, cs)[j].to == cs[f].0
    decreases |ds| + |cs|
  {
    hide PaidDown, Distinct;
    MatchDone(ds, cs);
    d, e, c, f := 0, 0, 0, 0;
    MatchStep(ds, cs);
    if j > 0 {
      var pay := Min(ds[0].1, cs[0].1);
      var dl, cl := PaidDown(ds, pay), PaidDown(cs, pay);
      PaidDownFacts(ds, pay);
      PaidDownFacts(cs, pay);
      hide Match, Total, Users, AmountOf;
      d, e, c, f := MatchOrder(dl, cl, if i == 0 then j - 1 else i - 1, j - 1);
      PaidDownUsers(ds, pay, d);
      PaidDownUsers(ds, pay, e);
      PaidDownUsers(cs, pay, c);
      PaidDownUsers(cs, pay, f);
      e, f := e + |ds| - |dl|, f + |cs| - |cl|;
      if i == 0 { d, c := 0, 0; } else { d, c := d + |ds| - |dl|, c + |cs| - |cl|; }
    }
  }

  /** Transfers go through debtors and creditors from the largest down, ties going to the smaller id. */
  lemma {:induction false} TransfersGoByAmount(balances: map<UserId, int>, i: nat, j: nat)
    requires i < j < |SettleBalances(balances)|
    ensures var x, y := SettleBalances(balances)[i], SettleBalances(balances)[j];
            var owes, owed := (u: UserId) => -BalanceOf(balances, u), (u: UserId) => BalanceOf(balances, u);
            && (x.from == y.from || owes(x.from) > owes(y.from)
                || (owes(x.from) == owes(y.from) && StrLe(x.from, y.from)))
            && (x.to == y.to || owed(x.to) > owed(y.to) || (owed(x.to) == owed(y.to) && StrLe(x.to, y.to)))
  {
    hide Ranked, Match, StrLe, BalanceOf;
    var d, e, c, f := MatchOrder(Ranked(balances, -1), Ranked(balances, 1), i, j);
    if d < e { RankedIsByAmount(balances, -1, d, e); }
    if c < f { RankedIsByAmount(balances, 1, c, f); }
  }

  /** What the settlement moves for the account at a rank: its amount, or what is left for it. */
  lemma {:induction false} ServedAt(balances: map<UserId, int>, sign: int, j: nat)
    requires (sign == 1 || sign == -1) && j < |Ranked(balances, sign)|
    ensures var r := Ranked(balances, sign); var ts := SettleBalances(balances);
            var moved := Min(Total(Ranked(balances, -1)), Total(Ranked(balances, 1)));
            Paid(ts, r[j].0) + Received(ts, r[j].0) == Within(moved - Total(r[..j]), r[j].1)
  {
    hide Ranked, Match, Paid, Received, Total, Users, AmountOf, Within, Distinct, StrictlyAscending;
    var ds, cs, u := Ranked(balances, -1), Ranked(balances, 1), Ranked(balances, sign)[j].0;
    AmountOfUnique(Ranked(balances, sign), j);
    DistinctUsers(Ranked(balances, sign), j);
    RankedAmount(balances, -1, u);
    RankedAmount(balances, 1, u);
    TransfersAreBounded(ds, cs, u);
    if sign == 1 { CreditorsAreServedInOrder(ds, cs, j); } else { DebtorsPayInOrder(ds, cs, j); }
  }

  /** Nobody pays or is paid before everyone with a larger amount, or the same and a smaller id, is settled. */
  lemma {:induction false} LargerIsSettledFirst(balances: map<UserId, int>, sign: int, u: UserId, v: UserId)
    requires (sign == 1 || sign == -1) && u != v
    requires var x, y := sign * BalanceOf(balances, u), sign * BalanceOf(balances, v);
             y > 0 && (x > y || (x == y && StrLe(u, v)))
    ensures var ts := SettleBalances(balances);
            Paid(ts, v) + Received(ts, v) > 0 ==> BalanceOf(balances, u) + Paid(ts, u) - Received(ts, u) == 0
  {
    hide SettleBalances, StrLe, Paid, Received, Total, Users, AmountOf, BalanceOf, Ranked;
    var i := RankOf(balances, sign, u);
    var j := RankOf(balances, sign, v);
    if j < i {
      RankedIsByAmount(balances, sign, j, i);
      StrOrder(u, v);
    }
    AccountIsSettledIff(balances, sign, i);
    ServedAt(balances, sign, j);
    PrefixGrows(Ranked(balances, sign), i + 1, j);
  }

  lemma {:induction false} RankOf(balances: map<UserId, int>, sign: int, u: UserId) returns (i: nat)
    requires sign * BalanceOf(balances, u) > 0
    ensures i < |Ranked(balances, sign)| && Ranked(balances, sign)[i].0 == u && Distinct(Ranked(balances, sign))
  {
    var r := Ranked(balances, sign);
    var a := (u, sign * balances[u]);
    assert a in Side(balances, sign) && a in r;
    i :| 0 <= i < |r| && r[i] == a;
  }

  lemma {:induction false} PrefixGrows(accounts: seq<Account>, i: nat, j: nat)
    requires Distinct(accounts) && i <= j <= |accounts|
    ensures Total(accounts[..i]) <= Total(accounts[..j])
    decreases j
  {
    if i < j {
      PrefixGrows(accounts, i, j - 1);
      TotalSnoc(accounts, j - 1);
    }
  }

  lemma {:induction false} TotalSnoc(accounts: seq<Account>, i: nat)
    requires i < |accounts|
    ensures Total(accounts[..i + 1]) == Total(accounts[..i]) + accounts[i].1
  {
    if i > 0 {
      assert accounts[..i + 1][1..] == accounts[1..][..i] && accounts[..i][1..] == accounts[1..][..i - 1];
      TotalSnoc(accounts[1..], i - 1);
    }
  }

  /** On any balances an account is settled exactly when those ranked up to it come to no more than what moves. */
  lemma {:induction false} AccountIsSettledIff(balances: map<UserId, int>, sign: int, i: nat)
    requires (sign == 1 || sign == -1) && i < |Ranked(balances, sign)|
    ensures var r := Ranked(balances, sign); var ts := SettleBalances(balances); var u := r[i].0;
            BalanceOf(balances, u) + Paid(ts, u) - Received(ts, u) == 0
            <==> Total(r[..i + 1]) <= Min(Total(Ranked(balances, -1)), Total(Ranked(balances, 1)))
  {
    hide Ranked, Match, Paid, Received, Total, Users, AmountOf;
    var ds, cs := Ranked(balances, -1), Ranked(balances, 1);
    var r := Ranked(balances, sign);
    var u := r[i].0;
    TotalSnoc(r, i);
    AmountOfUnique(r, i);
    RankedAmount(balances, -1, u);
    RankedAmount(balances, 1, u);
    TransfersAreBounded(ds, cs, u);
    if sign == 1 { CreditorsAreServedInOrder(ds, cs, i); } else { DebtorsPayInOrder(ds, cs, i); }
  }

  /** A ledger that sums to zero is settled exactly: applying the transfers zeroes every account. */
  lemma {:induction false} SettlementClears(balances: map<UserId, int>, u: UserId)
    requires Sum(balances.Keys, BalanceIn(balances)) == 0
    ensures var ts := SettleBalances(balances);
            BalanceOf(balances, u) + Paid(ts, u) - Received(ts, u) == 0
  {
    ZeroSumTotals(balances);
    RankedAmount(balances, -1, u);
    RankedAmount(balances, 1, u);
    TransfersAreBounded(Ranked(balances, -1), Ranked(balances, 1), u);
  }
}
