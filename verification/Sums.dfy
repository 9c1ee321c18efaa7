// Finite sums of integers indexed by a set. The order in which a loop visits the set is
// irrelevant, which is why totals over BTreeMaps are stated this way.
module Sums {

  ghost function Pick<T>(s: set<T>): (x: T)
    requires s != {}
    ensures x in s
  {
    var x :| x in s; x
  }

  /** The sum of `f` over `s`. */
  ghost function Sum<T(!new)>(s: set<T>, f: T -> int): int
    decreases |s|
  {
    if s == {} then 0 else var x := Pick(s); f(x) + Sum(s - {x}, f)
  }

  lemma {:induction false} SumRemove<T(!new)>(s: set<T>, f: T -> int, x: T)
    requires x in s
    ensures Sum(s, f) == f(x) + Sum(s - {x}, f)
    decreases |s|
  {
    var p := Pick(s);
    if p != x {
      SumRemove(s - {p}, f, x);
      SumRemove(s - {x}, f, p);
      assert s - {p} - {x} == s - {x} - {p};
    }
  }

  lemma {:induction false} SumInsert<T(!new)>(s: set<T>, f: T -> int, x: T)
    requires x !in s
    ensures Sum(s + {x}, f) == f(x) + Sum(s, f)
  {
    SumRemove(s + {x}, f, x);
    assert s + {x} - {x} == s;
  }

  lemma {:induction false} SumCongruent<T(!new)>(s: set<T>, f: T -> int, g: T -> int)
    requires forall x | x in s :: f(x) == g(x)
    ensures Sum(s, f) == Sum(s, g)
    decreases |s|
  {
    if s != {} {
      var p := Pick(s);
      SumCongruent(s - {p}, f, g);
    }
  }

  lemma {:induction false} SumZero<T(!new)>(s: set<T>, f: T -> int)
    requires forall x | x in s :: f(x) == 0
    ensures Sum(s, f) == 0
    decreases |s|
  {
    if s != {} {
      var p := Pick(s);
      SumZero(s - {p}, f);
    }
  }

  /** h = c*f + g pointwise, so the sums agree; one lemma for addition, subtraction and negation. */
  lemma {:induction false} SumLinear<T(!new)>(s: set<T>, c: int, f: T -> int, g: T -> int, h: T -> int)
    requires forall x | x in s :: h(x) == c * f(x) + g(x)
    ensures Sum(s, h) == c * Sum(s, f) + Sum(s, g)
    decreases |s|
  {
    if s != {} {
      var p := Pick(s);
      SumLinear(s - {p}, c, f, g, h);
    }
  }

  lemma {:induction false} SumDisjoint<T(!new)>(s: set<T>, t: set<T>, f: T -> int)
    requires s !! t
    ensures Sum(s + t, f) == Sum(s, f) + Sum(t, f)
    decreases |s|
  {
    if s == {} {
      assert s + t == t;
    } else {
      var x := Pick(s);
      SumRemove(s + t, f, x);
      assert s + t - {x} == (s - {x}) + t;
      SumDisjoint(s - {x}, t, f);
    }
  }

  /** Terms outside `t` are zero, so only `t` matters. */
  lemma {:induction false} SumSupport<T(!new)>(s: set<T>, t: set<T>, f: T -> int)
    requires t <= s
    requires forall x | x in s - t :: f(x) == 0
    ensures Sum(s, f) == Sum(t, f)
  {
    SumDisjoint(t, s - t, f);
    SumZero(s - t, f);
    assert t + (s - t) == s;
  }

  /** All terms vanish but the one at `x`. */
  lemma {:induction false} SumSingle<T(!new)>(s: set<T>, f: T -> int, x: T)
    requires forall y | y in s && y != x :: f(y) == 0
    ensures Sum(s, f) == if x in s then f(x) else 0
  {
    if x in s {
      SumRemove(s, f, x);
      SumZero(s - {x}, f);
    } else {
      SumZero(s, f);
    }
  }

  /** Exchange of the two summations of a finite table, given by its rows and by its columns. */
  lemma {:induction false} SumExchange<A(!new), B(!new)>(
      s: set<A>, t: set<B>, rowSum: A -> int, columnSum: B -> int, row: A -> B -> int, column: B -> A -> int)
    requires forall a | a in s :: rowSum(a) == Sum(t, row(a))
    requires forall b | b in t :: columnSum(b) == Sum(s, column(b))
    requires forall a, b | a in s && b in t :: row(a)(b) == column(b)(a)
    ensures Sum(s, rowSum) == Sum(t, columnSum)
    decreases |s|
  {
    if s == {} {
      SumZero(t, columnSum);
    } else {
      var x := Pick(s);
      var rest: B -> int := b => Sum(s - {x}, column(b));
      SumExchange(s - {x}, t, rowSum, rest, row, column);
      forall b | b in t ensures columnSum(b) == 1 * row(x)(b) + rest(b) {
        SumRemove(s, column(b), x);
      }
      SumLinear(t, 1, row(x), rest, columnSum);
    }
  }

  lemma {:induction false} SumBound<T(!new)>(s: set<T>, f: T -> int, c: int)
    requires forall x | x in s :: f(x) <= c
    ensures Sum(s, f) <= c * |s|
    decreases |s|
  {
    if s != {} {
      var p := Pick(s);
      SumBound(s - {p}, f, c);
      assert c * |s| == c * |s - {p}| + c;
    }
  }

  lemma {:induction false} SumIndicator<T(!new)>(s: set<T>, t: set<T>, f: T -> int)
    requires t <= s
    requires forall x | x in s :: f(x) == if x in t then 1 else 0
    ensures Sum(s, f) == |t|
    decreases |t|
  {
    if t == {} {
      SumZero(s, f);
    } else {
      var p := Pick(t);
      SumRemove(s, f, p);
      SumIndicator(s - {p}, t - {p}, f);
    }
  }

  // ---------- Index ranges ----------

  ghost function Range(n: nat): (r: set<nat>)
    ensures forall i: nat :: i in r <==> i < n
  {
    if n == 0 then {} else Range(n - 1) + {n - 1}
  }

  lemma {:induction false} SumRange(n: nat, f: nat -> int)
    ensures Sum(Range(n + 1), f) == Sum(Range(n), f) + f(n)
  {
    assert Range(n + 1) == Range(n) + {n};
    SumInsert(Range(n), f, n);
  }

  // ---------- Bounds ----------

  ghost function Abs(x: int): nat { if x < 0 then -x else x }

  lemma {:induction false} SumNonNegative<T(!new)>(s: set<T>, f: T -> int)
    requires forall x | x in s :: f(x) >= 0
    ensures Sum(s, f) >= 0
    ensures forall x | x in s :: f(x) <= Sum(s, f)
    decreases |s|
  {
    if s != {} {
      var p := Pick(s);
      SumNonNegative(s - {p}, f);
      forall x | x in s ensures f(x) <= Sum(s, f) {
        if x != p { assert x in s - {p}; }
      }
    }
  }
}
