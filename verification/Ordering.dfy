// Total orders, and what the source's ordered collections give: the least and greatest
// element of a set and the ascending sequence of its elements (BTreeMap / BTreeSet
// iteration, slice::sort). String order is Rust's `Ord for String`: UTF-8 byte order, which
// is code point order.
module Ordering {

  // ---------- Total orders on a finite set ----------

  ghost predicate TotalOn<T(!new)>(s: set<T>, le: (T, T) -> bool) {
    && (forall x {:trigger le(x, x)} | x in s :: le(x, x))
    && (forall x, y {:trigger le(x, y)} | x in s && y in s :: le(x, y) || le(y, x))
    && (forall x, y {:trigger le(x, y), le(y, x)} | x in s && y in s && le(x, y) && le(y, x) :: x == y)
    && (forall x, y, z {:trigger le(x, y), le(y, z)} | x in s && y in s && z in s && le(x, y) && le(y, z) :: le(x, z))
  }

  lemma {:induction false} FindLeast<T(!new)>(s: set<T>, le: (T, T) -> bool) returns (m: T)
    requires TotalOn(s, le) && s != {}
    ensures m in s && forall y | y in s :: le(m, y)
  {
    var e :| e in s;
    var rest := s - {e};
    m := e;
    if rest == {} {
      assert s == {e};
    } else {
      assert TotalOn(rest, le);
      var x := FindLeast(rest, le);
      if le(e, x) {
        forall y | y in s ensures le(e, y) {
          if y != e { assert le(x, y); }
        }
      } else {
        m := x;
        assert le(x, e);
      }
    }
  }

  lemma {:induction false} FindGreatest<T(!new)>(s: set<T>, le: (T, T) -> bool) returns (m: T)
    requires TotalOn(s, le) && s != {}
    ensures m in s && forall y | y in s :: le(y, m)
  {
    var ge := (x, y) => le(y, x);
    assert forall x, y :: ge(x, y) == le(y, x);
    m := FindLeast(s, ge);
  }

  lemma {:induction false} LeastExists<T(!new)>(s: set<T>, le: (T, T) -> bool)
    requires TotalOn(s, le) && s != {}
    ensures exists x :: x in s && forall y | y in s :: le(x, y)
  {
    var m := FindLeast(s, le);
  }

  lemma {:induction false} GreatestExists<T(!new)>(s: set<T>, le: (T, T) -> bool)
    requires TotalOn(s, le) && s != {}
    ensures exists x :: x in s && forall y | y in s :: le(y, x)
  {
    var m := FindGreatest(s, le);
  }

  function Least<T(==,!new)>(s: set<T>, le: (T, T) -> bool): (x: T)
    requires TotalOn(s, le) && s != {}
    ensures x in s && forall y | y in s :: le(x, y)
  {
    LeastExists(s, le);
    var x :| x in s && forall y | y in s :: le(x, y);
    x
  }

  function Greatest<T(==,!new)>(s: set<T>, le: (T, T) -> bool): (x: T)
    requires TotalOn(s, le) && s != {}
    ensures x in s && forall y | y in s :: le(y, x)
  {
    GreatestExists(s, le);
    var x :| x in s && forall y | y in s :: le(y, x);
    x
  }

  lemma {:induction false} SubsetSize<T>(s: set<T>, t: set<T>)
    requires s <= t
    ensures |s| <= |t|
    decreases s
  {
    if s != {} {
      var x :| x in s;
      SubsetSize(s - {x}, t - {x});
    }
  }

  ghost function Image<A(!new), B>(s: set<A>, f: A -> B): set<B> { set x | x in s :: f(x) }

  /** An injective image is as large as the set. */
  lemma {:induction false} ImageSize<A(!new), B>(s: set<A>, f: A -> B)
    requires forall x, y | x in s && y in s && f(x) == f(y) :: x == y
    ensures |Image(s, f)| == |s|
    decreases |s|
  {
    if s != {} {
      var x :| x in s;
      ImageSize(s - {x}, f);
      assert Image(s, f) == Image(s - {x}, f) + {f(x)};
    }
  }

  // ---------- Ascending enumeration ----------

  ghost predicate StrictlyAscending<T(!new)>(r: seq<T>, le: (T, T) -> bool) {
    forall i, j | 0 <= i < j < |r| :: le(r[i], r[j]) && r[i] != r[j]
  }

  lemma TotalOnSubset<T(!new)>(s: set<T>, t: set<T>, le: (T, T) -> bool)
    requires TotalOn(s, le) && t <= s
    ensures TotalOn(t, le)
  {}

  lemma {:induction false} AscendingCons<T(!new)>(s: set<T>, le: (T, T) -> bool, x: T, rest: seq<T>)
    requires x in s && forall y | y in s :: le(x, y)
    requires forall y :: y in rest <==> y in s - {x}
    requires StrictlyAscending(rest, le)
    ensures StrictlyAscending([x] + rest, le)
    ensures forall y :: y in [x] + rest <==> y in s
  {
    forall i, j | 0 <= i < j < |[x] + rest|
      ensures le(([x] + rest)[i], ([x] + rest)[j]) && ([x] + rest)[i] != ([x] + rest)[j]
    {
      assert ([x] + rest)[j] == rest[j - 1] && rest[j - 1] in rest;
    }
  }

  /** The elements of `s` in ascending order: the iteration order of a BTreeSet. */
  function Sorted<T(==,!new)>(s: set<T>, le: (T, T) -> bool): (r: seq<T>)
    requires TotalOn(s, le)
    ensures |r| == |s|
    ensures forall x :: x in r <==> x in s
    ensures StrictlyAscending(r, le)
    decreases |s|
  {
    hide TotalOn, StrictlyAscending;
    if s == {} then EmptyAscending(le); []
    else
      var x := Least(s, le);
      TotalOnSubset(s, s - {x}, le);
      var rest := Sorted(s - {x}, le);
      AscendingCons(s, le, x, rest);
      [x] + rest
  }

  lemma EmptyAscending<T(!new)>(le: (T, T) -> bool)
    ensures StrictlyAscending([], le)
  {}

  lemma {:induction false} HasElement<T>(s: seq<T>)
    ensures s != [] ==> exists x :: x in s
  {
    if s != [] { assert s[0] in s; }
  }

  lemma {:induction false} TailOf<T(!new)>(a: seq<T>, le: (T, T) -> bool, x: T)
    requires a != [] && StrictlyAscending(a, le)
    ensures x in a[1..] <==> x in a && x != a[0]
  {
    if x in a && x != a[0] {
      var l :| 0 <= l < |a| && a[l] == x;
      assert a[1..][l - 1] == x;
    }
  }

  lemma AntisymmetryOn<T(!new)>(s: set<T>, le: (T, T) -> bool, x: T, y: T)
    requires TotalOn(s, le) && x in s && y in s
    requires (x == y || le(x, y)) && (x == y || le(y, x))
    ensures x == y
  {}

  /** Only one ascending sequence holds a given set of elements. */
  lemma {:induction false} AscendingIsUnique<T(!new)>(a: seq<T>, b: seq<T>, le: (T, T) -> bool)
    requires StrictlyAscending(a, le) && StrictlyAscending(b, le)
    requires TotalOn((set x | x in a), le)
    requires forall x :: x in a <==> x in b
    ensures a == b
    decreases |a|
  {
    hide TotalOn;
    if a == [] {
      HasElement(b);
    } else {
      assert a[0] in b;
      assert b[0] in a;
      var i :| 0 <= i < |b| && b[i] == a[0];
      var j :| 0 <= j < |a| && a[j] == b[0];
      assert a[0] == b[0] by {
        assert (i == 0 || le(b[0], b[i])) && (j == 0 || le(a[0], a[j]));
        AntisymmetryOn((set x | x in a), le, a[0], b[0]);
      }
      forall x ensures x in a[1..] <==> x in b[1..] {
        TailOf(a, le, x);
        TailOf(b, le, x);
      }
      TotalOnSubset((set x | x in a), (set x | x in a[1..]), le);
      AscendingIsUnique(a[1..], b[1..], le);
      assert a == [a[0]] + a[1..] && b == [b[0]] + b[1..];
    }
  }

  // ---------- Strings ----------

  predicate StrLe(a: string, b: string) {
    a == "" || (b != "" && (a[0] < b[0] || (a[0] == b[0] && StrLe(a[1..], b[1..]))))
  }

  lemma {:induction false} StrOrder(a: string, b: string)
    ensures StrLe(a, a)
    ensures StrLe(a, b) || StrLe(b, a)
    ensures StrLe(a, b) && StrLe(b, a) ==> a == b
  {
    if a != "" {
      StrOrder(a[1..], if b == "" then "" else b[1..]);
      if b != "" && a[0] == b[0] && a[1..] == b[1..] {
        assert a == [a[0]] + a[1..] == b;
      }
    }
  }

  /** The strings agree up to `i`, where `a` has the smaller character. */
  ghost predicate SmallerAt(a: string, b: string, i: nat) { i < |a| && i < |b| && a[..i] == b[..i] && a[i] < b[i] }

  /** A string comes before another when it is a prefix of it, or has the smaller character where they first differ. */
  lemma {:induction false} StrLeMeaning(a: string, b: string)
    ensures StrLe(a, b) <==> a <= b || exists i: nat :: SmallerAt(a, b, i)
  {
    if a != "" && b != "" {
      forall i: nat | SmallerAt(a, b, i) ensures i == 0 || a[0] == b[0] {
        if i > 0 { assert a[..i][0] == b[..i][0]; }
      }
      if a[0] == b[0] {
        StrLeMeaning(a[1..], b[1..]);
        assert a == [a[0]] + a[1..] && b == [b[0]] + b[1..];
        if i: nat :| SmallerAt(a[1..], b[1..], i) {
          assert a[..i + 1] == [a[0]] + a[1..][..i] && b[..i + 1] == [b[0]] + b[1..][..i];
          assert SmallerAt(a, b, i + 1);
        }
        if i: nat :| SmallerAt(a, b, i) {
          assert i > 0 && a[1..][..i - 1] == a[..i][1..] && b[1..][..i - 1] == b[..i][1..];
          assert SmallerAt(a[1..], b[1..], i - 1);
        }
      } else if a[0] < b[0] {
        assert SmallerAt(a, b, 0);
      }
    }
  }

  lemma {:induction false} StrTransitive(a: string, b: string, c: string)
    requires StrLe(a, b) && StrLe(b, c)
    ensures StrLe(a, c)
  {
    if a != "" && b != "" && c != "" && a[0] == b[0] == c[0] {
      StrTransitive(a[1..], b[1..], c[1..]);
    }
  }

  lemma {:induction false} StrTotal(s: set<string>)
    ensures TotalOn(s, StrLe)
  {
    forall x, y { StrOrder(x, y); }
    forall x, y, z | StrLe(x, y) && StrLe(y, z) ensures StrLe(x, z) { StrTransitive(x, y, z); }
  }

  /** The keys of a map with string keys, in iteration order. */
  function SortedStrings(s: set<string>): (r: seq<string>)
    ensures |r| == |s| && (forall u :: u in r <==> u in s)
    ensures StrictlyAscending(r, StrLe)
    ensures forall i, j | 0 <= i < j < |r| :: r[i] != r[j]
  {
    StrTotal(s);
    Sorted(s, StrLe)
  }
}
