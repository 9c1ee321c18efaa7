// Last-writer-wins registers. An op writes a register through a function from ops to an optional
// (key, value) pair; the register keeps, per key, the value of the strictly greatest clock.
module Registers {
  import opened Operations

  datatype Stamped<+V> = Stamped(hlc: Hlc, value: V)

  /** The one place a last-writer-wins decision is made. */
  function Lww<K, V>(m: map<K, Stamped<V>>, key: K, incoming: Stamped<V>): map<K, Stamped<V>> {
    if key in m && HlcLe(incoming.hlc, m[key].hlc) then m else m[key := incoming]
  }

  function Write<K, V>(m: map<K, Stamped<V>>, op: Op, w: Op -> Option<(K, V)>): map<K, Stamped<V>> {
    match w(op)
    case None => m
    case Some((k, v)) => Lww(m, k, Stamped(op.hlc, v))
  }

  /** The register after the ops have been written one after the other. */
  ghost function Register<K, V>(ops: seq<Op>, w: Op -> Option<(K, V)>): map<K, Stamped<V>> {
    if ops == [] then map[] else Write(Register(ops[..|ops| - 1], w), ops[|ops| - 1], w)
  }

  ghost predicate Writes<K, V>(op: Op, w: Op -> Option<(K, V)>, k: K) {
    w(op).Some? && w(op).value.0 == k
  }

  lemma {:induction false} RegisterSnoc<K, V>(ops: seq<Op>, op: Op, w: Op -> Option<(K, V)>)
    ensures Register(ops + [op], w) == Write(Register(ops, w), op, w)
  {
    assert (ops + [op])[..|ops|] == ops;
  }

  /** `i` is the write that decides key `k`: no clock is greater, and no earlier write has the same clock. */
  ghost predicate Decides<K, V>(ops: seq<Op>, w: Op -> Option<(K, V)>, k: K, i: nat) {
    && i < |ops| && Writes(ops[i], w, k)
    && (forall j | 0 <= j < |ops| && Writes(ops[j], w, k) :: HlcLe(ops[j].hlc, ops[i].hlc))
    && (forall j | 0 <= j < i && Writes(ops[j], w, k) :: ops[j].hlc != ops[i].hlc)
  }

  /** A key is present exactly when some op writes it. */
  lemma {:induction false} RegisterKeys<K, V>(ops: seq<Op>, w: Op -> Option<(K, V)>, k: K)
    ensures k in Register(ops, w) <==> exists o :: o in ops && Writes(o, w, k)
  {
    if ops != [] {
      var n := |ops| - 1;
      RegisterKeys(ops[..n], w, k);
      assert forall o :: o in ops <==> o in ops[..n] || o == ops[n];
      assert k in Register(ops, w) <==> k in Register(ops[..n], w) || Writes(ops[n], w, k);
      if k in Register(ops[..n], w) {
        var o :| o in ops[..n] && Writes(o, w, k);
        assert o in ops;
      }
    }
  }

  /** A present key holds what the deciding write wrote. */
  lemma {:induction false} RegisterDecided<K, V>(ops: seq<Op>, w: Op -> Option<(K, V)>, k: K) returns (i: nat)
    requires k in Register(ops, w)
    ensures Decides(ops, w, k, i)
    ensures Register(ops, w)[k] == Stamped(ops[i].hlc, w(ops[i]).value.1)
  {
    var n := |ops| - 1;
    var before := ops[..n];
    var last := ops[n];
    if k in Register(before, w) {
      i := RegisterDecided(before, w, k);
      if Writes(last, w, k) && !HlcLe(last.hlc, ops[i].hlc) {
        forall j | 0 <= j < n && Writes(ops[j], w, k) ensures HlcLt(ops[j].hlc, last.hlc) {
          assert Writes(before[j], w, k);
        }
        i := n;
      } else {
        assert forall j | 0 <= j < n :: ops[j] == before[j];
      }
    } else {
      RegisterKeys(before, w, k);
      forall j | 0 <= j < n ensures !Writes(ops[j], w, k) { assert before[j] in before; }
      i := n;
    }
  }

  lemma {:induction false} RegisterWinner<K, V>(ops: seq<Op>, w: Op -> Option<(K, V)>, k: K) returns (o: Op)
    requires k in Register(ops, w)
    ensures o in ops && Writes(o, w, k)
    ensures Register(ops, w)[k] == Stamped(o.hlc, w(o).value.1)
    ensures forall p | p in ops && Writes(p, w, k) :: HlcLe(p.hlc, o.hlc)
  {
    var i := RegisterDecided(ops, w, k);
    o := ops[i];
  }

  /** No key is written twice with the same, latest clock and different values. */
  ghost predicate Unconflicted<K, V>(s: set<Op>, w: Op -> Option<(K, V)>) {
    forall x, y | x in s && y in s :: !Conflict(s, w, x, y)
  }

  ghost predicate Conflict<K, V>(s: set<Op>, w: Op -> Option<(K, V)>, x: Op, y: Op) {
    && w(x).Some? && w(y).Some? && w(x).value.0 == w(y).value.0 && w(x) != w(y)
    && x.hlc == y.hlc && forall z | z in s && Writes(z, w, w(x).value.0) :: HlcLe(z.hlc, x.hlc)
  }

  lemma {:induction false} DistinctIsUnconflicted<K, V>(s: set<Op>, w: Op -> Option<(K, V)>)
    requires DistinctHlcs(s)
    ensures Unconflicted(s, w)
  {
    hide HlcLe;
  }

  /** The same for one key. */
  ghost predicate UnconflictedAt<K, V>(s: set<Op>, w: Op -> Option<(K, V)>, k: K) {
    forall x, y | x in s && y in s && Writes(x, w, k) :: !Conflict(s, w, x, y)
  }

  lemma {:induction false} UnconflictedEverywhere<K(!new), V>(s: set<Op>, w: Op -> Option<(K, V)>)
    ensures Unconflicted(s, w) <==> forall k :: UnconflictedAt(s, w, k)
  {
    if forall k :: UnconflictedAt(s, w, k) {
      forall x, y | x in s && y in s ensures !Conflict(s, w, x, y) {
        if w(x).Some? { assert Writes(x, w, w(x).value.0) && UnconflictedAt(s, w, w(x).value.0); }
      }
    }
  }

  lemma {:induction false} RegisterKeysOfSet<K, V>(a: seq<Op>, b: seq<Op>, w: Op -> Option<(K, V)>)
    requires Elems(a) == Elems(b)
    ensures Register(a, w).Keys == Register(b, w).Keys
  {
    hide Register;
    assert forall o :: o in a <==> o in Elems(a);
    assert forall o :: o in b <==> o in Elems(b);
    var ra, rb := Register(a, w), Register(b, w);
    forall k | k in ra.Keys + rb.Keys ensures k in ra && k in rb {
      RegisterKeys(a, w, k);
      RegisterKeys(b, w, k);
    }
    assert ra.Keys == rb.Keys;
  }

  /** Without a conflict at a key, what it holds is a function of the set of ops. */
  lemma {:induction false} RegisterAtOfSet<K, V>(a: seq<Op>, b: seq<Op>, w: Op -> Option<(K, V)>, k: K)
    requires Elems(a) == Elems(b) && UnconflictedAt(Elems(a), w, k)
    ensures k in Register(a, w) <==> k in Register(b, w)
    ensures k in Register(a, w) ==> Register(a, w)[k] == Register(b, w)[k]
  {
    hide Register, UnconflictedAt;
    RegisterKeysOfSet(a, b, w);
    assert forall o :: o in a <==> o in Elems(a);
    assert forall o :: o in b <==> o in Elems(b);
    if k in Register(a, w) {
      var x := RegisterWinner(a, w, k);
      var y := RegisterWinner(b, w, k);
      TieHasOneValue(Elems(a), w, x, y);
    }
  }

  /** Without conflicts the register is a function of the set of ops: order and repetition are irrelevant. */
  lemma {:induction false} RegisterOfSet<K(!new), V>(a: seq<Op>, b: seq<Op>, w: Op -> Option<(K, V)>)
    requires Elems(a) == Elems(b) && Unconflicted(Elems(a), w)
    ensures Register(a, w) == Register(b, w)
  {
    hide Register;
    UnconflictedEverywhere(Elems(a), w);
    RegisterKeysOfSet(a, b, w);
    forall k | k in Register(a, w) ensures Register(a, w)[k] == Register(b, w)[k] { RegisterAtOfSet(a, b, w, k); }
  }

  lemma {:induction false} TieHasOneValue<K, V>(s: set<Op>, w: Op -> Option<(K, V)>, x: Op, y: Op)
    requires x in s && y in s && w(x).Some? && Writes(y, w, w(x).value.0) && UnconflictedAt(s, w, w(x).value.0)
    requires forall z | z in s && Writes(z, w, w(x).value.0) :: HlcLe(z.hlc, x.hlc) && HlcLe(z.hlc, y.hlc)
    ensures x.hlc == y.hlc && w(x) == w(y)
  {
    assert HlcLe(x.hlc, y.hlc) && HlcLe(y.hlc, x.hlc);
    assert !Conflict(s, w, x, y);
  }

  /** The first of the latest writes decides, so putting one in front makes it the winner. */
  lemma {:induction false} FrontWins<K, V>(a: seq<Op>, w: Op -> Option<(K, V)>, x: Op)
    requires x in a && w(x).Some?
    requires forall z | z in a && Writes(z, w, w(x).value.0) :: HlcLe(z.hlc, x.hlc)
    ensures w(x).value.0 in Register([x] + a, w) && Register([x] + a, w)[w(x).value.0] == Stamped(x.hlc, w(x).value.1)
  {
    hide Register;
    var k, b := w(x).value.0, [x] + a;
    RegisterKeys(b, w, k);
    assert b[0] == x && x in b && Writes(x, w, k);
    var i := RegisterDecided(b, w, k);
    assert b[i] in b && Writes(b[0], w, k);
  }

  /** An op that does not write the key makes no difference to it in front. */
  lemma {:induction false} FrontSkips<K, V>(o: Op, a: seq<Op>, w: Op -> Option<(K, V)>, k: K)
    requires !Writes(o, w, k)
    ensures k in Register([o] + a, w) <==> k in Register(a, w)
    ensures k in Register(a, w) ==> Register([o] + a, w)[k] == Register(a, w)[k]
  {
    if a == [] {
      assert [o] + a == [] + [o];
      RegisterSnoc([], o, w);
    } else {
      var n := |a| - 1;
      FrontSkips(o, a[..n], w, k);
      assert [o] + a == ([o] + a[..n]) + [a[n]];
      RegisterSnoc([o] + a[..n], a[n], w);
    }
  }

  /** Two registers decided by ops that write both are decided by one op. */
  lemma {:induction false} DecidersMeet<K, V, W>(
      ops: seq<Op>, v: Op -> Option<(K, V)>, w: Op -> Option<(K, W)>, k: K, i: nat, j: nat)
    requires Decides(ops, v, k, i) && Decides(ops, w, k, j)
    requires Writes(ops[i], w, k) && Writes(ops[j], v, k)
    ensures i == j
  {
    assert HlcLe(ops[i].hlc, ops[j].hlc) && HlcLe(ops[j].hlc, ops[i].hlc);
  }

  /** Exactly when there is no conflict does every ordering and repetition of the ops give the same register. */
  lemma {:induction false} OrderFreeIffUnconflicted<K(!new), V>(a: seq<Op>, w: Op -> Option<(K, V)>)
    ensures Unconflicted(Elems(a), w) <==> forall b | Elems(b) == Elems(a) :: Register(b, w) == Register(a, w)
  {
    hide Register;
    if Unconflicted(Elems(a), w) {
      forall b | Elems(b) == Elems(a) ensures Register(b, w) == Register(a, w) { RegisterOfSet(a, b, w); }
    } else {
      var x, y :| x in Elems(a) && y in Elems(a) && Conflict(Elems(a), w, x, y);
      assert Elems([x] + a) == Elems(a) && Elems([y] + a) == Elems(a);
      assert forall z :: z in a <==> z in Elems(a);
      FrontWins(a, w, x);
      FrontWins(a, w, y);
    }
  }

  /** Writing again ops that are already in changes nothing, whatever the ties. */
  lemma {:induction false} RegisterAbsorbs<K, V>(ops: seq<Op>, more: seq<Op>, w: Op -> Option<(K, V)>)
    requires forall o | o in more :: o in ops
    ensures Register(ops + more, w) == Register(ops, w)
  {
    if more == [] {
      assert ops + more == ops;
    } else {
      var n := |more| - 1;
      var o := more[n];
      RegisterAbsorbs(ops, more[..n], w);
      assert ops + more == (ops + more[..n]) + [o];
      RegisterSnoc(ops + more[..n], o, w);
      assert o in ops;
      if w(o).Some? {
        var k := w(o).value.0;
        RegisterKeys(ops, w, k);
        var x := RegisterWinner(ops, w, k);
      }
    }
  }

  // ---------- Filtering ----------

  ghost function Filter(ops: seq<Op>, keep: Op -> bool): (r: seq<Op>)
    ensures forall o :: o in r <==> o in ops && keep(o)
  {
    if ops == [] then []
    else
      var n := |ops| - 1;
      var r := Filter(ops[..n], keep);
      assert forall o :: o in ops <==> o in ops[..n] || o == ops[n];
      if keep(ops[n]) then r + [ops[n]] else r
  }

  lemma {:induction false} FilterSnoc(ops: seq<Op>, op: Op, keep: Op -> bool)
    ensures Filter(ops + [op], keep) == Filter(ops, keep) + if keep(op) then [op] else []
  {
    assert (ops + [op])[..|ops|] == ops;
  }

  /** Dropping ops is the same as letting them write nothing. */
  lemma {:induction false} RegisterOfFiltered<K, V>(
      ops: seq<Op>, keep: Op -> bool, w: Op -> Option<(K, V)>, guarded: Op -> Option<(K, V)>)
    requires forall o | o in ops :: guarded(o) == if keep(o) then w(o) else None
    ensures Register(Filter(ops, keep), w) == Register(ops, guarded)
  {
    if ops != [] {
      var n := |ops| - 1;
      RegisterOfFiltered(ops[..n], keep, w, guarded);
      assert ops[n] in ops;
      if keep(ops[n]) {
        RegisterSnoc(Filter(ops[..n], keep), ops[n], w);
      }
    }
  }

  lemma {:induction false} RegisterCongruent<K, V>(ops: seq<Op>, w1: Op -> Option<(K, V)>, w2: Op -> Option<(K, V)>)
    requires forall o | o in ops :: w1(o) == w2(o)
    ensures Register(ops, w1) == Register(ops, w2)
  {
    if ops != [] {
      RegisterCongruent(ops[..|ops| - 1], w1, w2);
      assert ops[|ops| - 1] in ops;
    }
  }
}
