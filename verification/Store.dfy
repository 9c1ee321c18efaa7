// The op-log store and the repository: a trust boundary in front of the log, and a read model that
// is folded on demand and cached between appends.
module Store {
  import opened Ordering
  import opened Operations
  import opened Materialization
  import opened Authorization
  import opened Convergence
  import opened Ties

  type Log = map<OpId, SignedOp>

  class MemoryOpStore {
    var ops: Log

    /** Every op is stored under its own id. */
    ghost predicate Valid()
      reads this
    {
      WellKeyed(ops)
    }

    constructor ()
      ensures Valid() && ops == map[]
    {
      ops := map[];
    }

    /** Stores the op under its id, replacing what was there; true when nothing was. */
    method Append(o: SignedOp) returns (isNew: bool)
      requires Valid()
      modifies this
      ensures Valid()
      ensures ops == old(ops)[o.op.id := o] && (isNew <==> o.op.id !in old(ops))
    {
      isNew := o.op.id !in ops;
      ops := ops[o.op.id := o];
    }

    method Get(id: OpId) returns (o: Option<SignedOp>)
      ensures o == if id in ops then Some(ops[id]) else None
    {
      o := if id in ops then Some(ops[id]) else None;
    }

    /** All stored ops, in id order. */
    method Ops() returns (all: seq<SignedOp>)
      ensures all == Entries(ops)
    {
      all := Entries(ops);
    }
  }

  function Entries(m: Log): (r: seq<SignedOp>)
    ensures Elems(r) == set id | id in m :: m[id]
    ensures |r| == |m|
  {
    hide SortedIds;
    var ids := SortedIds(m.Keys);
    var r := seq(|ids|, i requires 0 <= i < |ids| => assert ids[i] in ids; m[ids[i]]);
    EntryElems(m, ids, r);
    r
  }

  lemma {:induction false} EntryElems(m: Log, ids: seq<OpId>, r: seq<SignedOp>)
    requires forall id :: id in ids <==> id in m.Keys
    requires |r| == |ids| && forall i | 0 <= i < |ids| :: ids[i] in m && r[i] == m[ids[i]]
    ensures Elems(r) == set id | id in m :: m[id]
  {
    forall id | id in m ensures m[id] in Elems(r) {
      assert id in ids;
      var i :| 0 <= i < |ids| && ids[i] == id;
      assert r[i] in r;
    }
    forall o | o in Elems(r) ensures o in set id | id in m :: m[id] {
      var i :| 0 <= i < |r| && r[i] == o;
      assert ids[i] in ids;
    }
  }

  // ---------- The plain log ----------

  datatype Applied = Stored | Duplicate | Rejected

  /** What an append does to the log. */
  function Appended(c: Crypto, m: Log, o: SignedOp): Log {
    if Verify(c, o).Some? then m else m[o.op.id := o]
  }

  function OutcomeOf(c: Crypto, m: Log, o: SignedOp): Applied {
    if Verify(c, o).Some? then Rejected else if o.op.id in m then Duplicate else Stored
  }

  /** Keyed by id, and each id the hash of its content. */
  ghost predicate GenuineLog(c: Crypto, m: Log) {
    CollisionFree(c) && WellKeyed(m) && forall id | id in m :: Genuine(c, m[id].op)
  }

  /** An append keeps the log genuine and adds at most the op; a duplicate or a rejected op adds nothing. */
  lemma {:induction false} AppendedContents(c: Crypto, m: Log, o: SignedOp)
    requires GenuineLog(c, m)
    ensures GenuineLog(c, Appended(c, m, o))
    ensures Held(Appended(c, m, o)) == if OutcomeOf(c, m, o).Stored? then Held(m) + {o.op} else Held(m)
    ensures Verify(c, o).None? ==> o.op in Held(Appended(c, m, o))
  {
    var n := Appended(c, m, o);
    if Verify(c, o).None? {
      assert n[o.op.id].op in Held(n);
      if o.op.id in m { assert ContentOf(m[o.op.id].op) == ContentOf(o.op); }
      forall x | x in Held(m) ensures x in Held(n) {
        var id :| id in m && m[id].op == x;
        assert n[id].op == x;
      }
      forall x | x in Held(n) && x != o.op ensures x in Held(m) {
        var id :| id in n && n[id].op == x;
        assert m[id].op == x;
      }
    }
  }

  lemma GenuineLogIsKeyed(c: Crypto, m: Log)
    ensures GenuineLog(c, m) ==> WellKeyed(m)
  {}

  /** What a log reads as. */
  ghost function ReadOf(m: Log): Projection
    requires WellKeyed(m)
  {
    WellKeyedIds(m);
    FoldOf(InIdOrder(m))
  }

  lemma ReadIsFold(m: Log)
    requires WellKeyed(m)
    ensures IdsUnique(Elems(InIdOrder(m))) && ReadOf(m) == FoldOf(InIdOrder(m))
  {
    WellKeyedIds(m);
  }

  /** Logs with the same contents read the same, whatever their signatures. */
  lemma {:induction false} ReadsAgree(m: Log, n: Log)
    requires WellKeyed(m) && WellKeyed(n) && Held(m) == Held(n)
    ensures ReadOf(m) == ReadOf(n)
  {
    hide FoldOf, InIdOrder, Held;
    InIdOrderReadsContents(m, n);
  }

  /** A verifiable op whose id is taken by other content: the store replaces what the read model keeps. */
  ghost predicate Displaces(c: Crypto, m: Log, o: SignedOp) {
    Verify(c, o).None? && o.op.id in m && m[o.op.id].op != o.op
  }

  /** That cannot happen while stored ids are the hashes of their contents. */
  lemma {:induction false} GenuineIsNeverDisplaced(c: Crypto, m: Log, o: SignedOp)
    requires GenuineLog(c, m)
    ensures !Displaces(c, m, o)
  {
    if Verify(c, o).None? && o.op.id in m {
      GenuineIdsUnique(c, {m[o.op.id].op, o.op});
      assert SameId(m[o.op.id].op, o.op);
    }
  }

  // ---------- The repository ----------

  class Repository {
    const crypto: Crypto
    const store: MemoryOpStore
    const materializer: Materializer
    var cached: Option<Projection>

    /** Store and materializer hold the same ids, and the cache is empty or the fold of the latter. */
    ghost predicate Valid()
      reads this, store, materializer
    {
      && store.Valid() && materializer.Valid()
      && store.ops.Keys == materializer.ops.Keys
      && (cached.Some? ==> cached.value == ReadOf(materializer.ops))
    }

    /** They hold the same contents. */
    ghost predicate InStep()
      reads store, materializer
    {
      Held(store.ops) == Held(materializer.ops)
    }

    /** Rebuilds the materializer by replaying the stored log, whatever it holds. */
    constructor (crypto: Crypto, store: MemoryOpStore)
      requires store.Valid()
      ensures Valid() && InStep() && materializer.ops == store.ops
      ensures this.crypto == crypto && this.store == store && fresh(materializer) && cached == None
    {
      this.crypto := crypto;
      this.store := store;
      cached := None;
      materializer := new Materializer();
      new;
      var all := Entries(store.ops);
      materializer.ApplyAll(all);
      ReplayedLog(store.ops);
    }

    /**
     * The trust boundary: verify, persist, retain, and drop the cache when the op is new. Store and
     * materializer stay in step exactly when the op displaces no other content.
     */
    method Append(o: SignedOp) returns (r: Applied)
      requires Valid()
      modifies this`cached, store, materializer
      ensures Valid()
      ensures r == OutcomeOf(crypto, old(store.ops), o) && store.ops == Appended(crypto, old(store.ops), o)
      ensures var content := Content(o.op.hlc, o.op.author, o.op.kind);
              r.Rejected? <==> crypto.hash(content) != o.op.id || !crypto.signs(o.op.author, content, o.sig)
      ensures r.Rejected? ==> store.ops == old(store.ops)
      ensures !r.Rejected? ==> store.ops == old(store.ops)[o.op.id := o] && (r.Stored? <==> o.op.id !in old(store.ops))
      ensures r.Stored? ==> cached == None && materializer.ops == old(materializer.ops)[o.op.id := o]
      ensures !r.Stored? ==> cached == old(cached) && materializer.ops == old(materializer.ops)
      ensures old(InStep()) ==> (InStep() <==> !Displaces(crypto, old(store.ops), o))
    {
      hide ReadOf, Verify, Held;
      VerifyMeaning(crypto, o);
      if Verify(crypto, o).Some? { return Rejected; }
      PutHolds(store.ops, o);
      var isNew := store.Append(o);
      if !isNew {
        assert store.ops.Keys == old(store.ops).Keys;
        return Duplicate;
      }
      PutHolds(materializer.ops, o);
      materializer.Apply(o);
      cached := None;
      assert store.ops.Keys == old(store.ops).Keys + {o.op.id};
      return Stored;
    }

    /** The current read model, from the cache when it is filled. */
    method Read() returns (p: Projection)
      requires Valid()
      modifies this`cached
      ensures Valid() && cached == Some(p) && p == ReadOf(materializer.ops)
      ensures InStep() ==> p == ReadOf(store.ops)
    {
      hide Held, ReadOf, FoldOf, InIdOrder, WellKeyed;
      if InStep() { ReadsAgree(materializer.ops, store.ops); }
      if cached.None? {
        ReadIsFold(materializer.ops);
        var folded := materializer.Project();
        cached := Some(folded);
      }
      p := cached.value;
    }
  }

  /** What putting an op under its id does to the contents. */
  lemma {:induction false} PutHolds(m: Log, o: SignedOp)
    requires WellKeyed(m)
    ensures var n := m[o.op.id := o];
            && (o.op.id !in m ==> Held(n) == Held(m) + {o.op})
            && (o.op.id in m ==> (Held(n) == Held(m) <==> m[o.op.id].op == o.op))
  {
    var n := m[o.op.id := o];
    assert n[o.op.id].op in Held(n);
    forall x | x in Held(m) && x.id != o.op.id ensures x in Held(n) {
      var id :| id in m && m[id].op == x;
      assert n[id].op == x;
    }
    forall x | x in Held(n) && x.id != o.op.id ensures x in Held(m) {
      var id :| id in n && n[id].op == x;
      assert m[id].op == x;
    }
    if o.op.id in m { assert m[o.op.id].op in Held(m); }
  }

  ghost predicate HasId(batch: seq<SignedOp>, id: OpId) { exists o :: o in batch && o.op.id == id }

  ghost predicate IdsDiffer(batch: seq<SignedOp>) {
    forall i, j | 0 <= i < j < |batch| :: batch[i].op.id != batch[j].op.id
  }

  lemma {:induction false} RetainDistinct(batch: seq<SignedOp>, id: OpId)
    requires IdsDiffer(batch)
    ensures var r := RetainAll(map[], batch);
            && (id in r <==> HasId(batch, id))
            && forall o | o in batch && o.op.id == id :: r[id] == o
  {
    if batch != [] {
      var n := |batch| - 1;
      RetainDistinct(batch[..n], id);
      assert forall o :: o in batch <==> o in batch[..n] || o == batch[n];
      LastIdIsNew(batch);
    }
  }

  lemma {:induction false} LastIdIsNew(batch: seq<SignedOp>)
    requires IdsDiffer(batch) && batch != []
    ensures !HasId(batch[..|batch| - 1], batch[|batch| - 1].op.id)
  {
    var n := |batch| - 1;
    forall o | o in batch[..n] ensures o.op.id != batch[n].op.id {
      var i :| 0 <= i < n && batch[i] == o;
    }
  }

  /** Replaying what is stored rebuilds it. */
  lemma {:induction false} ReplayedLog(m: Log)
    requires WellKeyed(m)
    ensures RetainAll(map[], Entries(m)) == m
  {
    hide RetainAll, Entries, IdsDiffer;
    var all, r := Entries(m), RetainAll(map[], Entries(m));
    EntriesDiffer(m);
    assert forall o :: o in all <==> o in Elems(all);
    forall id ensures id in r.Keys <==> id in m.Keys {
      RetainDistinct(all, id);
      if id in m { assert m[id] in all; }
    }
    forall id | id in m ensures r[id] == m[id] {
      RetainDistinct(all, id);
      assert m[id] in all;
    }
  }

  lemma {:induction false} EntriesDiffer(m: Log)
    requires WellKeyed(m)
    ensures IdsDiffer(Entries(m))
  {
    hide SortedIds;
    var ids := SortedIds(m.Keys);
    SortedIdsDiffer(m.Keys);
    assert forall i | 0 <= i < |ids| :: ids[i] in ids;
    assert forall i | 0 <= i < |ids| :: Entries(m)[i].op.id == ids[i];
  }

  /** Stored ops are listed in id order. */
  lemma {:induction false} EntriesAscend(m: Log, i: nat, j: nat)
    requires WellKeyed(m) && i < j < |m|
    ensures |Entries(m)| == |m| && Entries(m)[i].op.id < Entries(m)[j].op.id
  {
    hide SortedIds;
    IdOrderAscends(m, i, j);
    var ids := SortedIds(m.Keys);
    assert ids[i] in ids && ids[j] in ids;
  }

  lemma {:induction false} SortedIdsDiffer(ids: set<OpId>)
    ensures var r := SortedIds(ids); forall i, j | 0 <= i < j < |r| :: r[i] != r[j]
  {
    assert TotalOn(ids, IdLe);
  }

  // ---------- The trust boundary ----------

  /** The author of the op signed its content. */
  predicate IsSigned(c: Crypto, o: SignedOp) { c.signs(o.op.author, Content(o.op.hlc, o.op.author, o.op.kind), o.sig) }

  predicate IsHashed(c: Crypto, o: SignedOp) { c.hash(Content(o.op.hlc, o.op.author, o.op.kind)) == o.op.id }

  /** `n` holds what is left of `m`, and besides only ops that are signed and whose id is their hash. */
  ghost predicate GrownFrom(c: Crypto, m: Log, n: Log) {
    && m.Keys <= n.Keys
    && forall id | id in n :: (id in m && n[id] == m[id]) || (IsHashed(c, n[id]) && IsSigned(c, n[id]))
  }

  /** An append lets in exactly the ops that are signed and whose id is their hash. */
  lemma {:induction false} AppendIsGuarded(c: Crypto, m: Log, o: SignedOp)
    ensures GrownFrom(c, m, Appended(c, m, o))
    ensures Appended(c, m, o) == if IsHashed(c, o) && IsSigned(c, o) then m[o.op.id := o] else m
    ensures OutcomeOf(c, m, o) == Rejected <==> !(IsHashed(c, o) && IsSigned(c, o))
  {
    VerifyMeaning(c, o);
  }

  lemma {:induction false} GrownFurther(c: Crypto, m: Log, n: Log, r: Log)
    requires GrownFrom(c, m, n) && GrownFrom(c, n, r)
    ensures GrownFrom(c, m, r)
  {}

  // ---------- Every run ----------

  datatype Command = AppendOp(o: SignedOp) | ReadNow

  function AfterOne(c: Crypto, m: Log, cmd: Command): Log {
    match cmd
    case AppendOp(o) => Appended(c, m, o)
    case ReadNow => m
  }

  /** What a command returns of a log. */
  ghost function ReadOne(m: Log, cmd: Command): seq<Projection>
    requires WellKeyed(m)
  {
    if cmd.ReadNow? then [ReadOf(m)] else []
  }

  /** The log after a run of commands. */
  function LogAfter(c: Crypto, m: Log, cmds: seq<Command>): Log {
    if cmds == [] then m else AfterOne(c, LogAfter(c, m, cmds[..|cmds| - 1]), cmds[|cmds| - 1])
  }

  /** After any run, in whatever order, the log holds its first contents and the verifiable ops appended since. */
  lemma {:induction false} RunContents(c: Crypto, m: Log, cmds: seq<Command>)
    requires GenuineLog(c, m)
    ensures GenuineLog(c, LogAfter(c, m, cmds))
    ensures Held(LogAfter(c, m, cmds))
         == Held(m) + set cmd | cmd in cmds && cmd.AppendOp? && Verify(c, cmd.o).None? :: cmd.o.op
  {
    hide Appended, OutcomeOf, GenuineLog, Verify, Held;
    if cmds != [] {
      var n := |cmds| - 1;
      var before, last := cmds[..n], cmds[n];
      assert cmds == before + [last];
      RunContents(c, m, before);
      var was := set cmd | cmd in before && cmd.AppendOp? && Verify(c, cmd.o).None? :: cmd.o.op;
      var now := set cmd | cmd in cmds && cmd.AppendOp? && Verify(c, cmd.o).None? :: cmd.o.op;
      if last.AppendOp? {
        AppendedContents(c, LogAfter(c, m, before), last.o);
        AppendAddsVerified(c, LogAfter(c, m, before), last.o);
        assert now == if Verify(c, last.o).None? then was + {last.o.op} else was;
      } else {
        assert now == was;
      }
    }
  }

  /** No run lets in an op that is not signed, or whose id is not its hash. */
  lemma {:induction false} RunsAreGuarded(c: Crypto, m: Log, cmds: seq<Command>)
    ensures GrownFrom(c, m, LogAfter(c, m, cmds))
    ensures (forall id | id in m :: IsSigned(c, m[id])) ==>
      forall id | id in LogAfter(c, m, cmds) :: IsSigned(c, LogAfter(c, m, cmds)[id])
  {
    hide Appended, GrownFrom, IsSigned;
    if cmds == [] {
      GrownFromItself(c, m);
    } else {
      var before, last := LogAfter(c, m, cmds[..|cmds| - 1]), cmds[|cmds| - 1];
      RunsAreGuarded(c, m, cmds[..|cmds| - 1]);
      GrownFromItself(c, before);
      if last.AppendOp? { AppendIsGuarded(c, before, last.o); }
      GrownFurther(c, m, before, LogAfter(c, m, cmds));
    }
    GrownIsSigned(c, m, LogAfter(c, m, cmds));
  }

  lemma GrownFromItself(c: Crypto, m: Log)
    ensures GrownFrom(c, m, m)
  {}

  lemma {:induction false} GrownIsSigned(c: Crypto, m: Log, n: Log)
    requires GrownFrom(c, m, n)
    ensures (forall id | id in m :: IsSigned(c, m[id])) ==> forall id | id in n :: IsSigned(c, n[id])
  {}

  lemma {:induction false} AppendAddsVerified(c: Crypto, m: Log, o: SignedOp)
    requires GenuineLog(c, m)
    ensures Held(Appended(c, m, o)) == if Verify(c, o).None? then Held(m) + {o.op} else Held(m)
  {
    hide Held;
    AppendedContents(c, m, o);
  }

  /** What the reads of a run must return: each the fold of the log at that point. */
  ghost function ReadsOf(c: Crypto, m: Log, cmds: seq<Command>): seq<Projection>
    requires GenuineLog(c, m)
  {
    if cmds == [] then []
    else
      var before := cmds[..|cmds| - 1];
      RunContents(c, m, before);
      ReadsOf(c, m, before) + ReadOne(LogAfter(c, m, before), cmds[|cmds| - 1])
  }

  lemma RunStarts(c: Crypto, m: Log)
    requires GenuineLog(c, m)
    ensures LogAfter(c, m, []) == m && ReadsOf(c, m, []) == []
  {}

  lemma {:induction false} RunGrows(c: Crypto, m: Log, cmds: seq<Command>, i: nat)
    requires GenuineLog(c, m) && i < |cmds|
    ensures GenuineLog(c, LogAfter(c, m, cmds[..i]))
    ensures LogAfter(c, m, cmds[..i + 1]) == AfterOne(c, LogAfter(c, m, cmds[..i]), cmds[i])
    ensures WellKeyed(LogAfter(c, m, cmds[..i]))
    ensures ReadsOf(c, m, cmds[..i + 1]) == ReadsOf(c, m, cmds[..i]) + ReadOne(LogAfter(c, m, cmds[..i]), cmds[i])
  {
    hide GenuineLog, Appended, ReadOf, Held;
    RunContents(c, m, cmds[..i]);
    GenuineLogIsKeyed(c, LogAfter(c, m, cmds[..i]));
    assert cmds[..i + 1][..i] == cmds[..i];
  }

  lemma CommandMeans(c: Crypto, m: Log, cmd: Command)
    requires WellKeyed(m)
    ensures AfterOne(c, m, cmd) == if cmd.AppendOp? then Appended(c, m, cmd.o) else m
    ensures ReadOne(m, cmd) == if cmd.ReadNow? then [ReadOf(m)] else []
  {}

  method ExecuteOne(repo: Repository, cmd: Command) returns (out: seq<Projection>)
    requires repo.Valid() && repo.InStep() && GenuineLog(repo.crypto, repo.store.ops)
    modifies repo`cached, repo.store, repo.materializer
    ensures repo.Valid() && repo.InStep() && repo.store.ops == AfterOne(repo.crypto, old(repo.store.ops), cmd)
    ensures WellKeyed(old(repo.store.ops)) && out == ReadOne(old(repo.store.ops), cmd)
  {
    hide *;
    GenuineLogIsKeyed(repo.crypto, repo.store.ops);
    CommandMeans(repo.crypto, repo.store.ops, cmd);
    if cmd.AppendOp? {
      GenuineIsNeverDisplaced(repo.crypto, repo.store.ops, cmd.o);
      var outcome := repo.Append(cmd.o);
      out := [];
    } else {
      var p := repo.Read();
      out := [p];
    }
  }

  /** Driven by any commands, the cached repository over a genuine log returns what the plain log would. */
  method Execute(repo: Repository, cmds: seq<Command>) returns (results: seq<Projection>)
    requires repo.Valid() && repo.InStep() && GenuineLog(repo.crypto, repo.store.ops)
    modifies repo`cached, repo.store, repo.materializer
    ensures repo.Valid() && repo.InStep() && repo.store.ops == LogAfter(repo.crypto, old(repo.store.ops), cmds)
    ensures results == ReadsOf(repo.crypto, old(repo.store.ops), cmds)
  {
    results := [];
    ghost var m := repo.store.ops;
    hide *;
    assert cmds[..0] == [];
    RunStarts(repo.crypto, m);
    for i := 0 to |cmds|
      invariant repo.Valid() && repo.InStep() && GenuineLog(repo.crypto, m)
      invariant repo.store.ops == LogAfter(repo.crypto, m, cmds[..i])
      invariant results == ReadsOf(repo.crypto, m, cmds[..i])
    {
      RunGrows(repo.crypto, m, cmds, i);
      var out := ExecuteOne(repo, cmds[i]);
      results := results + out;
    }
    assert cmds[..|cmds|] == cmds;
  }

  /** Reopening on the store of a repository in step reads the same. */
  method Reopen(repo: Repository) returns (again: Repository)
    requires repo.Valid()
    ensures again.Valid() && again.InStep() && again.crypto == repo.crypto && again.store == repo.store
    ensures repo.InStep() ==> ReadOf(again.materializer.ops) == ReadOf(repo.materializer.ops)
  {
    again := new Repository(repo.crypto, repo.store);
    if repo.InStep() { ReadsAgree(repo.materializer.ops, repo.store.ops); }
  }

  // ---------- Opening a store nobody verified ----------

  const SAYS_B := Op(7, Hlc(5, 0, 1), PublicKey("aa"), UpsertProfile("id:aa", "B"))
  const CLAIMS_SAME_ID := Op(7, Hlc(5, 0, 1), PublicKey("aa"), UpsertProfile("id:aa", "A"))

  ghost function HashOfB(): Content -> OpId { c => if c == ContentOf(SAYS_B) then 7 else 8 }

  /**
   * A store holding an op under an id that is not its hash opens, but once the genuine op of that id
   * arrives it replaces the other in the store and not in the read model: what is read is no longer
   * what is stored.
   */
  lemma {:induction false} DisplacedOpIsStillRead(signs: (PublicKey, Content, Signature) -> bool, sig: Signature)
    requires signs(PublicKey("aa"), ContentOf(SAYS_B), sig)
    ensures var c := Crypto(HashOfB(), signs); var m := map[7 := SignedOp(CLAIMS_SAME_ID, sig)];
            var o := SignedOp(SAYS_B, sig);
            && WellKeyed(m) && OutcomeOf(c, m, o) == Duplicate && Displaces(c, m, o)
            && WellKeyed(Appended(c, m, o)) && ReadOf(Appended(c, m, o)) != ReadOf(m)
  {
    hide ReadOf;
    var c, m, o := Crypto(HashOfB(), signs), map[7 := SignedOp(CLAIMS_SAME_ID, sig)], SignedOp(SAYS_B, sig);
    assert Verify(c, o) == None;
    assert Appended(c, m, o) == map[7 := o];
    OneNameRead(SignedOp(CLAIMS_SAME_ID, sig));
    OneNameRead(o);
  }

  lemma {:induction false} OneNameRead(o: SignedOp)
    requires o.op == SAYS_B || o.op == CLAIMS_SAME_ID
    ensures var m := map[7 := o];
            WellKeyed(m) && "id:aa" in ReadOf(m).users && ReadOf(m).users["id:aa"].name == o.op.kind.name
  {
    hide FoldOf, Entitled, AuthorityOf;
    var m := map[7 := o];
    var ops := InIdOrder(m);
    assert Held(m) == {o.op} by { assert m[7].op in Held(m); }
    assert forall x :: x in ops <==> x in Elems(ops);
    assert UserIdFor(PublicKey("aa")) == "id:aa";
    WellKeyedIds(m);
    ProfilesFold(ops);
    var profile, key := UserContents(ops, "id:aa");
    assert o.op in ops && Counts(ops, o.op);
  }
}
