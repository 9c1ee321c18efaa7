// Reconciling two replicas: the session each side runs, and every interleaving of the two over
// reliable FIFO channels.
module Sync {
  import opened Operations
  import opened Materialization
  import opened Store

  datatype SyncMessage = Have(ids: seq<OpId>) | Ops(ops: seq<SignedOp>)

  datatype Role = Initiator | Responder

  // ---------- The session as functions ----------

  function IdsOf(m: Log): seq<OpId> { SortedIds(m.Keys) }

  /** The ops of the log among `ids` that the peer does not have. */
  function MissingFrom(m: Log, ids: seq<OpId>, theirs: seq<OpId>): seq<SignedOp> {
    if ids == [] then []
    else
      var rest := MissingFrom(m, ids[..|ids| - 1], theirs);
      var id := ids[|ids| - 1];
      if id !in theirs && id in m then rest + [m[id]] else rest
  }

  function MissingOps(m: Log, theirs: seq<OpId>): seq<SignedOp> { MissingFrom(m, IdsOf(m), theirs) }

  function IngestAll(c: Crypto, m: Log, ops: seq<SignedOp>): Log {
    if ops == [] then m else Appended(c, IngestAll(c, m, ops[..|ops| - 1]), ops[|ops| - 1])
  }

  /** The replies to a message: our ids once, and always the peer's delta. */
  function Replies(m: Log, sentHave: bool, msg: SyncMessage): seq<SyncMessage> {
    match msg
    case Have(theirs) => (if sentHave then [] else [Have(IdsOf(m))]) + [Ops(MissingOps(m, theirs))]
    case Ops(_) => []
  }

  function LogAfterMessage(c: Crypto, m: Log, msg: SyncMessage): Log {
    match msg
    case Have(_) => m
    case Ops(ops) => IngestAll(c, m, ops)
  }

  // ---------- The session over a repository ----------

  class SyncSession {
    var sentHave: bool

    constructor ()
      ensures !sentHave
    {
      sentHave := false;
    }

    /** Announces our ids. */
    method Open(repo: Repository) returns (msg: SyncMessage)
      modifies this
      ensures msg == Have(IdsOf(repo.store.ops)) && sentHave
    {
      sentHave := true;
      msg := Have(IdsOf(repo.store.ops));
    }

    /** Handles an inbound message, returning what to send back. */
    method Handle(msg: SyncMessage, repo: Repository) returns (out: seq<SyncMessage>)
      requires repo.Valid()
      modifies this, repo`cached, repo.store, repo.materializer
      ensures repo.Valid()
      ensures out == Replies(old(repo.store.ops), old(sentHave), msg)
      ensures repo.store.ops == LogAfterMessage(repo.crypto, old(repo.store.ops), msg)
      ensures sentHave == (old(sentHave) || msg.Have?)
    {
      hide Repository.Valid, IdsOf, MissingOps, IngestAll;
      out := [];
      match msg {
        case Have(theirs) =>
          if !sentHave {
            sentHave := true;
            out := out + [Have(IdsOf(repo.store.ops))];
          }
          var delta := CollectMissing(repo, theirs);
          out := out + [Ops(delta)];
        case Ops(ops) =>
          IngestEach(ops, repo);
      }
    }
  }

  method CollectMissing(repo: Repository, theirs: seq<OpId>) returns (delta: seq<SignedOp>)
    ensures delta == MissingOps(repo.store.ops, theirs)
  {
    hide IdsOf;
    delta := [];
    var ids := IdsOf(repo.store.ops);
    for i := 0 to |ids|
      invariant delta == MissingFrom(repo.store.ops, ids[..i], theirs)
    {
      assert ids[..i + 1][..i] == ids[..i];
      if ids[i] !in theirs {
        var found := repo.store.Get(ids[i]);
        if found.Some? { delta := delta + [found.value]; }
      }
    }
    assert ids[..|ids|] == ids;
  }

  method IngestEach(ops: seq<SignedOp>, repo: Repository)
    requires repo.Valid()
    modifies repo`cached, repo.store, repo.materializer
    ensures repo.Valid() && repo.store.ops == IngestAll(repo.crypto, old(repo.store.ops), ops)
  {
    for i := 0 to |ops|
      invariant repo.Valid() && repo.store.ops == IngestAll(repo.crypto, old(repo.store.ops), ops[..i])
    {
      hide Repository.Valid, Appended;
      assert ops[..i + 1][..i] == ops[..i];
      var outcome := repo.Append(ops[i]);
    }
    assert ops[..|ops|] == ops;
  }

  // ---------- The driver as a step machine ----------

  /** One side: its log, its session, the replies it still has to send, and how far it is. */
  datatype Peer = Peer(log: Log, sentHave: bool, outbox: seq<SyncMessage>, sent: nat, received: nat)

  datatype Net = Net(initiator: Peer, responder: Peer, toResponder: seq<SyncMessage>, toInitiator: seq<SyncMessage>)

  datatype Action = Send(side: Role) | Receive(side: Role)

  function Start(a: Log, b: Log): Net {
    Net(Peer(a, true, [Have(IdsOf(a))], 0, 0), Peer(b, false, [], 0, 0), [], [])
  }

  function Sent(p: Peer): Peer
    requires p.outbox != []
  {
    p.(outbox := p.outbox[1..], sent := p.sent + 1)
  }

  function Received(c: Crypto, p: Peer, msg: SyncMessage): Peer {
    Peer(LogAfterMessage(c, p.log, msg), p.sentHave || msg.Have?, Replies(p.log, p.sentHave, msg),
         p.sent, p.received + 1)
  }

  /** A side sends its replies before it receives again, and returns once it has received twice. */
  predicate Awaits(p: Peer) { p.outbox == [] && p.received < 2 }

  predicate Enabled(n: Net, action: Action) {
    match action
    case Send(Initiator) => n.initiator.outbox != []
    case Send(Responder) => n.responder.outbox != []
    case Receive(Initiator) => Awaits(n.initiator) && n.toInitiator != []
    case Receive(Responder) => Awaits(n.responder) && n.toResponder != []
  }

  ghost predicate Stuck(n: Net) { forall action :: !Enabled(n, action) }

  function Step(c: Crypto, n: Net, action: Action): Net
    requires Enabled(n, action)
  {
    match action
    case Send(Initiator) =>
      n.(initiator := Sent(n.initiator), toResponder := n.toResponder + [n.initiator.outbox[0]])
    case Send(Responder) =>
      n.(responder := Sent(n.responder), toInitiator := n.toInitiator + [n.responder.outbox[0]])
    case Receive(Initiator) =>
      n.(initiator := Received(c, n.initiator, n.toInitiator[0]), toInitiator := n.toInitiator[1..])
    case Receive(Responder) =>
      n.(responder := Received(c, n.responder, n.toResponder[0]), toResponder := n.toResponder[1..])
  }

  /** The run is made of enabled steps and leads from one state to the other. */
  ghost predicate Reaches(c: Crypto, from: Net, run: seq<Action>, to: Net)
    decreases |run|
  {
    if run == [] then from == to else Enabled(from, run[0]) && Reaches(c, Step(c, from, run[0]), run[1..], to)
  }

  // ---------- The invariant ----------

  /** All that the initiator ever sends. */
  function FromInitiator(a: Log, b: Log): (r: seq<SyncMessage>)
    ensures |r| == 2 && r[1].Ops?
  {
    [Have(IdsOf(a)), Ops(MissingOps(a, IdsOf(b)))]
  }

  /** All that the responder ever sends. */
  function FromResponder(a: Log, b: Log): (r: seq<SyncMessage>)
    ensures |r| == 2 && r[1].Ops?
  {
    [Have(IdsOf(b)), Ops(MissingOps(b, IdsOf(a)))]
  }

  /** The initiator may send one message at once, the second after hearing the responder's ids. */
  function InitiatorMay(received: nat): nat { if received == 0 then 1 else 2 }

  function ResponderMay(received: nat): nat { if received == 0 then 0 else 2 }

  /** Channels and outboxes are windows of the two fixed transcripts; logs change only with the second message. */
  ghost predicate Invariant(c: Crypto, a: Log, b: Log, n: Net) {
    var i, r := n.initiator, n.responder;
    var x, y := FromInitiator(a, b), FromResponder(a, b);
    && i.received <= 2 && r.received <= 2
    && r.received <= i.sent <= InitiatorMay(i.received)
    && i.received <= r.sent <= ResponderMay(r.received)
    && i.sentHave && (r.sentHave <==> r.received > 0)
    && n.toResponder == x[r.received..i.sent] && i.outbox == x[i.sent..InitiatorMay(i.received)]
    && n.toInitiator == y[i.received..r.sent] && r.outbox == y[r.sent..ResponderMay(r.received)]
    && i.log == (if i.received == 2 then IngestAll(c, a, y[1].ops) else a)
    && r.log == (if r.received == 2 then IngestAll(c, b, x[1].ops) else b)
  }

  /** Each step uses up one of eight sends and receives. */
  function Progress(n: Net): nat { n.initiator.sent + n.initiator.received + n.responder.sent + n.responder.received }

  lemma Windows<T>(x: seq<T>, lo: nat, hi: nat)
    requires lo <= hi <= |x|
    ensures lo < hi ==> x[lo..hi][1..] == x[lo + 1..hi] && x[lo..hi][0] == x[lo]
    ensures hi < |x| ==> x[lo..hi] + [x[hi]] == x[lo..hi + 1]
    ensures x[lo..hi] == [] <==> lo == hi
  {}

  lemma {:induction false} InitiatorSends(c: Crypto, a: Log, b: Log, n: Net)
    requires Invariant(c, a, b, n) && Enabled(n, Send(Initiator))
    ensures Invariant(c, a, b, Step(c, n, Send(Initiator)))
    ensures Progress(Step(c, n, Send(Initiator))) == Progress(n) + 1
  {
    hide IdsOf, MissingOps, IngestAll, FromInitiator, FromResponder;
    var x := FromInitiator(a, b);
    Windows(x, n.initiator.sent, InitiatorMay(n.initiator.received));
    Windows(x, n.responder.received, n.initiator.sent);
  }

  lemma {:induction false} ResponderSends(c: Crypto, a: Log, b: Log, n: Net)
    requires Invariant(c, a, b, n) && Enabled(n, Send(Responder))
    ensures Invariant(c, a, b, Step(c, n, Send(Responder)))
    ensures Progress(Step(c, n, Send(Responder))) == Progress(n) + 1
  {
    hide IdsOf, MissingOps, IngestAll, FromInitiator, FromResponder;
    var y := FromResponder(a, b);
    Windows(y, n.responder.sent, ResponderMay(n.responder.received));
    Windows(y, n.initiator.received, n.responder.sent);
  }

  lemma {:induction false} InitiatorReceives(c: Crypto, a: Log, b: Log, n: Net)
    requires Invariant(c, a, b, n) && Enabled(n, Receive(Initiator))
    ensures Invariant(c, a, b, Step(c, n, Receive(Initiator)))
    ensures Progress(Step(c, n, Receive(Initiator))) == Progress(n) + 1
  {
    hide IdsOf, MissingOps, IngestAll;
    var i, y := n.initiator, FromResponder(a, b);
    Windows(FromInitiator(a, b), i.sent, InitiatorMay(i.received));
    Windows(y, i.received, n.responder.sent);
    assert n.toInitiator[0] == y[i.received];
    if i.received == 0 { assert Replies(a, true, y[0]) == FromInitiator(a, b)[1..2]; }
  }

  lemma {:induction false} ResponderReceives(c: Crypto, a: Log, b: Log, n: Net)
    requires Invariant(c, a, b, n) && Enabled(n, Receive(Responder))
    ensures Invariant(c, a, b, Step(c, n, Receive(Responder)))
    ensures Progress(Step(c, n, Receive(Responder))) == Progress(n) + 1
  {
    hide IdsOf, MissingOps, IngestAll;
    var r, x := n.responder, FromInitiator(a, b);
    Windows(FromResponder(a, b), r.sent, ResponderMay(r.received));
    Windows(x, r.received, n.initiator.sent);
    assert n.toResponder[0] == x[r.received];
    if r.received == 0 { assert Replies(b, false, x[0]) == FromResponder(a, b)[0..2]; }
  }

  lemma {:induction false} StepKeepsInvariant(c: Crypto, a: Log, b: Log, n: Net, action: Action)
    requires Invariant(c, a, b, n) && Enabled(n, action)
    ensures Invariant(c, a, b, Step(c, n, action))
    ensures Progress(Step(c, n, action)) == Progress(n) + 1
  {
    hide Invariant, Enabled, Step, Progress;
    match action
    case Send(Initiator) => InitiatorSends(c, a, b, n);
    case Send(Responder) => ResponderSends(c, a, b, n);
    case Receive(Initiator) => InitiatorReceives(c, a, b, n);
    case Receive(Responder) => ResponderReceives(c, a, b, n);
  }

  lemma {:induction false} RunKeepsInvariant(c: Crypto, a: Log, b: Log, from: Net, run: seq<Action>, to: Net)
    requires Invariant(c, a, b, from) && Reaches(c, from, run, to)
    ensures Invariant(c, a, b, to) && Progress(to) == Progress(from) + |run|
    decreases |run|
  {
    if run != [] {
      hide Invariant, Progress, Enabled, Step;
      StepKeepsInvariant(c, a, b, from, run[0]);
      RunKeepsInvariant(c, a, b, Step(c, from, run[0]), run[1..], to);
    }
  }

  /** Every run keeps the invariant, and none is longer than eight steps. */
  lemma {:induction false} RunsKeepInvariant(c: Crypto, a: Log, b: Log, run: seq<Action>, n: Net)
    requires Reaches(c, Start(a, b), run, n)
    ensures Invariant(c, a, b, n) && Progress(n) == |run| <= 8
  {
    hide IdsOf, MissingOps, IngestAll, Reaches;
    RunKeepsInvariant(c, a, b, Start(a, b), run, n);
    ProgressIsBounded(c, a, b, n);
  }

  lemma ProgressIsBounded(c: Crypto, a: Log, b: Log, n: Net)
    ensures Invariant(c, a, b, n) ==> Progress(n) <= 8
  {}

  /** No run gets stuck before both sides have sent and received their two messages. */
  lemma {:induction false} NoDeadlock(c: Crypto, a: Log, b: Log, run: seq<Action>, n: Net)
    requires Reaches(c, Start(a, b), run, n) && |run| < 8
    ensures !Stuck(n)
  {
    hide IdsOf, MissingOps, IngestAll;
    RunsKeepInvariant(c, a, b, run, n);
    if n.initiator.outbox != [] { assert Enabled(n, Send(Initiator)); }
    else if n.responder.outbox != [] { assert Enabled(n, Send(Responder)); }
    else if n.toInitiator != [] && n.initiator.received < 2 { assert Enabled(n, Receive(Initiator)); }
    else { assert Enabled(n, Receive(Responder)); }
  }

  // ---------- Where every run ends ----------

  lemma {:induction false} MissingElems(m: Log, ids: seq<OpId>, theirs: seq<OpId>)
    ensures Elems(MissingFrom(m, ids, theirs)) == set id | id in ids && id !in theirs && id in m :: m[id]
  {
    if ids != [] {
      var n := |ids| - 1;
      MissingElems(m, ids[..n], theirs);
      assert forall id :: id in ids <==> id in ids[..n] || id == ids[n];
      var rest := MissingFrom(m, ids[..n], theirs);
      if ids[n] !in theirs && ids[n] in m { assert Elems(rest + [m[ids[n]]]) == Elems(rest) + {m[ids[n]]}; }
    }
  }

  /** The delta is exactly the ops whose ids the peer did not announce. */
  lemma {:induction false} DeltaElems(m: Log, peer: Log)
    ensures Elems(MissingOps(m, IdsOf(peer))) == set id | id in m && id !in peer :: m[id]
  {
    hide SortedIds, MissingFrom;
    MissingElems(m, IdsOf(m), IdsOf(peer));
  }

  /** Ops by increasing id, each an id of the list. */
  ghost predicate Ascend(r: seq<SignedOp>, ids: seq<OpId>) {
    && (forall o | o in r :: o.op.id in ids)
    && (forall i, j | 0 <= i < j < |r| :: r[i].op.id < r[j].op.id)
  }

  /** The delta is sent in id order. */
  lemma {:induction false} DeltaAscends(m: Log, theirs: seq<OpId>)
    requires WellKeyed(m)
    ensures Ascend(MissingOps(m, theirs), IdsOf(m))
  {
    hide SortedIds, MissingFrom;
    assert |m.Keys| == |m|;
    forall x: nat, y: nat | 0 <= x < y < |IdsOf(m)| ensures IdsOf(m)[x] < IdsOf(m)[y] { IdOrderAscends(m, x, y); }
    MissingAscends(m, IdsOf(m), theirs);
  }

  lemma {:induction false} MissingAscends(m: Log, ids: seq<OpId>, theirs: seq<OpId>)
    requires WellKeyed(m) && forall x, y | 0 <= x < y < |ids| :: ids[x] < ids[y]
    ensures Ascend(MissingFrom(m, ids, theirs), ids)
  {
    if ids != [] {
      var n := |ids| - 1;
      var rest := MissingFrom(m, ids[..n], theirs);
      MissingAscends(m, ids[..n], theirs);
      assert forall id :: id in ids <==> id in ids[..n] || id == ids[n];
      forall o | o in rest ensures o.op.id < ids[n] {
        var x :| 0 <= x < n && ids[..n][x] == o.op.id;
        assert ids[x] < ids[n];
      }
      assert forall i | 0 <= i < |rest| :: rest[i] in rest;
    }
  }

  /** A log after the verifiable ones of some new ops arrived. */
  ghost predicate Extended(c: Crypto, m: Log, ops: set<SignedOp>, r: Log) {
    && (forall id | id in m :: id in r && r[id] == m[id])
    && (forall id | id in r && id !in m :: r[id] in ops && r[id].op.id == id && Verify(c, r[id]).None?)
    && (forall o | o in ops && Verify(c, o).None? :: o.op.id in r && r[o.op.id] == o)
  }

  lemma {:induction false} ExtendedByOne(c: Crypto, m: Log, ops: set<SignedOp>, r: Log, o: SignedOp)
    requires Extended(c, m, ops, r) && o.op.id !in m
    requires forall p | p in ops && p.op.id == o.op.id :: p == o
    ensures Extended(c, m, ops + {o}, Appended(c, r, o))
  {
    hide Verify;
    var next := Appended(c, r, o);
    forall p | p in ops + {o} && Verify(c, p).None? ensures p.op.id in next && next[p.op.id] == p {
      if p != o { assert p in ops; }
    }
  }

  /** Ops under ids the log does not have, one for each id. */
  ghost predicate AreNew(m: Log, ops: seq<SignedOp>) {
    (forall o | o in ops :: o.op.id !in m) && forall o, p | o in ops && p in ops && o.op.id == p.op.id :: o == p
  }

  lemma {:induction false} NewButLast(m: Log, ops: seq<SignedOp>)
    requires ops != [] && AreNew(m, ops)
    ensures var n := |ops| - 1;
            && AreNew(m, ops[..n]) && ops[n].op.id !in m && Elems(ops) == Elems(ops[..n]) + {ops[n]}
            && forall p | p in Elems(ops[..n]) && p.op.id == ops[n].op.id :: p == ops[n]
  {
    var n := |ops| - 1;
    assert forall o :: o in ops <==> o in ops[..n] || o == ops[n];
  }

  lemma {:induction false} IngestExtends(c: Crypto, m: Log, ops: seq<SignedOp>)
    requires AreNew(m, ops)
    ensures Extended(c, m, Elems(ops), IngestAll(c, m, ops))
  {
    hide Verify, Appended, AreNew;
    if ops != [] {
      hide Extended;
      var n := |ops| - 1;
      NewButLast(m, ops);
      IngestExtends(c, m, ops[..n]);
      ExtendedByOne(c, m, Elems(ops[..n]), IngestAll(c, m, ops[..n]), ops[n]);
    }
  }

  /** What a log holds after receiving the peer's delta: its own ops, and the peer's verifiable others. */
  ghost predicate MergedWith(c: Crypto, mine: Log, theirs: Log, r: Log) {
    && (forall id :: id in r <==> id in mine || (id in theirs && Verify(c, theirs[id]).None?))
    && (forall id | id in mine :: r[id] == mine[id])
    && (forall id | id in r && id !in mine :: r[id] == theirs[id])
  }

  lemma {:induction false} IngestDelta(c: Crypto, mine: Log, theirs: Log)
    requires WellKeyed(mine) && WellKeyed(theirs)
    ensures MergedWith(c, mine, theirs, IngestAll(c, mine, MissingOps(theirs, IdsOf(mine))))
  {
    hide Verify, IngestAll, MissingOps, IdsOf;
    var delta := MissingOps(theirs, IdsOf(mine));
    DeltaElems(theirs, mine);
    forall o | o in delta ensures o.op.id in theirs && o.op.id !in mine && o == theirs[o.op.id] {
      assert o in Elems(delta);
    }
    IngestExtends(c, mine, delta);
    var r := IngestAll(c, mine, delta);
    forall id | id in theirs && id !in mine && Verify(c, theirs[id]).None? ensures id in r && r[id] == theirs[id] {
      assert theirs[id] in Elems(delta);
    }
  }

  /**
   * Every run that cannot go on has made all eight steps: each side sent and received exactly two
   * messages, the channels are empty, and each log is its own ops plus the peer's verifiable ones.
   */
  lemma {:induction false} RunsEndMerged(c: Crypto, a: Log, b: Log, run: seq<Action>, n: Net)
    requires WellKeyed(a) && WellKeyed(b)
    requires Reaches(c, Start(a, b), run, n) && Stuck(n)
    ensures |run| == 8
    ensures n.initiator.sent == n.initiator.received == n.responder.sent == n.responder.received == 2
    ensures n.toInitiator == n.toResponder == [] && !Awaits(n.initiator) && !Awaits(n.responder)
    ensures MergedWith(c, a, b, n.initiator.log) && MergedWith(c, b, a, n.responder.log)
  {
    hide IdsOf, MissingOps, IngestAll, MergedWith, WellKeyed, Enabled, Reaches;
    RunsKeepInvariant(c, a, b, run, n);
    if |run| < 8 { NoDeadlock(c, a, b, run, n); }
    IngestDelta(c, a, b);
    IngestDelta(c, b, a);
  }

  // ---------- What sync lets in ----------

  lemma {:induction false} IngestIsGuarded(c: Crypto, m: Log, ops: seq<SignedOp>)
    ensures GrownFrom(c, m, IngestAll(c, m, ops))
  {
    hide Appended, GrownFrom;
    if ops == [] {
      GrownFromItself(c, m);
    } else {
      var n := |ops| - 1;
      IngestIsGuarded(c, m, ops[..n]);
      AppendIsGuarded(c, IngestAll(c, m, ops[..n]), ops[n]);
      GrownFurther(c, m, IngestAll(c, m, ops[..n]), IngestAll(c, m, ops));
    }
  }

  /** At no point of any run does either side hold an op it was sent that is not signed, or whose id is not its hash. */
  lemma {:induction false} SyncIsGuarded(c: Crypto, a: Log, b: Log, run: seq<Action>, n: Net)
    requires Reaches(c, Start(a, b), run, n)
    ensures GrownFrom(c, a, n.initiator.log) && GrownFrom(c, b, n.responder.log)
    ensures (forall id | id in a :: IsSigned(c, a[id])) && (forall id | id in b :: IsSigned(c, b[id])) ==>
      && (forall id | id in n.initiator.log :: IsSigned(c, n.initiator.log[id]))
      && (forall id | id in n.responder.log :: IsSigned(c, n.responder.log[id]))
  {
    hide Reaches, Start, Invariant, IngestAll, GrownFrom, IsSigned, InFlight, FromInitiator, FromResponder;
    RunsKeepInvariant(c, a, b, run, n);
    InFlightIsPlanned(c, a, b, n);
    IngestIsGuarded(c, a, FromResponder(a, b)[1].ops);
    IngestIsGuarded(c, b, FromInitiator(a, b)[1].ops);
    GrownFromItself(c, a);
    GrownFromItself(c, b);
    GrownIsSigned(c, a, n.initiator.log);
    GrownIsSigned(c, b, n.responder.log);
  }

  // ---------- Convergence of the two replicas ----------

  /** Every op only one of the replicas holds verifies. */
  ghost predicate MissingVerify(c: Crypto, mine: Log, theirs: Log) {
    forall id | id in theirs && id !in mine :: Verify(c, theirs[id]).None?
  }

  lemma {:induction false} MergedHolds(c: Crypto, mine: Log, theirs: Log, r: Log)
    requires GenuineLog(c, mine) && GenuineLog(c, theirs) && MissingVerify(c, mine, theirs)
    requires MergedWith(c, mine, theirs, r)
    ensures GenuineLog(c, r) && Held(r) == Held(mine) + Held(theirs) && r.Keys == mine.Keys + theirs.Keys
  {
    hide Verify;
    forall x | x in Held(mine) + Held(theirs) ensures x in Held(r) {
      if x in Held(mine) {
        var id :| id in mine && mine[id].op == x;
        assert r[id].op == x;
      } else {
        var id :| id in theirs && theirs[id].op == x;
        assert id !in mine by { SameGenuine(c, mine, theirs, id); }
        assert r[id].op == x;
      }
    }
  }

  /** An id names one content in all genuine logs. */
  lemma {:induction false} SameGenuine(c: Crypto, m: Log, n: Log, id: OpId)
    requires GenuineLog(c, m) && GenuineLog(c, n) && id in n
    ensures id in m ==> m[id].op == n[id].op && n[id].op in Held(m)
  {
    if id in m { assert ContentOf(m[id].op) == ContentOf(n[id].op); }
  }

  /** What `mine` alone holds reaches the other log only if it verifies. */
  lemma {:induction false} SameContentsNeedVerification(c: Crypto, mine: Log, theirs: Log, r: Log, q: Log)
    requires WellKeyed(mine) && WellKeyed(theirs) && Held(r) == Held(q)
    requires MergedWith(c, mine, theirs, r) && MergedWith(c, theirs, mine, q)
    ensures MissingVerify(c, theirs, mine)
  {
    hide Verify;
    forall id | id in mine && id !in theirs ensures Verify(c, mine[id]).None? {
      assert r[id].op in Held(q);
      var k :| k in q && q[k].op == r[id].op;
      assert k == id;
    }
  }

  /** Both replicas end with the union, under ids that hash its contents. */
  lemma {:induction false} RunsEndInUnion(c: Crypto, a: Log, b: Log, run: seq<Action>, n: Net)
    requires GenuineLog(c, a) && GenuineLog(c, b) && MissingVerify(c, a, b) && MissingVerify(c, b, a)
    requires Reaches(c, Start(a, b), run, n) && Stuck(n)
    ensures GenuineLog(c, n.initiator.log) && GenuineLog(c, n.responder.log)
    ensures Held(n.initiator.log) == Held(n.responder.log) == Held(a) + Held(b)
    ensures n.initiator.log.Keys == n.responder.log.Keys == a.Keys + b.Keys
  {
    hide *;
    GenuineLogIsKeyed(c, a);
    GenuineLogIsKeyed(c, b);
    RunsEndMerged(c, a, b, run, n);
    MergedHolds(c, a, b, n.initiator.log);
    MergedHolds(c, b, a, n.responder.log);
    assert Held(b) + Held(a) == Held(a) + Held(b);
    assert b.Keys + a.Keys == a.Keys + b.Keys;
  }

  /** The replicas end with the same contents exactly when everything one of them lacked verified. */
  lemma {:induction false} ReplicasAgreeIffMissingVerify(c: Crypto, a: Log, b: Log, run: seq<Action>, n: Net)
    requires GenuineLog(c, a) && GenuineLog(c, b)
    requires Reaches(c, Start(a, b), run, n) && Stuck(n)
    ensures Held(n.initiator.log) == Held(n.responder.log) <==> MissingVerify(c, a, b) && MissingVerify(c, b, a)
  {
    hide *;
    GenuineLogIsKeyed(c, a);
    GenuineLogIsKeyed(c, b);
    RunsEndMerged(c, a, b, run, n);
    if MissingVerify(c, a, b) && MissingVerify(c, b, a) {
      RunsEndInUnion(c, a, b, run, n);
    }
    if Held(n.initiator.log) == Held(n.responder.log) {
      SameContentsNeedVerification(c, a, b, n.initiator.log, n.responder.log);
      SameContentsNeedVerification(c, b, a, n.responder.log, n.initiator.log);
    }
  }

  /** Then both hold the union and read the same. */
  lemma {:induction false} ReplicasConverge(c: Crypto, a: Log, b: Log, run: seq<Action>, n: Net)
    requires GenuineLog(c, a) && GenuineLog(c, b) && MissingVerify(c, a, b) && MissingVerify(c, b, a)
    requires Reaches(c, Start(a, b), run, n) && Stuck(n)
    ensures GenuineLog(c, n.initiator.log) && GenuineLog(c, n.responder.log)
    ensures Held(n.initiator.log) == Held(n.responder.log) == Held(a) + Held(b)
    ensures WellKeyed(n.initiator.log) && WellKeyed(n.responder.log)
    ensures ReadOf(n.initiator.log) == ReadOf(n.responder.log)
  {
    hide Reaches, Enabled, Held, ReadOf, MissingVerify, GenuineLog;
    RunsEndInUnion(c, a, b, run, n);
    GenuineLogIsKeyed(c, n.initiator.log);
    GenuineLogIsKeyed(c, n.responder.log);
    ReadsAgree(n.initiator.log, n.responder.log);
  }

  /** Then neither lacks anything the other holds: both deltas are empty. */
  lemma {:induction false} NothingIsMissing(c: Crypto, a: Log, b: Log, run: seq<Action>, n: Net)
    requires GenuineLog(c, a) && GenuineLog(c, b) && MissingVerify(c, a, b) && MissingVerify(c, b, a)
    requires Reaches(c, Start(a, b), run, n) && Stuck(n)
    ensures MissingOps(n.initiator.log, IdsOf(n.responder.log)) == []
    ensures MissingOps(n.responder.log, IdsOf(n.initiator.log)) == []
  {
    hide Reaches, Enabled, Held, MissingOps, IdsOf, MissingVerify, GenuineLog;
    RunsEndInUnion(c, a, b, run, n);
    var p, q := n.initiator.log, n.responder.log;
    DeltaElems(p, q);
    DeltaElems(q, p);
    NoElements(MissingOps(p, IdsOf(q)));
    NoElements(MissingOps(q, IdsOf(p)));
  }

  /** All messages on their way, sent or waiting to be sent. */
  function InFlight(n: Net): seq<SyncMessage> {
    n.toInitiator + n.toResponder + n.initiator.outbox + n.responder.outbox
  }

  /** A second run, at any point and in any interleaving, carries no op and leaves both logs as they are. */
  lemma {:induction false} SecondRunIsEmpty(
      c: Crypto, a: Log, b: Log, run: seq<Action>, n: Net, again: seq<Action>, m: Net)
    requires GenuineLog(c, a) && GenuineLog(c, b) && MissingVerify(c, a, b) && MissingVerify(c, b, a)
    requires Reaches(c, Start(a, b), run, n) && Stuck(n)
    requires Reaches(c, Start(n.initiator.log, n.responder.log), again, m)
    ensures forall msg | msg in InFlight(m) :: msg.Ops? ==> msg == Ops([])
    ensures m.initiator.log == n.initiator.log && m.responder.log == n.responder.log
  {
    hide Reaches, Stuck, GenuineLog, MissingVerify, Start, IdsOf, MissingOps, IngestAll, InFlight, Invariant;
    var p, q := n.initiator.log, n.responder.log;
    NothingIsMissing(c, a, b, run, n);
    RunsKeepInvariant(c, p, q, again, m);
    InFlightIsPlanned(c, p, q, m);
    NothingIngested(c, p);
    NothingIngested(c, q);
  }

  /** What is in flight belongs to the transcripts; a log is the first one or has ingested the peer's delta. */
  lemma {:induction false} InFlightIsPlanned(c: Crypto, a: Log, b: Log, n: Net)
    requires Invariant(c, a, b, n)
    ensures forall msg | msg in InFlight(n) :: msg in FromInitiator(a, b) || msg in FromResponder(a, b)
    ensures n.initiator.log == a || n.initiator.log == IngestAll(c, a, FromResponder(a, b)[1].ops)
    ensures n.responder.log == b || n.responder.log == IngestAll(c, b, FromInitiator(a, b)[1].ops)
  {
    hide IdsOf, MissingOps, IngestAll, FromInitiator, FromResponder;
    var i, r, x, y := n.initiator, n.responder, FromInitiator(a, b), FromResponder(a, b);
    SliceIn(x, r.received, i.sent);
    SliceIn(x, i.sent, InitiatorMay(i.received));
    SliceIn(y, i.received, r.sent);
    SliceIn(y, r.sent, ResponderMay(r.received));
  }

  lemma {:induction false} SliceIn<T(!new)>(x: seq<T>, lo: nat, hi: nat)
    requires lo <= hi <= |x|
    ensures forall e | e in x[lo..hi] :: e in x
  {}

  lemma NothingIngested(c: Crypto, m: Log)
    ensures IngestAll(c, m, []) == m
  {}

  lemma {:induction false} NoElements(s: seq<SignedOp>)
    ensures s != [] ==> Elems(s) != {}
  {
    if s != [] { assert s[0] in Elems(s); }
  }
}
