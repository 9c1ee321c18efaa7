// The authority pass itself: the loops over the log that compute devices, aliases, friendships,
// founders, membership timelines and bindings, each proved equal to its declarative meaning. Ops
// may be repeated in the log; a repeated membership change may repeat an event in a timeline, which
// no reader can see.
module AuthorityPass {
  import opened Operations
  import opened Aliases
  import opened Registers
  import opened Authorization
  import opened Membership

  lemma {:induction false} ElemsPrefix<T>(ops: seq<T>, i: nat)
    requires i < |ops|
    ensures Elems(ops[..i + 1]) == Elems(ops[..i]) + {ops[i]}
    ensures Elems(ops[..|ops|]) == Elems(ops)
    ensures Elems(ops[..i]) <= Elems(ops) && Elems(ops[..i + 1]) <= Elems(ops)
  {
    assert ops[..|ops|] == ops;
    assert ops[..i + 1] == ops[..i] + [ops[i]];
  }

  lemma AllOps<T>(ops: seq<T>)
    ensures ops[..|ops|] == ops && Elems(ops[..0]) == {}
  {}

  // ---------- Devices ----------

  lemma {:induction false} GrantsStep(s: set<Op>, op: Op, d: PublicKey)
    ensures Grants(s + {op}, d)
         == if IsGrant(op) && op.kind.device == d then Grants(s, d) + {CertOf(op)} else Grants(s, d)
    ensures d in Certified(s + {op}) <==> d in Certified(s) || (IsGrant(op) && op.kind.device == d)
    ensures d in Certified(s) <==> Grants(s, d) != {}
  {
    GrantExists(s, d);
    GrantExists(s + {op}, d);
  }

  lemma {:induction false} RevocationsStep(s: set<Op>, op: Op, d: PublicKey)
    ensures Revocations(s + {op}, d)
         == if IsRevocation(op) && op.kind.device == d then Revocations(s, d) + {op.hlc} else Revocations(s, d)
    ensures d in RevokedDevices(s + {op}) <==> d in RevokedDevices(s) || (IsRevocation(op) && op.kind.device == d)
    ensures d in RevokedDevices(s) <==> Revocations(s, d) != {}
  {
    RevocationExists(s, d);
    RevocationExists(s + {op}, d);
  }

  lemma {:induction false} GreatestInsert(certs: set<Cert>, cand: Cert)
    ensures GreatestCert(certs + {cand})
         == if certs != {} && CertLe(cand, GreatestCert(certs)) then GreatestCert(certs) else cand
  {
    hide CertLe, GreatestCert;
    CertsTotal(certs + {cand});
    var best := GreatestCert(certs + {cand});
    assert CertLe(cand, best);
    if certs != {} {
      var was := GreatestCert(certs);
      assert CertLe(was, best);
    }
  }

  lemma {:induction false} EarliestInsert(hlcs: set<Hlc>, h: Hlc)
    ensures EarliestHlc(hlcs + {h}) == if hlcs != {} && HlcLe(EarliestHlc(hlcs), h) then EarliestHlc(hlcs) else h
  {
    hide EarliestHlc;
    var best := EarliestHlc(hlcs + {h});
    assert HlcLe(best, h);
    if hlcs != {} { assert HlcLe(best, EarliestHlc(hlcs)); }
  }

  lemma {:induction false} GreatestGrant(s: set<Op>, op: Op)
    requires IsGrant(op)
    ensures var before, after := DevicesOf(s).authorized, DevicesOf(s + {op}).authorized;
            var d, cand := op.kind.device, CertOf(op);
            after == if d in before && CertLe(cand, before[d]) then before else before[d := cand]
  {
    hide CertLe, GreatestCert, Grants, Certified;
    forall d { GrantsStep(s, op, d); }
    GreatestInsert(Grants(s, op.kind.device), CertOf(op));
  }

  lemma {:induction false} EarliestRevocation(s: set<Op>, op: Op)
    requires IsRevocation(op)
    ensures var before, after := DevicesOf(s).revoked, DevicesOf(s + {op}).revoked;
            var d := op.kind.device;
            after == if d in before && HlcLe(before[d], op.hlc) then before else before[d := op.hlc]
  {
    hide HlcLe, EarliestHlc, Revocations, RevokedDevices;
    forall d { RevocationsStep(s, op, d); }
    EarliestInsert(Revocations(s, op.kind.device), op.hlc);
  }

  /** Authorize and revoke ops, honoured only when signed by the identity; last certificate and first revocation win. */
  method CollectDevices(ops: seq<Op>) returns (d: Devices)
    ensures d == DevicesOf(Elems(ops))
  {
    d := Devices(map[], map[]);
    assert DevicesOf({}) == d;
    AllOps(ops);
    for i := 0 to |ops|
      invariant d == DevicesOf(Elems(ops[..i]))
    {
      hide DevicesOf, CertLe;
      ghost var s := Elems(ops[..i]);
      ElemsPrefix(ops, i);
      var op := ops[i];
      match op.kind {
        case AuthorizeDevice(identity, device, site) =>
          if op.author == identity {
            var cand := Cert(op.hlc, identity, site);
            if !(device in d.authorized && CertLe(cand, d.authorized[device])) {
              d := d.(authorized := d.authorized[device := cand]);
            }
            GreatestGrant(s, op);
          }
          DevicesUnchanged(s, op);
        case RevokeDevice(identity, device) =>
          if op.author == identity {
            if device !in d.revoked || HlcLt(op.hlc, d.revoked[device]) {
              d := d.(revoked := d.revoked[device := op.hlc]);
            }
            EarliestRevocation(s, op);
          }
          DevicesUnchanged(s, op);
        case _ =>
          DevicesUnchanged(s, op);
      }
    }
  }

  lemma {:induction false} DevicesUnchanged(s: set<Op>, op: Op)
    ensures !IsGrant(op) ==> DevicesOf(s + {op}).authorized == DevicesOf(s).authorized
    ensures !IsRevocation(op) ==> DevicesOf(s + {op}).revoked == DevicesOf(s).revoked
  {
    hide GreatestCert, EarliestHlc, Grants, Certified, IsGrant, Revocations, RevokedDevices, IsRevocation;
    forall d
      ensures !IsGrant(op) ==> Grants(s + {op}, d) == Grants(s, d) && (d in Certified(s + {op}) <==> d in Certified(s))
    {
      GrantsStep(s, op, d);
    }
    forall d
      ensures !IsRevocation(op) ==>
        Revocations(s + {op}, d) == Revocations(s, d) && (d in RevokedDevices(s + {op}) <==> d in RevokedDevices(s))
    {
      RevocationsStep(s, op, d);
    }
  }

  // ---------- Alias edges ----------

  lemma {:induction false} EdgesStep(s: set<Op>, d: Devices, op: Op)
    ensures AliasEdges(s + {op}, d) == if IsEdge(d, op) then AliasEdges(s, d) + {EdgeOf(op)} else AliasEdges(s, d)
  {
    hide RevokedAt, AliasAuthorized, RawActor;
  }

  method CollectEdges(ops: seq<Op>, d: Devices) returns (edges: seq<Edge>)
    ensures Elems(edges) == AliasEdges(Elems(ops), d)
  {
    edges := [];
    AllOps(ops);
    for i := 0 to |ops|
      invariant Elems(edges) == AliasEdges(Elems(ops[..i]), d)
    {
      hide RevokedAt, AliasAuthorized, RawActor, AliasEdges;
      ElemsPrefix(ops, i);
      var op := ops[i];
      EdgesStep(Elems(ops[..i]), d, op);
      if op.kind.AddAlias? && !RevokedAt(d, op) {
        if AliasAuthorized(RawActor(d, op), op.kind.alias, op.kind.canonical) {
          ElemsPrefix(edges + [EdgeOf(op)], |edges|);
          assert (edges + [EdgeOf(op)])[..|edges|] == edges;
          edges := edges + [(op.kind.alias, op.kind.canonical)];
        }
      }
    }
  }

  // ---------- Friendships ----------

  lemma {:induction false} GroupedInsert(pairs: set<(UserId, UserId)>, a: UserId, b: UserId)
    ensures Grouped(pairs + {(a, b)})
         == Grouped(pairs)[a := (if a in Grouped(pairs) then Grouped(pairs)[a] else {}) + {b}]
  {
    hide Seconds, Firsts;
    forall x { SecondsInsert(pairs, a, b, x); }
  }

  lemma {:induction false} SecondsInsert(pairs: set<(UserId, UserId)>, a: UserId, b: UserId, x: UserId)
    ensures Seconds(pairs + {(a, b)}, x) == if x == a then Seconds(pairs, x) + {b} else Seconds(pairs, x)
    ensures x in Firsts(pairs + {(a, b)}) <==> x in Firsts(pairs) || x == a
    ensures x !in Firsts(pairs) ==> Seconds(pairs, x) == {}
  {
    assert forall p | p in pairs :: p.0 in Firsts(pairs);
    assert Firsts(pairs + {(a, b)}) == Firsts(pairs) + {a};
    var more := pairs + {(a, b)};
    forall y ensures y in Seconds(more, x) <==> y in Seconds(pairs, x) || (x == a && y == b) {
      if x == a && y == b { assert (a, b) in more; }
    }
  }

  lemma {:induction false} DeclarationsStep(s: set<Op>, d: Devices, aliases: map<UserId, UserId>, op: Op)
    ensures Declarations(s + {op}, d, aliases)
         == if op.kind.DeclareFriend? && !RevokedAt(d, op) && Actor(d, aliases, op) != Resolve(aliases, op.kind.other)
            then Declarations(s, d, aliases) + {(Actor(d, aliases, op), Resolve(aliases, op.kind.other))}
            else Declarations(s, d, aliases)
  {
    hide RevokedAt, Actor, Resolve;
  }

  method CollectFriends(ops: seq<Op>, d: Devices, aliases: map<UserId, UserId>)
    returns (decls: map<UserId, set<UserId>>)
    ensures decls == Grouped(Declarations(Elems(ops), d, aliases))
  {
    decls := map[];
    AllOps(ops);
    for i := 0 to |ops|
      invariant decls == Grouped(Declarations(Elems(ops[..i]), d, aliases))
    {
      hide RevokedAt, Actor, Resolve, Grouped, Declarations;
      ghost var s := Elems(ops[..i]);
      ElemsPrefix(ops, i);
      var op := ops[i];
      DeclarationsStep(s, d, aliases, op);
      if op.kind.DeclareFriend? && !RevokedAt(d, op) {
        var (actor, other) := (Actor(d, aliases, op), Resolve(aliases, op.kind.other));
        if actor != other {
          GroupedInsert(Declarations(s, d, aliases), actor, other);
          decls := decls[actor := (if actor in decls then decls[actor] else {}) + {other}];
        }
      }
    }
  }

  // ---------- Founders ----------

  ghost function FounderPicks(s: set<Op>, d: Devices, aliases: map<UserId, UserId>): map<GroupId, (Order, UserId)>
    requires IdsUnique(s)
  {
    map g | g in CreatedGroups(s, d) :: (OrderOf(FoundingOp(s, d, g)), Actor(d, aliases, FoundingOp(s, d, g)))
  }

  /** How one more create moves the pick: an earlier or first one takes over. */
  lemma {:induction false} FoundingStep(s: set<Op>, d: Devices, op: Op)
    requires IdsUnique(s + {op}) && op.kind.CreateGroup? && !RevokedAt(d, op)
    ensures var g := op.kind.group; var t := s + {op};
            && CreatedGroups(t, d) == CreatedGroups(s, d) + {g}
            && (forall h | h in CreatedGroups(s, d) && h != g :: FoundingOp(t, d, h) == FoundingOp(s, d, h))
            && FoundingOp(t, d, g)
               == if g in CreatedGroups(s, d) && OpLe(FoundingOp(s, d, g), op) then FoundingOp(s, d, g) else op
  {
    hide RevokedAt, OrderLe;
    var g, t := op.kind.group, s + {op};
    assert CreatesGroup(d, op, g);
    assert CreatedGroups(t, d) == CreatedGroups(s, d) + {g};
    forall h | h in CreatedGroups(s, d) && h != g ensures FoundingOp(t, d, h) == FoundingOp(s, d, h) {
      assert GroupCreates(t, d, h) == GroupCreates(s, d, h);
    }
    var creates := GroupCreates(t, d, g);
    assert op in creates;
    var first := FoundingOp(t, d, g);
    if g in CreatedGroups(s, d) {
      var was := FoundingOp(s, d, g);
      assert was in creates;
      OrderFacts(first, was, OrderOf(was));
      OrderFacts(first, op, OrderOf(op));
      assert SameId(first, op) ==> first == op;
      assert SameId(first, was) ==> first == was;
      if first != op {
        assert first in GroupCreates(s, d, g);
      } else {
        OrderFacts(op, was, OrderOf(was));
        OrderFacts(was, op, OrderOf(op));
      }
    } else {
      SomeCreate(s, d, g);
      assert creates == {op};
    }
  }

  lemma {:induction false} SomeCreate(s: set<Op>, d: Devices, g: GroupId)
    ensures GroupCreates(s, d, g) != {} ==> g in CreatedGroups(s, d)
  {
    hide RevokedAt;
    if o :| o in GroupCreates(s, d, g) { assert CreatesGroup(d, o, o.kind.group); }
  }

  lemma {:induction false} FoundingSkip(s: set<Op>, d: Devices, op: Op)
    requires IdsUnique(s + {op}) && !(op.kind.CreateGroup? && !RevokedAt(d, op))
    ensures CreatedGroups(s + {op}, d) == CreatedGroups(s, d)
    ensures forall h | h in CreatedGroups(s, d) :: FoundingOp(s + {op}, d, h) == FoundingOp(s, d, h)
  {
    hide RevokedAt, FirstOp;
    forall h ensures GroupCreates(s + {op}, d, h) == GroupCreates(s, d, h) {}
  }

  lemma {:induction false} PickStep(s: set<Op>, d: Devices, aliases: map<UserId, UserId>, op: Op)
    requires IdsUnique(s + {op})
    ensures var before, after := FounderPicks(s, d, aliases), FounderPicks(s + {op}, d, aliases);
            after ==
              if op.kind.CreateGroup? && !RevokedAt(d, op)
                 && !(op.kind.group in before && OrderLe(before[op.kind.group].0, OrderOf(op)))
              then before[op.kind.group := (OrderOf(op), Actor(d, aliases, op))]
              else before
  {
    hide RevokedAt, Actor, FoundingOp, CreatedGroups, OrderLe;
    if op.kind.CreateGroup? && !RevokedAt(d, op) {
      FoundingStep(s, d, op);
    } else {
      FoundingSkip(s, d, op);
    }
  }

  method PickFounders(ops: seq<Op>, d: Devices, aliases: map<UserId, UserId>)
    returns (pick: map<GroupId, (Order, UserId)>)
    requires IdsUnique(Elems(ops))
    ensures pick == FounderPicks(Elems(ops), d, aliases)
  {
    pick := map[];
    AllOps(ops);
    for i := 0 to |ops|
      invariant IdsUnique(Elems(ops[..i])) && pick == FounderPicks(Elems(ops[..i]), d, aliases)
    {
      hide RevokedAt, Actor, FounderPicks, OrderLe;
      ElemsPrefix(ops, i);
      var op := ops[i];
      ghost var s := Elems(ops[..i]);
      PickStep(s, d, aliases, op);
      if op.kind.CreateGroup? && !RevokedAt(d, op) {
        var group := op.kind.group;
        var key, actor := OrderOf(op), Actor(d, aliases, op);
        if !(group in pick && OrderLe(pick[group].0, key)) {
          pick := pick[group := (key, actor)];
        }
      }
    }
  }

  // ---------- Membership ----------

  function Push(t: Timelines, g: GroupId, u: UserId, e: Event): Timelines {
    var users := if g in t then t[g] else map[];
    t[g := users[u := (if u in users then users[u] else []) + [e]]]
  }

  lemma PushEvents(t: Timelines, g: GroupId, u: UserId, e: Event)
    ensures forall h, v :: Events(Push(t, g, u, e), h, v)
                        == if h == g && v == u then Events(t, g, u) + [e] else Events(t, h, v)
  {}

  /** The founders, each a member from the start of time. */
  method SeedFounders(pick: map<GroupId, (Order, UserId)>) returns (t: Timelines, founders: map<GroupId, UserId>)
    ensures founders == map g | g in pick :: pick[g].1
    ensures forall g, u :: Events(t, g, u) == if g in founders && founders[g] == u then [Event(MIN_ORDER, true)] else []
  {
    t, founders := map[], map[];
    var todo := pick.Keys;
    while todo != {}
      invariant todo <= pick.Keys
      invariant founders == map g | g in pick.Keys - todo :: pick[g].1
      invariant forall g, u ::
        Events(t, g, u) == if g in founders && founders[g] == u then [Event(MIN_ORDER, true)] else []
    {
      hide Push;
      var g :| g in todo;
      var founder := pick[g].1;
      PushEvents(t, g, founder, Event(MIN_ORDER, true));
      t := Push(t, g, founder, Event(MIN_ORDER, true));
      founders := founders[g := founder];
      todo := todo - {g};
    }
  }

  ghost predicate SortedOps(ops: seq<Op>) { forall i, j | 0 <= i < j < |ops| :: OpLe(ops[i], ops[j]) }

  /** The membership ops of the log in order, as a stable sort leaves them; repetitions stay. */
  method SortChanges(ops: seq<Op>) returns (sorted: seq<Op>)
    ensures Elems(sorted) == MembershipOf(Elems(ops)) && SortedOps(sorted)
  {
    sorted := [];
    AllOps(ops);
    for i := 0 to |ops|
      invariant Elems(sorted) == MembershipOf(Elems(ops[..i])) && SortedOps(sorted)
    {
      ElemsPrefix(ops, i);
      var op := ops[i];
      if op.kind.SetMembership? {
        var k := |sorted|;
        while k > 0 && !OpLe(sorted[k - 1], op)
          invariant 0 <= k <= |sorted|
          invariant forall j | k <= j < |sorted| :: OpLe(op, sorted[j])
        {
          k := k - 1;
        }
        InsertKeepsSorted(sorted, k, op);
        sorted := sorted[..k] + [op] + sorted[k..];
      }
    }
  }

  lemma {:induction false} InsertKeepsSorted(ops: seq<Op>, k: nat, op: Op)
    requires SortedOps(ops) && k <= |ops|
    requires forall j | k <= j < |ops| :: OpLe(op, ops[j])
    requires k > 0 ==> OpLe(ops[k - 1], op)
    ensures SortedOps(ops[..k] + [op] + ops[k..])
    ensures Elems(ops[..k] + [op] + ops[k..]) == Elems(ops) + {op}
  {
    hide OpLe;
    var r := ops[..k] + [op] + ops[k..];
    forall j | 0 <= j < k ensures OpLe(ops[j], op) { OrderFactsLe(ops[j], ops[k - 1], op); }
    forall i, j | 0 <= i < j < |r| ensures OpLe(r[i], r[j]) {
      var x := if i < k then ops[i] else if i == k then op else ops[i - 1];
      var y := if j < k then ops[j] else if j == k then op else ops[j - 1];
      assert r[i] == x && r[j] == y;
    }
    assert ops == ops[..k] + ops[k..];
    InsertElems(ops[..k], op, ops[k..]);
  }

  lemma InsertElems(a: seq<Op>, op: Op, b: seq<Op>)
    ensures Elems(a + [op] + b) == Elems(a + b) + {op}
  {}

  lemma OrderFactsLe(a: Op, b: Op, c: Op)
    ensures (a == b || OpLe(a, b)) && OpLe(b, c) ==> OpLe(a, c)
  {}

  /** Recording a change that is not earlier than the accepted ones; recording it again is invisible. */
  lemma {:induction false} PushRepresents(t: Timelines, c: Context, a: set<Op>, o: Op)
    requires MembershipOps(a + {o}) && Represents(t, c, a)
    requires forall x | x in a :: OpLe(x, o)
    ensures Represents(Push(t, o.kind.group, Resolve(c.aliases, o.kind.user), EventOf(o)), c, a + {o})
  {
    hide Push, IsTimeline, ChangesOf, Resolve, Events;
    var g, u := o.kind.group, Resolve(c.aliases, o.kind.user);
    var t2 := Push(t, g, u, EventOf(o));
    PushEvents(t, g, u, EventOf(o));
    forall h, v ensures IsTimeline(c, ChangesOf(c, a + {o}, h, v), h, v, Events(t2, h, v)) {
      ChangesInsert(c, a, o, h, v);
      assert IsTimeline(c, ChangesOf(c, a, h, v), h, v, Events(t, h, v));
      if h == g && v == u {
        TimelineSnoc(c, ChangesOf(c, a, h, v), h, v, Events(t, h, v), o);
      }
    }
  }

  lemma ChangesInsert(c: Context, a: set<Op>, o: Op, g: GroupId, u: UserId)
    requires o.kind.SetMembership?
    ensures ChangesOf(c, a + {o}, g, u)
         == if Changes(c, o, g, u) then ChangesOf(c, a, g, u) + {o} else ChangesOf(c, a, g, u)
  {}

  lemma {:induction false} TimelineSnoc(c: Context, changes: set<Op>, g: GroupId, u: UserId, es: seq<Event>, o: Op)
    requires forall x | x in changes :: x.kind.SetMembership? && OpLe(x, o)
    requires o.kind.SetMembership? && IsTimeline(c, changes, g, u, es)
    ensures IsTimeline(c, changes + {o}, g, u, es + [EventOf(o)])
  {
    hide Seed, OrderLe;
    var k := |Seed(c, g, u)|;
    var rest, rest2 := es[k..], (es + [EventOf(o)])[k..];
    assert rest2 == rest + [EventOf(o)];
    assert (es + [EventOf(o)])[..k] == es[..k];
    forall i | 0 <= i < |rest| ensures OrderLe(rest[i].at, EventOf(o).at) {
      assert rest[i] in Elems(rest);
      var x :| x in changes && EventOf(x) == rest[i];
    }
    assert Elems(rest2) == Elems(rest) + {EventOf(o)};
  }

  /** One replayed op: what the timelines say of its author decides whether it is recorded. */
  lemma {:induction false} ReplayStep(t: Timelines, c: Context, replayed: set<Op>, o: Op)
    requires MembershipOps(replayed + {o}) && Represents(t, c, Accepted(c, replayed))
    requires forall x | x in replayed :: OpLe(x, o)
    ensures var recorded := !RevokedAt(c.devices, o)
                         && IsMemberAsOf(t, o.kind.group, Actor(c.devices, c.aliases, o), OrderOf(o));
            var t2 := if recorded then Push(t, o.kind.group, Resolve(c.aliases, o.kind.user), EventOf(o)) else t;
            Represents(t2, c, Accepted(c, replayed + {o}))
  {
    hide Represents, Push, MemberAsOf, IsMemberAsOf, RevokedAt, Actor, Accepted, OrderLe;
    var a := Accepted(c, replayed);
    VerdictOfTimelines(t, c, a, o.kind.group, Actor(c.devices, c.aliases, o), OrderOf(o));
    if o !in replayed {
      AcceptedStep(c, replayed, o);
      assert a - {o} == a;
    } else {
      assert replayed + {o} == replayed;
      AcceptedIsSettled(c, replayed);
      if o !in a { assert a - {o} == a; } else { assert a + {o} == a; }
    }
    var recorded := !RevokedAt(c.devices, o)
                 && IsMemberAsOf(t, o.kind.group, Actor(c.devices, c.aliases, o), OrderOf(o));
    if recorded { PushRepresents(t, c, a, o); }
  }

  method ReplayMembership(sorted: seq<Op>, c: Context, seeded: Timelines) returns (t: Timelines)
    requires MembershipOps(Elems(sorted)) && SortedOps(sorted)
    requires Represents(seeded, c, {})
    ensures Represents(t, c, Accepted(c, Elems(sorted)))
  {
    t := seeded;
    AllOps(sorted);
    for i := 0 to |sorted|
      invariant MembershipOps(Elems(sorted[..i])) && Represents(t, c, Accepted(c, Elems(sorted[..i])))
    {
      hide Represents, Push, IsMemberAsOf, RevokedAt, Actor, Accepted, OrderLe;
      ElemsPrefix(sorted, i);
      var op := sorted[i];
      assert op in Elems(sorted);
      ReplayStep(t, c, Elems(sorted[..i]), op);
      if !RevokedAt(c.devices, op) {
        var actor, at := Actor(c.devices, c.aliases, op), OrderOf(op);
        if IsMemberAsOf(t, op.kind.group, actor, at) {
          t := Push(t, op.kind.group, Resolve(c.aliases, op.kind.user), Event(at, op.kind.member));
        }
      }
    }
  }

  // ---------- The view a reader has ----------

  /** Equal but for repeated timeline events: every question gets the same answer. */
  ghost predicate SameView(a: Standing, b: Standing) {
    && a.devices == b.devices && a.aliases == b.aliases && a.founders == b.founders && a.friendDecls == b.friendDecls
    && (forall g, u, at :: IsMemberAsOf(a.membership, g, u, at) == IsMemberAsOf(b.membership, g, u, at))
    && (forall g :: CurrentMembers(a.membership, g) == CurrentMembers(b.membership, g))
  }

  lemma {:induction false} RepresentedAlike(s: set<Op>, t: Timelines)
    requires IdsUnique(s) && Represents(t, ContextOf(s), AcceptedOf(s))
    ensures forall g, u, at :: IsMemberAsOf(t, g, u, at) == IsMemberAsOf(StandingOf(s).membership, g, u, at)
    ensures forall g :: CurrentMembers(t, g) == CurrentMembers(StandingOf(s).membership, g)
  {
    hide Represents, IsMemberAsOf, CurrentMembers, MemberAsOf, MemberAfter, ContextOf, StandingOf;
    StandingMembers(s);
    forall g, u, at { VerdictOfTimelines(t, ContextOf(s), AcceptedOf(s), g, u, at); }
    forall g, u { CurrentOfTimelines(t, ContextOf(s), AcceptedOf(s), g, u); }
  }

  method BuildStanding(ops: seq<Op>) returns (st: Standing)
    requires IdsUnique(Elems(ops))
    ensures SameView(st, StandingOf(Elems(ops)))
  {
    hide SameView, DevicesOf, AliasMap, AliasEdges, Grouped, Declarations, CreatedGroups, FoundingOp, Actor;
    hide OrderLe, Accepted;
    var d := CollectDevices(ops);
    var edges := CollectEdges(ops, d);
    var aliases := ResolveAliases(edges);
    var decls := CollectFriends(ops, d, aliases);
    var pick := PickFounders(ops, d, aliases);
    var t, founders := SeedFounders(pick);
    var c := Context(d, aliases, founders);
    assert c == ContextOf(Elems(ops));
    SeedRepresents(t, c);
    var sorted := SortChanges(ops);
    t := ReplayMembership(sorted, c, t);
    st := Standing(d, aliases, founders, t, decls);
    StandingAlike(Elems(ops), st);
  }

  lemma {:induction false} SeedRepresents(t: Timelines, c: Context)
    requires forall g, u ::
      Events(t, g, u) == if g in c.founders && c.founders[g] == u then [Event(MIN_ORDER, true)] else []
    ensures Represents(t, c, {})
  {
    forall g, u ensures IsTimeline(c, ChangesOf(c, {}, g, u), g, u, Events(t, g, u)) {
      assert Events(t, g, u) == Seed(c, g, u);
      assert ChangesOf(c, {}, g, u) == {};
      assert Elems(Events(t, g, u)[|Seed(c, g, u)|..]) == {};
    }
  }

  lemma {:induction false} StandingAlike(s: set<Op>, st: Standing)
    requires IdsUnique(s)
    requires var c := ContextOf(s);
             && st.devices == c.devices && st.aliases == c.aliases && st.founders == c.founders
             && st.friendDecls == Grouped(Declarations(s, c.devices, c.aliases))
             && Represents(st.membership, c, AcceptedOf(s))
    ensures SameView(st, StandingOf(s))
  {
    hide ContextOf, Represents, IsMemberAsOf, CurrentMembers;
    RepresentedAlike(s, st.membership);
  }

  // ---------- Bindings ----------

  /** The registers of the group and parties each entity is bound to, as the three maps the pass keeps. */
  ghost predicate Tracks(r: map<string, Stamped<Binding>>, at: map<string, Hlc>,
                         homes: map<string, Option<GroupId>>, parties: map<string, set<UserId>>)
  {
    && at == (map k | k in r :: r[k].hlc) && homes == HomesOf(r) && parties == PartySetsOf(r)
  }

  lemma TracksWrite(r: map<string, Stamped<Binding>>, at: map<string, Hlc>, homes: map<string, Option<GroupId>>,
                    parties: map<string, set<UserId>>, k: string, hlc: Hlc, b: Binding)
    requires Tracks(r, at, homes, parties)
    ensures if k !in at || HlcLt(at[k], hlc)
            then Tracks(Lww(r, k, Stamped(hlc, b)), at[k := hlc], homes[k := b.home], parties[k := b.parties])
            else Tracks(Lww(r, k, Stamped(hlc, b)), at, homes, parties)
  {}

  /** Whether the op may create its entity, as the pass asks it. */
  method CheckCreate(st: Standing, op: Op, parties: set<UserId>) returns (ok: bool)
    requires op.kind.CreateExpense? || op.kind.RecordSettlement?
    ensures ok == MayTouch(st, ActorOf(st, op), OrderOf(op), op.kind.home, parties)
  {
    match op.kind.home {
      case Some(g) => ok := IsMemberAsOf(st.membership, g, ActorOf(st, op), OrderOf(op));
      case None => ok := FriendOpOk(st, ActorOf(st, op), parties);
    }
  }

  method BindEntities(st: Standing, ops: seq<Op>) returns (a: Authority)
    ensures a == BoundBy(st, ops)
  {
    var expenseAt: map<ExpenseId, Hlc>, settlementAt: map<SettlementId, Hlc> := map[], map[];
    a := Authority(st, map[], map[], map[], map[]);
    AllOps(ops);
    for i := 0 to |ops|
      invariant a.standing == st
      invariant Tracks(Register(ops[..i], ExpenseBinder(st)), expenseAt, a.expenseGroup, a.expenseParties)
      invariant Tracks(Register(ops[..i], SettlementBinder(st)), settlementAt, a.settlementGroup, a.settlementParties)
    {
      hide Tracks, MayTouch, RevokedAt, PartiesOf, SettlementParties, ActorOf, Lww, Register, HlcLt;
      var op := ops[i];
      ghost var e, s := Register(ops[..i], ExpenseBinder(st)), Register(ops[..i], SettlementBinder(st));
      assert ops[..i + 1] == ops[..i] + [op];
      RegisterSnoc(ops[..i], op, ExpenseBinder(st));
      RegisterSnoc(ops[..i], op, SettlementBinder(st));
      if !RevokedAt(st.devices, op) {
        match op.kind {
          case CreateExpense(expense, home, fields, _) =>
            var parties := PartiesOf(st, fields);
            var ok := CheckCreate(st, op, parties);
            TracksWrite(e, expenseAt, a.expenseGroup, a.expenseParties, expense, op.hlc, Binding(home, parties));
            if ok && (expense !in expenseAt || HlcLt(expenseAt[expense], op.hlc)) {
              expenseAt := expenseAt[expense := op.hlc];
              a := a.(expenseGroup := a.expenseGroup[expense := home],
                      expenseParties := a.expenseParties[expense := parties]);
            }
          case RecordSettlement(settlement, home, from, to, _) =>
            var parties := SettlementParties(st, from, to);
            var ok := CheckCreate(st, op, parties);
            TracksWrite(s, settlementAt, a.settlementGroup, a.settlementParties, settlement, op.hlc,
                        Binding(home, parties));
            if ok && (settlement !in settlementAt || HlcLt(settlementAt[settlement], op.hlc)) {
              settlementAt := settlementAt[settlement := op.hlc];
              a := a.(settlementGroup := a.settlementGroup[settlement := home],
                      settlementParties := a.settlementParties[settlement := parties]);
            }
          case _ =>
        }
      }
    }
  }

  /** Two authorities no reader can tell apart. */
  ghost predicate SameAuthority(a: Authority, b: Authority) {
    && SameView(a.standing, b.standing)
    && a.expenseGroup == b.expenseGroup && a.expenseParties == b.expenseParties
    && a.settlementGroup == b.settlementGroup && a.settlementParties == b.settlementParties
  }

  /** Verdicts ask only what a reader can see. */
  lemma {:induction false} VerdictsAlike(a: Authority, b: Authority, op: Op)
    requires SameAuthority(a, b)
    ensures Entitled(a, op) == Entitled(b, op)
  {
    hide IsMemberAsOf, CurrentMembers, RevokedAt, Actor, OrderOf, AliasAuthorized, RawActor;
    assert forall x, y :: IsFriend(a.standing, x, y) == IsFriend(b.standing, x, y);
  }

  lemma {:induction false} FriendsAlike(a: Standing, b: Standing)
    requires SameView(a, b)
    ensures ConfirmedFriends(a) == ConfirmedFriends(b)
  {
    hide IsMemberAsOf, CurrentMembers;
    assert forall x, y :: IsFriend(a, x, y) == IsFriend(b, x, y);
    hide IsFriend;
    forall x | x in a.friendDecls
      ensures (set y | y in a.friendDecls[x] && IsFriend(a, x, y))
          == (set y | y in b.friendDecls[x] && IsFriend(b, x, y))
    {}
    assert ConfirmedFriends(a).Keys == ConfirmedFriends(b).Keys;
  }

  lemma {:induction false} BindersAlike(a: Standing, b: Standing, ops: seq<Op>)
    requires SameView(a, b)
    ensures Register(ops, ExpenseBinder(a)) == Register(ops, ExpenseBinder(b))
    ensures Register(ops, SettlementBinder(a)) == Register(ops, SettlementBinder(b))
  {
    forall o ensures BindExpense(a, o) == BindExpense(b, o) && BindSettlement(a, o) == BindSettlement(b, o) {
      BindingAlike(a, b, o);
    }
    RegisterCongruent(ops, ExpenseBinder(a), ExpenseBinder(b));
    RegisterCongruent(ops, SettlementBinder(a), SettlementBinder(b));
  }

  lemma {:induction false} BindingAlike(a: Standing, b: Standing, o: Op)
    requires SameView(a, b)
    ensures BindExpense(a, o) == BindExpense(b, o) && BindSettlement(a, o) == BindSettlement(b, o)
  {
    hide IsMemberAsOf, CurrentMembers, RevokedAt, Actor, OrderOf;
    assert forall x, y :: IsFriend(a, x, y) == IsFriend(b, x, y);
  }

  /** The authority pass over a log. */
  method Build(ops: seq<Op>) returns (a: Authority)
    requires IdsUnique(Elems(ops))
    ensures SameAuthority(a, AuthorityOf(ops))
  {
    hide SameView, StandingOf;
    var st := BuildStanding(ops);
    a := BindEntities(st, ops);
    BindersAlike(st, StandingOf(Elems(ops)), ops);
  }
}
