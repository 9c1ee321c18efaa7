// Merging user ids: the alias map is the connected components of the alias edges, each led by
// its least id.
module Aliases {
  import opened Ordering
  import opened Operations

  type Edge = (UserId, UserId)

  // ---------- Specification ----------

  ghost function Nodes(edges: set<Edge>): set<UserId> {
    (set e | e in edges :: e.0) + (set e | e in edges :: e.1)
  }

  ghost predicate Linked(edges: set<Edge>, a: UserId, b: UserId) { (a, b) in edges || (b, a) in edges }

  ghost predicate IsPath(edges: set<Edge>, p: seq<UserId>) {
    p != [] && forall i | 0 <= i < |p| - 1 :: Linked(edges, p[i], p[i + 1])
  }

  ghost predicate Connected(edges: set<Edge>, a: UserId, b: UserId) {
    exists p :: IsPath(edges, p) && p[0] == a && p[|p| - 1] == b
  }

  ghost function Component(edges: set<Edge>, a: UserId): set<UserId> {
    set b | b in Nodes(edges) + {a} && Connected(edges, a, b)
  }

  /** The least id of the component of `a`. */
  ghost function Canonical(edges: set<Edge>, a: UserId): (c: UserId)
    ensures c in Component(edges, a)
    ensures forall b | b in Component(edges, a) :: StrLe(c, b)
  {
    ConnectedRefl(edges, a);
    assert a in Component(edges, a);
    StrTotal(Component(edges, a));
    Least(Component(edges, a), StrLe)
  }

  /** The real redirects among the ids of `scope`: an id that leads its component is no alias. */
  ghost function Redirects(edges: set<Edge>, scope: set<UserId>): map<UserId, UserId> {
    map u | u in scope && Canonical(edges, u) != u :: Canonical(edges, u)
  }

  ghost function AliasMap(edges: set<Edge>): map<UserId, UserId> { Redirects(edges, Nodes(edges)) }

  function Resolve(aliases: map<UserId, UserId>, user: UserId): UserId {
    if user in aliases then aliases[user] else user
  }

  // ---------- Connectedness is an equivalence ----------

  lemma {:induction false} ConnectedRefl(edges: set<Edge>, a: UserId)
    ensures Connected(edges, a, a)
  {
    assert IsPath(edges, [a]);
    assert [a][0] == a && [a][|[a]| - 1] == a;
  }

  lemma {:induction false} ConnectedTrans(edges: set<Edge>, a: UserId, b: UserId, c: UserId)
    requires Connected(edges, a, b) && Connected(edges, b, c)
    ensures Connected(edges, a, c)
  {
    var p :| IsPath(edges, p) && p[0] == a && p[|p| - 1] == b;
    var q :| IsPath(edges, q) && q[0] == b && q[|q| - 1] == c;
    var r := p + q[1..];
    forall i | 0 <= i < |r| - 1 ensures Linked(edges, r[i], r[i + 1]) {
      if i >= |p| - 1 {
        var j := i - (|p| - 1);
        assert r[i] == q[j] && r[i + 1] == q[j + 1];
      }
    }
    assert IsPath(edges, r) && r[0] == a && r[|r| - 1] == c;
  }

  lemma {:induction false} ConnectedSym(edges: set<Edge>, a: UserId, b: UserId)
    requires Connected(edges, a, b)
    ensures Connected(edges, b, a)
  {
    var p :| IsPath(edges, p) && p[0] == a && p[|p| - 1] == b;
    var r := seq(|p|, i requires 0 <= i < |p| => p[|p| - 1 - i]);
    forall i | 0 <= i < |r| - 1 ensures Linked(edges, r[i], r[i + 1]) {
      var j := |p| - 2 - i;
      assert r[i] == p[j + 1] && r[i + 1] == p[j];
      assert Linked(edges, p[j], p[j + 1]);
    }
    assert IsPath(edges, r) && r[0] == b && r[|r| - 1] == a;
  }

  lemma {:induction false} ConnectedLink(edges: set<Edge>, a: UserId, b: UserId)
    requires Linked(edges, a, b)
    ensures Connected(edges, a, b)
  {
    assert IsPath(edges, [a, b]);
    assert [a, b][0] == a && [a, b][|[a, b]| - 1] == b;
  }

  lemma {:induction false} PathStays(edges: set<Edge>, p: seq<UserId>, home: set<UserId>)
    requires IsPath(edges, p) && p[0] in home
    requires forall x, y | x in home && Linked(edges, x, y) :: y in home
    ensures p[|p| - 1] in home
  {
    if |p| > 1 {
      assert Linked(edges, p[0], p[1]);
      var q := p[1..];
      forall i | 0 <= i < |q| - 1 ensures Linked(edges, q[i], q[i + 1]) {
        assert Linked(edges, p[i + 1], p[i + 2]);
      }
      PathStays(edges, q, home);
    }
  }

  lemma {:induction false} ConnectedNode(edges: set<Edge>, a: UserId, b: UserId)
    requires Connected(edges, a, b)
    ensures a == b || (a in Nodes(edges) && b in Nodes(edges))
  {
    var p :| IsPath(edges, p) && p[0] == a && p[|p| - 1] == b;
    if |p| > 1 {
      assert Linked(edges, p[0], p[1]) && Linked(edges, p[|p| - 2], p[|p| - 2 + 1]);
      LinkedNodes(edges, p[0], p[1]);
      LinkedNodes(edges, p[|p| - 2], p[|p| - 1]);
    }
  }

  lemma {:induction false} LinkedNodes(edges: set<Edge>, a: UserId, b: UserId)
    requires Linked(edges, a, b)
    ensures a in Nodes(edges) && b in Nodes(edges)
  {
    var e := if (a, b) in edges then (a, b) else (b, a);
    assert e in edges && e.0 in Nodes(edges) && e.1 in Nodes(edges);
  }

  lemma {:induction false} SameComponent(edges: set<Edge>, a: UserId, b: UserId)
    requires Connected(edges, a, b)
    ensures Component(edges, a) == Component(edges, b)
    ensures Canonical(edges, a) == Canonical(edges, b)
  {
    ConnectedSym(edges, a, b);
    ConnectedNode(edges, a, b);
    forall c ensures c in Component(edges, a) <==> c in Component(edges, b) {
      if Connected(edges, a, c) { ConnectedTrans(edges, b, a, c); ConnectedNode(edges, b, c); }
      if Connected(edges, b, c) { ConnectedTrans(edges, a, b, c); ConnectedNode(edges, a, c); }
    }
    assert Component(edges, a) == Component(edges, b);
    StrOrder(Canonical(edges, a), Canonical(edges, b));
  }

  lemma {:induction false} StartInComponent(edges: set<Edge>, a: UserId)
    ensures a in Component(edges, a)
  {
    ConnectedRefl(edges, a);
  }

  lemma {:induction false} InComponent(edges: set<Edge>, a: UserId, b: UserId)
    requires b in Component(edges, a)
    ensures Canonical(edges, b) == Canonical(edges, a)
  {
    SameComponent(edges, a, b);
  }

  // ---------- What resolution means ----------

  lemma {:induction false} ResolveIsCanonical(edges: set<Edge>, u: UserId)
    ensures Resolve(AliasMap(edges), u) == Canonical(edges, u)
  {
    if u !in Nodes(edges) {
      ConnectedNode(edges, u, Canonical(edges, u));
    }
  }

  /** Two ids resolve equally exactly when a path of edges joins them. */
  lemma {:induction false} ResolveEqualsIffConnected(edges: set<Edge>, a: UserId, b: UserId)
    ensures Resolve(AliasMap(edges), a) == Resolve(AliasMap(edges), b) <==> Connected(edges, a, b)
  {
    ResolveIsCanonical(edges, a);
    ResolveIsCanonical(edges, b);
    if Connected(edges, a, b) {
      SameComponent(edges, a, b);
    }
    if Canonical(edges, a) == Canonical(edges, b) {
      ConnectedSym(edges, b, Canonical(edges, b));
      ConnectedTrans(edges, a, Canonical(edges, a), b);
    }
  }

  /** An id resolves to the least id it is joined to; that id is no key, so resolving again changes nothing. */
  lemma {:induction false} ResolveIsLeastAndIdempotent(edges: set<Edge>, u: UserId)
    ensures var c := Resolve(AliasMap(edges), u);
            && Connected(edges, u, c)
            && (forall v | Connected(edges, u, v) :: StrLe(c, v))
            && c !in AliasMap(edges)
            && Resolve(AliasMap(edges), c) == c
  {
    ResolveIsCanonical(edges, u);
    var c := Canonical(edges, u);
    forall v | Connected(edges, u, v) ensures StrLe(c, v) { ConnectedNode(edges, u, v); }
    SameComponent(edges, u, c);
  }

  /** A merged group that contains a real identity is never led by a placeholder. */
  lemma {:induction false} IdentityBeatsPlaceholder(edges: set<Edge>, u: UserId, key: PublicKey)
    requires Connected(edges, u, UserIdFor(key))
    ensures !IsPlaceholder(Resolve(AliasMap(edges), u))
  {
    ResolveIsLeastAndIdempotent(edges, u);
    IdentityIds(key, key, Resolve(AliasMap(edges), u));
  }

  /** The alias map ignores the direction of edges (order and repetition are already lost in the set). */
  lemma {:induction false} DirectionIrrelevant(edges: set<Edge>, others: set<Edge>)
    requires forall a, b :: Linked(edges, a, b) <==> Linked(others, a, b)
    ensures AliasMap(edges) == AliasMap(others)
  {
    forall u ensures u in Nodes(edges) <==> u in Nodes(others) {
      if u in Nodes(edges) { var v := Neighbour(edges, u); LinkedNodes(others, u, v); }
      if u in Nodes(others) { var v := Neighbour(others, u); LinkedNodes(edges, u, v); }
    }
    assert Nodes(edges) == Nodes(others);
    forall p ensures IsPath(edges, p) <==> IsPath(others, p) {}
    forall a, b ensures Connected(edges, a, b) <==> Connected(others, a, b) {
      if Connected(edges, a, b) {
        var p :| IsPath(edges, p) && p[0] == a && p[|p| - 1] == b;
        assert IsPath(others, p);
      }
      if Connected(others, a, b) {
        var p :| IsPath(others, p) && p[0] == a && p[|p| - 1] == b;
        assert IsPath(edges, p);
      }
    }
    forall u ensures Canonical(edges, u) == Canonical(others, u) {
      assert Component(edges, u) == Component(others, u);
      StrOrder(Canonical(edges, u), Canonical(others, u));
    }
  }

  lemma {:induction false} Neighbour(edges: set<Edge>, u: UserId) returns (v: UserId)
    requires u in Nodes(edges)
    ensures Linked(edges, u, v)
  {
    if e :| e in edges && e.0 == u {
      v := e.1;
      assert e == (u, v);
    } else {
      var e :| e in edges && e.1 == u;
      v := e.0;
      assert e == (v, u);
    }
  }

  // ---------- The depth-first search ----------

  /** Everything the search knows of the component it is exploring. */
  ghost predicate Exploring(edges: set<Edge>, start: UserId, visited0: set<UserId>,
                            visited: set<UserId>, component: seq<UserId>, stack: seq<UserId>)
  {
    && start in Nodes(edges) && start in visited
    && visited == visited0 + Elems(component) + Elems(stack)
    && visited <= Nodes(edges)
    && (forall u | u in component || u in stack :: u !in visited0 && Connected(edges, start, u))
    && (forall u, v | u in component && Linked(edges, u, v) :: v in visited)
    && (forall i, j | 0 <= i < j < |component| :: component[i] != component[j])
    && (forall i, j | 0 <= i < j < |stack| :: stack[i] != stack[j])
    && (forall u | u in stack :: u !in component)
  }

  ghost predicate Closed(edges: set<Edge>, visited: set<UserId>) {
    forall x, y | x in visited && Linked(edges, x, y) :: y in visited
  }

  lemma {:induction false} ExplorationDone(edges: set<Edge>, start: UserId, visited0: set<UserId>,
                        visited: set<UserId>, component: seq<UserId>)
    requires Exploring(edges, start, visited0, visited, component, [])
    requires Closed(edges, visited0) && start !in visited0
    ensures Elems(component) == Component(edges, start)
    ensures Closed(edges, visited)
  {
    forall x, y | x in Elems(component) && Linked(edges, x, y) ensures y in Elems(component) {
      assert y in visited;
      assert Linked(edges, y, x);
      assert y in visited0 ==> x in visited0;
    }
    forall b | b in Component(edges, start) ensures b in Elems(component) {
      var p :| IsPath(edges, p) && p[0] == start && p[|p| - 1] == b;
      assert start in Elems(component);
      PathStays(edges, p, Elems(component));
    }
    forall x, y | x in visited && Linked(edges, x, y) ensures y in visited {
      if x in visited0 { assert y in visited0; } else { assert x in Elems(component); }
    }
  }

  /** Marks the unvisited neighbours and pushes each of them once. */
  method PushUnvisited(neighbours: set<UserId>, visited0: set<UserId>, stack0: seq<UserId>)
    returns (visited: set<UserId>, stack: seq<UserId>)
    ensures visited == visited0 + neighbours
    ensures stack0 <= stack && Elems(stack[|stack0|..]) == neighbours - visited0
    ensures forall i, j | |stack0| <= i < j < |stack| :: stack[i] != stack[j]
  {
    visited, stack := visited0, stack0;
    var todo := neighbours;
    while todo != {}
      invariant todo <= neighbours && visited == visited0 + (neighbours - todo)
      invariant stack0 <= stack && Elems(stack[|stack0|..]) == neighbours - todo - visited0
      invariant forall i, j | |stack0| <= i < j < |stack| :: stack[i] != stack[j]
    {
      var v :| v in todo;
      if v !in visited {
        ghost var pushed := stack[|stack0|..];
        assert v !in Elems(pushed);
        forall i | |stack0| <= i < |stack| ensures stack[i] != v {
          assert stack[i] == pushed[i - |stack0|] && stack[i] in Elems(pushed);
        }
        assert (stack + [v])[|stack0|..] == pushed + [v];
        ElemsSnoc(pushed, v);
        stack := stack + [v];
        visited := visited + {v};
      }
      todo := todo - {v};
    }
  }

  lemma ElemsSnoc(s: seq<UserId>, v: UserId)
    ensures Elems(s + [v]) == Elems(s) + {v}
  {}

  /** One round: `u` moves to the component and its unvisited neighbours onto the stack. */
  lemma {:induction false} ExploringStep(edges: set<Edge>, start: UserId, visited0: set<UserId>, visited: set<UserId>,
                      component: seq<UserId>, stack: seq<UserId>, u: UserId,
                      neighbours: set<UserId>, pushed: seq<UserId>)
    requires Exploring(edges, start, visited0, visited, component, stack + [u])
    requires forall v :: v in neighbours <==> Linked(edges, u, v)
    requires Elems(pushed) == neighbours - visited
    requires forall i, j | 0 <= i < j < |pushed| :: pushed[i] != pushed[j]
    ensures Exploring(edges, start, visited0, visited + neighbours, component + [u], stack + pushed)
    ensures Elems(component + [u]) == Elems(component) + {u} && u in Nodes(edges) && u !in Elems(component)
  {
    hide Connected, Linked, Nodes;
    var stack1, stack2, component2 := stack + [u], stack + pushed, component + [u];
    assert stack1[|stack|] == u && u in Elems(stack1);
    assert forall i | 0 <= i < |stack| :: stack1[i] == stack[i] && stack[i] in Elems(stack1);
    ElemsSnoc(stack, u);
    ElemsSnoc(component, u);
    ElemsConcat(stack, pushed);
    forall v | v in neighbours ensures v in Nodes(edges) && Connected(edges, start, v) {
      assert u in stack1;
      LinkedNodes(edges, u, v);
      ConnectedLink(edges, u, v);
      ConnectedTrans(edges, start, u, v);
    }
    forall x | x in component2 || x in stack2 ensures x !in visited0 && Connected(edges, start, x) {
      assert x in Elems(component2) || x in Elems(stack2);
      if x in Elems(component) { assert x in component; }
      if x in Elems(stack1) { assert x in stack1; }
    }
    forall x | x in stack2 ensures x !in component2 {
      assert x in Elems(stack2);
      if x in stack { assert x in stack1; } else { assert x in Elems(pushed) && x !in visited; }
    }
    forall i, j | 0 <= i < j < |stack2| ensures stack2[i] != stack2[j] {
      if j < |stack| {
        assert stack2[i] == stack1[i] && stack2[j] == stack1[j];
      } else {
        assert stack2[j] == pushed[j - |stack|] && stack2[j] in Elems(pushed);
        if i < |stack| { assert stack2[i] == stack1[i] && stack2[i] in Elems(stack1); }
      }
    }
  }

  lemma ElemsConcat(s: seq<UserId>, t: seq<UserId>)
    ensures Elems(s + t) == Elems(s) + Elems(t)
  {}

  method Explore(ghost edges: set<Edge>, adjacency: map<UserId, set<UserId>>, start: UserId, visited0: set<UserId>)
    returns (visited: set<UserId>, component: seq<UserId>)
    requires start in Nodes(edges) && start !in visited0 && visited0 <= Nodes(edges) && Closed(edges, visited0)
    requires forall u, v :: Adjacent(adjacency, u, v) <==> Linked(edges, u, v)
    ensures Elems(component) == Component(edges, start)
    ensures visited == visited0 + Component(edges, start)
    ensures visited <= Nodes(edges) && Closed(edges, visited)
  {
    component := [];
    var stack := [start];
    visited := visited0 + {start};
    ConnectedRefl(edges, start);
    while stack != []
      invariant Exploring(edges, start, visited0, visited, component, stack)
      decreases Nodes(edges) - Elems(component)
    {
      hide Exploring, Linked, Nodes, Closed;
      var u := stack[|stack| - 1];
      ghost var rest := stack[..|stack| - 1];
      assert stack == rest + [u];
      stack := stack[..|stack| - 1];
      var neighbours := if u in adjacency then adjacency[u] else {};
      assert forall v :: v in neighbours <==> Adjacent(adjacency, u, v);
      ghost var before := visited;
      visited, stack := PushUnvisited(neighbours, visited, stack);
      assert stack == rest + stack[|rest|..];
      ExploringStep(edges, start, visited0, before, component, rest, u, neighbours, stack[|rest|..]);
      component := component + [u];
    }
    ExplorationDone(edges, start, visited0, visited, component);
    assert Elems(stack) == {};
  }

  predicate Adjacent(adjacency: map<UserId, set<UserId>>, u: UserId, v: UserId) {
    u in adjacency && v in adjacency[u]
  }

  function AddNeighbour(adjacency: map<UserId, set<UserId>>, a: UserId, b: UserId): (r: map<UserId, set<UserId>>)
    ensures forall u, v :: Adjacent(r, u, v) <==> Adjacent(adjacency, u, v) || (u == a && v == b)
  {
    adjacency[a := (if a in adjacency then adjacency[a] else {}) + {b}]
  }

  method BuildGraph(edges: seq<Edge>) returns (nodes: set<UserId>, adjacency: map<UserId, set<UserId>>)
    ensures nodes == Nodes(Elems(edges))
    ensures forall u, v :: Adjacent(adjacency, u, v) <==> Linked(Elems(edges), u, v)
  {
    adjacency := map[];
    nodes := {};
    for i := 0 to |edges|
      invariant nodes == Nodes(Elems(edges[..i]))
      invariant forall u, v :: Adjacent(adjacency, u, v) <==> Linked(Elems(edges[..i]), u, v)
    {
      hide Nodes, Linked, Adjacent;
      var (a, b) := edges[i];
      GraphSnoc(edges, i);
      nodes := nodes + {a, b};
      adjacency := AddNeighbour(adjacency, a, b);
      adjacency := AddNeighbour(adjacency, b, a);
    }
    assert edges[..|edges|] == edges;
  }

  lemma {:induction false} RedirectsStep(edges: set<Edge>, scope: set<UserId>, u: UserId)
    ensures Redirects(edges, scope + {u})
         == if Canonical(edges, u) != u then Redirects(edges, scope)[u := Canonical(edges, u)]
            else Redirects(edges, scope)
  {
    hide Canonical;
  }

  lemma {:induction false} GraphSnoc(edges: seq<Edge>, i: nat)
    requires i < |edges|
    ensures var (a, b) := edges[i]; var s, t := Elems(edges[..i]), Elems(edges[..i + 1]);
            && Nodes(t) == Nodes(s) + {a, b}
            && forall u, v :: Linked(t, u, v) <==> Linked(s, u, v) || (u == a && v == b) || (u == b && v == a)
  {
    assert edges[..i + 1] == edges[..i] + [edges[i]];
    assert Elems(edges[..i + 1]) == Elems(edges[..i]) + {edges[i]};
  }

  /** Points every id of one component at its least id. */
  method RecordComponent(ghost edges: set<Edge>, ghost start: UserId, ghost visited: set<UserId>,
                         component: seq<UserId>, before: map<UserId, UserId>)
    returns (canonical: map<UserId, UserId>)
    requires Elems(component) == Component(edges, start)
    requires before == Redirects(edges, visited)
    ensures canonical == Redirects(edges, visited + Component(edges, start))
  {
    hide Connected, Component, Canonical, StrLe, Redirects;
    StartInComponent(edges, start);
    assert start in Elems(component);
    var canon := LeastOf(component);
    assert canon in Elems(component);
    StrOrder(canon, Canonical(edges, start));
    canonical := before;
    assert visited + Elems(component[..0]) == visited;
    for k := 0 to |component|
      invariant canonical == Redirects(edges, visited + Elems(component[..k]))
    {
      var u := component[k];
      assert component[..k + 1] == component[..k] + [u];
      ElemsSnoc(component[..k], u);
      assert visited + Elems(component[..k + 1]) == visited + Elems(component[..k]) + {u};
      RedirectsStep(edges, visited + Elems(component[..k]), u);
      assert u in Elems(component);
      InComponent(edges, start, u);
      if u != canon { canonical := canonical[u := canon]; }
    }
    assert component[..|component|] == component;
  }

  method ResolveAliases(edges: seq<Edge>) returns (canonical: map<UserId, UserId>)
    ensures canonical == AliasMap(Elems(edges))
  {
    var nodes, adjacency := BuildGraph(edges);
    canonical := map[];
    var visited: set<UserId> := {};
    var todo := nodes;
    while todo != {}
      invariant todo <= nodes && nodes - todo <= visited <= nodes
      invariant Closed(Elems(edges), visited)
      invariant canonical == Redirects(Elems(edges), visited)
    {
      var start :| start in todo;
      todo := todo - {start};
      if start !in visited {
        ghost var before := visited;
        var component;
        visited, component := Explore(Elems(edges), adjacency, start, visited);
        ConnectedRefl(Elems(edges), start);
        canonical := RecordComponent(Elems(edges), start, before, component, canonical);
      }
    }
  }

  method LeastOf(s: seq<UserId>) returns (m: UserId)
    requires s != []
    ensures m in s && forall x | x in s :: StrLe(m, x)
  {
    m := s[0];
    StrOrder(m, m);
    for i := 1 to |s|
      invariant m in s && forall j | 0 <= j < i :: StrLe(m, s[j])
    {
      StrOrder(m, s[i]);
      if !StrLe(m, s[i]) {
        forall j | 0 <= j < i ensures StrLe(s[i], s[j]) { StrTransitive(s[i], m, s[j]); }
        m := s[i];
        StrOrder(m, m);
      }
    }
  }
}
