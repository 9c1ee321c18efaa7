// The policy told from the log and the read model alone: whom a key speaks for, which merges join ids,
// who is whose friend, who founded a group and belongs to it, and from these which ops count. None of
// it mentions how the authority pass is built, and all of it is proved of every log.
module Policy {
  import opened Ordering
  import opened Operations
  import opened Aliases
  import opened Registers
  import opened Authorization
  import opened Membership
  import opened Materialization
  import opened Convergence
  import opened Integrity

  // ---------- Reading a log ----------

  /** Some identity took the author's key back at the op or before. */
  ghost predicate TakenBack(s: set<Op>, o: Op) {
    exists r :: r in s && r.kind.RevokeDevice? && r.author == r.kind.identity && r.kind.device == o.author
             && HlcLe(r.hlc, o.hlc)
  }

  /** The canonical id of a user, as the read model shows it. */
  function Known(p: Projection, u: UserId): UserId { if u in p.aliases then p.aliases[u] else u }

  /** The identity a key speaks for, as the read model shows it. */
  function Speaker(p: Projection, key: PublicKey): UserId {
    UserIdFor(if key in p.devices then p.devices[key].identity else key)
  }

  /** The user an op is by. */
  function By(p: Projection, o: Op): UserId { Known(p, Speaker(p, o.author)) }

  // ---------- Keys ----------

  /** A certificate that an identity signed for a key. */
  predicate Certifies(o: Op, key: PublicKey) {
    o.kind.AuthorizeDevice? && o.author == o.kind.identity && o.kind.device == key
  }

  predicate Revokes(o: Op, key: PublicKey) {
    o.kind.RevokeDevice? && o.author == o.kind.identity && o.kind.device == key
  }

  /** `o` yields to `c`: an earlier certificate, or with the same clock one of a lesser identity or site. */
  predicate YieldsTo(o: Op, c: Op)
    requires o.kind.AuthorizeDevice? && c.kind.AuthorizeDevice?
  {
    || HlcLt(o.hlc, c.hlc)
    || (o.hlc == c.hlc && o.kind.identity != c.kind.identity && StrLe(o.kind.identity.hex, c.kind.identity.hex))
    || (o.hlc == c.hlc && o.kind.identity == c.kind.identity && o.kind.deviceSite <= c.kind.deviceSite)
  }

  /** `c` is the last certificate for the key. */
  ghost predicate LastCertificate(s: set<Op>, c: Op, key: PublicKey) {
    c in s && Certifies(c, key) && forall o | o in s && Certifies(o, key) :: YieldsTo(o, c)
  }

  /** A key is shown exactly when some identity signed a certificate for it, and as the last of these has it. */
  lemma {:induction false} KeysShown(ops: seq<Op>, key: PublicKey)
    requires IdsUnique(Elems(ops))
    ensures var s, p := Elems(ops), FoldOf(ops);
            && (key in p.devices <==> exists o :: o in s && Certifies(o, key))
            && (key in p.devices ==>
                  && (exists c :: LastCertificate(s, c, key) && p.devices[key].identity == c.kind.identity
                               && p.devices[key].site == c.kind.deviceSite)
                  && (p.devices[key].revoked <==> exists o :: o in s && Revokes(o, key)))
  {
    hide DevicesOf, FoldOf, LastCertificate;
    ReadsDevices(ops);
    CertificateMeans(Elems(ops), key);
    RevocationMeans(Elems(ops), key);
  }

  lemma {:induction false} CertificateMeans(s: set<Op>, key: PublicKey)
    ensures var d := DevicesOf(s).authorized;
            && (key in d <==> exists o :: o in s && Certifies(o, key))
            && (key in d ==> exists c :: LastCertificate(s, c, key) && d[key] == CertOf(c))
  {
    hide GreatestCert, EarliestHlc, CertLe, YieldsTo, CertOf;
    GrantExists(s, key);
    if o :| o in s && Certifies(o, key) { assert key in Certified(s); }
    if key in DevicesOf(s).authorized {
      var best := GreatestCert(Grants(s, key));
      var c :| c in s && IsGrant(c) && c.kind.device == key && CertOf(c) == best;
      forall o | o in s && Certifies(o, key) ensures YieldsTo(o, c) {
        assert CertOf(o) in Grants(s, key);
        YieldsIsLe(o, c);
      }
      assert LastCertificate(s, c, key);
    }
  }

  lemma {:induction false} RevocationMeans(s: set<Op>, key: PublicKey)
    ensures key in DevicesOf(s).revoked <==> exists o :: o in s && Revokes(o, key)
  {
    hide GreatestCert, EarliestHlc;
    if o :| o in s && Revokes(o, key) { assert key in RevokedDevices(s); }
  }

  lemma YieldsIsLe(o: Op, c: Op)
    requires o.kind.AuthorizeDevice? && c.kind.AuthorizeDevice?
    ensures CertLe(CertOf(o), CertOf(c)) <==> YieldsTo(o, c)
  {}

  lemma {:induction false} ReadsDevices(ops: seq<Op>)
    requires IdsUnique(Elems(ops))
    ensures StandingOf(Elems(ops)).devices == DevicesOf(Elems(ops))
    ensures FoldOf(ops).devices == DeviceRecords(DevicesOf(Elems(ops)))
  {
    hide DevicesOf, EntitledOps, AliasEdges, FoundersOf, Accepted, TimelinesOf, Declarations;
    hide GroupsOf, UsersOf, ExpensesOf, SettlementsOf, ConfirmedFriends, DeviceRecords;
  }

  /** What the verdicts read of keys and aliases is what the read model shows. */
  lemma {:induction false} ReadsAuthors(ops: seq<Op>)
    requires IdsUnique(Elems(ops))
    ensures var p, st := FoldOf(ops), StandingOf(Elems(ops));
            && p.aliases == st.aliases
            && (forall u :: Known(p, u) == Resolve(st.aliases, u))
            && (forall o: Op :: Speaker(p, o.author) == RawActor(st.devices, o) && By(p, o) == ActorOf(st, o))
  {
    hide DevicesOf, EntitledOps, StandingOf, GroupsOf, UsersOf, ExpensesOf, SettlementsOf, ConfirmedFriends;
    ReadsDevices(ops);
  }

  lemma {:induction false} TakenBackIsRevokedAt(s: set<Op>, o: Op)
    ensures TakenBack(s, o) <==> RevokedAt(DevicesOf(s), o)
  {
    hide GreatestCert, HlcLe;
    HlcTransitive();
    RevocationExists(s, o.author);
    if r :| r in s && r.kind.RevokeDevice? && r.author == r.kind.identity && r.kind.device == o.author
          && HlcLe(r.hlc, o.hlc) {
      assert r.hlc in Revocations(s, o.author);
      assert HlcLe(EarliestHlc(Revocations(s, o.author)), r.hlc);
    }
    if RevokedAt(DevicesOf(s), o) {
      var h := EarliestHlc(Revocations(s, o.author));
      var r :| r in s && IsRevocation(r) && r.kind.device == o.author && r.hlc == h;
    }
  }

  lemma HlcTransitive()
    ensures forall a, b, c :: HlcLe(a, b) && HlcLe(b, c) ==> HlcLe(a, c)
  {}

  // ---------- Aliases ----------

  /** A merge counts when its author is one of the two ids, or both are guests. */
  ghost predicate Merges(s: set<Op>, p: Projection, o: Op) {
    && o in s && o.kind.AddAlias? && !TakenBack(s, o)
    && (|| Speaker(p, o.author) == o.kind.alias
        || Speaker(p, o.author) == o.kind.canonical
        || (IsPlaceholder(o.kind.alias) && IsPlaceholder(o.kind.canonical)))
  }

  ghost function MergedPairs(s: set<Op>, p: Projection): set<Edge> {
    set o | o in s && Merges(s, p, o) :: (o.kind.alias, o.kind.canonical)
  }

  /** Ids are shown as one exactly when counted merges join them, under the least id they join. */
  lemma {:induction false} AliasesShown(ops: seq<Op>, u: UserId, v: UserId)
    requires IdsUnique(Elems(ops))
    ensures var p := FoldOf(ops); var pairs := MergedPairs(Elems(ops), p);
            && (Known(p, u) == Known(p, v) <==> Connected(pairs, u, v))
            && Connected(pairs, u, Known(p, u))
            && (Connected(pairs, u, v) ==> StrLe(Known(p, u), v))
  {
    hide FoldOf, AliasMap, TakenBack, RevokedAt, DevicesOf, StrLe;
    var s, p := Elems(ops), FoldOf(ops);
    ReadsAuthors(ops);
    ReadsEdges(ops);
    ResolveEqualsIffConnected(MergedPairs(s, p), u, v);
    ResolveIsLeastAndIdempotent(MergedPairs(s, p), u);
  }

  lemma {:induction false} ReadsEdges(ops: seq<Op>)
    requires IdsUnique(Elems(ops))
    ensures StandingOf(Elems(ops)).aliases == AliasMap(MergedPairs(Elems(ops), FoldOf(ops)))
  {
    hide FoldOf, AliasMap, TakenBack, RevokedAt, DevicesOf, FoundersOf, Accepted, TimelinesOf, Declarations;
    var s, p := Elems(ops), FoldOf(ops);
    ReadsAuthors(ops);
    forall o | o in s ensures TakenBack(s, o) <==> RevokedAt(DevicesOf(s), o) { TakenBackIsRevokedAt(s, o); }
    assert AliasEdges(s, DevicesOf(s)) == MergedPairs(s, p);
  }

  // ---------- Friends ----------

  /** An op by `a` that declares friendship towards `b` and was not taken back. */
  ghost predicate Declares(s: set<Op>, p: Projection, a: UserId, b: UserId) {
    exists o :: o in s && o.kind.DeclareFriend? && !TakenBack(s, o) && By(p, o) == a && Known(p, o.kind.other) == b
  }

  /** A friend is shown exactly when two different users have declared each other, and nobody is shown without any. */
  lemma {:induction false} FriendsShownIff(ops: seq<Op>, a: UserId, b: UserId)
    requires IdsUnique(Elems(ops))
    ensures var s, p := Elems(ops), FoldOf(ops);
            && (a in p.friends && b in p.friends[a] <==> a != b && Declares(s, p, a, b) && Declares(s, p, b, a))
            && (a in p.friends ==> p.friends[a] != {})
  {
    hide FoldOf, StandingOf, Declares;
    var st := StandingOf(Elems(ops));
    ReadsFriends(ops);
    ReadsDeclaration(ops, a, b);
    ReadsDeclaration(ops, b, a);
    if a in ConfirmedFriends(st) {
      var c :| c in st.friendDecls[a] && IsFriend(st, a, c);
      assert c in ConfirmedFriends(st)[a];
    }
  }

  lemma {:induction false} ReadsFriends(ops: seq<Op>)
    requires IdsUnique(Elems(ops))
    ensures FoldOf(ops).friends == ConfirmedFriends(StandingOf(Elems(ops)))
  {
    hide StandingOf, EntitledOps, GroupsOf, UsersOf, ExpensesOf, SettlementsOf, ConfirmedFriends, DeviceRecords;
  }

  lemma {:induction false} ReadsDeclaration(ops: seq<Op>, a: UserId, b: UserId)
    requires IdsUnique(Elems(ops))
    ensures var s, p := Elems(ops), FoldOf(ops); var decls := StandingOf(s).friendDecls;
            a in decls && b in decls[a] <==> a != b && Declares(s, p, a, b)
  {
    hide FoldOf, AliasMap, TakenBack, RevokedAt, DevicesOf, FoundersOf, Accepted, TimelinesOf, Actor;
    var s, p := Elems(ops), FoldOf(ops);
    var d, aliases := DevicesOf(s), StandingOf(s).aliases;
    ReadsAuthors(ops);
    forall o | o in s ensures TakenBack(s, o) <==> RevokedAt(d, o) { TakenBackIsRevokedAt(s, o); }
    var pairs := Declarations(s, d, aliases);
    if a != b && Declares(s, p, a, b) {
      var o :| o in s && o.kind.DeclareFriend? && !TakenBack(s, o) && By(p, o) == a && Known(p, o.kind.other) == b;
      assert DeclarationOf(d, aliases, o) == (a, b) && IsDeclaration(d, aliases, o);
      assert (a, b) in pairs;
    }
    GroupedMeans(pairs, a, b);
  }

  lemma {:induction false} GroupedMeans(pairs: set<(UserId, UserId)>, a: UserId, b: UserId)
    ensures a in Grouped(pairs) && b in Grouped(pairs)[a] <==> (a, b) in pairs
  {
    if (a, b) in pairs { assert (a, b).0 == a && (a, b).1 == b; }
  }

  // ---------- Founders ----------

  ghost predicate Founds(s: set<Op>, o: Op, g: GroupId) {
    o in s && o.kind.CreateGroup? && o.kind.group == g && !TakenBack(s, o)
  }

  /** The user whose create of the group is the earliest not taken back. */
  ghost predicate Founder(s: set<Op>, p: Projection, g: GroupId, u: UserId) {
    exists o :: Founds(s, o, g) && By(p, o) == u && forall q | Founds(s, q, g) :: OrderLe(OrderOf(o), OrderOf(q))
  }

  lemma {:induction false} FoundersAre(ops: seq<Op>, g: GroupId, u: UserId)
    requires IdsUnique(Elems(ops))
    ensures var s, p, f := Elems(ops), FoldOf(ops), StandingOf(Elems(ops)).founders;
            && (g in f && f[g] == u <==> Founder(s, p, g, u))
            && (g in p.groups <==> exists o :: Founds(s, o, g))
  {
    hide FoldOf, AliasMap, TakenBack, RevokedAt, DevicesOf, AliasEdges, Accepted, TimelinesOf, Actor, Declarations;
    hide FoundingOp;
    var s, p, d := Elems(ops), FoldOf(ops), DevicesOf(Elems(ops));
    ReadsAuthors(ops);
    GroupsShownAreFounded(ops, g);
    forall o | o in s ensures TakenBack(s, o) <==> RevokedAt(d, o) { TakenBackIsRevokedAt(s, o); }
    assert GroupCreates(s, d, g) == set o | o in s && Founds(s, o, g);
    if o :| Founds(s, o, g) { assert CreatesGroup(d, o, o.kind.group) && o.kind.group in CreatedGroups(s, d); }
    if g in CreatedGroups(s, d) {
      var o := FoundingOp(s, d, g);
      assert Founds(s, o, g) && forall q | Founds(s, q, g) :: OpLe(o, q);
      if Founder(s, p, g, u) {
        var q :| Founds(s, q, g) && By(p, q) == u && forall x | Founds(s, x, g) :: OrderLe(OrderOf(q), OrderOf(x));
        SameFirst(s, o, q);
      }
    }
  }

  lemma {:induction false} SameFirst(s: set<Op>, o: Op, q: Op)
    requires IdsUnique(s) && o in s && q in s && OpLe(o, q) && OpLe(q, o)
    ensures o == q
  {
    OrderFacts(o, q, OrderOf(q));
  }

  // ---------- Members ----------

  /** A change of `u` in the group, at `at` or before. */
  predicate ChangesMember(p: Projection, o: Op, g: GroupId, u: UserId, at: Order) {
    o.kind.SetMembership? && o.kind.group == g && Known(p, o.kind.user) == u && OrderLe(OrderOf(o), at)
  }

  /** The last of the changes of `u` lets it in, or there is none and `u` founded the group. */
  ghost predicate Member(s: set<Op>, p: Projection, changes: set<Op>, g: GroupId, u: UserId, at: Order) {
    || (exists o :: o in changes && ChangesMember(p, o, g, u, at) && o.kind.member
                 && forall q | q in changes && ChangesMember(p, q, g, u, at) :: OrderLe(OrderOf(q), OrderOf(o)))
    || (Founder(s, p, g, u) && forall q | q in changes :: !ChangesMember(p, q, g, u, at))
  }

  /** The changes that count: not taken back, and by somebody who was a member by the other changes that count. */
  ghost predicate Roster(s: set<Op>, p: Projection, changes: set<Op>) {
    && changes <= s
    && forall o | o in s :: o in changes <==>
         o.kind.SetMembership? && !TakenBack(s, o) && Member(s, p, changes - {o}, o.kind.group, By(p, o), OrderOf(o))
  }

  /** The order is past every op of the log. */
  ghost predicate PastAll(s: set<Op>, at: Order) { forall o | o in s :: OrderLe(OrderOf(o), at) }

  /** Exactly one set of changes is a roster; it decides membership at any time, and whom a group shows. */
  lemma {:induction false} MembersShown(ops: seq<Op>, changes: set<Op>)
    requires IdsUnique(Elems(ops))
    ensures var s, p, st := Elems(ops), FoldOf(ops), StandingOf(Elems(ops));
            && (Roster(s, p, changes) <==> changes == AcceptedOf(s))
            && (Roster(s, p, changes) ==>
                  && (forall g, u, at :: IsMemberAsOf(st.membership, g, u, at) <==> Member(s, p, changes, g, u, at))
                  && (forall g, u, at | g in p.groups && PastAll(s, at) ::
                        u in p.groups[g].members <==> Member(s, p, changes, g, u, at)))
  {
    hide FoldOf, StandingOf, ContextOf, Roster, Member, AcceptedOf, IsMemberAsOf, MemberAsOf, CurrentMembers, PastAll;
    var s, p, st := Elems(ops), FoldOf(ops), StandingOf(Elems(ops));
    RosterIsAccepted(ops, changes);
    if Roster(s, p, changes) {
      StandingMembers(s);
      forall g, u, at ensures IsMemberAsOf(st.membership, g, u, at) <==> Member(s, p, changes, g, u, at) {
        MemberMeans(ops, changes, g, u, at);
      }
      forall g, u, at | g in p.groups && PastAll(s, at)
        ensures u in p.groups[g].members <==> Member(s, p, changes, g, u, at)
      {
        GroupShowsCurrent(ops, g);
        MembersAtTheEnd(s, g, u, at);
      }
    }
  }

  lemma {:induction false} MembersAtTheEnd(s: set<Op>, g: GroupId, u: UserId, at: Order)
    requires IdsUnique(s) && PastAll(s, at)
    ensures u in CurrentMembers(StandingOf(s).membership, g) <==> IsMemberAsOf(StandingOf(s).membership, g, u, at)
  {
    hide StandingOf, CurrentMembers, IsMemberAsOf;
    CurrentIsLatest(s, g, u, at);
  }

  lemma {:induction false} GroupShowsCurrent(ops: seq<Op>, g: GroupId)
    requires IdsUnique(Elems(ops)) && g in FoldOf(ops).groups
    ensures FoldOf(ops).groups[g].members == CurrentMembers(StandingOf(Elems(ops)).membership, g)
  {
    hide FoldOf, StandingOf, CurrentMembers, Latest, Never;
    var named, priced, closed := GroupContents(ops, g);
  }

  /** A roster is a consistent selection of changes, of which there is one. */
  lemma {:induction false} RosterIsAccepted(ops: seq<Op>, changes: set<Op>)
    requires IdsUnique(Elems(ops))
    ensures Roster(Elems(ops), FoldOf(ops), changes) <==> changes == AcceptedOf(Elems(ops))
  {
    hide FoldOf, StandingOf, ContextOf, TakenBack, RevokedAt, Member, Accepted, MemberAsOf, ActorOf, DevicesOf;
    var s, c := Elems(ops), ContextOf(Elems(ops));
    ReadsContext(ops);
    forall o | o in s ensures TakenBack(s, o) <==> RevokedAt(c.devices, o) { TakenBackIsRevokedAt(s, o); }
    if changes <= MembershipOf(s) {
      forall o | o in s
        ensures o.kind.SetMembership? ==>
          (Member(s, FoldOf(ops), changes - {o}, o.kind.group, By(FoldOf(ops), o), OrderOf(o))
           <==> MemberAsOf(c, changes - {o}, o.kind.group, Actor(c.devices, c.aliases, o), OrderOf(o)))
      {
        if o.kind.SetMembership? {
          MemberMeans(ops, changes - {o}, o.kind.group, By(FoldOf(ops), o), OrderOf(o));
        }
      }
      if Roster(s, FoldOf(ops), changes) { AcceptedIsUnique(c, MembershipOf(s), changes); }
    }
    AcceptedIsSettled(c, MembershipOf(s));
  }

  lemma {:induction false} ReadsContext(ops: seq<Op>)
    requires IdsUnique(Elems(ops))
    ensures var c, p, st := ContextOf(Elems(ops)), FoldOf(ops), StandingOf(Elems(ops));
            && c.devices == DevicesOf(Elems(ops)) && c.aliases == st.aliases && c.founders == st.founders
            && (forall u :: Known(p, u) == Resolve(c.aliases, u))
            && (forall o: Op :: By(p, o) == Actor(c.devices, c.aliases, o))
  {
    hide DevicesOf, FoldOf, AliasEdges, FoundersOf, TimelinesOf, Accepted, Declarations, Known, By, Resolve;
    ReadsAuthors(ops);
  }

  lemma {:induction false} MemberMeans(ops: seq<Op>, changes: set<Op>, g: GroupId, u: UserId, at: Order)
    requires IdsUnique(Elems(ops)) && changes <= MembershipOf(Elems(ops))
    ensures Member(Elems(ops), FoldOf(ops), changes, g, u, at)
       <==> MemberAsOf(ContextOf(Elems(ops)), changes, g, u, at)
  {
    hide FoldOf, StandingOf, ContextOf, Founder, OrderLe, Known, Resolve;
    var s, p, c := Elems(ops), FoldOf(ops), ContextOf(Elems(ops));
    ReadsContext(ops);
    FoundersAre(ops, g, u);
    var upto := Upto(ChangesOf(c, changes, g, u), at);
    assert forall q :: q in upto <==> q in changes && ChangesMember(p, q, g, u, at);
    if upto != {} {
      var last := LastOp(upto);
      forall o | o in upto && forall q | q in upto :: OrderLe(OrderOf(q), OrderOf(o)) ensures o == last {
        SameFirst(s, o, last);
      }
    }
  }

  // ---------- Verdicts ----------

  predicate Friends(p: Projection, a: UserId, b: UserId) { a in p.friends && b in p.friends[a] }

  /** The payers and debtors of a version. */
  function Participants(p: Projection, fields: ExpenseFields): set<UserId> {
    (set u | u in fields.paidBy :: Known(p, u)) + set x | x in fields.splits :: Known(p, x.user)
  }

  /** In a group whoever is a member then may touch; elsewhere a participant whose fellows are friends or guests. */
  ghost predicate Touch(
      s: set<Op>, p: Projection, changes: set<Op>, o: Op, home: Option<GroupId>, parties: set<UserId>)
  {
    match home
    case Some(g) => Member(s, p, changes, g, By(p, o), OrderOf(o))
    case None =>
      By(p, o) in parties
      && forall u | u in parties :: u == By(p, o) || IsPlaceholder(u) || Friends(p, By(p, o), u)
  }

  /** A create of the expense that counts. */
  ghost predicate Enters(s: set<Op>, p: Projection, changes: set<Op>, o: Op, e: ExpenseId) {
    o.kind.CreateExpense? && o.kind.expense == e && !TakenBack(s, o)
    && Touch(s, p, changes, o, o.kind.home, Participants(p, o.kind.fields))
  }

  /** The create that the expense belongs to: of the latest that count, the first in the log. */
  ghost predicate Owns(ops: seq<Op>, p: Projection, changes: set<Op>, i: nat, e: ExpenseId) {
    var s := Elems(ops);
    && i < |ops| && Enters(s, p, changes, ops[i], e)
    && (forall j | 0 <= j < |ops| && Enters(s, p, changes, ops[j], e) :: HlcLe(ops[j].hlc, ops[i].hlc))
    && (forall j | 0 <= j < i && Enters(s, p, changes, ops[j], e) :: ops[j].hlc != ops[i].hlc)
  }

  ghost predicate MayActOn(ops: seq<Op>, p: Projection, changes: set<Op>, o: Op, e: ExpenseId) {
    exists i: nat :: Owns(ops, p, changes, i, e)
             && Touch(Elems(ops), p, changes, o, ops[i].kind.home, Participants(p, ops[i].kind.fields))
  }

  function Ends(p: Projection, o: Op): set<UserId>
    requires o.kind.RecordSettlement?
  {
    {Known(p, o.kind.from), Known(p, o.kind.to)}
  }

  ghost predicate EntersPayment(s: set<Op>, p: Projection, changes: set<Op>, o: Op, t: SettlementId) {
    o.kind.RecordSettlement? && o.kind.settlement == t && !TakenBack(s, o)
    && Touch(s, p, changes, o, o.kind.home, Ends(p, o))
  }

  ghost predicate OwnsPayment(ops: seq<Op>, p: Projection, changes: set<Op>, i: nat, t: SettlementId) {
    var s := Elems(ops);
    && i < |ops| && EntersPayment(s, p, changes, ops[i], t)
    && (forall j | 0 <= j < |ops| && EntersPayment(s, p, changes, ops[j], t) :: HlcLe(ops[j].hlc, ops[i].hlc))
    && (forall j | 0 <= j < i && EntersPayment(s, p, changes, ops[j], t) :: ops[j].hlc != ops[i].hlc)
  }

  ghost predicate MayActOnPayment(ops: seq<Op>, p: Projection, changes: set<Op>, o: Op, t: SettlementId) {
    exists i: nat :: OwnsPayment(ops, p, changes, i, t)
             && Touch(Elems(ops), p, changes, o, ops[i].kind.home, Ends(p, ops[i]))
  }

  /** The policy, by kind of op. */
  ghost predicate Allowed(ops: seq<Op>, p: Projection, changes: set<Op>, o: Op) {
    var s := Elems(ops);
    !TakenBack(s, o) &&
    match o.kind
    case CreateGroup(g, _) => Founder(s, p, g, By(p, o))
    case SetGroupName(g, _) => Member(s, p, changes, g, By(p, o), OrderOf(o))
    case SetGroupCurrency(g, _) => Member(s, p, changes, g, By(p, o), OrderOf(o))
    case SetClosedPeriod(g, _) => Member(s, p, changes, g, By(p, o), OrderOf(o))
    case CreateExpense(_, home, fields, _) => Touch(s, p, changes, o, home, Participants(p, fields))
    case EditExpense(e, _) => MayActOn(ops, p, changes, o, e)
    case PublishExpense(e) => MayActOn(ops, p, changes, o, e)
    case VoidExpense(e) => MayActOn(ops, p, changes, o, e)
    case SetExpenseLock(e, _) => MayActOn(ops, p, changes, o, e)
    case RecordSettlement(_, home, _, _, _) => Touch(s, p, changes, o, home, Ends(p, o))
    case VoidSettlement(t) => MayActOnPayment(ops, p, changes, o, t)
    case AddAlias(x, y) =>
      Speaker(p, o.author) == x || Speaker(p, o.author) == y || (IsPlaceholder(x) && IsPlaceholder(y))
    case UpsertProfile(u, _) => By(p, o) == Known(p, u) || IsPlaceholder(Known(p, u))
    case SetAgreementKey(u, _) => By(p, o) == Known(p, u)
    case _ => false
  }

  lemma {:induction false} TouchMeans(
      ops: seq<Op>, changes: set<Op>, o: Op, home: Option<GroupId>, parties: set<UserId>)
    requires IdsUnique(Elems(ops)) && Roster(Elems(ops), FoldOf(ops), changes)
    ensures var st := StandingOf(Elems(ops));
            Touch(Elems(ops), FoldOf(ops), changes, o, home, parties)
            <==> MayTouch(st, ActorOf(st, o), OrderOf(o), home, parties)
  {
    hide FoldOf, StandingOf, Roster, Member, IsMemberAsOf, By, ActorOf, IsFriend, Declares, AcceptedOf;
    var p, st := FoldOf(ops), StandingOf(Elems(ops));
    ReadsAuthors(ops);
    match home {
      case Some(g) => MembersShown(ops, changes);
      case None =>
        forall u ensures Friends(p, By(p, o), u) <==> IsFriend(st, By(p, o), u) {
          FriendsShownIff(ops, By(p, o), u);
          FriendsShownIff(ops, u, By(p, o));
          FriendsAreShown(ops, By(p, o), u);
        }
    }
  }

  lemma {:induction false} ReadsParties(ops: seq<Op>)
    requires IdsUnique(Elems(ops))
    ensures var p, st := FoldOf(ops), StandingOf(Elems(ops));
            && (forall f :: Participants(p, f) == PartiesOf(st, f))
            && (forall o: Op | o.kind.RecordSettlement? ::
                  Ends(p, o) == SettlementParties(st, o.kind.from, o.kind.to))
  {
    hide FoldOf, StandingOf, Known, Resolve, By, ActorOf, RawActor;
    ReadsAuthors(ops);
    var p, st := FoldOf(ops), StandingOf(Elems(ops));
    forall f ensures Participants(p, f) == PartiesOf(st, f) {
      assert (set u | u in f.paidBy :: Known(p, u)) == set u | u in f.paidBy.Keys :: Resolve(st.aliases, u);
    }
  }

  /** The creates and records that count are the ones the authority binds entities to. */
  lemma {:induction false} EntersMeans(ops: seq<Op>, changes: set<Op>, o: Op)
    requires IdsUnique(Elems(ops)) && Roster(Elems(ops), FoldOf(ops), changes)
    ensures var s, p, st := Elems(ops), FoldOf(ops), StandingOf(Elems(ops));
            && (forall e :: Enters(s, p, changes, o, e) <==> Writes(o, ExpenseBinder(st), e))
            && (forall t :: EntersPayment(s, p, changes, o, t) <==> Writes(o, SettlementBinder(st), t))
            && (TakenBack(s, o) <==> RevokedAt(st.devices, o))
  {
    hide FoldOf, StandingOf, Roster, Touch, MayTouch, ActorOf, Participants, PartiesOf, Ends, SettlementParties;
    hide TakenBack, RevokedAt, DevicesOf;
    ReadsDevices(ops);
    TakenBackIsRevokedAt(Elems(ops), o);
    ReadsParties(ops);
    var p := FoldOf(ops);
    if o.kind.CreateExpense? { TouchMeans(ops, changes, o, o.kind.home, Participants(p, o.kind.fields)); }
    if o.kind.RecordSettlement? { TouchMeans(ops, changes, o, o.kind.home, Ends(p, o)); }
  }

  lemma {:induction false} ActingOnMeans(ops: seq<Op>, changes: set<Op>, o: Op, e: ExpenseId)
    requires IdsUnique(Elems(ops)) && Roster(Elems(ops), FoldOf(ops), changes)
    ensures var a := AuthorityOf(ops);
            MayActOn(ops, FoldOf(ops), changes, o, e)
            <==> ExpenseEntitled(a, e, ActorOf(a.standing, o), OrderOf(o))
  {
    hide FoldOf, StandingOf, Roster, Touch, IsMemberAsOf, FriendOpOk, ActorOf, Participants, PartiesOf, Enters;
    hide Register, MayCreate;
    var st, p, a := StandingOf(Elems(ops)), FoldOf(ops), AuthorityOf(ops);
    var w := ExpenseBinder(st);
    ReadsParties(ops);
    forall i | 0 <= i < |ops| ensures Enters(Elems(ops), p, changes, ops[i], e) <==> Writes(ops[i], w, e) {
      EntersMeans(ops, changes, ops[i]);
    }
    OwnsIsDecides(ops, changes, w, e);
    RegisterKeys(ops, w, e);
    if i: nat :| Owns(ops, p, changes, i, e) { assert ops[i] in ops && Writes(ops[i], w, e); }
    if e in a.expenseGroup {
      var i := RegisterDecided(ops, w, e);
      forall j: nat | Owns(ops, p, changes, j, e) ensures j == i { DecidersMeet(ops, w, w, e, i, j); }
      TouchMeans(ops, changes, o, ops[i].kind.home, Participants(p, ops[i].kind.fields));
    }
  }

  lemma OwnsIsDecides(ops: seq<Op>, changes: set<Op>, w: Op -> Option<(ExpenseId, Binding)>, e: ExpenseId)
    requires IdsUnique(Elems(ops))
    requires forall i | 0 <= i < |ops| :: Enters(Elems(ops), FoldOf(ops), changes, ops[i], e) <==> Writes(ops[i], w, e)
    ensures forall i: nat :: Owns(ops, FoldOf(ops), changes, i, e) <==> Decides(ops, w, e, i)
  {
    hide FoldOf, Enters;
  }

  lemma {:induction false} ActingOnPaymentMeans(ops: seq<Op>, changes: set<Op>, o: Op, t: SettlementId)
    requires IdsUnique(Elems(ops)) && Roster(Elems(ops), FoldOf(ops), changes)
    ensures var a := AuthorityOf(ops);
            MayActOnPayment(ops, FoldOf(ops), changes, o, t)
            <==> SettlementEntitled(a, t, ActorOf(a.standing, o), OrderOf(o))
  {
    hide FoldOf, StandingOf, Roster, Touch, IsMemberAsOf, FriendOpOk, ActorOf, Ends, SettlementParties, EntersPayment;
    hide Register, MayCreate;
    var st, p, a := StandingOf(Elems(ops)), FoldOf(ops), AuthorityOf(ops);
    var w := SettlementBinder(st);
    ReadsParties(ops);
    forall i | 0 <= i < |ops| ensures EntersPayment(Elems(ops), p, changes, ops[i], t) <==> Writes(ops[i], w, t) {
      EntersMeans(ops, changes, ops[i]);
    }
    OwnsPaymentIsDecides(ops, changes, w, t);
    RegisterKeys(ops, w, t);
    if i: nat :| OwnsPayment(ops, p, changes, i, t) { assert ops[i] in ops && Writes(ops[i], w, t); }
    if t in a.settlementGroup {
      var i := RegisterDecided(ops, w, t);
      forall j: nat | OwnsPayment(ops, p, changes, j, t) ensures j == i { DecidersMeet(ops, w, w, t, i, j); }
      TouchMeans(ops, changes, o, ops[i].kind.home, Ends(p, ops[i]));
    }
  }

  lemma OwnsPaymentIsDecides(ops: seq<Op>, changes: set<Op>, w: Op -> Option<(SettlementId, Binding)>, t: SettlementId)
    requires IdsUnique(Elems(ops))
    requires forall i | 0 <= i < |ops| ::
      EntersPayment(Elems(ops), FoldOf(ops), changes, ops[i], t) <==> Writes(ops[i], w, t)
    ensures forall i: nat :: OwnsPayment(ops, FoldOf(ops), changes, i, t) <==> Decides(ops, w, t, i)
  {
    hide FoldOf, EntersPayment;
  }

  /** Exactly the ops the policy allows may fold, whether the log holds them or not. */
  lemma {:induction false} VerdictsFollowPolicy(ops: seq<Op>, changes: set<Op>, o: Op)
    requires IdsUnique(Elems(ops)) && Roster(Elems(ops), FoldOf(ops), changes)
    ensures Entitled(AuthorityOf(ops), o) <==> Allowed(ops, FoldOf(ops), changes, o)
  {
    hide FoldOf, StandingOf, AuthorityOf, Roster, Touch, MayTouch, IsMemberAsOf, ActorOf, RawActor, Resolve, Known, By;
    hide Participants, PartiesOf, Ends, SettlementParties, MayActOn, MayActOnPayment, ExpenseEntitled;
    hide SettlementEntitled, Member, Founder, TakenBack, RevokedAt, AcceptedOf, Speaker, IsPlaceholder;
    var p, st := FoldOf(ops), StandingOf(Elems(ops));
    AuthorityStands(ops);
    ReadsAuthors(ops);
    ReadsParties(ops);
    EntersMeans(ops, changes, o);
    MembersShown(ops, changes);
    match o.kind {
      case CreateGroup(g, _) => FoundersAre(ops, g, By(p, o));
      case CreateExpense(_, home, fields, _) => TouchMeans(ops, changes, o, home, Participants(p, fields));
      case EditExpense(e, _) => ActingOnMeans(ops, changes, o, e);
      case PublishExpense(e) => ActingOnMeans(ops, changes, o, e);
      case VoidExpense(e) => ActingOnMeans(ops, changes, o, e);
      case SetExpenseLock(e, _) => ActingOnMeans(ops, changes, o, e);
      case RecordSettlement(_, home, _, _, _) => TouchMeans(ops, changes, o, home, Ends(p, o));
      case VoidSettlement(t) => ActingOnPaymentMeans(ops, changes, o, t);
      case _ =>
    }
  }

  // ---------- Whose names and keys are shown ----------

  /** An op of the log, not taken back, by which a user sets its own key. */
  ghost predicate SetsOwnKey(s: set<Op>, p: Projection, o: Op, u: UserId) {
    o in s && o.kind.SetAgreementKey? && o.kind.user == u && !TakenBack(s, o) && By(p, o) == Known(p, u)
  }

  /** An op of the log, not taken back, by which a user names itself, or anyone names a guest. */
  ghost predicate NamesUser(s: set<Op>, p: Projection, o: Op, u: UserId) {
    && o in s && o.kind.UpsertProfile? && o.kind.user == u && !TakenBack(s, o)
    && (By(p, o) == Known(p, u) || IsPlaceholder(Known(p, u)))
  }

  /** An op of the log, not taken back, by which the founder creates the group or a member renames it. */
  ghost predicate SetsGroupName(s: set<Op>, p: Projection, changes: set<Op>, o: Op, g: GroupId) {
    && o in s && !TakenBack(s, o)
    && ((o.kind.CreateGroup? && o.kind.group == g && Founder(s, p, g, By(p, o)))
        || (o.kind.SetGroupName? && o.kind.group == g && Member(s, p, changes, g, By(p, o), OrderOf(o))))
  }

  lemma {:induction false} CountedAre(ops: seq<Op>, changes: set<Op>, u: UserId, g: GroupId)
    requires IdsUnique(Elems(ops)) && Roster(Elems(ops), FoldOf(ops), changes)
    ensures var s, p := Elems(ops), FoldOf(ops);
            && (forall o :: SetsOwnKey(s, p, o, u) <==> Counts(ops, o) && KeysOf(u)(o))
            && (forall o :: NamesUser(s, p, o, u) <==> Counts(ops, o) && ProfilesOf(u)(o))
            && (forall o :: SetsGroupName(s, p, changes, o, g) <==> Counts(ops, o) && NamesOfGroup(g)(o))
  {
    hide FoldOf, AuthorityOf, Entitled, Roster, Member, Founder, TakenBack, By, Known, MayActOn, MayActOnPayment, Touch;
    hide IsPlaceholder, Participants, Ends;
    forall o ensures Entitled(AuthorityOf(ops), o) <==> Allowed(ops, FoldOf(ops), changes, o) {
      VerdictsFollowPolicy(ops, changes, o);
    }
  }

  /** The key shown for a user is the latest that the user itself has set. */
  lemma {:induction false} KeyShownIsOwn(ops: seq<Op>, u: UserId)
    requires IdsUnique(Elems(ops)) && u in FoldOf(ops).users
    ensures var s, p := Elems(ops), FoldOf(ops);
            match p.users[u].agreementPub
            case None => forall o :: !SetsOwnKey(s, p, o, u)
            case Some(k) =>
              exists o :: SetsOwnKey(s, p, o, u) && o.kind.key == k
                       && forall q | SetsOwnKey(s, p, q, u) :: HlcLe(q.hlc, o.hlc)
  {
    hide FoldOf, SetsOwnKey, NamesUser, SetsGroupName, AcceptedOf, Roster, HlcLe;
    MembersShown(ops, AcceptedOf(Elems(ops)));
    CountedAre(ops, AcceptedOf(Elems(ops)), u, "");
    var profile, key := UserContents(ops, u);
  }

  /** A user is shown exactly when named by itself, or as a guest by anyone; and under the latest such name. */
  lemma {:induction false} NameShownIsOwn(ops: seq<Op>, u: UserId)
    requires IdsUnique(Elems(ops))
    ensures var s, p := Elems(ops), FoldOf(ops);
            && (u in p.users <==> exists o :: NamesUser(s, p, o, u))
            && (u in p.users ==>
                  exists o :: NamesUser(s, p, o, u) && p.users[u].name == o.kind.name
                           && forall q | NamesUser(s, p, q, u) :: HlcLe(q.hlc, o.hlc))
  {
    hide FoldOf, SetsOwnKey, NamesUser, SetsGroupName, AcceptedOf, Roster, HlcLe;
    MembersShown(ops, AcceptedOf(Elems(ops)));
    CountedAre(ops, AcceptedOf(Elems(ops)), u, "");
    var profile, key := UserContents(ops, u);
  }

  /** A group shows the latest name that its founder gave on creating it or a member since. */
  lemma {:induction false} GroupNameShown(ops: seq<Op>, changes: set<Op>, g: GroupId)
    requires IdsUnique(Elems(ops)) && Roster(Elems(ops), FoldOf(ops), changes) && g in FoldOf(ops).groups
    ensures var s, p := Elems(ops), FoldOf(ops);
            exists o :: SetsGroupName(s, p, changes, o, g) && p.groups[g].name == o.kind.name
                     && forall q | SetsGroupName(s, p, changes, q, g) :: HlcLe(q.hlc, o.hlc)
  {
    hide FoldOf, SetsOwnKey, NamesUser, AcceptedOf, Roster, HlcLe, Never, Member, Founder, TakenBack;
    CountedAre(ops, changes, "", g);
    var named, priced, closed := GroupContents(ops, g);
  }
}
