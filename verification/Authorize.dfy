// Who may do what, derived only from the set of ops: device certificates, alias edges, founders,
// the accepted membership changes, friendships, and the group and parties each expense or
// settlement is bound to. Every stage but the bindings is a function of the *set* of ops; the
// bindings are last-writer-wins registers and so depend on the order of ops with equal clocks.
module Authorization {
  import opened Ordering
  import opened Operations
  import opened Aliases
  import opened Registers

  // ---------- Devices ----------

  datatype Cert = Cert(hlc: Hlc, identity: PublicKey, site: U64)

  predicate CertLe(a: Cert, b: Cert) {
    || a == b
    || HlcLt(a.hlc, b.hlc)
    || (a.hlc == b.hlc && a.identity != b.identity && StrLe(a.identity.hex, b.identity.hex))
    || (a.hlc == b.hlc && a.identity == b.identity && a.site < b.site)
  }

  datatype Devices = Devices(authorized: map<PublicKey, Cert>, revoked: map<PublicKey, Hlc>)

  /** The identity a key acts for: its certificate's, or itself when it has none. */
  function IdentityOf(d: Devices, author: PublicKey): PublicKey {
    if author in d.authorized then d.authorized[author].identity else author
  }

  predicate RevokedAt(d: Devices, op: Op) {
    op.author in d.revoked && HlcLe(d.revoked[op.author], op.hlc)
  }

  /** Root-only enrolment: certificates and revocations count only when signed by the identity itself. */
  predicate IsGrant(op: Op) { op.kind.AuthorizeDevice? && op.author == op.kind.identity }

  predicate IsRevocation(op: Op) { op.kind.RevokeDevice? && op.author == op.kind.identity }

  function CertOf(op: Op): Cert
    requires op.kind.AuthorizeDevice?
  {
    Cert(op.hlc, op.kind.identity, op.kind.deviceSite)
  }

  ghost function Grants(s: set<Op>, device: PublicKey): set<Cert> {
    set o | o in s && IsGrant(o) && o.kind.device == device :: CertOf(o)
  }

  ghost function Revocations(s: set<Op>, device: PublicKey): set<Hlc> {
    set o | o in s && IsRevocation(o) && o.kind.device == device :: o.hlc
  }

  lemma {:induction false} CertsTotal(s: set<Cert>)
    ensures TotalOn(s, CertLe)
  {
    var hexes := set c | c in s :: c.identity.hex;
    StrTotal(hexes);
    assert forall c | c in s :: c.identity.hex in hexes;
  }

  lemma HlcsTotal(s: set<Hlc>)
    ensures TotalOn(s, HlcLe)
  {}

  ghost function Certified(s: set<Op>): set<PublicKey> { set o | o in s && IsGrant(o) :: o.kind.device }

  ghost function RevokedDevices(s: set<Op>): set<PublicKey> { set o | o in s && IsRevocation(o) :: o.kind.device }

  ghost function GreatestCert(certs: set<Cert>): (c: Cert)
    requires certs != {}
    ensures c in certs && forall x | x in certs :: CertLe(x, c)
  {
    CertsTotal(certs);
    Greatest(certs, CertLe)
  }

  ghost function EarliestHlc(hlcs: set<Hlc>): (h: Hlc)
    requires hlcs != {}
    ensures h in hlcs && forall x | x in hlcs :: HlcLe(h, x)
  {
    HlcsTotal(hlcs);
    Least(hlcs, HlcLe)
  }

  /** The greatest certificate of each certified device, and the earliest revocation of each revoked one. */
  ghost function DevicesOf(s: set<Op>): Devices {
    Devices(
      map d | d in Certified(s) :: (GrantExists(s, d); GreatestCert(Grants(s, d))),
      map d | d in RevokedDevices(s) :: (RevocationExists(s, d); EarliestHlc(Revocations(s, d))))
  }

  lemma {:induction false} GrantExists(s: set<Op>, d: PublicKey)
    ensures d in Certified(s) <==> Grants(s, d) != {}
  {
    if o :| o in s && IsGrant(o) && o.kind.device == d { assert CertOf(o) in Grants(s, d); }
  }

  lemma {:induction false} RevocationExists(s: set<Op>, d: PublicKey)
    ensures d in RevokedDevices(s) <==> Revocations(s, d) != {}
  {
    if o :| o in s && IsRevocation(o) && o.kind.device == d { assert o.hlc in Revocations(s, d); }
  }

  // ---------- Actors and aliases ----------

  /** The identity behind an op, before alias resolution. */
  function RawActor(d: Devices, op: Op): UserId { UserIdFor(IdentityOf(d, op.author)) }

  function Actor(d: Devices, aliases: map<UserId, UserId>, op: Op): UserId { Resolve(aliases, RawActor(d, op)) }

  predicate AliasAuthorized(rawActor: UserId, alias: UserId, canonical: UserId) {
    rawActor == alias || rawActor == canonical || (IsPlaceholder(alias) && IsPlaceholder(canonical))
  }

  predicate IsEdge(d: Devices, op: Op) {
    && op.kind.AddAlias?
    && !RevokedAt(d, op)
    && AliasAuthorized(RawActor(d, op), op.kind.alias, op.kind.canonical)
  }

  function EdgeOf(op: Op): Edge
    requires op.kind.AddAlias?
  {
    (op.kind.alias, op.kind.canonical)
  }

  ghost function AliasEdges(s: set<Op>, d: Devices): set<Edge> { set o | o in s && IsEdge(d, o) :: EdgeOf(o) }

  // ---------- Friendships ----------

  predicate IsDeclaration(d: Devices, aliases: map<UserId, UserId>, op: Op) {
    op.kind.DeclareFriend? && !RevokedAt(d, op) && Actor(d, aliases, op) != Resolve(aliases, op.kind.other)
  }

  function DeclarationOf(d: Devices, aliases: map<UserId, UserId>, op: Op): (UserId, UserId)
    requires op.kind.DeclareFriend?
  {
    (Actor(d, aliases, op), Resolve(aliases, op.kind.other))
  }

  ghost function Declarations(s: set<Op>, d: Devices, aliases: map<UserId, UserId>): set<(UserId, UserId)> {
    set o | o in s && IsDeclaration(d, aliases, o) :: DeclarationOf(d, aliases, o)
  }

  /** A set of pairs as a map from first components to sets of second components. */
  ghost function Grouped(pairs: set<(UserId, UserId)>): map<UserId, set<UserId>> {
    map a | a in Firsts(pairs) :: Seconds(pairs, a)
  }

  ghost function Seconds(pairs: set<(UserId, UserId)>, a: UserId): set<UserId> {
    set p | p in pairs && p.0 == a :: p.1
  }

  ghost function Firsts(pairs: set<(UserId, UserId)>): set<UserId> { set p | p in pairs :: p.0 }

  // ---------- Founders ----------

  predicate CreatesGroup(d: Devices, op: Op, g: GroupId) {
    op.kind.CreateGroup? && op.kind.group == g && !RevokedAt(d, op)
  }

  ghost function GroupCreates(s: set<Op>, d: Devices, g: GroupId): set<Op> { set o | o in s && CreatesGroup(d, o, g) }

  ghost function CreatedGroups(s: set<Op>, d: Devices): set<GroupId> {
    set o | o in s && o.kind.CreateGroup? && CreatesGroup(d, o, o.kind.group) :: o.kind.group
  }

  /** The earliest unrevoked create of the group. */
  ghost function FoundingOp(s: set<Op>, d: Devices, g: GroupId): (o: Op)
    requires IdsUnique(s) && g in CreatedGroups(s, d)
    ensures o in GroupCreates(s, d, g) && forall p | p in GroupCreates(s, d, g) :: OpLe(o, p)
  {
    var o :| o in s && CreatesGroup(d, o, g);
    assert o in GroupCreates(s, d, g);
    FirstOp(GroupCreates(s, d, g))
  }

  ghost function FoundersOf(s: set<Op>, d: Devices, aliases: map<UserId, UserId>): map<GroupId, UserId>
    requires IdsUnique(s)
  {
    map g | g in CreatedGroups(s, d) :: Actor(d, aliases, FoundingOp(s, d, g))
  }

  // ---------- Membership ----------

  /** What a membership verdict depends on besides the changes themselves. */
  datatype Context = Context(devices: Devices, aliases: map<UserId, UserId>, founders: map<GroupId, UserId>)

  predicate Changes(c: Context, op: Op, g: GroupId, u: UserId) {
    op.kind.SetMembership? && op.kind.group == g && Resolve(c.aliases, op.kind.user) == u
  }

  ghost function ChangesOf(c: Context, accepted: set<Op>, g: GroupId, u: UserId): (r: set<Op>)
    ensures r <= accepted && forall o | o in r :: o.kind.SetMembership?
  {
    set o | o in accepted && Changes(c, o, g, u)
  }

  ghost function Upto(s: set<Op>, at: Order): set<Op> { set o | o in s && OrderLe(OrderOf(o), at) }

  /** The last of the changes decides; with none, only the founder is in. */
  ghost predicate MemberAfter(c: Context, changes: set<Op>, g: GroupId, u: UserId)
    requires IdsUnique(changes) && forall o | o in changes :: o.kind.SetMembership?
  {
    if changes == {} then g in c.founders && c.founders[g] == u
    else LastOp(changes).kind.member
  }

  /** Membership as of `at`, given the accepted changes. */
  ghost predicate MemberAsOf(c: Context, accepted: set<Op>, g: GroupId, u: UserId, at: Order)
    requires IdsUnique(accepted)
  {
    MemberAfter(c, Upto(ChangesOf(c, accepted, g, u), at), g, u)
  }

  /** A change counts when its author is not revoked and was a member just before it. */
  ghost predicate Admits(c: Context, accepted: set<Op>, op: Op)
    requires IdsUnique(accepted) && op.kind.SetMembership?
  {
    !RevokedAt(c.devices, op)
    && MemberAsOf(c, accepted - {op}, op.kind.group, Actor(c.devices, c.aliases, op), OrderOf(op))
  }

  ghost predicate MembershipOps(s: set<Op>) {
    IdsUnique(s) && forall o | o in s :: o.kind.SetMembership?
  }

  /** The changes that count, found by replaying them in order. */
  ghost function Accepted(c: Context, changes: set<Op>): (a: set<Op>)
    requires MembershipOps(changes)
    ensures a <= changes
    decreases |changes|
  {
    if changes == {} then {}
    else
      var last := LastOp(changes);
      var before := Accepted(c, changes - {last});
      if Admits(c, before, last) then before + {last} else before
  }

  ghost function MembershipOf(s: set<Op>): set<Op> { set o | o in s && o.kind.SetMembership? }

  // ---------- Timelines ----------

  datatype Event = Event(at: Order, member: bool)

  type Timelines = map<GroupId, map<UserId, seq<Event>>>

  function Events(t: Timelines, g: GroupId, u: UserId): seq<Event> {
    if g in t && u in t[g] then t[g][u] else []
  }

  /** The member flag of the latest event at or before `at`. */
  function LatestAt(events: seq<Event>, at: Order): Option<bool> {
    if events == [] then None
    else
      var last := events[|events| - 1];
      if OrderLe(last.at, at) then Some(last.member) else LatestAt(events[..|events| - 1], at)
  }

  predicate IsMemberAsOf(t: Timelines, g: GroupId, u: UserId, at: Order) {
    LatestAt(Events(t, g, u), at) == Some(true)
  }

  function CurrentMembers(t: Timelines, g: GroupId): set<UserId> {
    if g in t then set u | u in t[g] && t[g][u] != [] && t[g][u][|t[g][u]| - 1].member else {}
  }

  function EventOf(op: Op): Event
    requires op.kind.SetMembership?
  {
    Event(OrderOf(op), op.kind.member)
  }

  /** A founder is in from the start of time. */
  function Seed(c: Context, g: GroupId, u: UserId): seq<Event> {
    if g in c.founders && c.founders[g] == u then [Event(MIN_ORDER, true)] else []
  }

  ghost predicate Ascending(es: seq<Event>) {
    forall i, j | 0 <= i < j < |es| :: OrderLe(es[i].at, es[j].at)
  }

  /** `es` lists the seed and then the events of `changes` in order; an event may be repeated. */
  ghost predicate IsTimeline(c: Context, changes: set<Op>, g: GroupId, u: UserId, es: seq<Event>)
    requires forall o | o in changes :: o.kind.SetMembership?
  {
    var seed := Seed(c, g, u);
    && |seed| <= |es| && es[..|seed|] == seed
    && Ascending(es[|seed|..])
    && Elems(es[|seed|..]) == set o | o in changes :: EventOf(o)
  }

  ghost predicate Represents(t: Timelines, c: Context, accepted: set<Op>) {
    forall g, u :: IsTimeline(c, ChangesOf(c, accepted, g, u), g, u, Events(t, g, u))
  }

  // ---------- Standing: everything but the bindings ----------

  datatype Standing = Standing(
    devices: Devices,
    aliases: map<UserId, UserId>,
    founders: map<GroupId, UserId>,
    membership: Timelines,
    friendDecls: map<UserId, set<UserId>>)

  ghost function ContextOf(s: set<Op>): Context
    requires IdsUnique(s)
  {
    var d := DevicesOf(s);
    var aliases := AliasMap(AliasEdges(s, d));
    Context(d, aliases, FoundersOf(s, d, aliases))
  }

  ghost function AcceptedOf(s: set<Op>): (a: set<Op>)
    requires IdsUnique(s)
    ensures a <= s && MembershipOps(a)
  {
    Accepted(ContextOf(s), MembershipOf(s))
  }

  /** The timelines that hold each accepted change once. */
  ghost function TimelinesOf(c: Context, accepted: set<Op>): Timelines
    requires MembershipOps(accepted)
  {
    map g | g in GroupsSeen(c, accepted) ::
      map u | u in UsersSeen(c, accepted, g) :: TimelineOf(c, ChangesOf(c, accepted, g, u), g, u)
  }

  ghost function GroupsSeen(c: Context, accepted: set<Op>): set<GroupId>
    requires MembershipOps(accepted)
  {
    c.founders.Keys + set o | o in accepted :: o.kind.group
  }

  ghost function UsersSeen(c: Context, accepted: set<Op>, g: GroupId): set<UserId>
    requires MembershipOps(accepted)
  {
    (if g in c.founders then {c.founders[g]} else {})
    + set o | o in accepted && o.kind.group == g :: Resolve(c.aliases, o.kind.user)
  }

  ghost function TimelineOf(c: Context, changes: set<Op>, g: GroupId, u: UserId): seq<Event>
    requires MembershipOps(changes)
  {
    var ops := InOrder(changes);
    Seed(c, g, u) + seq(|ops|, i requires 0 <= i < |ops| => EventOf(ops[i]))
  }

  ghost function StandingOf(s: set<Op>): Standing
    requires IdsUnique(s)
  {
    var c := ContextOf(s);
    Standing(c.devices, c.aliases, c.founders, TimelinesOf(c, AcceptedOf(s)),
             Grouped(Declarations(s, c.devices, c.aliases)))
  }

  // ---------- Verdicts ----------

  function ActorOf(st: Standing, op: Op): UserId { Actor(st.devices, st.aliases, op) }

  predicate IsFriend(st: Standing, a: UserId, b: UserId) {
    && a in st.friendDecls && b in st.friendDecls[a]
    && b in st.friendDecls && a in st.friendDecls[b]
  }

  /** The actor takes part, and every other real identity among the parties is a confirmed friend. */
  predicate FriendOpOk(st: Standing, actor: UserId, parties: set<UserId>) {
    actor in parties && forall p | p in parties :: p == actor || IsPlaceholder(p) || IsFriend(st, actor, p)
  }

  function PartiesOf(st: Standing, fields: ExpenseFields): set<UserId> {
    (set u | u in fields.paidBy.Keys :: Resolve(st.aliases, u))
    + set s | s in fields.splits :: Resolve(st.aliases, s.user)
  }

  function SettlementParties(st: Standing, from: UserId, to: UserId): set<UserId> {
    {Resolve(st.aliases, from), Resolve(st.aliases, to)}
  }

  /** A group entity needs a member as of the op, a non-group one a friend or guest-only set of parties. */
  predicate MayTouch(st: Standing, actor: UserId, at: Order, home: Option<GroupId>, parties: set<UserId>) {
    match home
    case Some(g) => IsMemberAsOf(st.membership, g, actor, at)
    case None => FriendOpOk(st, actor, parties)
  }

  datatype Binding = Binding(home: Option<GroupId>, parties: set<UserId>)

  predicate MayCreate(st: Standing, op: Op)
    requires op.kind.CreateExpense? || op.kind.RecordSettlement?
  {
    var parties :=
      if op.kind.CreateExpense? then PartiesOf(st, op.kind.fields)
      else SettlementParties(st, op.kind.from, op.kind.to);
    !RevokedAt(st.devices, op) && MayTouch(st, ActorOf(st, op), OrderOf(op), op.kind.home, parties)
  }

  function BindExpense(st: Standing, op: Op): Option<(ExpenseId, Binding)> {
    if op.kind.CreateExpense? && MayCreate(st, op)
    then Some((op.kind.expense, Binding(op.kind.home, PartiesOf(st, op.kind.fields))))
    else None
  }

  function BindSettlement(st: Standing, op: Op): Option<(SettlementId, Binding)> {
    if op.kind.RecordSettlement? && MayCreate(st, op)
    then Some((op.kind.settlement, Binding(op.kind.home, SettlementParties(st, op.kind.from, op.kind.to))))
    else None
  }

  function ExpenseBinder(st: Standing): Op -> Option<(ExpenseId, Binding)> { op => BindExpense(st, op) }

  function SettlementBinder(st: Standing): Op -> Option<(SettlementId, Binding)> { op => BindSettlement(st, op) }

  datatype Authority = Authority(
    standing: Standing,
    expenseGroup: map<ExpenseId, Option<GroupId>>,
    expenseParties: map<ExpenseId, set<UserId>>,
    settlementGroup: map<SettlementId, Option<GroupId>>,
    settlementParties: map<SettlementId, set<UserId>>)

  function HomesOf(r: map<string, Stamped<Binding>>): map<string, Option<GroupId>> {
    map k | k in r :: r[k].value.home
  }

  function PartySetsOf(r: map<string, Stamped<Binding>>): map<string, set<UserId>> {
    map k | k in r :: r[k].value.parties
  }

  ghost function BoundBy(st: Standing, ops: seq<Op>): Authority {
    var e := Register(ops, ExpenseBinder(st));
    var s := Register(ops, SettlementBinder(st));
    Authority(st, HomesOf(e), PartySetsOf(e), HomesOf(s), PartySetsOf(s))
  }

  /** The whole-set authorization view of a sequence of ops. */
  ghost function AuthorityOf(ops: seq<Op>): Authority
    requires IdsUnique(Elems(ops))
  {
    BoundBy(StandingOf(Elems(ops)), ops)
  }

  predicate DependentOk(st: Standing, homes: map<string, Option<GroupId>>, parties: map<string, set<UserId>>,
                        id: string, actor: UserId, at: Order)
  {
    id in homes &&
    match homes[id]
    case Some(g) => IsMemberAsOf(st.membership, g, actor, at)
    case None => id in parties && FriendOpOk(st, actor, parties[id])
  }

  predicate ExpenseEntitled(a: Authority, expense: ExpenseId, actor: UserId, at: Order) {
    DependentOk(a.standing, a.expenseGroup, a.expenseParties, expense, actor, at)
  }

  predicate SettlementEntitled(a: Authority, settlement: SettlementId, actor: UserId, at: Order) {
    DependentOk(a.standing, a.settlementGroup, a.settlementParties, settlement, actor, at)
  }

  /** Whether a value op may fold. */
  predicate Entitled(a: Authority, op: Op) {
    var st := a.standing;
    var actor := ActorOf(st, op);
    var at := OrderOf(op);
    !RevokedAt(st.devices, op) &&
    match op.kind
    case CreateGroup(g, _) => g in st.founders && st.founders[g] == actor
    case SetGroupName(g, _) => IsMemberAsOf(st.membership, g, actor, at)
    case SetGroupCurrency(g, _) => IsMemberAsOf(st.membership, g, actor, at)
    case SetClosedPeriod(g, _) => IsMemberAsOf(st.membership, g, actor, at)
    case SetMembership(_, _, _) => false
    case CreateExpense(_, home, fields, _) => MayTouch(st, actor, at, home, PartiesOf(st, fields))
    case EditExpense(e, _) => ExpenseEntitled(a, e, actor, at)
    case PublishExpense(e) => ExpenseEntitled(a, e, actor, at)
    case VoidExpense(e) => ExpenseEntitled(a, e, actor, at)
    case SetExpenseLock(e, _) => ExpenseEntitled(a, e, actor, at)
    case RecordSettlement(_, home, from, to, _) => MayTouch(st, actor, at, home, SettlementParties(st, from, to))
    case VoidSettlement(s) => SettlementEntitled(a, s, actor, at)
    case DeclareFriend(_) => false
    case AddAlias(alias, canonical) => AliasAuthorized(RawActor(st.devices, op), alias, canonical)
    case UpsertProfile(user, _) => var u := Resolve(st.aliases, user); actor == u || IsPlaceholder(u)
    case SetAgreementKey(user, _) => actor == Resolve(st.aliases, user)
    case AuthorizeDevice(_, _, _) => false
    case RevokeDevice(_, _) => false
  }

  // ---------- Views for the projection ----------

  datatype DeviceRecord = DeviceRecord(identity: PublicKey, site: U64, revoked: bool)

  function DeviceRecords(d: Devices): map<PublicKey, DeviceRecord> {
    map k | k in d.authorized :: DeviceRecord(d.authorized[k].identity, d.authorized[k].site, k in d.revoked)
  }

  /** The mutual declarations, by user. */
  function ConfirmedFriends(st: Standing): map<UserId, set<UserId>> {
    map a | a in st.friendDecls && (exists b :: b in st.friendDecls[a] && IsFriend(st, a, b)) ::
      (set b | b in st.friendDecls[a] && IsFriend(st, a, b))
  }
}
