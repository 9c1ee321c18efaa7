// The units of the log: hybrid logical clocks, the operation vocabulary, content-addressed ids
// and the verification of a signed op.
module Operations {
  import opened Ordering

  type U32 = x: int | 0 <= x < 0x1_0000_0000
  type U64 = x: int | 0 <= x < 0x1_0000_0000_0000_0000

  type UserId = string
  type GroupId = string
  type ExpenseId = string
  type SettlementId = string

  /** Hybrid logical clock; field order is comparison order. */
  datatype Hlc = Hlc(wall: U64, counter: U32, site: U64)

  predicate HlcLt(a: Hlc, b: Hlc) {
    a.wall < b.wall || (a.wall == b.wall && (a.counter < b.counter || (a.counter == b.counter && a.site < b.site)))
  }

  predicate HlcLe(a: Hlc, b: Hlc) { a == b || HlcLt(a, b) }

  /** A 32-byte key or digest read as a big-endian number: byte-array order is number order. */
  type OpId = nat

  /** A public key, given by its lower-case hexadecimal form, whose order is the byte order. */
  datatype PublicKey = PublicKey(hex: string)

  datatype Split = Split(user: UserId, owed: int)

  /** `details` stands for the fields no computation reads: description, category, notes, date, original amount. */
  datatype ExpenseFields = ExpenseFields(paidBy: map<UserId, int>, total: int, splits: seq<Split>, details: string)

  datatype OpKind =
    | CreateGroup(group: GroupId, name: string)
    | SetGroupName(group: GroupId, name: string)
    | SetGroupCurrency(group: GroupId, currency: string)
    | SetMembership(group: GroupId, user: UserId, member: bool)
    | CreateExpense(expense: ExpenseId, home: Option<GroupId>, fields: ExpenseFields, draft: bool)
    | EditExpense(expense: ExpenseId, fields: ExpenseFields)
    | PublishExpense(expense: ExpenseId)
    | VoidExpense(expense: ExpenseId)
    | SetExpenseLock(expense: ExpenseId, locked: bool)
    | SetClosedPeriod(group: GroupId, untilMs: int)
    | RecordSettlement(settlement: SettlementId, home: Option<GroupId>, from: UserId, to: UserId, amount: int)
    | VoidSettlement(settlement: SettlementId)
    | AddAlias(alias: UserId, canonical: UserId)
    | DeclareFriend(other: UserId)
    | UpsertProfile(user: UserId, name: string)
    | SetAgreementKey(user: UserId, key: string)
    | AuthorizeDevice(identity: PublicKey, device: PublicKey, deviceSite: U64)
    | RevokeDevice(identity: PublicKey, device: PublicKey)

  datatype Option<+T> = None | Some(value: T)

  /** An op without its signature, which is all the fold reads. */
  datatype Op = Op(id: OpId, hlc: Hlc, author: PublicKey, kind: OpKind)

  type Signature = string

  datatype SignedOp = SignedOp(op: Op, sig: Signature)

  // ---------- The order of ops: HLC, then content id ----------

  datatype Order = Order(hlc: Hlc, id: OpId)

  predicate OrderLt(a: Order, b: Order) { HlcLt(a.hlc, b.hlc) || (a.hlc == b.hlc && a.id < b.id) }

  predicate OrderLe(a: Order, b: Order) { a == b || OrderLt(a, b) }

  function OrderOf(op: Op): Order { Order(op.hlc, op.id) }

  /** A clock value as one number: wall time first, then counter, then site. */
  function StampOf(h: Hlc): int { (h.wall * 0x1_0000_0000 + h.counter) * 0x1_0000_0000_0000_0000 + h.site }

  /** Clocks are ordered as those numbers, and ops by clock and then by id. */
  lemma {:induction false} OrderIsByStamp(a: Order, b: Order)
    ensures HlcLt(a.hlc, b.hlc) <==> StampOf(a.hlc) < StampOf(b.hlc)
    ensures StampOf(a.hlc) == StampOf(b.hlc) <==> a.hlc == b.hlc
    ensures OrderLt(a, b)
       <==> StampOf(a.hlc) < StampOf(b.hlc) || (StampOf(a.hlc) == StampOf(b.hlc) && a.id < b.id)
  {
    assert OrderLt(a, b) <==> HlcLt(a.hlc, b.hlc) || (a.hlc == b.hlc && a.id < b.id);
  }

  /** Not later than any op. */
  const MIN_ORDER := Order(Hlc(0, 0, 0), 0)

  predicate OpLe(a: Op, b: Op) { OrderLe(OrderOf(a), OrderOf(b)) }

  /** Ids are content-addressed: within the set an id names one op. */
  ghost predicate IdsUnique(s: set<Op>) {
    forall a, b {:trigger SameId(a, b)} | a in s && b in s && SameId(a, b) :: a == b
  }

  ghost predicate SameId(a: Op, b: Op) { a.id == b.id }

  /** No two ops of the set carry the same clock value. */
  ghost predicate DistinctHlcs(s: set<Op>) {
    forall a, b | a in s && b in s && a.hlc == b.hlc :: a == b
  }

  ghost function Elems<T>(ops: seq<T>): set<T> { set o | o in ops }

  lemma {:induction false} OpsTotal(s: set<Op>)
    requires IdsUnique(s)
    ensures TotalOn(s, OpLe)
  {
    assert forall a, b {:trigger OpLe(a, b), OpLe(b, a)} :: OpLe(a, b) && OpLe(b, a) ==> SameId(a, b);
  }

  lemma OrderFacts(a: Op, b: Op, at: Order)
    ensures OpLe(a, b) && OpLe(b, a) ==> SameId(a, b)
    ensures OpLe(a, b) && OrderLe(OrderOf(b), at) ==> OrderLe(OrderOf(a), at)
  {}

  lemma MinOrderFirst(at: Order)
    ensures OrderLe(MIN_ORDER, at)
  {}

  ghost function FirstOp(s: set<Op>): (o: Op)
    requires IdsUnique(s) && s != {}
    ensures o in s && forall p | p in s :: OpLe(o, p)
  {
    OpsTotal(s);
    Least(s, OpLe)
  }

  ghost function LastOp(s: set<Op>): (o: Op)
    requires IdsUnique(s) && s != {}
    ensures o in s && forall p | p in s :: OpLe(p, o)
  {
    OpsTotal(s);
    Greatest(s, OpLe)
  }

  ghost function InOrder(s: set<Op>): (ops: seq<Op>)
    requires IdsUnique(s)
    ensures Elems(ops) == s && |ops| == |s|
    ensures forall i, j | 0 <= i < j < |ops| :: OpLe(ops[i], ops[j]) && ops[i] != ops[j]
  {
    OpsTotal(s);
    Sorted(s, OpLe)
  }

  // ---------- Identities ----------

  function UserIdFor(key: PublicKey): UserId { "id:" + key.hex }

  predicate IsPlaceholder(user: UserId) { "user:" <= user }

  /** Distinct keys have distinct user ids, none is a placeholder, and each sorts before every placeholder. */
  lemma {:induction false} IdentityIds(a: PublicKey, b: PublicKey, guest: UserId)
    ensures UserIdFor(a) == UserIdFor(b) ==> a == b
    ensures !IsPlaceholder(UserIdFor(a))
    ensures IsPlaceholder(guest) <==> exists name :: guest == "user:" + name
    ensures IsPlaceholder(guest) ==> StrLe(UserIdFor(a), guest) && !StrLe(guest, UserIdFor(a))
  {
    assert UserIdFor(a)[3..] == a.hex && UserIdFor(b)[3..] == b.hex;
    assert UserIdFor(a)[0] == 'i';
    if IsPlaceholder(guest) { assert guest == "user:" + guest[5..]; }
    if IsPlaceholder(guest) { assert guest[0] == "user:"[0] == 'u'; }
  }

  // ---------- Verification ----------

  datatype Content = Content(hlc: Hlc, author: PublicKey, kind: OpKind)

  function ContentOf(op: Op): Content { Content(op.hlc, op.author, op.kind) }

  /** The primitives an op is checked with, which are not part of this model. */
  datatype Crypto = Crypto(hash: Content -> OpId, signs: (PublicKey, Content, Signature) -> bool)

  datatype VerifyError = HashMismatch | BadSignature

  function Verify(c: Crypto, o: SignedOp): Option<VerifyError> {
    if c.hash(ContentOf(o.op)) != o.op.id then Some(HashMismatch)
    else if !c.signs(o.op.author, ContentOf(o.op), o.sig) then Some(BadSignature)
    else None
  }

  /** An op verifies when its id is its hash and its author signed it; the hash is checked first. */
  lemma VerifyMeaning(c: Crypto, o: SignedOp)
    ensures var content := Content(o.op.hlc, o.op.author, o.op.kind);
            && (Verify(c, o) == None <==> c.hash(content) == o.op.id && c.signs(o.op.author, content, o.sig))
            && (Verify(c, o) == Some(HashMismatch) <==> c.hash(content) != o.op.id)
  {}

  ghost predicate CollisionFree(c: Crypto) {
    forall a, b :: c.hash(a) == c.hash(b) ==> a == b
  }

  /** The id is the hash of the content. */
  predicate Genuine(c: Crypto, op: Op) { c.hash(ContentOf(op)) == op.id }

  /** Ops that verify are told apart by their ids, whatever their signatures. */
  lemma {:induction false} GenuineIdsUnique(c: Crypto, s: set<Op>)
    requires CollisionFree(c)
    requires forall o | o in s :: Genuine(c, o)
    ensures IdsUnique(s)
  {
    forall a, b | a in s && b in s && SameId(a, b) ensures a == b {
      assert ContentOf(a) == ContentOf(b);
    }
  }
}
