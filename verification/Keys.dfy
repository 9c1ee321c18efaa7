// Whom a key acts for, and who has a say in it. Certificates and revocations count when the identity
// that signs them names itself; the device they name may be any key.
module Keys {
  import opened Operations
  import opened Aliases
  import opened Authorization
  import opened Integrity

  ghost function WithoutAuthor(s: set<Op>, author: PublicKey): set<Op> { set o | o in s && o.author != author }

  /** What the devices say of one key: its certificate and its revocation. */
  function StandingOfKey(d: Devices, key: PublicKey): (Option<Cert>, Option<Hlc>) {
    (if key in d.authorized then Some(d.authorized[key]) else None,
     if key in d.revoked then Some(d.revoked[key]) else None)
  }

  /** The certificates `author` signs for the key are outranked, and its revocations preceded or matched. */
  ghost predicate NoSay(s: set<Op>, author: PublicKey, key: PublicKey) {
    var others := WithoutAuthor(s, author);
    && (forall o | o in s && o.author == author && IsGrant(o) && o.kind.device == key ::
          exists c :: c in Grants(others, key) && CertLe(CertOf(o), c))
    && (forall o | o in s && o.author == author && IsRevocation(o) && o.kind.device == key ::
          exists h :: h in Revocations(others, key) && HlcLe(h, o.hlc))
  }

  /** Another identity's ops leave a key alone exactly when none is a deciding certificate or revocation of it. */
  lemma {:induction false} KeyIsIndependentIff(s: set<Op>, author: PublicKey, key: PublicKey)
    ensures StandingOfKey(DevicesOf(WithoutAuthor(s, author)), key) == StandingOfKey(DevicesOf(s), key)
       <==> NoSay(s, author, key)
  {
    hide CertLe, HlcLe, GreatestCert, EarliestHlc, DevicesOf;
    CertIsIndependentIff(s, author, key);
    RevocationIsIndependentIff(s, author, key);
  }

  ghost function CertIn(s: set<Op>, key: PublicKey): Option<Cert> { StandingOfKey(DevicesOf(s), key).0 }

  ghost function RevocationIn(s: set<Op>, key: PublicKey): Option<Hlc> { StandingOfKey(DevicesOf(s), key).1 }

  lemma {:induction false} CertMeaning(s: set<Op>, key: PublicKey)
    ensures CertIn(s, key) == if Grants(s, key) == {} then None else Some(GreatestCert(Grants(s, key)))
  {
    hide CertLe, GreatestCert, EarliestHlc, Grants;
    GrantExists(s, key);
  }

  lemma {:induction false} RevocationMeaning(s: set<Op>, key: PublicKey)
    ensures RevocationIn(s, key) == if Revocations(s, key) == {} then None else Some(EarliestHlc(Revocations(s, key)))
  {
    hide HlcLe, GreatestCert, EarliestHlc, Revocations;
    RevocationExists(s, key);
  }

  lemma {:induction false} CertIsIndependentIff(s: set<Op>, author: PublicKey, key: PublicKey)
    ensures CertIn(WithoutAuthor(s, author), key) == CertIn(s, key)
       <==> forall o | o in s && o.author == author && IsGrant(o) && o.kind.device == key ::
              exists c :: c in Grants(WithoutAuthor(s, author), key) && CertLe(CertOf(o), c)
  {
    hide CertLe, GreatestCert, DevicesOf, StandingOfKey, CertIn;
    var t := WithoutAuthor(s, author);
    CertMeaning(s, key);
    CertMeaning(t, key);
    var all, others := Grants(s, key), Grants(t, key);
    assert others <= all;
    forall c | c in all && c !in others
      ensures exists o :: o in s && o.author == author && IsGrant(o) && o.kind.device == key && CertOf(o) == c
    {
      var o :| o in s && IsGrant(o) && o.kind.device == key && CertOf(o) == c;
      assert o !in t;
    }
    forall o | o in s && o.author == author && IsGrant(o) && o.kind.device == key
      ensures CertOf(o) in all && CertOf(o) !in others
    {}
    CertsTotal(all);
    if all != {} && others != {} {
      var top, best := GreatestCert(all), GreatestCert(others);
      assert best in all && CertLe(best, top);
    }
  }

  lemma {:induction false} RevocationIsIndependentIff(s: set<Op>, author: PublicKey, key: PublicKey)
    ensures RevocationIn(WithoutAuthor(s, author), key) == RevocationIn(s, key)
       <==> forall o | o in s && o.author == author && IsRevocation(o) && o.kind.device == key ::
              exists h :: h in Revocations(WithoutAuthor(s, author), key) && HlcLe(h, o.hlc)
  {
    hide HlcLe, EarliestHlc, DevicesOf, StandingOfKey, RevocationIn;
    var t := WithoutAuthor(s, author);
    RevocationMeaning(s, key);
    RevocationMeaning(t, key);
    var all, others := Revocations(s, key), Revocations(t, key);
    assert others <= all;
    forall h | h in all && h !in others
      ensures exists o :: o in s && o.author == author && IsRevocation(o) && o.kind.device == key && o.hlc == h
    {
      var o :| o in s && IsRevocation(o) && o.kind.device == key && o.hlc == h;
      assert o !in t;
    }
    forall o | o in s && o.author == author && IsRevocation(o) && o.kind.device == key ensures o.hlc in all {}
    HlcsTotal(all);
    if all != {} && others != {} {
      var first, best := EarliestHlc(all), EarliestHlc(others);
      assert best in all && HlcLe(first, best);
    }
  }

  const CLAIM := Op(6, Hlc(4, 0, 2), PublicKey("aa"), AuthorizeDevice(PublicKey("aa"), PublicKey("ff"), 9))

  /** A certificate may name any key: one signed by another identity makes that identity the group's founder. */
  lemma {:induction false} CertificatesMayNameAnyKey()
    ensures IdsUnique({FOUNDING}) && IdsUnique({FOUNDING, CLAIM})
    ensures var founders := ContextOf({FOUNDING}).founders; "g" in founders && founders["g"] == "id:ff"
    ensures var founders := ContextOf({FOUNDING, CLAIM}).founders; "g" in founders && founders["g"] == "id:aa"
  {
    hide ContextOf;
    assert UserIdFor(PublicKey("ff")) == "id:ff" && UserIdFor(PublicKey("aa")) == "id:aa";
    FounderIs({FOUNDING}, PublicKey("ff"));
    FounderIs({FOUNDING, CLAIM}, PublicKey("aa"));
  }

  const CANCEL := Op(6, Hlc(0, 0, 2), PublicKey("aa"), RevokeDevice(PublicKey("aa"), PublicKey("ff")))

  /** So may a revocation: one signed by another identity leaves the group without a founder. */
  lemma {:induction false} RevocationsMayNameAnyKey()
    ensures IdsUnique({FOUNDING}) && IdsUnique({FOUNDING, CANCEL})
    ensures var founders := ContextOf({FOUNDING}).founders; "g" in founders && founders["g"] == "id:ff"
    ensures ContextOf({FOUNDING, CANCEL}).founders == map[]
  {
    hide AliasMap, FoundingOp, GreatestCert, EarliestHlc, DevicesOf;
    CertificatesMayNameAnyKey();
    var s := {FOUNDING, CANCEL};
    assert CANCEL in s && CANCEL.hlc in Revocations(s, PublicKey("ff"));
    assert Revocations(s, PublicKey("ff")) == {CANCEL.hlc};
    RevocationMeaning(s, PublicKey("ff"));
    assert RevokedAt(DevicesOf(s), FOUNDING);
    assert CreatedGroups(s, DevicesOf(s)) == {};
  }

  lemma {:induction false} FounderIs(s: set<Op>, identity: PublicKey)
    requires (s == {FOUNDING} && identity == PublicKey("ff")) || (s == {FOUNDING, CLAIM} && identity == PublicKey("aa"))
    ensures IdsUnique(s)
    ensures var founders := ContextOf(s).founders; "g" in founders && founders["g"] == UserIdFor(identity)
  {
    hide AliasMap, FoundingOp, GreatestCert, EarliestHlc, CertLe;
    var d := DevicesOf(s);
    KeyOfFounder(s, identity);
    assert FOUNDING in s && CreatesGroup(d, FOUNDING, FOUNDING.kind.group);
    assert "g" in CreatedGroups(s, d) && FoundingOp(s, d, "g") == FOUNDING;
    assert AliasEdges(s, d) == {};
    NoEdgesNoAliases();
  }

  lemma {:induction false} NoEdgesNoAliases()
    ensures AliasMap({}) == map[]
  {
    assert Nodes({}) == {};
  }

  lemma {:induction false} KeyOfFounder(s: set<Op>, identity: PublicKey)
    requires (s == {FOUNDING} && identity == PublicKey("ff")) || (s == {FOUNDING, CLAIM} && identity == PublicKey("aa"))
    ensures IdentityOf(DevicesOf(s), PublicKey("ff")) == identity && DevicesOf(s).revoked == map[]
  {
    hide CertLe, EarliestHlc, GreatestCert, DevicesOf;
    assert DevicesOf(s).revoked == map[] by { NoRevocations(s); }
    CertMeaning(s, PublicKey("ff"));
    if s == {FOUNDING} {
      assert Grants(s, PublicKey("ff")) == {};
    } else {
      assert CLAIM in s;
      assert CertOf(CLAIM) in Grants(s, PublicKey("ff"));
      assert Grants(s, PublicKey("ff")) == {CertOf(CLAIM)};
    }
  }

  lemma {:induction false} NoRevocations(s: set<Op>)
    requires forall o | o in s :: !IsRevocation(o)
    ensures DevicesOf(s).revoked == map[]
  {
    assert RevokedDevices(s) == {};
  }
}
