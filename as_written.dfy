/**
 * The update and the job of `partner.user.management` as the source writes
 * them, where that differs from what they evidently mean.  PartnerManagement
 * models the intended behaviour.  Each part here models one defect, and the
 * lemma beside it exhibits an input on which the two differ; the update as
 * written combines the defects of the domain, the comparison and the write.
 */
module AsWritten {
  import opened Wrappers
  import opened Records
  import opened PartnerManagement

  // ---------------------------------------------------------------------------
  // The extra domain appended as one element (partner_user_management.py:164)
  // ---------------------------------------------------------------------------

  /** An element of a domain list: a leaf, or a whole evaluated list appended as one element. */
  datatype DomainElement = Leaf(term: Term) | Nested(terms: seq<Term>)

  /** `_get_partner_domain` as written: `append` puts the evaluated extra domain in as one element. */
  function GetPartnerDomainAsWritten(c: Config): (d: seq<DomainElement>)
    ensures |d| == (if c.mustHaveEmail then 1 else 0) + (if c.categoryId.Some? then 1 else 0)
                   + (if c.partnerDomain.Some? then 1 else 0)
    ensures c.partnerDomain.Some? ==> d[|d| - 1] == Nested(ExtraDomain(c))
    ensures c.partnerDomain.None? ==> forall k :: 0 <= k < |d| ==> d[k] == Leaf(GetPartnerDomain(c)[k])
  {
    var email := if c.mustHaveEmail then [Leaf(EmailSet)] else [];
    var category := if c.categoryId.Some? then [Leaf(CategoryIs(c.categoryId.value))] else [];
    var extra := if c.partnerDomain.Some? then [Nested(ExtraDomain(c))] else [];
    email + category + extra
  }

  /**
   * What the search makes of a domain list: every element must be a leaf.  A
   * list of leaves is not a leaf (it does not have the shape field, operator,
   * value), so a nested element is refused.
   */
  function CheckDomain(d: seq<DomainElement>): (r: Result<seq<Term>, OrmError>)
    ensures r.Success? <==> forall e :: e in d ==> e.Leaf?
    ensures r.Failure? ==> r.error == InvalidLeaf
    ensures r.Success? ==> |r.value| == |d| && forall k :: 0 <= k < |d| ==> r.value[k] == d[k].term
    decreases |d|
  {
    if |d| == 0 then Success([])
    else
      match d[0]
      case Nested(_) =>
        assert d[0] in d;
        Failure(InvalidLeaf)
      case Leaf(t) =>
        var rest := CheckDomain(d[1..]);
        assert forall e :: e in d ==> e == d[0] || e in d[1..];
        if rest.Failure? then rest else Success([t] + rest.value)
  }

  /**
   * As written, the search is refused for every configuration with an extra
   * domain (the field's default `[]` included), and agrees with the intended
   * flat domain for every configuration without one.
   */
  lemma DomainAsWrittenRefused(c: Config)
    ensures c.partnerDomain.Some? ==> CheckDomain(GetPartnerDomainAsWritten(c)) == Failure(InvalidLeaf)
    ensures c.partnerDomain.None? ==> CheckDomain(GetPartnerDomainAsWritten(c)) == Success(GetPartnerDomain(c))
  {
    var d := GetPartnerDomainAsWritten(c);
    if c.partnerDomain.Some? {
      assert d[|d| - 1] in d;
    } else {
      var flat := GetPartnerDomain(c);
      assert |flat| == |d|;
      assert forall e :: e in d ==> e.Leaf?;
      var r := CheckDomain(d);
      assert r.value == flat;
    }
  }

  /** The test's configuration: the list it expects is flat, the list built as written is not. */
  lemma TestDomainAsWritten()
    ensures GetPartnerDomainAsWritten(TestConfig) == [Leaf(EmailSet), Nested([Opaque("ref = PUM0001")])]
    ensures GetPartnerDomain(TestConfig) == [EmailSet, Opaque("ref = PUM0001")]
    ensures CheckDomain(GetPartnerDomainAsWritten(TestConfig)).Failure?
  {
    TestOwnership();
    DomainAsWrittenRefused(TestConfig);
    assert ExtraDomain(TestConfig) == [Opaque("ref = PUM0001")];
  }

  // ---------------------------------------------------------------------------
  // Comparing the link with an id (partner_user_management.py:130)
  // ---------------------------------------------------------------------------

  /** The Python values the comparison sees: a recordset, or a plain integer. */
  datatype PyValue = Recordset(ids: set<nat>) | Integer(n: int)

  /** `==` between these values: recordsets by their records; a recordset never equals a non-recordset. */
  predicate PyEquals(a: PyValue, b: PyValue)
  {
    match (a, b)
    case (Recordset(x), Recordset(y)) => x == y
    case (Integer(x), Integer(y)) => x == y
    case _ => false
  }

  /** The Many2one value of a partner's link: a recordset of at most one configuration. */
  function LinkValue(link: Option<nat>): (v: PyValue)
    ensures v.Recordset? && (link.None? <==> v.ids == {})
  {
    Recordset(if link.Some? then {link.value} else {})
  }

  /** `partner.partner_management_id != record.id` as written: a recordset against an integer. */
  function LinkDiffersAsWritten(link: Option<nat>, recordId: nat): (r: bool)
    ensures r
  {
    !PyEquals(LinkValue(link), Integer(recordId))
  }

  /** The intended comparison, of the link with the configuration record itself. */
  function LinkDiffers(link: Option<nat>, recordId: nat): (r: bool)
    ensures r <==> link != Some(recordId)
  {
    if link.Some? then
      assert link.value in LinkValue(link).ids;
      assert (LinkValue(link).ids == {recordId}) <==> link.value == recordId;
      !PyEquals(LinkValue(link), LinkValue(Some(recordId)))
    else
      assert recordId in LinkValue(Some(recordId)).ids;
      !PyEquals(LinkValue(link), LinkValue(Some(recordId)))
  }

  /** A partner already linked to its owner: the comparison as written still calls for a write. */
  lemma TestRelinkAsWritten()
    ensures var linked := TestPartner(Some("janboezeroen@example.com")).(managementId := Some(TestConfig.id));
      && Owner([TestConfig], linked) == linked.managementId
      && LinkDiffersAsWritten(linked.managementId, TestConfig.id)
      && !LinkDiffers(linked.managementId, TestConfig.id)
  {
    var linked := TestPartner(Some("janboezeroen@example.com")).(managementId := Some(TestConfig.id));
    TestOrder();
    TestOwnership();
    FirstMatchIgnoresLink(PriorityOrder([TestConfig]), TestPartner(Some("janboezeroen@example.com")), Some(TestConfig.id));
  }

  // ---------------------------------------------------------------------------
  // `write` given a set (partner_user_management.py:136-138, 148-150)
  // ---------------------------------------------------------------------------

  /** The values handed to `write`: a dict `{field: value}`, or the set display `{field, value}`. */
  datatype WriteValues = Dict(link: Option<nat>) | SetDisplay(link: Option<nat>)

  /** `partner.write(vals)` for the link field: a set has no items to write, and is refused. */
  function Write(p: Partner, vals: WriteValues): (r: Result<Partner, OrmError>)
    ensures r.Success? <==> vals.Dict?
    ensures r.Success? ==> r.value == p.(managementId := vals.link)
    ensures r.Failure? ==> r.error == WriteValuesNotDict
  {
    match vals
    case Dict(link) => Success(p.(managementId := link))
    case SetDisplay(_) => Failure(WriteValuesNotDict)
  }

  /**
   * One configuration's pass of the update as written.  The search with the
   * domain as built (line 127) raises when the domain is refused.  Otherwise
   * the first partner found is claimed and, since the comparison at line 130
   * always differs (LinkDiffersAsWritten), written with a set, which raises
   * (lines 136-138).  A pass is only reached when no earlier pass claimed
   * anything, so every partner found is still unclaimed.
   */
  function PassAsWritten(ps: seq<Partner>, c: Config): (e: Option<OrmError>)
    ensures e.Some? ==> e.value == InvalidLeaf || e.value == WriteValuesNotDict
  {
    var checked := CheckDomain(GetPartnerDomainAsWritten(c));
    if checked.Failure? then Some(checked.error)
    else
      var found := Search(ps, checked.value, |ps| + 1);
      if |found| == 0 then None
      else Some(Write(found[0], SetDisplay(Some(c.id))).error)
  }

  /**
   * A pass raises the domain error exactly when the configuration has an
   * extra domain, raises the write error exactly when it has none and
   * matches some partner, and completes otherwise.
   */
  lemma PassAsWrittenMeaning(ps: seq<Partner>, c: Config)
    ensures PassAsWritten(ps, c) == Some(InvalidLeaf) <==> c.partnerDomain.Some?
    ensures PassAsWritten(ps, c) == Some(WriteValuesNotDict) <==>
      c.partnerDomain.None? && exists p :: p in ps && Matches(c, p)
    ensures PassAsWritten(ps, c).None? <==> c.partnerDomain.None? && forall p :: p in ps ==> !Matches(c, p)
  {
    DomainAsWrittenRefused(c);
    if c.partnerDomain.None? {
      var d := GetPartnerDomain(c);
      var found := Search(ps, d, |ps| + 1);
      if |found| > 0 {
        assert found[0] in found;
        DomainSearchMatches(c, found[0]);
      }
      forall p | p in ps && Matches(c, p) ensures |found| > 0 {
        DomainSearchMatches(c, p);
      }
    }
  }

  /** The passes over the configurations in order: the first one that raises decides. */
  function PassesAsWritten(ps: seq<Partner>, ordered: seq<Config>): (e: Option<OrmError>)
    ensures e.Some? ==> e.value == InvalidLeaf || e.value == WriteValuesNotDict
    decreases |ordered|
  {
    if |ordered| == 0 then None
    else
      var e := PassAsWritten(ps, ordered[0]);
      if e.Some? then e else PassesAsWritten(ps, ordered[1..])
  }

  lemma {:induction false} PassesAsWrittenNone(ps: seq<Partner>, ordered: seq<Config>)
    ensures PassesAsWritten(ps, ordered).None? <==> forall k :: 0 <= k < |ordered| ==> PassAsWritten(ps, ordered[k]).None?
    decreases |ordered|
  {
    if |ordered| > 0 {
      PassesAsWrittenNone(ps, ordered[1..]);
      assert forall k :: 1 <= k < |ordered| ==> ordered[k] == ordered[1..][k - 1];
    }
  }

  /** When the passes before position `k` complete and the one at `k` raises, its error is the outcome. */
  lemma {:induction false} PassesAsWrittenAt(ps: seq<Partner>, ordered: seq<Config>, k: nat)
    requires k < |ordered| && PassAsWritten(ps, ordered[k]).Some?
    requires forall j :: 0 <= j < k ==> PassAsWritten(ps, ordered[j]).None?
    ensures PassesAsWritten(ps, ordered) == PassAsWritten(ps, ordered[k])
    decreases k
  {
    if k > 0 {
      assert ordered[1..][k - 1] == ordered[k];
      assert forall j :: 0 <= j < k - 1 ==> ordered[1..][j] == ordered[j + 1];
      PassesAsWrittenAt(ps, ordered[1..], k - 1);
    }
  }

  /** Without extra domains no pass raises the domain error. */
  lemma {:induction false} PassesAsWrittenNoLeafError(ps: seq<Partner>, ordered: seq<Config>)
    requires forall c :: c in ordered ==> c.partnerDomain.None?
    ensures PassesAsWritten(ps, ordered) != Some(InvalidLeaf)
    decreases |ordered|
  {
    if |ordered| > 0 {
      PassAsWrittenMeaning(ps, ordered[0]);
      assert ordered[0] in ordered;
      assert forall c :: c in ordered[1..] ==> c in ordered;
      PassesAsWrittenNoLeafError(ps, ordered[1..]);
    }
  }

  /**
   * The unlinking pass as written (lines 140-150): nobody is claimed when it
   * is reached, so the first linked partner is written with a set, which raises.
   */
  function UnlinkAsWritten(ps: seq<Partner>): (e: Option<OrmError>)
    ensures e.Some? ==> e.value == WriteValuesNotDict
    ensures e.None? <==> forall i :: 0 <= i < |ps| ==> ps[i].managementId.None?
    decreases |ps|
  {
    if |ps| == 0 then None
    else if ps[0].managementId.Some? then Some(Write(ps[0], SetDisplay(None)).error)
    else
      var rest := UnlinkAsWritten(ps[1..]);
      assert forall i :: 1 <= i < |ps| ==> ps[i] == ps[1..][i - 1];
      rest
  }

  /**
   * `update_partner_user_management` as written: the configurations' passes in
   * the searched order, then the unlinking pass; the first error raised is the
   * outcome, and an update that completes leaves the table as it was.
   */
  function UpdateAsWritten(ps: seq<Partner>, configs: seq<Config>): (r: Result<seq<Partner>, OrmError>)
    ensures r.Success? ==> r.value == ps
    ensures r.Failure? ==> r.error == InvalidLeaf || r.error == WriteValuesNotDict
  {
    var e := PassesAsWritten(ps, PriorityOrder(configs));
    if e.Some? then Failure(e.value)
    else
      var u := UnlinkAsWritten(ps);
      if u.Some? then Failure(u.value) else Success(ps)
  }

  /**
   * The update as written completes exactly when no configuration has an
   * extra domain, none matches a partner, and no partner is linked.
   */
  lemma UpdateAsWrittenCompletes(ps: seq<Partner>, configs: seq<Config>)
    ensures UpdateAsWritten(ps, configs).Success? <==>
      && (forall c :: c in configs ==> c.partnerDomain.None? && forall p :: p in ps ==> !Matches(c, p))
      && (forall i :: 0 <= i < |ps| ==> ps[i].managementId.None?)
  {
    var ordered := PriorityOrder(configs);
    PassesAsWrittenNone(ps, ordered);
    forall k | 0 <= k < |ordered| {
      PassAsWrittenMeaning(ps, ordered[k]);
    }
    forall c | c in configs
      ensures PassesAsWritten(ps, ordered).None? ==> c.partnerDomain.None? && forall p :: p in ps ==> !Matches(c, p)
    {
      var k :| 0 <= k < |ordered| && ordered[k] == c;
    }
  }

  /** When the update as written completes, the intended update would not have changed anything either. */
  lemma UpdateAsWrittenAgrees(ps: seq<Partner>, configs: seq<Config>)
    requires UpdateAsWritten(ps, configs).Success?
    ensures Assigned(ps, configs) == ps
  {
    UpdateAsWrittenCompletes(ps, configs);
    forall i | 0 <= i < |ps| ensures Assigned(ps, configs)[i] == ps[i] {
      UnmatchedHasNoOwner(configs, ps[i]);
    }
  }

  /**
   * The first configuration in order with an extra domain, reached before any
   * claim, makes the update as written raise the domain error.
   */
  lemma ExtraDomainMakesUpdateRaise(ps: seq<Partner>, configs: seq<Config>, k: nat)
    requires k < |configs| && PriorityOrder(configs)[k].partnerDomain.Some?
    requires forall j :: 0 <= j < k ==>
      PriorityOrder(configs)[j].partnerDomain.None? && forall p :: p in ps ==> !Matches(PriorityOrder(configs)[j], p)
    ensures UpdateAsWritten(ps, configs) == Failure(InvalidLeaf)
  {
    var ordered := PriorityOrder(configs);
    forall j | 0 <= j <= k {
      PassAsWrittenMeaning(ps, ordered[j]);
    }
    PassesAsWrittenAt(ps, ordered, k);
  }

  /** Without extra domains, any partner that some configuration claims makes the update as written raise the write error. */
  lemma ClaimMakesUpdateRaise(ps: seq<Partner>, configs: seq<Config>, i: nat)
    requires forall c :: c in configs ==> c.partnerDomain.None?
    requires i < |ps| && Owner(configs, ps[i]).Some?
    ensures UpdateAsWritten(ps, configs) == Failure(WriteValuesNotDict)
  {
    var ordered := PriorityOrder(configs);
    var p := ps[i];
    assert FirstMatch(ordered, p).Some?;
    var k := FirstMatch(ordered, p).value;
    assert ordered[k] in configs && Matches(ordered[k], p) && p in ps;
    UpdateAsWrittenCompletes(ps, configs);
    assert UpdateAsWritten(ps, configs).Failure?;
    PassesAsWrittenNoLeafError(ps, ordered);
    var e := PassesAsWritten(ps, ordered);
    if e.Some? {
      assert e.value == WriteValuesNotDict;
    } else {
      assert UnlinkAsWritten(ps).Some?;
    }
  }

  /**
   * The test's two updates: the test's configuration has an extra domain, so
   * both raise the domain error before any write, where the intended update
   * first leaves the partner unlinked and then links it.
   */
  lemma TestUpdateAsWritten()
    ensures UpdateAsWritten([TestPartner(None)], [TestConfig]) == Failure(InvalidLeaf)
    ensures UpdateAsWritten([TestPartner(Some("janboezeroen@example.com"))], [TestConfig]) == Failure(InvalidLeaf)
    ensures Assigned([TestPartner(Some("janboezeroen@example.com"))], [TestConfig])[0].managementId == Some(TestConfig.id)
  {
    TestOwnership();
    TestOrder();
    ExtraDomainMakesUpdateRaise([TestPartner(None)], [TestConfig], 0);
    ExtraDomainMakesUpdateRaise([TestPartner(Some("janboezeroen@example.com"))], [TestConfig], 0);
  }

  /** The test's configuration with its extra domain cleared. */
  const DomainFreeConfig: Config := TestConfig.(partnerDomain := None)

  /**
   * With the extra domain cleared, the test's first update completes, and the
   * second, once the partner has an email, raises the write error where the
   * intended update links the partner.
   */
  lemma TestUpdateWithoutDomain()
    ensures UpdateAsWritten([TestPartner(None)], [DomainFreeConfig]) == Success([TestPartner(None)])
    ensures UpdateAsWritten([TestPartner(Some("janboezeroen@example.com"))], [DomainFreeConfig]) == Failure(WriteValuesNotDict)
    ensures Assigned([TestPartner(Some("janboezeroen@example.com"))], [DomainFreeConfig])[0].managementId
      == Some(DomainFreeConfig.id)
  {
    var cfg := DomainFreeConfig;
    PriorityOrderSingle(cfg);
    assert [cfg][..0] == [];
    var bare := TestPartner(None);
    assert !Matches(cfg, bare);
    UpdateAsWrittenCompletes([bare], [cfg]);
    var mailed := TestPartner(Some("janboezeroen@example.com"));
    assert Matches(cfg, mailed);
    assert FirstMatch([cfg], mailed) == Some(0);
    assert Assigned([mailed], [cfg])[0].managementId == Some(cfg.id);
    ClaimMakesUpdateRaise([mailed], [cfg], 0);
  }

  // ---------------------------------------------------------------------------
  // The job searching companies (partner_user_management.py:90-92)
  // ---------------------------------------------------------------------------

  /** `res.company` search on a boolean field: only a field the company has can be searched. */
  function SearchCompanies(companies: seq<Company>, field: string): (r: Result<seq<Company>, OrmError>)
    ensures field == "enable_autocreate" ==> r.Success? && forall c :: c in r.value <==> c in companies && c.enableAutocreate
    ensures field != "enable_autocreate" ==> r == Failure(UnknownField(field))
    decreases |companies|
  {
    if field != "enable_autocreate" then Failure(UnknownField(field))
    else if |companies| == 0 then Success([])
    else
      var rest := SearchCompanies(companies[1..], field);
      assert forall c :: c in companies <==> c == companies[0] || c in companies[1..];
      if companies[0].enableAutocreate then Success([companies[0]] + rest.value) else rest
  }

  /** The records the job visits, as written: companies with `auto_create_user`, which companies lack. */
  function AutoCreateRecordsAsWritten(companies: seq<Company>): (r: Result<seq<Company>, OrmError>)
    ensures r == Failure(UnknownField("auto_create_user"))
  {
    assert "auto_create_user"[0] != "enable_autocreate"[0];
    SearchCompanies(companies, "auto_create_user")
  }

  // ---------------------------------------------------------------------------
  // `_get_login` called on the configuration (partner_user_management.py:99)
  // ---------------------------------------------------------------------------

  /** The record `_get_login` is called on. */
  datatype Receiver = OfPartner(partner: Partner) | OfConfig(config: Config)

  /** Calling `_get_login`: partners define it; configurations do not. */
  function CallGetLogin(x: Receiver): (r: Result<Option<string>, OrmError>)
    ensures r.Success? <==> x.OfPartner?
    ensures r.Success? ==> r.value == GetLogin(x.partner)
    ensures r.Failure? ==> r.error == NoSuchMethod("_get_login")
  {
    match x
    case OfPartner(p) => Success(GetLogin(p))
    case OfConfig(_) => Failure(NoSuchMethod("_get_login"))
  }

  /**
   * The inner loop of the job as written (`this._get_login()`, with `this` the
   * configuration): it raises on the first partner of the batch, so it
   * completes only for an empty batch.
   */
  function BatchRequestsAsWritten(c: Config, batch: seq<Partner>): (r: Result<seq<AccountRequest>, OrmError>)
    ensures r.Success? <==> |batch| == 0
    ensures r.Success? ==> r.value == BatchRequests(c, batch)
    ensures r.Failure? ==> r.error == NoSuchMethod("_get_login")
  {
    if |batch| == 0 then Success([])
    else
      // the call for the first partner of the batch raises
      Failure(CallGetLogin(OfConfig(c)).error)
  }

  /** The test's job: the intended job asks the partner's account, the job as written raises instead. */
  lemma TestLoginAsWritten()
    ensures var batch := [TestPartner(Some("janboezeroen@example.com")).(managementId := Some(TestConfig.id))];
      && BatchRequestsAsWritten(TestConfig, batch).Failure?
      && BatchRequests(TestConfig, batch) == [AccountRequest(1, "janboezeroen@example.com", Some(TestConfig.id))]
  {
    var batch := [TestPartner(Some("janboezeroen@example.com")).(managementId := Some(TestConfig.id))];
    assert batch[..0] == [];
  }
}
