/**
 * The records the modules read and write: partners, companies, the search
 * domains over partners and the account-creation effect.  The ORM's tables are
 * modelled as sequences of plain records, a search as a filter over them.
 */
module Records {
  import opened Wrappers

  /** The errors raised on the paths the model follows. */
  datatype OrmError =
    | IndexOutOfRange               // indexing an empty recordset
    | WriteValuesNotDict            // `write` given something that is not a dict
    | UnknownField(field: string)   // a search domain naming a field the model lacks
    | NoSuchMethod(name: string)    // calling a method the record does not define
    | InvalidLeaf                   // a domain element that is neither a leaf nor an operator

  /** A company; only its auto-creation switch is read. */
  datatype Company = Company(id: nat, enableAutocreate: bool)

  /**
   * A partner (contact).  `email` is None when the field is unset (NULL) and
   * may hold a stored empty string, which is set but gives no login; `managementId`
   * is the id of the configuration that owns the partner, if any; `holds` is
   * the set of opaque domain leaves (see Term.Opaque) that are true of it.
   */
  datatype Partner = Partner(
    id: nat,
    email: Option<string>,
    categoryIds: set<nat>,
    userIds: seq<nat>,
    company: Option<Company>,
    managementId: Option<nat>,
    holds: set<string>)

  /** One leaf of a search domain on partners; a domain is the conjunction of its leaves. */
  datatype Term =
    | EmailSet                  // ('email', '!=', False)
    | CategoryIs(category: nat) // ('category_id', '=', category)
    | Opaque(leaf: string)      // a leaf of a free-form domain, kept uninterpreted
    | ManagedBy(configId: nat)  // ('partner_management_id', '=', configId)
    | WithoutUsers              // ('user_ids', '=', False)

  predicate Satisfies(p: Partner, t: Term)
  {
    match t
    case EmailSet => p.email.Some?
    case CategoryIs(c) => c in p.categoryIds
    case Opaque(leaf) => leaf in p.holds
    case ManagedBy(id) => p.managementId == Some(id)
    case WithoutUsers => |p.userIds| == 0
  }

  /** The partner satisfies every leaf of the domain. */
  predicate SatisfiesDomain(p: Partner, d: seq<Term>)
    decreases |d|
  {
    |d| == 0 || (Satisfies(p, d[0]) && SatisfiesDomain(p, d[1..]))
  }

  lemma {:induction false} SatisfiesDomainEvery(p: Partner, d: seq<Term>)
    ensures SatisfiesDomain(p, d) <==> forall t :: t in d ==> Satisfies(p, t)
    decreases |d|
  {
    if |d| > 0 {
      SatisfiesDomainEvery(p, d[1..]);
      assert d == [d[0]] + d[1..];
    }
  }

  /** A domain built by concatenation holds exactly when both parts hold. */
  lemma {:induction false} SatisfiesDomainConcat(p: Partner, a: seq<Term>, b: seq<Term>)
    ensures SatisfiesDomain(p, a + b) <==> SatisfiesDomain(p, a) && SatisfiesDomain(p, b)
    decreases |a|
  {
    if |a| > 0 {
      SatisfiesDomainConcat(p, a[1..], b);
      assert (a + b)[1..] == a[1..] + b;
    } else {
      assert a + b == b;
    }
  }

  predicate UniquePartnerIds(ps: seq<Partner>)
  {
    forall i, j :: 0 <= i < j < |ps| ==> ps[i].id != ps[j].id
  }

  /** In a table with distinct ids, the id determines the record. */
  lemma SameIdSamePartner(ps: seq<Partner>, p: Partner, q: Partner)
    requires UniquePartnerIds(ps) && p in ps && q in ps && p.id == q.id
    ensures p == q
  {
    var i :| 0 <= i < |ps| && ps[i] == p;
    var j :| 0 <= j < |ps| && ps[j] == q;
    assert i == j;
  }

  predicate NoDuplicates<T(==)>(s: seq<T>)
  {
    forall i, j :: 0 <= i < j < |s| ==> s[i] != s[j]
  }

  /**
   * `search(domain, limit=limit)` on partners: at most `limit` partners that
   * satisfy the domain, taken in storage order; when fewer than `limit` come
   * back, every partner satisfying the domain is among them.  A limit of 0
   * means "no limit" to the ORM; it is not modelled.
   */
  function Search(ps: seq<Partner>, d: seq<Term>, limit: nat): (r: seq<Partner>)
    requires limit > 0
    ensures |r| <= limit
    ensures forall q :: q in r ==> q in ps && SatisfiesDomain(q, d)
    ensures |r| < limit ==> forall q :: q in ps && SatisfiesDomain(q, d) ==> q in r
    ensures UniquePartnerIds(ps) ==> UniquePartnerIds(r)
    decreases |ps|
  {
    if |ps| == 0 then []
    else if SatisfiesDomain(ps[0], d) then
      var rest := if limit == 1 then [] else Search(ps[1..], d, limit - 1);
      assert UniquePartnerIds(ps) ==> forall q :: q in rest ==> q.id != ps[0].id by {
        if UniquePartnerIds(ps) {
          forall q | q in rest ensures q.id != ps[0].id {
            var m :| 0 <= m < |ps[1..]| && ps[1..][m] == q;
            assert ps[m + 1] == q;
          }
        }
      }
      [ps[0]] + rest
    else Search(ps[1..], d, limit)
  }

  /**
   * `_get_login`: the login of a partner's account is its email, and there is
   * none (False) when the email is unset or empty.  Both res_partner.py files
   * define it the same way.
   */
  function GetLogin(p: Partner): (login: Option<string>)
    ensures login.Some? <==> p.email.Some? && p.email.value != ""
    ensures login.Some? ==> p.email == Some(login.value) && login.value != ""
  {
    if p.email.Some? && p.email.value != "" then Some(p.email.value) else None
  }

  /**
   * The effect of asking the framework to create an account: for which
   * partner, with which login, and on behalf of which management
   * configuration (None when the company switch triggered it).
   */
  datatype AccountRequest = AccountRequest(partnerId: nat, login: string, configId: Option<nat>)

  /** No partner is asked an account for twice. */
  predicate OneRequestPerPartner(rs: seq<AccountRequest>)
  {
    forall i, j :: 0 <= i < j < |rs| ==> rs[i].partnerId != rs[j].partnerId
  }

  /** Two request logs without a shared partner join into one without a repeated partner. */
  lemma JoinOneRequestPerPartner(a: seq<AccountRequest>, b: seq<AccountRequest>)
    requires OneRequestPerPartner(a) && OneRequestPerPartner(b)
    requires forall q, r :: q in a && r in b ==> q.partnerId != r.partnerId
    ensures OneRequestPerPartner(a + b)
  {
    var ab := a + b;
    forall i, j | 0 <= i < j < |ab| ensures ab[i].partnerId != ab[j].partnerId {
      if j < |a| {
        assert ab[i] == a[i] && ab[j] == a[j];
      } else if i >= |a| {
        assert ab[i] == b[i - |a|] && ab[j] == b[j - |a|];
      } else {
        assert ab[i] in a && ab[j] in b;
      }
    }
  }
}
