/**
 * Management configurations (`partner.user.management`): which configuration
 * owns which partner, and the job that creates accounts for the partners the
 * auto-creating configurations own.
 */
module PartnerManagement {
  import opened Wrappers
  import opened Records

  /**
   * A management configuration.  `partnerDomain` is None when the Char field is
   * empty, and otherwise the evaluated extra domain, as a list of opaque leaves.
   */
  datatype Config = Config(
    id: nat,
    name: Option<string>,
    sequence: int,
    mustHaveEmail: bool,
    categoryId: Option<nat>,
    partnerDomain: Option<seq<string>>,
    templateUserId: Option<nat>,
    allowCreateUser: bool,
    allowPasswordResetMail: bool,
    autoCreateUser: bool,
    autoResetMail: bool)

  /** At most this many partners are considered per configuration in one run of the job. */
  const AutoCreateLimit: nat := 256

  predicate UniqueConfigIds(cs: seq<Config>)
  {
    forall i, j :: 0 <= i < j < |cs| ==> cs[i].id != cs[j].id
  }

  // ---------------------------------------------------------------------------
  // The order `sequence, name` in which configurations are searched
  // ---------------------------------------------------------------------------

  /** Lexicographic order on names, character by character. */
  predicate NameLeq(a: string, b: string)
    decreases |a|
  {
    |a| == 0 || (|b| > 0 && (a[0] < b[0] || (a[0] == b[0] && NameLeq(a[1..], b[1..]))))
  }

  lemma {:induction false} NameLeqReflexive(a: string)
    ensures NameLeq(a, a)
    decreases |a|
  {
    if |a| > 0 {
      NameLeqReflexive(a[1..]);
    }
  }

  lemma {:induction false} NameLeqTotal(a: string, b: string)
    ensures NameLeq(a, b) || NameLeq(b, a)
    decreases |a|
  {
    if |a| > 0 && |b| > 0 && a[0] == b[0] {
      NameLeqTotal(a[1..], b[1..]);
    }
  }

  lemma {:induction false} NameLeqTransitive(a: string, b: string, c: string)
    requires NameLeq(a, b) && NameLeq(b, c)
    ensures NameLeq(a, c)
    decreases |a|
  {
    if |a| > 0 && a[0] == b[0] && b[0] == c[0] {
      NameLeqTransitive(a[1..], b[1..], c[1..]);
    }
  }

  /** An unset name sorts after every name, as NULL does in an ascending ORDER BY. */
  predicate NullableNameLeq(a: Option<string>, b: Option<string>)
  {
    match (a, b)
    case (Some(x), Some(y)) => NameLeq(x, y)
    case (Some(_), None) => true
    case (None, Some(_)) => false
    case (None, None) => true
  }

  /** `c` comes no later than `d` in the order `sequence, name`. */
  predicate PriorityLeq(c: Config, d: Config)
  {
    c.sequence < d.sequence || (c.sequence == d.sequence && NullableNameLeq(c.name, d.name))
  }

  lemma PriorityLeqReflexive(c: Config)
    ensures PriorityLeq(c, c)
  {
    if c.name.Some? {
      NameLeqReflexive(c.name.value);
    }
  }

  lemma PriorityLeqTotal(c: Config, d: Config)
    ensures PriorityLeq(c, d) || PriorityLeq(d, c)
  {
    if c.name.Some? && d.name.Some? {
      NameLeqTotal(c.name.value, d.name.value);
    }
  }

  lemma PriorityLeqTransitive(b: Config, c: Config, d: Config)
    requires PriorityLeq(b, c) && PriorityLeq(c, d)
    ensures PriorityLeq(b, d)
  {
    if b.name.Some? && c.name.Some? && d.name.Some? {
      if b.sequence == c.sequence == d.sequence {
        NameLeqTransitive(b.name.value, c.name.value, d.name.value);
      }
    }
  }

  predicate PriorityOrdered(s: seq<Config>)
  {
    forall i, j :: 0 <= i < j < |s| ==> PriorityLeq(s[i], s[j])
  }

  lemma OrderedCons(c: Config, s: seq<Config>)
    requires PriorityOrdered(s)
    requires forall d :: d in s ==> PriorityLeq(c, d)
    ensures PriorityOrdered([c] + s)
  {
    var r := [c] + s;
    forall i, j | 0 <= i < j < |r| ensures PriorityLeq(r[i], r[j]) {
      if i > 0 {
        assert r[i] == s[i - 1] && r[j] == s[j - 1];
      } else {
        assert r[j] in s;
      }
    }
  }

  /** A configuration that precedes the head of an ordered list precedes all of it. */
  lemma PrecedesAll(c: Config, s: seq<Config>)
    requires PriorityOrdered(s) && |s| > 0 && PriorityLeq(c, s[0])
    ensures forall d :: d in s ==> PriorityLeq(c, d)
  {
    forall d | d in s ensures PriorityLeq(c, d) {
      var j :| 0 <= j < |s| && s[j] == d;
      if j > 0 {
        PriorityLeqTransitive(c, s[0], s[j]);
      }
    }
  }

  /** Ids that are distinct in `s`, none equal to that of `c`, stay distinct in `[c] + s`. */
  lemma UniqueIdsCons(c: Config, s: seq<Config>)
    requires UniqueConfigIds(s) && forall x :: x in s ==> x.id != c.id
    ensures UniqueConfigIds([c] + s)
  {
    var r := [c] + s;
    forall i, j | 0 <= i < j < |r| ensures r[i].id != r[j].id {
      assert r[j] == s[j - 1];
      if i > 0 {
        assert r[i] == s[i - 1];
      }
    }
  }

  /** The tail of a list holds none of the head's id when the list's ids are distinct. */
  lemma TailAvoidsHeadId(s: seq<Config>)
    requires UniqueConfigIds(s) && |s| > 0
    ensures forall x :: x in s[1..] ==> x.id != s[0].id
  {
    forall x | x in s[1..] ensures x.id != s[0].id {
      var j :| 0 <= j < |s[1..]| && s[1..][j] == x;
      assert s[j + 1] == x;
    }
  }

  /** Insert `c` after every configuration of `s` that strictly precedes it and before the rest. */
  function InsertByPriority(c: Config, s: seq<Config>): (r: seq<Config>)
    ensures multiset(r) == multiset(s) + multiset{c} && |r| == |s| + 1
    decreases |s|
  {
    if |s| == 0 then [c]
    else if PriorityLeq(c, s[0]) then [c] + s
    else
      assert s == [s[0]] + s[1..];
      [s[0]] + InsertByPriority(c, s[1..])
  }

  lemma {:induction false} InsertByPriorityOrdered(c: Config, s: seq<Config>)
    requires PriorityOrdered(s)
    ensures PriorityOrdered(InsertByPriority(c, s))
    decreases |s|
  {
    if |s| > 0 {
      if PriorityLeq(c, s[0]) {
        PrecedesAll(c, s);
        OrderedCons(c, s);
      } else {
        var tail := s[1..];
        assert PriorityOrdered(tail) by {
          forall i, j | 0 <= i < j < |tail| ensures PriorityLeq(tail[i], tail[j]) {
            assert tail[i] == s[i + 1] && tail[j] == s[j + 1];
          }
        }
        InsertByPriorityOrdered(c, tail);
        var rest := InsertByPriority(c, tail);
        PriorityLeqTotal(c, s[0]);
        forall d | d in rest ensures PriorityLeq(s[0], d) {
          assert d in multiset(rest);
          if d != c {
            assert d in multiset(tail);
            var j :| 0 <= j < |tail| && tail[j] == d;
            assert s[j + 1] == d;
          }
        }
        OrderedCons(s[0], rest);
      }
    }
  }

  lemma {:induction false} InsertByPriorityUnique(c: Config, s: seq<Config>)
    requires UniqueConfigIds(s) && forall x :: x in s ==> x.id != c.id
    ensures UniqueConfigIds(InsertByPriority(c, s))
    decreases |s|
  {
    if |s| > 0 {
      if PriorityLeq(c, s[0]) {
        UniqueIdsCons(c, s);
      } else {
        var tail := s[1..];
        assert UniqueConfigIds(tail) by {
          forall i, j | 0 <= i < j < |tail| ensures tail[i].id != tail[j].id {
            assert tail[i] == s[i + 1] && tail[j] == s[j + 1];
          }
        }
        assert forall x :: x in tail ==> x in s;
        InsertByPriorityUnique(c, tail);
        var rest := InsertByPriority(c, tail);
        TailAvoidsHeadId(s);
        forall x | x in rest ensures x.id != s[0].id {
          assert x in multiset(rest);
          if x != c {
            assert x in multiset(tail);
          } else {
            assert s[0] in s;
          }
        }
        UniqueIdsCons(s[0], rest);
      }
    }
  }

  /**
   * The configurations as `search([])` returns them: ordered by `sequence`,
   * then `name` (PriorityOrderOrdered); configurations with the same key keep
   * their storage order.
   */
  function PriorityOrder(cs: seq<Config>): (r: seq<Config>)
    ensures multiset(r) == multiset(cs) && |r| == |cs|
    ensures forall x :: x in r <==> x in cs
    decreases |cs|
  {
    if |cs| == 0 then []
    else
      assert cs == [cs[0]] + cs[1..];
      var r := InsertByPriority(cs[0], PriorityOrder(cs[1..]));
      assert forall x :: x in r <==> x in multiset(r);
      assert forall x :: x in cs <==> x in multiset(cs);
      r
  }

  lemma {:induction false} PriorityOrderOrdered(cs: seq<Config>)
    ensures PriorityOrdered(PriorityOrder(cs))
    decreases |cs|
  {
    if |cs| > 0 {
      PriorityOrderOrdered(cs[1..]);
      InsertByPriorityOrdered(cs[0], PriorityOrder(cs[1..]));
    }
  }

  lemma {:induction false} PriorityOrderUnique(cs: seq<Config>)
    requires UniqueConfigIds(cs)
    ensures UniqueConfigIds(PriorityOrder(cs))
    decreases |cs|
  {
    if |cs| > 0 {
      var tail := cs[1..];
      assert UniqueConfigIds(tail) by {
        forall i, j | 0 <= i < j < |tail| ensures tail[i].id != tail[j].id {
          assert tail[i] == cs[i + 1] && tail[j] == cs[j + 1];
        }
      }
      PriorityOrderUnique(tail);
      TailAvoidsHeadId(cs);
      InsertByPriorityUnique(cs[0], PriorityOrder(tail));
    }
  }

  /** A single configuration is visited alone. */
  lemma PriorityOrderSingle(c: Config)
    ensures PriorityOrder([c]) == [c]
  {
    assert PriorityOrder([c])[0] in [c];
  }

  /** In the searched order, a configuration with a strictly smaller key comes first. */
  lemma StrictlyEarlierKeyComesFirst(s: seq<Config>, i: nat, j: nat)
    requires PriorityOrdered(s) && i < |s| && j < |s|
    requires PriorityLeq(s[i], s[j]) && !PriorityLeq(s[j], s[i])
    ensures i < j
  {
    if i == j {
      PriorityLeqReflexive(s[i]);
    }
  }

  // ---------------------------------------------------------------------------
  // `_get_partner_domain`: the partners a configuration applies to
  // ---------------------------------------------------------------------------

  /** The evaluated `partner_domain`, leaf by leaf; nothing when the field is empty. */
  function ExtraDomain(c: Config): (d: seq<Term>)
    ensures forall t :: t in d ==> t.Opaque?
    ensures c.partnerDomain.Some? ==> |d| == |c.partnerDomain.value|
    ensures c.partnerDomain.None? ==> d == []
    ensures c.partnerDomain.Some? ==> forall k :: 0 <= k < |d| ==> d[k] == Opaque(c.partnerDomain.value[k])
  {
    match c.partnerDomain
    case None => []
    case Some(leaves) => seq(|leaves|, k requires 0 <= k < |leaves| => Opaque(leaves[k]))
  }

  /**
   * The domain of a configuration: the email clause when an email is
   * required, then the category clause when a category is set, then the
   * leaves of the extra domain, all in one flat list.
   */
  function GetPartnerDomain(c: Config): (d: seq<Term>)
    ensures EmailSet in d <==> c.mustHaveEmail
    ensures forall k: nat :: CategoryIs(k) in d <==> c.categoryId == Some(k)
    ensures forall t :: t in d ==> t.EmailSet? || t.CategoryIs? || t.Opaque?
    ensures c.mustHaveEmail ==> d[0] == EmailSet
    ensures c.categoryId.Some? ==> d[if c.mustHaveEmail then 1 else 0] == CategoryIs(c.categoryId.value)
    ensures d[(if c.mustHaveEmail then 1 else 0) + (if c.categoryId.Some? then 1 else 0)..] == ExtraDomain(c)
  {
    var email := if c.mustHaveEmail then [EmailSet] else [];
    var category := if c.categoryId.Some? then [CategoryIs(c.categoryId.value)] else [];
    assert forall t :: t in email + category + ExtraDomain(c) ==> t in email || t in category || t in ExtraDomain(c);
    email + category + ExtraDomain(c)
  }

  /** `_get_partner_domain` as the source builds it: clause by clause, appending to a list. */
  method BuildPartnerDomain(c: Config) returns (d: seq<Term>)
    ensures d == GetPartnerDomain(c)
  {
    d := [];
    if c.mustHaveEmail {
      d := d + [EmailSet];
    }
    if c.categoryId.Some? {
      d := d + [CategoryIs(c.categoryId.value)];
    }
    if c.partnerDomain.Some? {
      d := d + ExtraDomain(c);
    }
  }

  /**
   * What the configuration asks of a partner, clause by clause: an email
   * when one is required, the category when one is set, and every leaf of the
   * extra domain.  DomainSearchMatches shows this is what searching with the
   * configuration's domain finds.
   */
  predicate Matches(c: Config, p: Partner)
  {
    && (c.mustHaveEmail ==> p.email.Some?)
    && (c.categoryId.Some? ==> c.categoryId.value in p.categoryIds)
    && (c.partnerDomain.Some? ==> forall leaf :: leaf in c.partnerDomain.value ==> leaf in p.holds)
  }

  /** The extra domain holds of a partner when each of its leaves does. */
  lemma ExtraDomainMeaning(c: Config, p: Partner)
    ensures SatisfiesDomain(p, ExtraDomain(c)) <==>
      (c.partnerDomain.Some? ==> forall leaf :: leaf in c.partnerDomain.value ==> leaf in p.holds)
  {
    var d := ExtraDomain(c);
    SatisfiesDomainEvery(p, d);
    if c.partnerDomain.Some? {
      var leaves := c.partnerDomain.value;
      if SatisfiesDomain(p, d) {
        forall leaf | leaf in leaves ensures leaf in p.holds {
          var k :| 0 <= k < |leaves| && leaves[k] == leaf;
          assert d[k] == Opaque(leaf);
          assert Opaque(leaf) in d;
          assert Satisfies(p, Opaque(leaf));
        }
      }
    }
  }

  /** A search with the configuration's domain finds exactly the partners the configuration matches. */
  lemma DomainSearchMatches(c: Config, p: Partner)
    ensures SatisfiesDomain(p, GetPartnerDomain(c)) <==> Matches(c, p)
  {
    var email := if c.mustHaveEmail then [EmailSet] else [];
    var category := if c.categoryId.Some? then [CategoryIs(c.categoryId.value)] else [];
    assert GetPartnerDomain(c) == email + category + ExtraDomain(c);
    SatisfiesDomainConcat(p, email + category, ExtraDomain(c));
    SatisfiesDomainConcat(p, email, category);
    ExtraDomainMeaning(c, p);
    assert SatisfiesDomain(p, email) <==> (c.mustHaveEmail ==> p.email.Some?);
    assert SatisfiesDomain(p, category) <==> (c.categoryId.Some? ==> c.categoryId.value in p.categoryIds);
  }

  // ---------------------------------------------------------------------------
  // Ownership: the first configuration in order whose domain matches
  // ---------------------------------------------------------------------------

  /** The position of the first configuration of `ordered` that matches `p`. */
  function FirstMatch(ordered: seq<Config>, p: Partner): (r: Option<nat>)
    ensures r.Some? ==> r.value < |ordered| && Matches(ordered[r.value], p)
    ensures r.Some? ==> forall j :: 0 <= j < r.value ==> !Matches(ordered[j], p)
    ensures r.None? ==> forall j :: 0 <= j < |ordered| ==> !Matches(ordered[j], p)
    decreases |ordered|
  {
    if |ordered| == 0 then None
    else
      var n := |ordered| - 1;
      var earlier := FirstMatch(ordered[..n], p);
      assert forall j :: 0 <= j < n ==> ordered[..n][j] == ordered[j];
      if earlier.Some? then earlier
      else if Matches(ordered[n], p) then Some(n) else None
  }

  /** The id of the configuration of `ordered` that claims `p`, if one does. */
  function OwnerIn(ordered: seq<Config>, p: Partner): Option<nat>
  {
    match FirstMatch(ordered, p)
    case Some(k) => Some(ordered[k].id)
    case None => None
  }

  /** The configuration that owns `p` once the update has run. */
  function Owner(configs: seq<Config>, p: Partner): Option<nat>
  {
    OwnerIn(PriorityOrder(configs), p)
  }

  /** Visiting one more configuration claims the partner only if it was not claimed before. */
  lemma OwnerInExtend(earlier: seq<Config>, c: Config, p: Partner)
    ensures OwnerIn(earlier + [c], p) ==
      if OwnerIn(earlier, p).Some? then OwnerIn(earlier, p)
      else if Matches(c, p) then Some(c.id)
      else None
  {
    assert (earlier + [c])[..|earlier|] == earlier;
  }

  lemma {:induction false} FirstMatchIgnoresLink(ordered: seq<Config>, p: Partner, link: Option<nat>)
    ensures FirstMatch(ordered, p.(managementId := link)) == FirstMatch(ordered, p)
    decreases |ordered|
  {
    if |ordered| > 0 {
      FirstMatchIgnoresLink(ordered[..|ordered| - 1], p, link);
    }
  }

  /** A claim is never overwritten: once a partner is claimed, later configurations leave it alone. */
  lemma {:induction false} OwnerInStable(earlier: seq<Config>, later: seq<Config>, p: Partner)
    requires OwnerIn(earlier, p).Some?
    ensures OwnerIn(earlier + later, p) == OwnerIn(earlier, p)
    decreases |later|
  {
    if |later| == 0 {
      assert earlier + later == earlier;
    } else {
      var m := |later| - 1;
      var e := earlier + later[..m];
      OwnerInStable(earlier, later[..m], p);
      assert e + [later[m]] == earlier + later;
      OwnerInExtend(e, later[m], p);
    }
  }

  /**
   * A partner is owned by the configuration at position `k` of the searched
   * order exactly when that configuration matches it and none before it does.
   */
  lemma OwnerIsFirstMatch(configs: seq<Config>, p: Partner, k: nat)
    requires UniqueConfigIds(configs)
    requires k < |configs|
    ensures var ordered := PriorityOrder(configs);
      Owner(configs, p) == Some(ordered[k].id) <==>
        Matches(ordered[k], p) && forall j :: 0 <= j < k ==> !Matches(ordered[j], p)
  {
    var ordered := PriorityOrder(configs);
    var r := FirstMatch(ordered, p);
    PriorityOrderUnique(configs);
    if Owner(configs, p) == Some(ordered[k].id) {
      var m := r.value;
      assert ordered[m].id == ordered[k].id;
      assert m == k;
    }
    if Matches(ordered[k], p) && forall j :: 0 <= j < k ==> !Matches(ordered[j], p) {
      assert r.Some?;
      assert r.value == k;
    }
  }

  /**
   * The owner matches the partner, and no configuration with a strictly
   * better `(sequence, name)` key matches it.
   */
  lemma OwnerHasBestKey(configs: seq<Config>, p: Partner, c: Config)
    requires UniqueConfigIds(configs)
    requires c in configs && Owner(configs, p) == Some(c.id)
    ensures Matches(c, p)
    ensures forall d :: d in configs && PriorityLeq(d, c) && !PriorityLeq(c, d) ==> !Matches(d, p)
  {
    var ordered := PriorityOrder(configs);
    var k := FirstMatch(ordered, p).value;
    PriorityOrderUnique(configs);
    PriorityOrderOrdered(configs);
    var i :| 0 <= i < |ordered| && ordered[i] == c;
    assert ordered[k].id == c.id;
    assert i == k;
    forall d | d in configs && PriorityLeq(d, c) && !PriorityLeq(c, d) ensures !Matches(d, p) {
      var j :| 0 <= j < |ordered| && ordered[j] == d;
      StrictlyEarlierKeyComesFirst(ordered, j, k);
    }
  }

  /** A partner that no configuration matches has no owner. */
  lemma UnmatchedHasNoOwner(configs: seq<Config>, p: Partner)
    requires forall c :: c in configs ==> !Matches(c, p)
    ensures Owner(configs, p).None?
  {
  }

  /** A configuration that requires an email never owns a partner without one. */
  lemma NoEmailNoOwnerRequiringEmail(configs: seq<Config>, p: Partner, c: Config)
    requires UniqueConfigIds(configs)
    requires c in configs && c.mustHaveEmail && p.email.None?
    ensures Owner(configs, p) != Some(c.id)
  {
    if Owner(configs, p) == Some(c.id) {
      OwnerHasBestKey(configs, p, c);
    }
  }

  /** Every partner with its link set to its owner: the state the update leaves behind. */
  function Assigned(ps: seq<Partner>, configs: seq<Config>): (r: seq<Partner>)
    ensures |r| == |ps|
    ensures forall i :: 0 <= i < |ps| ==> r[i] == ps[i].(managementId := Owner(configs, ps[i]))
  {
    seq(|ps|, i requires 0 <= i < |ps| => ps[i].(managementId := Owner(configs, ps[i])))
  }

  /** Running the update a second time changes nothing. */
  lemma AssignedIdempotent(ps: seq<Partner>, configs: seq<Config>)
    ensures Assigned(Assigned(ps, configs), configs) == Assigned(ps, configs)
  {
    var once := Assigned(ps, configs);
    forall i | 0 <= i < |ps| ensures Assigned(once, configs)[i] == once[i] {
      FirstMatchIgnoresLink(PriorityOrder(configs), ps[i], Owner(configs, ps[i]));
    }
  }

  // ---------------------------------------------------------------------------
  // The auto-creation job: which partners get an account
  // ---------------------------------------------------------------------------

  /** The configurations with `auto_create_user` set, in the searched order. */
  function AutoCreateConfigs(ordered: seq<Config>): (r: seq<Config>)
    ensures forall c :: c in r <==> c in ordered && c.autoCreateUser
    ensures |r| <= |ordered|
    decreases |ordered|
  {
    if |ordered| == 0 then []
    else
      var n := |ordered| - 1;
      assert ordered == ordered[..n] + [ordered[n]];
      AutoCreateConfigs(ordered[..n]) + (if ordered[n].autoCreateUser then [ordered[n]] else [])
  }

  /** Appending a configuration whose id is new keeps the ids distinct. */
  lemma UniqueIdsSnoc(a: seq<Config>, x: Config)
    requires UniqueConfigIds(a) && forall c :: c in a ==> c.id != x.id
    ensures UniqueConfigIds(a + [x])
  {
    var r := a + [x];
    forall i, j | 0 <= i < j < |r| ensures r[i].id != r[j].id {
      if j == |a| {
        assert r[i] in a;
      } else {
        assert r[i] == a[i] && r[j] == a[j];
      }
    }
  }

  lemma {:induction false} AutoCreateConfigsUnique(ordered: seq<Config>)
    requires UniqueConfigIds(ordered)
    ensures UniqueConfigIds(AutoCreateConfigs(ordered))
    decreases |ordered|
  {
    if |ordered| > 0 {
      var n := |ordered| - 1;
      var prefix := ordered[..n];
      assert UniqueConfigIds(prefix);
      AutoCreateConfigsUnique(prefix);
      var earlier := AutoCreateConfigs(prefix);
      if ordered[n].autoCreateUser {
        forall c | c in earlier ensures c.id != ordered[n].id {
          var m :| 0 <= m < n && prefix[m] == c;
        }
        UniqueIdsSnoc(earlier, ordered[n]);
        assert AutoCreateConfigs(ordered) == earlier + [ordered[n]];
      } else {
        assert AutoCreateConfigs(ordered) == earlier + [];
      }
    }
  }

  /** The partners one configuration considers in one run: its own, without a user, at most 256. */
  function AutoCreateBatch(ps: seq<Partner>, c: Config): (r: seq<Partner>)
    ensures |r| <= AutoCreateLimit
    ensures forall p :: p in r ==> p in ps && p.managementId == Some(c.id) && |p.userIds| == 0
    ensures UniquePartnerIds(ps) ==> UniquePartnerIds(r)
  {
    var d := [ManagedBy(c.id), WithoutUsers];
    var r := Search(ps, d, AutoCreateLimit);
    forall p | p in r ensures Satisfies(p, d[0]) && Satisfies(p, d[1]) {
      SatisfiesDomainEvery(p, d);
      assert d[0] in d && d[1] in d;
    }
    r
  }

  /** Below the limit, the batch holds every partner the configuration owns that has no user. */
  lemma AutoCreateBatchComplete(ps: seq<Partner>, c: Config, p: Partner)
    requires |AutoCreateBatch(ps, c)| < AutoCreateLimit
    requires p in ps && p.managementId == Some(c.id) && |p.userIds| == 0
    ensures p in AutoCreateBatch(ps, c)
  {
    var d := [ManagedBy(c.id), WithoutUsers];
    SatisfiesDomainEvery(p, d);
  }

  /** The accounts asked for on behalf of `c` for the partners of `batch` that have a login. */
  function BatchRequests(c: Config, batch: seq<Partner>): seq<AccountRequest>
    decreases |batch|
  {
    if |batch| == 0 then []
    else
      var p := batch[|batch| - 1];
      var login := GetLogin(p);
      BatchRequests(c, batch[..|batch| - 1]) +
        if login.Some? then [AccountRequest(p.id, login.value, Some(c.id))] else []
  }

  lemma BatchRequestsStep(c: Config, batch: seq<Partner>, i: nat)
    requires i < |batch|
    ensures BatchRequests(c, batch[..i + 1]) == BatchRequests(c, batch[..i]) +
      if GetLogin(batch[i]).Some? then [AccountRequest(batch[i].id, GetLogin(batch[i]).value, Some(c.id))] else []
  {
    assert batch[..i + 1][..i] == batch[..i];
  }

  /** The accounts the job asks for when it visits the configurations of `autoCreate` in turn. */
  function CronRequests(ps: seq<Partner>, autoCreate: seq<Config>): seq<AccountRequest>
    decreases |autoCreate|
  {
    if |autoCreate| == 0 then []
    else
      var c := autoCreate[|autoCreate| - 1];
      CronRequests(ps, autoCreate[..|autoCreate| - 1]) + BatchRequests(c, AutoCreateBatch(ps, c))
  }

  lemma CronRequestsStep(ps: seq<Partner>, autoCreate: seq<Config>, k: nat)
    requires k < |autoCreate|
    ensures CronRequests(ps, autoCreate[..k + 1])
      == CronRequests(ps, autoCreate[..k]) + BatchRequests(autoCreate[k], AutoCreateBatch(ps, autoCreate[k]))
  {
    assert autoCreate[..k + 1][..k] == autoCreate[..k];
  }

  /** Each request of a batch is for a partner of the batch with an email, and that email is the login. */
  lemma {:induction false} BatchRequestsSound(c: Config, batch: seq<Partner>, q: AccountRequest)
    requires q in BatchRequests(c, batch)
    ensures exists p :: p in batch && GetLogin(p).Some? && q == AccountRequest(p.id, GetLogin(p).value, Some(c.id))
    decreases |batch|
  {
    var n := |batch| - 1;
    var p := batch[n];
    if q in BatchRequests(c, batch[..n]) {
      BatchRequestsSound(c, batch[..n], q);
      var p' :| p' in batch[..n] && GetLogin(p').Some? && q == AccountRequest(p'.id, GetLogin(p').value, Some(c.id));
      assert p' in batch;
    } else {
      assert q == AccountRequest(p.id, GetLogin(p).value, Some(c.id));
    }
  }

  /** Every partner of the batch that has an email gets a request. */
  lemma {:induction false} BatchRequestsComplete(c: Config, batch: seq<Partner>, p: Partner)
    requires p in batch && GetLogin(p).Some?
    ensures AccountRequest(p.id, GetLogin(p).value, Some(c.id)) in BatchRequests(c, batch)
    decreases |batch|
  {
    var n := |batch| - 1;
    if batch[n] != p {
      var i :| 0 <= i < |batch| && batch[i] == p;
      assert batch[..n][i] == p;
      BatchRequestsComplete(c, batch[..n], p);
    }
  }

  /**
   * A partner of the batch without a login, unset or stored empty, is
   * skipped: no request names it.
   */
  lemma BatchSkipsNoLogin(c: Config, batch: seq<Partner>, p: Partner)
    requires UniquePartnerIds(batch) && p in batch && GetLogin(p).None?
    ensures forall q :: q in BatchRequests(c, batch) ==> q.partnerId != p.id
  {
    forall q | q in BatchRequests(c, batch) ensures q.partnerId != p.id {
      BatchRequestsSound(c, batch, q);
      var p' :| p' in batch && GetLogin(p').Some? && q == AccountRequest(p'.id, GetLogin(p').value, Some(c.id));
      if p'.id == p.id {
        SameIdSamePartner(batch, p, p');
      }
    }
  }

  lemma {:induction false} BatchRequestsBound(c: Config, batch: seq<Partner>)
    ensures |BatchRequests(c, batch)| <= |batch|
    decreases |batch|
  {
    if |batch| > 0 {
      BatchRequestsBound(c, batch[..|batch| - 1]);
    }
  }

  /**
   * Every account the job asks for is for a partner, without a user, owned by
   * an auto-creating configuration, with its email as login.
   */
  lemma {:induction false} CronRequestsSound(ps: seq<Partner>, autoCreate: seq<Config>, q: AccountRequest)
    requires q in CronRequests(ps, autoCreate)
    ensures exists c, p ::
      && c in autoCreate && p in ps && p.managementId == Some(c.id)
      && |p.userIds| == 0 && GetLogin(p).Some? && q == AccountRequest(p.id, GetLogin(p).value, Some(c.id))
    decreases |autoCreate|
  {
    var n := |autoCreate| - 1;
    var c := autoCreate[n];
    if q in CronRequests(ps, autoCreate[..n]) {
      CronRequestsSound(ps, autoCreate[..n], q);
      var c', p' :| c' in autoCreate[..n] && p' in ps && p'.managementId == Some(c'.id) &&
        |p'.userIds| == 0 && GetLogin(p').Some? && q == AccountRequest(p'.id, GetLogin(p').value, Some(c'.id));
      assert c' in autoCreate;
    } else {
      var batch := AutoCreateBatch(ps, c);
      BatchRequestsSound(c, batch, q);
      var p :| p in batch && GetLogin(p).Some? && q == AccountRequest(p.id, GetLogin(p).value, Some(c.id));
      assert c in autoCreate;
    }
  }

  /** A partner in the batch of a visited configuration gets its account when it has an email. */
  lemma {:induction false} CronRequestsComplete(ps: seq<Partner>, autoCreate: seq<Config>, c: Config, p: Partner)
    requires c in autoCreate && p in AutoCreateBatch(ps, c) && GetLogin(p).Some?
    ensures AccountRequest(p.id, GetLogin(p).value, Some(c.id)) in CronRequests(ps, autoCreate)
    decreases |autoCreate|
  {
    var n := |autoCreate| - 1;
    if autoCreate[n] == c {
      BatchRequestsComplete(c, AutoCreateBatch(ps, c), p);
    } else {
      var i :| 0 <= i < |autoCreate| && autoCreate[i] == c;
      assert autoCreate[..n][i] == c;
      CronRequestsComplete(ps, autoCreate[..n], c, p);
    }
  }

  /**
   * A partner without a user, owned by a visited configuration, gets its
   * account (its email as login) unless that configuration's batch is full.
   */
  lemma CronRequestsOwnedComplete(ps: seq<Partner>, autoCreate: seq<Config>, c: Config, p: Partner)
    requires c in autoCreate && |AutoCreateBatch(ps, c)| < AutoCreateLimit
    requires p in ps && p.managementId == Some(c.id) && |p.userIds| == 0 && GetLogin(p).Some?
    ensures AccountRequest(p.id, GetLogin(p).value, Some(c.id)) in CronRequests(ps, autoCreate)
  {
    AutoCreateBatchComplete(ps, c, p);
    CronRequestsComplete(ps, autoCreate, c, p);
  }

  /** Within one batch, no partner is asked an account for twice. */
  lemma {:induction false} BatchRequestsOnePerPartner(c: Config, batch: seq<Partner>)
    requires UniquePartnerIds(batch)
    ensures OneRequestPerPartner(BatchRequests(c, batch))
    decreases |batch|
  {
    if |batch| > 0 {
      var n := |batch| - 1;
      var p := batch[n];
      assert UniquePartnerIds(batch[..n]);
      BatchRequestsOnePerPartner(c, batch[..n]);
      var last := if GetLogin(p).Some? then [AccountRequest(p.id, GetLogin(p).value, Some(c.id))] else [];
      forall q, r | q in BatchRequests(c, batch[..n]) && r in last ensures q.partnerId != r.partnerId {
        BatchRequestsSound(c, batch[..n], q);
        var p' :| p' in batch[..n] && GetLogin(p').Some? && q == AccountRequest(p'.id, GetLogin(p').value, Some(c.id));
        var m :| 0 <= m < n && batch[..n][m] == p';
        assert batch[m] == p';
      }
      JoinOneRequestPerPartner(BatchRequests(c, batch[..n]), last);
    }
  }

  /**
   * One run of the job asks at most one account per partner: each partner is
   * owned by one configuration, and so is in one batch only.
   */
  lemma {:induction false} CronRequestsOnePerPartner(ps: seq<Partner>, autoCreate: seq<Config>)
    requires UniquePartnerIds(ps) && UniqueConfigIds(autoCreate)
    ensures OneRequestPerPartner(CronRequests(ps, autoCreate))
    decreases |autoCreate|
  {
    if |autoCreate| > 0 {
      var n := |autoCreate| - 1;
      var c := autoCreate[n];
      var batch := AutoCreateBatch(ps, c);
      assert UniqueConfigIds(autoCreate[..n]);
      CronRequestsOnePerPartner(ps, autoCreate[..n]);
      BatchRequestsOnePerPartner(c, batch);
      forall q, r | q in CronRequests(ps, autoCreate[..n]) && r in BatchRequests(c, batch)
        ensures q.partnerId != r.partnerId
      {
        CronRequestsSound(ps, autoCreate[..n], q);
        var c', p' :| && c' in autoCreate[..n] && p' in ps && p'.managementId == Some(c'.id)
                      && |p'.userIds| == 0 && GetLogin(p').Some? && q == AccountRequest(p'.id, GetLogin(p').value, Some(c'.id));
        BatchRequestsSound(c, batch, r);
        var p :| p in batch && GetLogin(p).Some? && r == AccountRequest(p.id, GetLogin(p).value, Some(c.id));
        if p.id == p'.id {
          SameIdSamePartner(ps, p, p');
        }
      }
      JoinOneRequestPerPartner(CronRequests(ps, autoCreate[..n]), BatchRequests(c, batch));
    }
  }

  /** A whole run of the job, over any partner table with distinct ids, asks at most one account per partner. */
  lemma JobAsksOncePerPartner(ps: seq<Partner>, configs: seq<Config>)
    requires UniquePartnerIds(ps) && UniqueConfigIds(configs)
    ensures OneRequestPerPartner(CronRequests(ps, AutoCreateConfigs(PriorityOrder(configs))))
  {
    PriorityOrderUnique(configs);
    AutoCreateConfigsUnique(PriorityOrder(configs));
    CronRequestsOnePerPartner(ps, AutoCreateConfigs(PriorityOrder(configs)));
  }

  // ---------------------------------------------------------------------------
  // The scenario of the module's test
  // ---------------------------------------------------------------------------

  /** The test's configuration: high priority, email required, extra domain on `ref`, auto-creating. */
  const TestConfig: Config := Config(1, Some("Test management config"), 1, true, None, Some(["ref = PUM0001"]),
                                     None, false, false, true, false)

  /** The test's partner, with reference PUM0001, no user, no company and no link yet. */
  function TestPartner(email: Option<string>): (p: Partner)
    ensures p.email == email && "ref = PUM0001" in p.holds && p.managementId.None? && |p.userIds| == 0
  {
    Partner(1, email, {}, [], None, None, {"ref = PUM0001"})
  }

  lemma TestOrder()
    ensures PriorityOrder([TestConfig]) == [TestConfig]
    ensures AutoCreateConfigs([TestConfig]) == [TestConfig]
  {
    PriorityOrderSingle(TestConfig);
    assert [TestConfig][..0] == [];
  }

  /**
   * The test, step by step: the domain is the flat email-and-reference list;
   * without an email the partner stays unmanaged; with one it is managed by the
   * configuration.
   */
  lemma TestOwnership()
    ensures GetPartnerDomain(TestConfig) == [EmailSet, Opaque("ref = PUM0001")]
    ensures Assigned([TestPartner(None)], [TestConfig]) == [TestPartner(None)]
    ensures Assigned([TestPartner(Some("janboezeroen@example.com"))], [TestConfig])
      == [TestPartner(Some("janboezeroen@example.com")).(managementId := Some(TestConfig.id))]
  {
    var cfg := TestConfig;
    TestOrder();
    assert GetPartnerDomain(cfg) == [EmailSet] + [] + [Opaque("ref = PUM0001")];
    var bare := TestPartner(None);
    assert !Matches(cfg, bare);
    assert FirstMatch([cfg], bare).None? by {
      assert [cfg][..0] == [];
    }
    assert Assigned([bare], [cfg])[0] == bare;
    var mailed := TestPartner(Some("janboezeroen@example.com"));
    assert Matches(cfg, mailed);
    assert FirstMatch([cfg], mailed) == Some(0) by {
      assert [cfg][..0] == [];
    }
  }

  /** The test's job, once the partner is managed: it asks the partner's account, its email as login. */
  lemma TestAutoCreate()
    ensures var after := Assigned([TestPartner(Some("janboezeroen@example.com"))], [TestConfig]);
      CronRequests(after, AutoCreateConfigs(PriorityOrder([TestConfig])))
        == [AccountRequest(1, "janboezeroen@example.com", Some(TestConfig.id))]
  {
    var cfg := TestConfig;
    TestOrder();
    TestOwnership();
    var after := [TestPartner(Some("janboezeroen@example.com")).(managementId := Some(1))];
    var batch := AutoCreateBatch(after, cfg);
    assert batch == after by {
      var d := [ManagedBy(1), WithoutUsers];
      assert SatisfiesDomain(after[0], d[1..]);
      assert SatisfiesDomain(after[0], d);
      assert Search(after[1..], d, AutoCreateLimit - 1) == [];
      assert Search(after, d, AutoCreateLimit) == [after[0]];
    }
    assert BatchRequests(cfg, batch) == [AccountRequest(1, "janboezeroen@example.com", Some(1))] by {
      assert batch[..0] == [];
    }
    assert [cfg][..0] == [];
  }

  // ---------------------------------------------------------------------------
  // The stored state and the two jobs that change it
  // ---------------------------------------------------------------------------

  /**
   * What holds of the partner table `ps` while the update runs: only links
   * (`managementId`) differ from `before`; `link` maps every partner id to the
   * configuration that claimed it so far; a claimed partner carries its claim;
   * and `rewritten`, the partners written so far, holds each once, exactly the
   * claimed partners whose link was something else.
   */
  ghost predicate ClaimState(ps: seq<Partner>, before: seq<Partner>, link: map<nat, Option<nat>>, rewritten: seq<nat>)
  {
    && |ps| == |before|
    && (forall i :: 0 <= i < |before| ==> ps[i] == before[i].(managementId := ps[i].managementId))
    && (forall i :: 0 <= i < |before| ==> before[i].id in link)
    && (forall i :: 0 <= i < |before| ==>
          ps[i].managementId == if link[before[i].id].Some? then link[before[i].id] else before[i].managementId)
    && NoDuplicates(rewritten)
    && (forall i :: 0 <= i < |before| ==>
          (before[i].id in rewritten <==> link[before[i].id].Some? && link[before[i].id] != before[i].managementId))
    && (forall w :: w in rewritten ==> exists i :: 0 <= i < |before| && before[i].id == w)
  }

  /** Claiming partner `i` changes the link of no other partner. */
  lemma LinkUpdateElsewhere(before: seq<Partner>, link: map<nat, Option<nat>>, i: nat, id: nat)
    requires i < |before| && UniquePartnerIds(before)
    requires forall j :: 0 <= j < |before| ==> before[j].id in link
    ensures forall j :: 0 <= j < |before| && j != i ==> link[before[i].id := Some(id)][before[j].id] == link[before[j].id]
  {
    forall j | 0 <= j < |before| && j != i
      ensures link[before[i].id := Some(id)][before[j].id] == link[before[j].id]
    {
      assert before[j].id != before[i].id;
    }
  }

  /**
   * After partner `i` has been dealt with, the claims of the first `i + 1`
   * partners include `record`, and those of the rest do not yet.
   */
  lemma OwnerAdvances(before: seq<Partner>, earlier: seq<Config>, record: Config,
                      link0: map<nat, Option<nat>>, link: map<nat, Option<nat>>, i: nat)
    requires i < |before|
    requires forall j :: 0 <= j < i ==> before[j].id in link0 && link0[before[j].id] == OwnerIn(earlier + [record], before[j])
    requires forall j :: i <= j < |before| ==> before[j].id in link0 && link0[before[j].id] == OwnerIn(earlier, before[j])
    requires forall j :: 0 <= j < |before| && j != i ==> before[j].id in link && link[before[j].id] == link0[before[j].id]
    requires before[i].id in link && link[before[i].id] == OwnerIn(earlier + [record], before[i])
    ensures forall j :: 0 <= j <= i ==> link[before[j].id] == OwnerIn(earlier + [record], before[j])
    ensures forall j :: i < j < |before| ==> link[before[j].id] == OwnerIn(earlier, before[j])
  {
  }

  /** Claiming an unclaimed partner that already carries the claim leaves it unwritten. */
  lemma ClaimKeepsLink(ps: seq<Partner>, before: seq<Partner>, link: map<nat, Option<nat>>, rewritten: seq<nat>,
                       i: nat, id: nat)
    requires UniquePartnerIds(before) && ClaimState(ps, before, link, rewritten)
    requires i < |before| && link[before[i].id].None? && ps[i].managementId == Some(id)
    ensures ClaimState(ps, before, link[before[i].id := Some(id)], rewritten)
  {
    var link1 := link[before[i].id := Some(id)];
    LinkUpdateElsewhere(before, link, i, id);
    assert before[i].id !in rewritten;
    assert before[i].managementId == Some(id);
  }

  /** Claiming an unclaimed partner that carries another link writes it, once. */
  lemma ClaimRewrites(ps: seq<Partner>, before: seq<Partner>, link: map<nat, Option<nat>>, rewritten: seq<nat>,
                      i: nat, id: nat)
    requires UniquePartnerIds(before) && ClaimState(ps, before, link, rewritten)
    requires i < |before| && link[before[i].id].None? && ps[i].managementId != Some(id)
    ensures ClaimState(ps[i := ps[i].(managementId := Some(id))], before, link[before[i].id := Some(id)],
                       rewritten + [before[i].id])
  {
    var ps1 := ps[i := ps[i].(managementId := Some(id))];
    var link1 := link[before[i].id := Some(id)];
    var rewritten1 := rewritten + [before[i].id];
    LinkUpdateElsewhere(before, link, i, id);
    assert before[i].id !in rewritten;
    assert before[i].managementId != Some(id);
    assert NoDuplicates(rewritten1) by {
      forall a, b | 0 <= a < b < |rewritten1| ensures rewritten1[a] != rewritten1[b] {
        if b == |rewritten| {
          assert rewritten1[a] == rewritten[a];
          assert rewritten[a] in rewritten;
        }
      }
    }
    forall j | 0 <= j < |before|
      ensures before[j].id in rewritten1 <==> link1[before[j].id].Some? && link1[before[j].id] != before[j].managementId
    {
      if j != i {
        assert before[j].id != before[i].id;
      }
    }
    forall j | 0 <= j < |before|
      ensures ps1[j].managementId == if link1[before[j].id].Some? then link1[before[j].id] else before[j].managementId
    {
      if j != i {
        assert before[j].id != before[i].id;
      }
    }
    forall w | w in rewritten1 ensures exists j :: 0 <= j < |before| && before[j].id == w {
      if w !in rewritten {
        assert before[i].id == w;
      }
    }
  }

  /**
   * The partner and configuration tables, and the log of account-creation
   * requests made so far.
   */
  class Store {
    var partners: seq<Partner>
    var configs: seq<Config>
    var requests: seq<AccountRequest>

    /** Records of one table have distinct ids. */
    ghost predicate Valid()
      reads this
    {
      UniquePartnerIds(partners) && UniqueConfigIds(configs)
    }

    constructor (partners0: seq<Partner>, configs0: seq<Config>)
      requires UniquePartnerIds(partners0) && UniqueConfigIds(configs0)
      ensures Valid()
      ensures partners == partners0 && configs == configs0 && requests == []
    {
      partners := partners0;
      configs := configs0;
      requests := [];
    }

    /** What holds of the partner table while the update runs (see ClaimState). */
    ghost predicate Claiming(before: seq<Partner>, link: map<nat, Option<nat>>, rewritten: seq<nat>)
      reads this
    {
      ClaimState(partners, before, link, rewritten)
    }

    /** One step of the inner loop of the update: `record` claims partner `i` if it matches and is unclaimed. */
    method ClaimPartner(record: Config, domain: seq<Term>, i: nat, link0: map<nat, Option<nat>>, rewritten0: seq<nat>,
                        ghost before: seq<Partner>, ghost earlier: seq<Config>)
      returns (link: map<nat, Option<nat>>, rewritten: seq<nat>)
      requires domain == GetPartnerDomain(record)
      requires i < |before| && UniquePartnerIds(before)
      requires Claiming(before, link0, rewritten0)
      requires forall j :: 0 <= j < i ==> link0[before[j].id] == OwnerIn(earlier + [record], before[j])
      requires forall j :: i <= j < |before| ==> link0[before[j].id] == OwnerIn(earlier, before[j])
      modifies this`partners
      ensures Claiming(before, link, rewritten)
      ensures forall j :: 0 <= j <= i ==> link[before[j].id] == OwnerIn(earlier + [record], before[j])
      ensures forall j :: i < j < |before| ==> link[before[j].id] == OwnerIn(earlier, before[j])
    {
      link, rewritten := link0, rewritten0;
      OwnerInExtend(earlier, record, before[i]);
      DomainSearchMatches(record, partners[i]);
      assert partners[i].id == before[i].id && Matches(record, partners[i]) == Matches(record, before[i]);
      // the partner is among those `search(partner_domain)` returns
      if SatisfiesDomain(partners[i], domain) && link[partners[i].id].None? {
        if partners[i].managementId != Some(record.id) {
          ClaimRewrites(partners, before, link, rewritten, i, record.id);
          link := link[partners[i].id := Some(record.id)];
          partners := partners[i := partners[i].(managementId := Some(record.id))];
          rewritten := rewritten + [partners[i].id];
        } else {
          ClaimKeepsLink(partners, before, link, rewritten, i, record.id);
          link := link[partners[i].id := Some(record.id)];
        }
        LinkUpdateElsewhere(before, link0, i, record.id);
      }
      OwnerAdvances(before, earlier, record, link0, link, i);
    }

    /**
     * One pass of the outer loop of the update: `record` claims every
     * partner its domain matches that no earlier configuration claimed.
     */
    method ClaimPartners(record: Config, link0: map<nat, Option<nat>>, rewritten0: seq<nat>,
                         ghost before: seq<Partner>, ghost earlier: seq<Config>)
      returns (link: map<nat, Option<nat>>, rewritten: seq<nat>)
      requires UniquePartnerIds(before)
      requires Claiming(before, link0, rewritten0)
      requires forall j :: 0 <= j < |before| ==> link0[before[j].id] == OwnerIn(earlier, before[j])
      modifies this
      ensures configs == old(configs) && requests == old(requests)
      ensures Claiming(before, link, rewritten)
      ensures forall j :: 0 <= j < |before| ==> link[before[j].id] == OwnerIn(earlier + [record], before[j])
    {
      link, rewritten := link0, rewritten0;
      var domain := BuildPartnerDomain(record);
      // the partners the search with the record's domain returns, in storage order
      var i := 0;
      while i < |partners|
        invariant 0 <= i <= |partners| == |before|
        invariant configs == old(configs) && requests == old(requests)
        invariant Claiming(before, link, rewritten)
        invariant forall j :: 0 <= j < i ==> link[before[j].id] == OwnerIn(earlier + [record], before[j])
        invariant forall j :: i <= j < |before| ==> link[before[j].id] == OwnerIn(earlier, before[j])
      {
        link, rewritten := ClaimPartner(record, domain, i, link, rewritten, before, earlier);
        i := i + 1;
      }
    }

    /** The second loop of the update: partners linked but claimed by nobody lose their link. */
    method UnlinkUnclaimed(link: map<nat, Option<nat>>, rewritten0: seq<nat>, ghost before: seq<Partner>)
      returns (rewritten: seq<nat>)
      requires UniquePartnerIds(before)
      requires Claiming(before, link, rewritten0)
      modifies this
      ensures configs == old(configs) && requests == old(requests)
      ensures |partners| == |before|
      ensures forall j :: 0 <= j < |before| ==> partners[j] == before[j].(managementId := link[before[j].id])
      ensures NoDuplicates(rewritten)
      ensures forall j :: 0 <= j < |before| ==> (before[j].id in rewritten <==> link[before[j].id] != before[j].managementId)
      ensures forall w :: w in rewritten ==> exists j :: 0 <= j < |before| && before[j].id == w
    {
      rewritten := rewritten0;
      var i := 0;
      while i < |partners|
        invariant 0 <= i <= |partners| == |before|
        invariant configs == old(configs) && requests == old(requests)
        invariant forall j :: 0 <= j < |before| ==> partners[j] == before[j].(managementId := partners[j].managementId)
        invariant forall j :: 0 <= j < |before| ==> before[j].id in link
        invariant forall j :: 0 <= j < i ==> partners[j].managementId == link[before[j].id]
        invariant forall j :: i <= j < |before| ==>
          partners[j].managementId == if link[before[j].id].Some? then link[before[j].id] else before[j].managementId
        invariant NoDuplicates(rewritten)
        invariant forall j :: 0 <= j < i ==> (before[j].id in rewritten <==> link[before[j].id] != before[j].managementId)
        invariant forall j :: i <= j < |before| ==>
          (before[j].id in rewritten <==> link[before[j].id].Some? && link[before[j].id] != before[j].managementId)
        invariant forall w :: w in rewritten ==> exists j :: 0 <= j < |before| && before[j].id == w
      {
        if partners[i].managementId.Some? && link[partners[i].id].None? {
          partners := partners[i := partners[i].(managementId := None)];
          rewritten := rewritten + [partners[i].id];
        }
        i := i + 1;
      }
    }

    /**
     * `update_partner_user_management`: links every partner to the first
     * configuration in order whose domain matches it and unlinks the rest.
     * Returns the ids of the partners it wrote, in writing order: exactly the
     * partners whose link changes, each written once.
     */
    method UpdatePartnerUserManagement() returns (rewritten: seq<nat>)
      requires Valid()
      modifies this
      ensures Valid()
      ensures configs == old(configs) && requests == old(requests)
      ensures partners == Assigned(old(partners), configs)
      ensures NoDuplicates(rewritten)
      ensures forall i :: 0 <= i < |partners| ==>
        (partners[i].id in rewritten <==> old(partners)[i].managementId != partners[i].managementId)
      ensures forall w :: w in rewritten ==> exists i :: 0 <= i < |partners| && partners[i].id == w
    {
      ghost var before := partners;
      // partner_management_link: every partner id, claimed by no configuration yet
      var link: map<nat, Option<nat>> := map i | 0 <= i < |partners| :: partners[i].id := None;
      rewritten := [];
      var ordered := PriorityOrder(configs);
      var k := 0;
      while k < |ordered|
        invariant 0 <= k <= |ordered|
        invariant configs == old(configs) && requests == old(requests)
        invariant Claiming(before, link, rewritten)
        invariant forall i :: 0 <= i < |before| ==> link[before[i].id] == OwnerIn(ordered[..k], before[i])
      {
        assert ordered[..k + 1] == ordered[..k] + [ordered[k]];
        link, rewritten := ClaimPartners(ordered[k], link, rewritten, before, ordered[..k]);
        k := k + 1;
      }
      assert ordered[..k] == ordered;
      rewritten := UnlinkUnclaimed(link, rewritten, before);
      assert UniquePartnerIds(partners) by {
        forall i, j | 0 <= i < j < |partners| ensures partners[i].id != partners[j].id {
          assert partners[i].id == before[i].id && partners[j].id == before[j].id;
        }
      }
    }

    /**
     * The inner loop of the job: one account request, on behalf of `record`,
     * for each partner of its batch that has a login.
     */
    static method AskForBatch(ps: seq<Partner>, record: Config) returns (asked: seq<AccountRequest>)
      ensures asked == BatchRequests(record, AutoCreateBatch(ps, record))
    {
      var batch := AutoCreateBatch(ps, record);
      asked := [];
      var i := 0;
      while i < |batch|
        invariant 0 <= i <= |batch|
        invariant asked == BatchRequests(record, batch[..i])
      {
        BatchRequestsStep(record, batch, i);
        var login := GetLogin(batch[i]);
        if login.Some? {
          asked := asked + [AccountRequest(batch[i].id, login.value, Some(record.id))];
        }
        i := i + 1;
      }
      assert batch[..i] == batch;
    }

    /**
     * The loop of the job after the update: for each configuration of
     * `autoCreate`, ask for an account for each partner of its batch that
     * has a login.
     */
    method RequestAccounts(autoCreate: seq<Config>)
      modifies this`requests
      ensures requests == old(requests) + CronRequests(partners, autoCreate)
    {
      var asked := AskForAll(partners, autoCreate);
      requests := requests + asked;
    }

    /** The loop over the configurations, each contributing the requests of its batch. */
    static method AskForAll(ps: seq<Partner>, autoCreate: seq<Config>) returns (asked: seq<AccountRequest>)
      ensures asked == CronRequests(ps, autoCreate)
    {
      asked := [];
      var k := 0;
      while k < |autoCreate|
        invariant 0 <= k <= |autoCreate|
        invariant asked == CronRequests(ps, autoCreate[..k])
      {
        var more := AskForBatch(ps, autoCreate[k]);
        CronRequestsStep(ps, autoCreate, k);
        asked := asked + more;
        k := k + 1;
      }
      assert autoCreate[..k] == autoCreate;
    }

    /**
     * `cron_user_auto_creation`: runs the update, then visits the
     * configurations with `auto_create_user` set, in order, asking for
     * accounts for the partners they own.
     */
    method CronUserAutoCreation()
      requires Valid()
      modifies this
      ensures Valid()
      ensures configs == old(configs)
      ensures partners == Assigned(old(partners), configs)
      ensures requests == old(requests) + CronRequests(partners, AutoCreateConfigs(PriorityOrder(configs)))
    {
      var _ := UpdatePartnerUserManagement();
      var autoCreate := AutoCreateConfigs(PriorityOrder(configs));
      RequestAccounts(autoCreate);
    }
  }
}
