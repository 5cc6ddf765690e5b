/**
 * Automatic account creation by company (`partner_user_account`): a job
 * takes a bounded batch of partners without a user and asks an account for
 * each one whose company allows it and which has a login.
 */
module PartnerAccount {
  import opened Wrappers
  import opened Records

  /** At most this many partners are examined in one run of the job. */
  const CronBatchLimit: nat := 128

  /** The company that decides for a partner: its own, or else the current user's. */
  function EffectiveCompany(p: Partner, userCompany: Company): (c: Company)
    ensures p.company.Some? ==> c == p.company.value
    ensures p.company.None? ==> c == userCompany
  {
    if p.company.Some? then p.company.value else userCompany
  }

  /** The guards of `check_autocreate`: no user yet, the deciding company allows it, and a login exists. */
  predicate AutocreateEligible(p: Partner, userCompany: Company)
  {
    |p.userIds| == 0 && EffectiveCompany(p, userCompany).enableAutocreate && GetLogin(p).Some?
  }

  /** The accounts `check_autocreate` asks for over `ps`, in order: one per eligible partner, its email as login. */
  function AutocreateRequests(ps: seq<Partner>, userCompany: Company): seq<AccountRequest>
    decreases |ps|
  {
    if |ps| == 0 then []
    else
      var p := ps[|ps| - 1];
      AutocreateRequests(ps[..|ps| - 1], userCompany) +
        if AutocreateEligible(p, userCompany) then [AccountRequest(p.id, GetLogin(p).value, None)] else []
  }

  lemma AutocreateRequestsStep(ps: seq<Partner>, userCompany: Company, i: nat)
    requires i < |ps|
    ensures AutocreateRequests(ps[..i + 1], userCompany) == AutocreateRequests(ps[..i], userCompany) +
      if AutocreateEligible(ps[i], userCompany) then [AccountRequest(ps[i].id, GetLogin(ps[i]).value, None)] else []
  {
    assert ps[..i + 1][..i] == ps[..i];
  }

  /** Every account asked for is for an eligible partner of `ps`, with its email as login. */
  lemma {:induction false} AutocreateRequestsSound(ps: seq<Partner>, userCompany: Company, q: AccountRequest)
    requires q in AutocreateRequests(ps, userCompany)
    ensures exists p :: p in ps && AutocreateEligible(p, userCompany) && q == AccountRequest(p.id, GetLogin(p).value, None)
    decreases |ps|
  {
    var n := |ps| - 1;
    if q in AutocreateRequests(ps[..n], userCompany) {
      AutocreateRequestsSound(ps[..n], userCompany, q);
      var p :| p in ps[..n] && AutocreateEligible(p, userCompany) && q == AccountRequest(p.id, GetLogin(p).value, None);
      assert p in ps;
    } else {
      assert q == AccountRequest(ps[n].id, GetLogin(ps[n]).value, None);
    }
  }

  /** Every eligible partner of `ps` gets its account asked for. */
  lemma {:induction false} AutocreateRequestsComplete(ps: seq<Partner>, userCompany: Company, p: Partner)
    requires p in ps && AutocreateEligible(p, userCompany)
    ensures AccountRequest(p.id, GetLogin(p).value, None) in AutocreateRequests(ps, userCompany)
    decreases |ps|
  {
    var n := |ps| - 1;
    if ps[n] != p {
      var i :| 0 <= i < |ps| && ps[i] == p;
      assert ps[..n][i] == p;
      AutocreateRequestsComplete(ps[..n], userCompany, p);
    }
  }

  /**
   * Nothing is asked for a partner that has a user, whose deciding company
   * does not allow it, or that has no login; with distinct ids, that covers
   * every request naming the partner's id.
   */
  lemma NoRequestForIneligible(ps: seq<Partner>, userCompany: Company, p: Partner)
    requires UniquePartnerIds(ps) && p in ps
    requires |p.userIds| > 0 || !EffectiveCompany(p, userCompany).enableAutocreate || GetLogin(p).None?
    ensures forall q :: q in AutocreateRequests(ps, userCompany) ==> q.partnerId != p.id
  {
    forall q | q in AutocreateRequests(ps, userCompany) ensures q.partnerId != p.id {
      AutocreateRequestsSound(ps, userCompany, q);
      var p' :| p' in ps && AutocreateEligible(p', userCompany) && q == AccountRequest(p'.id, GetLogin(p').value, None);
      if p'.id == p.id {
        SameIdSamePartner(ps, p, p');
      }
    }
  }

  /** At most one account per partner examined. */
  lemma {:induction false} AutocreateRequestsBound(ps: seq<Partner>, userCompany: Company)
    ensures |AutocreateRequests(ps, userCompany)| <= |ps|
    decreases |ps|
  {
    if |ps| > 0 {
      AutocreateRequestsBound(ps[..|ps| - 1], userCompany);
    }
  }

  /** `check_autocreate`: walks the partners, skipping each that fails a guard, and asks an account for the rest. */
  method CheckAutocreate(ps: seq<Partner>, userCompany: Company) returns (created: seq<AccountRequest>)
    ensures created == AutocreateRequests(ps, userCompany)
  {
    created := [];
    var i := 0;
    while i < |ps|
      invariant 0 <= i <= |ps|
      invariant created == AutocreateRequests(ps[..i], userCompany)
    {
      AutocreateRequestsStep(ps, userCompany, i);
      var partner := ps[i];
      i := i + 1;
      if |partner.userIds| > 0 {
        continue;
      }
      var company := if partner.company.Some? then partner.company.value else userCompany;
      if !company.enableAutocreate {
        continue;
      }
      var login := GetLogin(partner);
      if login.None? {
        continue;
      }
      created := created + [AccountRequest(partner.id, login.value, None)];
    }
    assert ps[..i] == ps;
  }

  /** The partners one run of the job examines: at most 128 without a user, in storage order. */
  function CronBatch(ps: seq<Partner>): (r: seq<Partner>)
    ensures |r| <= CronBatchLimit
    ensures forall p :: p in r ==> p in ps && |p.userIds| == 0
    ensures |r| < CronBatchLimit ==> forall p :: p in ps && |p.userIds| == 0 ==> p in r
    ensures UniquePartnerIds(ps) ==> UniquePartnerIds(r)
  {
    var d := [WithoutUsers];
    var r := Search(ps, d, CronBatchLimit);
    forall p | p in ps ensures SatisfiesDomain(p, d) <==> |p.userIds| == 0 {
      assert d[1..] == [];
    }
    r
  }

  /** `cron_res_partner_user_creation`: the guards of `check_autocreate` applied to one batch. */
  method CronResPartnerUserCreation(ps: seq<Partner>, userCompany: Company) returns (created: seq<AccountRequest>)
    ensures created == AutocreateRequests(CronBatch(ps), userCompany)
    ensures |created| <= CronBatchLimit
  {
    var partners := CronBatch(ps);
    created := CheckAutocreate(partners, userCompany);
    AutocreateRequestsBound(partners, userCompany);
  }

  /**
   * What one run of the job asks for: an account exactly for the eligible
   * partners of its batch, each with its email as login.
   */
  lemma CronRequestsExact(ps: seq<Partner>, userCompany: Company, p: Partner)
    requires UniquePartnerIds(ps) && p in CronBatch(ps)
    ensures (exists q :: q in AutocreateRequests(CronBatch(ps), userCompany) && q.partnerId == p.id)
      <==> AutocreateEligible(p, userCompany)
    ensures AutocreateEligible(p, userCompany) ==>
      AccountRequest(p.id, GetLogin(p).value, None) in AutocreateRequests(CronBatch(ps), userCompany)
  {
    var batch := CronBatch(ps);
    if AutocreateEligible(p, userCompany) {
      AutocreateRequestsComplete(batch, userCompany, p);
    } else {
      NoRequestForIneligible(batch, userCompany, p);
    }
  }
}
