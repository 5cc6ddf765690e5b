/**
 * What a partner manager may do for one partner (the partner side of
 * `partner_user_management`): the two permission flags computed from the
 * partner's management configuration, and the user the "show user" action
 * opens.
 */
module ManagementPartner {
  import opened Wrappers
  import opened Records
  import opened PartnerManagement

  /** The computed fields `can_create_user` and `can_sent_password_reset_mail` of one partner. */
  datatype AccountFlags = AccountFlags(canCreateUser: bool, canSendPasswordResetMail: bool)

  /** The configuration a partner's link points to; none when the link is empty or dangling. */
  function LinkedConfig(configs: seq<Config>, p: Partner): (r: Option<Config>)
    ensures r.Some? ==> r.value in configs && p.managementId == Some(r.value.id)
    ensures r.None? ==> p.managementId.None? || forall c :: c in configs ==> c.id != p.managementId.value
    decreases |configs|
  {
    if p.managementId.None? || |configs| == 0 then None
    else if configs[0].id == p.managementId.value then Some(configs[0])
    else
      var r := LinkedConfig(configs[1..], p);
      assert forall c :: c in configs ==> c == configs[0] || c in configs[1..];
      r
  }

  /**
   * The flags for a partner with management configuration `management`:
   * creating a user needs the configuration's permission and no user yet;
   * sending a reset mail needs the permission and a user.
   */
  function FlagsFor(management: Option<Config>, p: Partner): (f: AccountFlags)
    ensures management.None? ==> !f.canCreateUser && !f.canSendPasswordResetMail
    ensures f.canCreateUser <==> management.Some? && management.value.allowCreateUser && |p.userIds| == 0
    ensures f.canSendPasswordResetMail <==>
      management.Some? && management.value.allowPasswordResetMail && |p.userIds| > 0
    ensures !(f.canCreateUser && f.canSendPasswordResetMail)
  {
    match management
    case None => AccountFlags(false, false)
    case Some(m) => AccountFlags(m.allowCreateUser && |p.userIds| == 0, m.allowPasswordResetMail && |p.userIds| > 0)
  }

  /**
   * `_compute_partner_management` over a recordset: for each partner, both
   * flags off when it has no management configuration, otherwise the flags
   * its configuration grants.
   */
  method ComputePartnerManagement(partners: seq<Partner>, configs: seq<Config>) returns (flags: seq<AccountFlags>)
    ensures |flags| == |partners|
    ensures forall i :: 0 <= i < |partners| ==> flags[i] == FlagsFor(LinkedConfig(configs, partners[i]), partners[i])
  {
    flags := [];
    var i := 0;
    while i < |partners|
      invariant 0 <= i <= |partners| && |flags| == i
      invariant forall j :: 0 <= j < i ==> flags[j] == FlagsFor(LinkedConfig(configs, partners[j]), partners[j])
    {
      var partner := partners[i];
      var management := LinkedConfig(configs, partner);
      if management.None? {
        flags := flags + [AccountFlags(false, false)];
        i := i + 1;
        continue;
      }
      var m := management.value;
      flags := flags + [AccountFlags(m.allowCreateUser && |partner.userIds| == 0,
                                     m.allowPasswordResetMail && |partner.userIds| > 0)];
      i := i + 1;
    }
  }

  /** `action_show_user`: the window opens on the partner's first user, and fails when it has none. */
  function ActionShowUser(p: Partner): (r: Result<nat, OrmError>)
    ensures r.Success? <==> |p.userIds| > 0
    ensures r.Success? ==> r.value == p.userIds[0] && r.value in p.userIds
    ensures r.Failure? ==> r.error == IndexOutOfRange
  {
    if |p.userIds| == 0 then Failure(IndexOutOfRange) else Success(p.userIds[0])
  }
}
