/**
 * Group membership granted by partner relations
 * (`auth_dynamic_groups_partner_relation`): a user belongs to a group of the
 * relation type when its partner is, on the given day, the "this" side of a
 * relation of a type linked to the group.
 */
module DynamicGroups {
  import opened Wrappers

  /**
   * A row of `res_partner_relation_all`: the relation type seen from one
   * side, the partner on that side, and the validity window as day numbers
   * (None when the date is unset).
   */
  datatype RelationRow = RelationRow(typeSelectionId: nat, thisPartnerId: nat, dateStart: Option<int>, dateEnd: Option<int>)

  /** A row of `dynamic_group_relation_type_rel`: group `gid` is granted by relation type `typeSelectionId`. */
  datatype GroupTypeLink = GroupTypeLink(gid: nat, typeSelectionId: nat)

  /** `group_type`: the relation kind this module adds, or any other kind. */
  datatype GroupType = RelationGroup | OtherGroupType

  datatype Group = Group(id: nat, groupType: GroupType, allowCompanies: bool)

  datatype User = User(id: nat, partnerId: nat)

  /** The window condition of the count: unset bounds are open, set bounds are inclusive. */
  predicate ActiveOn(r: RelationRow, today: int)
  {
    (r.dateStart.None? || r.dateStart.value <= today) && (r.dateEnd.None? || r.dateEnd.value >= today)
  }

  /** One row of the join that `COUNT_RELATION_STATEMENT` counts. */
  predicate Qualifies(l: GroupTypeLink, r: RelationRow, gid: nat, partnerId: nat, today: int)
  {
    l.typeSelectionId == r.typeSelectionId && l.gid == gid && r.thisPartnerId == partnerId && ActiveOn(r, today)
  }

  /** The relation rows that pair with link `l` in the join. */
  function CountRows(l: GroupTypeLink, rows: seq<RelationRow>, gid: nat, partnerId: nat, today: int): (n: nat)
    ensures n <= |rows|
    ensures n > 0 <==> exists r :: r in rows && Qualifies(l, r, gid, partnerId, today)
    decreases |rows|
  {
    if |rows| == 0 then 0
    else
      var k := |rows| - 1;
      var earlier := CountRows(l, rows[..k], gid, partnerId, today);
      assert forall r :: r in rows <==> r in rows[..k] || r == rows[k];
      earlier + if Qualifies(l, rows[k], gid, partnerId, today) then 1 else 0
  }

  /** `COUNT_RELATION_STATEMENT` for group `gid` and partner `partnerId` on day `today`. */
  function CountRelation(links: seq<GroupTypeLink>, rows: seq<RelationRow>, gid: nat, partnerId: nat, today: int): (n: nat)
    ensures n <= |links| * |rows|
    ensures n > 0 <==> exists l, r :: l in links && r in rows && Qualifies(l, r, gid, partnerId, today)
    decreases |links|
  {
    if |links| == 0 then 0
    else
      var k := |links| - 1;
      var earlier := CountRelation(links[..k], rows, gid, partnerId, today);
      assert forall l :: l in links <==> l in links[..k] || l == links[k];
      assert (|links| - 1) * |rows| + |rows| == |links| * |rows|;
      earlier + CountRows(links[k], rows, gid, partnerId, today)
  }

  /** `has_user_relation`: the count is positive. */
  predicate HasUserRelation(g: Group, u: User, links: seq<GroupTypeLink>, rows: seq<RelationRow>, today: int)
  {
    CountRelation(links, rows, g.id, u.partnerId, today) > 0
  }

  /**
   * Membership, stated without the count: some relation row of the user's
   * partner, of a type linked to the group, is valid today.
   */
  lemma HasUserRelationMeaning(g: Group, u: User, links: seq<GroupTypeLink>, rows: seq<RelationRow>, today: int)
    ensures HasUserRelation(g, u, links, rows, today) <==>
      exists l, r :: && l in links && r in rows && l.gid == g.id && l.typeSelectionId == r.typeSelectionId
                     && r.thisPartnerId == u.partnerId
                     && (r.dateStart.None? || r.dateStart.value <= today)
                     && (r.dateEnd.None? || r.dateEnd.value >= today)
  {
  }

  /** Adding any relation row never takes a membership away. */
  lemma {:induction false} CountRowsGrows(l: GroupTypeLink, rows: seq<RelationRow>, extra: RelationRow,
                                          gid: nat, partnerId: nat, today: int)
    ensures CountRows(l, rows + [extra], gid, partnerId, today) >= CountRows(l, rows, gid, partnerId, today)
  {
    assert (rows + [extra])[..|rows|] == rows;
  }

  lemma {:induction false} CountRelationGrows(links: seq<GroupTypeLink>, rows: seq<RelationRow>, extra: RelationRow,
                                              gid: nat, partnerId: nat, today: int)
    ensures CountRelation(links, rows + [extra], gid, partnerId, today) >= CountRelation(links, rows, gid, partnerId, today)
    decreases |links|
  {
    if |links| > 0 {
      var k := |links| - 1;
      CountRelationGrows(links[..k], rows, extra, gid, partnerId, today);
      CountRowsGrows(links[k], rows, extra, gid, partnerId, today);
    }
  }

  lemma MembershipMonotone(g: Group, u: User, links: seq<GroupTypeLink>, rows: seq<RelationRow>, extra: RelationRow,
                           today: int)
    requires HasUserRelation(g, u, links, rows, today)
    ensures HasUserRelation(g, u, links, rows + [extra], today)
  {
    CountRelationGrows(links, rows, extra, g.id, u.partnerId, today);
  }

  /** A row of the user's partner, of a type linked to the group and valid today, grants membership. */
  lemma QualifyingRowGrants(g: Group, u: User, links: seq<GroupTypeLink>, rows: seq<RelationRow>, extra: RelationRow,
                            today: int)
    requires GroupTypeLink(g.id, extra.typeSelectionId) in links
    requires extra.thisPartnerId == u.partnerId && ActiveOn(extra, today)
    ensures HasUserRelation(g, u, links, rows + [extra], today)
  {
    assert extra in rows + [extra];
    assert Qualifies(GroupTypeLink(g.id, extra.typeSelectionId), extra, g.id, u.partnerId, today);
  }

  /** The dates of a row decide only through the inclusive window: a row dated exactly today counts. */
  lemma WindowInclusive(l: GroupTypeLink, r: RelationRow, today: int)
    requires l.typeSelectionId == r.typeSelectionId
    requires r.dateStart == Some(today) && r.dateEnd == Some(today)
    ensures Qualifies(l, r, l.gid, r.thisPartnerId, today)
    ensures !Qualifies(l, r, l.gid, r.thisPartnerId, today + 1) && !Qualifies(l, r, l.gid, r.thisPartnerId, today - 1)
  {
  }

  /**
   * `should_be_in`: for a relation group, the relation check; for any other
   * group, the rule it inherits (`inherited`, computed elsewhere).
   */
  function ShouldBeIn(g: Group, u: User, links: seq<GroupTypeLink>, rows: seq<RelationRow>, today: int,
                      inherited: bool): (r: bool)
    ensures g.groupType == RelationGroup ==> (r <==> HasUserRelation(g, u, links, rows, today))
    ensures g.groupType != RelationGroup ==> r == inherited
  {
    if g.groupType == RelationGroup then HasUserRelation(g, u, links, rows, today) else inherited
  }

  // ---------------------------------------------------------------------------
  // `_onchange_allow_companies`: which relation types the group form offers
  // ---------------------------------------------------------------------------

  /** `contact_type_this` of a relation type selection: 'p' person, 'c' organisation. */
  datatype ContactType = Person | Organisation

  datatype RelationTypeSelection = RelationTypeSelection(id: nat, contactTypeThis: Option<ContactType>)

  /** The two domains the onchange returns: always true, or person-or-unset. */
  datatype TypeDomain = AllTypes | PersonOrUnsetTypes

  predicate Admits(d: TypeDomain, t: RelationTypeSelection)
  {
    match d
    case AllTypes => true
    case PersonOrUnsetTypes => t.contactTypeThis.None? || t.contactTypeThis.value == Person
  }

  /** The domain offered for `relation_type_ids`: every type when companies are allowed, else none of organisations. */
  function OnchangeAllowCompanies(g: Group): (d: TypeDomain)
    ensures forall t: RelationTypeSelection :: t.contactTypeThis == Some(Organisation) ==> (Admits(d, t) <==> g.allowCompanies)
    ensures forall t: RelationTypeSelection :: t.contactTypeThis != Some(Organisation) ==> Admits(d, t)
  {
    if g.allowCompanies then AllTypes else PersonOrUnsetTypes
  }
}
