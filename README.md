# Partner user management, company auto-creation and relation-based groups

A Dafny model of three Odoo extension modules:

- **partner_user_management** has management configurations (`partner.user.management`). Each configuration has a priority (`sequence`), a name, an email requirement, an optional partner category and a free-form extra domain, plus permissions and an auto-create switch.
  - The **update** (`update_partner_user_management`) visits the configurations in `(sequence, name)` order. Each one claims every partner its combined domain matches that no earlier configuration has claimed. Partners claimed by nobody lose their link.
  - The **auto-creation job** (`cron_user_auto_creation`) runs the update. Then, for each auto-creating configuration, it asks an account for at most 256 of its partners that have no user and have a login.
  - **On the partner side**, two flags (`can_create_user`, `can_sent_password_reset_mail`) combine the owning configuration's permissions with whether the partner already has a user. `action_show_user` opens the partner's first user.
- **partner_user_account** has a job that takes at most 128 partners without a user. It asks an account for each one whose deciding company (its own, otherwise the current user's) has `enable_autocreate` and which has a login (its email).
- **auth_dynamic_groups_partner_relation** adds membership of "relation" groups. A user is a member when its partner has a relation row of a type linked to the group and that row is valid today. Validity is an inclusive date window; an unset date is open. A group form offers relation types according to `allow_companies`.

Modules of the model:

- `Wrappers` (Option, Result).
- `Records`: partner, company and account-request records; search domains; `Search`; `GetLogin`.
- `PartnerManagement`: configurations, their order and domains, first-match ownership, the specification functions of the update and the job. It also holds `class Store`: the partner and configuration tables and the request log, with the two jobs as methods that change them.
- `ManagementPartner`: the partner-side flags and action.
- `PartnerAccount`: the company-gated job.
- `DynamicGroups`: the relation count, membership and the onchange domain.
- `AsWritten`: the defects listed under Findings, as the code writes them.

Tables are sequences of records, and a search is a filter over the sequence in storage order. A partner's email is optional: an unset email (NULL) fails the clause `('email', '!=', False)`, while a stored empty string satisfies it but gives no login. An account creation is recorded as an `AccountRequest` (partner, login, and the configuration it is for, if any). The current day is a parameter.

The extra domain of a configuration is kept opaque. The configuration stores its evaluated leaves as strings. A partner carries the set `holds` of the leaves that are true of it.

The partner's `partner_management_id` is declared in `partner_user_management/models/res_partner.py` as a computed One2many without a comodel. Every other use treats it as a stored link from a partner to one configuration (searched at lines 95 and 140 and written at 136 and 148 of `partner_user_management/models/partner_user_management.py`). The model follows that use: `Partner.managementId` is an optional configuration id.

For each auto-creating configuration, the job takes a batch of up to 256 partners that the configuration already owns and that have no user.

## Model

| member | source | states |
|---|---|---|
| Records.Search | partner_user_management/models/partner_user_management.py:94-97 | for a positive limit: at most `limit` partners, all from the table and all satisfying the domain; below the limit, every satisfying partner; distinct ids stay distinct |
| Records.GetLogin | partner_user_management/models/res_partner.py:67-71 | a login exists exactly when the email is set and non-empty, and is then the email |
| PartnerManagement.PriorityOrder | partner_user_management/models/partner_user_management.py:17 | the visiting order is a permutation of the configurations (same multiset, same members) |
| PartnerManagement.PriorityOrderOrdered | partner_user_management/models/partner_user_management.py:17 | the visiting order is sorted by `(sequence, name)` |
| PartnerManagement.PriorityOrderUnique | partner_user_management/models/partner_user_management.py:17 | ordering keeps the configuration ids distinct |
| PartnerManagement.PriorityOrderSingle | partner_user_management/models/partner_user_management.py:17 | a single configuration is visited alone |
| PartnerManagement.InsertByPriority | partner_user_management/models/partner_user_management.py:17 | inserting adds exactly the new element |
| PartnerManagement.InsertByPriorityOrdered | partner_user_management/models/partner_user_management.py:17 | inserting into a sorted list keeps it sorted |
| PartnerManagement.InsertByPriorityUnique | partner_user_management/models/partner_user_management.py:17 | inserting a configuration with a new id keeps the ids distinct |
| PartnerManagement.StrictlyEarlierKeyComesFirst | partner_user_management/models/partner_user_management.py:17 | a configuration with a strictly smaller `(sequence, name)` key is visited earlier |
| PartnerManagement.GetPartnerDomain | partner_user_management/models/partner_user_management.py:153-165 | the email clause is present iff an email is required, and is first; the category clause is present iff a category is set, and comes next; then the extra leaves, in one flat list |
| PartnerManagement.BuildPartnerDomain | partner_user_management/models/partner_user_management.py:156-165 | building the list by appends gives the domain above |
| PartnerManagement.ExtraDomainMeaning | partner_user_management/models/partner_user_management.py:161-164 | the extra domain holds of a partner iff every one of its leaves does (trivially when unset) |
| PartnerManagement.DomainSearchMatches | partner_user_management/models/partner_user_management.py:156-164 | a partner satisfies the configuration's built domain iff it has an email when one is required, has the category when one is set, and satisfies every extra leaf |
| PartnerManagement.Matches | partner_user_management/models/partner_user_management.py:156-164 | defines what a configuration asks of a partner: an email when required, the category when set, every extra leaf; DomainSearchMatches ties it to the built domain |
| PartnerManagement.FirstMatch | partner_user_management/models/partner_user_management.py:125-129 | the position found matches, and no earlier position matches; none is found only when nothing matches |
| PartnerManagement.OwnerIn | partner_user_management/models/partner_user_management.py:125-129 | defines the claim after visiting a list of configurations: the id of the first that matches; OwnerInExtend and OwnerInStable state how it evolves |
| PartnerManagement.Owner | partner_user_management/models/partner_user_management.py:125-129 | defines the owner as the claim over the searched order; OwnerIsFirstMatch and OwnerHasBestKey state what it is |
| PartnerManagement.OwnerInExtend | partner_user_management/models/partner_user_management.py:125-129 | visiting one more configuration claims a partner only if it was unclaimed and matches |
| PartnerManagement.OwnerInStable | partner_user_management/models/partner_user_management.py:128-129 | a claim, once made, is never overwritten by later configurations |
| PartnerManagement.OwnerIsFirstMatch | partner_user_management/models/partner_user_management.py:125-129 | a partner is owned by the configuration at position k iff it matches and none before it matches |
| PartnerManagement.OwnerHasBestKey | partner_user_management/models/partner_user_management.py:125-129 | the owner matches, and no configuration with a strictly better `(sequence, name)` key matches |
| PartnerManagement.UnmatchedHasNoOwner | partner_user_management/models/partner_user_management.py:139-150 | a partner no configuration matches ends without a link |
| PartnerManagement.NoEmailNoOwnerRequiringEmail | partner_user_management/models/partner_user_management.py:157-158 | a configuration requiring an email never owns a partner whose email is unset |
| PartnerManagement.Assigned | partner_user_management/models/partner_user_management.py:122-150 | every partner, unchanged except that its link is its owner |
| PartnerManagement.AssignedIdempotent | partner_user_management/models/partner_user_management.py:122-150 | running the update twice gives what running it once gives |
| PartnerManagement.FirstMatchIgnoresLink | partner_user_management/models/partner_user_management.py:126-127 | who owns a partner does not depend on its current link |
| PartnerManagement.AutoCreateConfigs | partner_user_management/models/partner_user_management.py:90-93 | exactly the configurations with `auto_create_user`, taken from the ordered list |
| PartnerManagement.AutoCreateConfigsUnique | partner_user_management/models/partner_user_management.py:90-93 | the selection keeps the configuration ids distinct |
| PartnerManagement.AutoCreateBatch | partner_user_management/models/partner_user_management.py:94-97 | at most 256 partners, each owned by the configuration and without a user |
| PartnerManagement.AutoCreateBatchComplete | partner_user_management/models/partner_user_management.py:94-97 | below the limit, the batch holds every partner the configuration owns that has no user |
| PartnerManagement.BatchRequests | partner_user_management/models/partner_user_management.py:98-116 | defines one request per batch partner with a login, in batch order; BatchRequestsSound, BatchRequestsComplete, BatchSkipsNoLogin and BatchRequestsOnePerPartner state its properties |
| PartnerManagement.BatchSkipsNoLogin | partner_user_management/models/partner_user_management.py:98-101 | a batch partner without a login, unset or stored empty, gets no request |
| PartnerManagement.CronRequests | partner_user_management/models/partner_user_management.py:93-116 | defines the batches' requests in the order of the configurations; CronRequestsSound, CronRequestsComplete, CronRequestsOwnedComplete and JobAsksOncePerPartner state its properties |
| PartnerManagement.BatchRequestsSound | partner_user_management/models/partner_user_management.py:98-116 | each request of a batch is for a partner of the batch with an email, with that email as login, for this configuration |
| PartnerManagement.BatchRequestsComplete | partner_user_management/models/partner_user_management.py:98-116 | each partner of the batch with an email gets its request |
| PartnerManagement.BatchRequestsBound | partner_user_management/models/partner_user_management.py:98-116 | no more requests than partners in the batch |
| PartnerManagement.BatchRequestsOnePerPartner | partner_user_management/models/partner_user_management.py:98-116 | within a batch, no partner is asked for twice |
| PartnerManagement.CronRequestsSound | partner_user_management/models/partner_user_management.py:93-116 | every request of the job is for a partner without a user, owned by an auto-creating configuration, with its email as login |
| PartnerManagement.CronRequestsComplete | partner_user_management/models/partner_user_management.py:93-116 | every partner with an email in the batch of a visited configuration gets its request |
| PartnerManagement.CronRequestsOwnedComplete | partner_user_management/models/partner_user_management.py:93-116 | a partner with a login and no user, owned by a visited configuration whose batch is not full, gets its request |
| PartnerManagement.CronRequestsOnePerPartner | partner_user_management/models/partner_user_management.py:93-116 | visiting configurations with distinct ids never asks two accounts for the same partner |
| PartnerManagement.JobAsksOncePerPartner | partner_user_management/models/partner_user_management.py:90-116 | a whole run of the job, with its own ordering and selection, never asks two accounts for the same partner |
| PartnerManagement.LinkUpdateElsewhere | partner_user_management/models/partner_user_management.py:128-129 | claiming one partner leaves every other partner's entry of the map unchanged |
| PartnerManagement.OwnerAdvances | partner_user_management/models/partner_user_management.py:127-129 | after a partner is dealt with, the claims so far include the current configuration up to and including that partner |
| PartnerManagement.ClaimKeepsLink | partner_user_management/models/partner_user_management.py:128-130 | claiming a partner that already carries the claim writes nothing |
| PartnerManagement.ClaimRewrites | partner_user_management/models/partner_user_management.py:128-138 | claiming a partner that carries another link writes it once, and only its link |
| PartnerManagement.TestOrder | partner_user_management/tests/test_partner_management.py:16-22 | the test's single configuration is visited alone and is auto-creating |
| PartnerManagement.TestOwnership | partner_user_management/tests/test_partner_management.py:23-45 | the test's domain is the flat email-and-reference list; without an email the partner stays unlinked; with one it is linked to the test configuration |
| PartnerManagement.TestAutoCreate | partner_user_management/tests/test_partner_management.py:46-48 | the job then asks exactly one account, for the test partner, with its email as login |
| PartnerManagement.Store.ClaimPartner | partner_user_management/models/partner_user_management.py:127-138 | one partner: claimed and linked when it matches and is unclaimed, written only when its link differs |
| PartnerManagement.Store.ClaimPartners | partner_user_management/models/partner_user_management.py:125-138 | one configuration's pass: the map holds the first-match claims of the configurations visited so far |
| PartnerManagement.Store.UnlinkUnclaimed | partner_user_management/models/partner_user_management.py:139-150 | unclaimed partners with a link lose it; every partner ends with its claim as link |
| PartnerManagement.Store.UpdatePartnerUserManagement | partner_user_management/models/partner_user_management.py:119-150 | the partner table becomes `Assigned` (each partner linked to its first match, the rest unlinked), configurations unchanged; the partners written are exactly those whose link changed, each once |
| PartnerManagement.Store.AskForBatch | partner_user_management/models/partner_user_management.py:98-116 | the requests asked for one configuration are `BatchRequests` of its batch `AutoCreateBatch` |
| PartnerManagement.Store.AskForAll | partner_user_management/models/partner_user_management.py:93-116 | the loop over the configurations asks exactly `CronRequests` |
| PartnerManagement.Store.RequestAccounts | partner_user_management/models/partner_user_management.py:93-116 | the log grows by the requests of every auto-creating configuration in order |
| PartnerManagement.Store.CronUserAutoCreation | partner_user_management/models/partner_user_management.py:77-116 | the update runs first, then the requests of the auto-creating configurations are logged against the updated table |
| ManagementPartner.LinkedConfig | partner_user_management/models/res_partner.py:18-22 | the configuration the partner's link names, if it exists |
| ManagementPartner.FlagsFor | partner_user_management/models/res_partner.py:17-30 | without management both flags are false; `can_create_user` iff creating is allowed and there is no user; `can_sent_password_reset_mail` iff the reset mail is allowed and there is a user; never both |
| ManagementPartner.ComputePartnerManagement | partner_user_management/models/res_partner.py:11-30 | each partner gets the flags of its linked configuration |
| ManagementPartner.ActionShowUser | partner_user_management/models/res_partner.py:51-65 | the target is the partner's first user; with no user the lookup fails |
| PartnerAccount.EffectiveCompany | partner_user_account/models/res_partner.py:38 | the partner's company when set, else the current user's |
| PartnerAccount.AutocreateEligible | partner_user_account/models/res_partner.py:36-43 | defines the three guards: no user, the deciding company allows it, a login exists; NoRequestForIneligible and CronRequestsExact use it |
| PartnerAccount.AutocreateRequests | partner_user_account/models/res_partner.py:33-44 | defines one request per eligible partner, in order, its email as login; AutocreateRequestsSound and AutocreateRequestsComplete state its properties |
| PartnerAccount.AutocreateRequestsSound | partner_user_account/models/res_partner.py:33-44 | every account asked for is for a partner without a user, whose deciding company allows it and with an email, the email as login |
| PartnerAccount.AutocreateRequestsComplete | partner_user_account/models/res_partner.py:33-44 | every partner passing the guards gets its account asked for |
| PartnerAccount.NoRequestForIneligible | partner_user_account/models/res_partner.py:36-43 | nothing is asked for a partner with a user, with a company that does not allow it, or without an email |
| PartnerAccount.AutocreateRequestsBound | partner_user_account/models/res_partner.py:35-44 | at most one request per partner examined |
| PartnerAccount.CheckAutocreate | partner_user_account/models/res_partner.py:33-44 | the loop with its three skip guards asks exactly `AutocreateRequests` |
| PartnerAccount.CronBatch | partner_user_account/models/res_partner.py:29 | at most 128 partners, all without a user; all of them when fewer exist |
| PartnerAccount.CronResPartnerUserCreation | partner_user_account/models/res_partner.py:19-30 | the guards applied to one batch; at most 128 requests |
| PartnerAccount.CronRequestsExact | partner_user_account/models/res_partner.py:29-44 | a partner of the batch gets a request iff it passes all guards, and then with its email as login |
| DynamicGroups.CountRows | auth_dynamic_groups_partner_relation/models/res_groups.py:11-20 | the count for one group-type link is positive iff some row pairs with it |
| DynamicGroups.CountRelation | auth_dynamic_groups_partner_relation/models/res_groups.py:11-20 | the join count is positive iff some link and row qualify together; bounded by the join size |
| DynamicGroups.ActiveOn | auth_dynamic_groups_partner_relation/models/res_groups.py:18-19 | defines the date window: unset bounds open, set bounds inclusive; WindowInclusive states its edges |
| DynamicGroups.Qualifies | auth_dynamic_groups_partner_relation/models/res_groups.py:13-19 | defines one row of the join: type, group, partner and date window all agree; CountRows counts them |
| DynamicGroups.HasUserRelation | auth_dynamic_groups_partner_relation/models/res_groups.py:62-71 | defines membership as a positive count; HasUserRelationMeaning states it without the count |
| DynamicGroups.HasUserRelationMeaning | auth_dynamic_groups_partner_relation/models/res_groups.py:62-71 | membership iff a row of the user's partner, of a type linked to the group, is valid today (inclusive bounds, unset bounds open) |
| DynamicGroups.CountRelationGrows | auth_dynamic_groups_partner_relation/models/res_groups.py:11-20 | adding a row never lowers the count |
| DynamicGroups.MembershipMonotone | auth_dynamic_groups_partner_relation/models/res_groups.py:71 | adding a row never removes membership |
| DynamicGroups.QualifyingRowGrants | auth_dynamic_groups_partner_relation/models/res_groups.py:13-19 | a row of the user's partner, of a linked type and valid today, grants membership |
| DynamicGroups.WindowInclusive | auth_dynamic_groups_partner_relation/models/res_groups.py:18-19 | a row dated exactly today qualifies today and not a day before or after |
| DynamicGroups.ShouldBeIn | auth_dynamic_groups_partner_relation/models/res_groups.py:54-59 | for a relation group, the relation check; otherwise the inherited rule |
| DynamicGroups.OnchangeAllowCompanies | auth_dynamic_groups_partner_relation/models/res_groups.py:42-51 | organisation-side types are offered iff companies are allowed; person-side and unset types always |
| AsWritten.GetPartnerDomainAsWritten | partner_user_management/models/partner_user_management.py:153-165 | as written, the extra domain is the last, nested element |
| AsWritten.CheckDomain | partner_user_management/models/partner_user_management.py:164 | a domain list is accepted iff all its elements are leaves |
| AsWritten.DomainAsWrittenRefused | partner_user_management/models/partner_user_management.py:164 | as written, every configuration whose extra domain is a list is refused; without one it agrees with the intended domain |
| AsWritten.TestDomainAsWritten | partner_user_management/tests/test_partner_management.py:32-36 | the test's configuration gives a nested list as written and the expected flat list as intended |
| AsWritten.LinkDiffersAsWritten | partner_user_management/models/partner_user_management.py:130 | a recordset compared with an integer always differs |
| AsWritten.LinkDiffers | partner_user_management/models/partner_user_management.py:130 | the intended comparison differs iff the link is not the configuration |
| AsWritten.TestRelinkAsWritten | partner_user_management/models/partner_user_management.py:130 | a partner linked to its owner is rewritten as written but not as intended |
| AsWritten.Write | partner_user_management/models/partner_user_management.py:136-138 | `write` succeeds iff given a dict, and then sets only the link |
| AsWritten.PassAsWritten | partner_user_management/models/partner_user_management.py:125-138 | one configuration's pass as written raises the domain error or the write error, or completes |
| AsWritten.PassAsWrittenMeaning | partner_user_management/models/partner_user_management.py:126-138 | a pass raises the domain error iff the configuration has an extra domain, the write error iff it has none and matches a partner, and completes otherwise |
| AsWritten.PassesAsWritten | partner_user_management/models/partner_user_management.py:125-138 | the passes in the searched order, the first error raised deciding |
| AsWritten.PassesAsWrittenNone | partner_user_management/models/partner_user_management.py:125-138 | the passes complete iff every pass does |
| AsWritten.PassesAsWrittenAt | partner_user_management/models/partner_user_management.py:125-138 | when the passes before position k complete and the one at k raises, its error is the outcome |
| AsWritten.PassesAsWrittenNoLeafError | partner_user_management/models/partner_user_management.py:126-127 | without extra domains, no pass raises the domain error |
| AsWritten.UnlinkAsWritten | partner_user_management/models/partner_user_management.py:140-150 | the unlinking pass as written raises the write error iff some partner is linked |
| AsWritten.UpdateAsWritten | partner_user_management/models/partner_user_management.py:119-150 | as written, the update raises the domain error or the write error, or completes and leaves the table unchanged |
| AsWritten.UpdateAsWrittenCompletes | partner_user_management/models/partner_user_management.py:128-150 | as written, the update completes iff no configuration has an extra domain, none matches a partner, and no partner is linked |
| AsWritten.UpdateAsWrittenAgrees | partner_user_management/models/partner_user_management.py:119-150 | when it completes, the intended update would have changed nothing |
| AsWritten.ExtraDomainMakesUpdateRaise | partner_user_management/models/partner_user_management.py:125-127 | the first configuration in order with an extra domain, reached with nothing matched before it, makes the update as written raise the domain error |
| AsWritten.ClaimMakesUpdateRaise | partner_user_management/models/partner_user_management.py:128-138 | without extra domains, any partner that some configuration claims makes the update as written raise the write error |
| AsWritten.TestUpdateAsWritten | partner_user_management/tests/test_partner_management.py:37-41 | both of the test's updates raise the domain error before any write, where the intended update first leaves the partner unlinked and then links it |
| AsWritten.TestUpdateWithoutDomain | partner_user_management/tests/test_partner_management.py:37-45 | with the test configuration's extra domain cleared, the first update completes and the second raises the write error where the intended update links the partner |
| AsWritten.SearchCompanies | partner_user_management/models/partner_user_management.py:90-92 | a company search on `enable_autocreate` filters; a search on another field fails naming it |
| AsWritten.AutoCreateRecordsAsWritten | partner_user_management/models/partner_user_management.py:90-92 | the job's company search on `auto_create_user` always fails |
| AsWritten.CallGetLogin | partner_user_management/models/partner_user_management.py:99 | `_get_login` answers for a partner and fails for a configuration |
| AsWritten.BatchRequestsAsWritten | partner_user_management/models/partner_user_management.py:98-101 | as written, a batch completes iff it is empty |
| AsWritten.TestLoginAsWritten | partner_user_management/models/partner_user_management.py:98-101 | the test's batch raises as written and yields the partner's request as intended |

## Left out

- The ORM itself is not modelled: search, write, recordsets, record rules and access rights. Tables are sequences, a search is a filter in storage order, and a write replaces a record.
- Records.Search: the partners come back in storage order. Odoo's default order for `res.partner` is not modelled. Only the set of partners matters, except where the limit cuts a batch.
- The evaluation of `partner_domain` by `safe_eval`, and its context (`_get_eval_context`, the `partner_management_id` variable, `time`), are left out. An evaluated domain is a list of opaque leaves, and a partner's `holds` set says which are true of it.
- PartnerManagement.Matches assumes the extra domain never refers to the partner's own management link. A leaf that does would make a match depend on the link.
- PartnerManagement.PriorityOrder: configurations with equal `(sequence, name)` keep their storage order; the database's tie-break is not modelled.
- Name order: names are compared character by character. The database collation is not modelled, and an unset name sorts last.
- Account provisioning is left out: `_create_for_partner` in `res.users`, `create_for_partner`, the wizard of `action_wizard_create_user`, and `action_create_user`. A creation is only recorded as an `AccountRequest`, so partners' `user_ids` do not change afterwards.
- The context passed to provisioning (`tracking_disable`, `install_mode`, `no_reset_password`) is left out. `no_reset_password` receives `auto_reset_mail`, which appears inverted.
- The template user and the mail templates are left out.
- `default_get` is left out: it depends on `env.ref`. As written, it reads `default_get` from the builtin `super` type itself (`super.default_get(fields_list)`) rather than calling `super()`, which fails; this is not modelled.
- Logging, `_()` translations, `display_name`, and the fields of the action window other than its target user are left out.
- `ensure_one` is left out: each single-record operation takes one record.
- Archived partners are left out: `search([])` skips them. The model treats every partner in the table as active.
- Partner links naming a configuration that no longer exists: LinkedConfig treats them as no management.
- The SQL execution and `CURRENT_DATE` of `has_user_relation` are replaced by a sequence of rows and a `today` parameter (a day number). `res_partner_relation_all` is itself a database view; its rows are taken as given.
- DynamicGroups.ShouldBeIn: the inherited `should_be_in` of other group types is a parameter, not modelled.
- AsWritten.GetPartnerDomainAsWritten: the extra domain is taken to evaluate to a list. A `partner_domain` that evaluates to a single tuple, such as `"('ref', '=', 'x')"`, is appended as one valid leaf by the code as written; that case is not modelled.
- AsWritten.AutoCreateRecordsAsWritten: models line 90 on its own. In the job as written, the update at line 87 raises first whenever a configuration has an extra domain or claims a partner.
- AsWritten.BatchRequestsAsWritten: models line 99 on its own, with the configurations and batches as intended. In the job as written, lines 87 and 90 raise before it is reached.
- PartnerManagement.Store.RequestAccounts: the requests of all configurations are appended to the log at the end of the loop, not one by one; the final log is the same.

## Findings

| source | as written | input that shows it | evidently intended | confidence | as-written member | corrected member |
|---|---|---|---|---|---|---|
| partner_user_management/models/partner_user_management.py:164 | `append` adds the evaluated extra domain as one nested element, which the search refuses as an invalid leaf | the test configuration with `partner_domain` `[('ref', '=', 'PUM0001')]` builds `[email leaf, [ref leaf]]` (AsWritten.TestDomainAsWritten), so both of the test's updates raise at the search of line 127 (AsWritten.TestUpdateAsWritten); the default `[]` is refused too | the leaves are added to the list one by one, giving the flat list the test expects | not executed | AsWritten.GetPartnerDomainAsWritten | PartnerManagement.GetPartnerDomain |
| partner_user_management/models/partner_user_management.py:130 | the link recordset is compared with an integer id, so it always differs and every claimed partner is written | a partner already linked to its owner (AsWritten.TestRelinkAsWritten) | compare the link with the configuration record, writing only when the link changes | not executed | AsWritten.LinkDiffersAsWritten | PartnerManagement.Store.UpdatePartnerUserManagement |
| partner_user_management/models/partner_user_management.py:136-138 | `write` is given the set `{'partner_management_id', id}` instead of a dict, so the first write raises (lines 148-150 likewise) | the test's second update with the configuration's `partner_domain` cleared, once the partner has an email (AsWritten.TestUpdateWithoutDomain) | `write({'partner_management_id': id})`, and `False` when unlinking | not executed | AsWritten.UpdateAsWritten | PartnerManagement.Store.UpdatePartnerUserManagement |
| partner_user_management/models/partner_user_management.py:90 | the job searches `res.company` on `auto_create_user`, a field companies do not have | any database on which the update completes, for instance one with no configuration (AsWritten.AutoCreateRecordsAsWritten fails for every company table) | search the configurations themselves, in their order | not executed | AsWritten.AutoCreateRecordsAsWritten | PartnerManagement.AutoCreateConfigs |
| partner_user_management/models/partner_user_management.py:99 | `_get_login` is called on the configuration, which does not define it | a batch of one partner with an email (AsWritten.TestLoginAsWritten); in the job as written, lines 87 and 90 raise before this line is reached | `partner._get_login()` | not executed | AsWritten.BatchRequestsAsWritten | PartnerManagement.Store.AskForBatch |
