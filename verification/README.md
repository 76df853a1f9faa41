# Membership permission engine — a Dafny model

This project models the core of the Membership plugin for Craft Commerce. The plugin puts subscribers into user groups when their subscriptions start, and takes them out again when the subscriptions end. For each subscription event, the permission engine walks the grants of one plan. A grant is a rule that maps a plan to a user group and has an enabled flag. The engine walks the grants oldest first and decides about each one. The grant pass may add the owner to the grant's group. The revoke pass may remove the owner from it. Each decision it reports is written to an audit log.

Modules, one per source file plus three helpers:

- `Permissions` (`src/services/Permissions.php`): the engine. `GrantPass` and `RevokePass` are reference definitions of one run. They fold a per-grant decision (`GrantStep`, `RevokeStep`) over the plan's grants. `GrantPermissionsForSubscription` and `RevokePermissionsForSubscription` are imperative loops that rewrite the owner's group list and append to the log. Each is proved to compute its pass. Lemmas state what a run guarantees: coverage, idempotence, protection and one message per decision.
- `Membership` (`src/Membership.php`): the three subscription listeners, and lemmas about a plan switch.
- `GrantModel` (`src/models/Grant.php`): the grant, its stored row and its validation rules.
- `GrantStore` (`src/services/Grants.php`): the grants table as a class (`Grants`) and its queries as functions over the rows.
- `MessageModel` (`src/models/Message.php`): the audit message, its stored record and its validation rules.
- `LogStore` (`src/services/Logs.php`): the logs table as a class (`Logs`) and its queries.
- `Seqs`, `Rules`, `Wrappers`: a WHERE as `Filter`, an ORDER BY as a stable `SortBy`, Yii's "required" rule (with PHP `trim`), and `Option`.

Host collaborators are inputs. These are the existing plans, user groups and subscriptions (as id sets), the owner's subscriptions (as the host query returns them), the clock reading and the generated uid for a save. Each extension listener becomes a pure veto predicate on the grant, one for the grant checkpoint and one for the revoke checkpoint.

## Model

| member | source | states |
|---|---|---|
| `GrantModel.GrantValid` | src/models/Grant.php:78-112 | The grant's rules with the corrected uniqueness rule of the Findings row. A valid grant has a name of 1 to 255 characters, a plan and a user group that exist, and, when it has no id, a pair no stored row shares. |
| `GrantModel.Rejections` | src/models/Grant.php:78-112 | Each rule alone rejects a grant: a missing or blank name, a name over 255 characters, a missing or unknown plan, a missing or unknown user group, or, under the corrected uniqueness rule of the Findings row, another stored grant with a different id and the same (planId, userGroupId). |
| `GrantModel.ResaveStaysUnique` | src/models/Grant.php:103-110 | Re-validating a stored grant whose pair is unchanged passes the uniqueness rule, because the grant itself is excluded by its id. |
| `GrantStore.GetAllGrants` | src/services/Grants.php:87-93 | Returns every stored grant (as a multiset, the table), ordered by dateCreated ascending (line 165). |
| `GrantStore.GetGrants` | src/services/Grants.php:39-46 | Returns exactly the grants whose planId is in the given list: membership both ways, the same multiset as the matching rows, dateCreated ascending. |
| `GrantStore.GetGrantsForPlan` | src/services/Grants.php:73-80 | Returns exactly the grants of the plan, enabled or not: membership both ways, the same multiset as the matching rows, dateCreated ascending. |
| `GrantStore.GetGrantById` | src/services/Grants.php:54-65 | Returns None exactly when no row has the id, otherwise a stored row with that id. |
| `GrantStore.Grants.SaveGrant` | src/services/Grants.php:101-131 | Succeeds exactly when the grant is valid against the table before the save, with the corrected uniqueness rule of the Findings row. On failure the table and the model are unchanged. A new grant (no id, or id 0) appends one row with the next id, its name, enabled, planId, userGroupId and the clock time. An existing grant overwrites only its own row's four columns and dateUpdated. On success the model gets the row's id, dates and uid. The table invariant (increasing ids, unique pairs) is kept. |
| `GrantStore.Grants.DeleteGrant` | src/services/Grants.php:139-144 | Removes exactly the row with the grant's id, keeps the other rows in order, keeps the table invariant and returns true. |
| `GrantStore.DeleteKeepsTableValid` | src/services/Grants.php:139-144 | Removing one row keeps ids increasing and pairs unique, and removes exactly the rows with that id. |
| `GrantStore.InsertKeepsPairsUnique` | src/models/Grant.php:103-110 | When a new grant passes the uniqueness rule, appending its row keeps every (planId, userGroupId) pair unique. |
| `GrantStore.EditKeepsPairsUnique` | src/services/Grants.php:109-120 | When an existing grant passes the uniqueness rule, overwriting its row keeps every pair unique. |
| `GrantStore.AsWrittenDuplicateReachesInsert` | src/models/Grant.php:103-110 | As written, a new grant that duplicates a stored pair passes the uniqueness rule, and its insert would break pair uniqueness. The corrected rule rejects it. |
| `MessageModel.MessageValid` | src/models/Message.php:69-90 | The message's three rules. A valid message has text with a character `trim()` keeps, a grant id naming a stored grant and a subscription id naming an existing subscription. A message missing any of the three is invalid. |
| `LogStore.Logs.Log` | src/services/Logs.php:37-50 | Succeeds exactly when the message is valid. On failure nothing is stored. On success exactly one record is appended with the message's text, grantId and subscriptionId under the next id. Earlier records are never altered. |
| `LogStore.GetMessages` | src/services/Logs.php:77-86 | Returns exactly the records matching the criteria (membership both ways, the same multiset), with ids descending (line 106). |
| `LogStore.GetMessageById` | src/services/Logs.php:58-69 | Returns None exactly when no record has the id, otherwise a stored record with that id. |
| `Permissions.NoteMessageValid` | src/models/Message.php:69-90 | A decision message is valid exactly when its subscription exists: its text is never blank and its grant is a stored one. |
| `Permissions.GrantPermissionsForSubscription` | src/services/Permissions.php:55-128 | The effective plan is the override, else the subscription's plan. The owner's groups become those of `GrantPass` over that plan's grants in store order. Exactly that run's messages are appended after the old records, or none when the subscription does not exist. Returns true. |
| `Permissions.DecideGrant` | src/services/Permissions.php:65-124 | One iteration of the grant loop, on one grant. It changes the owner's groups and extends the log exactly as one `GrantStep` does. A disabled grant changes nothing and writes nothing. A member gets "already belonged". A vetoed grant gets "prevented". Otherwise the group is appended and "added" is written. |
| `Permissions.GrantRunShape` | src/services/Permissions.php:96-114 | A grant run keeps all prior groups, in order, in front. Every group it adds belongs to an enabled grant of the run that no extension vetoed. The owner ends up in the group of every enabled grant that is not vetoed. |
| `Permissions.GrantRunNotes` | src/services/Permissions.php:65-124 | A grant run writes one message per enabled grant, in order, carrying that grant's id. A disabled grant writes none. "Added" is written only for a grant no extension vetoed, and "prevented" only for a vetoed one. |
| `Permissions.GrantRunStable` | src/services/Permissions.php:73-104 | If the owner already holds the group of every enabled, unvetoed grant, a run changes nothing, and each message is "already belonged" or "prevented". |
| `Permissions.GrantRerunFindsMembers` | src/services/Permissions.php:65-124 | When no extension vetoes any grant, a second identical grant run writes one message per enabled grant, and every one is "already belonged". |
| `Permissions.GrantIdempotent` | src/services/Permissions.php:65-125 | A second identical grant run leaves the groups unchanged and adds no group. |
| `Permissions.OtherPlanIds` | src/services/Permissions.php:151-158 | Returns exactly the plan ids of the owner's subscriptions whose id differs from the current one. |
| `Permissions.ProtectedGroups` | src/services/Permissions.php:150-162 | A group is protected exactly when some grant, enabled or not, names it for a plan the owner holds through another subscription. |
| `Permissions.RevokeRunShape` | src/services/Permissions.php:227-240 | A revoke run keeps exactly the groups that no enabled, unprotected, unvetoed grant of the run names, in their original order. Every entry equal to a removed group goes. |
| `Permissions.RevokeIdempotent` | src/services/Permissions.php:164-250 | A second identical revoke run leaves the groups unchanged and removes the owner from no group: its messages are "disabled", "protected", "not a member" or "prevented", never "removed". |
| `Permissions.RevokeRunStable` | src/services/Permissions.php:164-250 | If the owner holds no group that an enabled, unprotected, unvetoed grant of the run names, a revoke run changes nothing and writes no "removed" message. |
| `Permissions.RevokeProtects` | src/services/Permissions.php:181-190 | A revoke run never changes membership of a protected group. It takes the owner out of the group of every enabled, unprotected grant that is not vetoed. |
| `Permissions.RevokeRunNotes` | src/services/Permissions.php:164-250 | A revoke run writes exactly one message per grant, in order, with that grant's id. The message is "disabled" exactly for a disabled grant, and "protected" exactly for an enabled grant whose group is protected. A grant is "removed" only when enabled, unprotected and not vetoed. "Prevented" is written only for a vetoed grant. |
| `Permissions.DecideRevoke` | src/services/Permissions.php:164-250 | One iteration of the revoke loop, on one grant. It changes the owner's groups and extends the log exactly as one `RevokeStep` does. The checks run in order: disabled, protected, not a member, vetoed. Each of these writes its own message and keeps the groups. Otherwise every entry of the group is removed and "removed" is written. |
| `Permissions.RevokePermissionsForSubscription` | src/services/Permissions.php:139-253 | The owner's groups become those of `RevokePass` over the effective plan's grants, with the protected groups computed from the owner's other subscriptions. The checks run in order: disabled, protected, not a member, vetoed. Exactly that run's messages are appended, or none when the subscription does not exist. Returns true. |
| `Membership.OnSubscriptionCreated` | src/Membership.php:116-121 | Creating a subscription runs grant for the subscription's own plan. |
| `Membership.OnSubscriptionExpired` | src/Membership.php:123-128 | Expiring a subscription runs revoke for the subscription's own plan. |
| `Membership.OnSubscriptionPlanSwitched` | src/Membership.php:130-139 | A switch gives the groups of the grant run for the new plan, applied to the result of the revoke run for the old plan. The revoke run's messages come before the grant run's. |
| `Membership.SwitchGrantsNewPlan` | src/Membership.php:130-139 | After a switch with no grant veto, the owner holds the group of every enabled grant of the new plan. This includes a group the old plan's revoke just removed. |
| `Membership.SwitchLeavesOtherGroups` | src/Membership.php:130-139 | A switch leaves membership of every group that neither plan's grants name unchanged. |
| `Membership.SubscribeThenExpire` | src/services/Permissions.php:107-124 | Take a Pro plan whose one grant gives group Members. A subscriber joins Members with one "added" message when the subscription starts. They leave it with one "removed" message when it expires. |
| `Membership.ExpireWhileProtected` | src/services/Permissions.php:150-190 | A subscriber to Pro and Elite, both granting Members, stays in Members when Pro expires. One "protected" message is written. |

## Left out

- Controllers, asset bundles, the Twig behaviour, translations, ActiveRecord classes, the install migration and the event classes are framework glue. Cancellable events become veto predicates. The predicate stands for the event's final `isValid` once every attached listener has run. Listeners run in order and each may set `isValid`, so a later one can undo an earlier veto. Listener side effects are not modelled.
- Message texts are short fixed tags, one per decision. `Craft::t` translation and the group, plan and name placeholders are not modelled.
- Host lookups (`getGroupById`, plan lookup, `Subscription::find()`) become inputs. Which of the owner's other subscriptions the host query returns (active only or all) is the host's choice. The model takes that result as given and drops the current subscription id, as the query does.
- `assignUserToGroups` followed by `setGroups` becomes one assignment to the owner's group-id list. User groups are identified by id.
- Timestamps serve only as the ordering key. Ties on dateCreated keep table order (the sort is stable), whereas the database leaves them unordered. Message dates and uids are not modelled. The log queries return stored records rather than Message models.
- `GrantStore.Grants.SaveGrant`: validation follows the corrected uniqueness rule of the Findings row. A new grant that duplicates a stored pair therefore returns false, where the source passes validation and then throws at the unique index on insert.
- `GrantStore.Grants.SaveGrant`: sets dateUpdated on every successful update. Craft only bumps it when a column changed.
- `GrantStore.Grants.SaveGrant`: requires an existing grant's id to be stored. The source dereferences a missing record and fails with a fatal error. A failing `$record->save()` and database exceptions are not modelled: the save succeeds exactly when validation passes.
- `GrantStore.Grants.DeleteGrant`: requires the grant to be stored, for the same reason. The cascade that deletes the grant's log rows (src/migrations/Install.php:43) is not modelled.
- `GrantStore.GetGrants` and `LogStore.GetMessages` accept only the criteria their callers use: a list of plan ids, and equality on grantId and subscriptionId. Arbitrary WHERE arrays are not modelled.
- `_getGroupsOverlap` (src/services/Permissions.php:262-274) is private, never called, and compares against the wrong array. It is not modelled.
- Races between processes on the read-modify-write of the group list are not modelled.

On which subscriptions protect a group, the model follows the query rather than the comments. The comment at src/services/Permissions.php:181 and the message at line 184 speak of a different *active* subscription. The query at lines 151-154 filters only by owner and by `id` other than the current one. The model therefore protects the groups of every other subscription the host query returns for the owner. It does not filter them by state.

## Findings

| source | as written | input that shows it | evidently intended | confidence | as-written member | corrected member |
|---|---|---|---|---|---|---|
| src/models/Grant.php:103-110 | The uniqueness rule's filter `['!=', 'id', $this->id]` becomes `id != NULL` for a grant that has no id yet. That condition holds for no row, so a new grant never clashes with a stored one. | The table holds grant 1 for plan 5 and group 7. A new grant (no id) for plan 5 and group 7 is saved. | The rule rejects the duplicate and `saveGrant` returns false. Instead, validation passes and the insert hits the unique (planId, userGroupId) index of src/migrations/Install.php:47. | medium: rests on how the query builder renders a null operand; not executed | `GrantStore.AsWrittenDuplicateReachesInsert` | `GrantStore.InsertKeepsPairsUnique` |
