/**
 * The plugin's subscription listeners: a new subscription runs grant, an
 * expired one runs revoke, and a plan switch runs revoke for the old plan
 * and then grant for the new plan, on the same owner.
 */
module Membership {
  import opened Wrappers
  import opened Seqs
  import opened GrantModel
  import opened GrantStore
  import opened MessageModel
  import opened LogStore
  import opened Permissions

  /** After a subscription is created: grant, for the subscription's own plan. */
  method OnSubscriptionCreated(
    subscription: Subscription, owner: User, grants: Grants, logs: Logs,
    vetoGrant: GrantRow -> bool, subscriptions: set<int>)
    requires logs.Valid()
    modifies owner, logs
    ensures logs.Valid() && old(logs.records) <= logs.records
    ensures var run := GrantPass(old(owner.groups), GetGrantsForPlan(grants.rows, subscription.planId), vetoGrant);
      && owner.groups == run.groups
      && Bodies(logs.records) == Bodies(old(logs.records)) + Logged(run.notes, subscription.id, subscriptions)
  {
    var _ := GrantPermissionsForSubscription(subscription, None, owner, grants, logs, vetoGrant, subscriptions);
  }

  /** After a subscription expires: revoke, for the subscription's own plan. */
  method OnSubscriptionExpired(
    subscription: Subscription, owner: User, owned: seq<Subscription>, grants: Grants, logs: Logs,
    vetoRevoke: GrantRow -> bool, subscriptions: set<int>)
    requires logs.Valid()
    modifies owner, logs
    ensures logs.Valid() && old(logs.records) <= logs.records
    ensures var run := RevokePass(old(owner.groups), GetGrantsForPlan(grants.rows, subscription.planId),
                                  ProtectedGroups(grants.rows, owned, subscription.id), vetoRevoke);
      && owner.groups == run.groups
      && Bodies(logs.records) == Bodies(old(logs.records)) + Logged(run.notes, subscription.id, subscriptions)
  {
    var _ := RevokePermissionsForSubscription(subscription, None, owner, owned, grants, logs, vetoRevoke, subscriptions);
  }

  /**
   * After a subscription switches plans: revoke with the old plan, then
   * grant with the new plan. The revoke run's messages come first.
   */
  method OnSubscriptionPlanSwitched(
    subscription: Subscription, oldPlanId: int, newPlanId: int, owner: User, owned: seq<Subscription>,
    grants: Grants, logs: Logs, vetoGrant: GrantRow -> bool, vetoRevoke: GrantRow -> bool, subscriptions: set<int>)
    requires logs.Valid()
    modifies owner, logs
    ensures logs.Valid() && old(logs.records) <= logs.records
    ensures var revoked := RevokePass(old(owner.groups), GetGrantsForPlan(grants.rows, oldPlanId),
                                      ProtectedGroups(grants.rows, owned, subscription.id), vetoRevoke);
      var granted := GrantPass(revoked.groups, GetGrantsForPlan(grants.rows, newPlanId), vetoGrant);
      && owner.groups == granted.groups
      && Bodies(logs.records) == Bodies(old(logs.records))
           + Logged(revoked.notes, subscription.id, subscriptions)
           + Logged(granted.notes, subscription.id, subscriptions)
  {
    var _ := RevokePermissionsForSubscription(subscription, Some(oldPlanId), owner, owned, grants, logs, vetoRevoke, subscriptions);
    var _ := GrantPermissionsForSubscription(subscription, Some(newPlanId), owner, grants, logs, vetoGrant, subscriptions);
  }

  /** No extension objects. */
  function NoVeto(g: GrantRow): bool
  {
    false
  }

  /**
   * After a switch with no grant veto, the owner holds the group of every
   * enabled grant of the new plan, including a group the old plan's revoke
   * had just removed.
   */
  lemma SwitchGrantsNewPlan(
    groups: seq<int>, oldGrants: seq<GrantRow>, newGrants: seq<GrantRow>, protected: set<int>, vetoRevoke: GrantRow -> bool)
    ensures var revoked := RevokePass(groups, oldGrants, protected, vetoRevoke);
      var granted := GrantPass(revoked.groups, newGrants, NoVeto);
      forall g :: g in newGrants && g.enabled ==> g.userGroupId in granted.groups
  {
    GrantRunShape(RevokePass(groups, oldGrants, protected, vetoRevoke).groups, newGrants, NoVeto);
  }

  /** A switch leaves alone every group that neither plan's grants name. */
  lemma SwitchLeavesOtherGroups(
    groups: seq<int>, oldGrants: seq<GrantRow>, newGrants: seq<GrantRow>, protected: set<int>,
    vetoRevoke: GrantRow -> bool, vetoGrant: GrantRow -> bool, x: int)
    requires forall g :: g in oldGrants + newGrants ==> g.userGroupId != x
    ensures var revoked := RevokePass(groups, oldGrants, protected, vetoRevoke);
      var granted := GrantPass(revoked.groups, newGrants, vetoGrant);
      x in granted.groups <==> x in groups
  {
    var revoked := RevokePass(groups, oldGrants, protected, vetoRevoke);
    RevokeRunShape(groups, oldGrants, protected, vetoRevoke);
    assert x !in Revocable(oldGrants, protected, vetoRevoke);
    GrantRunShape(revoked.groups, newGrants, vetoGrant);
  }

  /**
   * A subscriber to Pro, whose one grant gives group Members, joins Members
   * when the subscription starts and leaves it when the subscription expires.
   */
  lemma SubscribeThenExpire()
    ensures var pro, members := 10, 100;
      var rows := [GrantRow(1, "Pro members", true, pro, members, 1, 1, "g1")];
      var sub := Subscription(7, pro);
      var forPro := GetGrantsForPlan(rows, sub.planId);
      var joined := GrantPass([], forPro, NoVeto);
      var left := RevokePass(joined.groups, forPro, ProtectedGroups(rows, [sub], sub.id), NoVeto);
      && joined == Pass([members], [Note(Added, 1)])
      && left == Pass([], [Note(Removed, 1)])
  {
    var rows := [GrantRow(1, "Pro members", true, 10, 100, 1, 1, "g1")];
    var sub := Subscription(7, 10);
    assert Filter(rows, OfPlan(10)) == rows;
    var forPro := GetGrantsForPlan(rows, 10);
    assert forPro == rows;
    assert ProtectedGroups(rows, [sub], sub.id) == {};
    assert Without([100], 100) == [];
  }

  /**
   * A subscriber to both Pro and Elite, each granting Members, stays in
   * Members when Pro expires: the group is protected by Elite.
   */
  lemma ExpireWhileProtected()
    ensures var pro, elite, members := 10, 20, 100;
      var rows := [GrantRow(1, "Pro members", true, pro, members, 1, 1, "g1"),
                   GrantRow(2, "Elite members", true, elite, members, 2, 2, "g2")];
      var proSub, eliteSub := Subscription(7, pro), Subscription(8, elite);
      var left := RevokePass([members], GetGrantsForPlan(rows, pro), ProtectedGroups(rows, [proSub, eliteSub], proSub.id), NoVeto);
      left == Pass([members], [Note(Protected, 1)])
  {
    var rows := [GrantRow(1, "Pro members", true, 10, 100, 1, 1, "g1"),
                 GrantRow(2, "Elite members", true, 20, 100, 2, 2, "g2")];
    var proSub, eliteSub := Subscription(7, 10), Subscription(8, 20);
    var protected := ProtectedGroups(rows, [proSub, eliteSub], proSub.id);
    ElitePlanProtects(rows, [proSub, eliteSub]);
    OnlyProGrant(rows);
    var forPro := GetGrantsForPlan(rows, 10);
    assert forPro[..0] == [];
  }

  /** In that scenario the Elite subscription protects Members. */
  lemma ElitePlanProtects(rows: seq<GrantRow>, owned: seq<Subscription>)
    requires rows == [GrantRow(1, "Pro members", true, 10, 100, 1, 1, "g1"),
                      GrantRow(2, "Elite members", true, 20, 100, 2, 2, "g2")]
    requires owned == [Subscription(7, 10), Subscription(8, 20)]
    ensures 100 in ProtectedGroups(rows, owned, 7)
  {
    assert rows[1] in rows && owned[1] in owned;
  }

  /** In that scenario Pro has exactly one grant. */
  lemma OnlyProGrant(rows: seq<GrantRow>)
    requires rows == [GrantRow(1, "Pro members", true, 10, 100, 1, 1, "g1"),
                      GrantRow(2, "Elite members", true, 20, 100, 2, 2, "g2")]
    ensures GetGrantsForPlan(rows, 10) == [rows[0]]
  {
    var forPro := GetGrantsForPlan(rows, 10);
    assert Filter(rows, OfPlan(10)) == [rows[0]];
    assert |forPro| == |multiset(forPro)| == 1;
    assert forPro[0] in forPro;
  }
}
