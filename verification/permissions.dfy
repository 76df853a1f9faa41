/**
 * The permission engine. For one subscription event it walks the grants of
 * the effective plan in store order, decides per grant whether to add the
 * subscriber to the grant's user group (grant) or remove them from it
 * (revoke), and writes one audit message per decision it reports.
 *
 * `GrantPass` and `RevokePass` are the reference definitions of one run;
 * the two methods are proved to compute them, and the lemmas below state
 * what a run guarantees.
 */
module Permissions {
  import opened Wrappers
  import opened Seqs
  import opened GrantModel
  import opened GrantStore
  import opened MessageModel
  import opened LogStore

  /** A subscription as the engine sees it: its id and its current plan. */
  datatype Subscription = Subscription(id: int, planId: int)

  /** The subscriber. `groups` is the user-group id list read, modified and written back whole. */
  class User {
    var groups: seq<int>

    constructor (groups: seq<int>)
      ensures this.groups == groups
    {
      this.groups := groups;
    }
  }

  /** What the engine decided about one grant. */
  datatype Outcome =
    | AlreadyMember    // grant: the owner already was in the group
    | AddPrevented     // grant: an extension vetoed the addition
    | Added            // grant: the group was appended
    | Disabled         // revoke: the grant is disabled
    | Protected        // revoke: another subscription of the owner grants the group
    | NotMember        // revoke: the owner was not in the group
    | RemovePrevented  // revoke: an extension vetoed the removal
    | Removed          // revoke: the group was removed

  /** One decision, as the audit message records it (with the run's subscription id). */
  datatype Note = Note(outcome: Outcome, grantId: nat)

  /** The owner's groups and the decisions taken so far in one run. */
  datatype Pass = Pass(groups: seq<int>, notes: seq<Note>)

  /** The text of each audit message, as a short tag; translation and placeholders are left out. */
  function NoteText(o: Outcome): string
  {
    match o
    case AlreadyMember => "owner already belonged to the group"
    case AddPrevented => "a plugin prevented the addition"
    case Added => "added the owner to the group"
    case Disabled => "not removed: the grant was disabled"
    case Protected => "another subscription protected it"
    case NotMember => "owner was not in the group"
    case RemovePrevented => "a plugin prevented the removal"
    case Removed => "removed the owner from the group"
  }

  /** The message logged for a decision taken while handling subscription `subscriptionId`. */
  function NoteMessage(n: Note, subscriptionId: int): Message
  {
    Message(Some(NoteText(n.outcome)), Some(n.grantId), Some(subscriptionId))
  }

  /**
   * The messages that reach the log for `notes`: the log rejects every one of
   * them when the subscription does not exist, and the engine ignores that.
   */
  function Logged(notes: seq<Note>, subscriptionId: int, subscriptions: set<int>): (ms: seq<Message>)
    ensures |ms| == if subscriptionId in subscriptions then |notes| else 0
    ensures forall i :: 0 <= i < |ms| ==> ms[i] == NoteMessage(notes[i], subscriptionId)
  {
    if notes == [] then []
    else
      Logged(notes[..|notes| - 1], subscriptionId, subscriptions)
      + (if subscriptionId in subscriptions then [NoteMessage(notes[|notes| - 1], subscriptionId)] else [])
  }

  /** Logging one more decision appends at most one message. */
  lemma LoggedNext(notes: seq<Note>, n: Note, subscriptionId: int, subscriptions: set<int>)
    ensures Logged(notes + [n], subscriptionId, subscriptions)
         == Logged(notes, subscriptionId, subscriptions) + (if subscriptionId in subscriptions then [NoteMessage(n, subscriptionId)] else [])
  {
    assert (notes + [n])[..|notes|] == notes;
  }

  /** A decision message passes validation exactly when its subscription exists. */
  lemma NoteMessageValid(n: Note, subscriptionId: int, grants: seq<GrantRow>, subscriptions: set<int>)
    requires HasId(grants, n.grantId)
    ensures MessageValid(NoteMessage(n, subscriptionId), grants, subscriptions) <==> subscriptionId in subscriptions
  {
    var t := NoteText(n.outcome);
    assert t[0] in "oanr" by {
      match n.outcome
      case AlreadyMember => assert t[0] == 'o';
      case AddPrevented => assert t[0] == 'a';
      case Added => assert t[0] == 'a';
      case Disabled => assert t[0] == 'n';
      case Protected => assert t[0] == 'a';
      case NotMember => assert t[0] == 'o';
      case RemovePrevented => assert t[0] == 'a';
      case Removed => assert t[0] == 'r';
    }
    assert !Rules.IsTrimmed(t[0]);
  }

  // ---------------------------------------------------------------------
  // Grant

  /** The decision on one grant when a subscription starts. */
  function GrantStep(p: Pass, g: GrantRow, vetoed: GrantRow -> bool): Pass
  {
    if !g.enabled then p
    else if g.userGroupId in p.groups then Pass(p.groups, p.notes + [Note(AlreadyMember, g.id)])
    else if vetoed(g) then Pass(p.groups, p.notes + [Note(AddPrevented, g.id)])
    else Pass(p.groups + [g.userGroupId], p.notes + [Note(Added, g.id)])
  }

  /** A grant run over `grants`, in order, from the owner's groups `groups`. */
  function GrantPass(groups: seq<int>, grants: seq<GrantRow>, vetoed: GrantRow -> bool): Pass
  {
    if grants == [] then Pass(groups, [])
    else GrantStep(GrantPass(groups, grants[..|grants| - 1], vetoed), grants[|grants| - 1], vetoed)
  }

  /** A grant run over one more grant is one more step. */
  lemma GrantPassNext(groups: seq<int>, grants: seq<GrantRow>, k: nat, vetoed: GrantRow -> bool)
    requires k < |grants|
    ensures GrantPass(groups, grants[..k + 1], vetoed) == GrantStep(GrantPass(groups, grants[..k], vetoed), grants[k], vetoed)
  {
    assert grants[..k + 1][..k] == grants[..k];
  }

  function IsEnabled(g: GrantRow): bool
  {
    g.enabled
  }

  /**
   * A grant run only appends: the prior groups stay, in order, in front;
   * every group it adds belongs to an enabled grant of the run that no
   * extension vetoed; and the
   * owner ends up holding the group of every enabled grant no extension vetoes.
   */
  lemma {:induction false} GrantRunShape(groups: seq<int>, grants: seq<GrantRow>, vetoed: GrantRow -> bool)
    ensures var run := GrantPass(groups, grants, vetoed);
      && groups <= run.groups
      && (forall x :: x in run.groups ==> x in groups || exists g :: g in grants && g.enabled && !vetoed(g) && g.userGroupId == x)
      && (forall g :: g in grants && g.enabled && !vetoed(g) ==> g.userGroupId in run.groups)
  {
    if grants != [] {
      var init, last := grants[..|grants| - 1], grants[|grants| - 1];
      assert grants == init + [last];
      GrantRunShape(groups, init, vetoed);
    }
  }

  /**
   * A grant run reports one decision per enabled grant, in order, and none
   * for a disabled grant; "added" only for a grant no extension vetoed, and
   * "prevented" only for a vetoed one.
   */
  lemma {:induction false} GrantRunNotes(groups: seq<int>, grants: seq<GrantRow>, vetoed: GrantRow -> bool)
    ensures var run := GrantPass(groups, grants, vetoed);
      var enabled := Filter(grants, IsEnabled);
      && |run.notes| == |enabled|
      && forall i :: 0 <= i < |enabled| ==>
        && run.notes[i].grantId == enabled[i].id
        && (run.notes[i].outcome == Added ==> !vetoed(enabled[i]))
        && (run.notes[i].outcome == AddPrevented ==> vetoed(enabled[i]))
  {
    if grants != [] {
      var init, last := grants[..|grants| - 1], grants[|grants| - 1];
      assert grants == init + [last];
      GrantRunNotes(groups, init, vetoed);
      FilterAppend(init, last, IsEnabled);
      var before := GrantPass(groups, init, vetoed);
      var run := GrantPass(groups, grants, vetoed);
      if last.enabled {
        var n := run.notes[|before.notes|];
        assert run.notes == before.notes + [n];
        assert n.grantId == last.id;
        assert n.outcome == Added ==> !vetoed(last);
        assert n.outcome == AddPrevented ==> vetoed(last);
      } else {
        assert run == before;
      }
    }
  }

  /**
   * From groups that already hold every enabled, unvetoed grant's group, a
   * grant run adds nothing: each enabled grant reports "already belonged"
   * or "prevented".
   */
  lemma {:induction false} GrantRunStable(held: seq<int>, grants: seq<GrantRow>, vetoed: GrantRow -> bool)
    requires forall g :: g in grants && g.enabled && !vetoed(g) ==> g.userGroupId in held
    ensures var run := GrantPass(held, grants, vetoed);
      && run.groups == held
      && forall n :: n in run.notes ==> n.outcome == AlreadyMember || n.outcome == AddPrevented
  {
    if grants != [] {
      var init, last := grants[..|grants| - 1], grants[|grants| - 1];
      assert grants == init + [last];
      GrantRunStable(held, init, vetoed);
    }
  }

  /** Running grant a second time for the same plan changes nothing and adds no group. */
  lemma GrantIdempotent(groups: seq<int>, grants: seq<GrantRow>, vetoed: GrantRow -> bool)
    ensures var first := GrantPass(groups, grants, vetoed);
      var second := GrantPass(first.groups, grants, vetoed);
      && second.groups == first.groups
      && forall n :: n in second.notes ==> n.outcome != Added
  {
    GrantRunShape(groups, grants, vetoed);
    GrantRunStable(GrantPass(groups, grants, vetoed).groups, grants, vetoed);
  }

  /**
   * When no extension vetoes any grant, a second grant run for the same plan
   * reports "already belonged" for every enabled grant.
   */
  lemma GrantRerunFindsMembers(groups: seq<int>, grants: seq<GrantRow>, vetoed: GrantRow -> bool)
    requires forall g :: g in grants ==> !vetoed(g)
    ensures var first := GrantPass(groups, grants, vetoed);
      var second := GrantPass(first.groups, grants, vetoed);
      && |second.notes| == |Filter(grants, IsEnabled)|
      && forall n :: n in second.notes ==> n.outcome == AlreadyMember
  {
    var first := GrantPass(groups, grants, vetoed);
    var second := GrantPass(first.groups, grants, vetoed);
    var enabled := Filter(grants, IsEnabled);
    GrantRunShape(groups, grants, vetoed);
    GrantRunStable(first.groups, grants, vetoed);
    GrantRunNotes(first.groups, grants, vetoed);
    forall n | n in second.notes
      ensures n.outcome == AlreadyMember
    {
      var i :| 0 <= i < |second.notes| && second.notes[i] == n;
      assert enabled[i] in grants;
    }
  }

  /**
   * Handles a subscription that starts: for every grant of the effective plan
   * (the override, else the subscription's plan) the owner joins its group
   * unless the grant is disabled (no message), the owner already is a member
   * or an extension vetoes it (one message each). Always returns true.
   */
  method GrantPermissionsForSubscription(
    subscription: Subscription, plan: Option<int>, owner: User,
    grants: Grants, logs: Logs, vetoed: GrantRow -> bool, subscriptions: set<int>)
    returns (ok: bool)
    requires logs.Valid()
    modifies owner, logs
    ensures logs.Valid() && ok
    ensures var run := GrantPass(old(owner.groups), GetGrantsForPlan(grants.rows, plan.GetOr(subscription.planId)), vetoed);
      && owner.groups == run.groups
      && Bodies(logs.records) == Bodies(old(logs.records)) + Logged(run.notes, subscription.id, subscriptions)
    ensures old(logs.records) <= logs.records
  {
    var planId := plan.GetOr(subscription.planId);
    var todo := GetGrantsForPlan(grants.rows, planId);
    ghost var groups0, records0 := owner.groups, logs.records;
    var i := 0;
    while i < |todo|
      invariant 0 <= i <= |todo|
      invariant logs.Valid()
      invariant records0 <= logs.records
      invariant owner.groups == GrantPass(groups0, todo[..i], vetoed).groups
      invariant Bodies(logs.records) == Bodies(records0) + Logged(GrantPass(groups0, todo[..i], vetoed).notes, subscription.id, subscriptions)
    {
      assert todo[i] in grants.rows;
      DecideGrant(todo[i], subscription.id, owner, grants, logs, vetoed, subscriptions,
                  GrantPass(groups0, todo[..i], vetoed), records0);
      GrantPassNext(groups0, todo, i, vetoed);
      i := i + 1;
    }
    assert todo[..i] == todo;
    ok := true;
  }

  /** The body of the grant loop: decides about one grant and logs the decision. */
  method DecideGrant(
    grant: GrantRow, subscriptionId: int, owner: User, grants: Grants, logs: Logs,
    vetoed: GrantRow -> bool, subscriptions: set<int>, ghost before: Pass, ghost records0: seq<MessageRecord>)
    requires logs.Valid() && grant in grants.rows
    requires owner.groups == before.groups
    requires records0 <= logs.records
    requires Bodies(logs.records) == Bodies(records0) + Logged(before.notes, subscriptionId, subscriptions)
    modifies owner, logs
    ensures logs.Valid() && records0 <= logs.records
    ensures var after := GrantStep(before, grant, vetoed);
      && owner.groups == after.groups
      && Bodies(logs.records) == Bodies(records0) + Logged(after.notes, subscriptionId, subscriptions)
  {
    if !grant.enabled {
      // A disabled grant: no change, no message.
    } else if grant.userGroupId in owner.groups {
      LogNote(Note(AlreadyMember, grant.id), subscriptionId, grants, logs, subscriptions, before.notes, records0);
    } else if vetoed(grant) {
      LogNote(Note(AddPrevented, grant.id), subscriptionId, grants, logs, subscriptions, before.notes, records0);
    } else {
      owner.groups := owner.groups + [grant.userGroupId];
      LogNote(Note(Added, grant.id), subscriptionId, grants, logs, subscriptions, before.notes, records0);
    }
  }

  /** Logs one decision and extends the logged-message invariant by it. */
  method LogNote(
    n: Note, subscriptionId: int, grants: Grants, logs: Logs, subscriptions: set<int>,
    ghost notes: seq<Note>, ghost records0: seq<MessageRecord>)
    requires logs.Valid() && HasId(grants.rows, n.grantId)
    requires records0 <= logs.records
    requires Bodies(logs.records) == Bodies(records0) + Logged(notes, subscriptionId, subscriptions)
    modifies logs
    ensures logs.Valid() && records0 <= logs.records
    ensures Bodies(logs.records) == Bodies(records0) + Logged(notes + [n], subscriptionId, subscriptions)
  {
    NoteMessageValid(n, subscriptionId, grants.rows, subscriptions);
    LoggedNext(notes, n, subscriptionId, subscriptions);
    var _ := logs.Log(NoteMessage(n, subscriptionId), grants.rows, subscriptions);
  }

  // ---------------------------------------------------------------------
  // Revoke

  /**
   * The plan ids of the owner's subscriptions other than `currentId`.
   */
  function OtherPlanIds(owned: seq<Subscription>, currentId: int): (ps: seq<int>)
    ensures forall p :: p in ps <==> exists s :: s in owned && s.id != currentId && s.planId == p
  {
    if owned == [] then []
    else
      var rest := OtherPlanIds(owned[1..], currentId);
      assert forall s :: s in owned <==> s == owned[0] || s in owned[1..];
      if owned[0].id != currentId then [owned[0].planId] + rest else rest
  }

  /**
   * The protected groups: the groups of every grant, enabled or not, of a
   * plan the owner holds through another subscription.
   */
  function ProtectedGroups(rows: seq<GrantRow>, owned: seq<Subscription>, currentId: int): (r: set<int>)
    ensures forall x :: x in r <==>
      exists g :: g in rows && g.userGroupId == x && exists s :: s in owned && s.id != currentId && s.planId == g.planId
  {
    set g | g in GetGrants(rows, OtherPlanIds(owned, currentId)) :: g.userGroupId
  }

  function Other(x: int): int -> bool
  {
    (y: int) => y != x
  }

  /** `groups` without any entry equal to `x`, the others in order. */
  function Without(groups: seq<int>, x: int): seq<int>
  {
    Filter(groups, Other(x))
  }

  /** The decision on one grant when a subscription ends. */
  function RevokeStep(p: Pass, g: GrantRow, protected: set<int>, vetoed: GrantRow -> bool): Pass
  {
    if !g.enabled then Pass(p.groups, p.notes + [Note(Disabled, g.id)])
    else if g.userGroupId in protected then Pass(p.groups, p.notes + [Note(Protected, g.id)])
    else if g.userGroupId !in p.groups then Pass(p.groups, p.notes + [Note(NotMember, g.id)])
    else if vetoed(g) then Pass(p.groups, p.notes + [Note(RemovePrevented, g.id)])
    else Pass(Without(p.groups, g.userGroupId), p.notes + [Note(Removed, g.id)])
  }

  /** A revoke run over `grants`, in order, from the owner's groups `groups`. */
  function RevokePass(groups: seq<int>, grants: seq<GrantRow>, protected: set<int>, vetoed: GrantRow -> bool): Pass
  {
    if grants == [] then Pass(groups, [])
    else RevokeStep(RevokePass(groups, grants[..|grants| - 1], protected, vetoed), grants[|grants| - 1], protected, vetoed)
  }

  /** A revoke run over one more grant is one more step. */
  lemma RevokePassNext(groups: seq<int>, grants: seq<GrantRow>, k: nat, protected: set<int>, vetoed: GrantRow -> bool)
    requires k < |grants|
    ensures RevokePass(groups, grants[..k + 1], protected, vetoed)
         == RevokeStep(RevokePass(groups, grants[..k], protected, vetoed), grants[k], protected, vetoed)
  {
    assert grants[..k + 1][..k] == grants[..k];
  }

  /** A grant that, reached while the owner holds its group, removes it. */
  predicate Revokes(g: GrantRow, protected: set<int>, vetoed: GrantRow -> bool)
  {
    g.enabled && g.userGroupId !in protected && !vetoed(g)
  }

  /** The groups a revoke run over `grants` takes away. */
  function Revocable(grants: seq<GrantRow>, protected: set<int>, vetoed: GrantRow -> bool): (r: set<int>)
    ensures forall x :: x in r <==> exists g :: g in grants && Revokes(g, protected, vetoed) && g.userGroupId == x
  {
    if grants == [] then {}
    else
      var init, last := grants[..|grants| - 1], grants[|grants| - 1];
      assert grants == init + [last];
      Revocable(init, protected, vetoed) + (if Revokes(last, protected, vetoed) then {last.userGroupId} else {})
  }

  function NotIn(s: set<int>): int -> bool
  {
    (y: int) => y !in s
  }

  /**
   * A revoke run keeps exactly the owner's groups that no enabled,
   * unprotected, unvetoed grant of the run names, in their original order,
   * each occurrence of a removed group going at once.
   */
  lemma {:induction false} RevokeRunShape(groups: seq<int>, grants: seq<GrantRow>, protected: set<int>, vetoed: GrantRow -> bool)
    ensures RevokePass(groups, grants, protected, vetoed).groups == Filter(groups, NotIn(Revocable(grants, protected, vetoed)))
  {
    if grants != [] {
      var init, last := grants[..|grants| - 1], grants[|grants| - 1];
      RevokeRunShape(groups, init, protected, vetoed);
      var before := RevokePass(groups, init, protected, vetoed);
      var s := Revocable(init, protected, vetoed);
      var run := RevokePass(groups, grants, protected, vetoed);
      if Revokes(last, protected, vetoed) {
        var y := last.userGroupId;
        assert Revocable(grants, protected, vetoed) == s + {y};
        FilterFilter(groups, NotIn(s), Other(y), NotIn(s + {y}));
        if y in before.groups {
          assert run.groups == Filter(before.groups, Other(y));
        } else {
          FilterKeepsAll(before.groups, Other(y));
          assert run.groups == before.groups;
        }
      } else {
        assert Revocable(grants, protected, vetoed) == s;
        assert run.groups == before.groups;
      }
    } else {
      FilterKeepsAll(groups, NotIn({}));
    }
  }

  /**
   * If the owner holds no group the run would take away, a revoke run
   * changes nothing and removes the owner from no group.
   */
  lemma {:induction false} RevokeRunStable(groups: seq<int>, grants: seq<GrantRow>, protected: set<int>, vetoed: GrantRow -> bool)
    requires forall x :: x in groups ==> x !in Revocable(grants, protected, vetoed)
    ensures var run := RevokePass(groups, grants, protected, vetoed);
      && run.groups == groups
      && forall n :: n in run.notes ==> n.outcome != Removed
  {
    if grants != [] {
      var init, last := grants[..|grants| - 1], grants[|grants| - 1];
      assert grants == init + [last];
      forall x | x in Revocable(init, protected, vetoed)
        ensures x in Revocable(grants, protected, vetoed)
      {
        var g :| g in init && Revokes(g, protected, vetoed) && g.userGroupId == x;
        assert g in grants;
      }
      RevokeRunStable(groups, init, protected, vetoed);
      if Revokes(last, protected, vetoed) {
        assert last.userGroupId in Revocable(grants, protected, vetoed);
      }
    }
  }

  /**
   * Running revoke a second time for the same plan changes nothing and
   * removes the owner from no group.
   */
  lemma RevokeIdempotent(groups: seq<int>, grants: seq<GrantRow>, protected: set<int>, vetoed: GrantRow -> bool)
    ensures var first := RevokePass(groups, grants, protected, vetoed);
      var second := RevokePass(first.groups, grants, protected, vetoed);
      && second.groups == first.groups
      && forall n :: n in second.notes ==> n.outcome != Removed
  {
    RevokeRunShape(groups, grants, protected, vetoed);
    RevokeRunStable(RevokePass(groups, grants, protected, vetoed).groups, grants, protected, vetoed);
  }

  /**
   * A revoke run never touches a protected group, and the owner leaves the
   * group of every enabled, unprotected grant that no extension vetoes.
   */
  lemma RevokeProtects(groups: seq<int>, grants: seq<GrantRow>, protected: set<int>, vetoed: GrantRow -> bool)
    ensures var run := RevokePass(groups, grants, protected, vetoed);
      && (forall x :: x in protected ==> (x in run.groups <==> x in groups))
      && (forall g :: g in grants && Revokes(g, protected, vetoed) ==> g.userGroupId !in run.groups)
  {
    RevokeRunShape(groups, grants, protected, vetoed);
  }

  /**
   * A revoke run reports exactly one decision per grant, in order; the
   * checks run disabled first, then protected.
   */
  lemma {:induction false} RevokeRunNotes(groups: seq<int>, grants: seq<GrantRow>, protected: set<int>, vetoed: GrantRow -> bool)
    ensures var run := RevokePass(groups, grants, protected, vetoed);
      && |run.notes| == |grants|
      && forall i :: 0 <= i < |grants| ==>
        && run.notes[i].grantId == grants[i].id
        && (run.notes[i].outcome == Disabled <==> !grants[i].enabled)
        && (run.notes[i].outcome == Protected <==> grants[i].enabled && grants[i].userGroupId in protected)
        && (run.notes[i].outcome == Removed ==> Revokes(grants[i], protected, vetoed))
        && (run.notes[i].outcome == RemovePrevented ==> vetoed(grants[i]))
  {
    if grants != [] {
      var init := grants[..|grants| - 1];
      RevokeRunNotes(groups, init, protected, vetoed);
    }
  }

  /** The body of the revoke loop: decides about one grant and logs the decision. */
  method DecideRevoke(
    grant: GrantRow, subscriptionId: int, owner: User, protected: set<int>, grants: Grants, logs: Logs,
    vetoed: GrantRow -> bool, subscriptions: set<int>, ghost before: Pass, ghost records0: seq<MessageRecord>)
    requires logs.Valid() && grant in grants.rows
    requires owner.groups == before.groups
    requires records0 <= logs.records
    requires Bodies(logs.records) == Bodies(records0) + Logged(before.notes, subscriptionId, subscriptions)
    modifies owner, logs
    ensures logs.Valid() && records0 <= logs.records
    ensures var after := RevokeStep(before, grant, protected, vetoed);
      && owner.groups == after.groups
      && Bodies(logs.records) == Bodies(records0) + Logged(after.notes, subscriptionId, subscriptions)
  {
    if !grant.enabled {
      LogNote(Note(Disabled, grant.id), subscriptionId, grants, logs, subscriptions, before.notes, records0);
    } else if grant.userGroupId in protected {
      LogNote(Note(Protected, grant.id), subscriptionId, grants, logs, subscriptions, before.notes, records0);
    } else if grant.userGroupId !in owner.groups {
      LogNote(Note(NotMember, grant.id), subscriptionId, grants, logs, subscriptions, before.notes, records0);
    } else if vetoed(grant) {
      LogNote(Note(RemovePrevented, grant.id), subscriptionId, grants, logs, subscriptions, before.notes, records0);
    } else {
      owner.groups := Without(owner.groups, grant.userGroupId);
      LogNote(Note(Removed, grant.id), subscriptionId, grants, logs, subscriptions, before.notes, records0);
    }
  }

  /**
   * Handles a subscription that ends: for every grant of the effective plan
   * the owner leaves its group unless the grant is disabled, its group is
   * protected, the owner is not a member, or an extension vetoes it, checked
   * in that order; every grant yields exactly one message. Always returns true.
   */
  method RevokePermissionsForSubscription(
    subscription: Subscription, plan: Option<int>, owner: User, owned: seq<Subscription>,
    grants: Grants, logs: Logs, vetoed: GrantRow -> bool, subscriptions: set<int>)
    returns (ok: bool)
    requires logs.Valid()
    modifies owner, logs
    ensures logs.Valid() && ok
    ensures var run := RevokePass(old(owner.groups), GetGrantsForPlan(grants.rows, plan.GetOr(subscription.planId)),
                                  ProtectedGroups(grants.rows, owned, subscription.id), vetoed);
      && owner.groups == run.groups
      && Bodies(logs.records) == Bodies(old(logs.records)) + Logged(run.notes, subscription.id, subscriptions)
    ensures old(logs.records) <= logs.records
  {
    var planId := plan.GetOr(subscription.planId);
    var todo := GetGrantsForPlan(grants.rows, planId);
    var protected := ProtectedGroups(grants.rows, owned, subscription.id);
    ghost var groups0, records0 := owner.groups, logs.records;
    var i := 0;
    while i < |todo|
      invariant 0 <= i <= |todo|
      invariant logs.Valid()
      invariant records0 <= logs.records
      invariant owner.groups == RevokePass(groups0, todo[..i], protected, vetoed).groups
      invariant Bodies(logs.records) == Bodies(records0) + Logged(RevokePass(groups0, todo[..i], protected, vetoed).notes, subscription.id, subscriptions)
    {
      assert todo[i] in grants.rows;
      DecideRevoke(todo[i], subscription.id, owner, protected, grants, logs, vetoed, subscriptions,
                   RevokePass(groups0, todo[..i], protected, vetoed), records0);
      RevokePassNext(groups0, todo, i, protected, vetoed);
      i := i + 1;
    }
    assert todo[..i] == todo;
    ok := true;
  }
}
