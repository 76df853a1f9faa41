/**
 * The Grant model: one rule "subscribers of plan P belong to user group G",
 * and the validation rules a grant must pass before it is stored.
 */
module GrantModel {
  import opened Wrappers
  import Rules

  /** A grant as the admin surface edits it; any attribute may still be missing. */
  datatype Grant = Grant(
    id: Option<nat>,
    name: Option<string>,
    enabled: bool,
    planId: Option<int>,
    userGroupId: Option<int>,
    dateCreated: Option<nat>,
    dateUpdated: Option<nat>,
    uid: Option<string>)

  /** A stored row of the grants table; every column is NOT NULL. */
  datatype GrantRow = GrantRow(
    id: nat,
    name: string,
    enabled: bool,
    planId: int,
    userGroupId: int,
    dateCreated: nat,
    dateUpdated: nat,
    uid: string)

  const MaxNameLength := 255

  /** The model populated from a stored row. */
  function FromRow(r: GrantRow): Grant
  {
    Grant(Some(r.id), Some(r.name), r.enabled, Some(r.planId), Some(r.userGroupId),
          Some(r.dateCreated), Some(r.dateUpdated), Some(r.uid))
  }

  /** Some stored row carries `id`. */
  predicate HasId(rows: seq<GrantRow>, id: int)
  {
    exists r :: r in rows && r.id == id
  }

  predicate SamePair(a: GrantRow, b: GrantRow)
  {
    a.planId == b.planId && a.userGroupId == b.userGroupId
  }

  /** The table invariant behind the unique (planId, userGroupId) index. */
  ghost predicate PairsUnique(rows: seq<GrantRow>)
  {
    forall i, j :: 0 <= i < j < |rows| ==> !SamePair(rows[i], rows[j])
  }

  /** name: required, at most 255 characters. */
  predicate NameRule(g: Grant)
  {
    Rules.Required(g.name) && |g.name.value| <= MaxNameLength
  }

  /** planId: required, and names an existing plan. */
  predicate PlanRule(g: Grant, plans: set<int>)
  {
    g.planId.Some? && g.planId.value in plans
  }

  /** userGroupId: required, and names an existing user group. */
  predicate GroupRule(g: Grant, groups: set<int>)
  {
    g.userGroupId.Some? && g.userGroupId.value in groups
  }

  /**
   * (planId, userGroupId): no stored row other than the grant itself has the
   * same pair. A row is the grant itself when its id equals the grant's id.
   */
  predicate PairUnique(g: Grant, rows: seq<GrantRow>)
  {
    g.planId.Some? && g.userGroupId.Some? ==>
      forall r :: r in rows && r.planId == g.planId.value && r.userGroupId == g.userGroupId.value ==>
        g.id == Some(r.id)
  }

  /**
   * The same rule as the query builder evaluates it: the "not this id" filter
   * becomes `id != NULL` for a grant without an id, which holds for no row,
   * so nothing is ever found to clash with a new grant.
   */
  predicate PairUniqueAsWritten(g: Grant, rows: seq<GrantRow>)
  {
    g.id.None? || PairUnique(g, rows)
  }

  /**
   * The conjunction of all rules: the grant passes validation. Uniqueness is
   * the corrected rule, under which a grant without an id may not share its
   * pair with any stored row.
   */
  predicate GrantValid(g: Grant, rows: seq<GrantRow>, plans: set<int>, groups: set<int>): (v: bool)
    ensures v ==> g.name.Some? && 0 < |g.name.value| <= MaxNameLength
    ensures v ==> g.planId.Some? && g.planId.value in plans && g.userGroupId.Some? && g.userGroupId.value in groups
    ensures v && g.id.None? ==>
      forall r :: r in rows ==> r.planId != g.planId.value || r.userGroupId != g.userGroupId.value
  {
    NameRule(g) && PlanRule(g, plans) && GroupRule(g, groups) && PairUnique(g, rows)
  }

  /** Each rule on its own rejects a grant. */
  lemma Rejections(g: Grant, rows: seq<GrantRow>, plans: set<int>, groups: set<int>)
    ensures g.name.None? || Rules.Blank(g.name.value) ==> !GrantValid(g, rows, plans, groups)
    ensures g.name.Some? && |g.name.value| > MaxNameLength ==> !GrantValid(g, rows, plans, groups)
    ensures g.planId.None? || g.planId.value !in plans ==> !GrantValid(g, rows, plans, groups)
    ensures g.userGroupId.None? || g.userGroupId.value !in groups ==> !GrantValid(g, rows, plans, groups)
    ensures (exists r :: r in rows && g.planId == Some(r.planId) && g.userGroupId == Some(r.userGroupId) && g.id != Some(r.id))
            ==> !GrantValid(g, rows, plans, groups)
  {
  }

  /**
   * Re-validating a stored grant whose pair is unchanged does not trip the
   * uniqueness rule over itself.
   */
  lemma {:induction false} ResaveStaysUnique(rows: seq<GrantRow>, k: nat)
    requires PairsUnique(rows)
    requires k < |rows|
    ensures PairUnique(FromRow(rows[k]), rows)
  {
    var g := FromRow(rows[k]);
    forall r | r in rows && r.planId == g.planId.value && r.userGroupId == g.userGroupId.value
      ensures g.id == Some(r.id)
    {
      var j :| 0 <= j < |rows| && rows[j] == r;
      assert SamePair(rows[j], rows[k]) && SamePair(rows[k], rows[j]);
    }
  }
}
