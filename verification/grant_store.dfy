/**
 * The grant store: the grants table and its queries. Every query orders by
 * dateCreated ascending; a query with a WHERE clause keeps the matching rows.
 */
module GrantStore {
  import opened Wrappers
  import opened Seqs
  import opened GrantModel

  /** The ordering key of every grant query. */
  function Created(r: GrantRow): int
  {
    r.dateCreated
  }

  function OfPlan(planId: int): GrantRow -> bool
  {
    (r: GrantRow) => r.planId == planId
  }

  function OfPlans(planIds: seq<int>): GrantRow -> bool
  {
    (r: GrantRow) => r.planId in planIds
  }

  /** Every grant, oldest first. */
  function GetAllGrants(rows: seq<GrantRow>): (r: seq<GrantRow>)
    ensures multiset(r) == multiset(rows)
    ensures SortedBy(r, Created)
  {
    SortBy(rows, Created)
  }

  /** The grants whose planId is one of `planIds`, oldest first. */
  function GetGrants(rows: seq<GrantRow>, planIds: seq<int>): (r: seq<GrantRow>)
    ensures forall g :: g in r <==> g in rows && g.planId in planIds
    ensures multiset(r) == multiset(Filter(rows, OfPlans(planIds)))
    ensures SortedBy(r, Created)
  {
    var matching := Filter(rows, OfPlans(planIds));
    SortByMembers(matching, Created);
    SortBy(matching, Created)
  }

  /** The grants of one plan, enabled or not, oldest first. */
  function GetGrantsForPlan(rows: seq<GrantRow>, planId: int): (r: seq<GrantRow>)
    ensures forall g :: g in r <==> g in rows && g.planId == planId
    ensures multiset(r) == multiset(Filter(rows, OfPlan(planId)))
    ensures SortedBy(r, Created)
  {
    var matching := Filter(rows, OfPlan(planId));
    SortByMembers(matching, Created);
    SortBy(matching, Created)
  }

  /** The position of the first row carrying `id`. */
  function IndexOfId(rows: seq<GrantRow>, id: int): (k: nat)
    requires HasId(rows, id)
    ensures k < |rows| && rows[k].id == id
    ensures forall i :: 0 <= i < k ==> rows[i].id != id
  {
    if rows[0].id == id then 0
    else
      var r :| r in rows && r.id == id;
      assert r in rows[1..];
      1 + IndexOfId(rows[1..], id)
  }

  /** The grant with primary key `id`, or None. */
  function GetGrantById(rows: seq<GrantRow>, id: int): (r: Option<GrantRow>)
    ensures r.None? <==> forall g :: g in rows ==> g.id != id
    ensures r.Some? ==> r.value in rows && r.value.id == id
  {
    if HasId(rows, id) then Some(rows[IndexOfId(rows, id)]) else None
  }

  /** A grant without a (non-zero) id is inserted; any other is updated. */
  predicate IsNew(g: Grant)
  {
    g.id.None? || g.id.value == 0
  }

  /** The row inserted for a new grant. */
  function NewRow(g: Grant, id: nat, now: nat, uid: string): GrantRow
    requires g.name.Some? && g.planId.Some? && g.userGroupId.Some?
  {
    GrantRow(id, g.name.value, g.enabled, g.planId.value, g.userGroupId.value, now, now, uid)
  }

  /** A stored row after its four editable columns are overwritten. */
  function Edited(r: GrantRow, g: Grant, now: nat): GrantRow
    requires g.name.Some? && g.planId.Some? && g.userGroupId.Some?
  {
    r.(name := g.name.value, enabled := g.enabled, planId := g.planId.value,
       userGroupId := g.userGroupId.value, dateUpdated := now)
  }

  /** The model after the generated columns of its row are copied back onto it. */
  function WriteBack(g: Grant, r: GrantRow): Grant
  {
    g.(id := Some(r.id), dateCreated := Some(r.dateCreated), dateUpdated := Some(r.dateUpdated), uid := Some(r.uid))
  }

  class Grants {
    var rows: seq<GrantRow>
    /** The next value of the auto-increment primary key. */
    var nextId: nat

    ghost predicate Valid()
      reads this
    {
      TableValid(rows, nextId)
    }

    constructor ()
      ensures Valid() && rows == [] && nextId == 1
    {
      rows := [];
      nextId := 1;
    }

    /**
     * Validates `g`; on success inserts it (new) or overwrites its row
     * (existing) and returns the model with id, dates and uid filled in.
     * The clock reading `now` and the generated `freshUid` are inputs.
     */
    method SaveGrant(g: Grant, plans: set<int>, groups: set<int>, now: nat, freshUid: string)
      returns (ok: bool, saved: Grant)
      requires Valid()
      requires !IsNew(g) ==> HasId(rows, g.id.value)
      modifies this
      ensures Valid()
      ensures ok <==> GrantValid(g, old(rows), plans, groups)
      ensures !ok ==> rows == old(rows) && nextId == old(nextId) && saved == g
      ensures ok && IsNew(g) ==>
        && rows == old(rows) + [NewRow(g, old(nextId), now, freshUid)]
        && nextId == old(nextId) + 1
        && saved == WriteBack(g, NewRow(g, old(nextId), now, freshUid))
      ensures ok && !IsNew(g) ==>
        && nextId == old(nextId)
        && var k := IndexOfId(old(rows), g.id.value);
           && rows == old(rows)[k := Edited(old(rows)[k], g, now)]
           && saved == WriteBack(g, rows[k])
    {
      if !GrantValid(g, rows, plans, groups) {
        return false, g;
      }
      var row;
      if IsNew(g) {
        row := NewRow(g, nextId, now, freshUid);
        InsertKeepsPairsUnique(rows, g, row);
        rows := rows + [row];
        nextId := nextId + 1;
      } else {
        var k := IndexOfId(rows, g.id.value);
        row := Edited(rows[k], g, now);
        EditKeepsPairsUnique(rows, k, g, now);
        rows := rows[k := row];
      }
      ok, saved := true, WriteBack(g, row);
    }

    /** Deletes the row of `g`, which must be stored. */
    method DeleteGrant(g: Grant) returns (ok: bool)
      requires Valid()
      requires g.id.Some? && HasId(rows, g.id.value)
      modifies this
      ensures Valid() && ok && nextId == old(nextId)
      ensures var k := IndexOfId(old(rows), g.id.value);
        rows == old(rows)[..k] + old(rows)[k + 1..]
      ensures forall r :: r in rows <==> r in old(rows) && r.id != g.id.value
    {
      var k := IndexOfId(rows, g.id.value);
      DeleteKeepsTableValid(rows, nextId, k);
      rows := rows[..k] + rows[k + 1..];
      ok := true;
    }
  }

  /** Ids are positive, increasing in insertion order and below nextId; pairs are unique. */
  ghost predicate TableValid(rows: seq<GrantRow>, nextId: nat)
  {
    && 0 < nextId
    && (forall i :: 0 <= i < |rows| ==> 0 < rows[i].id < nextId)
    && (forall i, j :: 0 <= i < j < |rows| ==> rows[i].id < rows[j].id)
    && PairsUnique(rows)
  }

  /** Removing the row at k keeps the table valid, and removes exactly the rows with its id. */
  lemma DeleteKeepsTableValid(rows: seq<GrantRow>, nextId: nat, k: nat)
    requires TableValid(rows, nextId) && k < |rows|
    ensures var s := rows[..k] + rows[k + 1..];
      && TableValid(s, nextId)
      && forall r :: r in s <==> r in rows && r.id != rows[k].id
  {
    var s := rows[..k] + rows[k + 1..];
    assert forall i :: 0 <= i < |s| ==> s[i] == rows[if i < k then i else i + 1];
    forall r ensures r in s <==> r in rows && r.id != rows[k].id {
      if r in rows && r.id != rows[k].id {
        var j :| 0 <= j < |rows| && rows[j] == r;
        assert r == s[if j < k then j else j - 1];
      }
    }
  }

  /** Appending a row whose pair no stored row has keeps pairs unique. */
  lemma InsertKeepsPairsUnique(rows: seq<GrantRow>, g: Grant, row: GrantRow)
    requires PairsUnique(rows)
    requires forall i :: 0 <= i < |rows| ==> 0 < rows[i].id
    requires IsNew(g) && g.planId.Some? && g.userGroupId.Some? && PairUnique(g, rows)
    requires row.planId == g.planId.value && row.userGroupId == g.userGroupId.value
    ensures PairsUnique(rows + [row])
  {
    var s := rows + [row];
    forall i, j | 0 <= i < j < |s| ensures !SamePair(s[i], s[j]) {
      if j == |rows| {
        assert s[i] in rows;
      }
    }
  }

  /** Overwriting row k with a grant that passed the uniqueness rule keeps pairs unique. */
  lemma EditKeepsPairsUnique(rows: seq<GrantRow>, k: nat, g: Grant, now: nat)
    requires PairsUnique(rows)
    requires forall i, j :: 0 <= i < j < |rows| ==> rows[i].id < rows[j].id
    requires k < |rows| && g.id == Some(rows[k].id)
    requires g.name.Some? && g.planId.Some? && g.userGroupId.Some? && PairUnique(g, rows)
    ensures PairsUnique(rows[k := Edited(rows[k], g, now)])
  {
    var s := rows[k := Edited(rows[k], g, now)];
    forall i, j | 0 <= i < j < |s| ensures !SamePair(s[i], s[j]) {
      if i == k || j == k {
        var m := if i == k then j else i;
        assert rows[m] in rows;
        assert rows[m].id != rows[k].id;
      }
    }
  }

  /**
   * As written, the uniqueness rule lets a new grant that duplicates a stored
   * (planId, userGroupId) pair through, and inserting it would break the
   * table's unique pair index; the corrected rule (`PairUnique`) rejects it.
   */
  lemma AsWrittenDuplicateReachesInsert()
    ensures var rows := [GrantRow(1, "Pro members", true, 5, 7, 100, 100, "a")];
      var g := Grant(None, Some("Pro members again"), true, Some(5), Some(7), None, None, None);
      && PairsUnique(rows)
      && NameRule(g) && PairUniqueAsWritten(g, rows)
      && !PairsUnique(rows + [NewRow(g, 2, 200, "b")])
      && !PairUnique(g, rows)
  {
    var rows := [GrantRow(1, "Pro members", true, 5, 7, 100, 100, "a")];
    var g := Grant(None, Some("Pro members again"), true, Some(5), Some(7), None, None, None);
    assert g.name.value[0] == 'P';
    var s := rows + [NewRow(g, 2, 200, "b")];
    assert SamePair(s[0], s[1]);
    assert rows[0] in rows;
  }
}
