/**
 * The audit log: the logs table, its validated append and its queries,
 * which order by id descending (newest first).
 */
module LogStore {
  import opened Wrappers
  import opened Seqs
  import opened GrantModel
  import opened MessageModel

  /** WHERE criteria a caller may pass; an absent field does not constrain. */
  datatype Criteria = Criteria(grantId: Option<int>, subscriptionId: Option<int>)

  predicate Matches(c: Criteria, r: MessageRecord)
  {
    (c.grantId.Some? ==> r.grantId == c.grantId.value)
    && (c.subscriptionId.Some? ==> r.subscriptionId == c.subscriptionId.value)
  }

  function MatchesCriteria(c: Criteria): MessageRecord -> bool
  {
    (r: MessageRecord) => Matches(c, r)
  }

  /** The ordering key of every log query: ascending in it is id descending. */
  function Newest(r: MessageRecord): int
  {
    0 - r.id as int
  }

  /** The records matching `c`, newest first. */
  function GetMessages(records: seq<MessageRecord>, c: Criteria): (r: seq<MessageRecord>)
    ensures forall m :: m in r <==> m in records && Matches(c, m)
    ensures multiset(r) == multiset(Filter(records, MatchesCriteria(c)))
    ensures forall i, j :: 0 <= i < j < |r| ==> r[i].id >= r[j].id
  {
    var matching := Filter(records, MatchesCriteria(c));
    SortByMembers(matching, Newest);
    var sorted := SortBy(matching, Newest);
    assert forall i, j :: 0 <= i < j < |sorted| ==> Newest(sorted[i]) <= Newest(sorted[j]);
    sorted
  }

  /** The record with primary key `id`, or None. */
  function GetMessageById(records: seq<MessageRecord>, id: int): (r: Option<MessageRecord>)
    ensures r.None? <==> forall m :: m in records ==> m.id != id
    ensures r.Some? ==> r.value in records && r.value.id == id
  {
    if records == [] then None
    else if records[0].id == id then Some(records[0])
    else GetMessageById(records[1..], id)
  }

  /** Ids are positive, increasing in insertion order, and below nextId. */
  ghost predicate LogValid(records: seq<MessageRecord>, nextId: nat)
  {
    && 0 < nextId
    && (forall i :: 0 <= i < |records| ==> 0 < records[i].id < nextId)
    && (forall i, j :: 0 <= i < j < |records| ==> records[i].id < records[j].id)
  }

  class Logs {
    var records: seq<MessageRecord>
    /** The next value of the auto-increment primary key. */
    var nextId: nat

    ghost predicate Valid()
      reads this
    {
      LogValid(records, nextId)
    }

    constructor ()
      ensures Valid() && records == [] && nextId == 1
    {
      records := [];
      nextId := 1;
    }

    /**
     * Validates `m` against the stored grants and the existing subscriptions;
     * appends one record when it passes and changes nothing when it fails.
     */
    method Log(m: Message, grants: seq<GrantRow>, subscriptions: set<int>) returns (ok: bool)
      requires Valid()
      modifies this
      ensures Valid()
      ensures ok <==> MessageValid(m, grants, subscriptions)
      ensures !ok ==> records == old(records) && nextId == old(nextId)
      ensures ok ==>
        && records == old(records) + [MessageRecord(old(nextId), m.text.value, m.grantId.value, m.subscriptionId.value)]
        && nextId == old(nextId) + 1
      ensures Bodies(records) == Bodies(old(records)) + (if ok then [m] else [])
    {
      if !MessageValid(m, grants, subscriptions) {
        return false;
      }
      var r := MessageRecord(nextId, m.text.value, m.grantId.value, m.subscriptionId.value);
      assert (records + [r])[..|records|] == records;
      records := records + [r];
      nextId := nextId + 1;
      ok := true;
    }
  }
}
