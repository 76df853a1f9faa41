/** The Message model: one audit entry, and the rules it must pass before it is stored. */
module MessageModel {
  import opened Wrappers
  import Rules
  import opened GrantModel

  /** A message as the engine builds it, before it is stored. */
  datatype Message = Message(text: Option<string>, grantId: Option<int>, subscriptionId: Option<int>)

  /** A stored row of the logs table. */
  datatype MessageRecord = MessageRecord(id: nat, text: string, grantId: int, subscriptionId: int)

  /** message: required. */
  predicate TextRule(m: Message)
  {
    Rules.Required(m.text)
  }

  /** grantId: required, and names a stored grant. */
  predicate GrantRule(m: Message, grants: seq<GrantRow>)
  {
    m.grantId.Some? && HasId(grants, m.grantId.value)
  }

  /** subscriptionId: required, and names an existing subscription. */
  predicate SubscriptionRule(m: Message, subscriptions: set<int>)
  {
    m.subscriptionId.Some? && m.subscriptionId.value in subscriptions
  }

  /** The conjunction of all rules: the message passes validation. */
  predicate MessageValid(m: Message, grants: seq<GrantRow>, subscriptions: set<int>): (v: bool)
    ensures v ==> m.text.Some? && exists i :: 0 <= i < |m.text.value| && !Rules.IsTrimmed(m.text.value[i])
    ensures v ==> m.grantId.Some? && exists k :: 0 <= k < |grants| && grants[k].id == m.grantId.value
    ensures v ==> m.subscriptionId.Some? && m.subscriptionId.value in subscriptions
    ensures m.text.None? || m.grantId.None? || m.subscriptionId.None? ==> !v
  {
    TextRule(m) && GrantRule(m, grants) && SubscriptionRule(m, subscriptions)
  }

  /** The message a stored record holds. */
  function Body(r: MessageRecord): Message
  {
    Message(Some(r.text), Some(r.grantId), Some(r.subscriptionId))
  }

  /** The messages a sequence of records holds, in the same order. */
  function Bodies(rs: seq<MessageRecord>): (ms: seq<Message>)
    ensures |ms| == |rs|
  {
    if rs == [] then [] else Bodies(rs[..|rs| - 1]) + [Body(rs[|rs| - 1])]
  }
}
