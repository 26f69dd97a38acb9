/** The request parameters the confirmation page reads from its URL.

    The page's query string is taken here as the list of (name, value) pairs
    it decodes to, in order; looking a name up returns the value of its first
    occurrence, or nothing when the name does not occur.  A value counts as
    present only when it is there and not the empty string, which is the
    truthiness test the page applies before it sends anything.
 */
module Query {

  datatype Option<+T> = None | Some(value: T)

  /** The decoded query string: (name, value) pairs in the order they appear. */
  type Query = seq<(string, string)>

  /** The three identifiers the page submits; each is absent when its name is missing from the URL. */
  datatype Params = Params(orderId: Option<string>, itemId: Option<string>, action: Option<string>)

  /** True when `name` occurs somewhere in the query. */
  ghost predicate Mentions(q: Query, name: string) {
    exists i :: 0 <= i < |q| && q[i].0 == name
  }

  /** The value of the first pair named `name`, or None when there is none. */
  function Get(q: Query, name: string): (r: Option<string>)
    ensures r.None? <==> !Mentions(q, name)
    ensures r.Some? ==>
      exists i :: 0 <= i < |q| && q[i] == (name, r.value) &&
        forall j :: 0 <= j < i ==> q[j].0 != name
  {
    if q == [] then None
    else if q[0].0 == name then Some(q[0].1)
    else
      var r := Get(q[1..], name);
      if r.Some? then
        ghost var i :| 0 <= i < |q[1..]| && q[1..][i] == (name, r.value) &&
          forall j :: 0 <= j < i ==> q[1..][j].0 != name;
        assert q[i + 1] == (name, r.value);
        r
      else
        assert forall i :: 1 <= i < |q| ==> q[i] == q[1..][i - 1];
        r
  }

  /** Reads `orderId`, `itemId` and `action` from the query. */
  function ExtractParams(q: Query): (p: Params)
    ensures p.orderId.None? <==> !Mentions(q, "orderId")
    ensures p.itemId.None? <==> !Mentions(q, "itemId")
    ensures p.action.None? <==> !Mentions(q, "action")
  {
    Params(Get(q, "orderId"), Get(q, "itemId"), Get(q, "action"))
  }

  /** JavaScript truthiness of an optional string: present and non-empty. */
  predicate Truthy(s: Option<string>) {
    s.Some? && s.value != ""
  }

  /** The validation the page applies before it starts a request. */
  predicate IsComplete(p: Params) {
    Truthy(p.orderId) && Truthy(p.itemId) && Truthy(p.action)
  }

  /** A query that leaves out one of the three names never passes validation. */
  lemma MissingNameIsIncomplete(q: Query)
    requires !Mentions(q, "orderId") || !Mentions(q, "itemId") || !Mentions(q, "action")
    ensures !IsComplete(ExtractParams(q))
  {
  }

  /** A query whose first `name` pair carries the empty string never passes validation either. */
  lemma EmptyFirstValueIsIncomplete(q: Query, name: string, i: nat)
    requires name == "orderId" || name == "itemId" || name == "action"
    requires i < |q| && q[i] == (name, "")
    requires forall j :: 0 <= j < i ==> q[j].0 != name
    ensures Get(q, name) == Some("")
    ensures !IsComplete(ExtractParams(q))
  {
  }
}
