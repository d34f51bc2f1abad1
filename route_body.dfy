/** What the application and interview creation routes do to the parsed body before storing it. */
module RouteBody {
  import opened Wrappers
  import opened Store

  /** `if (body.userEmail) { body.userId = user._id; delete body.email; }`: a body carrying an
      email is attributed to the user found, and its `email` key (not `userEmail`) is dropped.
      Every stored user has an `_id`; `Null` stands in for the `undefined` read otherwise. */
  function Attribute(body: Document, user: Document): (r: Document)
    ensures Truthy(Field(body, "userEmail")) ==>
      Field(r, "userId") == Some(Field(user, "_id").GetOr(Null)) && "email" !in r
    ensures !Truthy(Field(body, "userEmail")) ==> r == body
    ensures forall k :: k in body && k != "userId" && k != "email" ==> k in r && r[k] == body[k]
    ensures forall k :: k in r ==> k in body || k == "userId"
  {
    if Truthy(Field(body, "userEmail")) then
      (body - {"email"})["userId" := Field(user, "_id").GetOr(Null)]
    else body
  }

  /** `createdAt` and `lastUpdated` set to the time of the request. */
  function Stamp(d: Document, now: int): (r: Document)
    ensures Field(r, "createdAt") == Some(Date(now)) && Field(r, "lastUpdated") == Some(Date(now))
    ensures forall k :: k in d && k != "createdAt" && k != "lastUpdated" ==> k in r && r[k] == d[k]
    ensures forall k :: k in r ==> k in d || k == "createdAt" || k == "lastUpdated"
  {
    d["createdAt" := Date(now)]["lastUpdated" := Date(now)]
  }

  /** The body to store never carries an ObjectId `_id` of its own when the request did not. */
  lemma PreparedKeepsId(body: Document, user: Document, now: int)
    requires IsJson(body)
    ensures var d := Stamp(Attribute(body, user), now);
      ("_id" in d <==> "_id" in body) && ("_id" in d ==> !d["_id"].Oid?)
  {
  }
}
