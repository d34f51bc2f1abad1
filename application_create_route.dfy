/** `POST /api/application/create`: find the user the body names, attribute and stamp the body,
    store it as an application. Steps a fault can hit: 0 connecting, 1 parsing the body,
    2 the user lookup, 3 the insert. */
module ApplicationCreateRoute {
  import opened Wrappers
  import opened Store
  import opened RouteBody

  const Connect: nat := 0
  const Parse: nat := 1
  const Lookup: nat := 2
  const InsertApplication: nat := 3

  /** The route as one function of the store before it. The user is looked up by
      `email == body.userId`; a missing user is thrown and answered as a server error. */
  function Post(st: Collections, body: Document, now: int, fault: Fault): (o: Outcome)
    ensures o.response.status == 201 || (o.response.status == 500 && o.state == st)
    ensures o.state.users == st.users && o.state.sheets == st.sheets && o.state.interviews == st.interviews
    ensures o.response.status == 201 ==>
      o.response.payload.Doc? && o.state.applications == st.applications + [o.response.payload.doc]
      && o.state.nextId == st.nextId + 1
  {
    if FailsAt(fault, Connect) || FailsAt(fault, Parse) || FailsAt(fault, Lookup) then
      Outcome(st, ServerError(fault.message))
    else
      match FindFirst(st.users, "email", Field(body, "userId"))
      case None => Outcome(st, ServerError("User not found"))
      case Some(user) =>
        if FailsAt(fault, InsertApplication) then Outcome(st, ServerError(fault.message))
        else
          var (after, inserted) := Insert(st, Applications, Stamp(Attribute(body, user), now));
          Outcome(after, Response(201, "Application created", Doc(inserted)))
  }

  method Handle(db: Database, body: Document, now: int, fault: Fault) returns (response: Response)
    modifies db
    ensures Outcome(db.State(), response) == Post(old(db.State()), body, now, fault)
  {
    if FailsAt(fault, Connect) || FailsAt(fault, Parse) || FailsAt(fault, Lookup) {
      return ServerError(fault.message);
    }
    var user := db.FindOne(Users, "email", Field(body, "userId"));
    if user.None? {
      return ServerError("User not found");
    }
    var newApplication := Attribute(body, user.value);
    newApplication := Stamp(newApplication, now);
    if FailsAt(fault, InsertApplication) {
      return ServerError(fault.message);
    }
    var inserted := db.InsertOne(Applications, newApplication);
    response := Response(201, "Application created", Doc(inserted));
  }

  /** When no user has the email the body names as `userId`, nothing is stored and the answer is
      a server error saying so. */
  lemma UnknownUserRejected(st: Collections, body: Document, now: int, fault: Fault)
    requires !FailsAt(fault, Connect) && !FailsAt(fault, Parse) && !FailsAt(fault, Lookup)
    requires forall j :: 0 <= j < |st.users| ==> !FieldMatches(st.users[j], "email", Field(body, "userId"))
    ensures Post(st, body, now, fault) == Outcome(st, ServerError("User not found"))
  {
  }

  /** A `null` userId is the query `{ email: null }`, which also finds a user without an email:
      a store whose one user has no email takes the application. */
  lemma NullUserIdFindsUserWithoutEmail(now: int)
    ensures var st := EmptyStore.(users := [map["_id" := Oid(0), "name" := Str("a")]], nextId := 1);
      Post(st, map["userId" := Null], now, NoFault).response.status == 201
  {
    var st := EmptyStore.(users := [map["_id" := Oid(0), "name" := Str("a")]], nextId := 1);
    assert FieldMatches(st.users[0], "email", Field(map["userId" := Null], "userId"));
    FindFirstAt(st.users, "email", Field(map["userId" := Null], "userId"), 0);
  }

  /** Without faults, a body naming the email of the user at index `i` (the first with it) adds
      exactly one application: the body stamped with the request time, attributed to that user
      when it carries `userEmail`, under a new ObjectId unless it brought its own `_id`. Nothing
      else in the store changes, and the stored document is sent back with 201. */
  lemma {:induction false} ApplicationStored(st: Collections, body: Document, now: int, i: nat)
    requires i < |st.users| && FieldMatches(st.users[i], "email", Field(body, "userId"))
    requires forall j :: 0 <= j < i ==> !FieldMatches(st.users[j], "email", Field(body, "userId"))
    ensures var o := Post(st, body, now, NoFault);
      var stored := WithId(Stamp(Attribute(body, st.users[i]), now), st.nextId);
      && o.state == st.(applications := st.applications + [stored], nextId := st.nextId + 1)
      && o.response == Response(201, "Application created", Doc(stored))
      && Field(stored, "createdAt") == Some(Date(now))
      && (Truthy(Field(body, "userEmail")) ==> Field(stored, "userId") == Some(Field(st.users[i], "_id").GetOr(Null)))
  {
    FindFirstAt(st.users, "email", Field(body, "userId"), i);
  }

  /** A failure at any of the four steps leaves the store as it was. */
  lemma FaultStoresNothing(st: Collections, body: Document, now: int, fault: Fault)
    requires fault.FailAt? && fault.step <= InsertApplication
    ensures Post(st, body, now, fault).state == st
  {
  }

  /** A stored application keeps every key of the body except the dropped `email`, the
      rewritten `userId`, `createdAt` and `lastUpdated`, and a null `_id` the driver replaces;
      in particular `userEmail` stays. */
  lemma {:induction false} StoredKeepsBodyKeys(st: Collections, body: Document, now: int)
    requires Post(st, body, now, NoFault).response.status == 201
    ensures var apps := Post(st, body, now, NoFault).state.applications;
      && |apps| == |st.applications| + 1
      && forall k :: k in body && k !in ["userId", "email", "createdAt", "lastUpdated"] && !(k == "_id" && body[k] == Null) ==>
           k in apps[|st.applications|] && apps[|st.applications|][k] == body[k]
  {
    var user := FindFirst(st.users, "email", Field(body, "userId")).value;
    var d := Stamp(Attribute(body, user), now);
    var stored := WithId(d, st.nextId);
    assert Post(st, body, now, NoFault).state.applications == st.applications + [stored];
    forall k | k in body && k !in ["userId", "email", "createdAt", "lastUpdated"] && !(k == "_id" && body[k] == Null)
      ensures k in stored && stored[k] == body[k]
    {
      assert k != "userId" && k != "email" && k != "createdAt" && k != "lastUpdated";
      assert k in d && d[k] == body[k];
    }
  }

  /** Every call keeps the ObjectIds issued, for a body parsed from JSON. */
  lemma {:induction false} PostKeepsIdsIssued(st: Collections, body: Document, now: int, fault: Fault)
    requires IdsIssued(st) && IsJson(body)
    ensures IdsIssued(Post(st, body, now, fault).state)
  {
    if !FailsAt(fault, Connect) && !FailsAt(fault, Parse) && !FailsAt(fault, Lookup) {
      var user := FindFirst(st.users, "email", Field(body, "userId"));
      if user.Some? && !FailsAt(fault, InsertApplication) {
        PreparedKeepsId(body, user.value, now);
        InsertKeepsIdsIssued(st, Applications, Stamp(Attribute(body, user.value), now));
      }
    }
  }
}
