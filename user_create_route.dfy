/** `POST /api/user/create`: validate the body, then find the user by email or create the user
    together with the user's sheet. The awaited calls are numbered as the steps a fault can hit:
    0 connecting, 1 parsing the body, 2 the lookup, 3 the user insert, 4 the sheet insert. */
module UserCreateRoute {
  import opened Wrappers
  import opened Text
  import opened Store

  const Connect: nat := 0
  const Parse: nat := 1
  const Lookup: nat := 2
  const InsertUser: nat := 3
  const InsertSheet: nat := 4

  /** `${v}` for the values a parsed body can hold. */
  function ValueText(v: Value): string {
    match v
    case Str(s) => s
    case Num(n) => if n < 0 then "-" + DecimalString(-n) else DecimalString(n)
    case Bool(b) => if b then "true" else "false"
    case Null => "null"
    case EmptyList => ""
    case Oid(_) => ""
    case Date(_) => ""
  }

  /** The user document: the given email, name and picture, every other profile text empty,
      no experience or education, a private sheet, and the creation time. */
  function NewUser(email: Value, name: Value, pfp: Option<Value>, now: int): (r: Document)
    ensures "_id" !in r
    ensures Field(r, "email") == Some(email)
  {
    map["email" := email, "name" := name, "pfp" := pfp.GetOr(Null),
        "firstName" := Str(""), "lastName" := Str(""), "location" := Str(""), "bio" := Str(""),
        "linkedin" := Str(""), "github" := Str(""),
        "experiences" := EmptyList, "education" := EmptyList,
        "sheetVisibility" := Bool(false), "createdAt" := Date(now)]
  }

  /** The companion sheet: owned by `userId`, titled after the name, empty and private. */
  function NewSheet(userId: ObjectId, name: Value, now: int): (r: Document)
    ensures "_id" !in r
    ensures Field(r, "userId") == Some(Oid(userId))
  {
    map["userId" := Oid(userId), "title" := Str(ValueText(name) + "'s Sheet"),
        "applications" := EmptyList, "visibility" := Bool(false),
        "createdAt" := Date(now), "lastUpdated" := Date(now)]
  }

  /** The rest of a new user's profile: the picture or `null`, every other profile text empty,
      no experience or education, a private sheet, and the creation time. */
  lemma NewUserFields(email: Value, name: Value, pfp: Option<Value>, now: int)
    ensures var r := NewUser(email, name, pfp, now);
      && Field(r, "name") == Some(name)
      && Field(r, "pfp") == Some(pfp.GetOr(Null))
      && (forall k :: k in ["firstName", "lastName", "location", "bio", "linkedin", "github"] ==>
            Field(r, k) == Some(Str("")))
      && Field(r, "experiences") == Some(EmptyList) && Field(r, "education") == Some(EmptyList)
      && Field(r, "sheetVisibility") == Some(Bool(false)) && Field(r, "createdAt") == Some(Date(now))
  {
  }

  /** The rest of the companion sheet: titled after the name, with no applications, private,
      created and last updated now. */
  lemma NewSheetFields(userId: ObjectId, name: Value, now: int)
    ensures var r := NewSheet(userId, name, now);
      && Field(r, "title") == Some(Str(ValueText(name) + "'s Sheet"))
      && Field(r, "applications") == Some(EmptyList) && Field(r, "visibility") == Some(Bool(false))
      && Field(r, "createdAt") == Some(Date(now)) && Field(r, "lastUpdated") == Some(Date(now))
  {
  }

  /** What the route does to the store and answers, as one function of the store before it. */
  function Post(st: Collections, body: Document, now: int, fault: Fault): (o: Outcome)
    ensures o.response.status in {200, 201, 400, 500}
    ensures o.response.status == 200 || o.response.status == 400 ==> o.state == st
    ensures o.state.applications == st.applications && o.state.interviews == st.interviews
    ensures |st.users| <= |o.state.users| <= |st.users| + 1 && o.state.users[..|st.users|] == st.users
    ensures o.response.status == 201 <==> |o.state.sheets| == |st.sheets| + 1
    ensures o.response.status != 201 ==> o.state.sheets == st.sheets
  {
    if FailsAt(fault, Connect) || FailsAt(fault, Parse) then Outcome(st, ServerError(fault.message))
    else
      var email, name, pfp := Field(body, "email"), Field(body, "name"), Field(body, "image");
      if !Truthy(email) || !Truthy(name) then
        Outcome(st, Response(400, "Email and username are required", NoPayload))
      else if FailsAt(fault, Lookup) then Outcome(st, ServerError(fault.message))
      else
        match FindFirst(st.users, "email", email)
        case Some(existing) => Outcome(st, Response(200, "User already exists", Doc(existing)))
        case None =>
          if FailsAt(fault, InsertUser) then Outcome(st, ServerError(fault.message))
          else
            var afterUser := Insert(st, Users, NewUser(email.value, name.value, pfp, now)).0;
            if FailsAt(fault, InsertSheet) then Outcome(afterUser, ServerError(fault.message))
            else
              var afterSheet := Insert(afterUser, Sheets, NewSheet(st.nextId, name.value, now)).0;
              Outcome(afterSheet, Response(201, "User created", Created(st.nextId, afterUser.nextId)))
  }

  /** The store after both inserts of a new registration: the user with the next ObjectId, then
      the sheet owned by it with the one after. */
  function Registered(st: Collections, email: Value, name: Value, pfp: Option<Value>, now: int): (r: Collections)
    ensures r.users == st.users + [WithId(NewUser(email, name, pfp, now), st.nextId)]
    ensures r.sheets == st.sheets + [WithId(NewSheet(st.nextId, name, now), st.nextId + 1)]
    ensures r.applications == st.applications && r.interviews == st.interviews
    ensures r.nextId == st.nextId + 2
  {
    var afterUser := Insert(st, Users, NewUser(email, name, pfp, now)).0;
    var afterSheet := Insert(afterUser, Sheets, NewSheet(st.nextId, name, now)).0;
    assert Get(afterSheet, Users) == Get(afterUser, Users);
    assert Get(afterSheet, Applications) == Get(st, Applications);
    assert Get(afterSheet, Interviews) == Get(st, Interviews);
    afterSheet
  }

  /** The handler, one awaited call after the other. */
  method Handle(db: Database, body: Document, now: int, fault: Fault) returns (response: Response)
    modifies db
    ensures Outcome(db.State(), response) == Post(old(db.State()), body, now, fault)
  {
    if FailsAt(fault, Connect) || FailsAt(fault, Parse) {
      return ServerError(fault.message);
    }
    var email, name, pfp := Field(body, "email"), Field(body, "name"), Field(body, "image");
    if !Truthy(email) || !Truthy(name) {
      return Response(400, "Email and username are required", NoPayload);
    }
    if FailsAt(fault, Lookup) {
      return ServerError(fault.message);
    }
    var existingUser := db.FindOne(Users, "email", email);
    if existingUser.Some? {
      return Response(200, "User already exists", Doc(existingUser.value));
    }
    if FailsAt(fault, InsertUser) {
      return ServerError(fault.message);
    }
    var newUser := db.InsertOne(Users, NewUser(email.value, name.value, pfp, now));
    var userId := newUser["_id"].id;
    if FailsAt(fault, InsertSheet) {
      return ServerError(fault.message);
    }
    var newSheet := db.InsertOne(Sheets, NewSheet(userId, name.value, now));
    response := Response(201, "User created", Created(userId, newSheet["_id"].id));
  }

  /** A body without a truthy email or name gets 400 and leaves the store as it was. */
  lemma MissingFieldsRejected(st: Collections, body: Document, now: int, fault: Fault)
    requires !FailsAt(fault, Connect) && !FailsAt(fault, Parse)
    requires !Truthy(Field(body, "email")) || !Truthy(Field(body, "name"))
    ensures Post(st, body, now, fault) == Outcome(st, Response(400, "Email and username are required", NoPayload))
  {
  }

  /** For an email already registered, the first user with it is returned with 200 and the
      store does not change. */
  lemma {:induction false} ExistingUserReturned(st: Collections, body: Document, now: int, fault: Fault, i: nat)
    requires !FailsAt(fault, Connect) && !FailsAt(fault, Parse) && !FailsAt(fault, Lookup)
    requires Truthy(Field(body, "email")) && Truthy(Field(body, "name"))
    requires i < |st.users| && Field(st.users[i], "email") == Field(body, "email")
    requires forall j :: 0 <= j < i ==> Field(st.users[j], "email") != Field(body, "email")
    ensures Post(st, body, now, fault) == Outcome(st, Response(200, "User already exists", Doc(st.users[i])))
  {
    var q := Field(body, "email");
    FindFirstAt(st.users, "email", q, i);
  }

  /** A new email, without faults: exactly one user and one sheet are added, the user with the
      fields of a fresh profile and the next ObjectId, the sheet owned by that user; the other
      collections do not change and the answer is 201. */
  lemma NewUserCreated(st: Collections, body: Document, now: int)
    requires Truthy(Field(body, "email")) && Truthy(Field(body, "name"))
    requires forall j :: 0 <= j < |st.users| ==> Field(st.users[j], "email") != Field(body, "email")
    ensures var o := Post(st, body, now, NoFault);
      && o.state == Registered(st, Field(body, "email").value, Field(body, "name").value, Field(body, "image"), now)
      && o.response == Response(201, "User created", Created(st.nextId, st.nextId + 1))
  {
    var email, name := Field(body, "email"), Field(body, "name");
    assert FindFirst(st.users, "email", email).None?;
    var afterUser := Insert(st, Users, NewUser(email.value, name.value, Field(body, "image"), now)).0;
    assert Post(st, body, now, NoFault)
        == Outcome(Registered(st, email.value, name.value, Field(body, "image"), now),
                   Response(201, "User created", Created(st.nextId, afterUser.nextId)));
  }

  /** Sending the same body twice creates the user once: the second call finds the user the
      first one stored or found, answers 200 with it, and changes nothing. */
  lemma {:induction false} CreateTwiceCreatesOnce(st: Collections, body: Document, now: int, later: int)
    requires Truthy(Field(body, "email")) && Truthy(Field(body, "name"))
    ensures var first := Post(st, body, now, NoFault);
      var second := Post(first.state, body, later, NoFault);
      && second.state == first.state
      && second.response.status == 200
      && (first.response.status == 201 ==>
            second.response == Response(200, "User already exists", Doc(first.state.users[|st.users|])))
      && (first.response.status == 200 ==> second.response == first.response)
  {
    var q, name := Field(body, "email"), Field(body, "name");
    var first := Post(st, body, now, NoFault);
    match FindFirst(st.users, "email", q)
    case Some(u) => {
      assert first == Outcome(st, Response(200, "User already exists", Doc(u)));
    }
    case None => {
      var (afterUser, user) := Insert(st, Users, NewUser(q.value, name.value, Field(body, "image"), now));
      var afterSheet := Insert(afterUser, Sheets, NewSheet(st.nextId, name.value, now)).0;
      assert first == Outcome(afterSheet, Response(201, "User created", Created(st.nextId, afterUser.nextId)));
      var users := afterSheet.users;
      assert users == st.users + [user];
      assert Field(user, "email") == q;
      FindFirstAt(users, "email", q, |st.users|);
      assert Post(afterSheet, body, later, NoFault) == Outcome(afterSheet, Response(200, "User already exists", Doc(user)));
    }
  }

  /** No two users share an email. */
  predicate UniqueEmails(users: seq<Document>) {
    forall i, j :: 0 <= i < j < |users| && "email" in users[i] ==> Field(users[i], "email") != Field(users[j], "email")
  }

  /** Every sheet belongs to a stored user (its `userId` is that user's `_id`). */
  predicate SheetsOwned(c: Collections) {
    forall s :: s in c.sheets ==> "userId" in s && exists u :: u in c.users && Field(u, "_id") == Some(s["userId"])
  }

  /** The three store invariants the route keeps. */
  predicate Invariants(c: Collections) {
    UniqueEmails(c.users) && SheetsOwned(c) && IdsIssued(c)
  }

  /** Storing a user whose email no stored user has keeps the invariants. */
  lemma AddUserKeepsInvariants(st: Collections, user: Document, email: Value)
    requires Invariants(st)
    requires "_id" !in user && Field(user, "email") == Some(email)
    requires forall j :: 0 <= j < |st.users| ==> !FieldMatches(st.users[j], "email", Some(email))
    ensures Invariants(Insert(st, Users, user).0)
  {
    var after := Insert(st, Users, user).0;
    InsertKeepsIdsIssued(st, Users, user);
    var users := after.users;
    assert users == st.users + [user["_id" := Oid(st.nextId)]];
    forall i, j | 0 <= i < j < |users| && "email" in users[i]
      ensures Field(users[i], "email") != Field(users[j], "email")
    {
      if j == |st.users| {
        assert !FieldMatches(st.users[i], "email", Some(email));
      }
    }
    forall s | s in after.sheets
      ensures "userId" in s && exists u :: u in after.users && Field(u, "_id") == Some(s["userId"])
    {
      var u :| u in st.users && Field(u, "_id") == Some(s["userId"]);
      assert u in after.users;
    }
  }

  /** Storing a sheet owned by a stored user keeps the invariants. */
  lemma AddSheetKeepsInvariants(st: Collections, sheet: Document, owner: Document)
    requires Invariants(st)
    requires "_id" !in sheet && owner in st.users && "userId" in sheet && Field(owner, "_id") == Some(sheet["userId"])
    ensures Invariants(Insert(st, Sheets, sheet).0)
  {
    var after := Insert(st, Sheets, sheet).0;
    InsertKeepsIdsIssued(st, Sheets, sheet);
    assert after.sheets == st.sheets + [sheet["_id" := Oid(st.nextId)]];
    forall s | s in after.sheets
      ensures "userId" in s && exists u :: u in after.users && Field(u, "_id") == Some(s["userId"])
    {
      if s !in st.sheets {
        assert s["userId"] == sheet["userId"];
        assert owner in after.users;
      }
    }
  }

  /** Every call, failed or not, keeps emails unique, keeps every sheet owned by a stored user,
      and keeps the ObjectIds issued. */
  lemma {:induction false} PostKeepsInvariants(st: Collections, body: Document, now: int, fault: Fault)
    requires Invariants(st)
    ensures Invariants(Post(st, body, now, fault).state)
  {
    var email, name, pfp := Field(body, "email"), Field(body, "name"), Field(body, "image");
    if !FailsAt(fault, Connect) && !FailsAt(fault, Parse) && Truthy(email) && Truthy(name)
       && !FailsAt(fault, Lookup) && FindFirst(st.users, "email", email).None? && !FailsAt(fault, InsertUser)
    {
      var user := NewUser(email.value, name.value, pfp, now);
      AddUserKeepsInvariants(st, user, email.value);
      var (afterUser, stored) := Insert(st, Users, user);
      if !FailsAt(fault, InsertSheet) {
        AddSheetKeepsInvariants(afterUser, NewSheet(st.nextId, name.value, now), stored);
      }
    }
  }

  /** A failure of the sheet insert leaves the new user stored without any sheet. */
  lemma SheetFaultLeavesUserWithoutSheet(st: Collections, body: Document, now: int, message: string)
    requires Truthy(Field(body, "email")) && Truthy(Field(body, "name"))
    requires forall j :: 0 <= j < |st.users| ==> Field(st.users[j], "email") != Field(body, "email")
    requires Invariants(st)
    ensures var o := Post(st, body, now, FailAt(InsertSheet, message));
      && |o.state.users| == |st.users| + 1 && o.state.sheets == st.sheets
      && (forall s :: s in o.state.sheets ==> s["userId"] != Oid(st.nextId))
      && Field(o.state.users[|st.users|], "_id") == Some(Oid(st.nextId))
      && o.response == ServerError(message)
  {
    assert FindFirst(st.users, "email", Field(body, "email")).None?;
    forall s | s in st.sheets ensures s["userId"] != Oid(st.nextId) {
      var u :| u in st.users && Field(u, "_id") == Some(s["userId"]);
      assert u in Get(st, Users);
    }
  }
}
