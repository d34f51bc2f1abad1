/** `POST /api/interview/create`: find the user by id or email, attribute the body, check the job
    application it names, stamp it and store it as an interview. Steps a fault can hit:
    0 connecting, 1 parsing the body, 2 the user lookup, 3 the application lookup, 4 the insert. */
module InterviewCreateRoute {
  import opened Wrappers
  import opened Types
  import opened Store
  import opened RouteBody

  const Connect: nat := 0
  const Parse: nat := 1
  const UserLookup: nat := 2
  const ApplicationLookup: nat := 3
  const InsertInterview: nat := 4

  /** `findOne({ $or: [{ _id: body.userId }, { email: body.userEmail }] })`. */
  function FindUser(st: Collections, body: Document): Option<Document> {
    FindFirstEither(st.users, "_id", Field(body, "userId"), "email", Field(body, "userEmail"))
  }

  /** The route as one function of the store before it. The application is looked up by
      `_id == body.applicationId`, read after the attribution. */
  function Post(st: Collections, body: Document, now: int, fault: Fault): (o: Outcome)
    ensures o.response.status == 201 || (o.response.status == 500 && o.state == st)
    ensures o.state.users == st.users && o.state.sheets == st.sheets && o.state.applications == st.applications
    ensures o.response.status == 201 ==>
      o.response.payload.Doc? && o.state.interviews == st.interviews + [o.response.payload.doc]
      && o.state.nextId == st.nextId + 1
  {
    if FailsAt(fault, Connect) || FailsAt(fault, Parse) || FailsAt(fault, UserLookup) then
      Outcome(st, ServerError(fault.message))
    else
      match FindUser(st, body)
      case None => Outcome(st, ServerError("User not found"))
      case Some(user) =>
        var attributed := Attribute(body, user);
        if FailsAt(fault, ApplicationLookup) then Outcome(st, ServerError(fault.message))
        else if FindFirst(st.applications, "_id", Field(attributed, "applicationId")).None? then
          Outcome(st, ServerError("Job application not found"))
        else if FailsAt(fault, InsertInterview) then Outcome(st, ServerError(fault.message))
        else
          var (after, inserted) := Insert(st, Interviews, Stamp(attributed, now));
          Outcome(after, Response(201, "Interview created", Doc(inserted)))
  }

  method Handle(db: Database, body: Document, now: int, fault: Fault) returns (response: Response)
    modifies db
    ensures Outcome(db.State(), response) == Post(old(db.State()), body, now, fault)
  {
    if FailsAt(fault, Connect) || FailsAt(fault, Parse) || FailsAt(fault, UserLookup) {
      return ServerError(fault.message);
    }
    var user := FindFirstEither(db.users, "_id", Field(body, "userId"), "email", Field(body, "userEmail"));
    if user.None? {
      return ServerError("User not found");
    }
    var newInterview := Attribute(body, user.value);
    if FailsAt(fault, ApplicationLookup) {
      return ServerError(fault.message);
    }
    var application := db.FindOne(Applications, "_id", Field(newInterview, "applicationId"));
    if application.None? {
      return ServerError("Job application not found");
    }
    newInterview := Stamp(newInterview, now);
    if FailsAt(fault, InsertInterview) {
      return ServerError(fault.message);
    }
    var inserted := db.InsertOne(Interviews, newInterview);
    response := Response(201, "Interview created", Doc(inserted));
  }

  /** When no user has the body's `userId` as `_id` nor its `userEmail` as email, nothing is
      stored and the answer is a server error saying so. */
  lemma UnknownUserRejected(st: Collections, body: Document, now: int, fault: Fault)
    requires !FailsAt(fault, Connect) && !FailsAt(fault, Parse) && !FailsAt(fault, UserLookup)
    requires forall j :: 0 <= j < |st.users| ==>
      !FieldMatches(st.users[j], "_id", Field(body, "userId")) && !FieldMatches(st.users[j], "email", Field(body, "userEmail"))
    ensures Post(st, body, now, fault) == Outcome(st, ServerError("User not found"))
  {
  }

  /** Once a user is found, a body without `applicationId` is refused: an unset query value
      matches only documents whose `_id` is missing or null, and no stored document has one. */
  lemma MissingApplicationIdRejected(st: Collections, body: Document, now: int, fault: Fault)
    requires !FailsAt(fault, Connect) && !FailsAt(fault, Parse) && !FailsAt(fault, UserLookup)
    requires !FailsAt(fault, ApplicationLookup)
    requires FindUser(st, body).Some? && "applicationId" !in body
    requires IdsIssued(st)
    ensures Post(st, body, now, fault) == Outcome(st, ServerError("Job application not found"))
  {
    var attributed := Attribute(body, FindUser(st, body).value);
    forall j | 0 <= j < |st.applications|
      ensures !FieldMatches(st.applications[j], "_id", Field(attributed, "applicationId"))
    {
      assert st.applications[j] in Get(st, Applications);
    }
  }

  /** The request body the interviews page sends for a draft of the form: every field of the
      draft, the application under `jobApplicationId`, and `userEmail` when it is set. */
  function DraftBody(d: InterviewDraft): (r: Document)
    ensures "applicationId" !in r && Field(r, "jobApplicationId") == Some(Str(d.jobApplicationId))
    ensures Field(r, "userId") == Some(Str(d.userId))
    ensures d.userEmail.Some? <==> "userEmail" in r
    ensures d.userEmail.Some? ==> r["userEmail"] == Str(d.userEmail.value)
    ensures IsJson(r)
  {
    var fields := map["userId" := Str(d.userId), "jobApplicationId" := Str(d.jobApplicationId),
                      "date" := Str(d.date), "time" := Str(d.time), "interviewerName" := Str(d.interviewerName),
                      "interviewType" := Str(TypeText(d.interviewType)), "notes" := Str(d.notes)];
    match d.userEmail
    case Some(email) => fields["userEmail" := Str(email)]
    case None => fields
  }

  /** The `value` of each interview type's option. */
  function TypeText(t: InterviewType): string {
    match t
    case Phone => "Phone"
    case Video => "Video"
    case InPerson => "In-person"
  }

  /** The form names the application `jobApplicationId`, the route reads `applicationId`: no
      draft the page sends is ever stored, whatever its user and its application. */
  lemma {:induction false} DraftsNeverStored(st: Collections, d: InterviewDraft, now: int, fault: Fault)
    requires IdsIssued(st)
    ensures var o := Post(st, DraftBody(d), now, fault);
      o.state == st && o.response.status == 500
  {
    var body := DraftBody(d);
    if !FailsAt(fault, Connect) && !FailsAt(fault, Parse) && !FailsAt(fault, UserLookup) && FindUser(st, body).Some?
       && !FailsAt(fault, ApplicationLookup)
    {
      MissingApplicationIdRejected(st, body, now, fault);
    }
  }

  /** Without faults, a found user and a found application add exactly one interview: the body
      attributed and stamped. Nothing else in the store changes and the document is sent back. */
  lemma InterviewStored(st: Collections, body: Document, now: int)
    requires FindUser(st, body).Some?
    requires FindFirst(st.applications, "_id", Field(Attribute(body, FindUser(st, body).value), "applicationId")).Some?
    ensures var o := Post(st, body, now, NoFault);
      var stored := WithId(Stamp(Attribute(body, FindUser(st, body).value), now), st.nextId);
      && o.state == st.(interviews := st.interviews + [stored], nextId := st.nextId + 1)
      && o.response == Response(201, "Interview created", Doc(stored))
  {
    var d := Stamp(Attribute(body, FindUser(st, body).value), now);
    var (after, inserted) := Insert(st, Interviews, d);
    assert Post(st, body, now, NoFault) == Outcome(after, Response(201, "Interview created", Doc(inserted)));
  }

  /** Every call keeps the ObjectIds issued, for a body parsed from JSON. */
  lemma {:induction false} PostKeepsIdsIssued(st: Collections, body: Document, now: int, fault: Fault)
    requires IdsIssued(st) && IsJson(body)
    ensures IdsIssued(Post(st, body, now, fault).state)
  {
    var o := Post(st, body, now, fault);
    if o.state != st {
      var user := FindUser(st, body).value;
      PreparedKeepsId(body, user, now);
      InsertKeepsIdsIssued(st, Interviews, Stamp(Attribute(body, user), now));
    }
  }
}
