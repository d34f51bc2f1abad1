/** The records the client components share: a job application with its status history,
    an interview, and the signed-in session. */
module Types {
  import opened Wrappers

  /** Client-side identifiers are opaque strings (`Date.now().toString()`, "1", "user1", a document's `_id`). */
  type Id = string

  /** One `{ status, date }` entry of a status history. */
  datatype HistoryEntry = HistoryEntry(status: string, date: string)

  datatype InterviewType = Phone | Video | InPerson

  /** An interview as the form builds it, before it has an `id`. `userEmail` is absent from the
      form's first state and present (possibly empty) after a reset. */
  datatype InterviewDraft = InterviewDraft(
    userId: string,
    userEmail: Option<string>,
    jobApplicationId: Id,
    date: string,
    time: string,
    interviewerName: string,
    interviewType: InterviewType,
    notes: string)

  datatype Interview = Interview(id: Id, details: InterviewDraft)

  /** A job application. `docId` is the database `_id`, present only on documents that came back
      from the server; `position` is absent from the public records. */
  datatype Application = Application(
    id: Id,
    docId: Option<Id>,
    companyName: string,
    position: Option<string>,
    date: string,
    location: string,
    status: string,
    statusHistory: Option<seq<HistoryEntry>>,
    interviews: Option<seq<Interview>>)

  /** A record of a public sheet (`PublicJobApplication`): no database id, no position, no interviews. */
  function PublicApplication(id: Id, companyName: string, date: string, location: string, status: string,
                             statusHistory: seq<HistoryEntry>): (r: Application)
    ensures r.docId.None? && r.position.None? && r.interviews.None?
    ensures History(r) == statusHistory
    ensures StatusConsistent(r) <==> |statusHistory| > 0 && statusHistory[|statusHistory| - 1].status == status
  {
    Application(id, None, companyName, None, date, location, status, Some(statusHistory), None)
  }

  /** The history, where a missing one counts as empty (`app.statusHistory || []`). */
  function History(app: Application): seq<HistoryEntry> {
    app.statusHistory.GetOr([])
  }

  /** The current status is that of the latest history entry. */
  predicate StatusConsistent(app: Application) {
    |History(app)| > 0 && app.status == History(app)[|History(app)| - 1].status
  }

  /** What `useSession` reports: not signed in (or still loading), or signed in with an email. */
  datatype Session = Unauthenticated | Authenticated(email: string)

  /** `status === "authenticated"`. */
  predicate LoggedIn(s: Session) {
    s.Authenticated?
  }

  /** `session?.user?.email` is truthy. */
  predicate HasEmail(s: Session) {
    s.Authenticated? && s.email != ""
  }
}
