/** The database the API routes talk to, as an in-memory store: four collections of documents
    (`users`, `sheets`, `applications`, `interviews`) and an ObjectId counter. A document is a
    flat map from keys to scalar values, which is all the three creation routes need. */
module Store {
  import opened Wrappers
  import opened Sequences

  type ObjectId = nat

  /** A stored or parsed value. `Oid` and `Date` only arise on the server; a parsed request body
      holds strings, numbers, booleans and nulls. */
  datatype Value = Str(s: string) | Num(n: int) | Bool(b: bool) | Null | Oid(id: ObjectId) | Date(time: int) | EmptyList

  type Document = map<string, Value>

  /** Reading `d.key`: `None` is `undefined`. */
  function Field(d: Document, key: string): (r: Option<Value>)
    ensures r.Some? <==> key in d
    ensures r.Some? ==> r.value == d[key]
  {
    if key in d then Some(d[key]) else None
  }

  /** The truthiness JavaScript gives a property read: `undefined`, `null`, `""`, `0` and `false` are falsy. */
  predicate Truthy(v: Option<Value>) {
    match v
    case None => false
    case Some(x) =>
      match x
      case Str(s) => s != ""
      case Num(n) => n != 0
      case Bool(b) => b
      case Null => false
      case Oid(_) => true
      case Date(_) => true
      case EmptyList => true
  }

  /** The query `{ key: q }`. An `undefined` query value is sent as `null`, and a `null` query
      value matches the documents where the key is missing or null; any other value matches
      the documents holding exactly that value. */
  predicate FieldMatches(d: Document, key: string, q: Option<Value>) {
    if q.None? || q == Some(Null) then Field(d, key).None? || Field(d, key) == Some(Null)
    else Field(d, key) == q
  }

  /** The parsed body of a request holds no ObjectIds and no dates. */
  predicate IsJson(d: Document) {
    forall k :: k in d ==> !d[k].Oid? && !d[k].Date?
  }

  datatype CollectionName = Users | Sheets | Applications | Interviews

  datatype Collections = Collections(
    users: seq<Document>,
    sheets: seq<Document>,
    applications: seq<Document>,
    interviews: seq<Document>,
    nextId: ObjectId)

  const EmptyStore: Collections := Collections([], [], [], [], 0)

  function Get(c: Collections, name: CollectionName): seq<Document> {
    match name
    case Users => c.users
    case Sheets => c.sheets
    case Applications => c.applications
    case Interviews => c.interviews
  }

  /** `insertOne`'s `_id`: a document whose `_id` is set and not null keeps it; any other gets
      the next ObjectId, since the driver tests `_id == null`, which a null `_id` passes too. */
  function WithId(d: Document, newId: ObjectId): (r: Document)
    ensures "_id" in r && r["_id"] != Null
    ensures "_id" in d && d["_id"] != Null ==> r == d
    ensures !("_id" in d && d["_id"] != Null) ==> r == d["_id" := Oid(newId)]
  {
    if "_id" in d && d["_id"] != Null then d else d["_id" := Oid(newId)]
  }

  /** `collection.insertOne(d)`: appends `d` with its `_id` to the named collection and only
      there; the ObjectId counter moves on. The inserted document is returned. */
  function Insert(c: Collections, name: CollectionName, d: Document): (r: (Collections, Document))
    ensures r.1 == WithId(d, c.nextId)
    ensures Get(r.0, name) == Get(c, name) + [r.1]
    ensures forall n :: n != name ==> Get(r.0, n) == Get(c, n)
    ensures r.0.nextId == c.nextId + 1
  {
    var doc := WithId(d, c.nextId);
    var next := c.nextId + 1;
    match name
    case Users => (c.(users := c.users + [doc], nextId := next), doc)
    case Sheets => (c.(sheets := c.sheets + [doc], nextId := next), doc)
    case Applications => (c.(applications := c.applications + [doc], nextId := next), doc)
    case Interviews => (c.(interviews := c.interviews + [doc], nextId := next), doc)
  }

  /** `findOne({ key: q })`: the first document in insertion order that matches. */
  function FindFirst(docs: seq<Document>, key: string, q: Option<Value>): (r: Option<Document>)
    ensures r.None? <==> forall j :: 0 <= j < |docs| ==> !FieldMatches(docs[j], key, q)
    ensures r.Some? ==> r.value in docs && FieldMatches(r.value, key, q)
  {
    Find((d: Document) => FieldMatches(d, key, q), docs)
  }

  /** `findOne({ $or: [{ k1: q1 }, { k2: q2 }] })`. */
  function FindFirstEither(docs: seq<Document>, k1: string, q1: Option<Value>, k2: string, q2: Option<Value>)
    : (r: Option<Document>)
    ensures r.None? <==> forall j :: 0 <= j < |docs| ==> !FieldMatches(docs[j], k1, q1) && !FieldMatches(docs[j], k2, q2)
    ensures r.Some? ==> r.value in docs && (FieldMatches(r.value, k1, q1) || FieldMatches(r.value, k2, q2))
  {
    Find((d: Document) => FieldMatches(d, k1, q1) || FieldMatches(d, k2, q2), docs)
  }

  /** `findOne` returns the document at the first index that matches. */
  lemma {:induction false} FindFirstAt(docs: seq<Document>, key: string, q: Option<Value>, i: nat)
    requires i < |docs| && FieldMatches(docs[i], key, q)
    requires forall j :: 0 <= j < i ==> !FieldMatches(docs[j], key, q)
    ensures FindFirst(docs, key, q) == Some(docs[i])
  {
    FindAt((d: Document) => FieldMatches(d, key, q), docs, i);
  }

  /** Every stored document has an `_id` that is not null, and every ObjectId in use is below the counter. */
  predicate IdsIssued(c: Collections) {
    forall name: CollectionName, d: Document :: d in Get(c, name) ==>
      "_id" in d && d["_id"] != Null && (d["_id"].Oid? ==> d["_id"].id < c.nextId)
  }

  /** Inserting a request body keeps the ids issued. */
  lemma InsertKeepsIdsIssued(c: Collections, name: CollectionName, d: Document)
    requires IdsIssued(c)
    requires "_id" in d ==> !d["_id"].Oid?
    ensures IdsIssued(Insert(c, name, d).0)
  {
    var r := Insert(c, name, d);
    forall n: CollectionName, e: Document | e in Get(r.0, n)
      ensures "_id" in e && e["_id"] != Null && (e["_id"].Oid? ==> e["_id"].id < r.0.nextId)
    {
      if n == name && e == r.1 {
      } else {
        assert e in Get(c, n);
      }
    }
  }

  /** A failure injected at one step of a route: the awaited call at that step throws `message`. */
  datatype Fault = NoFault | FailAt(step: nat, message: string)

  predicate FailsAt(fault: Fault, step: nat) {
    fault.FailAt? && fault.step == step
  }

  /** What a route answers with, beside its status and message. */
  datatype Payload = NoPayload | Doc(doc: Document) | Created(userId: ObjectId, sheetId: ObjectId) | ErrorText(error: string)

  datatype Response = Response(status: nat, message: string, payload: Payload)

  /** The `catch` of every route: 500 with the thrown error's message. */
  function ServerError(error: string): (r: Response)
    ensures r.status == 500 && r.payload == ErrorText(error)
  {
    Response(500, "Internal Server Error", ErrorText(error))
  }

  /** The store after a request and the response sent. */
  datatype Outcome = Outcome(state: Collections, response: Response)

  class Database {
    var users: seq<Document>
    var sheets: seq<Document>
    var applications: seq<Document>
    var interviews: seq<Document>
    var nextId: ObjectId

    function State(): Collections
      reads this
    {
      Collections(users, sheets, applications, interviews, nextId)
    }

    constructor ()
      ensures State() == EmptyStore
    {
      users, sheets, applications, interviews := [], [], [], [];
      nextId := 0;
    }

    /** `db.collection(name).findOne({ key: q })`. */
    function FindOne(name: CollectionName, key: string, q: Option<Value>): (r: Option<Document>)
      reads this
      ensures r.None? <==> forall d :: d in Get(State(), name) ==> !FieldMatches(d, key, q)
      ensures r.Some? ==> r.value in Get(State(), name) && FieldMatches(r.value, key, q)
    {
      FindFirst(Get(State(), name), key, q)
    }

    /** `db.collection(name).insertOne(d)`. */
    method InsertOne(name: CollectionName, d: Document) returns (inserted: Document)
      modifies this
      ensures (State(), inserted) == Insert(old(State()), name, d)
    {
      inserted := WithId(d, nextId);
      match name {
        case Users => users := users + [inserted];
        case Sheets => sheets := sheets + [inserted];
        case Applications => applications := applications + [inserted];
        case Interviews => interviews := interviews + [inserted];
      }
      nextId := nextId + 1;
    }
  }
}
