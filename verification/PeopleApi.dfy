/**
 * The wire contract of the in-memory Person record service
 * (go-http-json/main.go) as values: records, requests, responses, the
 * store's state, and what each handler and the router do to that state.
 * The class in PeopleServer.dfy performs the same steps in place; its
 * methods are proved to agree with the functions here, and the lemmas at
 * the end of this module say what any sequence of requests does.
 */
module PeopleApi {
  import opened Wrappers

  // ----------------------------------------------------------------------
  // Data model
  // ----------------------------------------------------------------------

  /** A stored record; its JSON form is {"id": …, "name": …, "age": …}. */
  datatype Person = Person(id: int, name: string, age: int)

  /**
   * The decoded body of a create request, {"name": …, "age": …}. A field the
   * JSON leaves out keeps Go's zero value ("" or 0), which validation rejects.
   */
  datatype CreatePersonRequest = CreatePersonRequest(name: string, age: int)

  /**
   * An inbound request: method, path, and the body as decoded into the
   * create shape, None when the decoder reports an error.
   */
  datatype Request = Request(verb: string, path: string, body: Option<CreatePersonRequest>)

  /** What a response carries; JSON encoding is taken as the identity. */
  datatype Payload =
    | StatusPayload(fields: map<string, string>)
    | PeopleList(people: seq<Person>)
    | PersonPayload(person: Person)
    | ErrorText(message: string)

  datatype Response = Response(code: int, contentType: string, payload: Payload)

  const MethodGet := "GET"
  const MethodPost := "POST"
  const StatusPath := "/status"
  const PeoplePath := "/people"

  const StatusOK := 200
  const StatusCreated := 201
  const StatusBadRequest := 400
  const StatusNotFound := 404
  const StatusMethodNotAllowed := 405

  const JsonContentType := "application/json"
  const TextContentType := "text/plain; charset=utf-8"

  const MsgMethodNotAllowed := "method not allowed"
  const MsgInvalidJson := "invalid JSON body"
  const MsgInvalidInput := "name and age must be provided and valid"
  const MsgNotFound := "404 page not found"

  /** The response http.Error writes: a plain-text message under a status code. */
  function ErrorResponse(code: int, message: string): Response {
    Response(code, TextContentType, ErrorText(message))
  }

  // ----------------------------------------------------------------------
  // The store and its invariant
  // ----------------------------------------------------------------------

  /** The package-level state: the records in insertion order and the ID counter. */
  datatype Store = Store(people: seq<Person>, nextID: int)

  /** The state before startup: no records, counter at 1. */
  const Initial := Store([], 1)

  /** The one validation rule: a non-empty name and a positive age. */
  predicate ValidInput(name: string, age: int) {
    name != "" && age > 0
  }

  predicate IdsIncreasing(people: seq<Person>) {
    forall i, j :: 0 <= i < j < |people| ==> people[i].id < people[j].id
  }

  predicate IdsBelow(people: seq<Person>, bound: int) {
    forall i :: 0 <= i < |people| ==> people[i].id < bound
  }

  predicate RecordsValid(people: seq<Person>) {
    forall i :: 0 <= i < |people| ==> ValidInput(people[i].name, people[i].age)
  }

  /**
   * IDs strictly increase in sequence order (so no two records share one),
   * every ID is below the counter, and every record passed validation.
   */
  predicate StoreInvariant(s: Store) {
    IdsIncreasing(s.people) && IdsBelow(s.people, s.nextID) && RecordsValid(s.people)
  }

  /** The IDs are exactly 1, 2, …, |people| and the counter is the next one. */
  predicate IdsDense(s: Store) {
    && s.nextID == |s.people| + 1
    && forall i :: 0 <= i < |s.people| ==> s.people[i].id == i + 1
  }

  /** The record the next insertion creates. */
  function NewRecord(s: Store, name: string, age: int): Person {
    Person(s.nextID, name, age)
  }

  /**
   * Insertion: the current counter becomes the new record's ID, the counter
   * goes up by one and the record is appended after all earlier ones.
   */
  function Inserted(s: Store, name: string, age: int): (t: Store)
    ensures |t.people| == |s.people| + 1 && t.people[..|s.people|] == s.people
    ensures t.people[|s.people|] == NewRecord(s, name, age)
    ensures t.nextID == s.nextID + 1
    ensures StoreInvariant(s) && ValidInput(name, age) ==> StoreInvariant(t)
    ensures IdsDense(s) ==> IdsDense(t)
  {
    var t := Store(s.people + [NewRecord(s, name, age)], s.nextID + 1);
    assert t.people[..|s.people|] == s.people;
    t
  }

  /** Startup preloading: Alice (30) then Bob (25). */
  function Seeded(s: Store): (t: Store)
    ensures t.nextID == s.nextID + 2
    ensures StoreInvariant(s) ==> StoreInvariant(t)
    ensures IdsDense(s) ==> IdsDense(t)
  {
    Inserted(Inserted(s, "Alice", 30), "Bob", 25)
  }

  /** After startup the store holds exactly Alice (ID 1) and Bob (ID 2) and the counter is 3. */
  lemma StartupState()
    ensures Seeded(Initial) == Store([Person(1, "Alice", 30), Person(2, "Bob", 25)], 3)
    ensures StoreInvariant(Seeded(Initial)) && IdsDense(Seeded(Initial))
  {
  }

  /** A dense store satisfies the ID part of the store invariant. */
  lemma DenseIdsAreOrdered(s: Store)
    requires IdsDense(s)
    ensures IdsIncreasing(s.people) && IdsBelow(s.people, s.nextID)
  {
  }

  // ----------------------------------------------------------------------
  // Handlers and routing
  // ----------------------------------------------------------------------

  /** The result of serving one request: the new state and the response. */
  datatype Outcome = Outcome(store: Store, response: Response)

  /** The health probe: 200 with {"status":"ok"} as JSON. */
  function StatusHandler(req: Request): (r: Response)
    ensures r.code == StatusOK && r.contentType == JsonContentType
    ensures r.payload == StatusPayload(map["status" := "ok"])
  {
    Response(StatusOK, JsonContentType, StatusPayload(map["status" := "ok"]))
  }

  /** The health probe answers the same whatever the method, path or body. */
  lemma StatusIgnoresRequest(a: Request, b: Request)
    ensures StatusHandler(a) == StatusHandler(b)
  {
  }

  /** Listing: GET gets every record in insertion order, any other method 405. */
  function ListPeople(s: Store, req: Request): (r: Response)
    ensures r.code == StatusOK <==> req.verb == MethodGet
    ensures r.code == StatusOK ==> r.contentType == JsonContentType && r.payload == PeopleList(s.people)
    ensures r.code != StatusOK ==> r == ErrorResponse(StatusMethodNotAllowed, MsgMethodNotAllowed)
  {
    if req.verb != MethodGet then
      ErrorResponse(StatusMethodNotAllowed, MsgMethodNotAllowed)
    else
      Response(StatusOK, JsonContentType, PeopleList(s.people))
  }

  /**
   * Creation. The checks run in a fixed order: the method (405), then the
   * body's decoding (400 "invalid JSON body"), then validation (400 "name
   * and age must be provided and valid"); none of them touches the store.
   * Only when all pass is one record inserted and returned with 201.
   */
  function CreatePerson(s: Store, req: Request): (out: Outcome)
    ensures out.response.code == StatusCreated <==>
      req.verb == MethodPost && req.body.Some? && ValidInput(req.body.value.name, req.body.value.age)
    ensures req.verb != MethodPost ==>
      out == Outcome(s, ErrorResponse(StatusMethodNotAllowed, MsgMethodNotAllowed))
    ensures req.verb == MethodPost && req.body.None? ==>
      out == Outcome(s, ErrorResponse(StatusBadRequest, MsgInvalidJson))
    ensures req.verb == MethodPost && req.body.Some? && !ValidInput(req.body.value.name, req.body.value.age) ==>
      out == Outcome(s, ErrorResponse(StatusBadRequest, MsgInvalidInput))
    ensures out.response.code == StatusCreated ==>
      && out.response.contentType == JsonContentType
      && out.response.payload == PersonPayload(Person(s.nextID, req.body.value.name, req.body.value.age))
      && out.store.people == s.people + [out.response.payload.person]
      && out.store.nextID == s.nextID + 1
    ensures out.response.code != StatusCreated ==> out.store == s
    ensures StoreInvariant(s) ==> StoreInvariant(out.store)
    ensures IdsDense(s) ==> IdsDense(out.store)
  {
    if req.verb != MethodPost then
      Outcome(s, ErrorResponse(StatusMethodNotAllowed, MsgMethodNotAllowed))
    else if req.body.None? then
      Outcome(s, ErrorResponse(StatusBadRequest, MsgInvalidJson))
    else if !ValidInput(req.body.value.name, req.body.value.age) then
      Outcome(s, ErrorResponse(StatusBadRequest, MsgInvalidInput))
    else
      var person := NewRecord(s, req.body.value.name, req.body.value.age);
      Outcome(Inserted(s, person.name, person.age), Response(StatusCreated, JsonContentType, PersonPayload(person)))
  }

  /** The method switch registered for /people. */
  function PeopleRoute(s: Store, req: Request): (out: Outcome)
    ensures req.verb == MethodGet ==> out == Outcome(s, ListPeople(s, req))
    ensures req.verb == MethodPost ==> out == CreatePerson(s, req)
    ensures req.verb != MethodGet && req.verb != MethodPost ==>
      out == Outcome(s, ErrorResponse(StatusMethodNotAllowed, MsgMethodNotAllowed))
  {
    if req.verb == MethodGet then Outcome(s, ListPeople(s, req))
    else if req.verb == MethodPost then CreatePerson(s, req)
    else Outcome(s, ErrorResponse(StatusMethodNotAllowed, MsgMethodNotAllowed))
  }

  /**
   * The router: /status to the probe, /people to its method switch; any
   * other path gets the listener's default 404.
   */
  function Serve(s: Store, req: Request): (out: Outcome)
    ensures req.path == StatusPath ==> out == Outcome(s, StatusHandler(req))
    ensures req.path == PeoplePath ==> out == PeopleRoute(s, req)
    ensures req.path != StatusPath && req.path != PeoplePath ==>
      out == Outcome(s, ErrorResponse(StatusNotFound, MsgNotFound))
    ensures out.response.code == StatusCreated <==>
      && req.path == PeoplePath && req.verb == MethodPost && req.body.Some?
      && ValidInput(req.body.value.name, req.body.value.age)
    ensures out.response.code != StatusCreated ==> out.store == s
    ensures out.response.code == StatusCreated ==>
      && out.response.payload.PersonPayload?
      && out.response.payload.person.id == s.nextID
      && out.store == Store(s.people + [out.response.payload.person], s.nextID + 1)
    ensures StoreInvariant(s) ==> StoreInvariant(out.store)
    ensures IdsDense(s) ==> IdsDense(out.store)
  {
    if req.path == StatusPath then Outcome(s, StatusHandler(req))
    else if req.path == PeoplePath then PeopleRoute(s, req)
    else Outcome(s, ErrorResponse(StatusNotFound, MsgNotFound))
  }

  // ----------------------------------------------------------------------
  // Sequences of requests
  // ----------------------------------------------------------------------

  /** The state and responses after serving `reqs` one after another. */
  datatype Trace = Trace(store: Store, responses: seq<Response>)

  function Run(s: Store, reqs: seq<Request>): (t: Trace)
    ensures |t.responses| == |reqs|
    decreases |reqs|
  {
    if reqs == [] then Trace(s, [])
    else
      var first := Serve(s, reqs[0]);
      var rest := Run(first.store, reqs[1..]);
      Trace(rest.store, [first.response] + rest.responses)
  }

  /** The records that the 201 responses among `rs` carry, in order. */
  function Created(rs: seq<Response>): (ps: seq<Person>)
    ensures |ps| <= |rs|
  {
    if rs == [] then []
    else
      (if rs[0].code == StatusCreated && rs[0].payload.PersonPayload? then [rs[0].payload.person] else [])
      + Created(rs[1..])
  }

  /**
   * The store only grows by appending: after any sequence of requests it is
   * the old records followed by exactly the records the 201 responses
   * returned, those carry the consecutive IDs old counter, old counter + 1,
   * …, and the counter has advanced by their number.
   */
  lemma {:induction false} RunAppendsCreated(s: Store, reqs: seq<Request>)
    ensures Run(s, reqs).store.people == s.people + Created(Run(s, reqs).responses)
    ensures Run(s, reqs).store.nextID == s.nextID + |Created(Run(s, reqs).responses)|
    ensures forall k :: 0 <= k < |Created(Run(s, reqs).responses)| ==>
      Created(Run(s, reqs).responses)[k].id == s.nextID + k
    decreases |reqs|
  {
    if reqs != [] {
      var first := Serve(s, reqs[0]);
      var rest := Run(first.store, reqs[1..]);
      RunAppendsCreated(first.store, reqs[1..]);
      var rs := [first.response] + rest.responses;
      assert rs[1..] == rest.responses;
      assert Run(s, reqs) == Trace(rest.store, rs);
      if first.response.code == StatusCreated {
        assert Created(rs) == [first.response.payload.person] + Created(rest.responses);
        assert s.people + Created(rs) == first.store.people + Created(rest.responses);
      } else {
        assert Created(rs) == Created(rest.responses);
      }
    }
  }

  /** Every sequence of requests preserves the store invariant and the dense numbering. */
  lemma {:induction false} RunPreservesInvariant(s: Store, reqs: seq<Request>)
    requires StoreInvariant(s)
    ensures StoreInvariant(Run(s, reqs).store)
    ensures IdsDense(s) ==> IdsDense(Run(s, reqs).store)
    decreases |reqs|
  {
    if reqs != [] {
      RunPreservesInvariant(Serve(s, reqs[0]).store, reqs[1..]);
    }
  }

  /**
   * IDs are never reused: the records created along any sequence of requests
   * carry strictly increasing IDs, none equal to an ID the store already held.
   */
  lemma CreatedIdsAreFresh(s: Store, reqs: seq<Request>)
    requires StoreInvariant(s)
    ensures var c := Created(Run(s, reqs).responses);
      && (forall i, j :: 0 <= i < j < |c| ==> c[i].id < c[j].id)
      && (forall i, k :: 0 <= i < |s.people| && 0 <= k < |c| ==> s.people[i].id < c[k].id)
  {
    RunAppendsCreated(s, reqs);
  }

  /** Requests that are not POSTs leave the store exactly as it was. */
  lemma {:induction false} NoPostNoChange(s: Store, reqs: seq<Request>)
    requires forall i :: 0 <= i < |reqs| ==> reqs[i].verb != MethodPost
    ensures Run(s, reqs).store == s
    decreases |reqs|
  {
    if reqs != [] {
      NoPostNoChange(Serve(s, reqs[0]).store, reqs[1..]);
    }
  }

  /** Listing is idempotent: with no POST in between, two GETs list the same records. */
  lemma ListIsIdempotent(s: Store, between: seq<Request>, get1: Request, get2: Request)
    requires get1.verb == MethodGet && get2.verb == MethodGet
    requires forall i :: 0 <= i < |between| ==> between[i].verb != MethodPost
    ensures ListPeople(s, get1) == ListPeople(Run(s, between).store, get2)
  {
    NoPostNoChange(s, between);
  }
}
