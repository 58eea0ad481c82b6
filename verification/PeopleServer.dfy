/**
 * The record service as the Go program runs it: one object holding the
 * package-level `people` sequence and `nextID` counter, updated in place by
 * the seeding code and the create handler. Every handler method is proved
 * to do exactly what the corresponding function of PeopleApi describes.
 */
module PeopleServer {
  import opened Wrappers
  import Api = PeopleApi

  class RecordStore {
    var people: seq<Api.Person>
    var nextID: int

    /** The state as a value, for stating what the handlers do. */
    function State(): Api.Store
      reads this
    {
      Api.Store(people, nextID)
    }

    /**
     * Every reachable state numbers its records 1, 2, … and holds only valid
     * records; the ordering half of the store invariant follows from the
     * numbering (DenseIdsAreOrdered).
     */
    ghost predicate Valid()
      reads this
      ensures Valid() ==> Api.StoreInvariant(State())
    {
      if Api.IdsDense(State()) then
        Api.DenseIdsAreOrdered(State());
        Api.RecordsValid(people)
      else
        false
    }

    /** The package variables' initial values: no records, counter at 1. */
    constructor ()
      ensures Valid() && State() == Api.Initial
    {
      people := [];
      nextID := 1;
    }

    /**
     * Build a record from the counter, bump the counter, append the record:
     * the three statements shared by startup seeding and the create handler.
     */
    method Insert(name: string, age: int) returns (person: Api.Person)
      requires Valid() && Api.ValidInput(name, age)
      modifies this
      ensures Valid()
      ensures person == Api.NewRecord(old(State()), name, age)
      ensures people == old(people) + [person] && nextID == old(nextID) + 1
      ensures State() == Api.Inserted(old(State()), name, age)
    {
      person := Api.Person(nextID, name, age);
      nextID := nextID + 1;
      people := people + [person];
    }

    /** Startup preloading: Alice (30), then Bob (25). */
    method Preload()
      requires Valid()
      modifies this
      ensures Valid()
      ensures State() == Api.Seeded(old(State()))
    {
      var _ := Insert("Alice", 30);
      var _ := Insert("Bob", 25);
    }

    /** The state the server starts serving from. */
    static method Startup() returns (store: RecordStore)
      ensures fresh(store) && store.Valid()
      ensures store.people == [Api.Person(1, "Alice", 30), Api.Person(2, "Bob", 25)]
      ensures store.nextID == 3
    {
      store := new RecordStore();
      store.Preload();
      Api.StartupState();
    }

    /** Listing: reads the records and changes nothing. */
    method ListPeopleHandler(req: Api.Request) returns (resp: Api.Response)
      ensures resp == Api.ListPeople(State(), req)
      ensures req.verb == Api.MethodGet ==> resp.code == Api.StatusOK && resp.payload == Api.PeopleList(people)
      ensures req.verb != Api.MethodGet ==> resp.code == Api.StatusMethodNotAllowed
    {
      if req.verb != Api.MethodGet {
        return Api.ErrorResponse(Api.StatusMethodNotAllowed, Api.MsgMethodNotAllowed);
      }
      resp := Api.Response(Api.StatusOK, Api.JsonContentType, Api.PeopleList(people));
    }

    /**
     * Creation: method check, then body check, then validation, each
     * returning before the store is touched; then insertion and 201.
     */
    method CreatePersonHandler(req: Api.Request) returns (resp: Api.Response)
      requires Valid()
      modifies this
      ensures Valid()
      ensures Api.Outcome(State(), resp) == Api.CreatePerson(old(State()), req)
      ensures resp.code != Api.StatusCreated ==> people == old(people) && nextID == old(nextID)
      ensures resp.code == Api.StatusCreated ==>
        && resp.payload.PersonPayload?
        && people == old(people) + [resp.payload.person]
        && nextID == old(nextID) + 1
    {
      if req.verb != Api.MethodPost {
        return Api.ErrorResponse(Api.StatusMethodNotAllowed, Api.MsgMethodNotAllowed);
      }
      if req.body.None? {
        return Api.ErrorResponse(Api.StatusBadRequest, Api.MsgInvalidJson);
      }
      var body := req.body.value;
      if body.name == "" || body.age <= 0 {
        return Api.ErrorResponse(Api.StatusBadRequest, Api.MsgInvalidInput);
      }
      var person := Insert(body.name, body.age);
      resp := Api.Response(Api.StatusCreated, Api.JsonContentType, Api.PersonPayload(person));
    }

    /** The handler registered for /people: GET lists, POST creates, anything else 405. */
    method PeopleHandler(req: Api.Request) returns (resp: Api.Response)
      requires Valid()
      modifies this
      ensures Valid()
      ensures Api.Outcome(State(), resp) == Api.PeopleRoute(old(State()), req)
    {
      if req.verb == Api.MethodGet {
        resp := ListPeopleHandler(req);
      } else if req.verb == Api.MethodPost {
        resp := CreatePersonHandler(req);
      } else {
        resp := Api.ErrorResponse(Api.StatusMethodNotAllowed, Api.MsgMethodNotAllowed);
      }
    }

    /** The request multiplexer: /status, /people, and 404 for anything else. */
    method Serve(req: Api.Request) returns (resp: Api.Response)
      requires Valid()
      modifies this
      ensures Valid()
      ensures Api.Outcome(State(), resp) == Api.Serve(old(State()), req)
    {
      if req.path == Api.StatusPath {
        resp := Api.StatusHandler(req);
      } else if req.path == Api.PeoplePath {
        resp := PeopleHandler(req);
      } else {
        resp := Api.ErrorResponse(Api.StatusNotFound, Api.MsgNotFound);
      }
    }

    /**
     * From a freshly started server, POST {"name":"Carol","age":22} to
     * /people gets 201 with record 3, and a following GET lists records 1,
     * 2 and 3 in that order.
     */
    static method CreateThenList() returns (created: Api.Response, listed: Api.Response)
      ensures created == Api.Response(Api.StatusCreated, Api.JsonContentType,
                                      Api.PersonPayload(Api.Person(3, "Carol", 22)))
      ensures listed.code == Api.StatusOK
      ensures listed.payload == Api.PeopleList([Api.Person(1, "Alice", 30), Api.Person(2, "Bob", 25),
                                                Api.Person(3, "Carol", 22)])
    {
      var store := Startup();
      created := store.Serve(Api.Request(Api.MethodPost, Api.PeoplePath,
                                         Some(Api.CreatePersonRequest("Carol", 22))));
      listed := store.Serve(Api.Request(Api.MethodGet, Api.PeoplePath, None));
    }
  }
}
