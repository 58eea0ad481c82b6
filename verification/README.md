# Person record service and Go function/method basics, in Dafny

This project models two programs of a Go learning repository.

**The in-memory Person record service** (`go-http-json/main.go`). The
service keeps a package-level slice `people` of `{id, name, age}` records
and a counter `nextID`. It starts with the counter at 1 and preloads Alice
(30) and Bob (25). It answers three kinds of request:

- `/status` always answers `200 {"status":"ok"}`.
- `GET /people` answers `200` with every record in insertion order.
- `POST /people` decodes `{"name", "age"}`, validates it, gives it the
  counter as its ID, bumps the counter and appends the record. It answers
  `201` with the new record, or `400`/`405` and leaves the store alone.

The service is modelled twice over:

- `PeopleApi.dfy` describes the whole contract as values. It holds the
  records, requests and responses, a `Store` value, and one function per
  handler and for the router. It also holds `Run`, which serves a sequence
  of requests one after another. Lemmas state what any such sequence does
  to the store.
- `PeopleServer.dfy` is the program as it runs. A `RecordStore` class owns
  the two package variables. Its handler methods update them in place, step
  by step as the Go handlers do. Each method is proved to agree with the
  `PeopleApi` function for its handler and to keep the store invariant.

**Functions and methods** (`go-functions-methods/main.go`), in
`FunctionsMethods.dfy`:

- `add` and `divideAndRemainder` work on Go's `int`, taken here as 64 bits.
  Overflow wraps around, and the division truncates toward zero.
- `Person` is a class. `HaveBirthday` has a pointer receiver, so it updates
  the caller's variable. `Info` has a value receiver, so it works on a copy.

`Wrappers.dfy` holds the `Option` type. A request body that fails to
decode is `None`.

## Model

| member | source | states |
|---|---|---|
| `PeopleApi.Inserted` | go-http-json/main.go:79-85 | the new record gets the old counter as ID and is appended after all earlier records, which are unchanged; the counter goes up by exactly 1; the store invariant and dense numbering are preserved for valid input |
| `PeopleApi.Seeded` | go-http-json/main.go:98-101 | preloading advances the counter by 2 and preserves the store invariant and dense numbering |
| `PeopleApi.StartupState` | go-http-json/main.go:98-101 | after startup the store is exactly [{1,"Alice",30},{2,"Bob",25}] with counter 3, satisfying the invariant |
| `PeopleApi.DenseIdsAreOrdered` | go-http-json/main.go:79-85 | IDs numbered 1..n with counter n+1 are strictly increasing (hence distinct) and below the counter; `RecordStore.Valid` keeps only the numbering and record validity and gets the ordering from this lemma |
| `PeopleApi.StatusHandler` | go-http-json/main.go:24-36 | the probe answers 200, application/json, with the map {"status":"ok"} |
| `PeopleApi.StatusIgnoresRequest` | go-http-json/main.go:24-31 | the probe's answer is the same for every method, path and body |
| `PeopleApi.ListPeople` | go-http-json/main.go:39-52 | 200 iff the method is GET, and then the payload is exactly the store's records in insertion order; otherwise 405 "method not allowed" |
| `PeopleApi.CreatePerson` | go-http-json/main.go:61-94 | 201 iff POST with a decodable body whose name is non-empty and age positive; non-POST gives 405 before the body is looked at; an undecodable body then gives 400 "invalid JSON body"; invalid input then gives 400 "name and age must be provided and valid"; every error leaves the store unchanged; a 201 returns the record {old counter, name, age}, which is appended after the unchanged earlier records, and the counter goes up by 1; the invariant and dense numbering are preserved |
| `PeopleApi.PeopleRoute` | go-http-json/main.go:104-113 | GET goes to listing with no state change, POST to creation, every other method gets 405 with no state change |
| `PeopleApi.Serve` | go-http-json/main.go:103-113 | /status goes to the probe whatever the method or body; /people goes to the method switch; 201 only for a valid POST to /people, which appends exactly one record with the old counter as ID; every other response leaves the store unchanged; the invariant is preserved |
| `PeopleApi.Run` | go-http-json/main.go:103-113 | serving a sequence of requests one at a time yields one response per request |
| `PeopleApi.RunAppendsCreated` | go-http-json/main.go:79-85 | after any sequence of requests the records are the old ones followed by exactly the records the 201 responses returned, in order; those carry the consecutive IDs old counter, old counter + 1, …; the counter has advanced by their number |
| `PeopleApi.RunPreservesInvariant` | go-http-json/main.go:74-85 | any sequence of requests preserves the store invariant (IDs strictly increasing, below the counter, every record valid) and the dense numbering |
| `PeopleApi.CreatedIdsAreFresh` | go-http-json/main.go:79-85 | IDs are never reused: records created along any sequence of requests have strictly increasing IDs, each larger than every ID already stored |
| `PeopleApi.NoPostNoChange` | go-http-json/main.go:104-113 | a sequence of requests none of which is a POST leaves the store exactly as it was |
| `PeopleApi.ListIsIdempotent` | go-http-json/main.go:39-52 | two GET listings with no POST in between return identical responses |
| `PeopleServer.RecordStore.constructor` | go-http-json/main.go:18-21 | the package variables start as no records and counter 1 |
| `PeopleServer.RecordStore.Insert` | go-http-json/main.go:79-85 | the returned record has the old counter as ID; the sequence becomes the old one plus that record; the counter goes up by 1; the invariant is kept |
| `PeopleServer.RecordStore.Preload` | go-http-json/main.go:98-101 | the state after preloading is `Seeded` of the state before |
| `PeopleServer.RecordStore.Startup` | go-http-json/main.go:96-101 | a freshly started server holds exactly Alice (1) and Bob (2), with counter 3 |
| `PeopleServer.RecordStore.ListPeopleHandler` | go-http-json/main.go:39-52 | changes nothing; the response is `ListPeople` of the current state: GET gets 200 with the records, anything else 405 |
| `PeopleServer.RecordStore.CreatePersonHandler` | go-http-json/main.go:61-94 | the new state and the response are exactly `CreatePerson` of the old state; an error response leaves both variables as they were; a 201 appends the returned record and bumps the counter by 1; the invariant is kept |
| `PeopleServer.RecordStore.PeopleHandler` | go-http-json/main.go:104-113 | the new state and the response are exactly `PeopleRoute` of the old state |
| `PeopleServer.RecordStore.Serve` | go-http-json/main.go:103-113 | the new state and the response are exactly `Serve` of the old state; the invariant is kept |
| `PeopleServer.RecordStore.CreateThenList` | go-http-json/main.go:79-90 | on a freshly started server, POST {"name":"Carol","age":22} gets 201 {3,"Carol",22}, and a following GET lists records 1, 2 and 3 in order |
| `FunctionsMethods.Wrap` | go-functions-methods/main.go:24-27 | the result is a 64-bit int congruent to the input modulo 2^64, and equal to it when it fits |
| `FunctionsMethods.Add` | go-functions-methods/main.go:24-27 | exactly a + b when that fits in 64 bits; otherwise a + b ∓ 2^64, so positive overflow gives a negative result and negative overflow a non-negative one |
| `FunctionsMethods.TruncDivision` | go-functions-methods/main.go:30-34 | truncated division: quotient·b + remainder = a, \|remainder\| < \|b\|, the remainder is 0 or has the sign of a, and \|quotient\| ≤ \|a\| |
| `FunctionsMethods.TruncDivisionUnique` | go-functions-methods/main.go:30-34 | any quotient and remainder with those properties are the truncated ones, so the properties define Go's `/` and `%` |
| `FunctionsMethods.TruncMatchesEuclideanOnNaturals` | go-functions-methods/main.go:31-32 | on a non-negative dividend and positive divisor, truncated and Euclidean division agree |
| `FunctionsMethods.DivideAndRemainder` | go-functions-methods/main.go:30-34 | requires b ≠ 0 (Go panics on division by zero); quotient·b + remainder = a except for MinInt / -1, which wraps to (MinInt, 0); \|remainder\| < \|b\|; the remainder is 0 or has the sign of a |
| `FunctionsMethods.MainArithmetic` | go-functions-methods/main.go:54-61 | add(10, 20) = 30; divideAndRemainder(17, 5) = (3, 2); divideAndRemainder(-17, 5) = (-3, -2), where Euclidean division would give (-4, 3) |
| `FunctionsMethods.Person.Info` | go-functions-methods/main.go:36-40 | shows the receiver's name with age 123, and changes nothing in the caller's Person |
| `FunctionsMethods.Person.HaveBirthday` | go-functions-methods/main.go:42-46 | the caller's age becomes add(age, 1), which is age + 1 below MaxInt; the name is unchanged |
| `FunctionsMethods.PersonDemo` | go-functions-methods/main.go:63-87 | Info on Alice (29) shows age 123 but leaves her at 29; two birthdays, the second through an explicit pointer, bring her to 31 |

## Left out

- HTTP plumbing is not modelled: `ListenAndServe`, the port, `log.Fatal`, handler registration, and the writing of headers (except Content-Type, which is a response field). `http.Error` also ends the message with a newline and sets `X-Content-Type-Options`. The model keeps only its status code, its plain-text content type and its message.
- The encoding/json library is not modelled. Decoding is given as an `Option` of `{name, age}`. A missing field arrives as Go's zero value (`""` or `0`). `None` stands for every decoder error, including an age that is not an integer or does not fit in an int. Trailing data after the first JSON value and unknown fields are not modelled.
- Encoding is the identity on the payload. An encoder error is only logged after the status is written, so the model has no error path for it.
- `PeopleApi.Serve`: paths other than `/status` and `/people` get the listener's default `404 page not found`. The listener's path-cleaning redirects are not modelled.
- Concurrency is not modelled. The listener runs handlers concurrently without any lock around `people` and `nextID`, which is a data race. The model serves requests one at a time and makes no claim about concurrent ones.
- In the record service, `nextID` and the ages are unbounded integers. The 64-bit wrap of `nextID++` would take 2^63 creations and is not modelled.
- `greet` in go-functions-methods/main.go and all printing are not modelled. `Info` returns the value it would print instead.
- `FunctionsMethods.DivideAndRemainder`: division by zero is excluded by its precondition rather than modelled as a panic.
- Go's `int` is 32 bits on 32-bit platforms. The model fixes it at 64 bits.
- `go-http-json/api-call/main.go` is not part of this model: it makes one outbound GET and prints the result.
- The other programs of the repository are not part of this model: they print, read files or the environment, or format floating-point numbers.
