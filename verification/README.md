# Service registry of a minimal REST server, in Dafny

The server keeps its service records in one process-wide ordered list. It
offers four HTTP endpoints over that list:

- `GET /services` lists every record.
- `GET /services/service/{id}` returns the first record whose id matches.
- `POST /services/service/{id}` decodes a record from the body, gives it the path id and appends it.
- `DELETE /services/service/{id}` splices out the first record whose id matches and returns it.

At startup the list is seeded with three records, `customer1`, `customer2` and
`customer3`. The third one carries VLAN `100` and remote IP `1.1.1.1`.

The model has three modules:

- `Services` (`services.dfy`) holds the records and the value-level meaning of the operations.
  - `Service` has the Go fields `Type`, `ID` and `ServiceDetails`, named `serviceType`, `id` and `details`. The nil pointer is `None`.
  - `IndexOf` and `Lookup` give the first match in insertion order.
  - `Removed` gives the list after a delete.
  - `Decoded` gives the record that a create stores.
  - `Count` counts the records that carry an id. It is used to state that duplicate ids accumulate on create and what a delete does to the count of each id.
- `Endpoints` (`registry.dfy`) holds the class `Registry`.
  - Its field `services: seq<Service>` stands for the global slice.
  - Its methods are the endpoints. `Get` and `Delete` are the source's linear scans with early return, written as `while` loops.
  - `List` and `Get` have no `modifies` clause, so Dafny checks that they never change the list.
- `Properties` (`properties.dfy`) relates the operations to each other: a lookup after a create or a delete, counts of records per id, and what a delete removes.

An endpoint's HTTP answer is a `Reply`. It is either `Found(record)`, the 200 answer with that record as its JSON body, or `NotFound(body)`, the 404 answer with that text body. A get that misses answers with an empty body. A delete that misses answers with `<id> Not found`.

The decoding of the create body is an input of type `Option<Service>`:

- `None` means decoding left the record at its zero value. This covers an empty or malformed body, whose error the source ignores.
- `Some(v)` means decoding left `v`. This includes a body some of whose fields were skipped because their JSON type did not match.

Either way the path id then overrides any id from the body.

## Model

| member | source | states |
|---|---|---|
| `Services.IndexOf` | main.go:49-50 | the scan position is the first index whose record has the id; no position means no record has it |
| `Services.FirstMatchIsIndexOf` | main.go:49-54 | a scan that stops at the first record with the id stops at `IndexOf` |
| `Services.Lookup` | main.go:47-58 | a get finds a record exactly when some record has the id; the record is the first one with that id in insertion order; a miss is a 404 with an empty body |
| `Services.NotFoundMessage` | main.go:95 | the 404 text of a delete starts with the id, followed by the 10 characters ` Not found` |
| `Services.Removed` | main.go:83-90 | deleting an absent id leaves the list as it was; deleting a present id shortens it by one, keeps the records before the first match and shifts the ones after it down by one place |
| `Services.Count` | main.go:76 | the number of records with an id is at most the length, and it is zero exactly when no record has the id |
| `Services.Decoded` | main.go:67-75 | the stored record always has the path id; with nothing decoded it is the zero record apart from the id; otherwise it keeps the decoded type and details |
| `Services.SeedRecords` | main.go:134-136 | the startup records are three `lan2lan` services, customer1 to customer3, and only customer3 has details (VLAN 100, remote IP 1.1.1.1) |
| `Endpoints.Registry.constructor` | main.go:39 | the list starts empty |
| `Endpoints.Registry.Seed` | main.go:134-136 | seeding appends the three startup records, in order |
| `Endpoints.Registry.List` | main.go:60-63 | list returns the whole list and changes nothing |
| `Endpoints.Registry.Get` | main.go:47-58 | the loop's answer is `Lookup` of the current list: the first record with the id, or a 404 exactly when no record has it; nothing changes |
| `Endpoints.Registry.Create` | main.go:65-79 | create returns `Decoded(body, id)`; the new list is the old list followed by exactly that record, with no check for an existing id |
| `Endpoints.Registry.Delete` | main.go:81-97 | the new list is `Removed(old list, id)`; the answer is the removed first match exactly when the id was present; otherwise it is a 404 with body `<id> Not found` |
| `Properties.IndexOfAppend` | main.go:49-50 | appending a record keeps an existing first match; it only supplies a first match at the end when there was none |
| `Properties.LookupAfterCreate` | main.go:49-54 | after a create, a get for that id returns the new record only if no earlier record had the id (first match, not last write); gets for other ids are unaffected |
| `Properties.CreateThenGet` | main.go:74-78 | round trip: a create at a fresh id followed by a get returns the body's type and details under the path id |
| `Properties.CountConcat` | main.go:76 | the count of an id over two concatenated lists is the sum of the two counts |
| `Properties.CreateAccumulates` | main.go:76 | a create adds exactly one record with the path id and none with any other id, so duplicate ids accumulate |
| `Properties.DeleteAfterCreate` | main.go:76-89 | deleting an id right after creating it, when no earlier record had that id, restores the previous list |
| `Properties.RemovedTakesOne` | main.go:83-90 | a delete removes at most one record, and that record is the first match of the id (as multisets) |
| `Properties.RemovedCount` | main.go:83-90 | a delete lowers the count of its id by one when the id is present and leaves every other id's count alone |
| `Properties.LookupAfterDelete` | main.go:49-54 | after a delete, gets for every other id give the same answer as before |
| `Properties.LookupAfterDeleteDuplicate` | main.go:83-90 | after deleting a duplicated id, a get for it returns the record that had been its second match |
| `Properties.SeedScenario` | main.go:134-136 | on the startup list, a get for customer3 returns its details; a get for an unknown id is a 404, and deleting an unknown id changes nothing |

## Left out

- HTTP routing and path-variable extraction (main.go:48, 130, 138-141) are left out. The id is a plain string parameter.
- JSON encoding and decoding, including `omitempty` (main.go:52, 62, 74, 78), are left out. Decoding is the `Option<Service>` input, and encoding returns the record as a `Reply`.
- Response headers and status codes are not modelled beyond `Found` standing for 200 and `NotFound` for 404.
- Logging, the logger setup in `Init` and the request dump (main.go:68-73, 85-86, 93, 99-120) are left out. They are output-only side effects.
- `http.ListenAndServe` and `log.Fatal` (main.go:143) are network and process I/O, and are left out.
- Concurrency is left out. The source lets handlers race on the unsynchronised global slice; the model runs the operations one at a time.
- Slice aliasing is left out. In Go, the delete splice shifts the elements of the shared backing array in place, and the model uses value sequences. No caller in the source keeps a slice across requests, so nothing observable is lost.
- The `Person` and `Address` types and the `people` seeding (main.go:14-19, 32-35, 131-132) are left out. No endpoint reads them.
