# Werkzeugverwaltung stores, modelled in Dafny

The system is a tool-lending web app with two serverless HTTP endpoints,
`/users` and `/werkzeuge` ("tools"). Each endpoint keeps an ordered list of
records in a JSON file. GET lists the records. POST creates a record with id
`max(ids, 0) + 1`. PUT replaces the record whose id matches the body's id.
DELETE removes records by the `id` query parameter. OPTIONS answers the CORS
preflight. The two handlers run the same algorithm. They differ only in:

- the entity name in error messages ("User" / "Werkzeug");
- the seed list written when the data file is missing or unreadable;
- the create hook. A user body is kept as it is (`{...body, id}`). A tool
  body gets its lending fields forced: `status` defaults to "available", and
  `borrower` and `borrowedDate` become null.

The model follows that structure:

- `collection.dfy` (module `Collection`): records and the pure list
  computations of the handlers. `MaxId`/`NewId` model the `Math.max`
  expression, `FindIndex` models `findIndex` and `Without` models `filter`.
  The module also holds the lemmas about them: freshness, order
  preservation, uniqueness of ids, and the create/delete round trip.
- `http.dfy` (module `Http`): requests (verb, classified body, parsed `id`
  parameter) and responses (status code and payload).
- `store.dfy` (module `CrudStore`): the class `Store<P>`, one endpoint. Its
  mutable field `file` is the backing file (`None` = absent or unreadable).
  Its constants are the entity name, the seed and the create hook. The
  methods `Read`, `Create`, `Replace`, `Delete` and `Handle` follow the
  handler's branches. A POST appends to the list read from the file, and a
  PUT overwrites one slot of it. Each method states the response and the
  new state of the file: untouched, or exactly the list written. Each also keeps the invariant `Valid()`: ids are
  unique.
- `users.dfy` (module `Users`): the user record, `DEFAULT_USERS`, the user
  store and two request scenarios.
- `werkzeuge.dfy` (module `Tools`): the tool record with its lending fields,
  `DEFAULT_WERKZEUGE`, the forced-field create hook and its lemma, the tool
  store and a lend-by-replace scenario.

`Store.Handle` models `exports.handler` of both files
(netlify/functions/werkzeuge.js:55-184 and netlify/functions/users.js:40-163).

Behaviour of the code worth noting, which the model follows:

- DELETE removes every record with the given id (a `filter`), not only the
  first one. With unique ids, `WithoutKeepsUnique` shows that exactly one
  record is removed.
- The body is parsed before the verb is dispatched. A malformed JSON body
  therefore gives 500 for every verb except OPTIONS, including GET, DELETE
  and unknown verbs (an unknown verb with a malformed body gets 500, not
  405).
- PUT and DELETE read the store before they can answer 404. On a missing or
  unreadable file, that read writes the seed. A 404 therefore leaves the
  store's contents unchanged, but may create the file.
- A query id that does not parse (NaN) matches no record, so DELETE answers
  404 rather than 400.

## Model

| member | source | states |
|---|---|---|
| `Collection.MaxId` | netlify/functions/werkzeuge.js:92 | `Math.max(...ids, 0)`: at least 0, no id exceeds it, and it is 0 or the id of some record |
| `Collection.NewId` | netlify/functions/users.js:77 | the assigned id is at least 1, strictly greater than every existing id, so no record has it; it is 1 or one past an existing id |
| `Collection.FindIndex` | netlify/functions/werkzeuge.js:120 | -1 exactly when no record has the id; otherwise the position of the first record carrying it |
| `Collection.Without` | netlify/functions/werkzeuge.js:151 | the filtered list holds exactly the records whose id differs; it is never longer, and it has the same length exactly when no record had the id (the 404 condition); how often and in what order survivors appear is fixed by `WithoutConcat` with `WithoutSingle`, not by this contract alone |
| `Collection.WithoutConcat` | netlify/functions/users.js:130 | the filter distributes over concatenation, so surviving records keep their original relative order |
| `Collection.WithoutSingle` | netlify/functions/users.js:130 | on one record the filter keeps it exactly when its id differs |
| `Collection.WithoutAbsent` | netlify/functions/werkzeuge.js:151-153 | deleting an id no record carries leaves the list identical |
| `Collection.WithoutKeepsUnique` | netlify/functions/users.js:129-140 | delete keeps ids unique; with unique ids and the id present, exactly one record is removed |
| `Collection.AppendNewKeepsUnique` | netlify/functions/werkzeuge.js:92-102 | appending the record with the new id keeps ids unique |
| `Collection.AppendNewFound` | netlify/functions/werkzeuge.js:92-101 | for every list, looking the new id up after the append finds the appended position |
| `Collection.AppendNewOnce` | netlify/functions/users.js:77-81 | after a create, the list contains the created record exactly once |
| `Collection.ReplaceKeepsIds` | netlify/functions/werkzeuge.js:120-130 | overwriting a slot with a record of the same id leaves the id list, its multiset and id uniqueness unchanged |
| `Collection.CreateThenDelete` | netlify/functions/users.js:76-81 | create followed by delete of the new id restores the original list |
| `CrudStore.Store.Read` | netlify/functions/werkzeuge.js:38-48 | a read returns the file's list, or the seed when the file is absent or unreadable, and the file afterwards holds what was returned |
| `CrudStore.Store.Create` | netlify/functions/werkzeuge.js:82-108 | no body: 400 and the file is untouched; otherwise 201 with the record carrying `NewId` and the hooked body, appended at the end of the old list |
| `CrudStore.Store.Replace` | netlify/functions/werkzeuge.js:110-137 | missing body or falsy id: 400, file untouched; unknown id: 404, contents unchanged; otherwise 200 echoing the body, which overwrites the first record with that id, all else in place |
| `CrudStore.Store.Delete` | netlify/functions/werkzeuge.js:139-167 | no id parameter: 400, file untouched; NaN or an id no record has: 404, contents unchanged; otherwise 200 and the file holds the filtered list |
| `Http.TruthyId` | netlify/functions/werkzeuge.js:111 | the `!body.id` test of PUT (also users.js:90): an id is falsy exactly when it is missing or null, or 0 |
| `CrudStore.Store.Handle` | netlify/functions/users.js:40-163 | OPTIONS 200 with no body; malformed body 500; unknown verb 405; GET lists; each create/replace/delete branch as above; every status of 400 or more leaves the contents unchanged; success exactly on the listed conditions; unique ids are preserved |
| `Users.DefaultUsers` | netlify/functions/users.js:7-11 | `DEFAULT_USERS`: three accounts with ids 1, 2, 3, distinct user names, and the first is the only administrator |
| `Users.KeepFields` | netlify/functions/users.js:78 | the user create hook `{...body, id}`: name, user name, password and role are the body's own |
| `Users.NewUserStore` | netlify/functions/users.js:4-11 | the user endpoint: entity "User", seed `DEFAULT_USERS`, create hook that keeps the body's fields; with no data file the store starts with unique ids |
| `Users.DefaultUsersSeed` | netlify/functions/users.js:7-11 | the user seed has the unique ids 1, 2, 3, so the next id is 4 |
| `Users.FreshDeployment` | netlify/functions/users.js:59-87 | on a fresh deployment GET lists the three seeded users and the first POST yields id 4, whatever id the body claims |
| `Users.DeleteFromSeed` | netlify/functions/users.js:129-130 | filtering user 2 out of the seed keeps users 1 and 3, in their original order |
| `Users.DeleteScenario` | netlify/functions/users.js:118-146 | deleting user 2 on a fresh deployment succeeds, and a later GET lists users 1 and 3 unchanged and in order |
| `Users.UnknownDeleteScenario` | netlify/functions/users.js:129-138 | deleting an id no user has gives 404, and a later GET still lists the seeded users |
| `Tools.DefaultTools` | netlify/functions/werkzeuge.js:7-26 | `DEFAULT_WERKZEUGE`: two tools with ids 1 and 2; each is "borrowed" exactly when it has a borrower, exactly when it has a borrow date; the borrowed tool's date is the clock reading |
| `Tools.Truthy` | netlify/functions/werkzeuge.js:96 | the truthiness `||` tests: a string field is falsy exactly when it is missing or null, or empty |
| `Tools.ForceLending` | netlify/functions/werkzeuge.js:93-99 | the tool create hook: the created tool has no borrower and no borrow date, a non-empty status, and the client's name, owner and image |
| `Tools.NewToolStore` | netlify/functions/werkzeuge.js:4-26 | the tool endpoint: entity "Werkzeug", seed `DEFAULT_WERKZEUGE`, create hook that forces the lending fields; with no data file the store starts with unique ids |
| `Tools.DefaultToolsSeed` | netlify/functions/werkzeuge.js:7-26 | the tool seed has the unique ids 1 and 2, so the next id is 3 |
| `Tools.CreatedToolNotBorrowed` | netlify/functions/werkzeuge.js:93-99 | a created tool has no borrower and no borrow date and a non-empty status: the client's status exactly when it was non-empty, else "available"; its other fields are the client's; forcing is idempotent |
| `Tools.LendingScenario` | netlify/functions/werkzeuge.js:82-137 | POST "Saw" on a fresh deployment gives tool 3, available and unlent even if the body names a borrower; a PUT lending tool 1 is echoed and then listed verbatim, other tools untouched |

## Left out

- File-system plumbing (`ensureDataDir`, `fs.readFile`/`fs.writeFile`, path
  joining) is not modelled. The file is the field `Store.file`. A failed
  write or directory creation, which the handler turns into a 500, is not
  modelled.
- `JSON.parse` and `JSON.stringify` are not modelled, and neither is the
  pretty-printed file format. A request body arrives classified as absent or
  falsy, malformed (500), or a parsed object. JSON key order is not kept.
- `parseInt` of the `id` query parameter is not modelled. The parameter
  arrives as absent or empty (400), NaN (no record matches), or an integer.
- Collection.NewId: ids are unbounded integers, while the handlers compute
  `Math.max(...ids, 0) + 1` in double precision. At a maximum of 2^53
  (9007199254740992), and at some larger ids (every id from 2^54 on), the
  sum rounds back to an id already in use, so the source would hand out a
  used id; the model's freshness is the source's only while every id is
  below 2^53. From the seed this needs 2^53 creates, since PUT cannot
  change an id and each POST raises the maximum by one.
- CrudStore.Store.Create: for the same reason its `old(Valid()) ==> Valid()`
  (unique ids after a create) holds in the source only while every stored id
  is below 2^53; a data file holding a larger id is outside that promise.
- Collection.NewId: ids are integers. A stored id of another JSON type is not
  modelled. `Math.max` converts its arguments to numbers: a numeric string
  such as "5" counts as 5 and a null id as 0, while a non-numeric string, a
  missing id or an object makes the maximum NaN, and the new id is then NaN
  (written to the file as null). A string id never equals a numeric id
  under the strict equality of `findIndex` and `filter`.
- CrudStore.Store.Create: `Math.max(...ids, 0)` passes every id as a
  separate argument. For a list of some hundred thousand records (the bound
  depends on the engine) this exceeds the engine's argument limit, throws a RangeError, and the handler
  answers 500. The model answers 201 for a list of any length.
- CrudStore.Store.Read: the file holds either no readable JSON (`None`) or a
  list of records. A file holding readable JSON that is not an array (such
  as `{}`) is not modelled: the source's GET echoes it, and its POST, PUT and
  DELETE throw and answer 500.
- Users.KeepFields: a user body carries all four fields. A body missing
  some of them, which the source stores as it is, is not modelled.
- Record fields besides the id are a type parameter of the store. Users
  have four string fields. Tools have optional image, status, borrower and
  borrow date, where `None` means null or missing. Extra JSON fields, and a
  `status` that is a non-string truthy value, are not modelled.
- The seed's `new Date().toISOString()` is a clock read. It is the parameter
  `now`.
- When the file is missing, `readUsers`/`readWerkzeuge` return the seed
  array itself, and a later `push` or slot update then also changes the
  in-memory seed. The model keeps the seed constant.
- The CORS headers, `console.error` logging and the async/await structure
  are not modelled.
- Concurrent invocations racing on the read-modify-write of the file are
  not modelled: each request is modelled as one atomic step on the store.
