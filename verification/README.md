# Superheroes service: a Dafny model

The service keeps heroes, powers and the hero-power links between them, and
exposes six routes: list heroes, show a hero with its powers, list powers,
show a power, change a power's description, and link a hero to a power with a
strength rating. Its only decisions are two field validators (a power's
description must have at least 20 characters; a link's strength must be
"Strong", "Weak" or "Average"), the cascades that delete a hero's or a
power's links with it, and the status codes and store changes of the routes.

This project models that core without the web framework or the ORM:

- `keys.dfy` (module `Keys`): integer primary keys — listing a table in key
  order and allocating the key of a new row.
- `models.dfy` (module `Models`): the three entities, the database as an
  immutable record of three maps from primary key to row, the validators, the
  store invariant (descriptions valid, strengths valid, every link names a
  stored hero and power), the two delete cascades and the `Hero.powers`
  association proxy.
- `handlers.dfy` (module `Handlers`): each route as a pure function from
  (store, id, JSON body) to a `Reply` of status, response body and the store
  after the request. A request that rolls back returns the store unchanged.
  A request body is a map from field name to value, so a missing field is a
  failed membership test.
- `properties.dfy` (module `Properties`): lemmas relating several requests,
  the invariant over any run of requests, and the lemmas behind the finding
  below.

Strings are `seq<char>`; Dafny's `char` is a Unicode scalar value, so `|d|`
counts what Python's `len` counts.

Two points about the code that the model follows as written:

- Names are declared only `nullable=False`, so an empty name is stored; the
  model has no name check.
- A rejected POST /hero_powers can leave a committed link behind (see
  Findings).

## Model

| member | source | states |
|---|---|---|
| `Keys.SortedKeys` | server/app.py:18 | the listing of a table has one entry per stored key, each key once, in ascending order |
| `Keys.FreshId` | server/models.py:35 | a new row's key is not in use and is above every key in use |
| `Models.ValidateDescription` | server/models.py:24-30 | a description is accepted iff it has at least 20 characters, and is then returned unchanged; an empty one fails the emptiness test, a short non-empty one the length test |
| `Models.ValidateDescriptionValue` | server/models.py:25-30 | a null description fails the emptiness test; only a text of at least 20 characters is accepted, and it is returned unchanged |
| `Models.ValidateStrength` | server/models.py:44-49 | a strength is accepted iff it is exactly "Strong", "Weak" or "Average" (case-sensitive), and is then returned unchanged |
| `Models.ValidateStrengthValue` | server/models.py:45-49 | a non-text strength is always rejected; a text one as above |
| `Models.DeleteHero` | server/models.py:11 | deleting a hero removes exactly the links of that hero, keeps every other hero, power and link as it was, and keeps the store invariant |
| `Models.DeletePower` | server/models.py:22 | deleting a power removes exactly the links of that power, keeps every other hero, power and link as it was, and keeps the store invariant |
| `Models.AppendPower` | server/models.py:12-13 | appending a power to a hero adds exactly one link, rated "Average", which the strength validator accepts; nothing else changes and the invariant is kept |
| `Handlers.GetHeroes` | server/app.py:16-24 | 200 with one entry per stored hero, id, name and super name copied verbatim, in ascending id order; the store is unchanged |
| `Handlers.GetHero` | server/app.py:27-52 | an id outside SQLite's signed 64-bit INTEGER range: 500, as the lookup cannot bind it; unknown id: 404 "Hero not found"; otherwise 200 with the hero and one entry per link it owns, each nesting the stored power its `power_id` names, unless a link names a missing power (500); on a valid store every known hero within range gives 200; the store is never changed |
| `Handlers.GetPowers` | server/app.py:55-63 | 200 with one entry per stored power, id, name and description copied verbatim, in ascending id order; the store is unchanged |
| `Handlers.GetPower` | server/app.py:66-75 | 200 with the stored power iff the id is within 64 bits and known; an unknown id within range: 404 "Power not found"; an id out of range: 500; the store is unchanged |
| `Handlers.UpdatePower` | server/app.py:78-98 | id out of 64-bit range: 500 whatever the body; unknown id: 404 whatever the body; missing `description`: 400 "description is required"; rejected description: 400 with the validator's message; in every failure the store is unchanged; on success only that power's description changes, and the response echoes it; the invariant is kept |
| `Handlers.CreateHeroPowerAsWritten` | server/app.py:101-139 | any of the three fields missing: 400, store unchanged; invalid strength: 400 with the validator's message, store unchanged; an id outside 64 bits: 400 with the driver's overflow message, store unchanged (the commit fails and is rolled back); null id: 400, store unchanged; hero or power missing: 400, yet the link with the validated strength and the given ids is stored under a fresh key beside the unchanged old links, and it dangles; otherwise 200 with exactly that link added and the stored hero and power nested; stored descriptions and strengths stay valid |
| `Handlers.CreateHeroPower` | server/app.py:101-139 | as above, but every failure leaves the store unchanged; 200 iff all fields are present, the strength is valid and both ids are within 64 bits and stored; then exactly one new link is added and the response nests the stored hero and power; the invariant is kept |
| `Properties.RunPreservesValid` | server/models.py:24-49 | in the corrected service (POST by `Handlers.CreateHeroPower`), no sequence of requests can take a valid store to an invalid one |
| `Properties.RunAsWrittenKeepsFields` | server/models.py:24-49 | in the service as written, no sequence of requests can store a description shorter than 20 characters or a strength outside the three ratings (links may dangle, see Findings) |
| `Properties.ReadsLeaveStore` | server/app.py:16-75 | a sequence of GET requests leaves the store as it was |
| `Properties.UpdateThenGetPower` | server/app.py:88-95 | after a successful PATCH, GET of that power returns the response the PATCH returned, with the new description |
| `Properties.UpdatePowerIdempotent` | server/app.py:88-95 | repeating a successful PATCH changes nothing further and returns the same response |
| `Properties.LinkOnHeroPage` | server/app.py:34-45 | when a hero's page loads, every link the hero owns is on it, with the stored power nested |
| `Properties.CreatedLinkShownOnHeroPage` | server/app.py:110-136 | a created link appears on its hero's page, with the nested power, and each of the hero's earlier links is still on the page exactly as it was shown before |
| `Properties.DeletedPowerGoneFromHeroPages` | server/models.py:22 | after a power is deleted, every stored hero's page still loads iff its key is within 64 bits, and then lists no link to the deleted power |
| `Properties.AsWrittenDiffersOnlyWhenDangling` | server/app.py:115-119 | the as-written and intended link creation differ exactly on requests naming a missing hero or power |
| `Properties.OutOfRangeIdRejected` | server/app.py:101-139 | on a concrete request naming power 2^63, both POST handlers answer 400 and store nothing, and GET of hero 2^63 gives 500, not 404 |
| `Properties.DanglingLinkOutlivesRejection` | server/app.py:115-139 | on a concrete request the as-written handler answers 400 yet stores a dangling link, after which the hero's page fails with 500 |

## Findings

| source | as written | input that shows it | evidently intended | confidence | as-written member | corrected member |
|---|---|---|---|---|---|---|
| server/app.py:115-119 | the new link is committed before its hero and power are fetched; when either is missing, reading `.id` of `None` raises, and the rollback at line 138 has nothing left to undo | a store holding only hero 1; POST body `{"strength": "Strong", "hero_id": 1, "power_id": 7}` | reject with 400 and store nothing, as for every other failure | medium, not executed; holds with SQLite's default of not enforcing foreign keys, which nothing in app.py or models.py changes; config.py, which builds `db`, is not part of this model and was not read | `Handlers.CreateHeroPowerAsWritten`, shown by `Properties.DanglingLinkOutlivesRejection` | `Handlers.CreateHeroPower`, related by `Properties.AsWrittenDiffersOnlyWhenDangling` and used by `Properties.RunPreservesValid` |

## Left out

- Routing, `request.get_json`, `jsonify`, `make_response` and JSON encoding: a response is a status plus an abstract `Body`. `Properties.Handle` stands in for the routing table of the corrected service, `Properties.HandleAsWritten` for that of the service as written.
- The database session, `db.create_all` and the SQLite URI: the store is a record of maps, and a rollback is returning the store unchanged.
- Column lengths (`String(100)`, `String(500)`, `String(50)`): SQLite does not enforce them.
- Request bodies that are not JSON objects are not modelled. A JSON array or string body gets 400: PATCH answers "description is required" when the body lacks the word, and otherwise indexing it raises inside the `try` and is rolled back; POST likewise. A null, number or boolean body makes the membership test raise outside any `try`, so the framework answers 500.
- JSON booleans, floats, lists and objects as field values: a value is a text, an integer or null.
- `Handlers.CreateHeroPowerAsWritten`: requires the id fields not to be texts. What SQLite's type affinity then does with the stored id and the later lookup is out of scope. `Handlers.CreateHeroPower` rejects a text id with 400.
- Error texts of database exceptions: `Handlers.Text` gives the gist ("NOT NULL constraint failed: …", the sqlite3 driver's overflow message), not SQLAlchemy's full message.
- Listing order: the code does not order its queries; the model lists in ascending id order, the order of SQLite's scan of an integer primary key.
- `Keys.FreshId`: SQLite picks a random unused key once the largest key is 9223372036854775807 (`Keys.MaxInt64`); the model always uses one more than the largest key.
- Negative ids: the routes' `<int:id>` matches only non-negative ids, so a negative id gets the framework's own 404 page rather than `{"error": …}`; `Handlers.GetHero`, `Handlers.GetPower` and `Handlers.UpdatePower` accept any integer, answering the handler's 404 body for an unknown negative id within 64 bits and 500 below -2^63.
- Deletion is not reachable through any route; the cascades are modelled as store operations only.
