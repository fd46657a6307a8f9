# Album catalog and cart stores, modelled in Dafny

This project models the two stateful stores of a small album shop demo and
the request layer in front of one of them:

- the **album catalog** of the REST service (`album-api-v2/src/data/albums.ts`):
  a process-wide list of albums seeded with six records, with list, get,
  add, update and delete; ids are assigned as "largest id + 1";
- the **request layer** of that service (`album-api-v2/src/server.ts`): the
  payload check `validateAlbumPayload` and the status each `/albums` route
  answers with (400, 404, 200, 201, 204);
- the **cart store** of the web client (`album-viewer/src/stores/cart.ts`): an
  ordered list of albums with no repeated id, mirrored after every change
  into one key of the browser's key-value storage, with failures of that
  storage caught and logged.

Files: `wrappers.dfy` (the absence signal), `records.dfy` (the album record
and the scans by id both stores use: `some`, `find`, `findIndex`, `filter`),
`catalog.dfy`, `server.dfy`, `cart.dfy`.

Both stores are classes whose one mutable list is a `seq<Album>` field that
the methods reassign, as the source's `push`, index assignment and `filter`
do. The request handlers are methods that take the catalog object. The
browser storage is an injected `Storage` object whose reads and writes can be
made to throw; it records every write attempt. JSON encoding and decoding are
an injected `Codec` whose decoder answers `ParseError`, `NonArray` or
`Array(albums)`; the round trip `decode(encode(xs)) == Array(xs)` is stated per list
(`Codec.RoundTripsOn(xs)`) and required only for the list that is actually
written, because with unbounded real prices no string codec could round-trip
every list at once.

Where the two disagree, the model follows the code: when the stored cart text
parses to a JSON value that is not an array, `loadFromStorage`
(`album-viewer/src/stores/cart.ts:49-51`) leaves the cart as it was; it does
not empty it.

## Model

| member | source | states |
|---|---|---|
| Records.HasId | album-viewer/src/stores/cart.ts:15 | true exactly when some album of the list carries the id |
| Records.FirstIndex | album-api-v2/src/data/albums.ts:28 | absent exactly when no album carries the id; otherwise the position of the first album that does |
| Records.Find | album-api-v2/src/data/albums.ts:17 | absent exactly when no album carries the id; otherwise the first album of the list with that id |
| Records.WithoutId | album-api-v2/src/data/albums.ts:37 | no album carries the id afterwards; the list gets shorter exactly when some album carried the id |
| Records.WithoutIdMembers | album-api-v2/src/data/albums.ts:37 | the filtered list holds exactly the albums whose id differs |
| Records.WithoutIdAppend | album-api-v2/src/data/albums.ts:37 | filtering distributes over concatenation, so the kept albums stay in their relative order |
| Records.WithoutAbsentId | album-api-v2/src/data/albums.ts:36-38 | filtering out an id nobody carries gives back the same list |
| Records.WithoutIdKeepsUnique | album-api-v2/src/data/albums.ts:37 | filtering keeps ids unique |
| Records.AppendKeepsUnique | album-viewer/src/stores/cart.ts:20-21 | appending an album whose id is absent keeps ids unique |
| Catalog.WithId | album-api-v2/src/data/albums.ts:22 | the record built from an input has the given id and exactly the input's four fields |
| Catalog.Seed | album-api-v2/src/data/albums.ts:3-10 | six albums, numbered 1 to 6 in order |
| Catalog.MaxId | album-api-v2/src/data/albums.ts:21 | an id present in the list and no smaller than any other |
| Catalog.NextId | album-api-v2/src/data/albums.ts:21 | 1 for an empty list; otherwise one more than an id that is present, and larger than every id present |
| Catalog.SeedNextIdIsSeven | album-api-v2/src/data/albums.ts:3-10 | the seed has positive, unique ids and the first album created gets id 7 |
| Catalog.ReplaceKeepsWellFormed | album-api-v2/src/data/albums.ts:30-31 | replacing a slot by a record with the same id keeps ids positive and unique |
| Catalog.ReplaceThenFind | album-api-v2/src/data/albums.ts:30-31 | after such a replacement, reading the id gives the new record |
| Catalog.AppendThenFind | album-api-v2/src/data/albums.ts:22-23 | after appending an album whose id is new, reading that id gives the album |
| Catalog.AppendNextKeepsWellFormed | album-api-v2/src/data/albums.ts:21-23 | appending a record under the next id keeps ids positive and unique |
| Catalog.DeleteKeepsWellFormed | album-api-v2/src/data/albums.ts:37 | deleting keeps ids positive and unique |
| Catalog.DeleteTwice | album-api-v2/src/data/albums.ts:35-39 | a second delete of the same id leaves the list as it is and so reports that nothing was removed |
| Catalog.DeleteMaxThenAddReuses | album-api-v2/src/data/albums.ts:21 | after deleting the album with the largest id, the next id is no larger than the deleted one: ids are not a counter |
| Catalog.DeleteLastOfNumberedThenAddReuses | album-api-v2/src/data/albums.ts:21 | for every non-empty list numbered 1 to n such as the seed, deleting n and then creating gives id n again |
| Catalog.AlbumStore.constructor | album-api-v2/src/data/albums.ts:3-10 | the store starts as the seed, with positive unique ids |
| Catalog.AlbumStore.ListAlbums | album-api-v2/src/data/albums.ts:12-14 | the whole collection in insertion order |
| Catalog.AlbumStore.GetAlbum | album-api-v2/src/data/albums.ts:16-18 | the first album with the id, or absence exactly when there is none; changes nothing |
| Catalog.AlbumStore.AddAlbum | album-api-v2/src/data/albums.ts:20-25 | appends the input under an id larger than every existing one, returns that new last record, keeps earlier entries and unique ids |
| Catalog.AlbumStore.UpdateAlbum | album-api-v2/src/data/albums.ts:27-33 | an unknown id gives absence and no change; a known id replaces exactly the first slot with that id by the input under the same id |
| Catalog.AlbumStore.DeleteAlbum | album-api-v2/src/data/albums.ts:35-39 | the list becomes the filtered list; the result is true exactly when some album had the id |
| Catalog.CreateReadDeleteScenario | album-api-v2/tests/server.test.js:30-36 | on a fresh store: create gives id 7, reading 7 gives it, deleting 7 succeeds, then reading 7 gives absence |
| Server.TrimNonEmptyIffVisible | album-api-v2/src/server.ts:29 | a string is non-empty after trim exactly when it has a character that is not white space |
| Server.ValidateAlbumPayload | album-api-v2/src/server.ts:26-34 | true exactly when the body is an object whose title, artist and imageUrl are strings with a visible character and whose price is a number of at least zero |
| Server.PriceBoundary | album-api-v2/src/server.ts:31 | with the texts filled in, a body is accepted exactly when its price is not negative; price 0 is accepted |
| Server.BlankTextRefused | album-api-v2/src/server.ts:29-32 | whitespace-only, empty and non-string texts are refused, and so is the all-empty body with price -1 |
| Server.MissingPartsRefused | album-api-v2/src/server.ts:28-31 | a body without a price and a missing body are refused |
| Server.IdKeyIgnored | album-api-v2/src/server.ts:26-34 | validation does not look at a property named id |
| Server.ToInput | album-api-v2/src/server.ts:39 | the input handed to the store carries the body's four album properties |
| Server.ListRoute | album-api-v2/src/server.ts:14-16 | 200 with the whole collection |
| Server.GetRoute | album-api-v2/src/server.ts:18-24 | 400 for an unparsable id, 404 when no album has it, else 200 with the first album that has it |
| Server.PostRoute | album-api-v2/src/server.ts:36-41 | 400 and no change for an invalid body; else 201 with the album created under the next id |
| Server.PutRoute | album-api-v2/src/server.ts:43-51 | 400 for a bad id, then 400 for a bad body even for an unknown id, then 404 for an unknown id; only 200 changes the store, replacing the record under the same id |
| Server.DeleteRoute | album-api-v2/src/server.ts:53-59 | 400 for a bad id; 204 exactly when an album had the id, 404 and no change otherwise |
| Server.SpreadAsWritten | album-api-v2/src/data/albums.ts:22 | the object spread keeps every key of the body, including a body's own id, over the assigned id |
| Server.SpreadAsWrittenDuplicatesId | album-api-v2/src/data/albums.ts:22 | a valid body that also carries id 1 passes validation and is stored under id 1, not the assigned id, although an album with id 1 exists (seed album 1 on a fresh process) |
| Cart.CartStore.constructor | album-viewer/src/stores/cart.ts:9 | a new cart is empty and has logged nothing |
| Cart.CartStore.Count | album-viewer/src/stores/cart.ts:12 | the count is the length of the item list |
| Cart.CartStore.Has | album-viewer/src/stores/cart.ts:14-16 | true exactly when some item carries the id; reads only |
| Cart.CartStore.SaveToStorage | album-viewer/src/stores/cart.ts:36-42 | one write of the encoded list under the cart key; a failed write leaves the slot as it was, logs a diagnostic and returns normally with the items unchanged |
| Cart.CartStore.Add | album-viewer/src/stores/cart.ts:19-24 | a present id changes nothing and writes nothing; a new one is appended and saved; unique ids are kept |
| Cart.CartStore.Remove | album-viewer/src/stores/cart.ts:26-29 | the list becomes the filtered list in order, the id is gone, and the list is saved even when nothing was removed |
| Cart.CartStore.Clear | album-viewer/src/stores/cart.ts:31-34 | the list becomes empty and is saved |
| Cart.CartStore.LoadFromStorage | album-viewer/src/stores/cart.ts:44-57 | absent or empty slot and a non-array leave the list; an array is adopted unchecked; a parse error or a throwing read empties the list and logs; storage is not written |
| Cart.AddAddRemoveScenario | album-viewer/src/stores/__tests__/cart.test.ts:67-79 | adding two albums and removing the first leaves exactly the second, count 1 |
| Cart.ReloadScenario | album-viewer/src/stores/cart.ts:36-57 | with working storage and a codec that round-trips the one-album list written, a fresh cart that loads after another added an album holds exactly that album |

## Left out

- Express wiring, CORS, the JSON body parser, the hint text of `GET /` and `app.listen` with its environment reads: HTTP plumbing. A route handler receives the parsed id and the parsed body.
- `Number(req.params.id)` and `Number.isNaN`: the route id is `Option<int>`, `None` for NaN. Non-integer and infinite ids, which can match no album, are not represented.
- Prices are exact `real` numbers. Floating point is not modelled, and neither is a body price of `1e999`, which JSON parsing turns into `Infinity` and which passes the check.
- Server.ValidateAlbumPayload: property names are the five an album has plus an `OtherKey(name)` for any other, so an `OtherKey` that spells one of the five is a separate key here. A body that is a non-object truthy value, such as an array, counts as an object without those properties.
- `Math.max(...ids)` throws on a list too long for the call stack. That limit is not modelled.
- `listAlbums` returns the live array. Here it returns the list's value, so a caller cannot alias it.
- The `Album` type files of both applications are not part of this model. Both stores share one five-field record.
- `JSON.stringify` and `JSON.parse` are not written out; they are the injected codec. Cart.ReloadScenario rests on the precondition that the codec round-trips the list `[a]` it writes.
- Server.ToInput: the source hands the whole parsed body to `addAlbum` and `updateAlbum` (`album-api-v2/src/server.ts:39`, `:48`), and the spread copies every property of it. Server.PostRoute and Server.PutRoute keep only the four album properties, so an extra body property such as `genre` is stored, echoed in the 201/200 response and returned by later reads in the source, but not here.
- Ids are JavaScript numbers. Catalog.NextId is exact integer `max + 1`, whereas the source's `Math.max(...) + 1` (`album-api-v2/src/data/albums.ts:21`) stops being exact above 2^53, a case reachable only through a client-supplied id.
- Cart.CartStore.LoadFromStorage: the decoder's array case carries albums. An array of other JSON values, which the source adopts just as unchecked, is not represented.
- Pinia and Vue reactivity: `count` is a function of `items`.
- `console.error`: the text and the error object are not kept, only a `SaveFailed` or `LoadFailed` entry in the store's log.
- Several tabs writing the same storage key at once: the source does not handle it, so there is no concurrency model.
- UI components and end-to-end browser tests are not modelled. The internationalisation tables and the app bootstrap are not modelled either.

## Findings

| source | as written | input that shows it | evidently intended | confidence | as-written member | corrected member |
|---|---|---|---|---|---|---|
| album-api-v2/src/data/albums.ts:22 | `{ id, ...input }` spreads the whole request body after the assigned id, so a body property named id replaces it (the same happens at line 30 for updates) | on a fresh process, POST /albums with a valid body that also has "id": 1 stores a second album with id 1; PUT /albums/2 with "id": 9 moves album 2 to id 9 | the store-assigned or path id always wins, as the `Omit<Album, "id">` input type says; ids stay unique and update keeps the id | high; not executed | Server.SpreadAsWrittenDuplicatesId | Server.PostRoute |
