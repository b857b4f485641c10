# Item API model

A Dafny model of the server-side item API of a demonstration CRUD server
(`server/api/my-custom-api.js`). The server keeps an ordered in-memory
collection of priced, categorised items (`customData`). Each handler
receives already-parsed request fields and answers with an HTTP status and
a JSON envelope (`{success:false, error}` or `{success:true, data, ...}`).

- `values.dfy` (module `JsValues`): the JavaScript values a request carries,
  their truthiness, and `parseInt` / `parseFloat` with NaN.
- `api.dfy` (module `Api`): items, request bodies, envelopes, responses, the
  response messages and the three items the store starts with.
- `validation.dfy` (module `Validation`): the `validateCustomData` middleware.
- `listing.dfy` (module `Listing`): the list handler. It is a chain of three
  `.filter` stages, related to a reference selection `Select`.
- `store.dfy` (module `Store`): the store as class `ItemStore`, with the
  handlers that change it (`Create`, `Update`, `Delete`) as methods. Also
  lemmas about ids.
- `external.dfy` (module `External`): the reshaping of fetched third-party
  posts. The result of the fetch is a parameter.

The store's `items` is a `seq<Item>` field that the methods reassign, just as
the handlers push onto, write into and splice the JavaScript array. The
list handler only reads the store, so it is a function of the store's value.
Wall-clock timestamps are a `now: string` parameter.

Facts about the code that the model keeps:

- **Ids.** A new id is the store's length plus one. The declared `nextId`
  counter is never read. Ids are distinct at least while nothing has been
  deleted (`DenseIds`). Deleting the last item keeps them dense
  (`DeleteLastKeepsIdsDense`). Deleting any other item makes the next create
  repeat the largest id in use (`DeleteBeforeLastRepeatsId`); on the initial
  store, `DeleteThenCreateRepeatsId` ends with two items with id 3.
- **Validation.** The create handler does not call the validation
  middleware. It does its own truthiness check only, so a non-numeric price
  string is accepted and stored as the result of `parseFloat`.
- **Throwing prices.** `parseFloat` converts an object to a string first,
  and that conversion can throw. Create then answers 500 before anything is
  pushed. Update answers 500 after the name has already been written into
  the item, and the written name stays in the store.
- **Five entries.** The aggregator does not keep only five posts itself; the
  remote endpoint limits them.

## Model

| member | source | states |
|---|---|---|
| JsValues.ParseFloat | server/api/my-custom-api.js:82 | throws exactly for an object or array whose string conversion throws; a JSON number is kept as it is; a string, or an object or array through its text, is read as parseInt reads it; `undefined`, `null` and booleans give NaN |
| JsValues.ParseInt | server/api/my-custom-api.js:110 | a number is read only from a string holding a digit, and a negative one only from a string carrying a minus sign |
| JsValues.DecimalRoundTrip | server/api/my-custom-api.js:110 | parseInt reads back exactly the integer that decimal notation writes, so an id written in a path denotes that id |
| JsValues.TrailingTextIgnored | server/api/my-custom-api.js:43 | parseInt stops at the first non-digit: digits followed by other text read as the digits' value |
| JsValues.NoDigitsIsNaN | server/api/my-custom-api.js:46 | a bound that does not start with a sign, a space or a digit parses to NaN |
| Validation.Validate | server/api/my-custom-api.js:17-26 | passes exactly the bodies with a non-empty string name and category and a non-zero numeric price; every rejection is 400; the "missing fields" message is given exactly when some field is falsy, otherwise the "invalid types" message |
| Validation.FalsyFieldIsMissing | server/api/my-custom-api.js:19-20 | price 0 or an empty name or category counts as a missing field |
| Validation.WrongTypeIsInvalid | server/api/my-custom-api.js:22-23 | a truthy price that is not a number, such as a numeric string, is rejected as an invalid type |
| Listing.Keep | server/api/my-custom-api.js:38 | one filter stage never lengthens the sequence |
| Listing.KeepIncluded | server/api/my-custom-api.js:38 | every item a filter stage keeps is in its input and satisfies the stage's test |
| Listing.Chain | server/api/my-custom-api.js:34-47 | the three filter stages never lengthen the store and keep only items of the store |
| Listing.List | server/api/my-custom-api.js:29-54 | always answers 200 with the list envelope and its message; `total` is the length of `data`, which is never longer than the store; every listed item comes from the store |
| Listing.Select | server/api/my-custom-api.js:34-47 | reference selection in store order; never longer than the store |
| Listing.SelectMembership | server/api/my-custom-api.js:34-47 | an item is selected exactly when it is in the store and satisfies every given filter; when no item matches, nothing is selected |
| Listing.SelectConcat | server/api/my-custom-api.js:34-47 | selection keeps store order: selecting from two parts and concatenating is selecting from the whole |
| Listing.KeepConcat | server/api/my-custom-api.js:38 | one `.filter` stage keeps order: filtering two parts and concatenating is filtering the whole |
| Listing.ListSelectsMatching | server/api/my-custom-api.js:34-52 | the three filter stages return exactly `Select(store, q)`, the items satisfying every given filter in store order, and `total` is its length |
| Listing.NoFilterListsEverything | server/api/my-custom-api.js:34-52 | with no truthy filter the whole store is listed, in order |
| Listing.MinBoundInclusive | server/api/my-custom-api.js:42-43 | the minimum bound is inclusive: an item of the store priced exactly at it and passing the other given filters is listed |
| Listing.MaxBoundInclusive | server/api/my-custom-api.js:45-46 | the maximum bound is inclusive: an item of the store priced exactly at it and passing the other given filters is listed |
| Listing.MalformedBoundListsNothing | server/api/my-custom-api.js:42-47 | a given bound that parses to NaN empties the listing |
| Listing.UnknownCategoryListsNothing | server/api/my-custom-api.js:37-54 | a category no item has gives success with empty data and total 0 |
| Listing.MinPriceExample | server/api/my-custom-api.js:42-52 | on the initial store, a `minPrice` that parseInt reads as 150 lists items 2 and 3 with total 2 |
| Listing.ParseMinPrice | server/api/my-custom-api.js:43 | the query text "150" reads as 150 |
| Store.FirstIndex | server/api/my-custom-api.js:110 | `findIndex`: none exactly when no id equals the key; otherwise a matching position before which no id matches |
| Store.Complete | server/api/my-custom-api.js:71 | a body passes only when no field is absent, the price is not 0 and the name and category are not empty |
| Store.Patch | server/api/my-custom-api.js:119-123 | it is cut short exactly when a truthy price fails to convert, and then only the name has been written; otherwise each of name, price (through parseFloat) and category is overwritten exactly when the request value is truthy and `updatedAt` is the request time; the id and creation stamp always stay |
| Store.ItemStore.constructor | server/api/my-custom-api.js:9-13 | the store starts with the three initial items |
| Store.ItemStore.Create | server/api/my-custom-api.js:66-100 | a falsy field gives 400 and leaves the store unchanged; a price whose conversion throws gives 500 and leaves the store unchanged; otherwise 201 with the new item appended after the unchanged old items, with id the old length plus one, the given fields, price through parseFloat and a creation stamp |
| Store.ItemStore.Update | server/api/my-custom-api.js:105-136 | an id no item has gives 404 and leaves the store unchanged; otherwise only the first matching item is patched and every other item stays; a completed patch answers 200 with the patched item, an interrupted one answers 500 and leaves the name written |
| Store.ItemStore.Delete | server/api/my-custom-api.js:141-159 | an id no item has gives 404 and leaves the store unchanged; otherwise the first matching item is spliced out and returned with 200 |
| Store.ValidatedBodyIsCreated | server/api/my-custom-api.js:71-82 | a body the validator passes also passes the create handler's own check, and its price is stored unchanged |
| Store.PriceOnlyUpdate | server/api/my-custom-api.js:120-123 | an update carrying only a price changes the price and `updatedAt` and nothing else |
| Store.RemovalIsExact | server/api/my-custom-api.js:154 | the new store and the removed item together are the old store, one item shorter |
| Store.InitialIdsAreDense | server/api/my-custom-api.js:9-13 | in the initial store each id is its position plus one |
| Store.DenseIdsAreUnique | server/api/my-custom-api.js:80 | while ids are position plus one, they are distinct |
| Store.DenseLookup | server/api/my-custom-api.js:110 | while ids are position plus one, id k is found at position k - 1 and any other key is not found |
| Store.CreateKeepsIdsDense | server/api/my-custom-api.js:80 | appending with the length-based id keeps ids equal to position plus one |
| Store.UpdateKeepsIdsDense | server/api/my-custom-api.js:120-123 | an update keeps every id, so ids stay position plus one |
| Store.DeleteRemovesUniqueKey | server/api/my-custom-api.js:145-154 | with distinct ids, no item with the deleted key remains |
| Store.DeleteLastKeepsIdsDense | server/api/my-custom-api.js:154 | deleting the last item keeps ids equal to position plus one |
| Store.DeleteBeforeLastRepeatsId | server/api/my-custom-api.js:80 | after deleting any item but the last from a store with ids position plus one, the next created item repeats an id in use |
| Store.DeleteThenCreateRepeatsId | server/api/my-custom-api.js:80 | deleting item 1 from the initial store through a path id read as 1, then creating a valid item, leaves ids 2, 3, 3: the length-based id can repeat an id in use |
| Store.PathOneIsIdOne | server/api/my-custom-api.js:145 | the path id "1" reads as 1 |
| External.Shorten | server/api/my-custom-api.js:184 | content is the first min(100, length) characters of the body followed by "..."; a body of at most 100 characters is kept whole |
| External.ReshapeAll | server/api/my-custom-api.js:181-186 | one record per post in order, with id and title passed through, shortened content and source "external-api" |
| External.ReshapeAllConcat | server/api/my-custom-api.js:181-186 | the map works post by post: reshaping a joined batch is joining the reshaped batches |
| External.ExternalData | server/api/my-custom-api.js:172-199 | a failed fetch gives 500 with the generic error; otherwise 200 with one reshaped record per fetched post |

## Left out

- The React page `src/containers/MyCustomPage/MyCustomPage.js` is not part of this model: it is UI state, rendering and browser fetches.
- The outbound fetch and JSON decoding in `getExternalData` are network I/O. Their outcome is the parameter of `ExternalData`. The `_limit=5` truncation happens at the remote server.
- `new Date().toISOString()` is the wall clock; it is the `now` parameter.
- `console.error` in the `try/catch` paths. The 500 answers of create and update are modelled for a price whose conversion throws. Nothing else in the modelled logic throws, so the 500 paths of the list and delete handlers are not modelled.
- Express routing, `req`/`res` and how the validation middleware is attached to routes are not shown. The middleware and the create handler are modelled separately; `ValidatedBodyIsCreated` relates them.
- Query parameters that Express would turn into arrays (a repeated parameter) are not modelled; each parameter is an optional string.
- JsValues.ParseFloat: reads a string as `parseInt` does, so a fraction, an exponent or `Infinity` in a price string is not modelled. A JSON number is an integer in the model, so fractional prices are left out. An object or array is read through its string conversion, which the model takes as given rather than computing it.
- Numbers are unbounded integers, not IEEE-754 doubles. Rounding beyond 2^53 is not modelled: `?minPrice=9007199254740993` parses to 9007199254740992 in JavaScript and so lists an item priced 9007199254740992, which the model does not list.
- JsValues.ParseInt: only ASCII space, tab, newline and carriage return are skipped. The `0x` hexadecimal prefix that `parseInt` accepts without a radix is not modelled.
- External.Shorten: counts characters as code points, where JavaScript's `substring` counts UTF-16 code units.
- A post whose `body` is not a string makes `substring` throw and yields 500. Posts in the model always have a string body, a string title and an integer id; the source passes any JSON `id` and `title` through unchanged, and that is not modelled.
- Items are values. The update handler mutates the item object in place, but no other reference to that object is observable after the response is serialised.
- `nextId` is declared and never read, so the store class has no counter field.
