# Products CRUD service: a Dafny model

This is a model of the in-memory product service: the `products` array of
`routes/products.js`, the route handlers that read and change it, the
`validateProduct` field validator, the typed-error handlers of `errors.js` with
their `NotFoundError` and `ValidationError` kinds, and the API-key gate.

A product record has a generated `id` and five fields taken from the request
body: `name`, `description`, `price`, `category` and `inStock`. The plain
handlers do not validate the body, so a stored field can hold any JSON value.
The model therefore gives each field the type `Values.Value`:
`Undefined | Null | Bool | Num | Str | Obj`. JavaScript's truthiness,
`String(v)`, ASCII lower-casing and `includes` are written out over it.

Layout, one module per file:

- `values.dfy` (`Values`): the JSON values, `Option`, the order-keeping subsequence relation, and the JavaScript semantic helpers.
- `errors.dfy` (`Errors`): the two error classes.
- `http.dfy` (`Http`): `Reply`, which says what a handler does. It can send JSON with a status, send text with a status, send 204, send the validator's 400, call `next(error)`, or throw a `TypeError`.
- `catalog.dfy` (`Catalog`): records, bodies, `find`/`findIndex`, and the unique-id invariant.
- `validation.dfy` (`Validation`): the `validateProduct` chain.
- `listing.dfy` (`Listing`): the read handlers. These are the three GET `/` variants, search and stats.
- `routes.dfy` (`Routes`): GET `/:id`, POST, PUT and DELETE of `routes/products.js`, plus the `ProductStore` class that holds the array.
- `typed_routes.dfy` (`TypedRoutes`): the `errors.js` handlers, which work on the same store.
- `access.dfy` (`Access`): the `x-api-key` comparison.

Each handler that changes the store has two parts:

- A pure function from the old records to an `Outcome(reply, after)`. Its contract says which record is added, changed or removed, and that nothing else changes.
- A method on `ProductStore` (or one taking the store) that changes `products` in place, as `push`, `Object.assign` and `splice` do. Its `ensures` ties its reply and the new array to that function.

Every method also keeps the invariant that ids are unique.

Points where the code behaves differently from a conventional CRUD design; the model follows the code:

- The `POST /` of `routes/products.js` stores the body without any validation.
- `validateProduct` is declared after `module.exports` and is used only by `errors.js`.
- Typed errors are handed to `next`. The only error middleware, in `server.js`, answers 500 whatever the error. No part of the code maps `NotFoundError` to 404 or `ValidationError` to 400.

## Model

| member | source | states |
|---|---|---|
| Errors.ErrorKinds | errors.js:1-13 | the two error kinds are distinct values; each keeps its message; their `name`s are the fixed, different strings "NotFoundError" and "ValidationError" |
| Catalog.FindIndex | routes/products.js:39 | the result is -1 exactly when no record has the id; otherwise it is the index of the first record with that id |
| Catalog.Find | routes/products.js:14 | the result is absent exactly when no record has the id; otherwise it is a stored record with that id, and no earlier record has it |
| Catalog.FindUnique | routes/products.js:14 | when ids are unique, looking up a record's id finds that record at its own index |
| Routes.GetById | routes/products.js:13-17 | 404 "Product not found" when no record has the id; otherwise 200 with the first matching record |
| Routes.Created | routes/products.js:20-25 | the store grows by exactly one record, at the end; earlier records are unchanged and keep their positions; the new record has the given id and the body's five fields; the reply is 201 with it |
| Routes.Updated | routes/products.js:28-35 | 404 with the store unchanged when the id is absent; otherwise the first matching record gets the body's five fields (all five, even undefined ones) and keeps its id and position; every other record is unchanged; the reply is 200 with the updated record |
| Routes.Spliced | routes/products.js:41 | removing index i shortens the store by one; records before i stay put and later ones shift down by one; the multiset loses exactly that record; the rest keep their order |
| Routes.Deleted | routes/products.js:38-43 | 404 with the store unchanged when the id is absent; otherwise 204 and exactly the first matching record is removed |
| Routes.CreatedKeepsIdsUnique | routes/products.js:22-23 | appending a record with a fresh id keeps ids unique |
| Routes.UpdatedKeepsIdsUnique | routes/products.js:32-33 | an update keeps ids unique |
| Routes.DeletedKeepsIdsUnique | routes/products.js:39-41 | a delete keeps ids unique |
| Routes.CreateThenGet | routes/products.js:13-24 | fetching a just-created id returns 200 with the record holding the id and the body's fields |
| Routes.UpdateThenGet | routes/products.js:13-34 | after an update of a present id, fetching it returns the record with the same id and the new fields |
| Routes.DeleteRemovesId | routes/products.js:38-43 | when ids are unique, the id is absent after a delete |
| Routes.DeleteTwice | routes/products.js:38-43 | deleting a present id answers 204; deleting it again answers 404 and leaves the store unchanged |
| Routes.ProductStore.constructor | routes/products.js:5 | the store starts empty, with unique ids |
| Routes.ProductStore.Post | routes/products.js:20-25 | pushes the new record in place; the reply and the new array are those of `Created` |
| Routes.ProductStore.Put | routes/products.js:28-35 | overwrites the found record in place; the reply and the new array are those of `Updated` |
| Routes.ProductStore.Delete | routes/products.js:38-43 | splices the found record out in place; the reply and the new array are those of `Deleted` |
| Listing.ListAll | routes/products.js:8-10 | GET `/` answers 200 with every record of the store, in store order |
| Listing.Filter | routes/products.js:76 | the result is a subsequence of the input, so store order is kept; it holds exactly the elements the callback accepts, each as many times as in the input |
| Listing.ByCategory | routes/products.js:69 | with no category or an empty one, all records; otherwise exactly the records whose category equals the query string, in store order, with multiplicities kept |
| Listing.ListByCategory | routes/products.js:67-71 | responds 200 with the category-filtered records |
| Listing.UnfilteredListing | routes/products.js:8-10 | a missing or empty category gives the same reply as the plain listing of all records |
| Listing.CategoryOfAll | routes/products.js:67-71 | when every record has the requested (non-empty) category, the filtered listing is the plain listing of all records |
| Listing.Slice | routes/products.js:79 | `slice(start, end)` normalises each index (a negative one counts from the end, then it is clamped to the length) and gives the items from the normalised start up to the normalised end, or nothing when the end is not past the start |
| Listing.SliceWindow | routes/products.js:79 | `slice(start, start + limit)` has at most `limit` items; it is empty from the end on; otherwise it has `min(limit, n - start)` items, and item i is `f[start + i]` |
| Listing.Page | routes/products.js:77-79 | for page ≥ 1 and limit ≥ 0: at most `limit` items; empty when `(page-1)*limit` is past the end; otherwise `min(limit, n - start)` items, and item i is the record at offset `(page-1)*limit + i` |
| Listing.ListPage | routes/products.js:74-81 | responds 200 with the page of the category-filtered records; page and limit default to 1 and 10 |
| Listing.DefaultPage | routes/products.js:75 | with no query parameters the listing is the first ten records |
| Listing.SecondPageOfFifteen | routes/products.js:74-81 | with 15 records in a category, page 2 with limit 10 gives the records at offsets 10 to 14 |
| Listing.Search | routes/products.js:84-91 | 400 "Query parameter is required" for a missing or empty query; a `TypeError` when some record's name is not a string; otherwise 200 with exactly the records whose lower-cased name contains the lower-cased query, in store order, with multiplicities kept |
| Listing.SearchIgnoresQueryCase | routes/products.js:89 | searching for `q` and for its lower-cased form gives the same reply |
| Listing.WidgetFoundByWid | routes/products.js:84-91 | in any store whose names are all strings, a record named "Widget" is among the results of the query "wid" |
| Values.Lower | routes/products.js:89 | lower-casing keeps the length and maps each character on its own |
| Values.Includes | routes/products.js:89 | `s.includes(sub)` holds exactly when `sub` occurs in `s` at some offset |
| Listing.Tally | routes/products.js:95-98 | the `reduce` from `{}`, folded from the left; every key it holds has a count of at least 1 and at most the number of records |
| Listing.TallyCounts | routes/products.js:95-98 | the keys of the statistics are exactly the category keys present in the store; each key maps to the number of records with that key, which is at least 1 |
| Listing.TallyTotal | routes/products.js:95-98 | the counts of the statistics add up to the number of records |
| Listing.GetStats | routes/products.js:94-100 | the accumulator loop answers 200 with a map; its keys are the categories present, each count is that category's record count, and the counts sum to the store size |
| Listing.TwoCategories | routes/products.js:95-98 | records in categories A, A and B give { A: 2, B: 1 } |
| Validation.ValidationErrors | routes/products.js:49-56 | the error list is empty exactly when all eight checks pass; it reports a check's entry exactly when that check fails; it has at most eight entries |
| Validation.ValidateProduct | routes/products.js:55-61 | calls `next` exactly when every check passes; otherwise responds 400 with the non-empty list of collected errors |
| Validation.NumbersAreNumeric | routes/products.js:52 | every integer below 10^21 in magnitude, which `String` writes in plain digits, passes the price check |
| Validation.EmptyBodyFailsEveryCheck | routes/products.js:49-54 | a body with every field missing fails all eight checks, and they are reported in chain order |
| Validation.TextPriceRejected | routes/products.js:52 | a price given as any text that does not match the numeric pattern is refused, and "Price must be a number" is among the errors |
| TypedRoutes.DataValid | errors.js:30 | the hand-written check of lines 30 and 46: a body whose `inStock` is not a boolean is refused; a body it accepts also passes `notEmpty` on name, description, price and category and `isBoolean` on inStock |
| TypedRoutes.TypedGet | errors.js:20-26 | `next(NotFoundError('Product not found'))` when no record has the id; otherwise 200 with the first matching record |
| TypedRoutes.TypedCreated | errors.js:28-36 | `next(ValidationError('Invalid product data'))` with the store unchanged when name, description, price or category is falsy, or inStock is not a boolean; otherwise exactly one record with the given id and fields is appended, with 201 |
| TypedRoutes.TypedUpdated | errors.js:39-52 | an absent id gives `NotFoundError` with the store unchanged, whatever the data; a present id with invalid data gives `ValidationError` with the store unchanged; otherwise the first matching record gets the five fields and keeps its id, and all other records are unchanged |
| TypedRoutes.TypedDeleted | errors.js:54-61 | `NotFoundError` with the store unchanged for an absent id; otherwise 204 and exactly the first matching record is removed, the rest keeping their order |
| TypedRoutes.TypedAgreesWithPlain | errors.js:28-61 | where the typed handlers succeed, they produce the same store as the plain handlers of routes/products.js |
| TypedRoutes.ValidatedCreated | errors.js:28 | the POST route refuses a body failing `validateProduct` with its 400 and the store unchanged; otherwise the handler runs |
| TypedRoutes.ValidatedUpdated | errors.js:39 | the PUT route refuses a body failing `validateProduct` with its 400 and the store unchanged; otherwise the handler runs |
| TypedRoutes.ValidatorRunsBeforeLookup | errors.js:39-43 | within the PUT handler the lookup comes first (an absent id is `NotFoundError`); on the whole route, though, invalid fields give the validator's 400 even for an absent id |
| TypedRoutes.ZeroPriceRefused | errors.js:30 | a price of 0 passes `validateProduct` but is falsy, so POST answers `ValidationError` and inserts nothing |
| TypedRoutes.TextInStockRefused | errors.js:30 | with every other field valid, `inStock: "true"` passes `isBoolean()` but is not a boolean, so POST answers `ValidationError` and inserts nothing, while the same body with `inStock: true` is created |
| TypedRoutes.Post | errors.js:28-36 | checks the data and pushes in place; the reply and the new array are those of `TypedCreated` |
| TypedRoutes.Put | errors.js:39-52 | looks up, checks the data and assigns in place; the reply and the new array are those of `TypedUpdated` |
| TypedRoutes.Delete | errors.js:54-61 | splices in place; the reply and the new array are those of `TypedDeleted` |
| Access.Authenticate | middleware/auth.js:1-7 | a refused request gets 403 "Forbidden: Invalid API Key" |
| Access.AdmitsExactlyTheKey | middleware/auth.js:3 | with a configured key, a request is admitted exactly when its header equals that key |
| Access.UnsetKeyAdmitsMissingHeader | middleware/auth.js:3 | with no key configured, a request without the header is admitted, and any request that has the header is refused |

## Left out

- `server.js` is not part of this model. It covers the Express bootstrap, the logger, body parsing, the greeting route and the console-logging 500 handler; those are I/O plumbing. The gate is modelled only as a decision; how it is chained before the router is not.
- Express dispatch is not modelled. Several handlers are registered for one path, and `errors.js` is never loaded. `errors.js` uses `router`, `products`, `validateProduct` and `uuidv4` without defining them; the model takes them to be the bindings of `routes/products.js`, so its handlers work on the same store. Each handler is modelled as its own operation, and the model does not say which one Express would run.
- `uuidv4()` is an outside library. The fresh id is a parameter, and the store methods require that no record already has it.
- The `asyncHandler` wrapper and the promise-wrapped handlers (errors.js:64-82) are async plumbing around the same logic as the synchronous handlers.
- Numbers are integers. Fractions, `NaN`, `Infinity` and `-0` are not modelled, so neither is their truthiness or their conversion to text.
- Values.JsString: integers are kept exact and always written in plain digits. JavaScript rounds integers above 2^53 to the nearest double and writes magnitudes from 10^21 on in exponent form ("1e+21"), which fails `isNumeric` and gives a different stats key; for such numbers `Validation.IsNumeric` and `Listing.CategoryKey` differ from the program, and `Validation.NumbersAreNumeric` is stated only below 10^21.
- JSON arrays are not among the modelled values. `Obj` stands for a plain object.
- Listing.GetStats: an object's own keys are not modelled, so `Obj` always converts to "[object Object]". A category object whose own `toString` and `valueOf` do not yield a primitive (for example `{"toString": 1}`, storable through the unvalidated `POST /`) makes `acc[product.category]` throw a `TypeError` in the program, while the model answers 200. The same conversion inside express-validator and `Values.JsString` is not modelled either.
- Query parameters are modelled as already-parsed values. `page` and `limit` are integers, and `category` and `query` are optional strings. JavaScript's string-to-number coercion and repeated query keys (which yield arrays) are left out.
- The express-validator checks are written out as the library documents them, since its code is not part of this model:
  - `isString` means the value is a string.
  - `notEmpty` means the checked text is not "", where `undefined` and `null` count as "".
  - `isNumeric` means the text matches `^[+-]?([0-9]*[.])?[0-9]+$`.
  - `isBoolean` means the text is one of "true", "false", "1" or "0".
  - An error entry keeps only `path` and `msg`. The entry's `type`, `value` and `location` fields are dropped.
- `toLowerCase` is ASCII-only.
- Stats keys that name properties inherited from `Object.prototype` are not modelled. Examples are `__proto__`, `toString` and `constructor`. JavaScript mishandles them in the `{}` accumulator, and the model treats the accumulator as an empty map. The key order of the JSON object is not modelled either.
- Records are values, not shared objects. Aliasing between the array and the record that `Object.assign` updates has no effect here, because each request does a fresh lookup.
- JSON serialisation of replies is not modelled, for example that fields holding `undefined` are omitted.
- Listing.Page: a property is proved only for page ≥ 1 and limit ≥ 0. Other values still give the JavaScript `slice` result (for example, page -1 counts from the end), but no lemma is stated about them.
