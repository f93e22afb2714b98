# Tiered inventory views of a Cloudflare Worker, in Dafny

This project models the request handler of a small Cloudflare Worker (`index.js`) that
serves an inventory list kept under the key `"items"` in a KV store. A shared secret in
the `pw` query parameter is classified into an access level from 0 to 3. The level
decides how much of each stored item the `/api/inventory` view shows. `/api/public`
shows only the SKUs, to anyone.

The handler is a pure decision function around its HTTP plumbing, and the model keeps
that form: datatypes, functions and lemmas, with no state and no loops.

- `wrappers.dfy`, module `Wrappers`: the `Option` datatype.
- `js_values.dfy`, module `JsValues`: the JavaScript values that item properties can
  hold, JavaScript truthiness, and the two defaulting operators the handler uses. `||`
  replaces any falsy value. `??` replaces only `null` and `undefined`.
- `access.dfy`, module `Access`: the level classifier. It is the chain
  ADMIN → L3 → L2 → L1 of exact string comparisons, guarded so that an empty credential
  never matches. Its contract says the result is the highest level whose configured,
  non-empty secret equals the credential, and 0 when there is none.
- `views.dfy`, module `Views`: the public SKU list, the per-item projection and the
  projection of the whole list. `SerializedKeys` gives the property names
  `JSON.stringify` would write for a record; it leaves out properties whose value is
  `undefined`. `FieldsAt` gives the fields each level is meant to show. The projection is
  proved to write exactly `FieldsAt(level)` for every stored item, whatever the stored
  item holds.
- `store.dfy`, module `Store`: the stored item shape `Item` and reading the list. The
  value the store returned is an input
  (`Option<string>`). `JSON.parse` is a parameter `Parser`, and the only thing required of
  it is that it reads `"[]"` as the empty list.
- `worker.dfy`, module `Worker`: dispatch and end-to-end properties. OPTIONS
  short-circuits. After that come the public path, the inventory path with its 401, and
  the usage text. The module ends with worked examples.

Because `Handle` is a function of the request, the secrets and the stored text, repeating
a request against an unchanged store gives the same response by construction.

Two details of the code that the model keeps:

- Only `OPTIONS` is special-cased (`index.js:28`). Any other method, `POST` and `PUT`
  included, is routed exactly like `GET`, and `Handle` does the same.
- The sample stored item in the comment at `index.js:46` spells the field
  `leadTimeWeeks`, and it has no `stockRange`. The projection reads `leadTime` and
  `stockRange`, so that item is shown with the defaults `"0"` and `""`.
  `Worker.CommentShapeExample` states this.

## Model

| member | source | states |
|---|---|---|
| `JsValues.Or` | index.js:69-71 | JavaScript's logical or (`a OR b`) returns one of its operands: a truthy left operand is kept, and the result is truthy exactly when either operand is |
| `JsValues.Coalesce` | index.js:73 | nullish coalescing (`a ?? b`) returns one of its operands: a left operand other than null or undefined is kept, and the result is nullish only when both operands are |
| `JsValues.OrVersusCoalesce` | index.js:73-74 | the two operators agree on truthy and on nullish left operands, and differ exactly on `false`, `0` and `""`: `??` keeps these and logical or replaces them |
| `Access.Classify` | index.js:33-39 | the level is the highest one some non-empty configured secret equal to the credential grants, and 0 exactly when none does; an absent or empty credential gives 0; an unset or empty secret never admits anyone at its level |
| `Access.PriorityOrder` | index.js:35-38 | the first match wins: the admin or L3 secret gives 3 whatever the other secrets are; L2 gives 2 unless a higher secret also matches; L1 gives 1 only when no earlier secret matches |
| `Access.UnsetSecretIsEmpty` | index.js:35-38 | for each of the four secrets, leaving it unset and setting it to `""` classify every credential alike |
| `Views.PublicSkus` | index.js:52 | the public list holds only truthy SKUs, each one the SKU of some item; every truthy SKU appears in it; it is never longer than the item list |
| `Views.PublicSkusAppend` | index.js:52 | the public list keeps item order: the list of a concatenation is the concatenation of the lists |
| `Views.PublicSkusSingle` | index.js:52 | a single item contributes its SKU exactly when the SKU is truthy |
| `Views.View` | index.js:68-75 | `sku` and `leadTime` default to `""` and `stockRange` to `"0"` when falsy, otherwise they are kept; `minLot` appears from level 2 and is null only for a null or absent value, so 0 is kept; `updatedAt` appears at level 3 and is null exactly when falsy; the serialized record has exactly the fields of its level |
| `Views.FieldsMonotone` | index.js:73-74 | field visibility grows with the level: level 1 shows sku, stockRange and leadTime, level 2 adds exactly minLot, level 3 adds exactly updatedAt |
| `Views.ProjectAll` | index.js:67-76 | the inventory view has one record per item, in item order, the i-th built from the i-th item, each with exactly the fields of the level |
| `Store.ReadItems` | index.js:47-49 | a missing value or an empty stored text reads as the empty list; content that does not parse reads as the empty list; otherwise the list is what the stored text parses to |
| `Worker.Handle` | index.js:28-82 | OPTIONS answers 204 whatever the path; the public path answers 200 with the public list; the inventory path answers 401 `{error: "Unauthorized"}` at level 0 and 200 `{level, items}` otherwise; every other path answers 200 with the usage text; inventory records go out only to a credential that matches a configured secret |
| `Worker.UnauthorizedIgnoresStore` | index.js:57-58 | a level-0 inventory request gets the same 401 whatever the store holds and however it parses |
| `Worker.OptionsIgnoresEverything` | index.js:28-30 | every OPTIONS request gets the same response, whatever its path, credential, the secrets or the store |
| `Worker.PublicIgnoresCredential` | index.js:44-53 | the public response does not depend on the credential or the secrets |
| `Worker.StoreFallback` | index.js:60-62 | with a missing or unparsable store, the public path answers `{skus: []}` and an authorised inventory request answers `{level, items: []}` |
| `Worker.FullItemRecords` | index.js:67-76 | a fully populated item is shown with three fields at level 1, with `minLot` 50 added at level 2, and with `updatedAt` added at level 3 |
| `Worker.ExampleLevels` | index.js:33-39 | with four distinct secrets, each secret gives its own level, and a wrong or missing credential gives 0 |
| `Worker.FullItemExample` | index.js:44-78 | for a store holding one full item: the public path lists its SKU; the admin secret and each level's secret get their level and the item's record at it; a wrong or missing credential gets 401 |
| `Worker.CommentShapeExample` | index.js:46 | an item stored in the commented shape, with `leadTimeWeeks` and no `stockRange`, is shown at level 3 with `stockRange` "0", `leadTime` "", `minLot` 50 and `updatedAt` null |

## Left out

- Building `Response` and `URL` objects, the header values (content type, `cache-control`,
  CORS) and the exact bytes of `JSON.stringify(…, null, 2)`. These are platform library
  calls. A response is modelled as a status and a body variant.
- Query-string decoding by `url.searchParams.get`. The `pw` value arrives already decoded,
  as `Option<string>`.
- The asynchronous KV read `env.INVENTORY_KV?.get("items")`. Its outcome is the input
  `stored`, with `None` for a missing binding or a missing key. A read that rejects makes
  the request fail; that is not modelled.
- `JSON.parse` itself. It is the parameter `Parser`. Its result type describes only arrays
  of items. Stored JSON that is not an array, or an array with a `null` element, makes
  the code throw (in `map`, or on reading a property of `null`). The code does not handle
  these cases, and the model does not describe them. An element that is a number, a
  string or a boolean does not throw: every property read on it gives `undefined`, so it
  acts like `Item(Undefined, Undefined, Undefined, Undefined, Undefined)`, which a
  `Parser` can return.
- Item properties the handler never reads. Neither view looks at them, so `Item` does not
  hold them.
- Property values that are objects or arrays, and the numbers `NaN` and `-0`. `Value`
  does not include them. All objects and arrays are truthy, and `NaN` and `-0` are falsy.
- Timing-safe comparison and rate limiting. The code does neither.
