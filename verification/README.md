# Microservice gateway and record stores in Dafny

This project models the logic of a small microservice system: a user
service and a product service, each an in-memory record store behind a
REST interface, and an API gateway that proxies to them, joins their
answers and reports their health.

- **User store** (`UserStore`): the list of users plus the `nextId`
  counter. List, get, create, update and delete are pure transitions. Each
  returns the HTTP status, the JSON body and the next store state. The
  store invariant `Valid` says ids are pairwise distinct and below
  `nextId`, and emails are pairwise distinct. Every handler preserves it,
  over any request sequence, and ids are never handed out twice.
- **Product store** (`ProductStore`): the same shape, plus the
  case-insensitive category filter on the list, defaults on create, and
  field-by-field merging on update.
- **Gateway** (`Gateway`, `Health`): pure functions over abstract backend
  outcomes. A backend call is a `CallResult`: `Ok(body)`, or
  `Err(status?, body message?, axios message)`. A backend is a function
  from the URL's id segment to such an outcome. Each join returns its
  response together with the list of calls it issued. This is how "the
  second call is not made once the first fails" is stated.
- **Wiring** (`Wiring`): the gateway with the two store models plugged in
  as its backends. This gives the end-to-end facts: the owner's id is the
  product's `ownerId`, a user's products are exactly the stored products
  they own, and the dashboard totals are the store sizes.
- **Common** and **Numbers**: JavaScript behaviour the handlers rely on.
  This covers truthiness of optional fields (`""` and `0` are falsy),
  `find`/`findIndex`/`filter`, ASCII `toLowerCase`, and decimal printing
  and `parseInt` of ids. The gateway prints an id into a URL and the
  backend parses it back; `ParseShow` proves this round trip returns the
  same id, NaN included.

Ids from `parseInt(req.params.id)` are `ParsedInt = Int(v) | NaN`. A NaN
id matches no record, so the handlers answer, for example, "User with ID
NaN not found". This is also what happens when the gateway asks for the
owner of a product that has no `ownerId` (the URL segment is
`undefined`).

The model follows the code in these details:
- The health probes are two sequential awaits, not concurrent calls.
- A probe entry is `{status: 'UP', ...payload}`. A backend's own `status`
  field therefore overrides `'UP'`. `HealthyIffBothAnswer` states the
  HEALTHY-iff-both-UP rule for backends that report `UP`, as both
  services do. `OwnStatusWins` shows the other case.
- The gateway's proxies do not mirror the backend's success status. They
  always answer 200, or 201 for a create.
- The list proxies report axios' message as the error. The other proxies
  prefer the backend's `message` field.
- Product create rejects a price of 0 (`!price`), but update accepts
  one.
- Product create does not check stock, while update rejects a negative
  stock (`CreateAdmitsNegativeStock`). So non-negative stock is not a
  store invariant.

## Model

| member | source | states |
|---|---|---|
| Common.FindIndex | user-service/server.js:106 | the index returned is the first whose element matches; none is returned only when no element matches |
| Common.Filter | api-gateway/server.js:294 | every kept element is in the input and satisfies the predicate, and every input element satisfying it is kept |
| Common.FilterConcat | product-service/server.js:45-47 | filtering a concatenation is the concatenation of the filtered parts, so the kept elements stay in input order |
| Common.FilterExtremes | product-service/server.js:42-48 | a predicate all elements meet keeps the whole list, and one none meets keeps nothing |
| Common.LowerIdempotent | product-service/server.js:46 | lowercasing twice equals lowercasing once, so a category compared in lower case matches regardless of the case of either side |
| Numbers.ParseShow | product-service/server.js:59 | parsing the decimal text of a parsed id gives back the same id, NaN included, so the backend looks up the id the gateway printed into the URL |
| UserStore.List | user-service/server.js:38-44 | the list reply carries every user, `count` equals the number of users, and the store is unchanged |
| UserStore.Get | user-service/server.js:47-62 | 200 exactly when a user with that id exists, and the user returned has that id; otherwise 404 "User with ID n not found"; the store is unchanged |
| UserStore.Create | user-service/server.js:65-99 | 400 iff name or email is missing or empty, with "Name and email are required"; 409 iff both are given and the email is taken, with "User with this email already exists"; on 201, with "User created successfully", exactly one user is appended with id = old `nextId`, the given name and email, and role defaulting to "User", and `nextId` grows by one; a failure leaves the store unchanged |
| UserStore.Update | user-service/server.js:102-139 | 404 iff no user has the id, checked before the email; 409 only when a supplied email differs from the target's own and is held by someone, with "Email already in use"; on 200 the target keeps its id, each field is replaced only when supplied, and all other users and the counter are unchanged |
| UserStore.Delete | user-service/server.js:142-160 | 404 iff the id is absent, with the store unchanged; on 200 exactly the matching user is spliced out, the rest keep their order, and the deleted user is returned |
| UserStore.InitialValid | user-service/server.js:14-20 | the seed store has distinct ids below 4 and distinct emails |
| UserStore.CreatePreservesValid | user-service/server.js:77-92 | create keeps ids distinct and below `nextId` and keeps emails unique |
| UserStore.UpdatePreservesValid | user-service/server.js:115-132 | update keeps ids distinct and below `nextId` and keeps emails unique |
| UserStore.UpdateEmailConflict | user-service/server.js:115-124 | in a valid store, updating an existing user with a supplied email gives 409 iff another user holds that email; keeping one's own email is allowed |
| UserStore.DeletePreservesValid | user-service/server.js:153 | delete keeps ids distinct and below `nextId` and keeps emails unique |
| UserStore.DeleteRemovesExactly | user-service/server.js:144-153 | after a delete no user has the deleted id, and every user with another id is still present |
| UserStore.HandleCounter | user-service/server.js:86 | no request changes `nextId` except a successful create, which raises it by one |
| UserStore.ServeCounter | user-service/server.js:20 | after any request sequence, `nextId` has grown by exactly the number of ids handed out |
| UserStore.HandlePreservesValid | user-service/server.js:37-160 | every handler preserves the store invariant |
| UserStore.ServePreservesValid | user-service/server.js:37-160 | every request sequence preserves the store invariant |
| UserStore.IdsNeverReused | user-service/server.js:86 | the ids handed out over any request sequence are strictly increasing and not below the starting `nextId`, so an id is never reused after a delete |
| ProductStore.List | product-service/server.js:39-55 | without a non-empty category every product is returned; with one, exactly the products whose category equals it ignoring case, in store order (the `Filter` of the store); `count` equals the number returned; the store is unchanged |
| ProductStore.Get | product-service/server.js:58-73 | 200 exactly when a product with that id exists, and the product returned has that id; otherwise 404 "Product with ID n not found" |
| ProductStore.Create | product-service/server.js:78-112 | 400 iff the name is missing or empty, the price is missing or 0, or the price is negative; missing name or price gives "Name and price are required" and a negative price "Price cannot be negative"; on 201 one product is appended with id = old `nextId`, and category, stock and owner default to "General", 0 and 1; a failure leaves the store unchanged |
| ProductStore.Update | product-service/server.js:115-158 | 404 iff the id is absent, checked first; then 400 iff a supplied price or stock is negative, the price checked first ("Price cannot be negative", else "Stock cannot be negative"); on 200 only that product changes, keeping its id and every field not supplied |
| ProductStore.Delete | product-service/server.js:161-179 | 404 iff the id is absent, with the store unchanged; on 200 exactly the matching product is spliced out and the rest keep their order |
| ProductStore.InitialValid | product-service/server.js:14-21 | the seed store has distinct ids below 5 |
| ProductStore.CreatePreservesValid | product-service/server.js:96-105 | create keeps product ids distinct and below `nextId` |
| ProductStore.UpdatePreservesValid | product-service/server.js:144-151 | update keeps product ids distinct and below `nextId` |
| ProductStore.DeletePreservesValid | product-service/server.js:172 | delete keeps product ids distinct and below `nextId` |
| ProductStore.DeleteRemovesExactly | product-service/server.js:163-172 | after a delete no product has the deleted id, and every product with another id is still present |
| ProductStore.ListIgnoresCase | product-service/server.js:44-47 | listing by a category gives the same reply as listing by its lower-case form |
| ProductStore.CreateThenList | product-service/server.js:96-105 | after a successful create, each category listing is the old listing, followed by the new product when its category matches |
| ProductStore.CreateAdmitsNegativeStock | product-service/server.js:101-141 | create accepts and stores a stock of -5, while updating that same new product to stock -5 is refused with 400 "Stock cannot be negative" |
| Gateway.Proxy | api-gateway/server.js:56-240 | on success the backend body is relayed with 200, or 201 for a create; on failure the status is the backend's, or 500 without one, and the error is axios' message for lists and otherwise the backend's message when it has one |
| Gateway.ProxySuccessIffOk | api-gateway/server.js:59-62 | a proxy answers with a 2xx status exactly when its backend call succeeded |
| Gateway.ProductWithOwner | api-gateway/server.js:167-195 | the product is fetched by the parsed id; if that fails, only that one call is made and its status and message are propagated; otherwise the owner is fetched by the product's `ownerId`, and the reply is 200 with the product and that owner, or the owner call's failure |
| Gateway.UserWithProducts | api-gateway/server.js:284-313 | if the user call fails, the product list is not requested and that failure is propagated; a product-list failure is propagated; on success `products` holds exactly the listed products owned by the requested id, and `productCount` equals its length |
| Gateway.UserProductsIsOrderedFilter | api-gateway/server.js:293-294 | the owned products of a list split anywhere are the owned products of each part, concatenated, so list order is kept |
| Gateway.Dashboard | api-gateway/server.js:247-281 | both lists are always requested; the reply is 200 iff both succeed, with totals and summary equal to the backends' counts; otherwise 500, whatever status the backend gave, with the error message of the failed call (of the first rejected one when both fail) |
| Gateway.JoinsNeverSuppressFailure | api-gateway/server.js:187-192 | with well-formed backend outcomes, each join answers with a 2xx status only when it composed a successful reply, and the dashboard only when both calls succeeded |
| Health.Probe | api-gateway/server.js:320-325 | a probe that answers becomes an entry carrying its payload; any failure becomes a DOWN entry with axios' message |
| Health.CheckAll | api-gateway/server.js:316-343 | each entry is its own probe's outcome; the overall status is HEALTHY iff both entries are UP, otherwise DEGRADED; the HTTP code is 200 for HEALTHY and 503 otherwise |
| Health.HealthyIffBothAnswer | api-gateway/server.js:335-340 | with backends reporting UP, the reply is 200 HEALTHY iff both probes succeed and 503 DEGRADED otherwise, and a probe that succeeded still shows its full entry |
| Health.OwnStatusWins | api-gateway/server.js:322 | a backend that answers with its own non-UP status makes the reply 503 |
| Wiring.UserCall | user-service/server.js:47-62 | the user service as a backend: the call succeeds iff a user has the parsed id, returning that stored user; otherwise it fails with status 404, the service's not-found message and axios' "Request failed with status code 404" |
| Wiring.ProductCall | product-service/server.js:58-73 | the product service as a backend: the call succeeds iff a product has the parsed id, returning that stored product; otherwise it fails with status 404, the service's not-found message and axios' "Request failed with status code 404" |
| Wiring.WithOwnerMatchesOwner | api-gateway/server.js:172-184 | against the stores, a successful product-with-owner reply holds a stored product with the requested id, and an owner who is a stored user with id equal to the product's `ownerId` |
| Wiring.WithOwnerMissingProduct | api-gateway/server.js:187-192 | against the stores, an absent product id gives the product service's 404 and its message, with only the product call made |
| Wiring.WithOwner999 | product-service/server.js:62-67 | against the seed product store, product 999 gives 404 with "Product with ID 999 not found", and no owner call is made |
| Wiring.UserProductsFromStores | api-gateway/server.js:289-302 | against the stores, an existing user's products are exactly the stored products with that `ownerId`, in store order, and `productCount` is their number |
| Wiring.UserProductsExample | api-gateway/server.js:294 | with products owned by users 1 and 2, user 1's products are exactly the first product |
| Wiring.UserProductsMissingUser | api-gateway/server.js:305-310 | against the stores, a missing user gives the user service's 404 and its message, with only the user call made |
| Wiring.DashboardFromStores | api-gateway/server.js:249-268 | against the stores, the dashboard succeeds, and its totals and record lists are the stores' own |

## Left out

- Express setup, middleware, the logger, `app.listen`, the static `/` and `/health` bodies, the 404 fallback route and the generic error handler. These are framework wiring.
- axios itself: URL building from base URLs, query forwarding, timeouts and transport. Each backend call is an abstract `CallResult`, and the proxies take the outcome of their one call as a parameter.
- `Promise.all` concurrency in the dashboard. Both outcomes are parameters. When both calls fail, a `Settle` parameter says which rejection came first, because that one becomes the error.
- Timestamps (`new Date().toISOString()`) and the constant `gateway: 'UP'` field of the health reply.
- `parseFloat`/`parseInt` on body fields, and IEEE doubles. Prices are exact reals, and stock and owner ids are integers. `Numbers.ParseInt` models only decimal text with an optional sign. It does not model leading whitespace or a `0x` prefix, and the numbers printed in messages assume decimal notation (no exponent form).
- JSON values of an unexpected type in request bodies, for example a string `ownerId`, which `===` would never match. Fields are typed options. `""` counts as absent for strings. `0` counts as absent where the source uses `||` or `!`: price on create, and stock and owner defaults.
- `toLowerCase` beyond ASCII letters.
- Errors thrown inside a join's `try` by a malformed backend body (for example a missing `data` field), which the source would turn into 500. The model's bodies are typed, so these cannot occur.
- Health.HealthyIffBothAnswer: states HEALTHY iff both probes succeed only for backends whose payload status is absent or "UP", because a payload's own status overrides the gateway's literal (see `Health.OwnStatusWins`).
