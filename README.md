# laptop-zone-server: access gate and store transitions

This project models the core of the laptop-zone marketplace server (`index.js`) and proves properties of it:

- the `verifyJWT` middleware, which maps the `Authorization` header to a 401, a 403, or the decoded email passed on to the route;
- the routes that change the `users`, `products` and `orders` collections: booking, reporting, deleting a reported product, verifying a seller with the fan-out to that seller's products, and inserting and deleting users and products;
- the read-side routes: the order-existence check, the caller's own orders, the product and user listings, token issuance, and the role and verified probes.

A collection is a sequence of documents in MongoDB's natural order. A document is a map from field names to values, and `_id` is one of its fields. The driver calls the routes make are written out over that sequence with MongoDB's documented meaning (module `Collection`):

- `find` keeps every matching document in order;
- `findOne`, `updateOne` and `deleteOne` act on the first match;
- `$set` overwrites or adds the patch's fields and keeps the rest;
- an upsert with no match inserts the filter's equality fields plus the patch fields, under the `_id` either of them names or else a generated one; a patch whose `_id` differs from the filter's is refused;
- `updateMany` patches every match in one pass, which is a loop (`Collection.UpdateManyUpsertLoop`), and upserts only when nothing matched;
- the store refuses a `$set` that changes an `_id`, and an insert whose `_id` is already taken.

Store `Valid()` is the unique `_id` index. Every write route keeps it.

The read routes are functions of the collections, so they cannot change the store. The write routes are methods of the `Marketplace.Store` class. Each method's postcondition gives the new collections as the driver calls above applied to the old ones. The lemmas in `Transitions` then say what those calls do to the records.

`jwt.verify` and `jwt.sign` are function parameters (`Verifier`, `Signer`). JavaScript's `split(" ")` is modelled exactly, including empty pieces, so the header edge cases can be stated:

- an empty header is falsy, so it gets 401;
- `"Bearer"` alone has no second piece, so it gets 403;
- `"Bearer  t"` with two spaces has an empty second piece, so it also gets 403;
- the scheme word is never checked.

When a store call throws, the route's promise rejects. Later calls in that route do not run and no response is sent (`NoReply`), because Express 4 does not catch rejections from async handlers.

The model keeps several behaviours of the code that a reader of the routes might not expect:

- The category listing (`index.js:138-143`) filters on `categoryId` only, so booked and sold products are listed too (`Queries.CategoryListsSoldProducts`).
- Mutation routes are gated only by `verifyJWT`. No role check is applied, and `PUT /products` (reporting) and `POST /users` have no gate at all.
- An upsert on `{_id: ObjectId(id)}` for an absent id creates the document under that same `_id`, as MongoDB documents, not under a freshly generated one.
- Deleting by a missing id deletes nothing and still answers `deletedCount: 0`. No 404 is sent.
- The booking body is `$set` as sent. A body naming another product's `bookId` moves the order to that product (`Transitions.ForeignBookIdBreaksOneOrderPerProduct`).

## Model

| member | source | states |
|---|---|---|
| Collection.FirstMatch | index.js:76 | the position found is the first, in natural order, of a document matching the filter; none means no document matches |
| Collection.FindCounts | index.js:93 | `find` returns exactly the matching documents, each as many times as the collection holds it, and no other document |
| Collection.FindConcat | index.js:93 | `find` keeps natural order: the result over `a + b` is the result over `a` followed by the result over `b` |
| Collection.FindOne | index.js:76 | `findOne` answers none exactly when nothing matches, and otherwise the first matching document |
| Collection.OidBound | index.js:47 | the generated ObjectId is above every ObjectId `_id` in the collection, so it is not taken |
| Collection.UpsertNew | index.js:47 | the upserted document keeps the unique `_id` index; with no `_id` in filter or patch the upsert cannot fail; a patch `_id` other than the filter's is refused as a change of `_id` |
| Collection.UpdateOneUpsert | index.js:51-55 | `updateOne` with upsert keeps the unique `_id` index, and never fails when the patch leaves `_id` alone and any `_id` filter is the whole filter |
| Collection.UpdateOneUnmatched | index.js:51-55 | with no match and no `_id` named, `updateOne` appends filter-plus-patch under the generated ObjectId and reports it as `upsertedId` |
| Collection.UpdateOneUnmatchedId | index.js:114-118 | with no document on the filter's `_id`, `updateOne` appends filter-plus-patch under that same `_id` |
| Collection.UpsertOneField | index.js:177-181 | a one-field upsert on a one-field filter gives the first match the field and keeps all its other fields and every other document (later matches included), or appends `{key, field}` under a generated `_id` when nothing matched; afterwards the first match holds the field |
| Collection.SetMatching | index.js:190-194 | `updateMany`'s `$set` gives every matching document the patch and leaves every other document as it was, position by position |
| Collection.CountMatching | index.js:190-194 | the match count is zero exactly when no document matches, which decides whether `updateMany` upserts |
| Collection.UpdateManyUpsert | index.js:190-194 | `updateMany` with upsert keeps the unique `_id` index and never fails for a filter without `_id` |
| Collection.SetMatchingLoop | index.js:190-194 | the one pass over the collection yields exactly the patched sequence, the match count and the modified count |
| Collection.UpdateManyUpsertLoop | index.js:190-194 | the loop-based `updateMany` returns the same result as its specification `UpdateManyUpsert` |
| Collection.InsertOne | index.js:215 | `insertOne` appends the document under its own or a generated `_id`; it fails exactly when its own `_id` is taken, and keeps the unique index |
| Collection.DeleteOne | index.js:133 | `deleteOne` removes one document exactly when one matches, so `deletedCount` is 0 only when nothing matches, and keeps the unique index |
| Documents.SetOneField | index.js:58-62 | `$set` of one field overwrites that field and keeps every other field |
| Documents.SetHeldField | index.js:109-113 | `$set` of a field to the value it already holds leaves the document unchanged |
| Api.MatchesIdFilter | index.js:107 | `{_id: ObjectId(id)}` matches exactly the documents whose `_id` is that ObjectId |
| AccessGate.Split | index.js:24 | `split(" ")` yields at least one piece, and no piece contains a space |
| AccessGate.JoinSplit | index.js:24 | joining the pieces of a split with single spaces gives the header back |
| AccessGate.SplitJoin | index.js:24 | splitting pieces joined by spaces gives the pieces back, when no piece has a space |
| AccessGate.Gate | index.js:19-32 | a missing or empty header gives 401 "Unauthorized Access", and only it; every other refusal is 403 "Forbidded Access"; the request passes on exactly when the header is non-empty, its second piece is non-empty and the verifier accepts it, and then with the email the verifier decoded |
| AccessGate.AbsentHeaderIgnoresVerifier | index.js:20-23 | without a header the outcome is 401 whatever the verifier would answer, so the verifier is never consulted and `next` is never reached |
| AccessGate.HeaderWithoutTokenForbidden | index.js:24-28 | a non-empty header with no space has no second piece and is refused with 403 whatever the verifier |
| AccessGate.DoubleSpaceForbidden | index.js:24-28 | a doubled space after the scheme leaves an empty token, so the request is refused with 403 |
| AccessGate.SchemeTokenHeader | index.js:24-31 | `<scheme> <token>`, alone or followed by more space-separated pieces, passes on exactly the verifier's email for the token and is 403 when the verifier fails; the scheme word and any later pieces are never checked |
| Queries.CheckOrders | index.js:73-81 | behind the gate, `isBooked` is true exactly when some order has `bookId` equal to the id |
| Queries.ListOrders | index.js:84-95 | documents are returned exactly when the gate passes with the requested email, and they are exactly that email's orders; a different decoded email gets 403 "Forbidden Access" |
| Queries.ListReported | index.js:123-127 | behind the gate, exactly the products with `reported: true` |
| Queries.ListCategory | index.js:138-143 | behind the gate, exactly the products whose `categoryId` is the requested one |
| Queries.CategoryListsSoldProducts | index.js:138-143 | a sold product of the category is still listed: the code applies no sold filter |
| Queries.ListSellerProducts | index.js:146-151 | behind the gate, exactly the products whose `sellerEmail` is the requested email |
| Queries.ListUsers | index.js:220-224 | behind the gate, every user in order |
| Queries.IssueToken | index.js:199-210 | a 200 token reply exactly when a user with the email exists, and it carries the signer's token for that email; otherwise 403 with `accessToken: ""` |
| Queries.IssuedTokenPassesGate | index.js:204-207 | an issued token sent as `Bearer <token>` passes the gate with the issued-for email, if the verifier accepts what the signer made and the token has no spaces |
| Queries.Probe | index.js:237-239 | the answer is true exactly when the first user with the email holds the expected value in the field, and false when no user has the email |
| Queries.ProbeFindsTheUser | index.js:235-261 | with unique emails, a probe is true exactly when some user with that email holds the expected value |
| Queries.MissingUserProbesFalse | index.js:235-261 | a probe about an email no user has answers false, never true |
| Queries.IsAdmin | index.js:235-240 | behind the gate, `isAdmin` is the probe for `role === "admin"` |
| Queries.IsSeller | index.js:242-247 | behind the gate, `isSeller` is the probe for `role === "seller"` |
| Queries.SellerVerified | index.js:249-254 | behind the gate, `isVerified` is the probe for `verified === true` |
| Queries.IsBuyer | index.js:256-261 | behind the gate, `isBuyer` is the probe for `role === "buyer"` |
| Marketplace.Store.constructor | index.js:36-40 | the store starts with three empty collections satisfying the unique index |
| Marketplace.Store.PutOrders | index.js:43-70 | a gate refusal changes nothing; a failed order upsert sends nothing and changes nothing; otherwise orders get the booking upsert, products get the `isBooked` upsert, users are untouched, and the reply is the order update's result |
| Marketplace.Store.AddProduct | index.js:98-102 | behind the gate, the product is inserted, or nothing changes and nothing is sent when its `_id` is taken |
| Marketplace.Store.ReportProduct | index.js:105-120 | with no gate, products get the `reported: true` upsert on the id; users and orders are untouched |
| Marketplace.Store.DeleteReported | index.js:130-135 | behind the gate, the first product with the id is deleted, reported or not; the reply is the deleted count |
| Marketplace.Store.VerifyUser | index.js:168-196 | behind the gate, users get the `verified: true` upsert and products get the `isVerified: true` updateMany upsert; orders are untouched; the reply is the users update's result |
| Marketplace.Store.AddUser | index.js:213-217 | with no gate, the user is inserted, or nothing changes and nothing is sent when its `_id` is taken |
| Marketplace.Store.DeleteUser | index.js:227-232 | behind the gate, the first user with the id is deleted; the reply is the deleted count |
| Transitions.BookingOrderEffect | index.js:44-55 | the booked order gets the payload's fields and keeps its own earlier ones, or is created from `{bookId}` plus the payload; every other order is unchanged, and the count grows by at most one |
| Transitions.BookingLeavesOneOrder | index.js:44-55 | after booking a product, exactly one order has its `bookId` |
| Transitions.BookingTwiceLeavesOneOrder | index.js:44-55 | booking a product twice leaves exactly one order for it, holding the second payload, and at most one order more than before |
| Transitions.BookingKeepsOneOrderPerProduct | index.js:44-55 | booking with a body that names no other product's `bookId` preserves the invariant that no two orders share a `bookId` |
| Transitions.ForeignBookIdBreaksOneOrderPerProduct | index.js:44-55 | a body naming another product's `bookId` can break that invariant: booking product 1 with `{bookId: 2}` leaves two orders booking product 2 |
| Transitions.FlagSetById | index.js:57-68 | setting a flag by `_id` flags the one product with that id and keeps its other fields, or appends `{_id, flag: true}`; no other product changes |
| Transitions.BookingMarksProduct | index.js:57-68 | after booking, a product with the id exists and has `isBooked: true`; it is created when absent; other products are unchanged |
| Transitions.ReportMarksProduct | index.js:106-118 | after reporting, exactly the product with the id gains `reported: true`; it is created when absent; other products are unchanged |
| Transitions.ReportIsIdempotent | index.js:106-118 | for any products, reporting twice leaves them as reporting once does, and the second report modifies nothing |
| Transitions.DeleteByIdEffect | index.js:131-133 | deleting by id removes the document with that id whatever its other fields, reported or not; every other document is kept, and the count is 1 exactly when the id existed |
| Transitions.VerifySellerProducts | index.js:182-194 | for a seller with products, `updateMany` flags each of them `isVerified: true` and leaves every other product as it was, position by position |
| Transitions.VerifySellerWithoutProducts | index.js:182-194 | for a seller with no products, `updateMany` appends `{sellerEmail, isVerified: true}` under a generated `_id` |
| Transitions.VerifyFansOutToProducts | index.js:182-194 | every product of the seller gets `isVerified: true` with its other fields kept; other sellers' products are unchanged; a seller with no products gets one upserted `{sellerEmail, isVerified: true}` |
| Transitions.VerifyMarksUser | index.js:169-181 | the first user with the email gains `verified: true` and keeps its other fields, every other user (later ones with that email included) is unchanged, or an absent user is created as `{email, verified: true}`; either way `/sellerVerify` then answers true |
| Transitions.SignedUpUserGetsToken | index.js:213-216 | a user inserted with an email (and no `_id`) can then be issued a token for that email |

## Left out

- Express, `cors`, `app.listen`, `dotenv`, the `MongoClient` connection, the `run()` bootstrap and the `/` route (index.js:1-17, 34-41, 262-273). These are framework and I/O plumbing.
- JWT cryptography and the `"1d"` expiry. The verifier and the signer are function parameters, and the verifier's decoded payload is reduced to its email.
- `ObjectId(id)` parsing and its exception on a malformed id. Ids are numbers. An order's `bookId` holds the same id value that the product's `_id` uses, where the source stores the query text. The source writes and reads that text the same way, so this identification holds for the source's own writes.
- The ObjectId generator. The model generates one above the largest ObjectId in the collection, not a timestamp-and-random value.
- Async execution and interleaving of concurrent requests. Each route is one sequential step, and the process-level effect of an unhandled rejection is not modelled.
- The `blogs` and `category` collections and their unfiltered reads (index.js:154-165). They are pass-through queries with nothing to state.
- Missing query parameters. The driver would send `undefined`, which matches differently; every parameter is taken as present.
- Value kinds beyond scalars. There are no nested documents or arrays, so array-field matching is not modelled. Numbers are integers.
- The `acknowledged` and `upsertedCount` fields of driver results. `upsertedCount` follows from `upsertedId`.
- Collection.UpdateManyUpsert: defined only for patches that leave `_id` alone. Its one call site passes the constant `{isVerified: true}`, so the partial updates a failing `updateMany` would leave are not modelled.
- Transitions.BookingOrderEffect: stated for payloads with no `_id` whose `bookId`, if present, is the booked id (`PayloadFor`). A payload naming another product's `bookId` moves the order to that product. It also needs at most one order for the product beforehand (`AtMostOneBooking`); with two, only the first is updated.
- Transitions.BookingLeavesOneOrder: same two conditions. The store does not enforce at most one order per product.
- Transitions.BookingTwiceLeavesOneOrder: same two conditions on the initial orders and both payloads. With two orders for the product beforehand, the second survives both bookings.
- Transitions.BookingKeepsOneOrderPerProduct: stated only for payloads satisfying `PayloadFor`. The source's `$set: order` accepts any body, and `Transitions.ForeignBookIdBreaksOneOrderPerProduct` shows a body with a foreign `bookId` breaking the invariant.
- "Calls `next` exactly once" is represented by the single `Next(decoded)` outcome of `AccessGate.Gate`, not by a trace of calls.
- Payments, payment intents, order revocation and role-gating middleware. None of them appears in `index.js`.
