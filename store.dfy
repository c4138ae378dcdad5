/**
  The state-changing routes, as methods of the store that holds the three
  collections. Each route runs its store calls in the source's order; when
  a call throws, the later calls do not run and nothing is sent.
 */
module Marketplace {
  import opened Wrappers
  import opened Documents
  import opened Collection
  import opened AccessGate
  import opened Api

  class Store {
    var users: seq<Doc>
    var products: seq<Doc>
    var orders: seq<Doc>

    /** The store's unique `_id` index holds on every collection. */
    ghost predicate Valid()
      reads this
    {
      WellFormed(users) && WellFormed(products) && WellFormed(orders)
    }

    constructor ()
      ensures Valid()
      ensures users == [] && products == [] && orders == []
    {
      users, products, orders := [], [], [];
    }

    /**
      `PUT /orders?id=…`: upsert the order `{bookId: id}` with the payload,
      then mark product `id` as booked (upserting it too).
     */
    method PutOrders(header: Option<string>, verify: Verifier, id: Id, order: Doc) returns (resp: Response)
      requires Valid()
      modifies this
      ensures Valid()
      ensures Gate(header, verify).Refuse? ==> resp == Refusal(Gate(header, verify)) && unchanged(this)
      ensures Gate(header, verify).Next? && UpdateOneUpsert(old(orders), BookFilter(id), order).Err? ==>
                resp == NoReply && unchanged(this)
      ensures Gate(header, verify).Next? && UpdateOneUpsert(old(orders), BookFilter(id), order).Ok? ==>
                && orders == UpdateOneUpsert(old(orders), BookFilter(id), order).value.docs
                && products == UpdateOneUpsert(old(products), IdFilter(id), BOOKED_PATCH).value.docs
                && users == old(users)
                && resp == UpdateReply(UpdateOneUpsert(old(orders), BookFilter(id), order).value.summary)
    {
      var gate := Gate(header, verify);
      if gate.Refuse? {
        return Refusal(gate);
      }
      var result := UpdateOneUpsert(orders, BookFilter(id), order);
      if result.Err? {
        return NoReply;
      }
      orders := result.value.docs;
      var updateProducts := UpdateOneUpsert(products, IdFilter(id), BOOKED_PATCH);
      products := updateProducts.value.docs;
      resp := UpdateReply(result.value.summary);
    }

    /** `POST /products`: insert the seller's product document. */
    method AddProduct(header: Option<string>, verify: Verifier, product: Doc) returns (resp: Response)
      requires Valid()
      modifies this
      ensures Valid()
      ensures Gate(header, verify).Refuse? ==> resp == Refusal(Gate(header, verify)) && unchanged(this)
      ensures Gate(header, verify).Next? && InsertOne(old(products), product).Err? ==> resp == NoReply && unchanged(this)
      ensures Gate(header, verify).Next? && InsertOne(old(products), product).Ok? ==>
                && products == InsertOne(old(products), product).value.docs
                && users == old(users) && orders == old(orders)
                && resp == InsertReply(InsertOne(old(products), product).value.insertedId)
    {
      var gate := Gate(header, verify);
      if gate.Refuse? {
        return Refusal(gate);
      }
      var result := InsertOne(products, product);
      if result.Err? {
        return NoReply;
      }
      products := result.value.docs;
      resp := InsertReply(result.value.insertedId);
    }

    /** `PUT /products?id=…` (no gate): flag product `id` as reported, upserting it. */
    method ReportProduct(id: Id) returns (resp: Response)
      requires Valid()
      modifies this
      ensures Valid()
      ensures products == UpdateOneUpsert(old(products), IdFilter(id), REPORTED_PATCH).value.docs
      ensures users == old(users) && orders == old(orders)
      ensures resp == UpdateReply(UpdateOneUpsert(old(products), IdFilter(id), REPORTED_PATCH).value.summary)
    {
      var result := UpdateOneUpsert(products, IdFilter(id), REPORTED_PATCH);
      products := result.value.docs;
      resp := UpdateReply(result.value.summary);
    }

    /** `DELETE /reportedProducts?id=…`: delete product `id`, reported or not. */
    method DeleteReported(header: Option<string>, verify: Verifier, id: Id) returns (resp: Response)
      requires Valid()
      modifies this
      ensures Valid()
      ensures Gate(header, verify).Refuse? ==> resp == Refusal(Gate(header, verify)) && unchanged(this)
      ensures Gate(header, verify).Next? ==>
                && products == DeleteOne(old(products), IdFilter(id)).docs
                && users == old(users) && orders == old(orders)
                && resp == DeleteReply(DeleteOne(old(products), IdFilter(id)).deletedCount)
    {
      var gate := Gate(header, verify);
      if gate.Refuse? {
        return Refusal(gate);
      }
      var result := DeleteOne(products, IdFilter(id));
      products := result.docs;
      resp := DeleteReply(result.deletedCount);
    }

    /**
      `PUT /users?email=…`: mark the user verified (upserting it), then set
      `isVerified` on every product of that seller, or upsert one product
      when the seller has none. The reply is the users update's result.
     */
    method VerifyUser(header: Option<string>, verify: Verifier, email: string) returns (resp: Response)
      requires Valid()
      modifies this
      ensures Valid()
      ensures Gate(header, verify).Refuse? ==> resp == Refusal(Gate(header, verify)) && unchanged(this)
      ensures Gate(header, verify).Next? ==>
                && users == UpdateOneUpsert(old(users), EmailFilter(email), VERIFIED_PATCH).value.docs
                && products == UpdateManyUpsert(old(products), SellerFilter(email), IS_VERIFIED_PATCH).value.docs
                && orders == old(orders)
                && resp == UpdateReply(UpdateOneUpsert(old(users), EmailFilter(email), VERIFIED_PATCH).value.summary)
    {
      var gate := Gate(header, verify);
      if gate.Refuse? {
        return Refusal(gate);
      }
      var result := UpdateOneUpsert(users, EmailFilter(email), VERIFIED_PATCH);
      users := result.value.docs;
      var isVerified := UpdateManyUpsertLoop(products, SellerFilter(email), IS_VERIFIED_PATCH);
      products := isVerified.value.docs;
      resp := UpdateReply(result.value.summary);
    }

    /** `POST /users` (no gate): insert the user document as sent. */
    method AddUser(user: Doc) returns (resp: Response)
      requires Valid()
      modifies this
      ensures Valid()
      ensures InsertOne(old(users), user).Err? ==> resp == NoReply && unchanged(this)
      ensures InsertOne(old(users), user).Ok? ==>
                && users == InsertOne(old(users), user).value.docs
                && products == old(products) && orders == old(orders)
                && resp == InsertReply(InsertOne(old(users), user).value.insertedId)
    {
      var result := InsertOne(users, user);
      if result.Err? {
        return NoReply;
      }
      users := result.value.docs;
      resp := InsertReply(result.value.insertedId);
    }

    /** `DELETE /users/:id`: delete user `id`. */
    method DeleteUser(header: Option<string>, verify: Verifier, id: Id) returns (resp: Response)
      requires Valid()
      modifies this
      ensures Valid()
      ensures Gate(header, verify).Refuse? ==> resp == Refusal(Gate(header, verify)) && unchanged(this)
      ensures Gate(header, verify).Next? ==>
                && users == DeleteOne(old(users), IdFilter(id)).docs
                && products == old(products) && orders == old(orders)
                && resp == DeleteReply(DeleteOne(old(users), IdFilter(id)).deletedCount)
    {
      var gate := Gate(header, verify);
      if gate.Refuse? {
        return Refusal(gate);
      }
      var result := DeleteOne(users, IdFilter(id));
      users := result.docs;
      resp := DeleteReply(result.deletedCount);
    }
  }
}
