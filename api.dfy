/**
  What the routes send back, and the filters and `$set` patches they hand
  to the store.
 */
module Api {
  import opened Wrappers
  import opened Documents
  import opened Collection
  import opened AccessGate

  /** A response body, with its status where it is not 200. */
  datatype Response =
    | Refused(status: nat, message: string)       // `res.status(s).send({error: s, message})`
    | Documents(docs: seq<Doc>)                    // an array of documents
    | UpdateReply(summary: UpdateSummary)          // the `updateOne` result
    | InsertReply(insertedId: Value)               // the `insertOne` result
    | DeleteReply(deletedCount: nat)               // the `deleteOne` result
    | Flag(name: string, value: bool)              // `{<name>: value}`
    | TokenReply(status: nat, accessToken: string) // `{accessToken}`
    | NoReply                                      // the store threw: the handler's promise rejects, nothing is sent

  /** The response the gate sends when it refuses. */
  function Refusal(o: Outcome): Response
    requires o.Refuse?
  {
    Refused(o.status, o.message)
  }

  /** `{bookId: id}`: the order that books product `id`. */
  function BookFilter(id: Id): Doc {
    map[BOOK_ID_FIELD := Oid(id)]
  }

  /** `{_id: ObjectId(id)}`. */
  function IdFilter(id: Id): Doc {
    map[ID_FIELD := Oid(id)]
  }

  /** `{_id: ObjectId(id)}` matches exactly the document whose `_id` is that ObjectId. */
  lemma MatchesIdFilter(id: Id)
    ensures forall d :: Matches(d, IdFilter(id)) <==> IdOf(d) == Some(Oid(id))
  {
  }

  /** `{email: email}`. */
  function EmailFilter(email: string): Doc {
    map[EMAIL_FIELD := Str(email)]
  }

  /** `{sellerEmail: email}`. */
  function SellerFilter(email: string): Doc {
    map[SELLER_EMAIL_FIELD := Str(email)]
  }

  /** `{categoryId: id}`. */
  function CategoryFilter(categoryId: string): Doc {
    map[CATEGORY_ID_FIELD := Str(categoryId)]
  }

  const REPORTED_FILTER: Doc := map[REPORTED_FIELD := Bool(true)]
  const BOOKED_PATCH: Doc := map[IS_BOOKED_FIELD := Bool(true)]
  const REPORTED_PATCH: Doc := map[REPORTED_FIELD := Bool(true)]
  const VERIFIED_PATCH: Doc := map[VERIFIED_FIELD := Bool(true)]
  const IS_VERIFIED_PATCH: Doc := map[IS_VERIFIED_FIELD := Bool(true)]
}
