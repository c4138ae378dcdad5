/**
  The documents the marketplace keeps in its MongoDB collections (users,
  products, orders), with equality filters and the `$set` update operator.
 */
module Documents {
  import opened Wrappers

  /** An ObjectId. Ids are only compared and generated, so a number stands for one. */
  type Id = nat

  /** A field value. Only the scalar kinds the handlers read or write are modelled. */
  datatype Value = Oid(id: Id) | Str(s: string) | Bool(b: bool) | Num(n: int) | Null

  /** A document maps field names to values; `_id` is a field like any other. */
  type Doc = map<string, Value>

  const ID_FIELD: string := "_id"
  const BOOK_ID_FIELD: string := "bookId"
  const IS_BOOKED_FIELD: string := "isBooked"
  const REPORTED_FIELD: string := "reported"
  const EMAIL_FIELD: string := "email"
  const VERIFIED_FIELD: string := "verified"
  const SELLER_EMAIL_FIELD: string := "sellerEmail"
  const IS_VERIFIED_FIELD: string := "isVerified"
  const ROLE_FIELD: string := "role"
  const CATEGORY_ID_FIELD: string := "categoryId"

  /** An equality filter `{f1: v1, ...}` matches a document holding every listed field with exactly that value. */
  predicate Matches(d: Doc, filter: Doc) {
    forall f :: f in filter ==> f in d && d[f] == filter[f]
  }

  /** `$set: patch`: the patch's fields overwrite or extend the document; every other field is kept. */
  function SetFields(d: Doc, patch: Doc): Doc {
    d + patch
  }

  /** `$set` of a single field overwrites that field and keeps the rest. */
  lemma SetOneField(d: Doc, f: string, v: Value)
    ensures SetFields(d, map[f := v]) == d[f := v]
  {
  }

  /** `$set` of a field to the value it already holds leaves the document as it was. */
  lemma SetHeldField(d: Doc, f: string, v: Value)
    requires f in d && d[f] == v
    ensures SetFields(d, map[f := v]) == d
  {
    SetOneField(d, f, v);
  }

  /** The document's `_id`, if it has one. */
  function IdOf(d: Doc): Option<Value> {
    if ID_FIELD in d then Some(d[ID_FIELD]) else None
  }
}
