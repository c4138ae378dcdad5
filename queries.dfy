/**
  The read-side routes. Each is a function of the request and the current
  collections, so none of them changes the store.
 */
module Queries {
  import opened Wrappers
  import opened Documents
  import opened Collection
  import opened AccessGate
  import opened Api

  /** Every document the route lists, as often as the collection holds it, and nothing else. */
  ghost predicate Lists(r: Response, c: seq<Doc>, filter: Doc) {
    r.Documents? && forall d :: multiset(r.docs)[d] == if Matches(d, filter) then multiset(c)[d] else 0
  }

  /** `GET /checkOrders?id=…`: whether some order books product `id`. */
  function CheckOrders(header: Option<string>, verify: Verifier, orders: seq<Doc>, id: Id): (r: Response)
    ensures Gate(header, verify).Refuse? ==> r == Refusal(Gate(header, verify))
    ensures Gate(header, verify).Next? ==>
              r == Flag("isBooked", exists i :: 0 <= i < |orders| && Matches(orders[i], BookFilter(id)))
  {
    match Gate(header, verify)
    case Refuse(status, message) => Refused(status, message)
    case Next(_) => Flag("isBooked", FindOne(orders, BookFilter(id)).Some?)
  }

  /**
    `GET /orders?email=…`: the caller's own orders. Listing is refused with
    403 unless the decoded identity is the requested email.
   */
  function ListOrders(header: Option<string>, verify: Verifier, orders: seq<Doc>, email: string): (r: Response)
    ensures r.Documents? <==> Gate(header, verify) == Next(email)
    ensures r.Documents? ==> Lists(r, orders, EmailFilter(email))
    ensures Gate(header, verify).Refuse? ==> r == Refusal(Gate(header, verify))
    ensures Gate(header, verify).Next? && Gate(header, verify).decoded != email ==> r == Refused(403, "Forbidden Access")
  {
    match Gate(header, verify)
    case Refuse(status, message) => Refused(status, message)
    case Next(decoded) =>
      if decoded != email then Refused(403, "Forbidden Access")
      else FindCounts(orders, EmailFilter(email)); Documents(Find(orders, EmailFilter(email)))
  }

  /** `GET /reportedProducts`: the products flagged `reported: true`. */
  function ListReported(header: Option<string>, verify: Verifier, products: seq<Doc>): (r: Response)
    ensures r.Documents? <==> Gate(header, verify).Next?
    ensures r.Documents? ==> Lists(r, products, REPORTED_FILTER)
    ensures Gate(header, verify).Refuse? ==> r == Refusal(Gate(header, verify))
  {
    match Gate(header, verify)
    case Refuse(status, message) => Refused(status, message)
    case Next(_) => FindCounts(products, REPORTED_FILTER); Documents(Find(products, REPORTED_FILTER))
  }

  /** `GET /category/:id`: every product of the category, booked or sold ones included. */
  function ListCategory(header: Option<string>, verify: Verifier, products: seq<Doc>, categoryId: string): (r: Response)
    ensures r.Documents? <==> Gate(header, verify).Next?
    ensures r.Documents? ==> Lists(r, products, CategoryFilter(categoryId))
    ensures Gate(header, verify).Refuse? ==> r == Refusal(Gate(header, verify))
  {
    match Gate(header, verify)
    case Refuse(status, message) => Refused(status, message)
    case Next(_) => FindCounts(products, CategoryFilter(categoryId)); Documents(Find(products, CategoryFilter(categoryId)))
  }

  /** The category listing does not leave out sold products. */
  lemma CategoryListsSoldProducts(header: Option<string>, verify: Verifier, products: seq<Doc>, categoryId: string, i: nat)
    requires Gate(header, verify).Next?
    requires i < |products| && Matches(products[i], CategoryFilter(categoryId))
    requires "sold" in products[i] && products[i]["sold"] == Bool(true)
    ensures products[i] in ListCategory(header, verify, products, categoryId).docs
  {
  }

  /** `GET /products?email=…`: the products of one seller. */
  function ListSellerProducts(header: Option<string>, verify: Verifier, products: seq<Doc>, email: string): (r: Response)
    ensures r.Documents? <==> Gate(header, verify).Next?
    ensures r.Documents? ==> Lists(r, products, SellerFilter(email))
    ensures Gate(header, verify).Refuse? ==> r == Refusal(Gate(header, verify))
  {
    match Gate(header, verify)
    case Refuse(status, message) => Refused(status, message)
    case Next(_) => FindCounts(products, SellerFilter(email)); Documents(Find(products, SellerFilter(email)))
  }

  /** `GET /users`: all users, in order, to any authenticated caller. */
  function ListUsers(header: Option<string>, verify: Verifier, users: seq<Doc>): (r: Response)
    ensures r.Documents? <==> Gate(header, verify).Next?
    ensures r.Documents? ==> r.docs == users
    ensures Gate(header, verify).Refuse? ==> r == Refusal(Gate(header, verify))
  {
    match Gate(header, verify)
    case Refuse(status, message) => Refused(status, message)
    case Next(_) => Documents(users)
  }

  /**
    `GET /jwt?email=…` (no gate): a token for the email only when a user
    with that email exists; otherwise 403 with an empty token.
   */
  function IssueToken(users: seq<Doc>, email: string, sign: Signer): (r: Response)
    ensures r.TokenReply?
    ensures r.status == 200 <==> exists i :: 0 <= i < |users| && Matches(users[i], EmailFilter(email))
    ensures r.status == 200 ==> r.accessToken == sign(email)
    ensures r.status != 200 ==> r == TokenReply(403, "")
  {
    if FindOne(users, EmailFilter(email)).Some? then TokenReply(200, sign(email))
    else TokenReply(403, "")
  }

  /**
    A token `/jwt` issued, sent back as `Bearer <token>`, passes the gate
    with the email it was issued for, as long as the verifier accepts what
    the signer produced and the token has no spaces (a JWT has none).
   */
  lemma IssuedTokenPassesGate(users: seq<Doc>, email: string, sign: Signer, verify: Verifier)
    requires IssueToken(users, email, sign).status == 200
    requires verify(sign(email)) == Some(email)
    requires sign(email) != "" && SPACE !in sign(email)
    ensures Gate(Some("Bearer " + IssueToken(users, email, sign).accessToken), verify) == Next(email)
  {
    assert "Bearer " + sign(email) == "Bearer" + [SPACE] + sign(email) + "";
    assert SPACE !in "Bearer";
    SchemeTokenHeader("Bearer", sign(email), "", verify);
  }

  /** `user?.<field> === expected` for the user `findOne({email})` returns: false when there is none. */
  function Probe(users: seq<Doc>, email: string, field: string, expected: Value): (b: bool)
    ensures b <==> exists i :: (0 <= i < |users| && Matches(users[i], EmailFilter(email))
                                && (forall j :: 0 <= j < i ==> !Matches(users[j], EmailFilter(email)))
                                && field in users[i] && users[i][field] == expected)
  {
    match FirstMatch(users, EmailFilter(email))
    case None => false
    case Some(i) => field in users[i] && users[i][field] == expected
  }

  /** No two users share an email. `POST /users` does not enforce it. */
  ghost predicate UniqueEmails(users: seq<Doc>) {
    forall i, j, e :: 0 <= i < j < |users| && Matches(users[i], EmailFilter(e)) ==> !Matches(users[j], EmailFilter(e))
  }

  /** With unique emails a probe is true exactly when a user with that email has the value. */
  lemma ProbeFindsTheUser(users: seq<Doc>, email: string, field: string, expected: Value)
    requires UniqueEmails(users)
    ensures Probe(users, email, field, expected)
        <==> exists i :: 0 <= i < |users| && Matches(users[i], EmailFilter(email)) && field in users[i] && users[i][field] == expected
  {
    if i :| 0 <= i < |users| && Matches(users[i], EmailFilter(email)) && field in users[i] && users[i][field] == expected {
      assert forall j :: 0 <= j < i ==> !Matches(users[j], EmailFilter(email));
    }
  }

  /** `GET /users/admin/:email`: `{isAdmin}`. */
  function IsAdmin(header: Option<string>, verify: Verifier, users: seq<Doc>, email: string): (r: Response)
    ensures Gate(header, verify).Refuse? ==> r == Refusal(Gate(header, verify))
    ensures Gate(header, verify).Next? ==> r == Flag("isAdmin", Probe(users, email, ROLE_FIELD, Str("admin")))
  {
    match Gate(header, verify)
    case Refuse(status, message) => Refused(status, message)
    case Next(_) => Flag("isAdmin", Probe(users, email, ROLE_FIELD, Str("admin")))
  }

  /** `GET /users/seller/:email`: `{isSeller}`. */
  function IsSeller(header: Option<string>, verify: Verifier, users: seq<Doc>, email: string): (r: Response)
    ensures Gate(header, verify).Refuse? ==> r == Refusal(Gate(header, verify))
    ensures Gate(header, verify).Next? ==> r == Flag("isSeller", Probe(users, email, ROLE_FIELD, Str("seller")))
  {
    match Gate(header, verify)
    case Refuse(status, message) => Refused(status, message)
    case Next(_) => Flag("isSeller", Probe(users, email, ROLE_FIELD, Str("seller")))
  }

  /** `GET /sellerVerify/:email`: `{isVerified}`, true only for a stored `verified: true`. */
  function SellerVerified(header: Option<string>, verify: Verifier, users: seq<Doc>, email: string): (r: Response)
    ensures Gate(header, verify).Refuse? ==> r == Refusal(Gate(header, verify))
    ensures Gate(header, verify).Next? ==> r == Flag("isVerified", Probe(users, email, VERIFIED_FIELD, Bool(true)))
  {
    match Gate(header, verify)
    case Refuse(status, message) => Refused(status, message)
    case Next(_) => Flag("isVerified", Probe(users, email, VERIFIED_FIELD, Bool(true)))
  }

  /** `GET /users/buyer/:email`: `{isBuyer}`. */
  function IsBuyer(header: Option<string>, verify: Verifier, users: seq<Doc>, email: string): (r: Response)
    ensures Gate(header, verify).Refuse? ==> r == Refusal(Gate(header, verify))
    ensures Gate(header, verify).Next? ==> r == Flag("isBuyer", Probe(users, email, ROLE_FIELD, Str("buyer")))
  {
    match Gate(header, verify)
    case Refuse(status, message) => Refused(status, message)
    case Next(_) => Flag("isBuyer", Probe(users, email, ROLE_FIELD, Str("buyer")))
  }

  /** A probe about an email no user has answers false, never true. */
  lemma MissingUserProbesFalse(users: seq<Doc>, email: string, field: string, expected: Value)
    requires forall i :: 0 <= i < |users| ==> !Matches(users[i], EmailFilter(email))
    ensures !Probe(users, email, field, expected)
  {
  }
}
