/**
  What the write routes do to the collections, stated over the store calls
  the `Store` methods are specified by.
 */
module Transitions {
  import opened Wrappers
  import opened Documents
  import opened Collection
  import opened AccessGate
  import opened Api
  import opened Queries

  // ---------------------------------------------------------------- booking

  /** At most one order books product `id`. */
  ghost predicate AtMostOneBooking(orders: seq<Doc>, id: Id) {
    forall i, j :: 0 <= i < j < |orders| && Matches(orders[i], BookFilter(id)) ==> !Matches(orders[j], BookFilter(id))
  }

  /** Exactly one order books product `id`. */
  ghost predicate ExactlyOneBooking(orders: seq<Doc>, id: Id) {
    exists k :: 0 <= k < |orders| && Matches(orders[k], BookFilter(id))
                && forall j :: 0 <= j < |orders| && j != k ==> !Matches(orders[j], BookFilter(id))
  }

  /** No two orders book the same product. */
  ghost predicate OneOrderPerProduct(orders: seq<Doc>) {
    forall i, j :: 0 <= i < j < |orders| && BOOK_ID_FIELD in orders[i] && BOOK_ID_FIELD in orders[j]
                   ==> orders[i][BOOK_ID_FIELD] != orders[j][BOOK_ID_FIELD]
  }

  /** A booking payload that neither sets `_id` nor names another product in `bookId`. */
  predicate PayloadFor(order: Doc, id: Id) {
    ID_FIELD !in order && (BOOK_ID_FIELD in order ==> order[BOOK_ID_FIELD] == Oid(id))
  }

  /**
    Booking product `id`: the order for `id` is updated in place with the
    payload (earlier fields kept), or created from `{bookId: id}` and the
    payload; every other order is left as it was.
   */
  lemma BookingOrderEffect(orders: seq<Doc>, id: Id, order: Doc)
    requires PayloadFor(order, id) && AtMostOneBooking(orders, id)
    ensures UpdateOneUpsert(orders, BookFilter(id), order).Ok?
    ensures var after := UpdateOneUpsert(orders, BookFilter(id), order).value.docs;
            && |orders| <= |after| <= |orders| + 1
            && ((exists j :: 0 <= j < |orders| && Matches(orders[j], BookFilter(id))) ==> |after| == |orders|)
            && (forall j :: 0 <= j < |orders| && !Matches(orders[j], BookFilter(id)) ==> after[j] == orders[j])
            && (forall k :: 0 <= k < |after| && Matches(after[k], BookFilter(id)) && k < |orders| && Matches(orders[k], BookFilter(id))
                  ==> forall f :: f in orders[k] && f !in order ==> f in after[k] && after[k][f] == orders[k][f])
            && (forall k :: 0 <= k < |after| && Matches(after[k], BookFilter(id))
                  ==> forall f :: f in order ==> f in after[k] && after[k][f] == order[f])
            && ((forall j :: 0 <= j < |orders| ==> !Matches(orders[j], BookFilter(id)))
                  ==> after == orders + [WithId(SetFields(BookFilter(id), order), OidBound(orders))])
  {
    var filter := BookFilter(id);
    match FirstMatch(orders, filter)
    case Some(i) =>
      UpdateOneMatched(orders, filter, order, i);
      var after := orders[i := SetFields(orders[i], order)];
      forall k | 0 <= k < |after| && Matches(after[k], filter)
        ensures forall f :: f in order ==> f in after[k] && after[k][f] == order[f]
      {
        if k != i {
          assert false;
        }
      }
    case None =>
      UpdateOneUnmatched(orders, filter, order);
      var after := orders + [WithId(SetFields(filter, order), OidBound(orders))];
      forall k | 0 <= k < |after| && Matches(after[k], filter)
        ensures forall f :: f in order ==> f in after[k] && after[k][f] == order[f]
      {
        if k < |orders| {
          assert false;
        }
      }
  }

  /** The order the payload lands in still books `id`. */
  lemma BookedOrderMatches(d: Doc, id: Id, order: Doc)
    requires PayloadFor(order, id) && Matches(d, BookFilter(id))
    ensures Matches(SetFields(d, order), BookFilter(id))
  {
  }

  /** Booking product `id` leaves exactly one order for it, when there was at most one before. */
  lemma BookingLeavesOneOrder(orders: seq<Doc>, id: Id, order: Doc)
    requires PayloadFor(order, id) && AtMostOneBooking(orders, id)
    ensures UpdateOneUpsert(orders, BookFilter(id), order).Ok?
    ensures ExactlyOneBooking(UpdateOneUpsert(orders, BookFilter(id), order).value.docs, id)
  {
    var filter := BookFilter(id);
    match FirstMatch(orders, filter)
    case Some(i) =>
      UpdateOneMatched(orders, filter, order, i);
      var after := orders[i := SetFields(orders[i], order)];
      BookedOrderMatches(orders[i], id, order);
      assert Matches(after[i], filter);
      forall j | 0 <= j < |after| && j != i ensures !Matches(after[j], filter) {
        assert after[j] == orders[j];
      }
    case None =>
      UpdateOneUnmatched(orders, filter, order);
      var after := orders + [WithId(SetFields(filter, order), OidBound(orders))];
      var k := |orders|;
      assert Matches(after[k], filter);
      forall j | 0 <= j < |after| && j != k ensures !Matches(after[j], filter) {
        assert after[j] == orders[j];
      }
  }

  /** A product booked exactly once is booked at most once, and booked. */
  lemma OneBookingIsAtMostOne(orders: seq<Doc>, id: Id)
    requires ExactlyOneBooking(orders, id)
    ensures AtMostOneBooking(orders, id)
    ensures exists j :: 0 <= j < |orders| && Matches(orders[j], BookFilter(id))
  {
    var k :| 0 <= k < |orders| && Matches(orders[k], BookFilter(id))
             && forall j :: 0 <= j < |orders| && j != k ==> !Matches(orders[j], BookFilter(id));
  }

  /** Booking the same product twice still leaves one order for it, holding the second payload. */
  lemma BookingTwiceLeavesOneOrder(orders: seq<Doc>, id: Id, first: Doc, second: Doc)
    requires PayloadFor(first, id) && PayloadFor(second, id) && AtMostOneBooking(orders, id)
    ensures UpdateOneUpsert(orders, BookFilter(id), first).Ok?
    ensures var once := UpdateOneUpsert(orders, BookFilter(id), first).value.docs;
            && UpdateOneUpsert(once, BookFilter(id), second).Ok?
            && var twice := UpdateOneUpsert(once, BookFilter(id), second).value.docs;
            && ExactlyOneBooking(twice, id)
            && |twice| <= |orders| + 1
            && forall k :: 0 <= k < |twice| && Matches(twice[k], BookFilter(id))
                 ==> forall f :: f in second ==> f in twice[k] && twice[k][f] == second[f]
  {
    BookingLeavesOneOrder(orders, id, first);
    BookingOrderEffect(orders, id, first);
    var once := UpdateOneUpsert(orders, BookFilter(id), first).value.docs;
    OneBookingIsAtMostOne(once, id);
    BookingLeavesOneOrder(once, id, second);
    BookingOrderEffect(once, id, second);
  }

  /** Booking keeps every product booked by at most one order. */
  lemma BookingKeepsOneOrderPerProduct(orders: seq<Doc>, id: Id, order: Doc)
    requires PayloadFor(order, id) && OneOrderPerProduct(orders)
    ensures UpdateOneUpsert(orders, BookFilter(id), order).Ok?
    ensures OneOrderPerProduct(UpdateOneUpsert(orders, BookFilter(id), order).value.docs)
  {
    var filter := BookFilter(id);
    match FirstMatch(orders, filter)
    case Some(i) =>
      UpdateOneMatched(orders, filter, order, i);
      var after := orders[i := SetFields(orders[i], order)];
      assert after[i][BOOK_ID_FIELD] == Oid(id);
      forall a, b | 0 <= a < b < |after| && BOOK_ID_FIELD in after[a] && BOOK_ID_FIELD in after[b]
        ensures after[a][BOOK_ID_FIELD] != after[b][BOOK_ID_FIELD]
      {
        if a == i {
          assert after[b] == orders[b];
        } else if b == i {
          assert after[a] == orders[a];
        }
      }
    case None =>
      UpdateOneUnmatched(orders, filter, order);
      var n := |orders|;
      var after := orders + [WithId(SetFields(filter, order), OidBound(orders))];
      assert after[n][BOOK_ID_FIELD] == Oid(id);
      forall a, b | 0 <= a < b < |after| && BOOK_ID_FIELD in after[a] && BOOK_ID_FIELD in after[b]
        ensures after[a][BOOK_ID_FIELD] != after[b][BOOK_ID_FIELD]
      {
        if b == n {
          assert after[a] == orders[a];
          assert !Matches(orders[a], filter);
        }
      }
  }

  /**
    Without the payload condition booking can break the invariant: booking
    product 1 with a body `{bookId: 2}` when an order already books product
    2 upserts a second order with `bookId` 2.
   */
  lemma ForeignBookIdBreaksOneOrderPerProduct()
    ensures var orders := [map[ID_FIELD := Oid(0), BOOK_ID_FIELD := Oid(2)]];
            var order := map[BOOK_ID_FIELD := Oid(2)];
            && OneOrderPerProduct(orders)
            && UpdateOneUpsert(orders, BookFilter(1), order).Ok?
            && !OneOrderPerProduct(UpdateOneUpsert(orders, BookFilter(1), order).value.docs)
  {
    var orders := [map[ID_FIELD := Oid(0), BOOK_ID_FIELD := Oid(2)]];
    var order := map[BOOK_ID_FIELD := Oid(2)];
    assert !Matches(orders[0], BookFilter(1)) by {
      assert BOOK_ID_FIELD in BookFilter(1);
    }
    assert FirstMatch(orders, BookFilter(1)).None?;
    UpdateOneUnmatched(orders, BookFilter(1), order);
    SetOneField(BookFilter(1), BOOK_ID_FIELD, Oid(2));
    var after := UpdateOneUpsert(orders, BookFilter(1), order).value.docs;
    assert after[0][BOOK_ID_FIELD] == Oid(2) && after[1][BOOK_ID_FIELD] == Oid(2);
  }

  // ------------------------------------------------- flags set on a product by id

  /**
    `updateOne({_id: id}, {$set: {field: true}}, {upsert: true})`: the
    product with that `_id` gets the flag and keeps its other fields, or
    `{_id: id, field: true}` is appended; no other product changes.
   */
  lemma FlagSetById(c: seq<Doc>, id: Id, field: string)
    requires WellFormed(c) && field != ID_FIELD
    ensures UpdateOneUpsert(c, IdFilter(id), map[field := Bool(true)]).Ok?
    ensures var after := UpdateOneUpsert(c, IdFilter(id), map[field := Bool(true)]).value.docs;
            && (IdTaken(c, Oid(id)) ==> |after| == |c|)
            && (!IdTaken(c, Oid(id)) ==> after == c + [map[ID_FIELD := Oid(id), field := Bool(true)]])
            && (forall j :: 0 <= j < |c| ==>
                  after[j] == if IdOf(c[j]) == Some(Oid(id)) then c[j][field := Bool(true)] else c[j])
            && (forall d :: d in after && IdOf(d) == Some(Oid(id)) ==> field in d && d[field] == Bool(true))
            && IdTaken(after, Oid(id))
  {
    var patch := map[field := Bool(true)];
    var filter := IdFilter(id);
    MatchesIdFilter(id);
    match FirstMatch(c, filter)
    case Some(i) =>
      UpdateOneMatched(c, filter, patch, i);
      SetOneField(c[i], field, Bool(true));
      var after := c[i := c[i][field := Bool(true)]];
      assert IdOf(after[i]) == Some(Oid(id));
    case None =>
      UpdateOneUnmatchedId(c, filter, patch);
      SetOneField(filter, field, Bool(true));
      var after := c + [map[ID_FIELD := Oid(id), field := Bool(true)]];
      assert IdOf(after[|c|]) == Some(Oid(id));
  }

  /** Booking marks product `id` as booked, creating it when absent, and changes no other product. */
  lemma BookingMarksProduct(products: seq<Doc>, id: Id)
    requires WellFormed(products)
    ensures UpdateOneUpsert(products, IdFilter(id), BOOKED_PATCH).Ok?
    ensures var after := UpdateOneUpsert(products, IdFilter(id), BOOKED_PATCH).value.docs;
            && IdTaken(after, Oid(id))
            && (forall d :: d in after && IdOf(d) == Some(Oid(id)) ==> d[IS_BOOKED_FIELD] == Bool(true))
            && (forall j :: 0 <= j < |products| && IdOf(products[j]) != Some(Oid(id)) ==> after[j] == products[j])
            && (!IdTaken(products, Oid(id)) ==> after == products + [map[ID_FIELD := Oid(id), IS_BOOKED_FIELD := Bool(true)]])
  {
    FlagSetById(products, id, IS_BOOKED_FIELD);
  }

  /** Reporting flags product `id` as reported, creating it when absent, and changes no other product. */
  lemma ReportMarksProduct(products: seq<Doc>, id: Id)
    requires WellFormed(products)
    ensures UpdateOneUpsert(products, IdFilter(id), REPORTED_PATCH).Ok?
    ensures var after := UpdateOneUpsert(products, IdFilter(id), REPORTED_PATCH).value.docs;
            && IdTaken(after, Oid(id))
            && (forall d :: d in after && IdOf(d) == Some(Oid(id)) ==> d[REPORTED_FIELD] == Bool(true))
            && (forall j :: 0 <= j < |products| ==>
                  after[j] == if IdOf(products[j]) == Some(Oid(id)) then products[j][REPORTED_FIELD := Bool(true)] else products[j])
            && (!IdTaken(products, Oid(id)) ==> after == products + [map[ID_FIELD := Oid(id), REPORTED_FIELD := Bool(true)]])
  {
    FlagSetById(products, id, REPORTED_FIELD);
  }

  /** Reporting twice leaves the products as reporting once does, and the second report modifies nothing. */
  lemma ReportIsIdempotent(products: seq<Doc>, id: Id)
    ensures UpdateOneUpsert(products, IdFilter(id), REPORTED_PATCH).Ok?
    ensures var once := UpdateOneUpsert(products, IdFilter(id), REPORTED_PATCH).value.docs;
            && UpdateOneUpsert(once, IdFilter(id), REPORTED_PATCH).Ok?
            && UpdateOneUpsert(once, IdFilter(id), REPORTED_PATCH).value.docs == once
            && UpdateOneUpsert(once, IdFilter(id), REPORTED_PATCH).value.summary.modifiedCount == 0
  {
    var filter := IdFilter(id);
    var once: seq<Doc>, i: nat;
    match FirstMatch(products, filter)
    case Some(k) =>
      UpdateOneMatched(products, filter, REPORTED_PATCH, k);
      SetOneField(products[k], REPORTED_FIELD, Bool(true));
      FlaggedFirstMatch(products, ID_FIELD, Oid(id), REPORTED_FIELD, Bool(true), k);
      once, i := products[k := products[k][REPORTED_FIELD := Bool(true)]], k;
    case None =>
      UpdateOneUnmatchedId(products, filter, REPORTED_PATCH);
      SetOneField(filter, REPORTED_FIELD, Bool(true));
      once, i := products + [map[ID_FIELD := Oid(id), REPORTED_FIELD := Bool(true)]], |products|;
      assert Matches(once[i], filter);
      FirstMatchIs(once, filter, i);
    SetHeldField(once[i], REPORTED_FIELD, Bool(true));
    UpdateOneMatched(once, filter, REPORTED_PATCH, i);
    assert once[i := once[i]] == once;
  }

  // --------------------------------------------------------------- deletion

  /**
    `deleteOne({_id: id})` removes the one document with that `_id` when
    there is one, whatever its other fields (a product need not be
    reported), and keeps every other document.
   */
  lemma DeleteByIdEffect(c: seq<Doc>, id: Id)
    requires WellFormed(c)
    ensures DeleteOne(c, IdFilter(id)).deletedCount == if IdTaken(c, Oid(id)) then 1 else 0
    ensures forall d :: d in DeleteOne(c, IdFilter(id)).docs ==> d in c && IdOf(d) != Some(Oid(id))
    ensures forall d :: d in c && IdOf(d) != Some(Oid(id)) ==> d in DeleteOne(c, IdFilter(id)).docs
  {
    var filter := IdFilter(id);
    MatchesIdFilter(id);
    match FirstMatch(c, filter)
    case None =>
    case Some(i) =>
      DeleteOneMatched(c, filter, i);
      RemoveAtKeepsOthers(c, i);
      var after := c[..i] + c[i + 1..];
      forall d | d in after ensures d in c && IdOf(d) != Some(Oid(id)) {
        var k :| 0 <= k < |after| && after[k] == d;
        var j := if k < i then k else k + 1;
        assert after[if k < i then j else j - 1] == c[j];
        assert IdOf(c[j]) != IdOf(c[i]);
      }
      forall d | d in c && IdOf(d) != Some(Oid(id)) ensures d in after {
        var j :| 0 <= j < |c| && c[j] == d;
        assert j != i;
      }
  }

  // ---------------------------------------------------- verifying a seller

  /** The fan-out when the seller has products: each of them gets the flag, the rest stay. */
  lemma VerifySellerProducts(products: seq<Doc>, email: string)
    requires CountMatching(products, SellerFilter(email)) != 0
    ensures UpdateManyUpsert(products, SellerFilter(email), IS_VERIFIED_PATCH).Ok?
    ensures var after := UpdateManyUpsert(products, SellerFilter(email), IS_VERIFIED_PATCH).value.docs;
            && |after| == |products|
            && forall i :: 0 <= i < |products| ==>
                 after[i] == if Matches(products[i], SellerFilter(email))
                             then products[i][IS_VERIFIED_FIELD := Bool(true)] else products[i]
  {
    var after := UpdateManyUpsert(products, SellerFilter(email), IS_VERIFIED_PATCH).value.docs;
    assert after == SetMatching(products, SellerFilter(email), IS_VERIFIED_PATCH);
    forall i | 0 <= i < |products| && Matches(products[i], SellerFilter(email))
      ensures after[i] == products[i][IS_VERIFIED_FIELD := Bool(true)]
    {
      SetOneField(products[i], IS_VERIFIED_FIELD, Bool(true));
    }
  }

  /** The fan-out when the seller has no products: one flagged product is upserted. */
  lemma VerifySellerWithoutProducts(products: seq<Doc>, email: string)
    requires CountMatching(products, SellerFilter(email)) == 0
    ensures UpdateManyUpsert(products, SellerFilter(email), IS_VERIFIED_PATCH).Ok?
    ensures UpdateManyUpsert(products, SellerFilter(email), IS_VERIFIED_PATCH).value.docs
         == products + [map[SELLER_EMAIL_FIELD := Str(email), IS_VERIFIED_FIELD := Bool(true),
                            ID_FIELD := Oid(OidBound(products))]]
  {
    SetOneField(SellerFilter(email), IS_VERIFIED_FIELD, Bool(true));
  }

  /**
    The fan-out of `PUT /users`: every product of the seller gets
    `isVerified: true` and keeps its other fields, every other product is
    left alone, and a seller without products gets one upserted product
    `{sellerEmail, isVerified: true}`.
   */
  lemma VerifyFansOutToProducts(products: seq<Doc>, email: string)
    ensures UpdateManyUpsert(products, SellerFilter(email), IS_VERIFIED_PATCH).Ok?
    ensures var after := UpdateManyUpsert(products, SellerFilter(email), IS_VERIFIED_PATCH).value.docs;
            && (forall d :: d in after && Matches(d, SellerFilter(email)) ==> d[IS_VERIFIED_FIELD] == Bool(true))
            && ((exists i :: 0 <= i < |products| && Matches(products[i], SellerFilter(email))) ==>
                  && |after| == |products|
                  && forall i :: 0 <= i < |products| ==>
                       after[i] == if Matches(products[i], SellerFilter(email))
                                   then products[i][IS_VERIFIED_FIELD := Bool(true)] else products[i])
            && ((forall i :: 0 <= i < |products| ==> !Matches(products[i], SellerFilter(email))) ==>
                  after == products + [map[SELLER_EMAIL_FIELD := Str(email), IS_VERIFIED_FIELD := Bool(true),
                                           ID_FIELD := Oid(OidBound(products))]])
  {
    var filter := SellerFilter(email);
    var after := UpdateManyUpsert(products, filter, IS_VERIFIED_PATCH).value.docs;
    if CountMatching(products, filter) == 0 {
      VerifySellerWithoutProducts(products, email);
      forall d | d in after && Matches(d, filter) ensures d[IS_VERIFIED_FIELD] == Bool(true) {
        var i :| 0 <= i < |after| && after[i] == d;
      }
    } else {
      VerifySellerProducts(products, email);
      forall d | d in after && Matches(d, filter) ensures d[IS_VERIFIED_FIELD] == Bool(true) {
        var i :| 0 <= i < |after| && after[i] == d;
      }
    }
  }

  /**
    `PUT /users` marks the first user with the email verified, keeping its
    other fields and every other user (later ones with the same email
    included), or upserts `{email, verified: true}`; either way
    `/sellerVerify` then answers true.
   */
  lemma VerifyMarksUser(users: seq<Doc>, email: string)
    ensures UpdateOneUpsert(users, EmailFilter(email), VERIFIED_PATCH).Ok?
    ensures var after := UpdateOneUpsert(users, EmailFilter(email), VERIFIED_PATCH).value.docs;
            && Probe(after, email, VERIFIED_FIELD, Bool(true))
            && (forall j :: 0 <= j < |users| && !Matches(users[j], EmailFilter(email)) ==> after[j] == users[j])
            && match FirstMatch(users, EmailFilter(email))
               case Some(i) => after == users[i := users[i][VERIFIED_FIELD := Bool(true)]]
               case None => after == users + [map[EMAIL_FIELD := Str(email), VERIFIED_FIELD := Bool(true),
                                                  ID_FIELD := Oid(OidBound(users))]]
  {
    UpsertOneField(users, EMAIL_FIELD, Str(email), VERIFIED_FIELD, Bool(true));
  }

  // ------------------------------------------------------------------ users

  /** A user inserted with an email can then be issued a token for it. */
  lemma SignedUpUserGetsToken(users: seq<Doc>, user: Doc, email: string, sign: Signer)
    requires ID_FIELD !in user
    requires EMAIL_FIELD in user && user[EMAIL_FIELD] == Str(email)
    ensures InsertOne(users, user).Ok?
    ensures IssueToken(InsertOne(users, user).value.docs, email, sign) == TokenReply(200, sign(email))
  {
    var after := InsertOne(users, user).value.docs;
    assert after[|users|] == user[ID_FIELD := Oid(OidBound(users))];
    assert Matches(after[|users|], EmailFilter(email));
  }
}
