/**
  A MongoDB collection as the handlers use it: a sequence of documents in
  natural (insertion) order, with the driver operations `find`, `findOne`,
  `updateOne` and `updateMany` with `upsert: true`, `insertOne` and
  `deleteOne`, each given its documented meaning over that sequence.
 */
module Collection {
  import opened Wrappers
  import opened Documents

  /** The write errors the store raises: changing an `_id`, or a second document with an `_id` already present. */
  datatype WriteError = ImmutableField | DuplicateKey

  /** The `UpdateResult` an update answers with. */
  datatype UpdateSummary = UpdateSummary(matchedCount: nat, modifiedCount: nat, upsertedId: Option<Value>)

  datatype Updated = Updated(docs: seq<Doc>, summary: UpdateSummary)
  datatype Inserted = Inserted(docs: seq<Doc>, insertedId: Value)
  datatype Deleted = Deleted(docs: seq<Doc>, deletedCount: nat)

  /** What the store's unique index on `_id` guarantees: every document has an `_id` and no two share one. */
  ghost predicate WellFormed(c: seq<Doc>) {
    && (forall i :: 0 <= i < |c| ==> ID_FIELD in c[i])
    && (forall i, j :: 0 <= i < j < |c| ==> IdOf(c[i]) != IdOf(c[j]))
  }

  /** Some document of `c` has `_id` value `v`. */
  predicate IdTaken(c: seq<Doc>, v: Value) {
    exists i :: 0 <= i < |c| && IdOf(c[i]) == Some(v)
  }

  /** The position of the first document, in natural order, that matches `filter`. */
  function FirstMatch(c: seq<Doc>, filter: Doc): (r: Option<nat>)
    ensures r.Some? ==> r.value < |c| && Matches(c[r.value], filter)
    ensures r.Some? ==> forall j :: 0 <= j < r.value ==> !Matches(c[j], filter)
    ensures r.None? ==> forall j :: 0 <= j < |c| ==> !Matches(c[j], filter)
  {
    if |c| == 0 then None
    else if Matches(c[0], filter) then Some(0)
    else match FirstMatch(c[1..], filter)
      case None => None
      case Some(i) => Some(i + 1)
  }

  /** A matching position with no match before it is the first match. */
  lemma FirstMatchIs(c: seq<Doc>, filter: Doc, i: nat)
    requires i < |c| && Matches(c[i], filter)
    requires forall j :: 0 <= j < i ==> !Matches(c[j], filter)
    ensures FirstMatch(c, filter) == Some(i)
  {
  }

  /** `find(filter).toArray()`: the matching documents in natural order. */
  function Find(c: seq<Doc>, filter: Doc): seq<Doc> {
    if |c| == 0 then []
    else (if Matches(c[0], filter) then [c[0]] else []) + Find(c[1..], filter)
  }

  /** `find` returns exactly the matching documents, each as often as the collection holds it. */
  lemma {:induction false} FindCounts(c: seq<Doc>, filter: Doc)
    ensures forall d :: d in Find(c, filter) <==> d in c && Matches(d, filter)
    ensures forall d :: multiset(Find(c, filter))[d] == if Matches(d, filter) then multiset(c)[d] else 0
  {
    if |c| > 0 {
      assert c == [c[0]] + c[1..];
      FindCounts(c[1..], filter);
    }
  }

  /** `find` keeps natural order: it distributes over concatenation. */
  lemma {:induction false} FindConcat(a: seq<Doc>, b: seq<Doc>, filter: Doc)
    ensures Find(a + b, filter) == Find(a, filter) + Find(b, filter)
  {
    if |a| > 0 {
      assert (a + b)[0] == a[0] && (a + b)[1..] == a[1..] + b;
      FindConcat(a[1..], b, filter);
    } else {
      assert a + b == b;
    }
  }

  /** `findOne(filter)`: the first matching document, or none. */
  function FindOne(c: seq<Doc>, filter: Doc): (r: Option<Doc>)
    ensures r.None? <==> forall i :: 0 <= i < |c| ==> !Matches(c[i], filter)
    ensures r.Some? ==> exists i :: (0 <= i < |c| && c[i] == r.value && Matches(c[i], filter)
                                     && forall j :: 0 <= j < i ==> !Matches(c[j], filter))
  {
    match FirstMatch(c, filter)
    case None => None
    case Some(i) => Some(c[i])
  }

  /** What a document's `_id` contributes to the bound on ObjectIds: one more than the ObjectId, if it is one. */
  function OidCeiling(d: Doc): Id {
    match IdOf(d)
    case Some(Oid(k)) => k + 1
    case _ => 0
  }

  /** A number above every ObjectId `_id` in `c`: the ObjectId the store generates next is free. */
  function OidBound(c: seq<Doc>): (n: Id)
    ensures forall i :: 0 <= i < |c| ==> OidCeiling(c[i]) <= n
    ensures !IdTaken(c, Oid(n))
  {
    if |c| == 0 then 0
    else
      var m := OidBound(c[1..]);
      assert forall i :: 1 <= i < |c| ==> c[i] == c[1..][i - 1];
      if OidCeiling(c[0]) > m then OidCeiling(c[0]) else m
  }

  /** The document as stored: it keeps its own `_id`, or receives the generated one. */
  function WithId(d: Doc, generated: Id): (r: Doc)
    ensures ID_FIELD in r
    ensures ID_FIELD in d ==> r == d
    ensures ID_FIELD !in d ==> r == d[ID_FIELD := Oid(generated)]
  {
    if ID_FIELD in d then d else d[ID_FIELD := Oid(generated)]
  }

  lemma AppendWellFormed(c: seq<Doc>, d: Doc)
    requires ID_FIELD in d && !IdTaken(c, d[ID_FIELD])
    ensures WellFormed(c) ==> WellFormed(c + [d])
  {
    var c' := c + [d];
    if WellFormed(c) {
      forall i, j | 0 <= i < j < |c'| ensures IdOf(c'[i]) != IdOf(c'[j]) {
        if j == |c| {
          assert c'[i] == c[i];
        }
      }
    }
  }

  /**
    The upsert branch shared by `updateOne` and `updateMany` when nothing
    matched: the filter's equality fields with the patch applied, under the
    `_id` either of them gives or a generated one. A patch that would give
    the new document another `_id` than the filter names is refused.
   */
  function UpsertNew(c: seq<Doc>, filter: Doc, patch: Doc): (r: Result<Updated, WriteError>)
    ensures r.Ok? && WellFormed(c) ==> WellFormed(r.value.docs)
    ensures ID_FIELD !in filter && ID_FIELD !in patch ==> r.Ok?
    ensures ID_FIELD in filter && ID_FIELD in patch && filter[ID_FIELD] != patch[ID_FIELD] ==> r == Err(ImmutableField)
  {
    var d := WithId(SetFields(filter, patch), OidBound(c));
    if ID_FIELD in filter && ID_FIELD in patch && filter[ID_FIELD] != patch[ID_FIELD] then Err(ImmutableField)
    else if IdTaken(c, d[ID_FIELD]) then Err(DuplicateKey)
    else
      AppendWellFormed(c, d);
      Ok(Updated(c + [d], UpdateSummary(0, 0, Some(d[ID_FIELD]))))
  }

  /** When nothing matches a filter on `_id` alone, no document has that `_id`. */
  lemma UnmatchedIdIsFree(c: seq<Doc>, filter: Doc)
    requires forall j :: 0 <= j < |c| ==> !Matches(c[j], filter)
    ensures ID_FIELD in filter && filter.Keys == {ID_FIELD} ==> !IdTaken(c, filter[ID_FIELD])
  {
    if ID_FIELD in filter && filter.Keys == {ID_FIELD} {
      forall j | 0 <= j < |c| ensures IdOf(c[j]) != Some(filter[ID_FIELD]) {
        if IdOf(c[j]) == Some(filter[ID_FIELD]) {
          assert Matches(c[j], filter);
        }
      }
    }
  }

  /** `updateOne(filter, {$set: patch}, {upsert: true})`. */
  function UpdateOneUpsert(c: seq<Doc>, filter: Doc, patch: Doc): (r: Result<Updated, WriteError>)
    ensures r.Ok? && WellFormed(c) ==> WellFormed(r.value.docs)
    ensures ID_FIELD !in patch && (ID_FIELD in filter ==> filter.Keys == {ID_FIELD}) ==> r.Ok?
  {
    match FirstMatch(c, filter)
    case Some(i) =>
      if ID_FIELD in patch && IdOf(c[i]) != Some(patch[ID_FIELD]) then Err(ImmutableField)
      else
        var d := SetFields(c[i], patch);
        assert IdOf(d) == IdOf(c[i]);
        Ok(Updated(c[i := d], UpdateSummary(1, if d == c[i] then 0 else 1, None)))
    case None =>
      UnmatchedIdIsFree(c, filter);
      UpsertNew(c, filter, patch)
  }

  /** `updateOne` when document `i` is the first match and the patch leaves `_id` alone: that document gets the patch. */
  lemma UpdateOneMatched(c: seq<Doc>, filter: Doc, patch: Doc, i: nat)
    requires FirstMatch(c, filter) == Some(i) && ID_FIELD !in patch
    ensures UpdateOneUpsert(c, filter, patch)
         == Ok(Updated(c[i := SetFields(c[i], patch)],
                       UpdateSummary(1, if SetFields(c[i], patch) == c[i] then 0 else 1, None)))
  {
  }

  /** `updateOne` when nothing matches and no `_id` is named: the upserted document is appended under a generated `_id`. */
  lemma UpdateOneUnmatched(c: seq<Doc>, filter: Doc, patch: Doc)
    requires FirstMatch(c, filter).None? && ID_FIELD !in filter && ID_FIELD !in patch
    ensures UpdateOneUpsert(c, filter, patch)
         == Ok(Updated(c + [SetFields(filter, patch)[ID_FIELD := Oid(OidBound(c))]],
                       UpdateSummary(0, 0, Some(Oid(OidBound(c))))))
  {
  }

  /** `updateOne` on an `_id` no document has: the upserted document keeps the filter's `_id`. */
  lemma UpdateOneUnmatchedId(c: seq<Doc>, filter: Doc, patch: Doc)
    requires FirstMatch(c, filter).None? && ID_FIELD in filter && filter.Keys == {ID_FIELD} && ID_FIELD !in patch
    ensures UpdateOneUpsert(c, filter, patch)
         == Ok(Updated(c + [SetFields(filter, patch)], UpdateSummary(0, 0, Some(filter[ID_FIELD]))))
  {
  }

  /** Setting a field `f` other than the filter's key on the first match keeps it the first match. */
  lemma FlaggedFirstMatch(c: seq<Doc>, key: string, value: Value, f: string, v: Value, i: nat)
    requires f != key && FirstMatch(c, map[key := value]) == Some(i)
    ensures var after := c[i := c[i][f := v]];
            && FirstMatch(after, map[key := value]) == Some(i) && f in after[i] && after[i][f] == v
            && (forall j :: 0 <= j < |c| && !Matches(c[j], map[key := value]) ==> after[j] == c[j])
  {
    var after := c[i := c[i][f := v]];
    assert Matches(after[i], map[key := value]);
    FirstMatchIs(after, map[key := value], i);
  }

  /** A document `{key: value, f: v, ...}` appended where nothing matched becomes the first match. */
  lemma FlaggedAppended(c: seq<Doc>, key: string, value: Value, f: string, v: Value, n: Id)
    requires f != key && key != ID_FIELD && f != ID_FIELD && FirstMatch(c, map[key := value]).None?
    ensures var after := c + [map[key := value, f := v, ID_FIELD := Oid(n)]];
            && FirstMatch(after, map[key := value]) == Some(|c|) && f in after[|c|] && after[|c|][f] == v
  {
    var after := c + [map[key := value, f := v, ID_FIELD := Oid(n)]];
    assert Matches(after[|c|], map[key := value]);
    FirstMatchIs(after, map[key := value], |c|);
  }

  /**
    `updateOne({key: value}, {$set: {f: v}}, {upsert: true})` with neither
    field `_id`: the first match gains `f: v` and keeps its other fields,
    every other document stays as it was, and with no match `{key: value,
    f: v}` is appended under a generated `_id`; either way the first match
    afterwards holds `f: v`.
   */
  lemma UpsertOneField(c: seq<Doc>, key: string, value: Value, f: string, v: Value)
    requires key != ID_FIELD && f != ID_FIELD && f != key
    ensures UpdateOneUpsert(c, map[key := value], map[f := v]).Ok?
    ensures var after := UpdateOneUpsert(c, map[key := value], map[f := v]).value.docs;
            && (exists k :: FirstMatch(after, map[key := value]) == Some(k) && f in after[k] && after[k][f] == v)
            && (forall j :: 0 <= j < |c| && !Matches(c[j], map[key := value]) ==> after[j] == c[j])
            && match FirstMatch(c, map[key := value])
               case Some(i) => after == c[i := c[i][f := v]]
               case None => after == c + [map[key := value, f := v, ID_FIELD := Oid(OidBound(c))]]
  {
    var filter := map[key := value];
    match FirstMatch(c, filter)
    case Some(i) =>
      UpdateOneMatched(c, filter, map[f := v], i);
      SetOneField(c[i], f, v);
      FlaggedFirstMatch(c, key, value, f, v, i);
    case None =>
      UpdateOneUnmatched(c, filter, map[f := v]);
      SetOneField(filter, f, v);
      FlaggedAppended(c, key, value, f, v, OidBound(c));
  }

  /** The document after `updateMany`'s `$set` when it matches, unchanged otherwise. */
  function SetIfMatching(d: Doc, filter: Doc, patch: Doc): Doc {
    if Matches(d, filter) then SetFields(d, patch) else d
  }

  /** `updateMany`'s effect on the matched documents: every match gets the patch, nothing else changes. */
  function SetMatching(c: seq<Doc>, filter: Doc, patch: Doc): (r: seq<Doc>)
    ensures |r| == |c|
    ensures forall i :: 0 <= i < |c| ==> r[i] == SetIfMatching(c[i], filter, patch)
  {
    if |c| == 0 then []
    else SetMatching(c[..|c| - 1], filter, patch) + [SetIfMatching(c[|c| - 1], filter, patch)]
  }

  /** How many documents match `filter`. */
  function CountMatching(c: seq<Doc>, filter: Doc): (n: nat)
    ensures n <= |c|
    ensures n == 0 <==> forall i :: 0 <= i < |c| ==> !Matches(c[i], filter)
  {
    if |c| == 0 then 0
    else CountMatching(c[..|c| - 1], filter) + (if Matches(c[|c| - 1], filter) then 1 else 0)
  }

  /** How many matching documents the patch actually changes (MongoDB's `modifiedCount`). */
  function CountChanged(c: seq<Doc>, filter: Doc, patch: Doc): nat {
    if |c| == 0 then 0
    else
      var d := c[|c| - 1];
      CountChanged(c[..|c| - 1], filter, patch) + (if Matches(d, filter) && SetFields(d, patch) != d then 1 else 0)
  }

  /** `updateMany(filter, {$set: patch}, {upsert: true})` for a patch that leaves `_id` alone. */
  function UpdateManyUpsert(c: seq<Doc>, filter: Doc, patch: Doc): (r: Result<Updated, WriteError>)
    requires ID_FIELD !in patch
    ensures r.Ok? && WellFormed(c) ==> WellFormed(r.value.docs)
    ensures ID_FIELD !in filter ==> r.Ok?
  {
    var matched := CountMatching(c, filter);
    if matched == 0 then UpsertNew(c, filter, patch)
    else
      var docs := SetMatching(c, filter, patch);
      assert forall i :: 0 <= i < |c| ==> IdOf(docs[i]) == IdOf(c[i]);
      Ok(Updated(docs, UpdateSummary(matched, CountChanged(c, filter, patch), None)))
  }

  /** What one more document adds to `updateMany`'s effect and counts. */
  lemma PrefixStep(c: seq<Doc>, i: nat, filter: Doc, patch: Doc)
    requires i < |c|
    ensures SetMatching(c[..i + 1], filter, patch) == SetMatching(c[..i], filter, patch) + [SetIfMatching(c[i], filter, patch)]
    ensures CountMatching(c[..i + 1], filter) == CountMatching(c[..i], filter) + (if Matches(c[i], filter) then 1 else 0)
    ensures CountChanged(c[..i + 1], filter, patch)
         == CountChanged(c[..i], filter, patch) + (if Matches(c[i], filter) && SetFields(c[i], patch) != c[i] then 1 else 0)
  {
    assert c[..i + 1][..i] == c[..i];
  }

  /** The pass `updateMany` makes over the collection: patch every match, count matches and changes. */
  method SetMatchingLoop(c: seq<Doc>, filter: Doc, patch: Doc) returns (docs: seq<Doc>, matched: nat, modified: nat)
    ensures docs == SetMatching(c, filter, patch)
    ensures matched == CountMatching(c, filter)
    ensures modified == CountChanged(c, filter, patch)
  {
    docs, matched, modified := [], 0, 0;
    var i := 0;
    while i < |c|
      invariant 0 <= i <= |c|
      invariant docs == SetMatching(c[..i], filter, patch)
      invariant matched == CountMatching(c[..i], filter)
      invariant modified == CountChanged(c[..i], filter, patch)
    {
      PrefixStep(c, i, filter, patch);
      var d := c[i];
      var d' := SetIfMatching(d, filter, patch);
      docs := docs + [d'];
      if Matches(d, filter) {
        matched := matched + 1;
        if d' != d {
          modified := modified + 1;
        }
      }
      i := i + 1;
    }
    assert c[..i] == c;
  }

  /** `updateMany` as the store runs it: one pass, then the upsert when nothing matched. */
  method UpdateManyUpsertLoop(c: seq<Doc>, filter: Doc, patch: Doc) returns (r: Result<Updated, WriteError>)
    requires ID_FIELD !in patch
    ensures r == UpdateManyUpsert(c, filter, patch)
  {
    var docs, matched, modified := SetMatchingLoop(c, filter, patch);
    if matched == 0 {
      r := UpsertNew(c, filter, patch);
    } else {
      r := Ok(Updated(docs, UpdateSummary(matched, modified, None)));
    }
  }

  /** `insertOne(d)`: appended under its own `_id` or a generated one; refused when that `_id` is taken. */
  function InsertOne(c: seq<Doc>, d: Doc): (r: Result<Inserted, WriteError>)
    ensures r.Ok? && WellFormed(c) ==> WellFormed(r.value.docs)
    ensures r.Ok? <==> !(ID_FIELD in d && IdTaken(c, d[ID_FIELD]))
    ensures r.Ok? ==> r.value.docs == c + [WithId(d, OidBound(c))] && r.value.insertedId == WithId(d, OidBound(c))[ID_FIELD]
  {
    var doc := WithId(d, OidBound(c));
    if IdTaken(c, doc[ID_FIELD]) then Err(DuplicateKey)
    else
      AppendWellFormed(c, doc);
      Ok(Inserted(c + [doc], doc[ID_FIELD]))
  }

  lemma RemoveWellFormed(c: seq<Doc>, i: nat)
    requires i < |c|
    ensures WellFormed(c) ==> WellFormed(c[..i] + c[i + 1..])
  {
    var c' := c[..i] + c[i + 1..];
    assert forall k :: 0 <= k < |c'| ==> c'[k] == c[if k < i then k else k + 1];
  }

  /** Removing position `i` shifts the later documents down by one and keeps every other document. */
  lemma RemoveAtKeepsOthers(c: seq<Doc>, i: nat)
    requires i < |c|
    ensures forall k :: 0 <= k < i ==> (c[..i] + c[i + 1..])[k] == c[k]
    ensures forall k :: i < k < |c| ==> (c[..i] + c[i + 1..])[k - 1] == c[k]
    ensures forall j :: 0 <= j < |c| && j != i ==> c[j] in c[..i] + c[i + 1..]
  {
    var after := c[..i] + c[i + 1..];
    forall j | 0 <= j < |c| && j != i ensures c[j] in after {
      if j < i {
        assert after[j] == c[j];
      } else {
        assert after[j - 1] == c[j];
      }
    }
  }

  /** `deleteOne(filter)`: the first matching document is removed, the rest keep their order. */
  function DeleteOne(c: seq<Doc>, filter: Doc): (r: Deleted)
    ensures WellFormed(c) ==> WellFormed(r.docs)
    ensures r.deletedCount == 0 <==> forall i :: 0 <= i < |c| ==> !Matches(c[i], filter)
    ensures |r.docs| + r.deletedCount == |c|
  {
    match FirstMatch(c, filter)
    case None => Deleted(c, 0)
    case Some(i) =>
      RemoveWellFormed(c, i);
      Deleted(c[..i] + c[i + 1..], 1)
  }

  /** `deleteOne` when document `i` is the first match: exactly that one is removed. */
  lemma DeleteOneMatched(c: seq<Doc>, filter: Doc, i: nat)
    requires FirstMatch(c, filter) == Some(i)
    ensures DeleteOne(c, filter) == Deleted(c[..i] + c[i + 1..], 1)
  {
  }
}
