/**
  What the product operations promise, stated over the specification functions of
  ProductUsecases: the order of the checks, the round trip from create to get, the exact
  effect of update and delete on the collection, and the bounds of the price filters.
 */
module UsecaseProperties {
  import opened Wrappers
  import opened Documents
  import opened Exceptions
  import opened SchemasBase
  import opened ProductSchemas
  import opened ProductModels
  import opened ProductUsecases

  /** No id occurs in two documents of the collection. */
  predicate UniqueIds(docs: seq<Document>)
  {
    forall a, b :: 0 <= a < b < |docs| && "id" in docs[a] && "id" in docs[b] ==> docs[a]["id"] != docs[b]["id"]
  }

  /** No document of the collection carries the id u. */
  predicate Absent(docs: seq<Document>, u: Uuid)
  {
    forall j :: 0 <= j < |docs| ==> !HasId(docs[j], u)
  }

  // ---------------------------------------------------------------------------------------
  // get

  /** `get` raises InvalidProductId exactly for a malformed id, ProductNotFound exactly for a
      well-formed id no document carries, and otherwise answers with the first document
      carrying that id, read as ProductOut, whose id is the one asked for. */
  lemma GetSpecification(docs: seq<Document>, id: string)
    ensures GetOutcome(docs, id) == Failure(Raised(InvalidProductId(id))) <==> !IsUuid(id)
    ensures GetOutcome(docs, id) == Failure(Raised(ProductNotFound(id))) <==>
      IsUuid(id) && Absent(docs, ParseUuid(id).value)
    ensures GetOutcome(docs, id).Success? ==>
      && IsUuid(id)
      && FindFirst(docs, ParseUuid(id).value).Some?
      && ReadProduct(docs[FindFirst(docs, ParseUuid(id).value).value]) == Some(GetOutcome(docs, id).value)
      && GetOutcome(docs, id).value.id == ParseUuid(id).value
    ensures IsUuid(id) && !Absent(docs, ParseUuid(id).value) ==>
      var i := FindFirst(docs, ParseUuid(id).value).value;
      GetOutcome(docs, id) ==
        if ReadProduct(docs[i]).Some? then Success(ReadProduct(docs[i]).value) else Failure(ValidationError)
  {
    if GetOutcome(docs, id).Success? {
      var u := ParseUuid(id).value;
      var i := FindFirst(docs, u).value;
      ReadProductFields(docs[i], GetOutcome(docs, id).value);
    }
  }

  /** `find_one` on a collection grown by one document: an earlier match still wins. */
  lemma FindFirstAppend(docs: seq<Document>, d: Document, u: Uuid)
    ensures FindFirst(docs + [d], u) ==
      if FindFirst(docs, u).Some? then FindFirst(docs, u)
      else if HasId(d, u) then Some(|docs|)
      else None
  {
    var grown := docs + [d];
    assert forall j :: 0 <= j < |docs| ==> grown[j] == docs[j];
    assert grown[|docs|] == d;
  }

  /** A document inserted later never changes what `get` answers for an id already present. */
  lemma GetIgnoresLaterInserts(docs: seq<Document>, d: Document, id: string)
    requires IsUuid(id) && !Absent(docs, ParseUuid(id).value)
    ensures GetOutcome(docs + [d], id) == GetOutcome(docs, id)
  {
    var u := ParseUuid(id).value;
    FindFirstAppend(docs, d, u);
    var i := FindFirst(docs, u).value;
    assert (docs + [d])[i] == docs[i];
  }

  // ---------------------------------------------------------------------------------------
  // create

  /** The create/get round trip: after `create` inserts the serialised model with a fresh
      id, `get` on that id's string form answers with the very record `create` returned. */
  lemma CreateThenGet(docs: seq<Document>, m: ProductModel)
    requires WellFormed(m.id)
    requires Absent(docs, m.id)
    ensures GetOutcome(docs + [ModelDump(m)], FormatUuid(m.id)) == Success(m)
  {
    ParseFormatted(m.id);
    ModelDumpShape(m);
    FindFirstAppend(docs, ModelDump(m), m.id);
    assert (docs + [ModelDump(m)])[|docs|] == ModelDump(m);
    ModelDumpReadsBack(m);
  }

  /** `create` keeps ids unique when the new id is fresh. */
  lemma CreatePreservesUniqueIds(docs: seq<Document>, m: ProductModel)
    requires UniqueIds(docs) && Absent(docs, m.id)
    ensures UniqueIds(docs + [ModelDump(m)])
  {
    ModelDumpShape(m);
    var grown := docs + [ModelDump(m)];
    forall a, b | 0 <= a < b < |grown| && "id" in grown[a] && "id" in grown[b]
      ensures grown[a]["id"] != grown[b]["id"]
    {
      assert grown[a] == docs[a];
      if b < |docs| {
        assert grown[b] == docs[b];
      } else {
        assert grown[b]["id"] == Id(m.id);
        assert !HasId(docs[a], m.id);
      }
    }
  }

  // ---------------------------------------------------------------------------------------
  // update

  /** No field of the update is an explicit null. */
  predicate NoExplicitNull(u: ProductUpdate)
  {
    && (u.quantity.Given? ==> u.quantity.value.Some?)
    && (u.price.Given? ==> u.price.value.Some?)
    && (u.status.Given? ==> u.status.value.Some?)
  }

  /** The record a PATCH is meant to produce: the given fields replaced, `updated_at` the
      time of the update, everything else as it was. */
  function ApplyUpdate(p: ProductOut, u: ProductUpdate, now: Time): ProductOut
    requires NoExplicitNull(u)
  {
    p.(quantity := if u.quantity.Given? then u.quantity.value.value else p.quantity,
       price := if u.price.Given? then u.price.value.value else p.price,
       status := if u.status.Given? then u.status.value.value else p.status,
       updatedAt := now)
  }

  /** The checks of `update` come in a fixed order, and each one that fails leaves the
      collection as it was: an empty body is refused whatever the id, then a malformed id,
      then an id no document carries. */
  lemma UpdateCheckOrder(docs: seq<Document>, id: string, body: ProductUpdate, now: Time)
    ensures body == EmptyUpdate ==>
      UpdateOutcome(docs, id, body, now) == (Failure(Raised(ProductUpdateError("No fields to update"))), docs)
    ensures body != EmptyUpdate && !IsUuid(id) ==>
      UpdateOutcome(docs, id, body, now) == (Failure(Raised(InvalidProductId(id))), docs)
    ensures body != EmptyUpdate && IsUuid(id) && Absent(docs, ParseUuid(id).value) ==>
      UpdateOutcome(docs, id, body, now) == (Failure(Raised(ProductNotFound(id))), docs)
  {
  }

  /** Once the checks pass, `update` writes `$set` to the matched document and answers with
      that very document read back: the re-read finds it again, because the body cannot
      change `id`, and no earlier document carries the id. */
  lemma UpdateRereadsWritten(docs: seq<Document>, id: string, body: ProductUpdate, now: Time)
    requires body != EmptyUpdate && IsUuid(id) && !Absent(docs, ParseUuid(id).value)
    ensures var i := FindFirst(docs, ParseUuid(id).value).value;
      var written := docs[i] + StampUpdatedAt(DumpUpdate(body), now);
      UpdateOutcome(docs, id, body, now) ==
        (UpdateReadBack(if ReadProduct(written).Some? then Success(ReadProduct(written).value) else Failure(ValidationError)),
         docs[i := written])
  {
    var u := ParseUuid(id).value;
    var i := FindFirst(docs, u).value;
    var data := StampUpdatedAt(DumpUpdate(body), now);
    assert "id" !in data by {
      DumpHasNoUpdatedAt(body);
    }
    SetOnFirstRefinds(docs, u, data);
    var after := docs[i := docs[i] + data];
    assert UpdateOutcome(docs, id, body, now) == (UpdateReadBack(GetOutcome(after, id)), after);
    assert after[i] == docs[i] + data;
  }

  /** `$set` of data without an `id` rewrites the first match in place, where `find_one`
      finds it again. */
  lemma SetOnFirstRefinds(docs: seq<Document>, u: Uuid, data: Document)
    requires FindFirst(docs, u).Some? && "id" !in data
    ensures var i := FindFirst(docs, u).value;
      && SetOnFirst(docs, u, data) == docs[i := docs[i] + data]
      && FindFirst(SetOnFirst(docs, u, data), u) == Some(i)
  {
    var i := FindFirst(docs, u).value;
    var after := docs[i := docs[i] + data];
    assert after[i]["id"] == docs[i]["id"];
    assert forall j :: 0 <= j < i ==> after[j] == docs[j];
  }

  /** After the write, `update` answers with a record carrying the requested id, or, when the
      written document no longer validates, with the wrapped validation error; never with
      not-found. */
  lemma UpdateRereadFinds(docs: seq<Document>, id: string, body: ProductUpdate, now: Time)
    requires body != EmptyUpdate && IsUuid(id) && !Absent(docs, ParseUuid(id).value)
    ensures var r := UpdateOutcome(docs, id, body, now).0;
      || (r.Success? && r.value.id == ParseUuid(id).value)
      || r == Failure(Raised(ProductUpdateError(UnexpectedUpdatePrefix + ValidationErrorText)))
  {
    UpdateRereadsWritten(docs, id, body, now);
    var u := ParseUuid(id).value;
    var i := FindFirst(docs, u).value;
    var written := docs[i] + StampUpdatedAt(DumpUpdate(body), now);
    DumpHasNoUpdatedAt(body);
    if ReadProduct(written).Some? {
      assert written["id"] == Id(u);
      ReadProductFields(written, ReadProduct(written).value);
    }
  }

  /** The effect of a successful write on the collection: only the matched document
      changes; it gains exactly the supplied fields and `updated_at`, set to the time of the
      update because the typed body cannot carry it; every other field stays. */
  lemma UpdateEffects(docs: seq<Document>, id: string, body: ProductUpdate, now: Time)
    requires body != EmptyUpdate && IsUuid(id) && !Absent(docs, ParseUuid(id).value)
    ensures var i := FindFirst(docs, ParseUuid(id).value).value;
      var after := UpdateOutcome(docs, id, body, now).1;
      var data := DumpUpdate(body);
      && |after| == |docs|
      && (forall j :: 0 <= j < |docs| && j != i ==> after[j] == docs[j])
      && after[i].Keys == docs[i].Keys + data.Keys + {"updated_at"}
      && (forall k :: k in data ==> after[i][k] == data[k])
      && after[i]["updated_at"] == DateTime(now)
      && (forall k :: k in docs[i] && k !in data && k != "updated_at" ==> after[i][k] == docs[i][k])
  {
    var i := FindFirst(docs, ParseUuid(id).value).value;
    var data := DumpUpdate(body);
    assert UpdateOutcome(docs, id, body, now).1 == docs[i := docs[i] + StampUpdatedAt(data, now)];
    assert "updated_at" !in data by {
      DumpHasNoUpdatedAt(body);
    }
    StampedMerge(docs[i], data, now);
  }

  /** `$set` of caller data without `updated_at`, stamped: the caller's fields and the new
      `updated_at` over the stored fields. */
  lemma StampedMerge(doc: Document, data: Document, now: Time)
    requires "updated_at" !in data
    ensures var merged := doc + StampUpdatedAt(data, now);
      && merged.Keys == doc.Keys + data.Keys + {"updated_at"}
      && (forall k :: k in data ==> merged[k] == data[k])
      && merged["updated_at"] == DateTime(now)
      && (forall k :: k in doc && k !in data && k != "updated_at" ==> merged[k] == doc[k])
  {
  }

  /** `$set` of data without an `id` keeps ids unique. */
  lemma SetOnFirstPreservesUniqueIds(docs: seq<Document>, u: Uuid, data: Document)
    requires UniqueIds(docs) && "id" !in data
    ensures UniqueIds(SetOnFirst(docs, u, data))
  {
    var after := SetOnFirst(docs, u, data);
    assert forall j :: 0 <= j < |after| ==> ("id" in after[j] <==> "id" in docs[j]);
    assert forall j :: 0 <= j < |after| && "id" in after[j] ==> after[j]["id"] == docs[j]["id"];
  }

  /** `update` keeps ids unique: the body cannot touch `id`. */
  lemma UpdatePreservesUniqueIds(docs: seq<Document>, id: string, body: ProductUpdate, now: Time)
    requires UniqueIds(docs)
    ensures UniqueIds(UpdateOutcome(docs, id, body, now).1)
  {
    if body != EmptyUpdate && IsUuid(id) && !Absent(docs, ParseUuid(id).value) {
      var data := StampUpdatedAt(DumpUpdate(body), now);
      DumpHasNoUpdatedAt(body);
      SetOnFirstPreservesUniqueIds(docs, ParseUuid(id).value, data);
    }
  }

  /** The pre-validator works key by key, so it commutes with `$set`'s merge. */
  lemma DecodeMerge(a: Document, b: Document)
    ensures DecodeDecimals(a + b) == DecodeDecimals(a) + DecodeDecimals(b)
  {
    var lhs := DecodeDecimals(a + b);
    var rhs := DecodeDecimals(a) + DecodeDecimals(b);
    assert lhs.Keys == rhs.Keys;
    assert forall k :: k in lhs ==> lhs[k] == rhs[k];
  }

  /** What the decoded `$set` data of a null-free update holds. */
  predicate DeltaAgrees(delta: Document, body: ProductUpdate, now: Time)
    requires NoExplicitNull(body)
  {
    && "updated_at" in delta && delta["updated_at"] == DateTime(now)
    && "id" !in delta && "name" !in delta && "created_at" !in delta
    && ("quantity" in delta <==> body.quantity.Given?)
    && (body.quantity.Given? ==> delta["quantity"] == Int(body.quantity.value.value))
    && ("price" in delta <==> body.price.Given?)
    && (body.price.Given? ==> delta["price"] == Dec(body.price.value.value))
    && ("status" in delta <==> body.status.Given?)
    && (body.status.Given? ==> delta["status"] == Bool(body.status.value.value))
  }

  lemma DecodedUpdateData(body: ProductUpdate, now: Time)
    requires NoExplicitNull(body)
    ensures DeltaAgrees(DecodeDecimals(StampUpdatedAt(DumpUpdate(body), now)), body, now)
  {
    DumpHasNoUpdatedAt(body);
  }

  lemma MergeFields(before: Document, delta: Document, p: ProductOut, body: ProductUpdate, now: Time)
    requires NoExplicitNull(body)
    requires HoldsRecord(before, p)
    requires DeltaAgrees(delta, body, now)
    ensures HoldsRecord(before + delta, ApplyUpdate(p, body, now))
  {
  }

  /** Reading a valid document after `$set` of a null-free update: the record with the given
      fields replaced and the new `updated_at`. */
  lemma ReadMerged(doc: Document, p: ProductOut, body: ProductUpdate, now: Time)
    requires NoExplicitNull(body)
    requires ReadProduct(doc) == Some(p)
    ensures ReadProduct(doc + StampUpdatedAt(DumpUpdate(body), now)) == Some(ApplyUpdate(p, body, now))
  {
    var data := StampUpdatedAt(DumpUpdate(body), now);
    DecodeMerge(doc, data);
    var before := DecodeDecimals(doc);
    var delta := DecodeDecimals(data);
    ValidateIff(before, p);
    DecodedUpdateData(body, now);
    MergeFields(before, delta, p, body, now);
    ValidateIff(before + delta, ApplyUpdate(p, body, now));
  }

  /** Without explicit nulls, `update` answers with the stored record with exactly the given
      fields replaced and `updated_at` moved to the time of the update. */
  lemma UpdateReturnsMerged(docs: seq<Document>, id: string, body: ProductUpdate, now: Time, p: ProductOut)
    requires body != EmptyUpdate && NoExplicitNull(body)
    requires IsUuid(id) && !Absent(docs, ParseUuid(id).value)
    requires ReadProduct(docs[FindFirst(docs, ParseUuid(id).value).value]) == Some(p)
    ensures UpdateOutcome(docs, id, body, now).0 == Success(ApplyUpdate(p, body, now))
  {
    UpdateRereadsWritten(docs, id, body, now);
    ReadMerged(docs[FindFirst(docs, ParseUuid(id).value).value], p, body, now);
  }

  /** A document whose price is null does not read as ProductOut. */
  lemma NullPriceFailsValidation(doc: Document)
    requires "price" in doc && doc["price"] == Null
    ensures ReadProduct(doc) == None
  {
    assert DecodeDecimals(doc)["price"] == Null;
  }

  /** `ProductUpdate(price=None)` given explicitly. */
  const NullPrice := ProductUpdate(Unset, Given(None), Unset)

  /** An explicit null in the body is written to the store as it is: the stored price
      becomes null, the document no longer reads as ProductOut, and `update` raises the
      wrapped validation error after the write has already changed the collection. */
  lemma UpdateWithNullCorrupts(docs: seq<Document>, id: string, now: Time)
    requires IsUuid(id) && !Absent(docs, ParseUuid(id).value)
    ensures var i := FindFirst(docs, ParseUuid(id).value).value;
      UpdateOutcome(docs, id, NullPrice, now) ==
        (Failure(Raised(ProductUpdateError(UnexpectedUpdatePrefix + ValidationErrorText))),
         docs[i := docs[i]["price" := Null]["updated_at" := DateTime(now)]])
  {
    var i := FindFirst(docs, ParseUuid(id).value).value;
    var written := docs[i] + StampUpdatedAt(DumpUpdate(NullPrice), now);
    assert written == docs[i]["price" := Null]["updated_at" := DateTime(now)] by {
      assert DumpUpdate(NullPrice) == map["price" := Null];
      assert StampUpdatedAt(DumpUpdate(NullPrice), now) == map["price" := Null, "updated_at" := DateTime(now)];
    }
    assert ReadProduct(written) == None by {
      NullPriceFailsValidation(written);
    }
    UpdateRereadsWritten(docs, id, NullPrice, now);
  }

  // ---------------------------------------------------------------------------------------
  // delete

  /** `delete` succeeds exactly for a well-formed id some document carries, and then removes
      exactly that id's first document, keeping the others in order; on either error the
      collection is unchanged. */
  lemma DeleteSpecification(docs: seq<Document>, id: string)
    ensures DeleteOutcome(docs, id).0 == Failure(Raised(InvalidProductId(id))) <==> !IsUuid(id)
    ensures DeleteOutcome(docs, id).0 == Failure(Raised(ProductNotFound(id))) <==>
      IsUuid(id) && Absent(docs, ParseUuid(id).value)
    ensures DeleteOutcome(docs, id).0.Failure? ==> DeleteOutcome(docs, id).1 == docs
    ensures DeleteOutcome(docs, id).0.Success? ==>
      && DeleteOutcome(docs, id).0.value
      && IsUuid(id)
      && FindFirst(docs, ParseUuid(id).value).Some?
      && var i := FindFirst(docs, ParseUuid(id).value).value;
         var after := DeleteOutcome(docs, id).1;
         && HasId(docs[i], ParseUuid(id).value)
         && after == docs[..i] + docs[i + 1..]
         && |after| == |docs| - 1
         && multiset(after) + multiset{docs[i]} == multiset(docs)
    ensures IsUuid(id) && !Absent(docs, ParseUuid(id).value) ==> DeleteOutcome(docs, id).0 == Success(true)
  {
    if DeleteOutcome(docs, id).0.Success? {
      var i := FindFirst(docs, ParseUuid(id).value).value;
      assert docs == docs[..i] + [docs[i]] + docs[i + 1..];
    }
  }

  /** With unique ids, a deleted product is gone: `get` on its id reports not-found. */
  lemma DeleteThenGet(docs: seq<Document>, id: string)
    requires UniqueIds(docs)
    requires DeleteOutcome(docs, id).0.Success?
    ensures GetOutcome(DeleteOutcome(docs, id).1, id) == Failure(Raised(ProductNotFound(id)))
  {
    var u := ParseUuid(id).value;
    var i := FindFirst(docs, u).value;
    var after := docs[..i] + docs[i + 1..];
    forall j | 0 <= j < |after| ensures !HasId(after[j], u) {
      if j < i {
        assert after[j] == docs[j];
      } else {
        assert after[j] == docs[j + 1];
        assert "id" in docs[j + 1] ==> docs[i]["id"] != docs[j + 1]["id"];
      }
    }
  }

  /** Removing a document keeps ids unique. */
  lemma RemoveFirstPreservesUniqueIds(docs: seq<Document>, u: Uuid)
    requires UniqueIds(docs)
    ensures UniqueIds(RemoveFirst(docs, u))
  {
    if FindFirst(docs, u).Some? {
      var i := FindFirst(docs, u).value;
      var after := docs[..i] + docs[i + 1..];
      assert forall j :: 0 <= j < |after| ==> after[j] == docs[if j < i then j else j + 1];
    }
  }

  /** `delete` keeps ids unique. */
  lemma DeletePreservesUniqueIds(docs: seq<Document>, id: string)
    requires UniqueIds(docs)
    ensures UniqueIds(DeleteOutcome(docs, id).1)
  {
    if IsUuid(id) {
      RemoveFirstPreservesUniqueIds(docs, ParseUuid(id).value);
    }
  }

  // ---------------------------------------------------------------------------------------
  // queries

  /** `find({})` returns the whole collection in natural order. */
  lemma {:induction false} EmptyFilterSelectsAll(docs: seq<Document>, regex: RegexMatch)
    ensures Select(docs, EmptyFilter, regex) == docs
  {
    if docs != [] {
      var init := docs[..|docs| - 1];
      EmptyFilterSelectsAll(init, regex);
      assert docs == init + [docs[|docs| - 1]];
    }
  }

  /** `find` keeps natural order: the matches of a collection grown at the end are the old
      matches followed by the new ones. */
  lemma {:induction false} SelectAppend(a: seq<Document>, b: seq<Document>, f: Filter, regex: RegexMatch)
    ensures Select(a + b, f, regex) == Select(a, f, regex) + Select(b, f, regex)
  {
    if b == [] {
      assert a + b == a;
    } else {
      var init, last := b[..|b| - 1], b[|b| - 1];
      var tail := if Matches(last, f, regex) then [last] else [];
      SelectAppend(a, init, f, regex);
      assert Select(a + b, f, regex) == Select(a + init, f, regex) + tail by {
        assert (a + b)[..|a + b| - 1] == a + init;
        assert (a + b)[|a + b| - 1] == last;
      }
      assert Select(b, f, regex) == Select(init, f, regex) + tail;
      assert Select(a, f, regex) + Select(init, f, regex) + tail == Select(a, f, regex) + (Select(init, f, regex) + tail);
    }
  }

  /** A successful query answers with exactly the matching documents, each read as ProductOut:
      every matching document's record is in the answer, and every record in the answer comes
      from a matching document. */
  lemma QueryIsMatchingRecords(docs: seq<Document>, f: Filter, regex: RegexMatch)
    requires QueryOutcome(docs, f, regex).Success?
    ensures forall d :: d in docs && Matches(d, f, regex) ==>
      ReadProduct(d).Some? && ReadProduct(d).value in QueryOutcome(docs, f, regex).value
    ensures forall p :: p in QueryOutcome(docs, f, regex).value ==>
      exists d :: d in docs && Matches(d, f, regex) && ReadProduct(d) == Some(p)
  {
    var selected := Select(docs, f, regex);
    var records := QueryOutcome(docs, f, regex).value;
    ReadAllPointwise(selected);
    SelectMembers(docs, f, regex);
    forall d | d in docs && Matches(d, f, regex)
      ensures ReadProduct(d).Some? && ReadProduct(d).value in records
    {
      var k :| 0 <= k < |selected| && selected[k] == d;
      assert ReadProduct(selected[k]) == Some(records[k]);
    }
    forall p | p in records
      ensures exists d :: d in docs && Matches(d, f, regex) && ReadProduct(d) == Some(p)
    {
      var k :| 0 <= k < |records| && records[k] == p;
      assert selected[k] in selected;
      assert ReadProduct(selected[k]) == Some(p);
    }
  }

  /** The price a price filter compares: a document that passes it and reads as a record
      holds that record's price as a Decimal128. */
  lemma MatchedPrice(d: Document, b: PriceBounds, p: ProductOut)
    requires PriceWithin(d, b) && ReadProduct(d) == Some(p)
    ensures NumericPrice(d) == Some(p.price)
  {
    ReadProductFields(d, p);
  }

  /** The bounds of `query_by_price_range` are both inclusive and apply to every record it
      answers with. */
  lemma PriceRangeBounds(docs: seq<Document>, minPrice: Decimal, maxPrice: Option<Decimal>, regex: RegexMatch)
    requires QueryOutcome(docs, PriceRangeFilter(minPrice, maxPrice), regex).Success?
    ensures forall p :: p in QueryOutcome(docs, PriceRangeFilter(minPrice, maxPrice), regex).value ==>
      AtMost(minPrice, p.price) && (maxPrice.None? || AtMost(p.price, maxPrice.value))
  {
    var f := PriceRangeFilter(minPrice, maxPrice);
    QueryIsMatchingRecords(docs, f, regex);
    forall p | p in QueryOutcome(docs, f, regex).value
      ensures AtMost(minPrice, p.price) && (maxPrice.None? || AtMost(p.price, maxPrice.value))
    {
      var d :| d in docs && Matches(d, f, regex) && ReadProduct(d) == Some(p);
      MatchedPrice(d, f.price.value, p);
    }
  }

  /** A document as `create` and `update` write it: it reads back as the record p, and its
      price is stored as a Decimal128, the form the price condition compares. */
  predicate StoredProduct(d: Document, p: ProductOut)
  {
    ReadProduct(d) == Some(p) && "price" in d && d["price"] == Dec128(p.price)
  }

  /** `create` writes a stored product. */
  lemma CreatedIsStored(m: ProductModel)
    ensures StoredProduct(ModelDump(m), m)
  {
    ModelDumpReadsBack(m);
  }

  /** A null-free `update` of a stored product writes a stored product again: the record with
      the given fields replaced and the new `updated_at`. */
  lemma UpdatedIsStored(d: Document, p: ProductOut, body: ProductUpdate, now: Time)
    requires NoExplicitNull(body)
    requires StoredProduct(d, p)
    ensures StoredProduct(d + StampUpdatedAt(DumpUpdate(body), now), ApplyUpdate(p, body, now))
  {
    ReadMerged(d, p, body, now);
    DumpHasNoUpdatedAt(body);
  }

  /** `query_by_price_range` lists a stored product exactly when its price lies within the
      inclusive bounds. */
  lemma PriceRangeExact(docs: seq<Document>, minPrice: Decimal, maxPrice: Option<Decimal>, regex: RegexMatch,
                        d: Document, p: ProductOut)
    requires d in docs && StoredProduct(d, p)
    requires QueryOutcome(docs, PriceRangeFilter(minPrice, maxPrice), regex).Success?
    ensures p in QueryOutcome(docs, PriceRangeFilter(minPrice, maxPrice), regex).value <==>
      AtMost(minPrice, p.price) && (maxPrice.None? || AtMost(p.price, maxPrice.value))
  {
    PriceRangeBounds(docs, minPrice, maxPrice, regex);
    if AtMost(minPrice, p.price) && (maxPrice.None? || AtMost(p.price, maxPrice.value)) {
      QueryIsMatchingRecords(docs, PriceRangeFilter(minPrice, maxPrice), regex);
    }
  }

  /** `get_luxury_products` lists a stored product exactly when its price is at least 5000. */
  lemma LuxuryFromFiveThousand(docs: seq<Document>, regex: RegexMatch, d: Document, p: ProductOut)
    requires d in docs && StoredProduct(d, p)
    requires QueryOutcome(docs, PriceRangeFilter(LuxuryMinimum, None), regex).Success?
    ensures p in QueryOutcome(docs, PriceRangeFilter(LuxuryMinimum, None), regex).value <==>
      AtMost(Decimal(5000, 0), p.price)
  {
    PriceRangeExact(docs, LuxuryMinimum, None, regex, d, p);
  }

  /** `get_affordable_products` lists a stored product exactly when its price lies in
      [0, 500]. */
  lemma AffordableUpToFiveHundred(docs: seq<Document>, regex: RegexMatch, d: Document, p: ProductOut)
    requires d in docs && StoredProduct(d, p)
    requires QueryOutcome(docs, PriceRangeFilter(AffordableMinimum, Some(AffordableMaximum)), regex).Success?
    ensures p in QueryOutcome(docs, PriceRangeFilter(AffordableMinimum, Some(AffordableMaximum)), regex).value <==>
      AtMost(Decimal(0, 0), p.price) && AtMost(p.price, Decimal(500, 0))
  {
    PriceRangeExact(docs, AffordableMinimum, Some(AffordableMaximum), regex, d, p);
  }

  /** `query_by_category_and_price()` with no category (or an empty one) and no bounds is
      `query()`: every document, in natural order; with only a category it is the same
      search as `search_products`. */
  lemma CategoryFilterDefaults(docs: seq<Document>, regex: RegexMatch, category: Option<string>)
    ensures !Truthy(category) ==>
      QueryOutcome(docs, CategoryAndPriceFilter(category, None, None), regex) == ReadAll(docs)
    ensures Truthy(category) ==>
      CategoryAndPriceFilter(category, None, None) == SearchFilter(category.value)
  {
    EmptyFilterSelectsAll(docs, regex);
  }
}
