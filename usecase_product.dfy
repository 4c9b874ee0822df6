/**
  ProductUsecase: the product operations over one collection of documents, kept in natural
  (insertion) order. The database's own work (`find_one`, `find`, `insert_one`, `update_one`,
  `delete_one`) is modelled on that sequence; the usecase's decision steps are methods of
  the class, each proved equal to a specification function of the collection.
 */
module ProductUsecases {
  import opened Wrappers
  import opened Documents
  import opened Exceptions
  import opened ModelsBase
  import opened SchemasBase
  import opened ProductSchemas
  import opened ProductModels

  /** What a usecase call can raise: one of the store's exceptions, or the ValidationError
      that `ProductOut(**document)` raises for a document that does not fit the schema. */
  datatype UsecaseError = Raised(exception: StoreException) | ValidationError

  /** Stands for the text of the ValidationError: a fixed placeholder, since pydantic's text
      (the number of failing fields, each field's name and input) is not modelled. */
  const ValidationErrorText := "validation error for ProductOut"

  const UnexpectedUpdatePrefix := "Unexpected error updating product: "

  /** The database's `$regex` test: (pattern, options, subject). Its semantics are the
      database's and stay abstract. */
  type RegexMatch = (string, string, string) -> bool

  /** A `{"$gte": ..., "$lte": ...}` condition; an absent bound is no constraint. */
  datatype PriceBounds = PriceBounds(gte: Option<Decimal>, lte: Option<Decimal>)

  /** A `{"$regex": ..., "$options": ...}` condition. */
  datatype NameRegex = NameRegex(pattern: string, options: string)

  /** The query filters the usecase builds: on `name`, on `price`, or both. */
  datatype Filter = Filter(name: Option<NameRegex>, price: Option<PriceBounds>)

  /** `{}`: matches every document. */
  const EmptyFilter := Filter(None, None)

  const LuxuryMinimum := Decimal(5000, 0)
  const AffordableMinimum := Decimal(0, 0)
  const AffordableMaximum := Decimal(500, 0)

  predicate HasId(doc: Document, u: Uuid)
  {
    "id" in doc && doc["id"] == Id(u)
  }

  /** `find_one({"id": u})`: the position of the first document, in natural order, whose id
      is u. */
  function FindFirst(docs: seq<Document>, u: Uuid): (r: Option<nat>)
    ensures r.Some? ==> r.value < |docs| && HasId(docs[r.value], u)
    ensures r.Some? ==> forall j :: 0 <= j < r.value ==> !HasId(docs[j], u)
    ensures r.None? <==> forall j :: 0 <= j < |docs| ==> !HasId(docs[j], u)
  {
    if docs == [] then None
    else if HasId(docs[0], u) then Some(0)
    else match FindFirst(docs[1..], u)
      case None => None
      case Some(i) => Some(i + 1)
  }

  /** The numeric value the database compares for `price`: a Decimal128 or an integer. */
  function NumericPrice(doc: Document): Option<Decimal>
  {
    if "price" !in doc then None
    else match doc["price"]
      case Dec128(d) => Some(d)
      case Int(i) => Some(Decimal(i, 0))
      case _ => None
  }

  predicate PriceWithin(doc: Document, b: PriceBounds)
  {
    match NumericPrice(doc)
    case None => false
    case Some(p) => (b.gte.None? || AtMost(b.gte.value, p)) && (b.lte.None? || AtMost(p, b.lte.value))
  }

  predicate NameMatches(doc: Document, n: NameRegex, regex: RegexMatch)
  {
    "name" in doc && doc["name"].Text? && regex(n.pattern, n.options, doc["name"].s)
  }

  predicate Matches(doc: Document, f: Filter, regex: RegexMatch)
  {
    (f.name.None? || NameMatches(doc, f.name.value, regex)) && (f.price.None? || PriceWithin(doc, f.price.value))
  }

  /** `find(filter)`: the matching documents, in natural order. */
  function Select(docs: seq<Document>, f: Filter, regex: RegexMatch): (r: seq<Document>)
    ensures |r| <= |docs|
  {
    if docs == [] then []
    else
      var last := docs[|docs| - 1];
      Select(docs[..|docs| - 1], f, regex) + (if Matches(last, f, regex) then [last] else [])
  }

  /** `find(filter)` yields exactly the documents of the collection that match the filter. */
  lemma {:induction false} SelectMembers(docs: seq<Document>, f: Filter, regex: RegexMatch)
    ensures forall d :: d in Select(docs, f, regex) <==> d in docs && Matches(d, f, regex)
  {
    if docs != [] {
      var init, last := docs[..|docs| - 1], docs[|docs| - 1];
      assert docs == init + [last];
      SelectMembers(init, f, regex);
    }
  }

  /** Reading each document of a cursor as ProductOut, in order; the first document that does
      not validate raises. */
  function ReadAll(docs: seq<Document>): (r: Result<seq<ProductOut>, UsecaseError>)
    ensures r.Success? ==> |r.value| == |docs|
    ensures r.Failure? ==> r.error == ValidationError
  {
    if docs == [] then Success([])
    else
      match ReadAll(docs[..|docs| - 1])
      case Failure(e) => Failure(e)
      case Success(ps) =>
        match ReadProduct(docs[|docs| - 1])
        case None => Failure(ValidationError)
        case Some(p) => Success(ps + [p])
  }

  /** Reading one more document: the cursor read so far, extended by that document's record,
      or the validation error. */
  lemma ReadAllSnoc(docs: seq<Document>, d: Document)
    ensures ReadAll(docs + [d]) ==
      if ReadAll(docs).Success? && ReadProduct(d).Some?
      then Success(ReadAll(docs).value + [ReadProduct(d).value])
      else Failure(ValidationError)
  {
    assert (docs + [d])[..|docs|] == docs;
    assert (docs + [d])[|docs|] == d;
  }

  /** A cursor reads successfully exactly when every document validates. */
  lemma {:induction false} ReadAllSucceedsIff(docs: seq<Document>)
    ensures ReadAll(docs).Success? <==> forall i :: 0 <= i < |docs| ==> ReadProduct(docs[i]).Some?
  {
    if docs != [] {
      var init, last := docs[..|docs| - 1], docs[|docs| - 1];
      assert docs == init + [last];
      ReadAllSucceedsIff(init);
      ReadAllSnoc(init, last);
    }
  }

  /** On success the i-th record is the i-th document read. */
  lemma {:induction false} ReadAllPointwise(docs: seq<Document>)
    requires ReadAll(docs).Success?
    ensures forall i :: 0 <= i < |docs| ==> ReadProduct(docs[i]) == Some(ReadAll(docs).value[i])
  {
    if docs != [] {
      var init, last := docs[..|docs| - 1], docs[|docs| - 1];
      assert docs == init + [last];
      ReadAllSnoc(init, last);
      ReadAllPointwise(init);
    }
  }

  /** The prefix one longer is the prefix followed by the next document. */
  lemma PrefixGrows(docs: seq<Document>, i: nat)
    requires i < |docs|
    ensures docs[..i + 1] == docs[..i] + [docs[i]]
  {
  }

  /** A cursor that fails to read on a prefix fails as a whole. */
  lemma ReadAllFailsFromPrefix(docs: seq<Document>, n: nat)
    requires n <= |docs|
    requires ReadAll(docs[..n]).Failure?
    ensures ReadAll(docs).Failure?
  {
    ReadAllSucceedsIff(docs[..n]);
    ReadAllSucceedsIff(docs);
    var i :| 0 <= i < n && ReadProduct(docs[..n][i]).None?;
    assert docs[i] == docs[..n][i];
  }

  /** `query(filter)`. */
  function QueryOutcome(docs: seq<Document>, f: Filter, regex: RegexMatch): (r: Result<seq<ProductOut>, UsecaseError>)
    ensures r.Success? ==> |r.value| <= |docs|
    ensures r.Failure? ==> r.error == ValidationError
  {
    ReadAll(Select(docs, f, regex))
  }

  /** The filter of `query_by_price_range`; the upper bound `float("inf")` is None. */
  function PriceRangeFilter(minPrice: Decimal, maxPrice: Option<Decimal>): Filter
  {
    Filter(None, Some(PriceBounds(Some(minPrice), maxPrice)))
  }

  /** The filter of `search_products`. */
  function SearchFilter(term: string): Filter
  {
    Filter(Some(NameRegex(term, "i")), None)
  }

  /** Python truthiness of an optional string: neither None nor empty. */
  predicate Truthy(s: Option<string>)
  {
    s.Some? && s.value != ""
  }

  /** The filter `query_by_category_and_price` assembles. */
  function CategoryAndPriceFilter(category: Option<string>, minPrice: Option<Decimal>, maxPrice: Option<Decimal>): (f: Filter)
    ensures f.name.Some? <==> Truthy(category)
    ensures f.name.Some? ==> f.name.value == NameRegex(category.value, "i")
    ensures f.price.Some? <==> minPrice.Some? || maxPrice.Some?
    ensures f.price.Some? ==> f.price.value.gte == minPrice && f.price.value.lte == maxPrice
  {
    Filter(
      if Truthy(category) then Some(NameRegex(category.value, "i")) else None,
      if minPrice.Some? || maxPrice.Some? then Some(PriceBounds(minPrice, maxPrice)) else None)
  }

  /** `get(id)`. */
  function GetOutcome(docs: seq<Document>, id: string): (r: Result<ProductOut, UsecaseError>)
    ensures r.Failure? ==>
      r.error == ValidationError || r.error == Raised(InvalidProductId(id)) || r.error == Raised(ProductNotFound(id))
  {
    match ParseUuid(id)
    case None => Failure(Raised(InvalidProductId(id)))
    case Some(u) =>
      match FindFirst(docs, u)
      case None => Failure(Raised(ProductNotFound(id)))
      case Some(i) =>
        match ReadProduct(docs[i])
        case None => Failure(ValidationError)
        case Some(p) => Success(p)
  }

  /** The timestamp step of `update`: `updated_at` is added at `now` unless already present. */
  function StampUpdatedAt(updateData: Document, now: Time): (r: Document)
    ensures r.Keys == updateData.Keys + {"updated_at"}
    ensures forall k :: k in updateData ==> r[k] == updateData[k]
    ensures "updated_at" !in updateData ==> r["updated_at"] == DateTime(now)
  {
    if "updated_at" in updateData then updateData else updateData["updated_at" := DateTime(now)]
  }

  /** `update_one({"id": u}, {"$set": data})`: the first matching document gets the given
      fields, everything else stays. */
  function SetOnFirst(docs: seq<Document>, u: Uuid, data: Document): (r: seq<Document>)
    ensures |r| == |docs|
    ensures forall j :: 0 <= j < |docs| && FindFirst(docs, u) != Some(j) ==> r[j] == docs[j]
  {
    match FindFirst(docs, u)
    case None => docs
    case Some(i) => docs[i := docs[i] + data]
  }

  /** `delete_one({"id": u})`: the first matching document is removed. */
  function RemoveFirst(docs: seq<Document>, u: Uuid): (r: seq<Document>)
    ensures |r| == if FindFirst(docs, u).Some? then |docs| - 1 else |docs|
  {
    match FindFirst(docs, u)
    case None => docs
    case Some(i) => docs[..i] + docs[i + 1..]
  }

  /** How `update` passes on the outcome of its final `get`: a not-found is re-raised, any
      other exception becomes an update error. */
  function UpdateReadBack(g: Result<ProductOut, UsecaseError>): (r: Result<ProductOut, UsecaseError>)
    ensures r.Success? <==> g.Success?
    ensures g.Success? ==> r == g
    ensures r.Failure? ==> r.error.Raised? && (r.error.exception.ProductNotFound? || r.error.exception.ProductUpdateError?)
    ensures r.Failure? && r.error.exception.ProductNotFound? ==> r == g
  {
    match g
    case Success(p) => Success(p)
    case Failure(ValidationError) =>
      Failure(Raised(ProductUpdateError(UnexpectedUpdatePrefix + ValidationErrorText)))
    case Failure(Raised(e)) =>
      if e.ProductNotFound? then g
      else Failure(Raised(ProductUpdateError(UnexpectedUpdatePrefix + e.Str())))
  }

  /** `update(id, body)`: the outcome and the collection afterwards. */
  function UpdateOutcome(docs: seq<Document>, id: string, body: ProductUpdate, now: Time): (r: (Result<ProductOut, UsecaseError>, seq<Document>))
    ensures |r.1| == |docs|
    ensures r.0.Failure? ==> r.0.error.Raised?
  {
    var updateData := DumpUpdate(body);
    if updateData == map[] then
      (Failure(Raised(ProductUpdateError("No fields to update"))), docs)
    else
      match ParseUuid(id)
      case None => (Failure(Raised(InvalidProductId(id))), docs)
      case Some(u) =>
        if FindFirst(docs, u).None? then
          (Failure(Raised(ProductNotFound(id))), docs)
        else
          var after := SetOnFirst(docs, u, StampUpdatedAt(updateData, now));
          (UpdateReadBack(GetOutcome(after, id)), after)
  }

  /** `delete(id)`: the outcome and the collection afterwards. */
  function DeleteOutcome(docs: seq<Document>, id: string): (r: (Result<bool, UsecaseError>, seq<Document>))
    ensures r.0.Success? ==> r.0.value && |r.1| == |docs| - 1
    ensures r.0.Failure? ==> r.1 == docs
  {
    match ParseUuid(id)
    case None => (Failure(Raised(InvalidProductId(id))), docs)
    case Some(u) =>
      if FindFirst(docs, u).None? then
        (Failure(Raised(ProductNotFound(id))), docs)
      else
        (Success(true), RemoveFirst(docs, u))
  }

  /** The body of `query_by_category_and_price` that assembles its filter step by step. */
  method BuildCategoryAndPriceFilter(category: Option<string>, minPrice: Option<Decimal>, maxPrice: Option<Decimal>)
    returns (filters: Filter)
    ensures filters == CategoryAndPriceFilter(category, minPrice, maxPrice)
  {
    filters := EmptyFilter;
    if Truthy(category) {
      filters := filters.(name := Some(NameRegex(category.value, "i")));
    }
    if minPrice.Some? || maxPrice.Some? {
      var priceFilter := PriceBounds(None, None);
      if minPrice.Some? {
        priceFilter := priceFilter.(gte := minPrice);
      }
      if maxPrice.Some? {
        priceFilter := priceFilter.(lte := maxPrice);
      }
      filters := filters.(price := Some(priceFilter));
    }
  }

  class ProductUsecase {
    /** The `products` collection, in natural order. */
    var documents: seq<Document>
    /** The database's `$regex` matcher. */
    const regex: RegexMatch

    /** Binds the `products` collection, which may already hold documents. */
    constructor(regex: RegexMatch, initial: seq<Document>)
      ensures documents == initial && this.regex == regex
    {
      documents := initial;
      this.regex := regex;
    }

    /** `insert_one(doc)`. */
    method InsertOne(doc: Document)
      modifies this
      ensures documents == old(documents) + [doc]
    {
      documents := documents + [doc];
    }

    /** `update_one({"id": u}, {"$set": data})`, returning `matched_count`. */
    method UpdateOne(u: Uuid, data: Document) returns (matchedCount: nat)
      modifies this
      ensures documents == SetOnFirst(old(documents), u, data)
      ensures matchedCount == if FindFirst(old(documents), u).Some? then 1 else 0
    {
      var found := FindFirst(documents, u);
      if found.Some? {
        documents := documents[found.value := documents[found.value] + data];
        matchedCount := 1;
      } else {
        matchedCount := 0;
      }
    }

    /** `delete_one({"id": u})`, returning `deleted_count`. */
    method DeleteOne(u: Uuid) returns (deletedCount: nat)
      modifies this
      ensures documents == RemoveFirst(old(documents), u)
      ensures deletedCount == if FindFirst(old(documents), u).Some? then 1 else 0
    {
      var found := FindFirst(documents, u);
      if found.Some? {
        documents := documents[..found.value] + documents[found.value + 1..];
        deletedCount := 1;
      } else {
        deletedCount := 0;
      }
    }

    /** `create(body)`: builds the model, inserts its serialised form, and answers with
        `ProductOut(**model.model_dump())`. */
    method Create(body: ProductIn, uuid4: Uuid, utcNow1: Time, utcNow2: Time) returns (out: ProductOut)
      requires WellFormed(uuid4)
      modifies this
      ensures out == NewProductModel(body, uuid4, utcNow1, utcNow2)
      ensures documents == old(documents) + [ModelDump(out)]
    {
      var model := NewProductModel(body, uuid4, utcNow1, utcNow2);
      var inserted := SetModel(Fields(model));
      InsertOne(inserted);
      var dumped := SetModel(Fields(model));
      var data := SetSchema(dumped);
      var product := Validate(data);
      ModelDumpReadsBack(model);
      out := product.value;
    }

    /** `get(id)`: the id is validated before the collection is read. */
    method Get(id: string) returns (r: Result<ProductOut, UsecaseError>)
      ensures r == GetOutcome(documents, id)
    {
      var parsed := ParseUuid(id);
      if parsed.None? {
        return Failure(Raised(InvalidProductId(id)));
      }
      var found := FindFirst(documents, parsed.value);
      if found.None? {
        return Failure(Raised(ProductNotFound(id)));
      }
      var data := SetSchema(documents[found.value]);
      var product := Validate(data);
      if product.None? {
        return Failure(ValidationError);
      }
      return Success(product.value);
    }

    /** `query(filters)`: every matching document read as ProductOut and appended in order. */
    method Query(filters: Filter) returns (r: Result<seq<ProductOut>, UsecaseError>)
      ensures r == QueryOutcome(documents, filters, regex)
    {
      var cursor := Select(documents, filters, regex);
      var products: seq<ProductOut> := [];
      var i := 0;
      while i < |cursor|
        invariant 0 <= i <= |cursor|
        invariant ReadAll(cursor[..i]) == Success(products)
      {
        var data := SetSchema(cursor[i]);
        var product := Validate(data);
        PrefixGrows(cursor, i);
        ReadAllSnoc(cursor[..i], cursor[i]);
        if product.None? {
          ReadAllFailsFromPrefix(cursor, i + 1);
          return Failure(ValidationError);
        }
        products := products + [product.value];
        i := i + 1;
      }
      assert cursor[..i] == cursor;
      return Success(products);
    }

    /** `query_by_price_range(min_price, max_price)`: both bounds inclusive. */
    method QueryByPriceRange(minPrice: Decimal, maxPrice: Option<Decimal>) returns (r: Result<seq<ProductOut>, UsecaseError>)
      ensures r == QueryOutcome(documents, PriceRangeFilter(minPrice, maxPrice), regex)
    {
      r := Query(PriceRangeFilter(minPrice, maxPrice));
    }

    /** `query_by_category_and_price(category, min_price, max_price)`. */
    method QueryByCategoryAndPrice(category: Option<string>, minPrice: Option<Decimal>, maxPrice: Option<Decimal>)
      returns (r: Result<seq<ProductOut>, UsecaseError>)
      ensures r == QueryOutcome(documents, CategoryAndPriceFilter(category, minPrice, maxPrice), regex)
    {
      var filters := BuildCategoryAndPriceFilter(category, minPrice, maxPrice);
      r := Query(filters);
    }

    /** `get_luxury_products()`: the range from 5000 up, with no upper bound. */
    method GetLuxuryProducts() returns (r: Result<seq<ProductOut>, UsecaseError>)
      ensures r == QueryOutcome(documents, PriceRangeFilter(LuxuryMinimum, None), regex)
    {
      r := QueryByPriceRange(LuxuryMinimum, None);
    }

    /** `get_affordable_products()`: the range 0 to 500. */
    method GetAffordableProducts() returns (r: Result<seq<ProductOut>, UsecaseError>)
      ensures r == QueryOutcome(documents, PriceRangeFilter(AffordableMinimum, Some(AffordableMaximum)), regex)
    {
      r := QueryByPriceRange(AffordableMinimum, Some(AffordableMaximum));
    }

    /** `search_products(search_term)`: a case-insensitive regex on the name. */
    method SearchProducts(searchTerm: string) returns (r: Result<seq<ProductOut>, UsecaseError>)
      ensures r == QueryOutcome(documents, SearchFilter(searchTerm), regex)
    {
      r := Query(SearchFilter(searchTerm));
    }

    /** `update(id, body)`: the empty-body check, then the id check, then the existence read,
        then the write, then the re-read. */
    method Update(id: string, body: ProductUpdate, now: Time) returns (r: Result<ProductOut, UsecaseError>)
      modifies this
      ensures (r, documents) == UpdateOutcome(old(documents), id, body, now)
    {
      var updateData := DumpUpdate(body);
      if updateData == map[] {
        return Failure(Raised(ProductUpdateError("No fields to update")));
      }
      var parsed := ParseUuid(id);
      if parsed.None? {
        return Failure(Raised(InvalidProductId(id)));
      }
      var existing := FindFirst(documents, parsed.value);
      if existing.None? {
        return Failure(Raised(ProductNotFound(id)));
      }
      if "updated_at" !in updateData {
        updateData := updateData["updated_at" := DateTime(now)];
      }
      var matchedCount := UpdateOne(parsed.value, updateData);
      if matchedCount == 0 {
        return Failure(Raised(ProductNotFound(id)));
      }
      var reread := Get(id);
      r := UpdateReadBack(reread);
    }

    /** `delete(id)`: the id check, then the existence read, then the removal. */
    method Delete(id: string) returns (r: Result<bool, UsecaseError>)
      modifies this
      ensures (r, documents) == DeleteOutcome(old(documents), id)
    {
      var parsed := ParseUuid(id);
      if parsed.None? {
        return Failure(Raised(InvalidProductId(id)));
      }
      var existing := FindFirst(documents, parsed.value);
      if existing.None? {
        return Failure(Raised(ProductNotFound(id)));
      }
      var deletedCount := DeleteOne(parsed.value);
      return Success(deletedCount > 0);
    }
  }
}
