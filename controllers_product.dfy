/**
  The product routes: each handler calls one usecase operation and turns what it raises into
  an HTTP response. A handler is modelled as a function of the usecase's outcome; an
  exception the handler does not catch escapes to the framework.
 */
module ProductControllers {
  import opened Wrappers
  import opened Documents
  import opened Exceptions
  import opened ProductSchemas
  import opened ProductModels
  import opened ProductUsecases
  import opened UsecaseProperties

  /** What a response carries: one record, a list of records, an error detail, or nothing. */
  datatype Body = Product(product: ProductOut) | Products(products: seq<ProductOut>) | Detail(text: string) | NoContent

  datatype Response = Response(status: int, body: Body)

  /** A handler either answers, or lets the usecase's failure propagate. */
  datatype HandlerResult = Responded(response: Response) | Escaped(failure: UsecaseError)

  const Ok := 200
  const Created := 201
  const NoContentStatus := 204

  const InsertionDetailPrefix := "Erro na inserção do produto: "
  const InternalCreateDetail := "Erro interno do servidor durante a criação do produto"
  const UpdateNotFoundPrefix := "Produto não encontrado para atualização: "

  /** The defaults of `filter_by_price_range`'s query parameters. */
  const DefaultMinPrice := Decimal(5000, 0)
  const DefaultMaxPrice := Decimal(8000, 0)

  /** The failures `get`, `patch` and `delete` catch: ProductNotFound and InvalidProductId. */
  predicate Caught(f: UsecaseError)
  {
    f.Raised? && (f.exception.ProductNotFound? || f.exception.InvalidProductId?)
  }

  /** `post`: 201 with the created record; a ProductInsertionError becomes 422 with its
      message; anything else becomes 500 with a fixed detail. */
  function Post(outcome: Result<ProductOut, UsecaseError>): (h: HandlerResult)
    ensures h.Responded?
    ensures h.response.status == Created <==> outcome.Success?
    ensures outcome.Success? ==> h.response.body == Product(outcome.value)
    ensures outcome.Failure? && outcome.error.Raised? && outcome.error.exception.ProductInsertionError? ==>
      && h.response.status == outcome.error.exception.StatusCode()
      && h.response.body == Detail(InsertionDetailPrefix + outcome.error.exception.Message())
    ensures outcome.Failure? && !(outcome.error.Raised? && outcome.error.exception.ProductInsertionError?) ==>
      h.response == Response(500, Detail(InternalCreateDetail))
  {
    match outcome
    case Success(p) => Responded(Response(Created, Product(p)))
    case Failure(Raised(ProductInsertionError(m))) => Responded(Response(422, Detail(InsertionDetailPrefix + m)))
    case Failure(_) => Responded(Response(500, Detail(InternalCreateDetail)))
  }

  /** The exception-to-response step that `get` and `delete` share: the caught exception's
      own status code and message. */
  function CaughtResponse(e: StoreException): Response
  {
    match e
    case ProductNotFound(_) => Response(404, Detail(e.Message()))
    case _ => Response(400, Detail(e.Message()))
  }

  /** `get`: 200 with the record; ProductNotFound becomes 404 and InvalidProductId 400, each
      with the exception's message; anything else escapes. */
  function Get(outcome: Result<ProductOut, UsecaseError>): (h: HandlerResult)
    ensures outcome.Success? ==> h == Responded(Response(Ok, Product(outcome.value)))
    ensures h.Escaped? <==> outcome.Failure? && !Caught(outcome.error)
    ensures h.Escaped? ==> h.failure == outcome.error
    ensures outcome.Failure? && Caught(outcome.error) ==>
      && h.response.status == outcome.error.exception.StatusCode()
      && h.response.body == Detail(outcome.error.exception.Message())
  {
    match outcome
    case Success(p) => Responded(Response(Ok, Product(p)))
    case Failure(f) => if Caught(f) then Responded(CaughtResponse(f.exception)) else Escaped(f)
  }

  /** `patch`: 200 with the updated record; ProductNotFound becomes 404 with its message
      after a fixed prefix, InvalidProductId 400 with its message; anything else, among it
      every ProductUpdateError, escapes. */
  function Patch(outcome: Result<ProductOut, UsecaseError>): (h: HandlerResult)
    ensures outcome.Success? ==> h == Responded(Response(Ok, Product(outcome.value)))
    ensures h.Escaped? <==> outcome.Failure? && !Caught(outcome.error)
    ensures h.Escaped? ==> h.failure == outcome.error
    ensures outcome.Failure? && Caught(outcome.error) ==>
      h.response.status == outcome.error.exception.StatusCode()
    ensures outcome.Failure? && Caught(outcome.error) && outcome.error.exception.ProductNotFound? ==>
      h.response.body == Detail(UpdateNotFoundPrefix + outcome.error.exception.Message())
    ensures outcome.Failure? && Caught(outcome.error) && outcome.error.exception.InvalidProductId? ==>
      h.response.body == Detail(outcome.error.exception.Message())
  {
    match outcome
    case Success(p) => Responded(Response(Ok, Product(p)))
    case Failure(f) =>
      if f.Raised? && f.exception.ProductNotFound? then
        Responded(Response(404, Detail(UpdateNotFoundPrefix + f.exception.Message())))
      else if f.Raised? && f.exception.InvalidProductId? then
        Responded(Response(400, Detail(f.exception.Message())))
      else
        Escaped(f)
  }

  /** `delete`: 204 with no body whatever the usecase returned; errors as in `get`. */
  function Delete(outcome: Result<bool, UsecaseError>): (h: HandlerResult)
    ensures outcome.Success? ==> h == Responded(Response(NoContentStatus, NoContent))
    ensures h.Escaped? <==> outcome.Failure? && !Caught(outcome.error)
    ensures h.Escaped? ==> h.failure == outcome.error
    ensures outcome.Failure? && Caught(outcome.error) ==>
      && h.response.status == outcome.error.exception.StatusCode()
      && h.response.body == Detail(outcome.error.exception.Message())
  {
    match outcome
    case Success(_) => Responded(Response(NoContentStatus, NoContent))
    case Failure(f) => if Caught(f) then Responded(CaughtResponse(f.exception)) else Escaped(f)
  }

  /** The list routes (`query`, the filters, `search_products`) catch nothing: 200 with the
      records, or the failure escapes. */
  function ListResponse(outcome: Result<seq<ProductOut>, UsecaseError>): (h: HandlerResult)
    ensures h.Responded? <==> outcome.Success?
    ensures outcome.Success? ==> h.response == Response(Ok, Products(outcome.value))
    ensures outcome.Failure? ==> h.failure == outcome.error
  {
    match outcome
    case Success(ps) => Responded(Response(Ok, Products(ps)))
    case Failure(f) => Escaped(f)
  }

  /** `GET /`: every product, in natural order. */
  function QueryRoute(docs: seq<Document>, regex: RegexMatch): (h: HandlerResult)
    ensures h == ListResponse(ReadAll(docs))
  {
    EmptyFilterSelectsAll(docs, regex);
    ListResponse(QueryOutcome(docs, EmptyFilter, regex))
  }

  /** `filter_by_price_range`: `query_by_price_range` with both bounds, by default 5000 and
      8000, answered as it comes; every record answered lies within the bounds, both
      included. */
  function FilterByPriceRange(docs: seq<Document>, regex: RegexMatch,
                              minPrice: Decimal := DefaultMinPrice, maxPrice: Decimal := DefaultMaxPrice): (h: HandlerResult)
    ensures h == ListResponse(QueryOutcome(docs, PriceRangeFilter(minPrice, Some(maxPrice)), regex))
    ensures h.Responded? ==> forall p :: p in h.response.body.products ==> AtMost(minPrice, p.price) && AtMost(p.price, maxPrice)
  {
    PriceRouteWithinBounds(docs, minPrice, Some(maxPrice), regex);
    ListResponse(QueryOutcome(docs, PriceRangeFilter(minPrice, Some(maxPrice)), regex))
  }

  /** `GET /filter/luxury/`: `get_luxury_products` answered as it comes; every record
      answered costs at least 5000. */
  function LuxuryRoute(docs: seq<Document>, regex: RegexMatch): (h: HandlerResult)
    ensures h == ListResponse(QueryOutcome(docs, PriceRangeFilter(LuxuryMinimum, None), regex))
    ensures h.Responded? ==> forall p :: p in h.response.body.products ==> AtMost(LuxuryMinimum, p.price)
  {
    PriceRouteWithinBounds(docs, LuxuryMinimum, None, regex);
    ListResponse(QueryOutcome(docs, PriceRangeFilter(LuxuryMinimum, None), regex))
  }

  /** `GET /filter/affordable/`: `get_affordable_products` answered as it comes; every record
      answered costs between 0 and 500. */
  function AffordableRoute(docs: seq<Document>, regex: RegexMatch): (h: HandlerResult)
    ensures h == ListResponse(QueryOutcome(docs, PriceRangeFilter(AffordableMinimum, Some(AffordableMaximum)), regex))
    ensures h.Responded? ==> forall p :: p in h.response.body.products ==>
      AtMost(AffordableMinimum, p.price) && AtMost(p.price, AffordableMaximum)
  {
    PriceRouteWithinBounds(docs, AffordableMinimum, Some(AffordableMaximum), regex);
    ListResponse(QueryOutcome(docs, PriceRangeFilter(AffordableMinimum, Some(AffordableMaximum)), regex))
  }

  /** `GET /search/?q=...`: `search_products(q)` answered as it comes; every record answered
      has a name the case-insensitive pattern matches. */
  function SearchRoute(docs: seq<Document>, regex: RegexMatch, q: string): (h: HandlerResult)
    ensures h == ListResponse(QueryOutcome(docs, SearchFilter(q), regex))
    ensures h.Responded? ==> forall p :: p in h.response.body.products ==> regex(q, "i", p.name)
  {
    SearchRouteMatches(docs, regex, q);
    ListResponse(QueryOutcome(docs, SearchFilter(q), regex))
  }

  /** A price route's answer, when it answers, lies within its bounds. */
  lemma PriceRouteWithinBounds(docs: seq<Document>, minPrice: Decimal, maxPrice: Option<Decimal>, regex: RegexMatch)
    ensures var h := ListResponse(QueryOutcome(docs, PriceRangeFilter(minPrice, maxPrice), regex));
      h.Responded? ==> forall p :: p in h.response.body.products ==>
        AtMost(minPrice, p.price) && (maxPrice.None? || AtMost(p.price, maxPrice.value))
  {
    if QueryOutcome(docs, PriceRangeFilter(minPrice, maxPrice), regex).Success? {
      PriceRangeBounds(docs, minPrice, maxPrice, regex);
    }
  }

  /** The search route's answer, when it answers, holds only names the pattern matches. */
  lemma SearchRouteMatches(docs: seq<Document>, regex: RegexMatch, q: string)
    ensures var h := ListResponse(QueryOutcome(docs, SearchFilter(q), regex));
      h.Responded? ==> forall p :: p in h.response.body.products ==> regex(q, "i", p.name)
  {
    if QueryOutcome(docs, SearchFilter(q), regex).Success? {
      SearchMatchesName(docs, regex, q);
    }
  }

  /** A stored product (as `create` or `update` wrote it) is in the price-range route's answer
      exactly when its price lies within the bounds, both included. */
  lemma PriceRouteExact(docs: seq<Document>, regex: RegexMatch, minPrice: Decimal, maxPrice: Decimal,
                        d: Document, p: ProductOut)
    requires d in docs && StoredProduct(d, p)
    requires FilterByPriceRange(docs, regex, minPrice, maxPrice).Responded?
    ensures p in FilterByPriceRange(docs, regex, minPrice, maxPrice).response.body.products <==>
      AtMost(minPrice, p.price) && AtMost(p.price, maxPrice)
  {
    PriceRangeExact(docs, minPrice, Some(maxPrice), regex, d, p);
  }

  /** A stored product is in the search route's answer exactly when the pattern matches its
      name. */
  lemma SearchRouteExact(docs: seq<Document>, regex: RegexMatch, q: string, d: Document, p: ProductOut)
    requires d in docs && ReadProduct(d) == Some(p)
    requires SearchRoute(docs, regex, q).Responded?
    ensures p in SearchRoute(docs, regex, q).response.body.products <==> regex(q, "i", p.name)
  {
    SearchMatchesName(docs, regex, q);
    if regex(q, "i", p.name) {
      ReadProductFields(d, p);
      QueryIsMatchingRecords(docs, SearchFilter(q), regex);
    }
  }

  /** Every record `search_products` answers with has a name the pattern matches. */
  lemma SearchMatchesName(docs: seq<Document>, regex: RegexMatch, q: string)
    requires QueryOutcome(docs, SearchFilter(q), regex).Success?
    ensures forall p :: p in QueryOutcome(docs, SearchFilter(q), regex).value ==> regex(q, "i", p.name)
  {
    QueryIsMatchingRecords(docs, SearchFilter(q), regex);
    forall p | p in QueryOutcome(docs, SearchFilter(q), regex).value
      ensures regex(q, "i", p.name)
    {
      var d :| d in docs && Matches(d, SearchFilter(q), regex) && ReadProduct(d) == Some(p);
      ReadProductFields(d, p);
    }
  }

  // ---------------------------------------------------------------------------------------
  // The routes over the usecase

  /** `GET /{id}` answers 400 exactly for a malformed id and 404 exactly for a well-formed id
      no product carries; otherwise 200, or the validation error escapes. */
  lemma GetRouteStatus(docs: seq<Document>, id: string)
    ensures Get(GetOutcome(docs, id)).Responded? && Get(GetOutcome(docs, id)).response.status == 400 <==> !IsUuid(id)
    ensures Get(GetOutcome(docs, id)).Responded? && Get(GetOutcome(docs, id)).response.status == 404 <==>
      IsUuid(id) && Absent(docs, ParseUuid(id).value)
    ensures Get(GetOutcome(docs, id)).Escaped? ==> Get(GetOutcome(docs, id)).failure == ValidationError
  {
    GetSpecification(docs, id);
  }

  /** A created product is served by `GET /{id}` on its id. */
  lemma GetAfterCreate(docs: seq<Document>, m: ProductModel)
    requires WellFormed(m.id) && Absent(docs, m.id)
    ensures Get(GetOutcome(docs + [ModelDump(m)], FormatUuid(m.id))) == Responded(Response(Ok, Product(m)))
  {
    CreateThenGet(docs, m);
  }

  /** A PATCH with an empty body is refused before its id is looked at, and `patch` does not
      catch the refusal: it escapes, whatever the id. */
  lemma PatchEmptyBodyEscapes(docs: seq<Document>, id: string, now: Time)
    ensures Patch(UpdateOutcome(docs, id, EmptyUpdate, now).0) ==
      Escaped(Raised(ProductUpdateError("No fields to update")))
  {
    UpdateCheckOrder(docs, id, EmptyUpdate, now);
  }

  /** A PATCH of an absent product answers 404 with the prefixed not-found message. */
  lemma PatchAbsent(docs: seq<Document>, id: string, body: ProductUpdate, now: Time)
    requires body != EmptyUpdate && IsUuid(id) && Absent(docs, ParseUuid(id).value)
    ensures Patch(UpdateOutcome(docs, id, body, now).0) ==
      Responded(Response(404, Detail(UpdateNotFoundPrefix + NotFoundPrefix + id + NotFoundSuffix)))
  {
    var e := ProductNotFound(id);
    assert UpdateOutcome(docs, id, body, now).0 == Failure(Raised(e)) by {
      UpdateCheckOrder(docs, id, body, now);
    }
    assert Patch(Failure(Raised(e))) == Responded(Response(404, Detail(UpdateNotFoundPrefix + e.Message())));
    assert UpdateNotFoundPrefix + e.Message() == UpdateNotFoundPrefix + NotFoundPrefix + id + NotFoundSuffix;
  }

  /** With unique ids, `DELETE /{id}` answers 204, and a following `GET /{id}` 404. */
  lemma DeleteThenGetRoute(docs: seq<Document>, id: string)
    requires UniqueIds(docs) && IsUuid(id) && !Absent(docs, ParseUuid(id).value)
    ensures Delete(DeleteOutcome(docs, id).0) == Responded(Response(NoContentStatus, NoContent))
    ensures Get(GetOutcome(DeleteOutcome(docs, id).1, id)) ==
      Responded(Response(404, Detail(NotFoundPrefix + id + NotFoundSuffix)))
  {
    DeleteSpecification(docs, id);
    DeleteThenGet(docs, id);
  }
}
