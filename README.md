# Store API product core, modelled in Dafny

This project models the product core of a small FastAPI store service backed by MongoDB:

- the product usecase (`ProductUsecase`): create, get by id, list with a filter, the price-range,
  category, luxury, affordable and search filters, partial update, and delete;
- the exception taxonomy and its messages and status codes;
- the HTTP handlers, seen as mappings from a usecase outcome to a response;
- the serialiser and pre-validator that convert Decimal prices to and from BSON Decimal128;
- the product schemas, including the partial-update dump that keeps only the fields the caller set.

The collection is a sequence of documents in natural (insertion) order. A document is a map
from field names to tagged values (`Documents.Value`). `find_one`, `find`, `insert_one`,
`update_one` and `delete_one` are modelled on that sequence:

- the `find_one` family acts on the first match;
- `$set` merges maps;
- a price condition compares decimals numerically.

`ProductUsecases.ProductUsecase` is a class holding the collection. Each of its methods is
proved equal to a specification function of the old collection, such as `GetOutcome`,
`UpdateOutcome`, `DeleteOutcome` or `QueryOutcome`. The lemmas in `UsecaseProperties` and
`ProductControllers` state what the service promises about those functions.

Decimals keep their representation: `Decimal(85000, -1)` is "8500.0", distinct from "8500".
A UUID string is parsed as `uuid.UUID` parses the ordinary forms: braces stripped, hyphens
dropped, 32 hex digits of either case. The rarer forms it also accepts are listed under
"## Left out". `str(uuid)` is the hyphenated lower-case form.

Clocks, the UUID generator and the database's regular-expression engine are not part of the
model. Their values enter as parameters: `uuid4`, `utcNow1`, `utcNow2`, `now` and the
`regex` matcher the usecase is constructed with.

Behaviour of the code worth knowing, which the model follows:

- `update` checks for an empty body before it validates the id. A PATCH with an empty body
  and a malformed id is refused with "No fields to update", and the PATCH handler does not
  catch that error.
- An explicit `null` in a PATCH body is written to the document. The re-read then fails
  validation, so `update` raises an update error after the collection has already changed
  (`UsecaseProperties.UpdateWithNullCorrupts`).
- `create` stamps `created_at` and `updated_at` with two separate `utcnow()` reads, so they
  need not be equal. `update` stamps with the local `datetime.now()`.
- Both price bounds are inclusive (`$gte`/`$lte`): luxury is [5000, ∞) and affordable is
  [0, 500]. This holds although the handlers' docstrings say "> R$ 5.000", "< R$ 500" and
  "price > 5000 and price < 8000".
- The `get`, `patch` and `delete` handlers catch only not-found and invalid-id. Any other
  failure escapes to the framework.

## Model

| member | source | states |
|---|---|---|
| Documents.ParseUuid | store/usecases/product.py:54-58 | `uuid.UUID(id)` either rejects the string (ValueError) or yields a well-formed id: 32 lower-case hex digits |
| Documents.ParseFormatted | store/usecases/product.py:60-64 | the string form of an id parses back to that same id, so a client can look up the id it was given |
| Documents.FormatDropsHyphens | store/usecases/product.py:60-64 | dropping the hyphens from the 8-4-4-4-12 form leaves exactly the 32 digits |
| Documents.FormatHasNoBraces | store/usecases/product.py:60-64 | stripping braces leaves the hyphenated form unchanged |
| Exceptions.StoreException.Message | store/exceptions/base.py:9-49 | the `message` attribute of each exception class: the two f-string templates, or the given or default message |
| Exceptions.StoreException.StatusCode | store/exceptions/base.py:9-49 | the `status_code` attribute of each exception class |
| Exceptions.StoreException.Str | store/exceptions/base.py:12 | `str(exc)` is the message handed to `Exception.__init__` |
| Exceptions.StatusCodeByKind | store/exceptions/base.py:15-49 | the status code identifies the subclass: 404 is not-found, 400 is invalid-id, 422 is insertion or update error, 500 is connection error |
| Exceptions.DefaultMessages | store/exceptions/base.py:23-49 | the default messages and codes of the insertion, update and connection errors, and the base class's default code 400 |
| Exceptions.NotFoundMessageNamesId | store/exceptions/base.py:18-20 | the not-found message determines the id it was raised for |
| Exceptions.InvalidIdMessageNamesId | store/exceptions/base.py:40-42 | the invalid-id message determines the id it was raised for |
| Exceptions.NotFoundIsNotInvalidId | store/exceptions/base.py:15-42 | a not-found message never equals an invalid-id message |
| ModelsBase.EncodeDecimals | store/models/base.py:24-35 | the serialiser keeps the keys, turns every Decimal into a Decimal128 of the same value, leaves every other value as it is and leaves no Decimal behind |
| ModelsBase.SetModel | store/models/base.py:29-35 | the loop over the copied field dictionary produces exactly that serialised document |
| SchemasBase.DecodeDecimals | store/schemas/base.py:26-33 | the pre-validator keeps the keys, turns every Decimal128 into a Decimal of the same value, leaves every other value as it is and leaves no Decimal128 behind |
| SchemasBase.SetSchema | store/schemas/base.py:26-33 | the loop over the incoming data produces exactly that decoded document |
| SchemasBase.DecodeIdempotent | store/schemas/base.py:26-33 | a second pass of the pre-validator changes nothing |
| SchemasBase.DecodeEncodeRoundTrip | store/schemas/base.py:26-33 | decoding a serialised field dictionary that holds no Decimal128 gives back the dictionary |
| SchemasBase.RoundTripNeedsNoDecimal128 | store/schemas/base.py:26-33 | without that condition the round trip fails: a Decimal128 field comes back as a Decimal |
| ProductSchemas.ConvertDecimal128 | store/schemas/product.py:35-47 | the price validator yields a Decimal128 that the pre-validator turns back into the original Decimal |
| ProductSchemas.DumpUpdate | store/schemas/product.py:43-48 | `model_dump(exclude_unset=True)` holds only quantity, price and status, each exactly when the caller gave it; it is empty exactly for `ProductUpdate()`; a given price is a Decimal128 |
| ProductSchemas.DumpHasNoUpdatedAt | store/schemas/product.py:43-48 | the dumped update never holds `updated_at`, `id`, `name` or `created_at` |
| ProductSchemas.Validate | store/schemas/product.py:14-32 | a record validated from field data holds each of its seven fields under its key in that data |
| ProductSchemas.ReadProduct | store/schemas/base.py:26-33 | `ProductOut(**data)`: the pre-validator, then field validation; a record read holds its fields in the decoded data |
| ProductSchemas.ValidateIff | store/schemas/product.py:14-32 | ProductOut validates to a record exactly when the data holds each of its seven fields under its key, with its type |
| ProductSchemas.ValidateFields | store/schemas/product.py:14-32 | validating a record's own field dictionary gives back the record |
| ProductSchemas.ReadProductFields | store/schemas/product.py:14-32 | a record read from a document carries the document's id and name, and its price as stored (Decimal or Decimal128) |
| ProductModels.NewProductModel | store/models/base.py:20-22 | a new model has the body's four fields, the generated id and the two clock readings |
| ProductModels.ModelDump | store/models/base.py:24-35 | `model.model_dump()` has the model's keys and the price as a Decimal128 |
| ProductModels.ModelDumpShape | store/models/base.py:24-35 | the stored document has the same keys as the model's fields, the price as a Decimal128 and every other field as it is |
| ProductModels.ModelDumpReadsBack | store/usecases/product.py:41 | `ProductOut(**model.model_dump())` is the model itself, price representation included |
| ProductUsecases.FindFirst | store/usecases/product.py:64 | `find_one({"id": u})` finds the first document carrying u, no earlier one carries it, and it finds none exactly when no document carries u |
| ProductUsecases.Select | store/usecases/product.py:79 | `find(filter)` yields no more documents than the collection holds |
| ProductUsecases.ReadAll | store/usecases/product.py:79-80 | the append loop over the cursor: on success one record per document; any failure is a validation error |
| ProductUsecases.QueryOutcome | store/usecases/product.py:74-81 | `query(filter)`: at most one record per document, and the only failure is a validation error |
| ProductUsecases.GetOutcome | store/usecases/product.py:52-68 | `get(id)` raises only InvalidProductId(id), ProductNotFound(id) or a validation error |
| ProductUsecases.SetOnFirst | store/usecases/product.py:153-155 | `update_one` keeps the collection's length and every document but the first match |
| ProductUsecases.RemoveFirst | store/usecases/product.py:186 | `delete_one` removes one document exactly when one matches |
| ProductUsecases.UpdateReadBack | store/usecases/product.py:160-167 | the final `get` of update: its record is passed on, a not-found is re-raised as it is, and every other failure becomes a ProductUpdateError |
| ProductUsecases.UpdateOutcome | store/usecases/product.py:128-167 | `update(id, body)`: the collection keeps its length, and every failure is one of the store's exceptions |
| ProductUsecases.DeleteOutcome | store/usecases/product.py:169-192 | `delete(id)`: success returns True with one document fewer; a failure leaves the collection as it was |
| ProductUsecases.SelectMembers | store/usecases/product.py:79 | `find(filter)` yields exactly the documents that match the filter |
| ProductUsecases.ReadAllSucceedsIff | store/usecases/product.py:79-81 | reading a cursor succeeds exactly when every document validates |
| ProductUsecases.ReadAllPointwise | store/usecases/product.py:79-81 | on success the i-th record is the i-th document read |
| ProductUsecases.ReadAllFailsFromPrefix | store/usecases/product.py:79-81 | a validation failure part-way through a cursor fails the whole query |
| ProductUsecases.CategoryAndPriceFilter | store/usecases/product.py:99-111 | the name condition is present exactly for a non-empty category (a case-insensitive regex); the price condition is present exactly when a bound is given, and it holds exactly the given bounds |
| ProductUsecases.BuildCategoryAndPriceFilter | store/usecases/product.py:99-111 | building the filter step by step yields that filter |
| ProductUsecases.StampUpdatedAt | store/usecases/product.py:150-151 | the caller's fields are kept, `updated_at` is added, and it is `now` unless the caller supplied it |
| ProductUsecases.ProductUsecase.constructor | store/usecases/product.py:19-26 | a new usecase is bound to the `products` collection as it already stands, with the database's regex matcher |
| ProductUsecases.ProductUsecase.InsertOne | store/usecases/product.py:38 | `insert_one` appends the document |
| ProductUsecases.ProductUsecase.UpdateOne | store/usecases/product.py:153-155 | `update_one` with `$set` merges the data into the first match; the matched count is 1 or 0 |
| ProductUsecases.ProductUsecase.DeleteOne | store/usecases/product.py:186-187 | `delete_one` removes the first match; the deleted count is 1 or 0 |
| ProductUsecases.ProductUsecase.Create | store/usecases/product.py:28-41 | given the well-formed id `uuid4()` yields, create returns the new model and appends its serialised form to the collection |
| ProductUsecases.ProductUsecase.Get | store/usecases/product.py:52-68 | get validates the id, then looks the document up, then reads it, as `GetOutcome` |
| ProductUsecases.ProductUsecase.Query | store/usecases/product.py:74-81 | the loop over the cursor answers exactly `QueryOutcome`: every matching document read in order, or the first validation failure |
| ProductUsecases.ProductUsecase.QueryByPriceRange | store/usecases/product.py:85-90 | the query with both bounds inclusive |
| ProductUsecases.ProductUsecase.QueryByCategoryAndPrice | store/usecases/product.py:92-113 | the query with the assembled filter |
| ProductUsecases.ProductUsecase.GetLuxuryProducts | store/usecases/product.py:115-117 | the price-range query from 5000 with no upper bound |
| ProductUsecases.ProductUsecase.GetAffordableProducts | store/usecases/product.py:119-121 | the price-range query from 0 to 500 |
| ProductUsecases.ProductUsecase.SearchProducts | store/usecases/product.py:123-126 | the query with a case-insensitive name regex |
| ProductUsecases.ProductUsecase.Update | store/usecases/product.py:128-167 | update answers and changes the collection as `UpdateOutcome` |
| ProductUsecases.ProductUsecase.Delete | store/usecases/product.py:169-192 | delete answers and changes the collection as `DeleteOutcome` |
| UsecaseProperties.GetSpecification | store/usecases/product.py:52-68 | invalid-id exactly for a malformed id; not-found exactly for a well-formed id no document carries; for a well-formed id some document carries, the answer is the first such document read: its record, whose id is the one asked for, or the validation error |
| UsecaseProperties.FindFirstAppend | store/usecases/product.py:64 | after an insert, an earlier match still wins, and the new document is found only when there was none |
| UsecaseProperties.GetIgnoresLaterInserts | store/usecases/product.py:64-68 | inserting a document never changes what get answers for an id already present |
| UsecaseProperties.CreateThenGet | store/usecases/product.py:28-68 | after create with a fresh id, get on that id's string form returns exactly the created record |
| UsecaseProperties.CreatePreservesUniqueIds | store/usecases/product.py:35-38 | create with a fresh id keeps ids unique |
| UsecaseProperties.UpdateCheckOrder | store/usecases/product.py:130-147 | the empty-body error comes first whatever the id, then invalid-id, then not-found; each leaves the collection unchanged |
| UsecaseProperties.UpdateRereadsWritten | store/usecases/product.py:149-160 | after the checks, update writes `$set` to the matched document and answers with that document read back |
| UsecaseProperties.SetOnFirstRefinds | store/usecases/product.py:153-160 | `$set` without an id rewrites the first match in place, and `find_one` finds it there again |
| UsecaseProperties.UpdateRereadFinds | store/usecases/product.py:157-167 | after the write, update never reports not-found: it returns a record with the requested id or the wrapped validation error |
| UsecaseProperties.UpdateEffects | store/usecases/product.py:149-155 | only the matched document changes; it gains exactly the supplied fields and `updated_at = now`; every other field stays |
| UsecaseProperties.StampedMerge | store/usecases/product.py:150-155 | merging the stamped caller data: the caller's fields, then `updated_at = now`, over the stored fields |
| UsecaseProperties.SetOnFirstPreservesUniqueIds | store/usecases/product.py:153-155 | `$set` of data without an id keeps ids unique |
| UsecaseProperties.UpdatePreservesUniqueIds | store/usecases/product.py:128-160 | update keeps ids unique |
| UsecaseProperties.DecodeMerge | store/schemas/base.py:26-33 | the pre-validator commutes with `$set`'s merge |
| UsecaseProperties.DecodedUpdateData | store/usecases/product.py:130-151 | for an update without explicit nulls, the decoded update data holds the given fields with their values, `updated_at = now`, and no id, name or created_at |
| UsecaseProperties.MergeFields | store/usecases/product.py:153-160 | the merged document holds the fields of the updated record |
| UsecaseProperties.ReadMerged | store/usecases/product.py:153-160 | reading a valid document after `$set` of a null-free update gives the record with the given fields replaced and the new `updated_at` |
| UsecaseProperties.UpdateReturnsMerged | store/usecases/product.py:128-160 | without explicit nulls, update returns the stored record with exactly the given fields replaced and `updated_at = now` |
| UsecaseProperties.NullPriceFailsValidation | store/schemas/product.py:17-20 | a document whose price is null does not validate as ProductOut |
| UsecaseProperties.UpdateWithNullCorrupts | store/usecases/product.py:128-167 | an explicit null price is written, and update then raises "Unexpected error updating product: " followed by the validation error's text (a placeholder), after the write |
| UsecaseProperties.DeleteSpecification | store/usecases/product.py:169-187 | invalid-id exactly for a malformed id; not-found exactly for an absent id; no change on error; a well-formed id some document carries always succeeds with True; on success exactly the first match is removed, the rest kept in order (as a multiset: one fewer of that document) |
| UsecaseProperties.DeleteThenGet | store/usecases/product.py:182-186 | with unique ids, get after a successful delete reports not-found |
| UsecaseProperties.RemoveFirstPreservesUniqueIds | store/usecases/product.py:186 | removing a document keeps ids unique |
| UsecaseProperties.DeletePreservesUniqueIds | store/usecases/product.py:169-187 | delete keeps ids unique |
| UsecaseProperties.EmptyFilterSelectsAll | store/usecases/product.py:77-79 | `find({})` returns the whole collection in order |
| UsecaseProperties.SelectAppend | store/usecases/product.py:79 | `find` keeps natural order: the matches of a grown collection are the old matches followed by the new ones |
| UsecaseProperties.QueryIsMatchingRecords | store/usecases/product.py:74-81 | a successful query contains the record of every matching document, and every record in it comes from a matching document |
| UsecaseProperties.MatchedPrice | store/usecases/product.py:89 | for a document that passes a price condition and validates, the price the condition compared is the record's price |
| UsecaseProperties.PriceRangeBounds | store/usecases/product.py:85-90 | every record from the price-range query satisfies min ≤ price ≤ max |
| UsecaseProperties.CreatedIsStored | store/usecases/product.py:35-38 | the document create writes reads back as the created record, with its price stored as a Decimal128 |
| UsecaseProperties.UpdatedIsStored | store/usecases/product.py:149-155 | a null-free update of such a document leaves it such a document again, now reading as the updated record |
| UsecaseProperties.PriceRangeExact | store/usecases/product.py:85-90 | a stored product (written by create, then by any null-free updates) is listed exactly when min ≤ price ≤ max |
| UsecaseProperties.LuxuryFromFiveThousand | store/usecases/product.py:115-117 | a stored product (written by create, then by any null-free updates) is luxury exactly when its price is at least 5000 |
| UsecaseProperties.AffordableUpToFiveHundred | store/usecases/product.py:119-121 | a stored product (written by create, then by any null-free updates) is affordable exactly when 0 ≤ price ≤ 500 |
| UsecaseProperties.CategoryFilterDefaults | store/usecases/product.py:92-113 | with no or an empty category and no bounds, the query is the whole collection; with only a category, it is the search filter |
| ProductControllers.Post | store/controllers/product.py:24-44 | 201 exactly on success; an insertion error gives 422 (its own code) with "Erro na inserção do produto: " and its message; anything else gives 500 with a fixed detail |
| ProductControllers.Get | store/controllers/product.py:47-57 | 200 with the record; not-found and invalid-id answer with their own status code and message; anything else escapes unchanged |
| ProductControllers.Patch | store/controllers/product.py:66-86 | 200 with the record; not-found gives 404 with "Produto não encontrado para atualização: " and the message; invalid-id gives 400 with the message; anything else, including every update error, escapes |
| ProductControllers.Delete | store/controllers/product.py:89-99 | 204 with no body on success; errors as in get |
| ProductControllers.ListResponse | store/controllers/product.py:60-63 | the list routes answer 200 with the records exactly on success and otherwise let the failure escape |
| ProductControllers.QueryRoute | store/controllers/product.py:60-63 | `GET /` answers with every document read, in order |
| ProductControllers.FilterByPriceRange | store/controllers/product.py:107-120 | the handler passes its bounds (by default 5000 and 8000) unchanged to `query_by_price_range` and answers with its result; every record answered lies within the bounds, both included |
| ProductControllers.PriceRouteExact | store/controllers/product.py:107-120 | a stored product (written by create, then by any null-free updates) is in the answer exactly when min ≤ price ≤ max |
| ProductControllers.LuxuryRoute | store/controllers/product.py:123-126 | the handler answers with `get_luxury_products`' result; every record answered costs at least 5000 |
| ProductControllers.AffordableRoute | store/controllers/product.py:129-134 | the handler answers with `get_affordable_products`' result; every record answered costs between 0 and 500 |
| ProductControllers.SearchRoute | store/controllers/product.py:137-147 | the handler passes `q` to `search_products` and answers with its result; every record answered has a name the case-insensitive pattern matches |
| ProductControllers.SearchRouteExact | store/controllers/product.py:137-147 | a product read from any document of the collection is in the answer exactly when the pattern matches its name |
| ProductControllers.SearchMatchesName | store/usecases/product.py:123-126 | every record from search has a name the pattern matches |
| ProductControllers.GetRouteStatus | store/controllers/product.py:47-57 | `GET /{id}` answers 400 exactly for a malformed id and 404 exactly for an absent one; only a validation error escapes |
| ProductControllers.GetAfterCreate | store/controllers/product.py:47-57 | a created product is served with 200 on its id |
| ProductControllers.PatchEmptyBodyEscapes | store/controllers/product.py:78-86 | a PATCH with an empty body escapes with "No fields to update", whatever the id |
| ProductControllers.PatchAbsent | store/controllers/product.py:78-84 | a PATCH of an absent product answers 404 with the prefixed not-found message |
| ProductControllers.DeleteThenGetRoute | store/controllers/product.py:89-99 | with unique ids, DELETE answers 204 and a following GET 404 |

## Left out

- Database failures are not modelled: PyMongo errors, `DuplicateKeyError`, and every path that raises `DatabaseConnectionError`. So `create` always succeeds, and the 422 and 500 branches of `post` are reachable only through `ProductControllers.Post`'s own inputs.
- ProductUsecases.ProductUsecase.Create: does not model its exception wrapping ("Product already exists: …", "Unexpected error creating product: …"). In the model nothing inside `create` can fail.
- ProductUsecases.UpdateReadBack: the text of a validation error, as wrapped after "Unexpected error updating product: ", is a fixed placeholder. pydantic's text is not modelled: its count of failing fields, their names and their inputs.
- Documents.ParseUuid: does not model `uuid.UUID`'s removal of the strings `urn:` and `uuid:`, which are removed wherever they occur in the id, not only as a prefix. It also does not model the leniency of `int(…, 16)`: a sign, a `0x`/`0X` prefix, underscores, surrounding whitespace and non-ASCII decimal digits. Ids that use these are rejected with InvalidProductId where Python looks them up (in get, update and delete alike).
- ProductSchemas.Validate: does not model the UUID4 version check, pydantic's lax coercions (an integer price, numeric strings) or the Python truthiness of records; a value of the wrong kind fails validation.
- The `$regex` operator's semantics are left abstract: the matcher is a parameter of the usecase. So "contains the term" is not proved, only "the pattern matches".
- Floating-point query parameters, including `float("inf")`, are not modelled. Bounds are decimals, and an infinite upper bound is an absent one.
- Decimal128's 34-digit precision limit, NaN and Infinity are not modelled. Decimals are exact coefficient–exponent pairs.
- The `_id` key MongoDB adds on insert is not modelled. Validation ignores unknown keys, so nothing depends on it.
- `set_schema` mutating the caller's dictionary in place is not modelled: the model returns the decoded copy, and no caller reuses the original.
- The lazily created `collection` property and the module-level `product_usecase` singleton are not modelled.
- Concurrency and the interleaving of awaits are not modelled: each operation runs alone.
- FastAPI request validation (422 for a malformed body), the framework's 500 for an escaped exception, and JSON rendering are not modelled.
- Timestamps are stored here with full precision. BSON stores datetimes in milliseconds, so after a real `insert_one` or `update_one` the `created_at` and `updated_at` that get returns are cut to milliseconds. `UsecaseProperties.CreateThenGet`'s "exactly the created record" and the `updated_at = now` of `UsecaseProperties.UpdateEffects` and `UsecaseProperties.UpdateReturnsMerged` hold of the model. In the program they hold for every other field, and for the timestamps up to that truncation.
- UsecaseProperties.CreateThenGet: requires that no stored document already carries the generated id. With a colliding `uuid4`, get returns the older document (`UsecaseProperties.GetIgnoresLaterInserts`).
