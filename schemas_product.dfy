/**
  The product record shapes: the create input, the output with id and timestamps, and the
  partial-update input with its `model_dump(exclude_unset=True)`.
 */
module ProductSchemas {
  import opened Wrappers
  import opened Documents
  import opened SchemasBase

  /** ProductIn (ProductBase): four required fields, no defaults, no numeric bounds. */
  datatype ProductIn = ProductIn(name: string, quantity: int, price: Decimal, status: bool)

  /** ProductOut: ProductIn's fields plus OutSchema's id, created_at and updated_at. */
  datatype ProductOut = ProductOut(
    id: Uuid,
    name: string,
    quantity: int,
    price: Decimal,
    status: bool,
    createdAt: Time,
    updatedAt: Time)

  /** ProductUpdateOut declares nothing of its own: it is ProductOut. */
  type ProductUpdateOut = ProductOut

  /** The ProductIn part of an output record. */
  function InputOf(p: ProductOut): ProductIn
  {
    ProductIn(p.name, p.quantity, p.price, p.status)
  }

  /** A field of a partial update: left unset (its None default), or given by the caller,
      possibly as an explicit null. */
  datatype Supplied<T> = Unset | Given(value: Option<T>)

  /** ProductUpdate: only quantity, price and status, each optional; there is no name and no
      updated_at field. */
  datatype ProductUpdate = ProductUpdate(quantity: Supplied<int>, price: Supplied<Decimal>, status: Supplied<bool>)

  /** `ProductUpdate()`: every field left at its default. */
  const EmptyUpdate := ProductUpdate(Unset, Unset, Unset)

  /** The keys a dumped ProductUpdate can hold. */
  const UpdateKeys: set<string> := {"quantity", "price", "status"}

  /** `convert_decimal_128`, the price's after-validator: `Decimal128(str(v))`. */
  function ConvertDecimal128(v: Decimal): (r: Value)
    ensures r.Dec128? && DecodeValue(r) == Dec(v)
  {
    Dec128(v)
  }

  function DumpQuantity(s: Supplied<int>): Document
  {
    match s
    case Unset => map[]
    case Given(None) => map["quantity" := Null]
    case Given(Some(q)) => map["quantity" := Int(q)]
  }

  function DumpPrice(s: Supplied<Decimal>): Document
  {
    match s
    case Unset => map[]
    case Given(None) => map["price" := Null]
    case Given(Some(p)) => map["price" := ConvertDecimal128(p)]
  }

  function DumpStatus(s: Supplied<bool>): Document
  {
    match s
    case Unset => map[]
    case Given(None) => map["status" := Null]
    case Given(Some(b)) => map["status" := Bool(b)]
  }

  /** `body.model_dump(exclude_unset=True)`: exactly the fields the caller gave, an explicit
      null kept as null, the price already a Decimal128. */
  function DumpUpdate(u: ProductUpdate): (d: Document)
    ensures d.Keys <= UpdateKeys
    ensures "quantity" in d <==> u.quantity.Given?
    ensures "price" in d <==> u.price.Given?
    ensures "status" in d <==> u.status.Given?
    ensures d == map[] <==> u == EmptyUpdate
    ensures u.price.Given? && u.price.value.Some? ==> d["price"] == Dec128(u.price.value.value)
  {
    var d := DumpQuantity(u.quantity) + DumpPrice(u.price) + DumpStatus(u.status);
    assert u.quantity.Given? ==> "quantity" in d;
    d
  }

  /** `dict(model)` for a record of this shape: the seven fields, the price as a Decimal. */
  function Fields(p: ProductOut): Document
  {
    map[
      "name" := Text(p.name),
      "quantity" := Int(p.quantity),
      "price" := Dec(p.price),
      "status" := Bool(p.status),
      "id" := Id(p.id),
      "created_at" := DateTime(p.createdAt),
      "updated_at" := DateTime(p.updatedAt)]
  }

  /** Field validation of ProductOut once the pre-validator has run: all seven fields must be
      present with their types (a null among them fails); other keys are ignored. */
  function Validate(data: Document): (r: Option<ProductOut>)
    ensures r.Some? ==> HoldsRecord(data, r.value)
  {
    if && HasControlFields(data)
       && "name" in data && data["name"].Text?
       && "quantity" in data && data["quantity"].Int?
       && "price" in data && data["price"].Dec?
       && "status" in data && data["status"].Bool?
    then
      Some(ProductOut(
        data["id"].u, data["name"].s, data["quantity"].i, data["price"].d,
        data["status"].b, data["created_at"].t, data["updated_at"].t))
    else
      None
  }

  /** `ProductOut(**data)`: the pre-validator, then field validation. */
  function ReadProduct(data: Document): (r: Option<ProductOut>)
    ensures r.Some? ==> HoldsRecord(DecodeDecimals(data), r.value)
  {
    Validate(DecodeDecimals(data))
  }

  /** The data holds each of the record's seven fields under its key, with its type. */
  predicate HoldsRecord(data: Document, p: ProductOut)
  {
    && "id" in data && data["id"] == Id(p.id)
    && "name" in data && data["name"] == Text(p.name)
    && "quantity" in data && data["quantity"] == Int(p.quantity)
    && "price" in data && data["price"] == Dec(p.price)
    && "status" in data && data["status"] == Bool(p.status)
    && "created_at" in data && data["created_at"] == DateTime(p.createdAt)
    && "updated_at" in data && data["updated_at"] == DateTime(p.updatedAt)
  }

  /** Field validation yields a record exactly when the data holds that record's fields;
      any other keys are ignored. */
  lemma ValidateIff(data: Document, p: ProductOut)
    ensures Validate(data) == Some(p) <==> HoldsRecord(data, p)
  {
  }

  /** Validation inverts `dict(model)`. */
  lemma ValidateFields(p: ProductOut)
    ensures Validate(Fields(p)) == Some(p)
  {
  }

  /** A record read from a document carries that document's id and its price, whether the
      document held the price as a Decimal or as a Decimal128. */
  lemma ReadProductFields(data: Document, p: ProductOut)
    requires ReadProduct(data) == Some(p)
    ensures "id" in data && data["id"] == Id(p.id)
    ensures "price" in data && data["price"] in {Dec(p.price), Dec128(p.price)}
    ensures "name" in data && data["name"] == Text(p.name)
  {
    var decoded := DecodeDecimals(data);
    assert decoded["id"] == Id(p.id);
    assert decoded["price"] == Dec(p.price);
  }

  /** The typed partial update never supplies `updated_at`. */
  lemma DumpHasNoUpdatedAt(u: ProductUpdate)
    ensures "updated_at" !in DumpUpdate(u)
    ensures "id" !in DumpUpdate(u) && "name" !in DumpUpdate(u) && "created_at" !in DumpUpdate(u)
  {
  }
}
