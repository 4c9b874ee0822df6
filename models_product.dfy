/**
  ProductModel: ProductIn's fields plus CreateBaseModel's id and timestamps, and its
  serialised form, the document the store receives.
 */
module ProductModels {
  import opened Wrappers
  import opened Documents
  import opened ModelsBase
  import opened SchemasBase
  import opened ProductSchemas

  /** ProductModel has the fields of ProductOut (ProductIn's four plus id, created_at,
      updated_at); only its serialiser differs. */
  type ProductModel = ProductOut

  /** `ProductModel(**body.model_dump())`: the body's fields; the id from the `uuid4` default
      factory; `created_at` and `updated_at` from two separate `utcnow` reads. */
  function NewProductModel(body: ProductIn, uuid4: Uuid, utcNow1: Time, utcNow2: Time): (m: ProductModel)
    ensures InputOf(m) == body
    ensures m.id == uuid4 && m.createdAt == utcNow1 && m.updatedAt == utcNow2
  {
    ProductOut(uuid4, body.name, body.quantity, body.price, body.status, utcNow1, utcNow2)
  }

  /** `model.model_dump()`: the serialiser applied to the model's field dictionary. */
  function ModelDump(m: ProductModel): (r: Document)
    ensures r.Keys == Fields(m).Keys && r["price"] == Dec128(m.price)
  {
    EncodeDecimals(Fields(m))
  }

  /** What the serialiser stores for a model: the same seven keys, the price as a Decimal128,
      every other field as it is. */
  lemma ModelDumpShape(m: ProductModel)
    ensures ModelDump(m).Keys == Fields(m).Keys
    ensures ModelDump(m)["price"] == Dec128(m.price)
    ensures forall k :: k in Fields(m) && k != "price" ==> ModelDump(m)[k] == Fields(m)[k]
  {
  }

  /** `ProductOut(**model.model_dump())` is the model itself: the price written as a
      Decimal128 comes back as the same Decimal, representation included. */
  lemma ModelDumpReadsBack(m: ProductModel)
    ensures ReadProduct(ModelDump(m)) == Some(m)
  {
    DecodeEncodeRoundTrip(Fields(m));
    ValidateFields(m);
  }
}
