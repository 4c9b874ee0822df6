/**
  OutSchema: the control fields every output record requires, and the pre-validator that
  turns each Decimal128 coming from the document store back into a Decimal.
 */
module SchemasBase {
  import opened Documents
  import opened ModelsBase

  /** What the pre-validator does to one value: `Decimal(str(value))` for a Decimal128, the
      value itself otherwise. */
  function DecodeValue(v: Value): Value
  {
    if v.Dec128? then Dec(v.d) else v
  }

  /** The data the pre-validator hands on to field validation. */
  function DecodeDecimals(data: Document): (r: Document)
    ensures r.Keys == data.Keys
    ensures forall k :: k in r ==> !r[k].Dec128?
    ensures forall k :: k in data && !data[k].Dec128? ==> r[k] == data[k]
    ensures forall k :: k in data && data[k].Dec128? ==> r[k] == Dec(data[k].d)
  {
    map k | k in data :: DecodeValue(data[k])
  }

  /** `set_schema`: rewrites every Decimal128 entry of the incoming data and returns it. */
  method SetSchema(data: Document) returns (result: Document)
    ensures result == DecodeDecimals(data)
  {
    result := data;
    var pending := data.Keys;
    while pending != {}
      invariant pending <= data.Keys
      invariant result.Keys == data.Keys
      invariant forall k :: k in data && k !in pending ==> result[k] == DecodeValue(data[k])
      invariant forall k :: k in pending ==> result[k] == data[k]
      decreases pending
    {
      var key :| key in pending;
      var value := result[key];
      if value.Dec128? {
        result := result[key := Dec(value.d)];
      }
      pending := pending - {key};
    }
  }

  /** OutSchema's required fields: `id`, `created_at` and `updated_at`, with their types. */
  predicate HasControlFields(data: Document)
  {
    && "id" in data && data["id"].Id?
    && "created_at" in data && data["created_at"].DateTime?
    && "updated_at" in data && data["updated_at"].DateTime?
  }

  /** A second pass of the pre-validator changes nothing: no Decimal128 is left after the first. */
  lemma DecodeIdempotent(data: Document)
    ensures DecodeDecimals(DecodeDecimals(data)) == DecodeDecimals(data)
  {
    var once := DecodeDecimals(data);
    var twice := DecodeDecimals(once);
    assert forall k :: k in twice ==> twice[k] == once[k];
  }

  /** Decoding what the serialiser produced gives back the model's own field values, provided
      the model holds no Decimal128 of its own. */
  lemma DecodeEncodeRoundTrip(fields: Document)
    requires forall k :: k in fields ==> !fields[k].Dec128?
    ensures DecodeDecimals(EncodeDecimals(fields)) == fields
  {
    var back := DecodeDecimals(EncodeDecimals(fields));
    assert forall k :: k in back ==> back[k] == fields[k];
  }

  /** Without that proviso the round trip fails: a Decimal128 field comes back as a Decimal. */
  lemma RoundTripNeedsNoDecimal128(d: Decimal)
    ensures DecodeDecimals(EncodeDecimals(map["price" := Dec128(d)])) == map["price" := Dec(d)]
  {
    var back := DecodeDecimals(EncodeDecimals(map["price" := Dec128(d)]));
    assert back["price"] == Dec(d);
  }
}
