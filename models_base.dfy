/**
  CreateBaseModel's serialiser: every Decimal field value is replaced by a Decimal128 before
  the field dictionary goes to the document store.
 */
module ModelsBase {
  import opened Documents

  /** What the serialiser does to one value: `Decimal128(str(value))` for a Decimal, the
      value itself otherwise. */
  function EncodeValue(v: Value): Value
  {
    if v.Dec? then Dec128(v.d) else v
  }

  /** The document the serialiser returns for a model's field dictionary. */
  function EncodeDecimals(fields: Document): (doc: Document)
    ensures doc.Keys == fields.Keys
    ensures forall k :: k in doc ==> !doc[k].Dec?
    ensures forall k :: k in fields && !fields[k].Dec? ==> doc[k] == fields[k]
    ensures forall k :: k in fields && fields[k].Dec? ==> doc[k] == Dec128(fields[k].d)
  {
    map k | k in fields :: EncodeValue(fields[k])
  }

  /** `set_model`: copies the field dictionary (`dict(self)`, so the model is not touched)
      and overwrites each Decimal entry of the copy. */
  method SetModel(fields: Document) returns (selfDict: Document)
    ensures selfDict == EncodeDecimals(fields)
  {
    selfDict := fields;
    var pending := fields.Keys;
    while pending != {}
      invariant pending <= fields.Keys
      invariant selfDict.Keys == fields.Keys
      invariant forall k :: k in fields && k !in pending ==> selfDict[k] == EncodeValue(fields[k])
      invariant forall k :: k in pending ==> selfDict[k] == fields[k]
      decreases pending
    {
      var key :| key in pending;
      var value := selfDict[key];
      if value.Dec? {
        selfDict := selfDict[key := Dec128(value.d)];
      }
      pending := pending - {key};
    }
  }
}
