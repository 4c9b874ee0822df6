/**
  The store's exception taxonomy: BaseStoreException and its five subclasses. Each kind
  fixes how its message is built and which status code it carries.
 */
module Exceptions {

  /** One constructor per exception class; the fields are the constructor's arguments, with
      the same defaults. */
  datatype StoreException =
    | BaseStoreException(baseMessage: string, baseStatusCode: int := 400)
    | ProductNotFound(productId: string)
    | ProductInsertionError(insertionMessage: string := "Error inserting product")
    | ProductUpdateError(updateMessage: string := "Error updating product")
    | InvalidProductId(badId: string)
    | DatabaseConnectionError(connectionMessage: string := "Database connection error")
  {
    /** The `message` attribute. */
    function Message(): string
    {
      match this
      case BaseStoreException(m, _) => m
      case ProductNotFound(id) => NotFoundPrefix + id + NotFoundSuffix
      case ProductInsertionError(m) => m
      case ProductUpdateError(m) => m
      case InvalidProductId(id) => InvalidIdPrefix + id + InvalidIdSuffix
      case DatabaseConnectionError(m) => m
    }

    /** The `status_code` attribute. */
    function StatusCode(): int
    {
      match this
      case BaseStoreException(_, code) => code
      case ProductNotFound(_) => 404
      case ProductInsertionError(_) => 422
      case ProductUpdateError(_) => 422
      case InvalidProductId(_) => 400
      case DatabaseConnectionError(_) => 500
    }

    /** `str(exc)`: the base constructor hands `message` to `Exception.__init__`. */
    function Str(): string
    {
      Message()
    }
  }

  const NotFoundPrefix := "Product with ID '"
  const NotFoundSuffix := "' not found"
  const InvalidIdPrefix := "Invalid product ID format: '"
  const InvalidIdSuffix := "'"

  /** The status codes of the five subclasses tell them apart, except that insertion and
      update errors share 422. */
  lemma StatusCodeByKind(e: StoreException)
    requires !e.BaseStoreException?
    ensures e.StatusCode() == 404 <==> e.ProductNotFound?
    ensures e.StatusCode() == 400 <==> e.InvalidProductId?
    ensures e.StatusCode() == 422 <==> e.ProductInsertionError? || e.ProductUpdateError?
    ensures e.StatusCode() == 500 <==> e.DatabaseConnectionError?
  {
  }

  /** The messages the three subclasses with a default use when raised without one, and the
      status codes they carry. */
  lemma DefaultMessages()
    ensures ProductInsertionError().Message() == "Error inserting product" && ProductInsertionError().StatusCode() == 422
    ensures ProductUpdateError().Message() == "Error updating product" && ProductUpdateError().StatusCode() == 422
    ensures DatabaseConnectionError().Message() == "Database connection error" && DatabaseConnectionError().StatusCode() == 500
    ensures BaseStoreException("m").StatusCode() == 400
  {
  }

  lemma {:induction false} TemplateInjective(prefix: string, suffix: string, a: string, b: string)
    requires prefix + a + suffix == prefix + b + suffix
    ensures a == b
  {
    var s := prefix + a + suffix;
    assert |a| == |b|;
    assert a == s[|prefix|..|prefix| + |a|];
    assert b == (prefix + b + suffix)[|prefix|..|prefix| + |b|];
  }

  /** A not-found message names exactly one id: the id can be read back from the message. */
  lemma NotFoundMessageNamesId(a: string, b: string)
    requires ProductNotFound(a).Message() == ProductNotFound(b).Message()
    ensures a == b
  {
    TemplateInjective(NotFoundPrefix, NotFoundSuffix, a, b);
  }

  /** An invalid-id message names exactly one id. */
  lemma InvalidIdMessageNamesId(a: string, b: string)
    requires InvalidProductId(a).Message() == InvalidProductId(b).Message()
    ensures a == b
  {
    TemplateInjective(InvalidIdPrefix, InvalidIdSuffix, a, b);
  }

  /** The not-found and invalid-id templates never produce the same message. */
  lemma NotFoundIsNotInvalidId(a: string, b: string)
    ensures ProductNotFound(a).Message() != InvalidProductId(b).Message()
  {
    var m := ProductNotFound(a).Message();
    var n := InvalidProductId(b).Message();
    assert m[0] == 'P' && n[0] == 'I';
  }
}
