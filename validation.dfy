/** The validation middleware that runs before the write handlers: it either
    answers 400 itself or hands the request on unchanged. */
module Validation {
  import opened JsValues
  import opened Api

  /** What the middleware does with a request: call the next handler, or
      answer with the given response. */
  datatype Verdict = Next | Reject(response: Response)

  /** `validateCustomData`: first every field must be truthy, then `name`
      and `category` must be strings and `price` a number. */
  function Validate(body: Body): (v: Verdict)
    // a request passes exactly when it carries a non-empty name and
    // category and a non-zero numeric price
    ensures v == Next <==>
      body.name.Str? && body.name.s != "" &&
      body.category.Str? && body.category.s != "" &&
      body.price.Num? && body.price.n != 0
    // a rejection is a 400 failure envelope, whose message tells a missing
    // field apart from a field of the wrong type
    ensures v.Reject? ==> v.response.status == 400 && !v.response.body.Success()
    ensures v.Reject? ==>
      (v.response.body.error == MissingFieldsError <==>
        !Truthy(body.name) || !Truthy(body.price) || !Truthy(body.category))
    ensures v.Reject? ==>
      v.response.body.error == MissingFieldsError || v.response.body.error == InvalidTypesError
  {
    if !Truthy(body.name) || !Truthy(body.price) || !Truthy(body.category) then
      Reject(Response(400, Failure(MissingFieldsError)))
    else if !body.name.Str? || !body.category.Str? || !body.price.Num? then
      Reject(Response(400, Failure(InvalidTypesError)))
    else
      Next
  }

  /** Falsy values count as missing: a price of 0 or an empty name or
      category is reported as a missing field, not as a bad value. */
  lemma FalsyFieldIsMissing(body: Body)
    requires body.price == Num(0) || body.name == Str("") || body.category == Str("")
    ensures Validate(body) == Reject(Response(400, Failure(MissingFieldsError)))
  {
  }

  /** A truthy value of the wrong type, such as a numeric string for the
      price, is reported as invalid. */
  lemma WrongTypeIsInvalid(body: Body)
    requires Truthy(body.name) && Truthy(body.price) && Truthy(body.category)
    requires !body.price.Num?
    ensures Validate(body) == Reject(Response(400, Failure(InvalidTypesError)))
  {
  }
}
