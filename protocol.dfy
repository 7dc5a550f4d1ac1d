/** What the clients send for `collect` and `cancel` and how they read the server's answer. */
module Protocol {
  import opened Wrappers
  import opened Json
  import opened PyErrors
  import opened Exceptions

  /** The body of `collect` and `cancel`: exactly `{"orderRef": order_ref}`. */
  function OrderRefBody(orderRef: string): (body: Json)
    ensures body.JObject? && body.fields.Keys == {"orderRef"} && body.fields["orderRef"] == JString(orderRef)
  {
    JObject(map["orderRef" := JString(orderRef)])
  }

  /** An HTTP response: its status code and its decoded JSON body. */
  datatype Response = Response(statusCode: int, body: Json)

  /** What a client call raises: a BankID error built from the body, or a Python error on the way. */
  datatype ClientError = BankId(error: BankIDError) | Python(pyError: PyError)

  /** `raise get_json_error_class(response)`. */
  function RaiseFor(response: Response, repr: Json -> string): ClientError {
    match GetJsonErrorClass(response.body, repr)
    case Ok(e) => BankId(e)
    case Err(p) => Python(p)
  }

  /** The common tail of every order call: status 200 returns the body, anything else raises the mapped error. */
  function OrderResult(response: Response, repr: Json -> string): (r: Result<Json, ClientError>)
    ensures r.Ok? <==> response.statusCode == 200
    ensures r.Ok? ==> r.value == response.body
    ensures r.Err? ==> r.error == RaiseFor(response, repr)
  {
    if response.statusCode == 200 then Ok(response.body) else Err(RaiseFor(response, repr))
  }

  /** The tail of `cancel`: status 200 returns whether the body is `{}`. */
  function CancelResult(response: Response, repr: Json -> string): (r: Result<bool, ClientError>)
    ensures r == Ok(true) <==> response.statusCode == 200 && response.body == EmptyObject
    ensures r == Ok(false) <==> response.statusCode == 200 && response.body != EmptyObject
    ensures r.Err? ==> r.error == RaiseFor(response, repr)
  {
    if response.statusCode == 200 then Ok(response.body == EmptyObject) else Err(RaiseFor(response, repr))
  }

  /** Status 200 and only 200 gives the body; any other status gives the error the body maps to. */
  lemma OrderResultCases(response: Response, repr: Json -> string)
    ensures OrderResult(response, repr).Ok? <==> response.statusCode == 200
    ensures OrderResult(response, repr).Ok? ==> OrderResult(response, repr).value == response.body
    ensures response.statusCode != 200 && response.body.JObject? && Hashable(Get(response.body.fields, "errorCode")) ==>
      OrderResult(response, repr) == Err(BankId(GetJsonErrorClass(response.body, repr).value))
  {
  }

  /** `cancel` reports success exactly when the server answers 200 with `{}`. */
  lemma CancelResultCases(response: Response, repr: Json -> string)
    ensures CancelResult(response, repr) == Ok(true) <==> response.statusCode == 200 && response.body == EmptyObject
    ensures CancelResult(response, repr).Ok? <==> response.statusCode == 200
    ensures CancelResult(response, repr).Err? ==> CancelResult(response, repr) == OrderResult(response, repr).PropagateFailure()
  {
  }
}
