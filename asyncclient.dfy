/**
 * The v6.0 asynchronous client: each order call builds its payload with the base
 * class, posts it through a transport passed in, and reads the answer.
 */
module AsyncClient {
  import opened Wrappers
  import opened Json
  import opened PyErrors
  import opened BaseClient
  import opened Protocol

  const CallInitiatorMessage: string := "call_initiator must be either 'user' or 'RP'"

  predicate ValidCallInitiator(callInitiator: string) {
    callInitiator == "user" || callInitiator == "RP"
  }

  /** The payload of the phone orders: `_create_payload` without an IP, then `personalNumber` and `callInitiator` set. */
  function PhonePayload(
    personalNumber: string, callInitiator: string, requirement: Json, userVisibleData: Option<string>,
    userNonVisibleData: Option<string>, userVisibleDataFormat: Option<string>): (r: map<string, Json>)
    ensures r.Keys <= PayloadKeys - {"endUserIp"} + {"personalNumber", "callInitiator"}
    ensures "personalNumber" in r && r["personalNumber"] == JString(personalNumber)
    ensures "callInitiator" in r && r["callInitiator"] == JString(callInitiator)
  {
    var data := Payload(None, requirement, userVisibleData, userNonVisibleData, userVisibleDataFormat);
    data["personalNumber" := JString(personalNumber)]["callInitiator" := JString(callInitiator)]
  }

  /** A phone payload never carries `endUserIp`, always carries the two phone keys, and otherwise is `_create_payload`'s. */
  lemma PhonePayloadKeys(
    personalNumber: string, callInitiator: string, requirement: Json, userVisibleData: Option<string>,
    userNonVisibleData: Option<string>, userVisibleDataFormat: Option<string>)
    ensures var data := PhonePayload(personalNumber, callInitiator, requirement, userVisibleData, userNonVisibleData, userVisibleDataFormat);
      var created := Payload(None, requirement, userVisibleData, userNonVisibleData, userVisibleDataFormat);
      && "endUserIp" !in data
      && data["personalNumber"] == JString(personalNumber)
      && data["callInitiator"] == JString(callInitiator)
      && data.Keys == created.Keys + {"personalNumber", "callInitiator"}
      && (forall k :: k in created ==> data[k] == created[k])
  {
    CreatePayloadKeys(None, requirement, userVisibleData, userNonVisibleData, userVisibleDataFormat);
  }

  /** `BankIDAsyncClient`: the base class's endpoints used by six order calls. */
  class BankIDAsyncClient {
    const base: BankIDClientBase
    const requestTimeout: int

    constructor (certificates: (string, string), testServer: bool, timeout: int)
      ensures base.certs == certificates && requestTimeout == timeout
      ensures base.apiUrl == (if testServer then TestApiUrl else ProductionApiUrl)
      ensures base.verifyCertName == (if testServer then TestVerifyCert else ProductionVerifyCert)
      ensures base.authEndpoint == base.apiUrl + "auth"
      ensures base.phoneAuthEndpoint == base.apiUrl + "phone/auth"
      ensures base.signEndpoint == base.apiUrl + "sign"
      ensures base.phoneSignEndpoint == base.apiUrl + "phone/sign"
      ensures base.collectEndpoint == base.apiUrl + "collect"
      ensures base.cancelEndpoint == base.apiUrl + "cancel"
    {
      base := new BankIDClientBase(certificates, testServer);
      requestTimeout := timeout;
    }

    /** `authenticate`: posts `_create_payload` of its arguments to the auth endpoint. */
    method Authenticate(
      endUserIp: string, requirement: Json, userVisibleData: Option<string>,
      userNonVisibleData: Option<string>, userVisibleDataFormat: Option<string>,
      post: (string, Json) -> Response, repr: Json -> string)
      returns (r: Result<Json, ClientError>)
      ensures r == OrderResult(post(base.authEndpoint, JObject(
        Payload(Some(endUserIp), requirement, userVisibleData, userNonVisibleData, userVisibleDataFormat))), repr)
    {
      var data := base.CreatePayload(Some(endUserIp), requirement, userVisibleData, userNonVisibleData, userVisibleDataFormat);
      var response := post(base.authEndpoint, JObject(data));
      r := OrderResult(response, repr);
    }

    /** `phone_authenticate`: an invalid call initiator is rejected before anything is built or sent. */
    method PhoneAuthenticate(
      personalNumber: string, callInitiator: string, requirement: Json, userVisibleData: Option<string>,
      userNonVisibleData: Option<string>, userVisibleDataFormat: Option<string>,
      post: (string, Json) -> Response, repr: Json -> string)
      returns (r: Result<Json, ClientError>)
      ensures !ValidCallInitiator(callInitiator) ==> r == Err(Python(ValueError(CallInitiatorMessage)))
      ensures ValidCallInitiator(callInitiator) ==> r == OrderResult(post(base.phoneAuthEndpoint, JObject(
        PhonePayload(personalNumber, callInitiator, requirement, userVisibleData, userNonVisibleData, userVisibleDataFormat))), repr)
    {
      if !ValidCallInitiator(callInitiator) {
        return Err(Python(ValueError(CallInitiatorMessage)));
      }
      var data := base.CreatePayload(None, requirement, userVisibleData, userNonVisibleData, userVisibleDataFormat);
      data := data["personalNumber" := JString(personalNumber)];
      data := data["callInitiator" := JString(callInitiator)];
      var response := post(base.phoneAuthEndpoint, JObject(data));
      r := OrderResult(response, repr);
    }

    /** `sign`: posts `_create_payload` of its arguments to the sign endpoint. */
    method Sign(
      endUserIp: string, userVisibleData: string, requirement: Json,
      userNonVisibleData: Option<string>, userVisibleDataFormat: Option<string>,
      post: (string, Json) -> Response, repr: Json -> string)
      returns (r: Result<Json, ClientError>)
      ensures r == OrderResult(post(base.signEndpoint, JObject(
        Payload(Some(endUserIp), requirement, Some(userVisibleData), userNonVisibleData, userVisibleDataFormat))), repr)
    {
      var data := base.CreatePayload(Some(endUserIp), requirement, Some(userVisibleData), userNonVisibleData, userVisibleDataFormat);
      var response := post(base.signEndpoint, JObject(data));
      r := OrderResult(response, repr);
    }

    /** `phone_sign`: an invalid call initiator is rejected before anything is built or sent. */
    method PhoneSign(
      personalNumber: string, callInitiator: string, userVisibleData: string, requirement: Json,
      userNonVisibleData: Option<string>, userVisibleDataFormat: Option<string>,
      post: (string, Json) -> Response, repr: Json -> string)
      returns (r: Result<Json, ClientError>)
      ensures !ValidCallInitiator(callInitiator) ==> r == Err(Python(ValueError(CallInitiatorMessage)))
      ensures ValidCallInitiator(callInitiator) ==> r == OrderResult(post(base.phoneSignEndpoint, JObject(
        PhonePayload(personalNumber, callInitiator, requirement, Some(userVisibleData), userNonVisibleData, userVisibleDataFormat))), repr)
    {
      if !ValidCallInitiator(callInitiator) {
        return Err(Python(ValueError(CallInitiatorMessage)));
      }
      var data := base.CreatePayload(None, requirement, Some(userVisibleData), userNonVisibleData, userVisibleDataFormat);
      data := data["personalNumber" := JString(personalNumber)];
      data := data["callInitiator" := JString(callInitiator)];
      var response := post(base.phoneSignEndpoint, JObject(data));
      r := OrderResult(response, repr);
    }

    /** `collect`: posts `{"orderRef": order_ref}` to the collect endpoint. */
    method Collect(orderRef: string, post: (string, Json) -> Response, repr: Json -> string)
      returns (r: Result<Json, ClientError>)
      ensures r == OrderResult(post(base.collectEndpoint, OrderRefBody(orderRef)), repr)
    {
      var response := post(base.collectEndpoint, OrderRefBody(orderRef));
      r := OrderResult(response, repr);
    }

    /** `cancel`: posts `{"orderRef": order_ref}` to the cancel endpoint; true iff the answer is 200 with `{}`. */
    method Cancel(orderRef: string, post: (string, Json) -> Response, repr: Json -> string)
      returns (r: Result<bool, ClientError>)
      ensures r == CancelResult(post(base.cancelEndpoint, OrderRefBody(orderRef)), repr)
      ensures r == Ok(true) <==> post(base.cancelEndpoint, OrderRefBody(orderRef)) == Response(200, EmptyObject)
    {
      var response := post(base.cancelEndpoint, OrderRefBody(orderRef));
      r := CancelResult(response, repr);
      CancelResultCases(response, repr);
    }
  }
}
