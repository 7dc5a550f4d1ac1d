/**
 * The v5.1 JSON clients: server and endpoint selection, the authentication and
 * signing payloads, the four order calls over a transport passed in, and the
 * synchronous wrapper's argument forwarding.
 */
module JsonClient {
  import opened Wrappers
  import opened Encoding
  import opened Json
  import opened Exceptions
  import opened BaseClient
  import opened Protocol

  const TestApiUrl51: string := "https://appapi2.test.bankid.com/rp/v5.1/"
  const ProductionApiUrl51: string := "https://appapi2.bankid.com/rp/v5.1/"

  /** User data as the caller passes it: text (encoded as UTF-8 first) or bytes. */
  datatype UserData = Text(text: string) | Raw(bytes: seq<byte>) {
    function Bytes(): seq<byte> {
      match this
      case Text(s) => Utf8Encode(s)
      case Raw(b) => b
    }
  }

  /** `_encode_user_data`: base64 (section 4 of RFC 4648) of the text's UTF-8 bytes, or of the bytes as given. */
  function EncodeJsonUserData(userData: UserData): (r: string)
    ensures userData.Text? ==> r == EncodeUserData(userData.text)
    ensures userData.Raw? ==> r == Base64Encode(userData.bytes)
  {
    Base64Encode(userData.Bytes())
  }

  /** The encoding is ASCII and decodes back to the bytes (and, for text, to the text). */
  lemma EncodeJsonUserDataRoundTrip(userData: UserData)
    ensures forall i :: 0 <= i < |EncodeJsonUserData(userData)| ==> EncodeJsonUserData(userData)[i] as int < 128
    ensures Base64Decode(EncodeJsonUserData(userData)) == Some(userData.Bytes())
    ensures userData.Text? ==> Utf8Decode(Base64Decode(EncodeJsonUserData(userData)).value) == Some(userData.text)
  {
    Base64EncodeSymbols(userData.Bytes());
    Base64RoundTrip(userData.Bytes());
    if userData.Text? {
      Utf8RoundTrip(userData.text);
    }
  }

  /** What `authenticate_payload` returns: `endUserIp`, the given optional keys, all overridden by `kwargs`. */
  function AuthenticationPayload(
    endUserIp: string, personalNumber: Option<string>, requirement: Json, kwargs: map<string, Json>)
    : (r: map<string, Json>)
    ensures "endUserIp" in r
    ensures r.Keys <= {"endUserIp", "personalNumber", "requirement"} + kwargs.Keys
    ensures forall k :: k in kwargs ==> k in r && r[k] == kwargs[k]
  {
    map["endUserIp" := JString(endUserIp)]
    + Entry(Given(personalNumber), "personalNumber", JString(if personalNumber.Some? then personalNumber.value else []))
    + Entry(IsNonEmptyDict(requirement), "requirement", requirement)
    + kwargs
  }

  /** What `sign_payload` returns: `endUserIp`, `userVisibleData`, the given optional keys, all overridden by `kwargs`. */
  function SigningPayload(
    endUserIp: string, userVisibleData: UserData, personalNumber: Option<string>, requirement: Json,
    userNonVisibleData: Option<UserData>, kwargs: map<string, Json>): (r: map<string, Json>)
    ensures "endUserIp" in r && "userVisibleData" in r
  {
    map["endUserIp" := JString(endUserIp)]
    + Entry(Given(personalNumber), "personalNumber", JString(if personalNumber.Some? then personalNumber.value else []))
    + map["userVisibleData" := JString(EncodeJsonUserData(userVisibleData))]
    + Entry(userNonVisibleData.Some? && NonEmptyUserData(userNonVisibleData.value), "userNonVisibleData",
            JString(EncodeJsonUserData(if userNonVisibleData.Some? then userNonVisibleData.value else Raw([]))))
    + Entry(IsNonEmptyDict(requirement), "requirement", requirement)
    + kwargs
  }

  /** Python truthiness of a str or bytes value. */
  predicate NonEmptyUserData(userData: UserData) {
    match userData
    case Text(s) => s != []
    case Raw(b) => b != []
  }

  /** The keys of the authentication payload; a key in `kwargs` overrides the built one, `endUserIp` included. */
  lemma AuthenticatePayloadKeys(
    endUserIp: string, personalNumber: Option<string>, requirement: Json, kwargs: map<string, Json>)
    ensures var data := AuthenticationPayload(endUserIp, personalNumber, requirement, kwargs);
      && data.Keys == {"endUserIp"} + (if Given(personalNumber) then {"personalNumber"} else {})
                      + (if IsNonEmptyDict(requirement) then {"requirement"} else {}) + kwargs.Keys
      && (forall k :: k in kwargs ==> data[k] == kwargs[k])
      && ("endUserIp" !in kwargs ==> data["endUserIp"] == JString(endUserIp))
      && ("personalNumber" !in kwargs && Given(personalNumber) ==> data["personalNumber"] == JString(personalNumber.value))
      && ("requirement" !in kwargs && IsNonEmptyDict(requirement) ==> data["requirement"] == requirement)
  {
  }

  /** The signing payload as the dict `{"endUserIp": ...}` with each key set in turn, then updated by `kwargs`. */
  lemma SigningPayloadSteps(
    endUserIp: string, userVisibleData: UserData, personalNumber: Option<string>, requirement: Json,
    userNonVisibleData: Option<UserData>, kwargs: map<string, Json>)
    ensures SigningPayload(endUserIp, userVisibleData, personalNumber, requirement, userNonVisibleData, kwargs) ==
      var d0 := map["endUserIp" := JString(endUserIp)];
      var d1 := if Given(personalNumber) then d0["personalNumber" := JString(personalNumber.value)] else d0;
      var d2 := d1["userVisibleData" := JString(EncodeJsonUserData(userVisibleData))];
      var d3 := if userNonVisibleData.Some? && NonEmptyUserData(userNonVisibleData.value)
        then d2["userNonVisibleData" := JString(EncodeJsonUserData(userNonVisibleData.value))] else d2;
      var d4 := if IsNonEmptyDict(requirement) then d3["requirement" := requirement] else d3;
      d4 + kwargs
  {
    var d0 := map["endUserIp" := JString(endUserIp)];
    EntryUpdate(d0, Given(personalNumber), "personalNumber",
      JString(if personalNumber.Some? then personalNumber.value else []));
    var d1 := if Given(personalNumber) then d0["personalNumber" := JString(personalNumber.value)] else d0;
    var visible := JString(EncodeJsonUserData(userVisibleData));
    assert d1 + map["userVisibleData" := visible] == d1["userVisibleData" := visible];
    var d2 := d1["userVisibleData" := visible];
    var nonVisible := userNonVisibleData.Some? && NonEmptyUserData(userNonVisibleData.value);
    EntryUpdate(d2, nonVisible, "userNonVisibleData",
      JString(EncodeJsonUserData(if userNonVisibleData.Some? then userNonVisibleData.value else Raw([]))));
    var d3 := if nonVisible then d2["userNonVisibleData" := JString(EncodeJsonUserData(userNonVisibleData.value))] else d2;
    EntryUpdate(d3, IsNonEmptyDict(requirement), "requirement", requirement);
    var d4 := if IsNonEmptyDict(requirement) then d3["requirement" := requirement] else d3;
    calc {
      SigningPayload(endUserIp, userVisibleData, personalNumber, requirement, userNonVisibleData, kwargs);
      d0 + Entry(Given(personalNumber), "personalNumber", JString(if personalNumber.Some? then personalNumber.value else []))
        + map["userVisibleData" := visible]
        + Entry(nonVisible, "userNonVisibleData",
            JString(EncodeJsonUserData(if userNonVisibleData.Some? then userNonVisibleData.value else Raw([]))))
        + Entry(IsNonEmptyDict(requirement), "requirement", requirement) + kwargs;
      d4 + kwargs;
    }
  }

  /** The keys of the signing payload: `userVisibleData` is always set, even for empty data. */
  lemma SignPayloadKeys(
    endUserIp: string, userVisibleData: UserData, personalNumber: Option<string>, requirement: Json,
    userNonVisibleData: Option<UserData>, kwargs: map<string, Json>)
    ensures var data := SigningPayload(endUserIp, userVisibleData, personalNumber, requirement, userNonVisibleData, kwargs);
      && data.Keys == {"endUserIp", "userVisibleData"}
                      + (if Given(personalNumber) then {"personalNumber"} else {})
                      + (if userNonVisibleData.Some? && NonEmptyUserData(userNonVisibleData.value) then {"userNonVisibleData"} else {})
                      + (if IsNonEmptyDict(requirement) then {"requirement"} else {}) + kwargs.Keys
      && (forall k :: k in kwargs ==> data[k] == kwargs[k])
      && ("endUserIp" !in kwargs ==> data["endUserIp"] == JString(endUserIp))
      && ("userVisibleData" !in kwargs ==> data["userVisibleData"] == JString(EncodeJsonUserData(userVisibleData)))
      && ("userNonVisibleData" !in kwargs && userNonVisibleData.Some? && NonEmptyUserData(userNonVisibleData.value) ==>
            data["userNonVisibleData"] == JString(EncodeJsonUserData(userNonVisibleData.value)))
      && ("requirement" !in kwargs && IsNonEmptyDict(requirement) ==> data["requirement"] == requirement)
  {
    SignPayloadKeySet(endUserIp, userVisibleData, personalNumber, requirement, userNonVisibleData, kwargs);
    SignPayloadValues(endUserIp, userVisibleData, personalNumber, requirement, userNonVisibleData, kwargs);
  }

  /** The key set of the signing payload. */
  lemma SignPayloadKeySet(
    endUserIp: string, userVisibleData: UserData, personalNumber: Option<string>, requirement: Json,
    userNonVisibleData: Option<UserData>, kwargs: map<string, Json>)
    ensures SigningPayload(endUserIp, userVisibleData, personalNumber, requirement, userNonVisibleData, kwargs).Keys ==
      {"endUserIp", "userVisibleData"}
      + (if Given(personalNumber) then {"personalNumber"} else {})
      + (if userNonVisibleData.Some? && NonEmptyUserData(userNonVisibleData.value) then {"userNonVisibleData"} else {})
      + (if IsNonEmptyDict(requirement) then {"requirement"} else {}) + kwargs.Keys
  {
    SigningPayloadSteps(endUserIp, userVisibleData, personalNumber, requirement, userNonVisibleData, kwargs);
  }

  /** The values of the signing payload: `kwargs` first, then each built key. */
  lemma SignPayloadValues(
    endUserIp: string, userVisibleData: UserData, personalNumber: Option<string>, requirement: Json,
    userNonVisibleData: Option<UserData>, kwargs: map<string, Json>)
    ensures var data := SigningPayload(endUserIp, userVisibleData, personalNumber, requirement, userNonVisibleData, kwargs);
      && (forall k :: k in kwargs ==> k in data && data[k] == kwargs[k])
      && ("endUserIp" !in kwargs ==> "endUserIp" in data && data["endUserIp"] == JString(endUserIp))
      && ("userVisibleData" !in kwargs ==> "userVisibleData" in data && data["userVisibleData"] == JString(EncodeJsonUserData(userVisibleData)))
      && ("userNonVisibleData" !in kwargs && userNonVisibleData.Some? && NonEmptyUserData(userNonVisibleData.value) ==>
            "userNonVisibleData" in data && data["userNonVisibleData"] == JString(EncodeJsonUserData(userNonVisibleData.value)))
      && ("requirement" !in kwargs && IsNonEmptyDict(requirement) ==> "requirement" in data && data["requirement"] == requirement)
  {
    SigningPayloadSteps(endUserIp, userVisibleData, personalNumber, requirement, userNonVisibleData, kwargs);
  }


  /** `AsyncBankIDJSONClient`: the v5.1 base URL, the server certificate name and four endpoints. */
  class AsyncBankIDJSONClient {
    const certs: (string, string)
    const requestTimeout: Option<int>
    const apiUrl: string
    const verifyCertName: string
    const authEndpoint: string
    const signEndpoint: string
    const collectEndpoint: string
    const cancelEndpoint: string

    constructor (certificates: (string, string), testServer: bool, timeout: Option<int>)
      ensures certs == certificates && requestTimeout == timeout
      ensures apiUrl == (if testServer then TestApiUrl51 else ProductionApiUrl51)
      ensures verifyCertName == (if testServer then TestVerifyCert else ProductionVerifyCert)
      ensures authEndpoint == apiUrl + "auth" && signEndpoint == apiUrl + "sign"
      ensures collectEndpoint == apiUrl + "collect" && cancelEndpoint == apiUrl + "cancel"
    {
      certs := certificates;
      requestTimeout := timeout;
      var url := if testServer then TestApiUrl51 else ProductionApiUrl51;
      apiUrl := url;
      verifyCertName := if testServer then TestVerifyCert else ProductionVerifyCert;
      UrlJoinDirectory(url, "auth");
      UrlJoinDirectory(url, "sign");
      UrlJoinDirectory(url, "collect");
      UrlJoinDirectory(url, "cancel");
      authEndpoint := UrlJoin(url, "auth");
      signEndpoint := UrlJoin(url, "sign");
      collectEndpoint := UrlJoin(url, "collect");
      cancelEndpoint := UrlJoin(url, "cancel");
    }

    /** `authenticate_payload`: `endUserIp` first, the optional keys when given, then `data.update(kwargs)`. */
    method AuthenticatePayload(
      endUserIp: string, personalNumber: Option<string>, requirement: Json, kwargs: map<string, Json>)
      returns (data: map<string, Json>)
      ensures data == AuthenticationPayload(endUserIp, personalNumber, requirement, kwargs)
    {
      data := map["endUserIp" := JString(endUserIp)];
      EntryUpdate(data, Given(personalNumber), "personalNumber",
        JString(if personalNumber.Some? then personalNumber.value else []));
      if Given(personalNumber) {
        data := data["personalNumber" := JString(personalNumber.value)];
      }
      EntryUpdate(data, IsNonEmptyDict(requirement), "requirement", requirement);
      if IsNonEmptyDict(requirement) {
        data := data["requirement" := requirement];
      }
      data := data + kwargs;
    }

    /** `sign_payload`: `endUserIp` and `userVisibleData` always, the optional keys when given, then `data.update(kwargs)`. */
    method SignPayload(
      endUserIp: string, userVisibleData: UserData, personalNumber: Option<string>, requirement: Json,
      userNonVisibleData: Option<UserData>, kwargs: map<string, Json>)
      returns (data: map<string, Json>)
      ensures data == SigningPayload(endUserIp, userVisibleData, personalNumber, requirement, userNonVisibleData, kwargs)
    {
      data := map["endUserIp" := JString(endUserIp)];
      if Given(personalNumber) {
        data := data["personalNumber" := JString(personalNumber.value)];
      }
      data := data["userVisibleData" := JString(EncodeJsonUserData(userVisibleData))];
      if userNonVisibleData.Some? && NonEmptyUserData(userNonVisibleData.value) {
        data := data["userNonVisibleData" := JString(EncodeJsonUserData(userNonVisibleData.value))];
      }
      if IsNonEmptyDict(requirement) {
        data := data["requirement" := requirement];
      }
      SigningPayloadSteps(endUserIp, userVisibleData, personalNumber, requirement, userNonVisibleData, kwargs);
      data := data + kwargs;
    }

    /** `authenticate`: posts the authentication payload to the auth endpoint. */
    method Authenticate(
      endUserIp: string, personalNumber: Option<string>, requirement: Json, kwargs: map<string, Json>,
      post: (string, Json) -> Response, repr: Json -> string)
      returns (r: Result<Json, ClientError>)
      ensures r == OrderResult(post(authEndpoint, JObject(AuthenticationPayload(endUserIp, personalNumber, requirement, kwargs))), repr)
    {
      var data := AuthenticatePayload(endUserIp, personalNumber, requirement, kwargs);
      var response := post(authEndpoint, JObject(data));
      r := OrderResult(response, repr);
    }

    /** `sign`: posts the signing payload to the sign endpoint. */
    method Sign(
      endUserIp: string, userVisibleData: UserData, personalNumber: Option<string>, requirement: Json,
      userNonVisibleData: Option<UserData>, kwargs: map<string, Json>,
      post: (string, Json) -> Response, repr: Json -> string)
      returns (r: Result<Json, ClientError>)
      ensures r == OrderResult(post(signEndpoint, JObject(
        SigningPayload(endUserIp, userVisibleData, personalNumber, requirement, userNonVisibleData, kwargs))), repr)
    {
      var data := SignPayload(endUserIp, userVisibleData, personalNumber, requirement, userNonVisibleData, kwargs);
      var response := post(signEndpoint, JObject(data));
      r := OrderResult(response, repr);
    }

    /** `collect`: posts `{"orderRef": order_ref}` to the collect endpoint. */
    method Collect(orderRef: string, post: (string, Json) -> Response, repr: Json -> string)
      returns (r: Result<Json, ClientError>)
      ensures r == OrderResult(post(collectEndpoint, OrderRefBody(orderRef)), repr)
    {
      var response := post(collectEndpoint, OrderRefBody(orderRef));
      r := OrderResult(response, repr);
    }

    /** `cancel`: posts `{"orderRef": order_ref}` to the cancel endpoint; true iff the answer is 200 with `{}`. */
    method Cancel(orderRef: string, post: (string, Json) -> Response, repr: Json -> string)
      returns (r: Result<bool, ClientError>)
      ensures r == CancelResult(post(cancelEndpoint, OrderRefBody(orderRef)), repr)
      ensures r == Ok(true) <==> post(cancelEndpoint, OrderRefBody(orderRef)) == Response(200, EmptyObject)
    {
      var response := post(cancelEndpoint, OrderRefBody(orderRef));
      r := CancelResult(response, repr);
      CancelResultCases(response, repr);
    }
  }

  /** The value a positional `Optional[str]` argument carries into a parameter typed as JSON. */
  function OptionalText(s: Option<string>): Json {
    match s
    case Some(t) => JString(t)
    case None => JNull
  }

  /**
   * The payload of the synchronous `sign` as written: `user_non_visible_data` is passed
   * positionally into the `requirement` slot of the asynchronous `sign`.
   */
  function SyncSignPayloadAsWritten(
    ipAddress: string, userVisibleData: string, personalNumber: Option<string>, userNonVisibleData: Option<string>)
    : (r: map<string, Json>)
    ensures "endUserIp" in r && r["endUserIp"] == JString(ipAddress)
    ensures "userVisibleData" in r && r["userVisibleData"] == JString(EncodeJsonUserData(Text(userVisibleData)))
  {
    SigningPayload(ipAddress, Text(userVisibleData), personalNumber, OptionalText(userNonVisibleData), None, map[])
  }

  /** The payload of the synchronous `sign`, with `user_non_visible_data` passed by name. */
  function SyncSignPayload(
    ipAddress: string, userVisibleData: string, personalNumber: Option<string>, userNonVisibleData: Option<string>)
    : (r: map<string, Json>)
    ensures "endUserIp" in r && r["endUserIp"] == JString(ipAddress)
    ensures "userVisibleData" in r && r["userVisibleData"] == JString(EncodeJsonUserData(Text(userVisibleData)))
  {
    var nonVisible := if userNonVisibleData.Some? then Some(Text(userNonVisibleData.value)) else None;
    SigningPayload(ipAddress, Text(userVisibleData), personalNumber, JNull, nonVisible, map[])
  }

  /** As written, the non-visible data never reaches the payload: a string is not a dict, so the requirement test drops it. */
  lemma SyncSignAsWrittenDropsNonVisibleData(
    ipAddress: string, userVisibleData: string, personalNumber: Option<string>, userNonVisibleData: Option<string>)
    ensures "userNonVisibleData" !in SyncSignPayloadAsWritten(ipAddress, userVisibleData, personalNumber, userNonVisibleData)
    ensures "requirement" !in SyncSignPayloadAsWritten(ipAddress, userVisibleData, personalNumber, userNonVisibleData)
  {
    SignPayloadKeys(ipAddress, Text(userVisibleData), personalNumber, OptionalText(userNonVisibleData), None, map[]);
  }

  /** A concrete call: `sign("1.2.3.4", "x", None, "secret")` sends no `userNonVisibleData`. */
  lemma SyncSignAsWrittenCounterexample()
    ensures "userNonVisibleData" !in SyncSignPayloadAsWritten("1.2.3.4", "x", None, Some("secret"))
    ensures "userNonVisibleData" in SyncSignPayload("1.2.3.4", "x", None, Some("secret"))
  {
    SyncSignAsWrittenDropsNonVisibleData("1.2.3.4", "x", None, Some("secret"));
    SyncSignSendsNonVisibleData("1.2.3.4", "x", None, Some("secret"));
  }

  /** With the argument passed by name, given non-visible data is sent, encoded, and nothing else changes. */
  lemma SyncSignSendsNonVisibleData(
    ipAddress: string, userVisibleData: string, personalNumber: Option<string>, userNonVisibleData: Option<string>)
    ensures var data := SyncSignPayload(ipAddress, userVisibleData, personalNumber, userNonVisibleData);
      && ("userNonVisibleData" in data <==> Given(userNonVisibleData))
      && (Given(userNonVisibleData) ==> data["userNonVisibleData"] == JString(EncodeUserData(userNonVisibleData.value)))
      && (data - {"userNonVisibleData"}
          == SyncSignPayloadAsWritten(ipAddress, userVisibleData, personalNumber, userNonVisibleData))
  {
    var nonVisible := if userNonVisibleData.Some? then Some(Text(userNonVisibleData.value)) else None;
    SignPayloadKeys(ipAddress, Text(userVisibleData), personalNumber, JNull, nonVisible, map[]);
    SignPayloadKeys(ipAddress, Text(userVisibleData), personalNumber, OptionalText(userNonVisibleData), None, map[]);
    var data := SyncSignPayload(ipAddress, userVisibleData, personalNumber, userNonVisibleData);
    var asWritten := SyncSignPayloadAsWritten(ipAddress, userVisibleData, personalNumber, userNonVisibleData);
    assert (data - {"userNonVisibleData"}).Keys == asWritten.Keys;
  }

  /** `BankIDJSONClient`: the synchronous client, running each call of its asynchronous part to completion. */
  class BankIDJSONClient {
    const asyncClient: AsyncBankIDJSONClient

    constructor (certificates: (string, string), testServer: bool, timeout: Option<int>)
      ensures asyncClient.certs == certificates && asyncClient.requestTimeout == timeout
      ensures asyncClient.apiUrl == (if testServer then TestApiUrl51 else ProductionApiUrl51)
      ensures asyncClient.verifyCertName == (if testServer then TestVerifyCert else ProductionVerifyCert)
      ensures asyncClient.authEndpoint == asyncClient.apiUrl + "auth"
      ensures asyncClient.signEndpoint == asyncClient.apiUrl + "sign"
      ensures asyncClient.collectEndpoint == asyncClient.apiUrl + "collect"
      ensures asyncClient.cancelEndpoint == asyncClient.apiUrl + "cancel"
    {
      asyncClient := new AsyncBankIDJSONClient(certificates, testServer, timeout);
    }

    method Cancel(orderRef: string, post: (string, Json) -> Response, repr: Json -> string)
      returns (r: Result<bool, ClientError>)
      ensures r == CancelResult(post(asyncClient.cancelEndpoint, OrderRefBody(orderRef)), repr)
    {
      r := asyncClient.Cancel(orderRef, post, repr);
    }

    method Collect(orderRef: string, post: (string, Json) -> Response, repr: Json -> string)
      returns (r: Result<Json, ClientError>)
      ensures r == OrderResult(post(asyncClient.collectEndpoint, OrderRefBody(orderRef)), repr)
    {
      r := asyncClient.Collect(orderRef, post, repr);
    }

    /**
     * `sign` as written: the fourth positional argument, `user_non_visible_data`, lands in the
     * `requirement` parameter of the asynchronous `sign`, so it is never sent as non-visible data.
     */
    method Sign(
      ipAddress: string, userVisibleData: string, personalNumber: Option<string>, userNonVisibleData: Option<string>,
      post: (string, Json) -> Response, repr: Json -> string)
      returns (r: Result<Json, ClientError>)
      ensures r == OrderResult(post(asyncClient.signEndpoint, JObject(
        SyncSignPayloadAsWritten(ipAddress, userVisibleData, personalNumber, userNonVisibleData))), repr)
    {
      r := asyncClient.Sign(ipAddress, Text(userVisibleData), personalNumber, OptionalText(userNonVisibleData), None, map[], post, repr);
    }

    /** `authenticate`: only the IP address and the personal number are forwarded. */
    method Authenticate(
      ipAddress: string, personalNumber: Option<string>, post: (string, Json) -> Response, repr: Json -> string)
      returns (r: Result<Json, ClientError>)
      ensures r == OrderResult(post(asyncClient.authEndpoint, JObject(
        AuthenticationPayload(ipAddress, personalNumber, JNull, map[]))), repr)
    {
      r := asyncClient.Authenticate(ipAddress, personalNumber, JNull, map[], post, repr);
    }
  }

  /** The synchronous authentication payload holds `endUserIp` and, when given, `personalNumber`, and nothing else. */
  lemma SyncAuthenticatePayload(ipAddress: string, personalNumber: Option<string>)
    ensures var data := AuthenticationPayload(ipAddress, personalNumber, JNull, map[]);
      && data.Keys == {"endUserIp"} + (if Given(personalNumber) then {"personalNumber"} else {})
      && data["endUserIp"] == JString(ipAddress)
  {
    AuthenticatePayloadKeys(ipAddress, personalNumber, JNull, map[]);
  }
}
