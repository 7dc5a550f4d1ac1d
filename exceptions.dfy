/**
 * The BankID error classes, the error code table and the factory that turns an
 * error response body into the matching error.
 */
module Exceptions {
  import opened Wrappers
  import opened Json
  import opened PyErrors
  import opened PyText

  /** `BankIDError` and its subclasses; `Generic` is `BankIDError` itself. */
  datatype ErrorKind =
    | Generic
    | InvalidParameters
    | AlreadyInProgress
    | Unauthorized
    | NotFound
    | RequestTimeout
    | Internal
    | Maintenance

  /** The `rfa` attribute each class sets: the user message to show (RFA4, RFA5), or None. */
  function Rfa(kind: ErrorKind): (r: Option<nat>)
    ensures r == Some(4) <==> kind == AlreadyInProgress
    ensures r == Some(5) <==> kind in {RequestTimeout, Internal, Maintenance}
    ensures r == None <==> kind in {Generic, InvalidParameters, Unauthorized, NotFound}
  {
    match kind
    case AlreadyInProgress => Some(4)
    case RequestTimeout => Some(5)
    case Internal => Some(5)
    case Maintenance => Some(5)
    case _ => None
  }

  /** `_JSON_ERROR_CODE_TO_CLASS`; `methodNotAllowed` and `unsupportedMediaType` are not in it. */
  const ErrorCodeTable: map<string, ErrorKind> := map[
    "invalidParameters" := InvalidParameters,
    "alreadyInProgress" := AlreadyInProgress,
    "unauthorized" := Unauthorized,
    "notFound" := NotFound,
    "requestTimeout" := RequestTimeout,
    "internalError" := Internal,
    "maintenance" := Maintenance
  ]

  /** The error code a subclass stands for (the inverse of the table). */
  function ErrorCode(kind: ErrorKind): (code: Option<string>)
    ensures code.None? <==> kind == Generic
  {
    match kind
    case Generic => None
    case InvalidParameters => Some("invalidParameters")
    case AlreadyInProgress => Some("alreadyInProgress")
    case Unauthorized => Some("unauthorized")
    case NotFound => Some("notFound")
    case RequestTimeout => Some("requestTimeout")
    case Internal => Some("internalError")
    case Maintenance => Some("maintenance")
  }

  /** A Python value can be a dict key unless it is a list or a dict. */
  predicate Hashable(j: Json) {
    !j.JArray? && !j.JObject?
  }

  /** `_JSON_ERROR_CODE_TO_CLASS.get(code, BankIDError)`; an unhashable code raises TypeError. */
  function ErrorClassFor(code: Json): Result<ErrorKind, PyError> {
    if !Hashable(code) then Err(TypeError("unhashable type"))
    else if code.JString? && code.s in ErrorCodeTable then Ok(ErrorCodeTable[code.s])
    else Ok(Generic)
  }

  /** Every class in the table is found from its own code, and only from that code. */
  lemma ErrorClassForCode(code: Json, kind: ErrorKind)
    requires kind != Generic
    ensures ErrorClassFor(code) == Ok(kind) <==> code == JString(ErrorCode(kind).value)
  {
  }

  /** The table maps each code to the one class whose code it is. */
  lemma ErrorCodeTableInverse()
    ensures forall s :: s in ErrorCodeTable ==> ErrorCodeTable[s] != Generic && ErrorCode(ErrorCodeTable[s]) == Some(s)
    ensures forall kind :: kind != Generic ==> ErrorCode(kind).value in ErrorCodeTable && ErrorCodeTable[ErrorCode(kind).value] == kind
  {
  }

  /** Any other hashable code, `methodNotAllowed` and `unsupportedMediaType` among them, gives BankIDError. */
  lemma ErrorClassForUnknown(code: Json)
    requires Hashable(code)
    requires forall kind :: kind != Generic ==> code != JString(ErrorCode(kind).value)
    ensures ErrorClassFor(code) == Ok(Generic)
  {
    ErrorCodeTableInverse();
  }

  lemma UnhandledCodesAreGeneric()
    ensures ErrorClassFor(JString("methodNotAllowed")) == Ok(Generic)
    ensures ErrorClassFor(JString("unsupportedMediaType")) == Ok(Generic)
    ensures ErrorClassFor(JString("Unknown error code")) == Ok(Generic)
    ensures ErrorClassFor(JNull) == Ok(Generic)
  {
  }

  /** A raised BankID error: its class and its message. */
  datatype BankIDError = BankIDError(kind: ErrorKind, message: string) {
    function RfaValue(): Option<nat> {
      Rfa(kind)
    }
  }

  /** `str(value)` for the scalar values; lists and dicts go through `repr`, which is passed in. */
  function PyStr(j: Json, repr: Json -> string): string {
    match j
    case JNull => "None"
    case JBool(b) => if b then "True" else "False"
    case JInt(i) => if i < 0 then "-" + NatToString(-i) else NatToString(i)
    case JString(s) => s
    case _ => repr(j)
  }

  /** `dict.get(key)`: None when the key is absent. */
  function Get(fields: map<string, Json>, key: string): (r: Json)
    ensures key in fields ==> r == fields[key]
    ensures key !in fields ==> r == JNull
  {
    if key in fields then fields[key] else JNull
  }

  /**
   * `get_json_error_class(response)` on the decoded body `data`: the class found from
   * `errorCode`, with the message `"<errorCode>: <details>"`. A body that is not a dict
   * has no `get` (AttributeError).
   */
  function GetJsonErrorClass(data: Json, repr: Json -> string): (r: Result<BankIDError, PyError>)
    ensures !data.JObject? ==> r.Err? && r.error.AttributeError?
    ensures data.JObject? ==> (
      var code := Get(data.fields, "errorCode");
      var details := Get(data.fields, "details");
      && (r.Ok? <==> Hashable(code))
      && (r.Ok? ==> r.value.kind == ErrorClassFor(code).value)
      && (r.Ok? ==> r.value.message == PyStr(code, repr) + ": " + PyStr(details, repr)))
  {
    match data
    case JObject(fields) =>
      var code := Get(fields, "errorCode");
      var kind :- ErrorClassFor(code);
      Ok(BankIDError(kind, PyStr(code, repr) + ": " + PyStr(Get(fields, "details"), repr)))
    case _ => Err(AttributeError("object has no attribute 'get'"))
  }

  /** A body carrying a known string code gives that class, its RFA message number and a message starting with the code. */
  lemma GetJsonErrorClassKnown(fields: map<string, Json>, kind: ErrorKind, repr: Json -> string)
    requires kind != Generic
    requires "errorCode" in fields && fields["errorCode"] == JString(ErrorCode(kind).value)
    ensures var r := GetJsonErrorClass(JObject(fields), repr);
      && r.Ok? && r.value.kind == kind && r.value.RfaValue() == Rfa(kind)
      && ErrorCode(kind).value + ": " <= r.value.message
  {
    var r := GetJsonErrorClass(JObject(fields), repr);
    ErrorClassForCode(fields["errorCode"], kind);
    var c := ErrorCode(kind).value;
    assert r.value.message == c + ": " + PyStr(Get(fields, "details"), repr);
    assert (c + ": " + PyStr(Get(fields, "details"), repr))[..|c| + 2] == c + ": ";
  }

  /** A body without `errorCode` gives the base class, with no RFA message, and a message starting "None: ". */
  lemma GetJsonErrorClassMissingCode(fields: map<string, Json>, repr: Json -> string)
    requires "errorCode" !in fields
    ensures var r := GetJsonErrorClass(JObject(fields), repr);
      && r.Ok? && r.value.kind == Generic && r.value.RfaValue().None?
      && "None: " <= r.value.message
  {
    var r := GetJsonErrorClass(JObject(fields), repr);
    var tail := PyStr(Get(fields, "details"), repr);
    assert r.value.message == "None" + ": " + tail;
    assert ("None" + ": " + tail)[..6] == "None: ";
  }
}
