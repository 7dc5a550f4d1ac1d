/**
 * The base class of the v6.0 clients: server and endpoint selection, user-data
 * encoding and the request payload shared by the authentication and signing orders.
 */
module BaseClient {
  import opened Wrappers
  import opened Encoding
  import opened Json
  import opened PyText

  const TestApiUrl: string := "https://appapi2.test.bankid.com/rp/v6.0/"
  const ProductionApiUrl: string := "https://appapi2.bankid.com/rp/v6.0/"
  const TestVerifyCert: string := "appapi2.test.bankid.com.pem"
  const ProductionVerifyCert: string := "appapi2.bankid.com.pem"

  /** The index of the last '/' in `s`, or -1. */
  function LastSlash(s: string): (r: int)
    ensures -1 <= r < |s|
    ensures r >= 0 ==> s[r] == '/'
    ensures forall i :: r < i < |s| ==> s[i] != '/'
  {
    if s == [] then -1
    else if s[|s| - 1] == '/' then |s| - 1
    else LastSlash(s[..|s| - 1])
  }

  /**
   * `urljoin(base, ref)` for a relative-path reference without a scheme, authority,
   * query, fragment or dot segment (all six references here are of that form): the
   * reference replaces everything after the last '/' of the base, as in the merge
   * step of section 5.2.3 of RFC 3986.
   */
  function UrlJoin(base: string, ref: string): (r: string)
    ensures |ref| <= |r| <= |base| + |ref| && r[|r| - |ref|..] == ref
    ensures var kept := |r| - |ref|;
      && r[..kept] == base[..kept]
      && (kept == 0 || base[kept - 1] == '/')
      && (forall i :: kept <= i < |base| ==> base[i] != '/')
    ensures r == base + ref <==> base == [] || base[|base| - 1] == '/'
  {
    base[..LastSlash(base) + 1] + ref
  }

  /** A base ending in '/' is kept whole: the join is plain concatenation. */
  lemma UrlJoinDirectory(base: string, ref: string)
    requires |base| > 0 && base[|base| - 1] == '/'
    ensures UrlJoin(base, ref) == base + ref
  {
    assert base[..|base|] == base;
  }

  /** `BankIDClientBaseclass`: the base URL, the name of the server certificate and the six endpoints. */
  class BankIDClientBase {
    const certs: (string, string)
    const apiUrl: string
    const verifyCertName: string
    const authEndpoint: string
    const phoneAuthEndpoint: string
    const signEndpoint: string
    const phoneSignEndpoint: string
    const collectEndpoint: string
    const cancelEndpoint: string

    constructor (certificates: (string, string), testServer: bool)
      ensures certs == certificates
      ensures apiUrl == (if testServer then TestApiUrl else ProductionApiUrl)
      ensures verifyCertName == (if testServer then TestVerifyCert else ProductionVerifyCert)
      ensures authEndpoint == apiUrl + "auth"
      ensures phoneAuthEndpoint == apiUrl + "phone/auth"
      ensures signEndpoint == apiUrl + "sign"
      ensures phoneSignEndpoint == apiUrl + "phone/sign"
      ensures collectEndpoint == apiUrl + "collect"
      ensures cancelEndpoint == apiUrl + "cancel"
    {
      certs := certificates;
      var url := if testServer then TestApiUrl else ProductionApiUrl;
      apiUrl := url;
      verifyCertName := if testServer then TestVerifyCert else ProductionVerifyCert;
      UrlJoinDirectory(url, "auth");
      UrlJoinDirectory(url, "phone/auth");
      UrlJoinDirectory(url, "sign");
      UrlJoinDirectory(url, "phone/sign");
      UrlJoinDirectory(url, "collect");
      UrlJoinDirectory(url, "cancel");
      authEndpoint := UrlJoin(url, "auth");
      phoneAuthEndpoint := UrlJoin(url, "phone/auth");
      signEndpoint := UrlJoin(url, "sign");
      phoneSignEndpoint := UrlJoin(url, "phone/sign");
      collectEndpoint := UrlJoin(url, "collect");
      cancelEndpoint := UrlJoin(url, "cancel");
    }

    /** `_create_payload`: starts from `{}` and sets each key whose argument is given. */
    method CreatePayload(
      endUserIp: Option<string>, requirement: Json, userVisibleData: Option<string>,
      userNonVisibleData: Option<string>, userVisibleDataFormat: Option<string>)
      returns (data: map<string, Json>)
      ensures data == Payload(endUserIp, requirement, userVisibleData, userNonVisibleData, userVisibleDataFormat)
    {
      var ip := if endUserIp.Some? then endUserIp.value else [];
      var visible := if userVisibleData.Some? then userVisibleData.value else [];
      var nonVisible := if userNonVisibleData.Some? then userNonVisibleData.value else [];
      data := map[];
      EntryUpdate(data, Given(endUserIp), "endUserIp", JString(ip));
      if Given(endUserIp) {
        data := data["endUserIp" := JString(endUserIp.value)];
      }
      EntryUpdate(data, IsNonEmptyDict(requirement), "requirement", requirement);
      if IsNonEmptyDict(requirement) {
        data := data["requirement" := requirement];
      }
      EntryUpdate(data, Given(userVisibleData), "userVisibleData", JString(EncodeUserData(visible)));
      if Given(userVisibleData) {
        data := data["userVisibleData" := JString(EncodeUserData(userVisibleData.value))];
      }
      EntryUpdate(data, Given(userNonVisibleData), "userNonVisibleData", JString(EncodeUserData(nonVisible)));
      if Given(userNonVisibleData) {
        data := data["userNonVisibleData" := JString(EncodeUserData(userNonVisibleData.value))];
      }
      EntryUpdate(data, userVisibleDataFormat == Some(SimpleMarkdownV1), "userVisibleDataFormat", JString(SimpleMarkdownV1));
      if userVisibleDataFormat == Some(SimpleMarkdownV1) {
        data := data["userVisibleDataFormat" := JString(SimpleMarkdownV1)];
      }
    }
  }

  /** The two servers have different base URLs, both ending in '/', so every endpoint lies under its server. */
  lemma ApiUrls()
    ensures TestApiUrl != ProductionApiUrl
    ensures LastSlash(TestApiUrl) == |TestApiUrl| - 1 && LastSlash(ProductionApiUrl) == |ProductionApiUrl| - 1
    ensures forall ref :: UrlJoin(TestApiUrl, ref) == TestApiUrl + ref
    ensures forall ref :: UrlJoin(ProductionApiUrl, ref) == ProductionApiUrl + ref
  {
    assert TestApiUrl[16] != ProductionApiUrl[16];
    forall ref: string ensures UrlJoin(TestApiUrl, ref) == TestApiUrl + ref {
      UrlJoinDirectory(TestApiUrl, ref);
    }
    forall ref: string ensures UrlJoin(ProductionApiUrl, ref) == ProductionApiUrl + ref {
      UrlJoinDirectory(ProductionApiUrl, ref);
    }
  }

  /** `_encode_user_data`: base64 (section 4 of RFC 4648) of the UTF-8 bytes. */
  function EncodeUserData(userData: string): (r: string)
    ensures userData == [] <==> r == []
  {
    Base64Encode(Utf8Encode(userData))
  }

  /** Decoding the encoded user data as base64 and then as UTF-8 gives back the text; the encoding is ASCII. */
  lemma EncodeUserDataRoundTrip(userData: string)
    ensures Base64Decode(EncodeUserData(userData)).Some?
    ensures Utf8Decode(Base64Decode(EncodeUserData(userData)).value) == Some(userData)
    ensures forall i :: 0 <= i < |EncodeUserData(userData)| ==> EncodeUserData(userData)[i] as int < 128
  {
    Base64RoundTrip(Utf8Encode(userData));
    Utf8RoundTrip(userData);
    Base64EncodeSymbols(Utf8Encode(userData));
  }

  const SimpleMarkdownV1: string := "simpleMarkdownV1"

  /** The keys `_create_payload` may set. */
  const PayloadKeys: set<string> :=
    {"endUserIp", "requirement", "userVisibleData", "userNonVisibleData", "userVisibleDataFormat"}

  /**
   * What `_create_payload` returns: one entry per given argument, each under its
   * own key, no other key.
   */
  function Payload(
    endUserIp: Option<string>, requirement: Json, userVisibleData: Option<string>,
    userNonVisibleData: Option<string>, userVisibleDataFormat: Option<string>): (r: map<string, Json>)
    ensures r.Keys <= PayloadKeys
    ensures Given(userVisibleData) ==> "userVisibleData" in r && r["userVisibleData"] == JString(EncodeUserData(userVisibleData.value))
  {
    var visible := Entry(Given(userVisibleData), "userVisibleData",
      JString(EncodeUserData(if userVisibleData.Some? then userVisibleData.value else [])));
    var nonVisible := Entry(Given(userNonVisibleData), "userNonVisibleData",
      JString(EncodeUserData(if userNonVisibleData.Some? then userNonVisibleData.value else [])));
    var format := Entry(userVisibleDataFormat == Some(SimpleMarkdownV1), "userVisibleDataFormat", JString(SimpleMarkdownV1));
    assert "userVisibleData" !in nonVisible && "userVisibleData" !in format;
    Entry(Given(endUserIp), "endUserIp", JString(if endUserIp.Some? then endUserIp.value else []))
    + Entry(IsNonEmptyDict(requirement), "requirement", requirement)
    + visible + nonVisible + format
  }

  /** The payload as the dict `{}` with each given key set in turn. */
  lemma PayloadSteps(
    endUserIp: Option<string>, requirement: Json, userVisibleData: Option<string>,
    userNonVisibleData: Option<string>, userVisibleDataFormat: Option<string>)
    ensures Payload(endUserIp, requirement, userVisibleData, userNonVisibleData, userVisibleDataFormat) ==
      var d0: map<string, Json> := map[];
      var d1 := if Given(endUserIp) then d0["endUserIp" := JString(endUserIp.value)] else d0;
      var d2 := if IsNonEmptyDict(requirement) then d1["requirement" := requirement] else d1;
      var d3 := if Given(userVisibleData) then d2["userVisibleData" := JString(EncodeUserData(userVisibleData.value))] else d2;
      var d4 := if Given(userNonVisibleData) then d3["userNonVisibleData" := JString(EncodeUserData(userNonVisibleData.value))] else d3;
      if userVisibleDataFormat == Some(SimpleMarkdownV1) then d4["userVisibleDataFormat" := JString(SimpleMarkdownV1)] else d4
  {
    var ip := if endUserIp.Some? then endUserIp.value else [];
    var visible := if userVisibleData.Some? then userVisibleData.value else [];
    var nonVisible := if userNonVisibleData.Some? then userNonVisibleData.value else [];
    var d0: map<string, Json> := map[];
    EntryUpdate(d0, Given(endUserIp), "endUserIp", JString(ip));
    var d1 := if Given(endUserIp) then d0["endUserIp" := JString(ip)] else d0;
    EntryUpdate(d1, IsNonEmptyDict(requirement), "requirement", requirement);
    var d2 := if IsNonEmptyDict(requirement) then d1["requirement" := requirement] else d1;
    EntryUpdate(d2, Given(userVisibleData), "userVisibleData", JString(EncodeUserData(visible)));
    var d3 := if Given(userVisibleData) then d2["userVisibleData" := JString(EncodeUserData(visible))] else d2;
    EntryUpdate(d3, Given(userNonVisibleData), "userNonVisibleData", JString(EncodeUserData(nonVisible)));
    var present := userVisibleDataFormat == Some(SimpleMarkdownV1);
    EntryUpdate(d3 + Entry(Given(userNonVisibleData), "userNonVisibleData", JString(EncodeUserData(nonVisible))),
      present, "userVisibleDataFormat", JString(SimpleMarkdownV1));
  }

  /** Which keys the payload holds, and with what values. */
  lemma CreatePayloadKeys(
    endUserIp: Option<string>, requirement: Json, userVisibleData: Option<string>,
    userNonVisibleData: Option<string>, userVisibleDataFormat: Option<string>)
    ensures var data := Payload(endUserIp, requirement, userVisibleData, userNonVisibleData, userVisibleDataFormat);
      && data.Keys <= PayloadKeys
      && ("endUserIp" in data <==> Given(endUserIp))
      && ("endUserIp" in data ==> data["endUserIp"] == JString(endUserIp.value))
      && ("requirement" in data <==> IsNonEmptyDict(requirement))
      && ("requirement" in data ==> data["requirement"] == requirement)
      && ("userVisibleData" in data <==> Given(userVisibleData))
      && ("userVisibleData" in data ==> data["userVisibleData"] == JString(EncodeUserData(userVisibleData.value)))
      && ("userNonVisibleData" in data <==> Given(userNonVisibleData))
      && ("userNonVisibleData" in data ==> data["userNonVisibleData"] == JString(EncodeUserData(userNonVisibleData.value)))
      && ("userVisibleDataFormat" in data <==> userVisibleDataFormat == Some(SimpleMarkdownV1))
      && ("userVisibleDataFormat" in data ==> data["userVisibleDataFormat"] == JString(SimpleMarkdownV1))
  {
    PayloadSteps(endUserIp, requirement, userVisibleData, userNonVisibleData, userVisibleDataFormat);
  }

  /** With no argument given the payload is `{}`. */
  lemma CreatePayloadEmpty()
    ensures Payload(None, JNull, None, None, None) == map[]
  {
  }

  /** The user data in the payload decodes back to the argument. */
  lemma CreatePayloadUserData(
    endUserIp: Option<string>, requirement: Json, userVisibleData: Option<string>,
    userNonVisibleData: Option<string>, userVisibleDataFormat: Option<string>)
    requires Given(userVisibleData)
    ensures var data := Payload(endUserIp, requirement, userVisibleData, userNonVisibleData, userVisibleDataFormat);
      && "userVisibleData" in data && data["userVisibleData"].JString?
      && Base64Decode(data["userVisibleData"].s).Some?
      && Utf8Decode(Base64Decode(data["userVisibleData"].s).value) == Some(userVisibleData.value)
  {
    EncodeUserDataRoundTrip(userVisibleData.value);
  }
}
