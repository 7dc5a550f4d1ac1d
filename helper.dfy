/**
 * The signature-container helpers of the experimental verifier: PEM wrapping of
 * certificate text, the base64 value wrapper, positional access into the parsed
 * signature document, the raw-text regions cut out of the decoded document, the
 * completion-data accessors and the OCSP nonce value.
 */
module Helper {
  import opened Wrappers
  import opened Encoding
  import opened Json
  import opened PyText
  import opened PyErrors

  /** An element of an ElementTree: its tag, its text (None when absent) and its children in document order. */
  datatype Element = Element(tag: string, text: Option<string>, children: seq<Element>)

  // ---------------------------------------------------------------------
  // make_cert
  // ---------------------------------------------------------------------

  const BeginCertificate: string := "-----BEGIN CERTIFICATE-----\n"
  const EndCertificate: string := "\n-----END CERTIFICATE-----"
  const PemLineWidth: nat := 54

  /**
   * `textwrap.wrap(e, width)` on text that is one word (no whitespace, no hyphen):
   * consecutive pieces of `width` characters, the last one possibly shorter.
   */
  function Wrap(e: string, width: nat): (lines: seq<string>)
    requires width > 0
    ensures Concat(lines) == e
    ensures forall i :: 0 <= i < |lines| ==> 0 < |lines[i]| <= width
    ensures forall i :: 0 <= i < |lines| - 1 ==> |lines[i]| == width
    ensures e == [] <==> lines == []
    decreases |e|
  {
    if e == [] then []
    else if |e| <= width then [e]
    else [e[..width]] + Wrap(e[width..], width)
  }

  /** `make_cert(e)`: certificate text between PEM armour lines, 54 characters per line. */
  function MakeCert(e: string): (pem: string)
    ensures BeginCertificate <= pem && EndsWith(pem, EndCertificate)
    ensures |pem| >= |BeginCertificate| + |EndCertificate|
  {
    var body := Join("\n", Wrap(e, PemLineWidth));
    assert (BeginCertificate + body + EndCertificate)[..|BeginCertificate|] == BeginCertificate;
    BeginCertificate + body + EndCertificate
  }

  predicate NoNewline(s: string) {
    forall i :: 0 <= i < |s| ==> s[i] != '\n'
  }

  function RemoveNewlines(s: string): (r: string)
    ensures NoNewline(r)
  {
    if s == [] then []
    else if s[0] == '\n' then RemoveNewlines(s[1..])
    else [s[0]] + RemoveNewlines(s[1..])
  }

  /** The base64 text inside a PEM block: armour removed and line breaks dropped. */
  function Unarmor(pem: string): Option<string> {
    if BeginCertificate <= pem && EndsWith(pem, EndCertificate)
       && |pem| >= |BeginCertificate| + |EndCertificate|
    then Some(RemoveNewlines(pem[|BeginCertificate|..|pem| - |EndCertificate|]))
    else None
  }

  lemma {:induction false} RemoveNewlinesAppend(a: string, b: string)
    ensures RemoveNewlines(a + b) == RemoveNewlines(a) + RemoveNewlines(b)
  {
    if a != [] {
      assert (a + b)[1..] == a[1..] + b;
      RemoveNewlinesAppend(a[1..], b);
    } else {
      assert a + b == b;
    }
  }

  lemma {:induction false} RemoveNewlinesKeeps(s: string)
    requires NoNewline(s)
    ensures RemoveNewlines(s) == s
  {
    if s != [] {
      RemoveNewlinesKeeps(s[1..]);
    }
  }

  lemma {:induction false} RemoveNewlinesOfWrap(e: string, width: nat)
    requires width > 0 && NoNewline(e)
    ensures RemoveNewlines(Join("\n", Wrap(e, width))) == e
    decreases |e|
  {
    if e != [] && |e| <= width {
      RemoveNewlinesKeeps(e);
    } else if e != [] {
      var rest := Wrap(e[width..], width);
      assert Wrap(e, width) == [e[..width]] + rest;
      assert Join("\n", Wrap(e, width)) == e[..width] + "\n" + Join("\n", rest);
      RemoveNewlinesAppend(e[..width] + "\n", Join("\n", rest));
      RemoveNewlinesAppend(e[..width], "\n");
      RemoveNewlinesKeeps(e[..width]);
      RemoveNewlinesOfWrap(e[width..], width);
      assert e[..width] + e[width..] == e;
    }
  }

  /** Removing the armour and line breaks from `make_cert(e)` gives back `e`. */
  lemma MakeCertRoundTrip(e: string)
    requires NoNewline(e)
    ensures Unarmor(MakeCert(e)) == Some(e)
  {
    var body := Join("\n", Wrap(e, PemLineWidth));
    var pem := MakeCert(e);
    assert pem[|BeginCertificate|..|pem| - |EndCertificate|] == body;
    RemoveNewlinesOfWrap(e, PemLineWidth);
  }

  /** The lines between the armour are the pieces of `e`: all exactly 54 characters but the last. */
  lemma MakeCertLines(e: string)
    ensures var lines := Wrap(e, PemLineWidth);
      && MakeCert(e) == BeginCertificate + Join("\n", lines) + EndCertificate
      && Concat(lines) == e
      && (forall i :: 0 <= i < |lines| - 1 ==> |lines[i]| == 54)
      && (forall i :: 0 <= i < |lines| ==> 0 < |lines[i]| <= 54)
  {
  }

  // ---------------------------------------------------------------------
  // B64Value
  // ---------------------------------------------------------------------

  predicate IsAscii(s: string) {
    forall i :: 0 <= i < |s| ==> s[i] as int < 128
  }

  /** `B64Value(value)`: a value kept as given, decoded on demand. */
  datatype B64Value = B64Value(value: Json) {

    /** `raw()` and `__str__`: the value unchanged. */
    function Raw(): Json {
      value
    }

    /** `decode`: `base64.b64decode(value)`. */
    function Decode(): (r: Result<seq<byte>, PyError>)
      ensures !value.JString? ==> r.Err? && r.error.TypeError?
      ensures value.JString? && !IsAscii(value.s) ==> r.Err? && r.error.ValueError?
      ensures value.JString? && IsAscii(value.s) ==>
        r == (match Base64Decode(value.s) case Some(b) => Ok(b) case None => Err(BinasciiError))
    {
      match value
      case JString(s) =>
        if !IsAscii(s) then Err(ValueError("string argument should contain only ASCII characters"))
        else (match Base64Decode(s)
              case Some(b) => Ok(b)
              case None => Err(BinasciiError))
      case _ => Err(TypeError("argument should be a bytes-like object or ASCII string"))
    }
  }

  /** The element's text as the value B64Value receives: None becomes Python's None. */
  function TextValue(e: Element): Json {
    match e.text
    case Some(t) => JString(t)
    case None => JNull
  }

  lemma B64ValueRoundTrip(b: seq<byte>)
    ensures B64Value(JString(Base64Encode(b))).Decode() == Ok(b)
  {
    Base64EncodeSymbols(b);
    Base64RoundTrip(b);
  }

  // ---------------------------------------------------------------------
  // Positional access into the element tree
  // ---------------------------------------------------------------------

  /** `e[path[0]][path[1]]...`; IndexError at the first absent position. */
  function At(e: Element, path: seq<nat>): (r: Result<Element, PyError>)
    ensures r.Err? ==> r.error == IndexError
    decreases |path|
  {
    if path == [] then Ok(e)
    else if path[0] < |e.children| then At(e.children[path[0]], path[1..])
    else Err(IndexError)
  }

  lemma {:induction false} AtAppend(e: Element, p: seq<nat>, q: seq<nat>)
    ensures At(e, p + q) == (match At(e, p) case Ok(x) => At(x, q) case Err(err) => Err(err))
    decreases |p|
  {
    if p != [] {
      assert (p + q)[0] == p[0] && (p + q)[1..] == p[1..] + q;
      if p[0] < |e.children| {
        AtAppend(e.children[p[0]], p[1..], q);
      }
    } else {
      assert p + q == q;
    }
  }

  // ---------------------------------------------------------------------
  // Raw regions of the decoded signature document
  // ---------------------------------------------------------------------

  const ObjectOpen: string := "<Object>"
  const ObjectClose: string := "</Object>"
  const SignedInfoOpen: string := "<SignedInfo"
  const SignedInfoClose: string := "</SignedInfo>"
  const KeyInfoOpen: string := "<KeyInfo"
  const KeyInfoClose: string := "</KeyInfo>"

  /** `xml[xml.find("<Object>") + len("<Object>"):xml.find("</Object>")]`. */
  function ObjectRegion(xml: string): string {
    Slice(xml, Find(xml, ObjectOpen) + |ObjectOpen|, Find(xml, ObjectClose))
  }

  /** `xml[xml.find(open):xml.find(close)] + close`, the shape of `signed_info` and `key_info_raw`. */
  function ElementRegion(xml: string, open: string, close: string): (r: string)
    ensures EndsWith(r, close)
  {
    var r := Slice(xml, Find(xml, open), Find(xml, close)) + close;
    assert r[|r| - |close|..] == close;
    r
  }

  /** An opening tag (no '<' after its first character) cannot overlap a later closing tag `</...`. */
  lemma CloseAfterOpen(xml: string, open: string, close: string, i: int, j: int)
    requires OccursAt(xml, open, i) && OccursAt(xml, close, j) && i <= j
    requires |open| >= 2 && |close| >= 2 && open[0] == '<' && open[1] != '/'
    requires close[0] == '<' && close[1] == '/'
    requires forall k :: 1 <= k < |open| ==> open[k] != '<'
    ensures j >= i + |open|
  {
    assert xml[i..i + |open|] == open && xml[j..j + |close|] == close;
    assert xml[j] == '<' && xml[j + 1] == '/';
    assert xml[i + 1] != '/';
    assert forall k :: i < k < i + |open| ==> xml[k] == open[k - i];
  }

  lemma ObjectTagsShape()
    ensures |ObjectOpen| == 8 && |ObjectClose| == 9
    ensures ObjectOpen[0] == '<' && ObjectOpen[1] != '/' && ObjectClose[0] == '<' && ObjectClose[1] == '/'
    ensures forall k :: 1 <= k < |ObjectOpen| ==> ObjectOpen[k] != '<'
  {
  }

  lemma ElementTagsShape()
    ensures |SignedInfoOpen| == 11 && |SignedInfoClose| == 13 && |KeyInfoOpen| == 8 && |KeyInfoClose| == 10
    ensures SignedInfoOpen[0] == '<' && SignedInfoOpen[1] != '/' && SignedInfoClose[0] == '<' && SignedInfoClose[1] == '/'
    ensures KeyInfoOpen[0] == '<' && KeyInfoOpen[1] != '/' && KeyInfoClose[0] == '<' && KeyInfoClose[1] == '/'
    ensures forall k :: 1 <= k < |SignedInfoOpen| ==> SignedInfoOpen[k] != '<'
    ensures forall k :: 1 <= k < |KeyInfoOpen| ==> KeyInfoOpen[k] != '<'
  {
  }

  /**
   * When `<Object>` first occurs before the first `</Object>`, the region is exactly
   * the text strictly between them and the document is put back together from it.
   */
  lemma ObjectRegionBetweenTags(xml: string)
    requires 0 <= Find(xml, ObjectOpen) < Find(xml, ObjectClose)
    ensures var i, j := Find(xml, ObjectOpen), Find(xml, ObjectClose);
      && i + |ObjectOpen| <= j
      && ObjectRegion(xml) == xml[i + |ObjectOpen|..j]
      && xml == xml[..i] + ObjectOpen + ObjectRegion(xml) + ObjectClose + xml[j + |ObjectClose|..]
  {
    var i, j := Find(xml, ObjectOpen), Find(xml, ObjectClose);
    ObjectPiecesAt(xml, i, j);
    assert ObjectRegion(xml) == Slice(xml, i + |ObjectOpen|, j);
  }

  /** `<Object>` at `i` and `</Object>` at a later `j` cut the text into five pieces. */
  lemma ObjectPiecesAt(xml: string, i: int, j: int)
    requires OccursAt(xml, ObjectOpen, i) && OccursAt(xml, ObjectClose, j) && i <= j
    ensures i + |ObjectOpen| <= j
    ensures Slice(xml, i + |ObjectOpen|, j) == xml[i + |ObjectOpen|..j]
    ensures xml == xml[..i] + ObjectOpen + xml[i + |ObjectOpen|..j] + ObjectClose + xml[j + |ObjectClose|..]
  {
    ObjectTagsShape();
    CloseAfterOpen(xml, ObjectOpen, ObjectClose, i, j);
    Reassemble(xml, i, j, ObjectOpen, ObjectClose);
  }

  /** A text holding `a` at `i` and `b` at a later `j` is put back together from its five pieces. */
  lemma Reassemble(s: string, i: int, j: int, a: string, b: string)
    requires 0 <= i && i + |a| <= j && j + |b| <= |s|
    requires s[i..i + |a|] == a && s[j..j + |b|] == b
    ensures s == s[..i] + a + s[i + |a|..j] + b + s[j + |b|..]
  {
    PrefixThenSlice(s, i, i + |a|);
    PrefixThenSlice(s, i + |a|, j);
    PrefixThenSlice(s, j, j + |b|);
    PrefixThenSlice(s, j + |b|, |s|);
  }

  /** The prefix up to `m` followed by the slice from `m` to `n` is the prefix up to `n`. */
  lemma PrefixThenSlice(s: string, m: int, n: int)
    requires 0 <= m <= n <= |s|
    ensures s[..m] + s[m..n] == s[..n]
  {
  }

  /** With no `</Object>`, `find` gives -1 and the slice stops before the last character. */
  lemma ObjectRegionWithoutClose(xml: string)
    requires Find(xml, ObjectClose) == -1
    ensures var start := Find(xml, ObjectOpen) + |ObjectOpen|;
      start < |xml| ==> ObjectRegion(xml) == xml[start..|xml| - 1]
  {
  }

  /**
   * When the opening marker first occurs no later than the first closing tag,
   * the region starts with the marker and is the document text up to and including that closing tag.
   */
  lemma ElementRegionBetweenTags(xml: string, open: string, close: string)
    requires (open, close) in {(SignedInfoOpen, SignedInfoClose), (KeyInfoOpen, KeyInfoClose)}
    requires 0 <= Find(xml, open) <= Find(xml, close)
    ensures var i, j := Find(xml, open), Find(xml, close);
      && i + |open| <= j
      && ElementRegion(xml, open, close) == xml[i..j + |close|]
      && open <= ElementRegion(xml, open, close)
  {
    var i, j := Find(xml, open), Find(xml, close);
    ElementTagsShape();
    CloseAfterOpen(xml, open, close, i, j);
    RegionThroughClose(xml, open, close, i, j);
    assert ElementRegion(xml, open, close) == xml[i..j] + close;
  }

  /** The text from an opening marker up to a later closing tag, with the tag appended, runs through that tag. */
  lemma RegionThroughClose(xml: string, open: string, close: string, i: int, j: int)
    requires OccursAt(xml, open, i) && OccursAt(xml, close, j) && i + |open| <= j
    ensures xml[i..j] + close == xml[i..j + |close|]
    ensures open <= xml[i..j + |close|]
  {
    assert xml[j..j + |close|] == close;
    assert xml[i..j + |close|] == xml[i..j] + xml[j..j + |close|];
    assert xml[i..j + |close|][..|open|] == xml[i..i + |open|];
  }

  /** With no closing tag, the slice stops before the last character and the closing tag is still appended. */
  lemma ElementRegionWithoutClose(xml: string, open: string, close: string)
    requires Find(xml, close) == -1 && 0 <= Find(xml, open) < |xml|
    ensures ElementRegion(xml, open, close) == xml[Find(xml, open)..|xml| - 1] + close
  {
  }

  // ---------------------------------------------------------------------
  // BankIdSignatureContainer
  // ---------------------------------------------------------------------

  /** `{"name": ..., "displayName": ...}` of `server_info`. */
  datatype ServerInfo = ServerInfo(name: seq<byte>, displayName: seq<byte>)

  /** A parsed signature document (`root`) and the base64 value it was decoded from (`raw`). */
  datatype SignatureContainer = SignatureContainer(root: Element, raw: B64Value) {

    /** `signature_value`: the later of the two definitions, `root[1]`, is the one Python keeps. */
    function SignatureValue(): (r: Result<Element, PyError>)
      ensures r.Ok? <==> |root.children| > 1
      ensures r.Ok? ==> r.value == root.children[1]
    {
      At(root, [1])
    }

    /** `signed_data_digest`: `root[0][2][2]`. */
    function SignedDataDigest(): (r: Result<Element, PyError>)
      ensures r.Ok? <==> |root.children| > 0 && |root.children[0].children| > 2
                         && |root.children[0].children[2].children| > 2
      ensures r.Ok? ==> r.value == root.children[0].children[2].children[2]
      ensures r.Err? ==> r.error == IndexError
    {
      At(root, [0, 2, 2])
    }

    /** `key_data_digest`: `root[0][3][2]`. */
    function KeyDataDigest(): (r: Result<Element, PyError>)
      ensures r.Ok? <==> |root.children| > 0 && |root.children[0].children| > 3
                         && |root.children[0].children[3].children| > 2
      ensures r.Ok? ==> r.value == root.children[0].children[3].children[2]
      ensures r.Err? ==> r.error == IndexError
    {
      At(root, [0, 3, 2])
    }

    /** `signed_data_raw`: `root[3][0]`. */
    function SignedDataRaw(): (r: Result<Element, PyError>)
      ensures r.Ok? <==> |root.children| > 3 && |root.children[3].children| > 0
      ensures r.Ok? ==> r.value == root.children[3].children[0]
    {
      At(root, [3, 0])
    }

    /** `certificates`: the children of `root[2][0]`, in document order. */
    function Certificates(): (r: Result<seq<Element>, PyError>)
      ensures r.Ok? <==> |root.children| > 2 && |root.children[2].children| > 0
      ensures r.Ok? ==> r.value == root.children[2].children[0].children
    {
      var parent :- At(root, [2, 0]);
      Ok(parent.children)
    }

    /** `user_non_visible_data`: the text of `root[3][0][1]`. */
    function UserNonVisibleData(): (r: Result<Option<string>, PyError>)
      ensures r.Ok? <==> |root.children| > 3 && |root.children[3].children| > 0
                         && |root.children[3].children[0].children| > 1
      ensures r.Ok? ==> r.value == root.children[3].children[0].children[1].text
    {
      var e :- At(root, [3, 0, 1]);
      Ok(e.text)
    }

    /** `raw.decode.decode()`: the signature document as text. */
    function RawXmlString(): (r: Result<string, PyError>)
      ensures r.Ok? ==> raw.Decode().Ok? && Utf8Decode(raw.Decode().value) == Some(r.value)
    {
      var bytes :- raw.Decode();
      match Utf8Decode(bytes)
      case Some(s) => Ok(s)
      case None => Err(UnicodeDecodeError)
    }

    /** `bid_signed_data_raw`. */
    function BidSignedDataRaw(): (r: Result<string, PyError>)
      ensures r.Ok? <==> RawXmlString().Ok?
      ensures r.Ok? ==> r.value == ObjectRegion(RawXmlString().value)
    {
      var xml :- RawXmlString();
      Ok(ObjectRegion(xml))
    }

    /** `signed_info`. */
    function SignedInfo(): (r: Result<string, PyError>)
      ensures r.Ok? <==> RawXmlString().Ok?
      ensures r.Ok? ==> r.value == ElementRegion(RawXmlString().value, SignedInfoOpen, SignedInfoClose)
      ensures r.Ok? ==> EndsWith(r.value, SignedInfoClose)
    {
      var xml :- RawXmlString();
      Ok(ElementRegion(xml, SignedInfoOpen, SignedInfoClose))
    }

    /** `key_info_raw`. */
    function KeyInfoRaw(): (r: Result<string, PyError>)
      ensures r.Ok? <==> RawXmlString().Ok?
      ensures r.Ok? ==> r.value == ElementRegion(RawXmlString().value, KeyInfoOpen, KeyInfoClose)
      ensures r.Ok? ==> EndsWith(r.value, KeyInfoClose)
    {
      var xml :- RawXmlString();
      Ok(ElementRegion(xml, KeyInfoOpen, KeyInfoClose))
    }

    /** `server_info`: the base64-decoded texts of `root[3][0][2][0]` and `root[3][0][2][2]`. */
    function GetServerInfo(): (r: Result<ServerInfo, PyError>)
      ensures r.Ok? ==> (
        && At(root, [3, 0, 2, 0]).Ok? && At(root, [3, 0, 2, 2]).Ok?
        && B64Value(TextValue(At(root, [3, 0, 2, 0]).value)).Decode() == Ok(r.value.name)
        && B64Value(TextValue(At(root, [3, 0, 2, 2]).value)).Decode() == Ok(r.value.displayName))
      ensures At(root, [3, 0, 2, 0]).Err? ==> r == Err(IndexError)
    {
      var nameElement :- At(root, [3, 0, 2, 0]);
      var name :- B64Value(TextValue(nameElement)).Decode();
      var displayNameElement :- At(root, [3, 0, 2, 2]);
      var displayName :- B64Value(TextValue(displayNameElement)).Decode();
      Ok(ServerInfo(name, displayName))
    }
  }

  /** `BankIdSignatureContainer(signature)`: `ET.fromstring(signature.decode)`, the parser passed in. */
  function NewSignatureContainer(parseXml: seq<byte> -> Option<Element>, signature: B64Value)
    : (r: Result<SignatureContainer, PyError>)
    ensures r.Ok? <==> signature.Decode().Ok? && parseXml(signature.Decode().value).Some?
    ensures r.Ok? ==> r.value.raw == signature && r.value.root == parseXml(signature.Decode().value).value
  {
    var bytes :- signature.Decode();
    match parseXml(bytes)
    case Some(root) => Ok(SignatureContainer(root, signature))
    case None => Err(XmlParseError)
  }

  // ---------------------------------------------------------------------
  // CompletionDataContainer and NonceParse
  // ---------------------------------------------------------------------

  /** `completion_data[key]`: KeyError for a missing key, TypeError when the value is not a dict. */
  function Subscript(data: Json, key: string): (r: Result<Json, PyError>)
    ensures data.JObject? && key in data.fields ==> r == Ok(data.fields[key])
    ensures data.JObject? && key !in data.fields ==> r == Err(KeyError(key))
    ensures !data.JObject? ==> r.Err? && r.error.TypeError?
  {
    match data
    case JObject(fields) => if key in fields then Ok(fields[key]) else Err(KeyError(key))
    case _ => Err(TypeError("object is not subscriptable by a string key"))
  }

  datatype CompletionDataContainer = CompletionDataContainer(completionData: Json) {

    function OrderRef(): Result<Json, PyError> {
      Subscript(completionData, "orderRef")
    }

    function OcspResponse(): Result<Json, PyError> {
      Subscript(completionData, "ocspResponse")
    }

    function Device(): Result<Json, PyError> {
      Subscript(completionData, "device")
    }

    function User(): Result<Json, PyError> {
      Subscript(completionData, "user")
    }

    /** `signature`: the entry wrapped, not decoded. */
    function Signature(): (r: Result<B64Value, PyError>)
      ensures r.Ok? <==> Subscript(completionData, "signature").Ok?
      ensures r.Ok? ==> r.value.Raw() == Subscript(completionData, "signature").value
    {
      var s :- Subscript(completionData, "signature");
      Ok(B64Value(s))
    }

    function GetSignatureContainer(parseXml: seq<byte> -> Option<Element>): Result<SignatureContainer, PyError> {
      var signature :- Signature();
      NewSignatureContainer(parseXml, signature)
    }
  }

  /** The accessors return the dictionary entries unchanged. */
  lemma CompletionDataAccessors(fields: map<string, Json>)
    ensures var c := CompletionDataContainer(JObject(fields));
      && ("orderRef" in fields ==> c.OrderRef() == Ok(fields["orderRef"]))
      && ("ocspResponse" in fields ==> c.OcspResponse() == Ok(fields["ocspResponse"]))
      && ("device" in fields ==> c.Device() == Ok(fields["device"]))
      && ("user" in fields ==> c.User() == Ok(fields["user"]))
      && ("signature" in fields ==> c.Signature() == Ok(B64Value(fields["signature"])))
      && ("orderRef" !in fields ==> c.OrderRef() == Err(KeyError("orderRef")))
  {
  }

  /** `NonceParse(bytes)`; only `value` is modelled. */
  datatype NonceParse = NonceParse(bytes: seq<byte>) {

    /** `bytes[16:]`: the input with exactly its first 16 bytes dropped (empty when shorter). */
    function Value(): (r: seq<byte>)
      ensures |r| == if |bytes| >= 16 then |bytes| - 16 else 0
      ensures forall i :: 0 <= i < |r| ==> r[i] == bytes[i + 16]
      ensures |bytes| >= 16 ==> bytes == bytes[..16] + r
    {
      if |bytes| >= 16 then bytes[16..] else []
    }
  }
}
