/**
 * `verify_bankid_response`: the checks a relying party can run on a completed order,
 * as one fail-fast sequence. The message digests, the message signature, the OCSP
 * response and its nonce are checked in that order, then the certificate chains.
 * Hashing, signature checking, ASN.1 and XML parsing, certificate loading and chain
 * validation are library calls; they are the fields of `Library`, passed in.
 */
module Verify {
  import opened Wrappers
  import opened Encoding
  import opened Json
  import opened PyErrors
  import opened Helper

  /** A loaded certificate: what it is (`content`), and the expiry time a caller may rewrite. */
  datatype X509 = X509(content: seq<byte>, notAfter: seq<byte>)

  /** `produced_at.native`: a datetime (an instant, kept opaque) or some other value. */
  datatype ProducedAt = DateTime(instant: int) | NotDateTime

  /** One entry of `response_extensions`; `contents` holds the content octets of the extension. */
  datatype Extension = Extension(contents: seq<byte>)

  datatype TbsResponseData = TbsResponseData(
    der: seq<byte>, producedAt: ProducedAt, responses: seq<seq<byte>>, responseExtensions: seq<Extension>)

  /** `response_bytes.response.parsed`; `certs` holds the DER of each certificate. */
  datatype BasicOcspResponse = BasicOcspResponse(
    tbsResponseData: TbsResponseData, hashAlgo: string, signature: seq<byte>, certs: seq<seq<byte>>)

  /** `OCSPResponse.load(...)`: the status, and the response bytes when the responder sent them. */
  datatype OcspResponse = OcspResponse(responseStatus: string, responseBytes: Option<BasicOcspResponse>)

  /** The library calls the verifier makes, as total functions. */
  datatype Library = Library(
    parseXml: seq<byte> -> Option<Element>,
    sha256: seq<byte> -> seq<byte>,
    sha1: seq<byte> -> seq<byte>,
    loadPem: seq<byte> -> Option<X509>,
    armor: seq<byte> -> seq<byte>,
    verifySignature: (X509, seq<byte>, seq<byte>, string) -> bool,
    parseOcsp: seq<byte> -> Option<OcspResponse>,
    formatProducedAt: int -> string,
    chainValid: (seq<X509>, X509) -> bool)

  const NotADictionary: PyError := TypeError("Response not a dictionary")
  const CompletionDataMissing: PyError := AttributeError("Completion data missing in dictionary")
  const SignedDataMismatch: PyError := AssertionError("Signed Data hash does not match!")
  const KeyInfoMismatch: PyError := AssertionError("Key Info hash does not match!")
  const SignatureInvalid: PyError := AssertionError("The BankID signature is not valid!")
  const ProducedAtNotDateTime: PyError := AssertionError("OCSP produced at is not a datetime!")
  const OcspNotSuccessful: PyError := AssertionError("OCSP response status was not successful")
  const OcspSignatureInvalid: PyError := AssertionError("The OCSP signature is not valid!")
  const NonceMismatch: PyError := AssertionError("Computed nonce not matching the OCSP nonce")
  const UserChainInvalid: PyError := AssertionError("BankID user certificate chain could not be verified.")
  const OcspChainInvalid: PyError := AssertionError("OCSP certificate chain could not be verified.")

  // ---------------------------------------------------------------------
  // The stages, in source order
  // ---------------------------------------------------------------------

  /** The input checks: a dict holding `completionData`; returns that entry. */
  function Envelope(response: Json): (r: Result<Json, PyError>)
    ensures !response.JObject? ==> r == Err(NotADictionary)
    ensures response.JObject? && "completionData" !in response.fields ==> r == Err(CompletionDataMissing)
    ensures response.JObject? && "completionData" in response.fields ==> r == Ok(response.fields["completionData"])
  {
    if !response.JObject? then Err(NotADictionary)
    else if "completionData" !in response.fields then Err(CompletionDataMissing)
    else Ok(response.fields["completionData"])
  }

  /** `base64.b64decode(element.text)`. */
  function DecodeText(e: Element): Result<seq<byte>, PyError> {
    B64Value(TextValue(e)).Decode()
  }

  /** The values the digest check compares, each computed or decoded in source order. */
  datatype Digests = Digests(
    signedDataHash: seq<byte>, keyInfoHash: seq<byte>, signedDataFromSignature: seq<byte>, keyInfoFromSignature: seq<byte>)

  function ComputeDigests(sha256: seq<byte> -> seq<byte>, container: SignatureContainer): (r: Result<Digests, PyError>)
    ensures container.RawXmlString().Err? ==> r == Err(container.RawXmlString().error)
    ensures r.Ok? ==>
      && container.BidSignedDataRaw().Ok? && container.KeyInfoRaw().Ok?
      && r.value.signedDataHash == sha256(Utf8Encode(container.BidSignedDataRaw().value))
      && r.value.keyInfoHash == sha256(Utf8Encode(container.KeyInfoRaw().value))
    ensures r.Ok? ==>
      && container.SignedDataDigest().Ok? && container.KeyDataDigest().Ok?
      && DecodeText(container.SignedDataDigest().value) == Ok(r.value.signedDataFromSignature)
      && DecodeText(container.KeyDataDigest().value) == Ok(r.value.keyInfoFromSignature)
  {
    // `bid_signed_data_raw` and `key_info_raw` decode the same document, so only the first can fail.
    var xml :- container.RawXmlString();
    var objectRegion := ObjectRegion(xml);
    var keyInfo := ElementRegion(xml, KeyInfoOpen, KeyInfoClose);
    var signedDataDigest :- container.SignedDataDigest();
    var signedDataFromSignature :- DecodeText(signedDataDigest);
    var keyDataDigest :- container.KeyDataDigest();
    var keyInfoFromSignature :- DecodeText(keyDataDigest);
    Ok(Digests(sha256(Utf8Encode(objectRegion)), sha256(Utf8Encode(keyInfo)),
               signedDataFromSignature, keyInfoFromSignature))
  }

  /**
   * Step 1: the SHA-256 of the `<Object>` region must be the signed-data digest and the
   * SHA-256 of the `<KeyInfo` region the key-info digest. The comparison is of hex
   * strings, which is a comparison of the bytes. Returns the signature container.
   */
  function DigestStage(parseXml: seq<byte> -> Option<Element>, sha256: seq<byte> -> seq<byte>, completionData: Json): (r: Result<SignatureContainer, PyError>)
    ensures r.Ok? <==>
      && CompletionDataContainer(completionData).GetSignatureContainer(parseXml).Ok?
      && ComputeDigests(sha256, CompletionDataContainer(completionData).GetSignatureContainer(parseXml).value).Ok?
      && (var d := ComputeDigests(sha256, CompletionDataContainer(completionData).GetSignatureContainer(parseXml).value).value;
          d.signedDataHash == d.signedDataFromSignature && d.keyInfoHash == d.keyInfoFromSignature)
    ensures r.Ok? ==> r.value == CompletionDataContainer(completionData).GetSignatureContainer(parseXml).value
    ensures var c := CompletionDataContainer(completionData).GetSignatureContainer(parseXml);
      c.Err? ==> r == Err(c.error)
    ensures var c := CompletionDataContainer(completionData).GetSignatureContainer(parseXml);
      c.Ok? && ComputeDigests(sha256, c.value).Err? ==> r == Err(ComputeDigests(sha256, c.value).error)
    ensures var c := CompletionDataContainer(completionData).GetSignatureContainer(parseXml);
      c.Ok? && ComputeDigests(sha256, c.value).Ok? ==>
        var d := ComputeDigests(sha256, c.value).value;
        && (d.signedDataHash != d.signedDataFromSignature ==> r == Err(SignedDataMismatch))
        && (d.signedDataHash == d.signedDataFromSignature && d.keyInfoHash != d.keyInfoFromSignature ==> r == Err(KeyInfoMismatch))
  {
    var container :- CompletionDataContainer(completionData).GetSignatureContainer(parseXml);
    var d :- ComputeDigests(sha256, container);
    HexEqualIff(d.signedDataHash, d.signedDataFromSignature);
    HexEqualIff(d.keyInfoHash, d.keyInfoFromSignature);
    if Hex(d.signedDataHash) != Hex(d.signedDataFromSignature) then Err(SignedDataMismatch)
    else if Hex(d.keyInfoHash) != Hex(d.keyInfoFromSignature) then Err(KeyInfoMismatch)
    else Ok(container)
  }

  /** The text of the certificate at `index` of `certificates`; `make_cert` of None fails in `textwrap`. */
  function CertificateText(container: SignatureContainer, index: nat): (r: Result<string, PyError>)
    ensures r.Ok? ==> (container.Certificates().Ok? && index < |container.Certificates().value|
      && container.Certificates().value[index].text == Some(r.value))
    ensures container.Certificates().Err? ==> r == Err(container.Certificates().error)
    ensures container.Certificates().Ok? && index >= |container.Certificates().value| ==> r == Err(IndexError)
    ensures (container.Certificates().Ok? && index < |container.Certificates().value|
             && container.Certificates().value[index].text.None?)
      ==> r == Err(AttributeError("'NoneType' object has no attribute 'expandtabs'"))
  {
    var certificates :- container.Certificates();
    if index >= |certificates| then Err(IndexError)
    else match certificates[index].text
      case Some(t) => Ok(t)
      case None => Err(AttributeError("'NoneType' object has no attribute 'expandtabs'"))
  }

  /** `crypto.load_certificate(FILETYPE_PEM, make_cert(text).encode())` for the certificate at `index`. */
  function LoadCertificate(lib: Library, container: SignatureContainer, index: nat): (r: Result<X509, PyError>)
    ensures r.Ok? ==> (CertificateText(container, index).Ok?
      && lib.loadPem(Utf8Encode(MakeCert(CertificateText(container, index).value))) == Some(r.value))
    ensures CertificateText(container, index).Err? ==> r == Err(CertificateText(container, index).error)
    ensures (CertificateText(container, index).Ok?
             && lib.loadPem(Utf8Encode(MakeCert(CertificateText(container, index).value))).None?)
      ==> r == Err(CryptoError)
  {
    var text :- CertificateText(container, index);
    match lib.loadPem(Utf8Encode(MakeCert(text)))
    case Some(c) => Ok(c)
    case None => Err(CryptoError)
  }

  /**
   * Step 2: the decoded text of `root[1]` must be a valid SHA-256 signature by the first
   * certificate over the `<SignedInfo` region. Returns nothing new.
   */
  function SignatureStage(lib: Library, container: SignatureContainer): (r: Result<(), PyError>)
    ensures r.Ok? <==>
      && LoadCertificate(lib, container, 0).Ok?
      && container.SignatureValue().Ok? && DecodeText(container.SignatureValue().value).Ok?
      && container.SignedInfo().Ok?
      && lib.verifySignature(LoadCertificate(lib, container, 0).value,
           DecodeText(container.SignatureValue().value).value, Utf8Encode(container.SignedInfo().value), "sha256")
    ensures LoadCertificate(lib, container, 0).Err? ==> r == Err(LoadCertificate(lib, container, 0).error)
    ensures (LoadCertificate(lib, container, 0).Ok? && container.SignatureValue().Ok?
             && DecodeText(container.SignatureValue().value).Err?)
      ==> r == Err(DecodeText(container.SignatureValue().value).error)
    ensures
      && LoadCertificate(lib, container, 0).Ok?
      && container.SignatureValue().Ok? && DecodeText(container.SignatureValue().value).Ok?
      && container.SignedInfo().Ok?
      && !lib.verifySignature(LoadCertificate(lib, container, 0).value,
           DecodeText(container.SignatureValue().value).value, Utf8Encode(container.SignedInfo().value), "sha256")
      ==> r == Err(SignatureInvalid)
  {
    var userCertificate :- LoadCertificate(lib, container, 0);
    // `certificates` reached `root[2]`, so `root[1]` is there.
    var signatureValue := container.root.children[1];
    var signatureBytes :- DecodeText(signatureValue);
    var signedInfo :- container.SignedInfo();
    if !lib.verifySignature(userCertificate, signatureBytes, Utf8Encode(signedInfo), "sha256") then Err(SignatureInvalid)
    else Ok(())
  }

  /** What the OCSP stage hands on: the parsed response, the formatted producedAt and the first extension. */
  datatype OcspFacts = OcspFacts(basic: BasicOcspResponse, producedAt: string, extension: Extension)

  /** `OCSPResponse.load(base64.b64decode(completionData["ocspResponse"]))` and its response bytes. */
  function ParseOcsp(lib: Library, completionData: Json): (r: Result<(OcspResponse, BasicOcspResponse), PyError>)
    ensures Subscript(completionData, "ocspResponse").Err? ==> r == Err(Subscript(completionData, "ocspResponse").error)
    ensures r.Ok? ==>
      && Subscript(completionData, "ocspResponse").Ok?
      && B64Value(Subscript(completionData, "ocspResponse").value).Decode().Ok?
      && lib.parseOcsp(B64Value(Subscript(completionData, "ocspResponse").value).Decode().value) == Some(r.value.0)
      && r.value.0.responseBytes == Some(r.value.1)
    ensures (Subscript(completionData, "ocspResponse").Ok?
             && B64Value(Subscript(completionData, "ocspResponse").value).Decode().Err?)
      ==> r == Err(B64Value(Subscript(completionData, "ocspResponse").value).Decode().error)
    ensures (Subscript(completionData, "ocspResponse").Ok?
             && B64Value(Subscript(completionData, "ocspResponse").value).Decode().Ok?
             && (lib.parseOcsp(B64Value(Subscript(completionData, "ocspResponse").value).Decode().value).None?
                 || lib.parseOcsp(B64Value(Subscript(completionData, "ocspResponse").value).Decode().value).value.responseBytes.None?))
      ==> r == Err(Asn1Error)
  {
    var encoded :- Subscript(completionData, "ocspResponse");
    var der :- B64Value(encoded).Decode();
    match lib.parseOcsp(der)
    case None => Err(Asn1Error)
    case Some(response) =>
      match response.responseBytes
      case None => Err(Asn1Error)
      case Some(basic) => Ok((response, basic))
  }

  /**
   * Step 3: producedAt must be a datetime, there must be a first extension and a first
   * single response, and the status must be "successful"; in that order.
   */
  function OcspStage(lib: Library, completionData: Json): (r: Result<OcspFacts, PyError>)
    ensures r.Ok? <==>
      && ParseOcsp(lib, completionData).Ok?
      && (var (response, basic) := ParseOcsp(lib, completionData).value;
          && basic.tbsResponseData.producedAt.DateTime?
          && |basic.tbsResponseData.responseExtensions| > 0
          && |basic.tbsResponseData.responses| > 0
          && response.responseStatus == "successful")
    ensures r.Ok? ==> (var (_, basic) := ParseOcsp(lib, completionData).value;
      r.value == OcspFacts(basic, lib.formatProducedAt(basic.tbsResponseData.producedAt.instant),
                           basic.tbsResponseData.responseExtensions[0]))
    ensures ParseOcsp(lib, completionData).Err? ==> r == Err(ParseOcsp(lib, completionData).error)
    ensures ParseOcsp(lib, completionData).Ok? ==>
      var (response, tbs) := (ParseOcsp(lib, completionData).value.0, ParseOcsp(lib, completionData).value.1.tbsResponseData);
      && (!tbs.producedAt.DateTime? ==> r == Err(ProducedAtNotDateTime))
      && (tbs.producedAt.DateTime? && |tbs.responseExtensions| == 0 ==> r == Err(IndexError))
      && (tbs.producedAt.DateTime? && |tbs.responseExtensions| > 0 && |tbs.responses| == 0 ==> r == Err(IndexError))
      && ((tbs.producedAt.DateTime? && |tbs.responseExtensions| > 0 && |tbs.responses| > 0
           && response.responseStatus != "successful") ==> r == Err(OcspNotSuccessful))
  {
    var (response, basic) :- ParseOcsp(lib, completionData);
    var tbs := basic.tbsResponseData;
    if !tbs.producedAt.DateTime? then Err(ProducedAtNotDateTime)
    else
      var producedAt := lib.formatProducedAt(tbs.producedAt.instant);
      if |tbs.responseExtensions| == 0 then Err(IndexError)
      else if |tbs.responses| == 0 then Err(IndexError)
      else if response.responseStatus != "successful" then Err(OcspNotSuccessful)
      else Ok(OcspFacts(basic, producedAt, tbs.responseExtensions[0]))
  }

  /** The responder certificate, `load_certificate(FILETYPE_PEM, pem.armor("CERTIFICATE", certs[0].dump()))`. */
  function OcspCertificate(lib: Library, basic: BasicOcspResponse): (r: Result<X509, PyError>)
    ensures |basic.certs| == 0 ==> r == Err(IndexError)
    ensures r.Ok? ==> |basic.certs| > 0 && lib.loadPem(lib.armor(basic.certs[0])) == Some(r.value)
    ensures |basic.certs| > 0 && lib.loadPem(lib.armor(basic.certs[0])).None? ==> r == Err(CryptoError)
  {
    if |basic.certs| == 0 then Err(IndexError)
    else match lib.loadPem(lib.armor(basic.certs[0]))
      case Some(c) => Ok(c)
      case None => Err(CryptoError)
  }

  /** Step 3.2: the responder's signature over the DER of `tbs_response_data`, with the response's own hash. */
  function OcspSignatureStage(lib: Library, basic: BasicOcspResponse): (r: Result<X509, PyError>)
    ensures r.Ok? <==> (OcspCertificate(lib, basic).Ok?
      && lib.verifySignature(OcspCertificate(lib, basic).value, basic.signature, basic.tbsResponseData.der, basic.hashAlgo))
    ensures r.Ok? ==> r == OcspCertificate(lib, basic)
    ensures OcspCertificate(lib, basic).Err? ==> r == OcspCertificate(lib, basic)
    ensures OcspCertificate(lib, basic).Ok?
      && !lib.verifySignature(OcspCertificate(lib, basic).value, basic.signature, basic.tbsResponseData.der, basic.hashAlgo)
      ==> r == Err(OcspSignatureInvalid)
  {
    var certificate :- OcspCertificate(lib, basic);
    if !lib.verifySignature(certificate, basic.signature, basic.tbsResponseData.der, basic.hashAlgo)
    then Err(OcspSignatureInvalid)
    else Ok(certificate)
  }

  /** `completionData["signature"].encode("utf-8")`: the base64 text itself, not its decoding. */
  function SignatureText(completionData: Json): (r: Result<string, PyError>)
    ensures r.Ok? <==> completionData.JObject? && "signature" in completionData.fields
                       && completionData.fields["signature"].JString?
    ensures r.Ok? ==> r.value == completionData.fields["signature"].s
  {
    var signature :- Subscript(completionData, "signature");
    if signature.JString? then Ok(signature.s)
    else Err(AttributeError("object has no attribute 'encode'"))
  }

  /**
   * Step 3.3: the hex of `NonceParse(extension.contents).value` must start with the hex
   * of the SHA-1 of the signature text; that is, the SHA-1 is a byte prefix of the value.
   */
  function NonceStage(lib: Library, completionData: Json, extension: Extension): (r: Result<(), PyError>)
    ensures r.Ok? <==> (SignatureText(completionData).Ok?
      && lib.sha1(Utf8Encode(SignatureText(completionData).value)) <= NonceParse(extension.contents).Value())
    ensures SignatureText(completionData).Ok? && r.Err? ==> r == Err(NonceMismatch)
  {
    var signature :- SignatureText(completionData);
    var computed := lib.sha1(Utf8Encode(signature));
    var presented := NonceParse(extension.contents).Value();
    HexPrefixIff(computed, presented);
    if !(Hex(computed) <= Hex(presented)) then Err(NonceMismatch)
    else Ok(())
  }

  /** The four certificates of the chain check, loaded in source order. */
  datatype ChainCertificates = ChainCertificates(user: X509, bankUser: X509, bankId: X509, root: X509)

  /** `certificates[0]`, `[1]`, `[2]` and the caller's root (`None.encode()` fails), loaded as PEM. */
  function LoadChainCertificates(lib: Library, container: SignatureContainer, rootCert: Option<string>)
    : (r: Result<ChainCertificates, PyError>)
    ensures r.Ok? ==> (rootCert.Some?
      && Ok(r.value.user) == LoadCertificate(lib, container, 0)
      && Ok(r.value.bankUser) == LoadCertificate(lib, container, 1)
      && Ok(r.value.bankId) == LoadCertificate(lib, container, 2)
      && lib.loadPem(Utf8Encode(rootCert.value)) == Some(r.value.root))
    ensures LoadCertificate(lib, container, 0).Err? ==> r == Err(LoadCertificate(lib, container, 0).error)
    ensures (LoadCertificate(lib, container, 0).Ok? && LoadCertificate(lib, container, 1).Err?)
      ==> r == Err(LoadCertificate(lib, container, 1).error)
    ensures (LoadCertificate(lib, container, 0).Ok? && LoadCertificate(lib, container, 1).Ok?
             && LoadCertificate(lib, container, 2).Err?)
      ==> r == Err(LoadCertificate(lib, container, 2).error)
    ensures (LoadCertificate(lib, container, 0).Ok? && LoadCertificate(lib, container, 1).Ok?
             && LoadCertificate(lib, container, 2).Ok? && rootCert.None?)
      ==> r == Err(AttributeError("'NoneType' object has no attribute 'encode'"))
    ensures (LoadCertificate(lib, container, 0).Ok? && LoadCertificate(lib, container, 1).Ok?
             && LoadCertificate(lib, container, 2).Ok? && rootCert.Some?
             && lib.loadPem(Utf8Encode(rootCert.value)).None?)
      ==> r == Err(CryptoError)
  {
    var user :- LoadCertificate(lib, container, 0);
    var bankUser :- LoadCertificate(lib, container, 1);
    var bankId :- LoadCertificate(lib, container, 2);
    if rootCert.None? then Err(AttributeError("'NoneType' object has no attribute 'encode'"))
    else match lib.loadPem(Utf8Encode(rootCert.value))
      case Some(root) => Ok(ChainCertificates(user, bankUser, bankId, root))
      case None => Err(CryptoError)
  }

  /** A certificate as validated: its expiry rewritten to `tomorrow` unless expiry is to be respected. */
  function Refreshed(c: X509, ensureStillValid: bool, tomorrow: seq<byte>): (r: X509)
    ensures r.content == c.content
    ensures ensureStillValid ==> r == c
    ensures !ensureStillValid ==> r.notAfter == tomorrow
  {
    if ensureStillValid then c else c.(notAfter := tomorrow)
  }

  /** The trust store: the bank's user certificate, the bank's BankID certificate and the root, in that order. */
  function TrustStore(certs: ChainCertificates, ensureStillValid: bool, tomorrow: seq<byte>): (store: seq<X509>)
    ensures |store| == 3
    ensures store[0].content == certs.bankUser.content && store[1].content == certs.bankId.content
    ensures store[2].content == certs.root.content
  {
    [Refreshed(certs.bankUser, ensureStillValid, tomorrow), Refreshed(certs.bankId, ensureStillValid, tomorrow),
     Refreshed(certs.root, ensureStillValid, tomorrow)]
  }

  /** Step 4: the user certificate, then the responder certificate, each validated against the store. */
  function ChainStage(lib: Library, certs: ChainCertificates, ocspCertificate: X509, ensureStillValid: bool, tomorrow: seq<byte>)
    : (r: Result<(), PyError>)
    ensures var store := TrustStore(certs, ensureStillValid, tomorrow);
      && (r.Ok? <==> lib.chainValid(store, Refreshed(certs.user, ensureStillValid, tomorrow))
                     && lib.chainValid(store, Refreshed(ocspCertificate, ensureStillValid, tomorrow)))
      && (!lib.chainValid(store, Refreshed(certs.user, ensureStillValid, tomorrow)) ==> r == Err(UserChainInvalid))
      && ((lib.chainValid(store, Refreshed(certs.user, ensureStillValid, tomorrow))
           && !lib.chainValid(store, Refreshed(ocspCertificate, ensureStillValid, tomorrow))) ==> r == Err(OcspChainInvalid))
  {
    var store := TrustStore(certs, ensureStillValid, tomorrow);
    if !lib.chainValid(store, Refreshed(certs.user, ensureStillValid, tomorrow)) then Err(UserChainInvalid)
    else if !lib.chainValid(store, Refreshed(ocspCertificate, ensureStillValid, tomorrow)) then Err(OcspChainInvalid)
    else Ok(())
  }

  // ---------------------------------------------------------------------
  // The whole pipeline
  // ---------------------------------------------------------------------

  /** Everything up to the chain check: the outcome of steps 1 to 3 and the certificates step 4 needs. */
  datatype Checked = Checked(producedAt: string, certs: ChainCertificates, ocspCertificate: X509)

  function CheckUpToChains(lib: Library, response: Json, rootCert: Option<string>): (r: Result<Checked, PyError>)
    ensures Envelope(response).Err? ==> r == Err(Envelope(response).error)
    ensures r.Ok? ==>
      && Envelope(response).Ok?
      && DigestStage(lib.parseXml, lib.sha256, Envelope(response).value).Ok?
      && OcspStage(lib, Envelope(response).value).Ok?
      && r.value.producedAt == OcspStage(lib, Envelope(response).value).value.producedAt
  {
    var completionData :- Envelope(response);
    var container :- DigestStage(lib.parseXml, lib.sha256, completionData);
    var _ :- SignatureStage(lib, container);
    var ocsp :- OcspStage(lib, completionData);
    var ocspCertificate :- OcspSignatureStage(lib, ocsp.basic);
    var _ :- NonceStage(lib, completionData, ocsp.extension);
    var certs :- LoadChainCertificates(lib, container, rootCert);
    Ok(Checked(ocsp.producedAt, certs, ocspCertificate))
  }

  /** What `verify_bankid_response` returns or raises: the formatted producedAt, or the first failure. */
  function VerifyResponse(lib: Library, response: Json, ensureStillValid: bool, rootCert: Option<string>, tomorrow: seq<byte>)
    : (r: Result<string, PyError>)
    ensures CheckUpToChains(lib, response, rootCert).Err? ==> r == Err(CheckUpToChains(lib, response, rootCert).error)
    ensures r.Ok? <==>
      && CheckUpToChains(lib, response, rootCert).Ok?
      && ChainStage(lib, CheckUpToChains(lib, response, rootCert).value.certs,
           CheckUpToChains(lib, response, rootCert).value.ocspCertificate, ensureStillValid, tomorrow).Ok?
    ensures r.Ok? ==> r.value == CheckUpToChains(lib, response, rootCert).value.producedAt
  {
    var checked :- CheckUpToChains(lib, response, rootCert);
    var _ :- ChainStage(lib, checked.certs, checked.ocspCertificate, ensureStillValid, tomorrow);
    Ok(checked.producedAt)
  }

  // ---------------------------------------------------------------------
  // Certificate objects and the store
  // ---------------------------------------------------------------------

  /** A loaded OpenSSL certificate object; `set_notAfter` rewrites its expiry in place. */
  class Certificate {
    const content: seq<byte>
    var notAfter: seq<byte>

    constructor (c: X509)
      ensures Value() == c
    {
      content := c.content;
      notAfter := c.notAfter;
    }

    function Value(): X509
      reads this
    {
      X509(content, notAfter)
    }

    method SetNotAfter(time: seq<byte>)
      modifies this
      ensures Value() == old(Value()).(notAfter := time)
    {
      notAfter := time;
    }
  }

  /**
   * `crypto.X509Store()`: the certificates added so far, in order, as they were when
   * added (no certificate is changed after it is added).
   */
  class X509Store {
    var certs: seq<X509>

    constructor ()
      ensures certs == []
    {
      certs := [];
    }

    method AddCert(c: Certificate)
      modifies this
      ensures certs == old(certs) + [c.Value()]
    {
      certs := certs + [c.Value()];
    }
  }

  /**
   * Lines 184-213 of the verifier: the five certificate objects, their expiry rewritten
   * when expiry is not to be respected, the store filled with three of them, and the two
   * validations against it.
   */
  method CheckChains(lib: Library, certs: ChainCertificates, ocspCert: X509, ensureStillValid: bool, tomorrow: seq<byte>)
    returns (r: Result<(), PyError>)
    ensures r == ChainStage(lib, certs, ocspCert, ensureStillValid, tomorrow)
  {
    var userCert := new Certificate(certs.user);
    var bankUserCert := new Certificate(certs.bankUser);
    var bankIdCert := new Certificate(certs.bankId);
    var rootCertificate := new Certificate(certs.root);
    var ocspCertificate := new Certificate(ocspCert);
    if !ensureStillValid {
      bankUserCert.SetNotAfter(tomorrow);
      bankIdCert.SetNotAfter(tomorrow);
      rootCertificate.SetNotAfter(tomorrow);
      ocspCertificate.SetNotAfter(tomorrow);
      userCert.SetNotAfter(tomorrow);
    }
    assert userCert.Value() == Refreshed(certs.user, ensureStillValid, tomorrow);
    assert ocspCertificate.Value() == Refreshed(ocspCert, ensureStillValid, tomorrow);
    var store := new X509Store();
    store.AddCert(bankUserCert);
    store.AddCert(bankIdCert);
    store.AddCert(rootCertificate);
    assert store.certs == TrustStore(certs, ensureStillValid, tomorrow);
    if !lib.chainValid(store.certs, userCert.Value()) {
      return Err(UserChainInvalid);
    }
    if !lib.chainValid(store.certs, ocspCertificate.Value()) {
      return Err(OcspChainInvalid);
    }
    r := Ok(());
  }

  /**
   * `verify_bankid_response(bank_id_response, ensure_certificates_still_valid, BANK_ID_ROOT_CERT)`
   * with the library, and the formatted time of "tomorrow", passed in.
   */
  method VerifyBankIdResponse(
    lib: Library, response: Json, ensureStillValid: bool, rootCert: Option<string>, tomorrow: seq<byte>)
    returns (r: Result<string, PyError>)
    ensures r == VerifyResponse(lib, response, ensureStillValid, rootCert, tomorrow)
  {
    var checked :- CheckUpToChains(lib, response, rootCert);
    var chains := CheckChains(lib, checked.certs, checked.ocspCertificate, ensureStillValid, tomorrow);
    if chains.Err? {
      return Err(chains.error);
    }
    r := Ok(checked.producedAt);
  }

  // ---------------------------------------------------------------------
  // Properties of the pipeline
  // ---------------------------------------------------------------------

  /** A non-dict, or a dict without `completionData`, is rejected before anything is parsed, whatever the library does. */
  lemma InputShapeCheckedFirst(lib: Library, response: Json, ensureStillValid: bool, rootCert: Option<string>, tomorrow: seq<byte>)
    ensures !response.JObject? ==> VerifyResponse(lib, response, ensureStillValid, rootCert, tomorrow) == Err(NotADictionary)
    ensures response.JObject? && "completionData" !in response.fields ==>
      VerifyResponse(lib, response, ensureStillValid, rootCert, tomorrow) == Err(CompletionDataMissing)
  {
  }

  /** A signed-data mismatch is reported even when the key-info digest does not match either. */
  lemma SignedDataMismatchReportedFirst(lib: Library, response: Json, ensureStillValid: bool, rootCert: Option<string>, tomorrow: seq<byte>)
    requires Envelope(response).Ok?
    requires var container := CompletionDataContainer(Envelope(response).value).GetSignatureContainer(lib.parseXml);
      && container.Ok? && ComputeDigests(lib.sha256, container.value).Ok?
      && ComputeDigests(lib.sha256, container.value).value.signedDataHash != ComputeDigests(lib.sha256, container.value).value.signedDataFromSignature
    ensures VerifyResponse(lib, response, ensureStillValid, rootCert, tomorrow) == Err(SignedDataMismatch)
  {
    var container := CompletionDataContainer(Envelope(response).value).GetSignatureContainer(lib.parseXml).value;
    var d := ComputeDigests(lib.sha256, container).value;
    HexEqualIff(d.signedDataHash, d.signedDataFromSignature);
  }

  /** A failing digest check ends the run: no later library call (signature, OCSP, SHA-1, certificates, chains) is consulted. */
  lemma DigestFailureShortCircuits(
    lib: Library, other: Library, response: Json, ensureStillValid: bool, rootCert: Option<string>, tomorrow: seq<byte>)
    requires other.parseXml == lib.parseXml && other.sha256 == lib.sha256
    requires Envelope(response).Ok? && DigestStage(lib.parseXml, lib.sha256, Envelope(response).value).Err?
    ensures VerifyResponse(other, response, ensureStillValid, rootCert, tomorrow) == Err(DigestStage(lib.parseXml, lib.sha256, Envelope(response).value).error)
    ensures VerifyResponse(lib, response, ensureStillValid, rootCert, tomorrow) == Err(DigestStage(lib.parseXml, lib.sha256, Envelope(response).value).error)
  {
  }

  /** The OCSP status is checked before the OCSP signature: an unsuccessful status is reported whatever that signature is. */
  lemma OcspStatusBeforeOcspSignature(lib: Library, response: Json, ensureStillValid: bool, rootCert: Option<string>, tomorrow: seq<byte>)
    requires Envelope(response).Ok? && DigestStage(lib.parseXml, lib.sha256, Envelope(response).value).Ok?
    requires SignatureStage(lib, DigestStage(lib.parseXml, lib.sha256, Envelope(response).value).value).Ok?
    requires var parsed := ParseOcsp(lib, Envelope(response).value);
      && parsed.Ok? && parsed.value.0.responseStatus != "successful"
      && parsed.value.1.tbsResponseData.producedAt.DateTime?
      && |parsed.value.1.tbsResponseData.responseExtensions| > 0 && |parsed.value.1.tbsResponseData.responses| > 0
    ensures VerifyResponse(lib, response, ensureStillValid, rootCert, tomorrow) == Err(OcspNotSuccessful)
  {
  }

  /**
   * A response whose digests match but whose message signature does not verify (a
   * tampered `SignatureValue`, say) is rejected with the signature error.
   */
  lemma SignatureFailureAfterDigests(lib: Library, response: Json, ensureStillValid: bool, rootCert: Option<string>, tomorrow: seq<byte>)
    requires Envelope(response).Ok? && DigestStage(lib.parseXml, lib.sha256, Envelope(response).value).Ok?
    requires var container := DigestStage(lib.parseXml, lib.sha256, Envelope(response).value).value;
      && LoadCertificate(lib, container, 0).Ok?
      && container.SignatureValue().Ok? && DecodeText(container.SignatureValue().value).Ok?
      && container.SignedInfo().Ok?
      && !lib.verifySignature(LoadCertificate(lib, container, 0).value,
           DecodeText(container.SignatureValue().value).value, Utf8Encode(container.SignedInfo().value), "sha256")
    ensures VerifyResponse(lib, response, ensureStillValid, rootCert, tomorrow) == Err(SignatureInvalid)
  {
  }

  /**
   * A successful run passed every check: both digests equal (as bytes), the message
   * signature, the OCSP status, the OCSP signature, the nonce as a byte prefix of the
   * OCSP nonce value and both chains against the three-certificate store. It returns
   * the formatted producedAt and nothing else.
   */
  lemma VerifySuccess(lib: Library, response: Json, ensureStillValid: bool, rootCert: Option<string>, tomorrow: seq<byte>)
    requires VerifyResponse(lib, response, ensureStillValid, rootCert, tomorrow).Ok?
    ensures response.JObject? && "completionData" in response.fields
    ensures var completionData := response.fields["completionData"];
      var container := DigestStage(lib.parseXml, lib.sha256, completionData);
      var ocsp := OcspStage(lib, completionData);
      && container.Ok? && SignatureStage(lib, container.value).Ok?
      && ocsp.Ok? && OcspSignatureStage(lib, ocsp.value.basic).Ok?
      && NonceStage(lib, completionData, ocsp.value.extension).Ok?
      && LoadChainCertificates(lib, container.value, rootCert).Ok?
      && ChainStage(lib, LoadChainCertificates(lib, container.value, rootCert).value,
                    OcspSignatureStage(lib, ocsp.value.basic).value, ensureStillValid, tomorrow).Ok?
      && VerifyResponse(lib, response, ensureStillValid, rootCert, tomorrow) == Ok(ocsp.value.producedAt)
  {
  }

  /** A successful run's OCSP response had status "successful" and a datetime producedAt, and the run returns its formatted value. */
  lemma VerifySuccessOcsp(lib: Library, response: Json, ensureStillValid: bool, rootCert: Option<string>, tomorrow: seq<byte>)
    requires VerifyResponse(lib, response, ensureStillValid, rootCert, tomorrow).Ok?
    ensures response.JObject? && "completionData" in response.fields
    ensures ParseOcsp(lib, response.fields["completionData"]).Ok?
    ensures var (ocsp, basic) := ParseOcsp(lib, response.fields["completionData"]).value;
      && ocsp.responseStatus == "successful" && basic.tbsResponseData.producedAt.DateTime?
      && VerifyResponse(lib, response, ensureStillValid, rootCert, tomorrow)
           == Ok(lib.formatProducedAt(basic.tbsResponseData.producedAt.instant))
  {
    VerifySuccess(lib, response, ensureStillValid, rootCert, tomorrow);
  }

  /**
   * `ensure_certificates_still_valid=False` changes only the expiry of the certificates
   * validated: the store holds the same three certificates in the same order.
   */
  lemma ExpiryOnlyRewritesNotAfter(certs: ChainCertificates, tomorrow: seq<byte>)
    ensures TrustStore(certs, true, tomorrow) == [certs.bankUser, certs.bankId, certs.root]
    ensures TrustStore(certs, false, tomorrow) ==
      [certs.bankUser.(notAfter := tomorrow), certs.bankId.(notAfter := tomorrow), certs.root.(notAfter := tomorrow)]
  {
  }

  /**
   * Whatever `ensure_certificates_still_valid` is, a run that reaches step 4 checks both
   * chains and fails with the first chain failure: neither validation is skipped.
   */
  lemma ChainsNeverSkipped(lib: Library, response: Json, ensureStillValid: bool, rootCert: Option<string>, tomorrow: seq<byte>)
    requires CheckUpToChains(lib, response, rootCert).Ok?
    ensures var checked := CheckUpToChains(lib, response, rootCert).value;
      var chains := ChainStage(lib, checked.certs, checked.ocspCertificate, ensureStillValid, tomorrow);
      VerifyResponse(lib, response, ensureStillValid, rootCert, tomorrow)
        == (if chains.Ok? then Ok(checked.producedAt) else Err(chains.error))
  {
  }
}
