# pybankid in Dafny

A model of the relying-party side of pybankid, a Python client for the Swedish
BankID identification service. It covers six parts:

- **Request building** for the v6.0 asynchronous client and its base class, and for the v5.1 JSON
  clients. This includes server and endpoint selection, the keys each order payload carries, the
  base64 encoding of user data, the `call_initiator` guard, the `{"orderRef": ...}` body of
  `collect` and `cancel`, and how an answer is read: status 200 returns the body, any other status
  raises the error the body maps to, and `cancel` succeeds exactly on `{}`.
- **The error-code table** of the BankID error classes, the `rfa` number each class sets, and the
  `"<errorCode>: <details>"` message.
- **The signature-container helpers** of the experimental verifier:
  - PEM wrapping of certificate text in 54-character lines;
  - the base64 value wrapper;
  - positional access into the parsed signature document;
  - the `<Object>`, `<SignedInfo` and `<KeyInfo` regions cut out of the decoded document text with
    `find` and slicing;
  - the completion-data accessors;
  - the OCSP nonce value.
- **`verify_bankid_response`** as a fail-fast pipeline. The checks run in this order: input shape,
  the two digests, the message signature, the OCSP response (producedAt, first extension, first
  single response, status), the OCSP signature, the nonce, and the two certificate chains against a
  three-certificate store. Hashing, signature checking, XML and ASN.1 parsing, certificate loading,
  PEM armouring, chain validation and time formatting are library calls. They are the fields of
  the `Verify.Library` value passed in.
  - The certificate objects whose expiry `set_notAfter` rewrites are a class (`Verify.Certificate`).
  - So is the store `add_cert` fills (`Verify.X509Store`).
  - `Verify.CheckChains` drives them and is proved equal to the declarative `Verify.ChainStage`.
- **The Luhn check digit** of the test fixtures (ISO/IEC 7812-1, Annex B). Its accumulator loop
  is a method proved to return the unique digit that completes its input. Beside it are the
  12-digit personal numbers built with it.

Supporting modules:

- `Wrappers`: Option and Result.
- `PyErrors`: the Python exceptions that can escape.
- `Json`: decoded JSON values.
- `PyText`: `str.find`, slicing and `str(n)`.
- `Encoding`: UTF-8, base64 as in section 4 of RFC 4648, and `bytes.hex()`.

The HTTP transport is a parameter `post: (string, Json) -> Response`. `repr` of a list or dict is a
parameter as well.

## Model

| member | source | states |
|---|---|---|
| `Helper.Wrap` | bankid/experimental/helper.py:5 | The chunks concatenate back to the text. Each has 1 to `width` characters and all but the last exactly `width`. The text is empty iff there are no chunks. |
| `Helper.MakeCert` | bankid/experimental/helper.py:5 | The PEM text starts with the `-----BEGIN CERTIFICATE-----` line and ends with the `-----END CERTIFICATE-----` line. |
| `Helper.MakeCertLines` | bankid/experimental/helper.py:5 | The lines between the armour are the 54-character chunks of the input (the last may be shorter), and they concatenate back to it. |
| `Helper.RemoveNewlinesOfWrap` | bankid/experimental/helper.py:5 | For newline-free text, removing the line breaks from the joined chunks gives the text back. |
| `Helper.MakeCertRoundTrip` | bankid/experimental/helper.py:5 | Removing the armour and the line breaks from `make_cert(e)` gives back `e`. |
| `Helper.B64Value.Decode` | bankid/experimental/helper.py:12-14 | A non-string value raises TypeError and a non-ASCII string raises ValueError. Any other string gives its base64 decoding, or binascii.Error. |
| `Helper.B64ValueRoundTrip` | bankid/experimental/helper.py:8-17 | Wrapping the base64 of some bytes and decoding it gives those bytes back. |
| `Helper.At` | bankid/experimental/helper.py:32-61 | Positional access fails only with IndexError. |
| `Helper.AtAppend` | bankid/experimental/helper.py:32-61 | Indexing along `p + q` is indexing along `p`, then along `q` from there, with the first failure kept. |
| `Helper.SignatureContainer.SignatureValue` | bankid/experimental/helper.py:40-42 | The later definition wins: the element `root[1]`, present iff the root has at least two children. |
| `Helper.SignatureContainer.SignedDataDigest` | bankid/experimental/helper.py:32-34 | `root[0][2][2]` when all three positions exist, otherwise IndexError. |
| `Helper.SignatureContainer.KeyDataDigest` | bankid/experimental/helper.py:36-38 | `root[0][3][2]` when all three positions exist, otherwise IndexError. |
| `Helper.SignatureContainer.SignedDataRaw` | bankid/experimental/helper.py:44-46 | `root[3][0]`, present iff both positions exist. |
| `Helper.SignatureContainer.Certificates` | bankid/experimental/helper.py:48-50 | The children of `root[2][0]`, in document order, present iff that element exists. |
| `Helper.SignatureContainer.UserNonVisibleData` | bankid/experimental/helper.py:59-61 | The text (possibly None) of `root[3][0][1]`, present iff that element exists. |
| `Helper.SignatureContainer.RawXmlString` | bankid/experimental/helper.py:54 | On success, the text is the strict UTF-8 decoding of the base64-decoded raw value. |
| `Helper.SignatureContainer.BidSignedDataRaw` | bankid/experimental/helper.py:52-57 | It succeeds iff the document decodes, and is the `<Object>` slice of the decoded text. |
| `Helper.SignatureContainer.SignedInfo` | bankid/experimental/helper.py:63-68 | It succeeds iff the document decodes, is the `<SignedInfo` slice of it, and always ends with `</SignedInfo>`. |
| `Helper.SignatureContainer.KeyInfoRaw` | bankid/experimental/helper.py:70-75 | It succeeds iff the document decodes, is the `<KeyInfo` slice of it, and always ends with `</KeyInfo>`. |
| `Helper.SignatureContainer.GetServerInfo` | bankid/experimental/helper.py:77-82 | `name` and `displayName` are the base64-decoded texts of `root[3][0][2][0]` and `root[3][0][2][2]`. A missing first element is IndexError. |
| `Helper.ElementRegion` | bankid/experimental/helper.py:63-75 | The region always ends with the closing tag, present in the text or not. |
| `Helper.CloseAfterOpen` | bankid/experimental/helper.py:52-75 | An opening marker and a closing tag `</...` cannot overlap. A closing tag found at or after the marker starts after the whole marker. |
| `Helper.ObjectRegionBetweenTags` | bankid/experimental/helper.py:52-57 | When the first `<Object>` precedes the first `</Object>`, the region is exactly the text strictly between them. The document is that region put back between its two tags. |
| `Helper.ObjectRegionWithoutClose` | bankid/experimental/helper.py:54-57 | With no `</Object>`, nothing is raised. The slice runs from after `<Object>` to just before the last character. |
| `Helper.ElementRegionBetweenTags` | bankid/experimental/helper.py:63-75 | When the marker comes no later than the closing tag, the region is the text from the first marker through the first closing tag. It starts with the marker. |
| `Helper.ElementRegionWithoutClose` | bankid/experimental/helper.py:66-68 | With no closing tag, nothing is raised. The slice stops before the last character, and the closing tag is still appended. |
| `Helper.NewSignatureContainer` | bankid/experimental/helper.py:24-26 | Construction succeeds iff the value decodes and parses. The root is the parse of the decoded bytes, and the raw value is kept unchanged. |
| `Helper.Subscript` | bankid/experimental/helper.py:89-103 | `completion_data[key]` is the entry when present. A missing key raises KeyError, and a value that is not a dict raises TypeError. |
| `Helper.CompletionDataContainer.Signature` | bankid/experimental/helper.py:105-107 | The `signature` entry, wrapped in B64Value and not decoded. |
| `Helper.CompletionDataAccessors` | bankid/experimental/helper.py:89-107 | Each accessor returns its dictionary entry unchanged, `signature` wrapped. A missing key is KeyError. |
| `Helper.NonceParse.Value` | bankid/experimental/helper.py:126-128 | The input with exactly its first 16 bytes dropped, or empty for a shorter input. |
| `PyText.Find` | bankid/experimental/helper.py:55-56 | The index of the first occurrence of the pattern, or -1 exactly when it never occurs. |
| `PyText.SliceBound` | bankid/experimental/helper.py:57 | A slice bound as Python normalises it. An in-range bound is kept, a negative one counts from the end, and the result is clamped into the string. |
| `PyText.Slice` | bankid/experimental/helper.py:57 | In range, it is the plain subsequence. A stop of -1 drops the last character, and crossed bounds give the empty string. |
| `PyText.NatToString` | tests/conftest.py:38-39 | `str(n)` is a non-empty digit string starting with '0' only for 0. |
| `Encoding.Utf8RoundTrip` | bankid/baseclient.py:48-50 | Strict UTF-8 decoding of the UTF-8 encoding of a string gives the string back. |
| `Encoding.Base64RoundTrip` | bankid/baseclient.py:48-50 | Base64 decoding of the base64 encoding of some bytes gives those bytes back. |
| `Encoding.Base64EncodeSymbols` | bankid/baseclient.py:50 | Encoder output is ASCII, built from the alphabet and the pad, so `.decode("ascii")` cannot fail. |
| `Encoding.HexEqualIff` | bankid/experimental/verify.py:43-47 | Two hex strings are equal iff the bytes are. |
| `Encoding.HexPrefixIff` | bankid/experimental/verify.py:162 | One hex string starts with another iff the second's bytes are a prefix of the first's. |
| `Json.Entry` | bankid/baseclient.py:60-71 | A one-key dict holding the value when the condition holds, and `{}` otherwise. |
| `Json.EntryUpdate` | bankid/baseclient.py:60-71 | Merging such an entry is a conditional key assignment. |
| `Exceptions.Rfa` | bankid/exceptions.py:20-142 | `rfa` is 4 exactly for AlreadyInProgressError, and 5 exactly for RequestTimeoutError, InternalError and MaintenanceError. It is None for BankIDError, InvalidParametersError, UnauthorizedError and NotFoundError. |
| `Exceptions.ErrorCode` | bankid/exceptions.py:145-155 | Every subclass has a code; the base class has none. |
| `Exceptions.ErrorClassForCode` | bankid/exceptions.py:145-155 | Each subclass is found from its own code and from no other value. |
| `Exceptions.ErrorCodeTableInverse` | bankid/exceptions.py:145-155 | The table maps each code to the one subclass whose code it is, and every subclass to a code. Distinct codes give distinct classes. |
| `Exceptions.ErrorClassForUnknown` | bankid/exceptions.py:16 | Any other hashable code gives BankIDError. |
| `Exceptions.UnhandledCodesAreGeneric` | bankid/exceptions.py:150-152 | `methodNotAllowed`, `unsupportedMediaType`, an unknown code and a missing code all give BankIDError. |
| `Exceptions.Get` | bankid/exceptions.py:16-17 | `dict.get` is the entry when present, and None otherwise. |
| `Exceptions.GetJsonErrorClass` | bankid/exceptions.py:14-17 | A non-dict body raises AttributeError. Otherwise an error is built iff the code is hashable. Its class is the table's class for the code, and its message is `"<errorCode>: <details>"` with `str` of each. |
| `Exceptions.GetJsonErrorClassKnown` | bankid/exceptions.py:14-17 | A body with a known code gives that class and its `rfa`, and a message starting with the code and `": "`. |
| `Exceptions.GetJsonErrorClassMissingCode` | bankid/exceptions.py:14-17 | A body without `errorCode` gives BankIDError with no `rfa`, and a message starting with `"None: "`. |
| `Protocol.OrderRefBody` | bankid/asyncclient.py:335 | The body of `collect` and `cancel` has exactly one key, `orderRef`, holding the order reference. |
| `Protocol.OrderResult` | bankid/asyncclient.py:81-84 | The body is returned iff the status is 200. Any other status raises what `get_json_error_class` builds from the body. |
| `Protocol.CancelResult` | bankid/asyncclient.py:356-361 | True iff status 200 with `{}`, false iff status 200 with any other body. Any other status raises what `get_json_error_class` builds from the body. |
| `Protocol.OrderResultCases` | bankid/asyncclient.py:81-84 | The answer is returned iff the status is 200, and it is then the body. Any other status raises the BankID error the body maps to. |
| `Protocol.CancelResultCases` | bankid/asyncclient.py:358-361 | `cancel` returns true iff the answer is status 200 with `{}`. It raises iff the status is not 200, and then raises what an order call would. |
| `BaseClient.UrlJoin` | bankid/baseclient.py:37-42 | The result ends with the reference. Before it comes the base up to and including its last `/` (nothing when it has none), so no `/` of the base is dropped from the kept part. The join is plain concatenation iff the base is empty or ends in `/`. |
| `BaseClient.LastSlash` | bankid/baseclient.py:37-42 | The position of the last `/`, with no `/` after it, or -1. |
| `BaseClient.UrlJoinDirectory` | bankid/baseclient.py:37-42 | Joining onto a base that ends in `/` is concatenation. |
| `BaseClient.ApiUrls` | bankid/baseclient.py:30-35 | The test and production URLs of v6.0 differ, both end in `/`, and every join onto them is concatenation. |
| `BaseClient.BankIDClientBase.constructor` | bankid/baseclient.py:22-42 | The test URL and certificate iff `test_server`, the production ones otherwise. The six endpoints are the URL followed by `auth`, `phone/auth`, `sign`, `phone/sign`, `collect` and `cancel`. |
| `BaseClient.BankIDClientBase.CreatePayload` | bankid/baseclient.py:52-71 | The dict built key by key from `{}` is the declarative payload: one entry per given argument. |
| `BaseClient.EncodeUserData` | bankid/baseclient.py:48-50 | The encoding is empty iff the text is. |
| `BaseClient.EncodeUserDataRoundTrip` | bankid/baseclient.py:48-50 | The encoding is ASCII, and decoding it as base64 and then as UTF-8 gives back the text. |
| `BaseClient.Payload` | bankid/baseclient.py:60-71 | The payload holds none but the five keys `_create_payload` may set. Given visible data is sent under `userVisibleData`, encoded. |
| `BaseClient.PayloadSteps` | bankid/baseclient.py:60-71 | The declarative payload equals `{}` with each present key assigned in source order. |
| `BaseClient.CreatePayloadKeys` | bankid/baseclient.py:60-71 | The payload has no key outside the five. `endUserIp`, `userVisibleData` and `userNonVisibleData` are present iff their argument is non-empty, and `requirement` iff it is a non-empty dict. `userVisibleDataFormat` is present iff the argument is `simpleMarkdownV1`. Each value is the argument, its encoding, or that literal. |
| `BaseClient.CreatePayloadEmpty` | bankid/baseclient.py:60-71 | With nothing given, the payload is `{}`. |
| `BaseClient.CreatePayloadUserData` | bankid/baseclient.py:65-66 | The `userVisibleData` sent decodes back to the argument. |
| `AsyncClient.PhonePayload` | bankid/asyncclient.py:135-142 | A phone payload holds no `endUserIp` and no key outside `_create_payload`'s and the two phone keys. `personalNumber` and `callInitiator` are always present and equal the arguments. |
| `AsyncClient.PhonePayloadKeys` | bankid/asyncclient.py:135-142 | A phone payload never holds `endUserIp`. It always holds `personalNumber` and `callInitiator` equal to the arguments, and otherwise agrees with `_create_payload`. |
| `AsyncClient.BankIDAsyncClient.constructor` | bankid/asyncclient.py:22-26 | The base class is set up with the certificates and the server choice, and the timeout is kept. The server certificate name is the test or production one, and the six endpoints are the URL followed by `auth`, `phone/auth`, `sign`, `phone/sign`, `collect` and `cancel`. |
| `AsyncClient.BankIDAsyncClient.Authenticate` | bankid/asyncclient.py:71-84 | It posts exactly `_create_payload` of its arguments to the auth endpoint and reads the answer as every order call does. |
| `AsyncClient.BankIDAsyncClient.PhoneAuthenticate` | bankid/asyncclient.py:132-149 | A call initiator other than `user` or `RP` raises ValueError with the source's message, and nothing is sent. Otherwise it posts the phone payload to the phone/auth endpoint. |
| `AsyncClient.BankIDAsyncClient.Sign` | bankid/asyncclient.py:192-205 | It posts exactly `_create_payload` of its arguments, with the visible data given, to the sign endpoint. |
| `AsyncClient.BankIDAsyncClient.PhoneSign` | bankid/asyncclient.py:251-268 | The same guard as phone authentication, then the phone payload posted to the phone/sign endpoint. |
| `AsyncClient.BankIDAsyncClient.Collect` | bankid/asyncclient.py:335-340 | It posts `{"orderRef": order_ref}` to the collect endpoint and reads the answer. |
| `AsyncClient.BankIDAsyncClient.Cancel` | bankid/asyncclient.py:356-361 | It posts `{"orderRef": order_ref}` to the cancel endpoint and returns true iff the answer is 200 with `{}`. |
| `JsonClient.EncodeJsonUserData` | bankid/jsonclient.py:14-18 | Text is encoded as the base class encodes it, and bytes are base64-encoded directly. |
| `JsonClient.EncodeJsonUserDataRoundTrip` | bankid/jsonclient.py:14-18 | The encoding is ASCII and decodes to the bytes, or for text to the text. |
| `JsonClient.AuthenticationPayload` | bankid/jsonclient.py:72-79 | `endUserIp` is always present. No key is outside `endUserIp`, `personalNumber`, `requirement` and those of `kwargs`, and every `kwargs` entry is in the payload unchanged. |
| `JsonClient.AuthenticatePayloadKeys` | bankid/jsonclient.py:72-79 | The keys are: `endUserIp` always, `personalNumber` iff non-empty, `requirement` iff a non-empty dict, and the keys of `kwargs`. A `kwargs` entry overrides the built one, `endUserIp` included. |
| `JsonClient.SigningPayload` | bankid/jsonclient.py:90-100 | `endUserIp` and `userVisibleData` are always present. |
| `JsonClient.SigningPayloadSteps` | bankid/jsonclient.py:90-100 | The declarative signing payload equals the dict built key by key in source order and then updated with `kwargs`. |
| `JsonClient.SignPayloadKeys` | bankid/jsonclient.py:90-100 | `endUserIp` and `userVisibleData` are always present, however empty. `personalNumber`, `userNonVisibleData` and `requirement` are present under their conditions, and `kwargs` overrides any of them. |
| `JsonClient.SignPayloadKeySet` | bankid/jsonclient.py:90-100 | The keys are `endUserIp` and `userVisibleData`, the optional keys under their conditions, and those of `kwargs`. |
| `JsonClient.SignPayloadValues` | bankid/jsonclient.py:90-100 | A `kwargs` entry is sent unchanged. Each built key that `kwargs` does not override holds the argument or its encoding. |
| `JsonClient.AsyncBankIDJSONClient.constructor` | bankid/jsonclient.py:37-63 | The v5.1 test URL iff `test_server`, the v5.1 production URL otherwise. The four endpoints are the URL followed by `auth`, `sign`, `collect` and `cancel`. |
| `JsonClient.AsyncBankIDJSONClient.AuthenticatePayload` | bankid/jsonclient.py:65-79 | The dict built step by step and updated with `kwargs` is the declarative authentication payload. |
| `JsonClient.AsyncBankIDJSONClient.SignPayload` | bankid/jsonclient.py:81-100 | The dict built step by step and updated with `kwargs` is the declarative signing payload. |
| `JsonClient.AsyncBankIDJSONClient.Authenticate` | bankid/jsonclient.py:142-154 | It posts the authentication payload to the auth endpoint and reads the answer. |
| `JsonClient.AsyncBankIDJSONClient.Sign` | bankid/jsonclient.py:204-218 | It posts the signing payload to the sign endpoint and reads the answer. |
| `JsonClient.AsyncBankIDJSONClient.Collect` | bankid/jsonclient.py:287-296 | It posts `{"orderRef": order_ref}` to the collect endpoint. |
| `JsonClient.AsyncBankIDJSONClient.Cancel` | bankid/jsonclient.py:311-320 | It posts `{"orderRef": order_ref}` to the cancel endpoint and returns true iff the answer is 200 with `{}`. |
| `JsonClient.SyncSignPayloadAsWritten` | bankid/jsonclient.py:373 | The payload the synchronous `sign` sends as written: `endUserIp` is the IP address, and `userVisibleData` the encoded visible text. |
| `JsonClient.SyncSignPayload` | bankid/jsonclient.py:373 | The payload with `user_non_visible_data` passed by name: the same `endUserIp` and `userVisibleData`. |
| `JsonClient.SyncSignAsWrittenDropsNonVisibleData` | bankid/jsonclient.py:365-374 | As written, the synchronous `sign` never sends `userNonVisibleData`, and never sends `requirement` either. |
| `JsonClient.SyncSignAsWrittenCounterexample` | bankid/jsonclient.py:373 | `sign("1.2.3.4", "x", None, "secret")` sends no `userNonVisibleData` as written, and does send it once forwarded by name. |
| `JsonClient.SyncSignSendsNonVisibleData` | bankid/jsonclient.py:365-374 | Forwarded by name, non-visible data is sent iff non-empty, encoded, and the payload otherwise is the as-written one. |
| `JsonClient.BankIDJSONClient.constructor` | bankid/jsonclient.py:335-344 | The asynchronous part is set up with the same certificates, server choice and timeout. Its server certificate name is the test or production one, and its four endpoints are the v5.1 URL followed by `auth`, `sign`, `collect` and `cancel`. |
| `JsonClient.BankIDJSONClient.Cancel` | bankid/jsonclient.py:349-355 | It gives the asynchronous `cancel`'s result. |
| `JsonClient.BankIDJSONClient.Collect` | bankid/jsonclient.py:357-363 | It gives the asynchronous `collect`'s result. |
| `JsonClient.BankIDJSONClient.Sign` | bankid/jsonclient.py:365-374 | As written: it posts to the sign endpoint the payload in which `user_non_visible_data` went into the `requirement` slot, so it is never sent. |
| `JsonClient.BankIDJSONClient.Authenticate` | bankid/jsonclient.py:376-383 | It forwards only the IP address and the personal number. |
| `JsonClient.SyncAuthenticatePayload` | bankid/jsonclient.py:376-383 | The synchronous authentication payload holds `endUserIp`, `personalNumber` when given, and nothing else. |
| `Luhn.StridedSums` | tests/conftest.py:42-44 | The sum over `digits[-1::-2]` plus the doubled digit sums over `digits[-2::-2]` is the Luhn sum counted from the right. |
| `Luhn.DoubledSumAppend` | tests/conftest.py:43-44 | One more loop step adds the digit sum of the next element doubled. |
| `Luhn.DigitsOfIsStr` | tests/conftest.py:38-39 | `digits_of(n)` is the digit values of `str(n)`. |
| `Luhn.LuhnSumOfDecimalValue` | tests/conftest.py:41 | `int()` drops leading zeros without changing either Luhn sum of the digits. |
| `Luhn.LuhnSumLeadingZero` | tests/conftest.py:41 | A leading zero leaves the Luhn sums unchanged. |
| `Luhn.LuhnValidLeadingZero` | tests/conftest.py:41 | A leading zero does not change whether a digit sequence passes the Luhn test. |
| `Luhn.LuhnSumIsShiftedSum` | tests/conftest.py:41 | The Luhn sum of `int(id_) * 10` is the Luhn sum of `id_`'s digits with the last one doubled, as if a check digit followed. |
| `Luhn.CheckDigitArithmetic` | tests/conftest.py:45-47 | A digit completes a total to a multiple of 10 iff it is 0 for a remainder of 0, and 10 minus the remainder otherwise. |
| `Luhn.CheckDigitFromChecksum` | tests/conftest.py:45-47 | The complement of the checksum modulo 10 is a digit that, appended, passes the Luhn test. It is the only such digit. |
| `Luhn.LuhnDigit` | tests/conftest.py:24-47 | The result is a digit in 0..9. Appended to `id_`, it makes a sequence that passes the Luhn test, and no other digit does. |
| `Luhn.ZeroPad` | tests/conftest.py:53 | The padded field consists of digits, has the width (or more), and reads back as the number. |
| `Luhn.NatToStringValue` | tests/conftest.py:38-39 | `int(str(n)) == n`. |
| `Luhn.PadValue` | tests/conftest.py:53 | Leading zeros do not change the value `int()` reads. |
| `Luhn.NatToStringLength` | tests/conftest.py:53 | For `n` below 10000, which covers every field the fixture formats, `str(n)` has one digit per power of ten up to `n`. |
| `Luhn.PersonalNumber` | tests/conftest.py:49-54 | The number has 12 digits: year, month, day and suffix zero-padded to 4, 2, 2 and 3. From the third digit on, it passes the Luhn test. |
| `Luhn.PersonalNumberOf` | tests/conftest.py:53-54 | Four digit fields and their check digit make a 12-digit number with the fields in place and a valid Luhn tail. |
| `Luhn.PersonalNumberLayout` | tests/conftest.py:53-54 | Where each field and the check digit sit in the 12 characters. |
| `Luhn.PersonalNumberDigits` | tests/conftest.py:53-54 | The formatted number and its tail after two characters are digit strings. |
| `Verify.Envelope` | bankid/experimental/verify.py:21-28 | A non-dict raises TypeError and a dict without `completionData` raises AttributeError, with the source's messages. Otherwise the result is the `completionData` entry. |
| `Verify.ComputeDigests` | bankid/experimental/verify.py:33-41 | An undecodable document is its error. On success, the two hashes are the SHA-256 of the UTF-8 `<Object>` and `<KeyInfo` regions, and the other two are the base64 decodings of the two digest elements. |
| `Verify.DigestStage` | bankid/experimental/verify.py:33-47 | Step 1 passes iff the container parses, every digest input is there, and both SHA-256 digests equal the decoded digests as bytes; it then returns the container. A parse or lookup failure is passed on as is. A signed-data mismatch raises the signed-data error, and a key-info mismatch with matching signed data raises the key-info error. |
| `Verify.CertificateText` | bankid/experimental/verify.py:52 | On success, the text of the certificate at that index exists and is the result. A failing certificates lookup is passed on, an index past the end is IndexError, and a certificate without text is the AttributeError that `textwrap` raises on None. |
| `Verify.LoadCertificate` | bankid/experimental/verify.py:52-57 | On success, the certificate is the PEM load of `make_cert` of that text, encoded as UTF-8. A failure to get the text is passed on, and a PEM load that fails is the crypto error. |
| `Verify.SignatureStage` | bankid/experimental/verify.py:52-69 | Step 2 passes iff three things hold: the first certificate loads, `root[1]` decodes, and its bytes are a valid SHA-256 signature by that certificate over the `<SignedInfo` region. A load or decode failure is passed on as is, and a signature that does not verify raises the signature error. |
| `Verify.ParseOcsp` | bankid/experimental/verify.py:73-76 | A missing `ocspResponse` is its lookup error. On success, the response is the parse of the base64-decoded entry, and the basic response is its response bytes. A base64 decode failure is passed on, and a parse failure or missing response bytes is the ASN.1 error. |
| `Verify.OcspStage` | bankid/experimental/verify.py:73-121 | Step 3 passes iff the response parses with response bytes, producedAt is a datetime, there is a first extension and a first single response, and the status is `successful`; it returns the formatted producedAt and the first extension. Each failure has its own error, in that order: the parse error, the producedAt error, IndexError for a missing extension or single response, and the unsuccessful-status error. |
| `Verify.OcspCertificate` | bankid/experimental/verify.py:126-128 | No certificates is IndexError. On success, the certificate is the PEM load of the armoured first certificate; a load that fails is the crypto error. |
| `Verify.OcspSignatureStage` | bankid/experimental/verify.py:126-147 | It passes iff the responder certificate loads and signs the DER of `tbs_response_data` with the response's own hash; it then returns that certificate. A load failure is passed on, and a signature that does not verify raises the OCSP-signature error. |
| `Verify.SignatureText` | bankid/experimental/verify.py:151 | The text hashed for the nonce is the `signature` entry as given (base64 text, not decoded), and it must be a string. |
| `Verify.NonceStage` | bankid/experimental/verify.py:151-163 | The nonce check passes iff the SHA-1 of the signature text is a byte prefix of the nonce value. A failure past the text lookup is the nonce-mismatch error. |
| `Verify.LoadChainCertificates` | bankid/experimental/verify.py:167-179 | On success, a root certificate was given, and the four certificates are the loads of `certificates[0..2]` and of that root. The first failing load of `certificates[0..2]` is passed on, in that order; then a None root is the AttributeError of `None.encode()`, and a root load that fails is the crypto error. |
| `Verify.Refreshed` | bankid/experimental/verify.py:184-192 | A certificate keeps its content. Its expiry is rewritten to tomorrow exactly when expiry is not to be respected. |
| `Verify.TrustStore` | bankid/experimental/verify.py:194-197 | The store is exactly `certificates[1]`, `certificates[2]` and the root, in that order. |
| `Verify.ChainStage` | bankid/experimental/verify.py:199-216 | Step 4 passes iff both the user certificate and the responder certificate validate against the store. A failing user chain raises the user-chain error, and a valid user chain with a failing responder chain raises the OCSP-chain error. |
| `Verify.Certificate.constructor` | bankid/experimental/verify.py:167-179 | A new certificate object holds the loaded certificate. |
| `Verify.Certificate.SetNotAfter` | bankid/experimental/verify.py:187-192 | Only the expiry changes, to the given time. |
| `Verify.X509Store.constructor` | bankid/experimental/verify.py:194 | A new store is empty. |
| `Verify.X509Store.AddCert` | bankid/experimental/verify.py:195-197 | The certificate is appended to the store, after those already there. |
| `Verify.CheckChains` | bankid/experimental/verify.py:184-213 | The five objects, their expiry rewrite, the three `add_cert` calls and the two validations give exactly the declarative chain step. |
| `Verify.CheckUpToChains` | bankid/experimental/verify.py:19-179 | An input-shape error is reported as is. On success, the digest and OCSP steps passed, and the producedAt carried on is the OCSP step's. |
| `Verify.VerifyResponse` | bankid/experimental/verify.py:19-218 | An error before the chains is the result. Success holds iff the steps before the chains and the chain step all pass, and it returns the producedAt the OCSP step formatted. |
| `Verify.VerifyBankIdResponse` | bankid/experimental/verify.py:19-218 | The imperative run gives exactly the declarative pipeline's result: the first failure, or the formatted producedAt. |
| `Verify.InputShapeCheckedFirst` | bankid/experimental/verify.py:21-25 | A non-dict, or a dict without `completionData`, is rejected whatever the library does. |
| `Verify.SignedDataMismatchReportedFirst` | bankid/experimental/verify.py:43-47 | A signed-data mismatch is reported even when the key-info digest does not match either. |
| `Verify.DigestFailureShortCircuits` | bankid/experimental/verify.py:43-69 | After a failing digest check, no later library call matters. Any library agreeing on XML parsing and SHA-256 gives the same error. |
| `Verify.OcspStatusBeforeOcspSignature` | bankid/experimental/verify.py:120-147 | An unsuccessful OCSP status is reported whatever the OCSP signature, nonce and chains are. |
| `Verify.SignatureFailureAfterDigests` | bankid/experimental/verify.py:43-69 | When the digests match but the message signature does not verify, as for a tampered `SignatureValue`, the whole run raises the signature error. |
| `Verify.VerifySuccess` | bankid/experimental/verify.py:19-218 | A successful run passed every stage: digests, message signature, OCSP checks, OCSP signature, nonce, certificate loading and both chains. It returns the formatted producedAt and only that. |
| `Verify.VerifySuccessOcsp` | bankid/experimental/verify.py:91-218 | A successful run had a `successful` OCSP status and a datetime producedAt, and it returns that time formatted. |
| `Verify.ExpiryOnlyRewritesNotAfter` | bankid/experimental/verify.py:184-197 | With expiry respected, the store is the three certificates unchanged. Otherwise it is the same three with only their expiry set to tomorrow. |
| `Verify.ChainsNeverSkipped` | bankid/experimental/verify.py:184-216 | Once steps 1 to 3 and the loads succeed, the result is the chain step's result, for either setting of `ensure_certificates_still_valid`. Neither validation is skipped, and errors pass through the re-raise unchanged. |

## Left out

The clients:

- The HTTP transport (`httpx` clients, headers, TLS, timeouts) and the asyncio event loop of the synchronous JSON client are network I/O and concurrency. The transport is a parameter from endpoint and body to status and decoded body.
- `generate_qr_code_content` depends on the wall clock and on HMAC. The QR demo, the certificate utilities (`certutils.py`, `testcert.py`), the deprecated SOAP client (`client.py`) and the TypedDict declarations (`responses.py`) are not part of this model.
- `BaseClient.UrlJoin`: models `urljoin` for a base whose path holds a `/` and that has no query or fragment, joined with a plain relative reference, which covers all six call sites (both base URLs end in `/`). It differs from `urljoin` on a base without a path, such as `https://host`.
- `resolve_cert_path` is filesystem path resolution. The model keeps the certificate file name.
- JSON floats are not modelled.
- `BaseClient.EncodeUserData` and `JsonClient.EncodeJsonUserData`: a Dafny `char` is a Unicode scalar value and cannot be a lone surrogate. So the UnicodeEncodeError that `.encode("utf-8")` raises on a Python `str` holding one is not modelled.

The error table:

- `Exceptions.GetJsonErrorClass`: `str()` of a list or dict inside an error body goes through `repr`, which is a parameter. The exception hierarchy is modelled as one `BankIDError` value with a kind, so "every error is a BankIDError" holds by its type.

The signature helpers:

- `Helper.MakeCert`: `textwrap.wrap` is modelled as plain 54-character chunking. The library differs from that on text holding whitespace or hyphens, which base64 certificate text does not contain.
- `Encoding.Base64Decode`: non-alphabet characters are discarded as Python's non-validating decoder does. Where that decoder accepts pad characters in unusual places (text after a padded group, for instance), the model reports a decoding error.
- `NonceParse.type` and `NonceParse.critical` read `.contents` of the raw bytes they are given, so they would fail if called, and nothing calls them.

The verifier:

- Hashing, signature verification, XML and ASN.1 parsing, certificate loading, `pem.armor` and chain validation are foreign library calls, kept as the fields of `Verify.Library`.
- The Stockholm time-zone conversion and `strftime` of producedAt are one field of `Verify.Library`. So is the formatting of `datetime.now()` plus one day, passed in as `tomorrow`.
- `Verify.ParseOcsp`: asn1crypto parses lazily and its various errors are all modelled as one ASN.1 error raised at load or `response_bytes` time.
  - An unsuccessful OCSP answer without response bytes therefore fails at line 76, before the status check of line 120. This is the source's order, kept.
- `Verify.X509Store.AddCert`: OpenSSL stores references, and the model stores each certificate as it is when added. These agree because no certificate is changed after it is added.
- The `_LOG` calls have no behavioural effect. Evaluating their arguments (such as `get_subject()`) is not modelled.

The Luhn fixture:

- `Luhn.LuhnDigit`: its input is required to be a string of ASCII digits. Python's `int()` also accepts signs, surrounding whitespace and underscores; the fixture only ever passes digit strings.
- `Luhn.PersonalNumber`: `random.randint` is drawn by the caller; the drawn values are the inputs, within the source's ranges.

## Findings

| source | as written | input that shows it | evidently intended | confidence | as-written member | corrected member |
|---|---|---|---|---|---|---|
| bankid/jsonclient.py:373 | The synchronous `sign` passes `user_non_visible_data` as the fourth positional argument. The asynchronous `sign` reads that slot as `requirement`, and the dict test then drops the string. | `sign("1.2.3.4", "x", None, "secret")` sends no `userNonVisibleData` (`JsonClient.SyncSignAsWrittenCounterexample`). | The non-visible data is forwarded by name and sent, base64-encoded, as `userNonVisibleData`. `JsonClient.BankIDJSONClient.Sign` models the call as written, and `JsonClient.SyncSignPayload` the call forwarded by name. | not executed | `JsonClient.SyncSignAsWrittenDropsNonVisibleData` | `JsonClient.SyncSignSendsNonVisibleData` |
