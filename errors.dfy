/** The Python exception classes the modelled code raises or lets escape. */
module PyErrors {

  /** The exceptions the Python code raises, by class (and message where the code writes one). */
  datatype PyError =
    | TypeError(msg: string)
    | AttributeError(msg: string)
    | KeyError(key: string)
    | IndexError
    | ValueError(msg: string)
    | BinasciiError
    | UnicodeDecodeError
    | XmlParseError
    | CryptoError
    | Asn1Error
    | AssertionError(msg: string)
}
