/** Value entities shared by the certificate sources and the baseline checker.
    Java `equals` on these tokens becomes structural equality of the datatypes. */
module X509 {

  /** A certificate as the validation core sees it: its identity, the end of its
      validity window (a `Date` as milliseconds) and whether it is self-signed. */
  datatype CertificateToken = CertificateToken(dssId: string, notAfter: int, selfSigned: bool)

  /** An identifier of a certificate (issuer/serial or key identifier); `current`
      is what `isCurrent()` answers: it designates the signer of the token. */
  datatype CertificateIdentifier = CertificateIdentifier(key: string, current: bool)

  /** A reference to a certificate by digest or by issuer/serial. */
  datatype CertificateRef = CertificateRef(key: string)

  /** Where in a token a certificate or identifier was found. */
  datatype CertificateOrigin =
    | KeyInfo | SignedData | CertificateValues | AttrAuthoritiesCertValues
    | TimestampValidationData | DssDictionary | VriDictionary | BasicOcspResp

  /** Where in a token a certificate reference was found. */
  datatype CertificateRefOrigin =
    | SigningCertificate | AttributeCertificateRefs | CompleteCertificateRefs
    | KeyInfoRef | SignedDataRef

  /** A plain certificate source: the certificates one token carries, in order. */
  datatype CertificateSource = CertificateSource(certificates: seq<CertificateToken>)
}
