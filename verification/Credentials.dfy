/** Keys, certificate requests and certificates, kept abstract: a key pair is a fresh number, a request
    names the key pair it was made with, and a certificate names the request it was issued for. */
module Credentials {
  datatype SubjectFields = SubjectFields(country: seq<string>, province: seq<string>, locality: seq<string>,
                                         organization: seq<string>, organizationalUnit: seq<string>)

  datatype CsrParameters = CsrParameters(signatureAlgorithm: string, additionalFields: SubjectFields)

  datatype Request = Request(key: nat, algorithm: string, commonName: string, fields: SubjectFields)

  /** The contents of a field that holds bytes. A PEM block is a label and a payload. */
  datatype Bytes =
    | Empty
    | KeyPem(blockType: string, key: nat)
    | RequestPem(blockType: string, request: Request)
    | Certificate(request: Request)
    | Arbitrary(text: string)

  /** Base64 text of section 4 of RFC 4648, which is injective, or any other text. */
  datatype Data = Base64(raw: Bytes) | Plain(text: string)

  /** The PKCS #10 label of section 7 of RFC 7468. */
  const REQUEST_LABEL := "CERTIFICATE REQUEST"

  const RSA_ALGORITHMS := {"SHA256WithRSA", "SHA384WithRSA", "SHA512WithRSA",
                           "SHA256WithRSAPSS", "SHA384WithRSAPSS", "SHA512WithRSAPSS"}
  const ECDSA_ALGORITHMS := {"ECDSAWithSHA256", "ECDSAWithSHA384", "ECDSAWithSHA512"}
  const ED25519_ALGORITHMS := {"PureEd25519"}

  predicate Supported(algorithm: string) {
    algorithm in RSA_ALGORITHMS + ECDSA_ALGORITHMS + ED25519_ALGORITHMS
  }

  function KeyLabel(algorithm: string): string {
    if algorithm in RSA_ALGORITHMS then "RSA PRIVATE KEY"
    else if algorithm in ECDSA_ALGORITHMS then "EC PRIVATE KEY"
    else "PRIVATE KEY"
  }

  /** The key buffer of the key pair `id`. */
  function NewKey(parameters: CsrParameters, id: nat): Bytes {
    KeyPem(KeyLabel(parameters.signatureAlgorithm), id)
  }

  /** The request buffer made with the key pair `id`. */
  function NewRequest(username: string, parameters: CsrParameters, id: nat): Bytes {
    RequestPem(REQUEST_LABEL, Request(id, parameters.signatureAlgorithm, username, parameters.additionalFields))
  }

  predicate Parses(request: Bytes) {
    request.RequestPem? && request.blockType == REQUEST_LABEL
  }

  predicate Pairs(key: Bytes, request: Bytes) {
    key.KeyPem? && Parses(request) && request.request.key == key.key
  }

  /** The signer's answer to a request. */
  function Sign(request: Bytes): Bytes
    requires Parses(request)
  {
    Certificate(request.request)
  }
}
