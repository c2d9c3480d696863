/** The values the configuration carries from Go's crypto packages, as plain data. Their
    computations (hashing, X.509 parsing) are not part of this model. */
module Crypto {
  import opened Wrappers

  /** scramclient.SHA256 and scramclient.SHA512: the two hash constructors a SCRAM client can
      be bound to. */
  datatype HashGenerator = SHA256 | SHA512

  /** tls.Certificate: the DER blocks of a parsed certificate chain. */
  datatype Certificate = Certificate(chain: seq<seq<bv8>>)

  /** x509.CertPool: the certificates it trusts. */
  datatype CertPool = CertPool(certs: seq<Certificate>)

  /** tls.Config, restricted to the two fields the pipeline fills in; a nil RootCAs is None. */
  datatype TlsContext = TlsContext(certificates: seq<Certificate>, rootCAs: Option<CertPool>)
}
