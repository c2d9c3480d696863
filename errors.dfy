/** The errors the pipeline returns. Go builds them with fmt.Errorf; the model keeps their
    structure as a datatype and renders the same text with Message. */
module Errors {
  import opened Strings

  /** The three base64-encoded TLS inputs, in the order they are decoded. */
  datatype Artifact = CA | ClientPem | ClientKey

  function ArtifactName(a: Artifact): string {
    match a
    case CA => "tls CA"
    case ClientPem => "tls Client Pem"
    case ClientKey => "tls Client Key"
  }

  datatype Error =
    | UnsupportedScramGenerator(name: string)       // saramaviper.go:87
    | VersionParse(version: string, cause: string)  // saramaviper.go:106
    | Decode(cause: string)                         // saramaviper.go:46, tlsconfig.go:32
    | CertDecode(artifact: Artifact, cause: string) // tlsconfig.go:48, 54, 60
    | Foreign(message: string)                      // a library error returned verbatim
    | CertsFailed(inner: Error)                     // tlsconfig.go:38
    | TlsFailed(inner: Error)                       // saramaviper.go:122
    | ScramGeneratorFailed(inner: Error)            // saramaviper.go:32
    | VersionFailed(inner: Error)                   // saramaviper.go:38
    | TlsDecodeFailed(inner: Error)                 // saramaviper.go:58
    | ValidationFailed(cause: string)               // saramaviper.go:66

  /** An error that only adds context in front of another error's text. */
  predicate IsWrapper(e: Error) {
    e.CertsFailed? || e.TlsFailed? || e.ScramGeneratorFailed? || e.VersionFailed? || e.TlsDecodeFailed?
  }

  /** The text Go's `err.Error()` yields. */
  function Message(e: Error): string {
    match e
    case UnsupportedScramGenerator(name) =>
      "unsupported scram generator function " + name + ", only SHA256 and SHA512 values allowed"
    case VersionParse(version, cause) => "failed parsing version " + version + " with error " + cause
    case Decode(cause) => "unable to decode into struct, " + cause
    case CertDecode(artifact, cause) => "failed decoding " + ArtifactName(artifact) + " with error " + cause
    case Foreign(message) => message
    case CertsFailed(inner) => "failed decoding certs with error " + Message(inner)
    case TlsFailed(inner) => "failed configuring TLS with error " + Message(inner)
    case ScramGeneratorFailed(inner) => "failed parsing scram generator func with error " + Message(inner)
    case VersionFailed(inner) => "failed parsing version with error " + Message(inner)
    case TlsDecodeFailed(inner) => "unable to decode tls with error, " + Message(inner)
    case ValidationFailed(cause) => "failed validating sarama config with error " + cause
  }

  /** The unsupported-generator error names the offending value. */
  lemma UnsupportedGeneratorNamesValue(name: string)
    ensures Contains(Message(UnsupportedScramGenerator(name)), name)
  {
    ContainsInMiddle("unsupported scram generator function ", name, ", only SHA256 and SHA512 values allowed");
  }

  /** The version error names the text that failed to parse. */
  lemma VersionParseNamesValue(version: string, cause: string)
    ensures Contains(Message(VersionParse(version, cause)), version)
  {
    ContainsInMiddle("failed parsing version ", version, " with error " + cause);
    assert "failed parsing version " + version + (" with error " + cause)
        == "failed parsing version " + version + " with error " + cause;
  }

  /** A base64 failure names the artifact that failed. */
  lemma CertDecodeNamesArtifact(a: Artifact, cause: string)
    ensures Contains(Message(CertDecode(a, cause)), ArtifactName(a))
  {
    ContainsInMiddle("failed decoding ", ArtifactName(a), " with error " + cause);
    assert "failed decoding " + ArtifactName(a) + (" with error " + cause)
        == "failed decoding " + ArtifactName(a) + " with error " + cause;
  }

  /** Wrapping keeps the wrapped error's text, so whatever it names the wrapper names too. */
  lemma WrapperKeepsInnerText(e: Error, part: string)
    requires IsWrapper(e) && Contains(Message(e.inner), part)
    ensures Contains(Message(e), part)
  {
    match e
    case CertsFailed(inner) => ContainsAfterPrefix("failed decoding certs with error ", Message(inner), part);
    case TlsFailed(inner) => ContainsAfterPrefix("failed configuring TLS with error ", Message(inner), part);
    case ScramGeneratorFailed(inner) =>
      ContainsAfterPrefix("failed parsing scram generator func with error ", Message(inner), part);
    case VersionFailed(inner) => ContainsAfterPrefix("failed parsing version with error ", Message(inner), part);
    case TlsDecodeFailed(inner) => ContainsAfterPrefix("unable to decode tls with error, ", Message(inner), part);
  }
}
