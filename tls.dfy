/** tlsconfig.go: building the client's tls.Config from three base64-encoded PEM texts held
    under the provider's `tls` subtree. */
module Tls {
  import opened Wrappers
  import opened Strings
  import opened Errors
  import opened Crypto
  import opened Viper
  import opened EnvBinder

  const KeyRootTLS := "tls"

  /** TLSConfig: the three encoded inputs. */
  datatype TLSConfig = TLSConfig(ca: string, clientPem: string, clientKey: string)

  /** RootTLS: TLSConfig nested under the `tls` key. */
  datatype RootTLS = RootTLS(tls: TLSConfig)

  /** The field tree reflection yields for RootTLS{} (no mapstructure tags). */
  const RootTLSSchema: seq<SchemaField> :=
    [SchemaField("TLS", None, Struct([
       SchemaField("CA", None, Leaf),
       SchemaField("ClientPem", None, Leaf),
       SchemaField("ClientKey", None, Leaf)]))]

  /** Library code the assembly calls and that is not part of this model. */
  datatype TlsLibraries = TlsLibraries(
    /** v.Unmarshal(&tlsCfg) over the provider's values. */
    unmarshal: Store -> Result<RootTLS, string>,
    /** base64.StdEncoding.DecodeString, the decoded bytes read as text. */
    decodeBase64: string -> Result<string, string>,
    /** tls.X509KeyPair(certPEM, keyPEM). */
    x509KeyPair: (string, string) -> Result<Certificate, string>,
    /** The certificates AppendCertsFromPEM finds in a PEM text (possibly none). */
    pemCertificates: string -> seq<Certificate>)

  /** The encoded input of an artifact. */
  function Input(a: Artifact, ca: string, clientCert: string, clientKey: string): string {
    match a
    case CA => ca
    case ClientPem => clientCert
    case ClientKey => clientKey
  }

  /** The position of an artifact in the decoding order. */
  function Rank(a: Artifact): nat {
    match a
    case CA => 0
    case ClientPem => 1
    case ClientKey => 2
  }

  /** tlsConfigFromCerts: the key-pair parse decides success and its error is returned as is;
      on success the config holds exactly that one certificate and a pool built from the CA
      text, whose contents never cause a failure. */
  function TlsConfigFromCerts(ca: string, clientCert: string, clientKey: string, libs: TlsLibraries)
    : (r: Result<TlsContext, Error>)
    ensures r.Ok? <==> libs.x509KeyPair(clientCert, clientKey).Ok?
    ensures r.Err? ==> r.error == Foreign(libs.x509KeyPair(clientCert, clientKey).error)
    ensures r.Ok? ==> r.value.certificates == [libs.x509KeyPair(clientCert, clientKey).value]
    ensures r.Ok? ==> r.value.rootCAs == Some(CertPool(libs.pemCertificates(ca)))
  {
    match libs.x509KeyPair(clientCert, clientKey)
    case Err(e) => Err(Foreign(e))
    case Ok(cert) =>
      // x509.NewCertPool() starts empty; AppendCertsFromPEM's boolean result is ignored
      var pool := CertPool(libs.pemCertificates(ca));
      Ok(TlsContext([cert], Some(pool)))
  }

  /** tlsConfigFromEncodedCerts: decodes CA, client certificate and client key in that order;
      the first failing decode is the error, and it names its artifact; when all three decode
      the result is tlsConfigFromCerts of the decoded texts. */
  function TlsConfigFromEncodedCerts(ca: string, clientCert: string, clientKey: string, libs: TlsLibraries)
    : (r: Result<TlsContext, Error>)
    ensures r.Err? && r.error.CertDecode? ==>
      var a := r.error.artifact;
      && libs.decodeBase64(Input(a, ca, clientCert, clientKey)) == Err(r.error.cause)
      && forall b :: Rank(b) < Rank(a) ==> libs.decodeBase64(Input(b, ca, clientCert, clientKey)).Ok?
    ensures libs.decodeBase64(ca).Ok? && libs.decodeBase64(clientCert).Ok? && libs.decodeBase64(clientKey).Ok? ==>
      r == TlsConfigFromCerts(libs.decodeBase64(ca).value, libs.decodeBase64(clientCert).value,
                              libs.decodeBase64(clientKey).value, libs)
    ensures (exists a :: libs.decodeBase64(Input(a, ca, clientCert, clientKey)).Err?) ==>
      r.Err? && r.error.CertDecode?
  {
    match libs.decodeBase64(ca)
    case Err(e) => Err(CertDecode(CA, e))
    case Ok(decodedCA) =>
      match libs.decodeBase64(clientCert)
      case Err(e) => Err(CertDecode(ClientPem, e))
      case Ok(decodedClientPem) =>
        match libs.decodeBase64(clientKey)
        case Err(e) => Err(CertDecode(ClientKey, e))
        case Ok(decodedClientKey) => TlsConfigFromCerts(decodedCA, decodedClientPem, decodedClientKey, libs)
  }

  /** tlsConfigFromViper: an unmarshal failure is reported before any decoding; a failure of
      the assembly is wrapped; otherwise the assembled config is returned. */
  function TlsConfigFromViper(s: Store, libs: TlsLibraries): (r: Result<TlsContext, Error>)
    ensures libs.unmarshal(s).Err? ==> r == Err(Decode(libs.unmarshal(s).error))
    ensures libs.unmarshal(s).Ok? ==>
      var t := libs.unmarshal(s).value.tls;
      var assembled := TlsConfigFromEncodedCerts(t.ca, t.clientPem, t.clientKey, libs);
      && (r.Ok? <==> assembled.Ok?)
      && (r.Ok? ==> r.value == assembled.value)
      && (r.Err? ==> r.error == CertsFailed(assembled.error))
  {
    match libs.unmarshal(s)
    case Err(e) => Err(Decode(e))
    case Ok(tlsCfg) =>
      match TlsConfigFromEncodedCerts(tlsCfg.tls.ca, tlsCfg.tls.clientPem, tlsCfg.tls.clientKey, libs)
      case Err(e) => Err(CertsFailed(e))
      case Ok(cfg) => Ok(cfg)
  }

  /** With a decoder that maps the empty text to the empty text, as Go's standard base64
      decoder does, an empty field is just one more field that decodes. So when every field
      is empty or otherwise decodable, no decode error can occur. Success is then decided by
      the key pair alone, whatever the CA text, and the only possible error is the key-pair
      parse's, returned verbatim. */
  lemma EmptyFieldsReachKeyPairParse(ca: string, clientCert: string, clientKey: string, libs: TlsLibraries)
    requires libs.decodeBase64("") == Ok("")
    requires forall a :: Input(a, ca, clientCert, clientKey) == "" || libs.decodeBase64(Input(a, ca, clientCert, clientKey)).Ok?
    ensures libs.decodeBase64(ca).Ok? && libs.decodeBase64(clientCert).Ok? && libs.decodeBase64(clientKey).Ok?
    ensures var r := TlsConfigFromEncodedCerts(ca, clientCert, clientKey, libs);
      var pair := libs.x509KeyPair(libs.decodeBase64(clientCert).value, libs.decodeBase64(clientKey).value);
      && (r.Ok? <==> pair.Ok?)
      && (r.Err? ==> r.error == Foreign(pair.error))
  {
    assert Input(CA, ca, clientCert, clientKey) == ca;
    assert Input(ClientPem, ca, clientCert, clientKey) == clientCert;
    assert Input(ClientKey, ca, clientCert, clientKey) == clientKey;
  }

  /** A failing decode makes the later inputs irrelevant: they are never decoded. */
  lemma {:induction false} LaterInputsIgnored(a: Artifact, ca: string, clientCert: string, clientKey: string,
                                              other: string, libs: TlsLibraries)
    requires libs.decodeBase64(Input(a, ca, clientCert, clientKey)).Err?
    ensures Rank(a) == 0 ==>
      TlsConfigFromEncodedCerts(ca, clientCert, clientKey, libs) == TlsConfigFromEncodedCerts(ca, other, other, libs)
    ensures Rank(a) == 1 ==>
      TlsConfigFromEncodedCerts(ca, clientCert, clientKey, libs) == TlsConfigFromEncodedCerts(ca, clientCert, other, libs)
  {
  }

  /** A failing decode produces an error that names its artifact. */
  lemma DecodeErrorNamesArtifact(ca: string, clientCert: string, clientKey: string, libs: TlsLibraries)
    requires TlsConfigFromEncodedCerts(ca, clientCert, clientKey, libs).Err?
    requires TlsConfigFromEncodedCerts(ca, clientCert, clientKey, libs).error.CertDecode?
    ensures var e := TlsConfigFromEncodedCerts(ca, clientCert, clientKey, libs).error;
      Contains(Message(e), ArtifactName(e.artifact))
  {
    var e := TlsConfigFromEncodedCerts(ca, clientCert, clientKey, libs).error;
    CertDecodeNamesArtifact(e.artifact, e.cause);
  }

  /** Whether assembly succeeds does not depend on the CA text: an unparseable CA leaves an
      empty pool, not an error. */
  lemma CaTextNeverFails(ca1: string, ca2: string, clientCert: string, clientKey: string, libs: TlsLibraries)
    ensures TlsConfigFromCerts(ca1, clientCert, clientKey, libs).Ok? == TlsConfigFromCerts(ca2, clientCert, clientKey, libs).Ok?
    ensures TlsConfigFromCerts(ca1, clientCert, clientKey, libs).Ok? ==>
      TlsConfigFromCerts(ca1, clientCert, clientKey, libs).value.certificates
        == TlsConfigFromCerts(ca2, clientCert, clientKey, libs).value.certificates
  {
  }

  /** An unmarshal failure stops tlsConfigFromViper before any decoding or parsing. */
  lemma UnmarshalFailureSkipsDecoding(s: Store, libs: TlsLibraries,
                                      decode: string -> Result<string, string>,
                                      keyPair: (string, string) -> Result<Certificate, string>)
    requires libs.unmarshal(s).Err?
    ensures TlsConfigFromViper(s, libs) == TlsConfigFromViper(s, libs.(decodeBase64 := decode, x509KeyPair := keyPair))
  {
  }

  /** The paths of a struct field holding three non-struct fields. */
  lemma PathsOfStructOfThree(outer: SchemaField, a: SchemaField, b: SchemaField, c: SchemaField)
    requires outer.kind == Struct([a, b, c])
    requires a.kind == Leaf && b.kind == Leaf && c.kind == Leaf
    ensures LeafPaths([outer], []) ==
      [[Segment(outer), Segment(a)], [Segment(outer), Segment(b)], [Segment(outer), Segment(c)]]
  {
    var top := [Segment(outer)];
    assert [c][1..] == [] && [b, c][1..] == [c] && [a, b, c][1..] == [b, c] && [outer][1..] == [];
    assert LeafPaths([c], top) == [top + [Segment(c)]];
    assert LeafPaths([b, c], top) == [top + [Segment(b)]] + LeafPaths([c], top);
    assert LeafPaths([a, b, c], top) == [top + [Segment(a)]] + LeafPaths([b, c], top);
    assert [] + top == top && [outer][0] == outer;
    assert LeafPaths([outer], []) == LeafPaths([a, b, c], top) + LeafPaths([], []);
    assert top + [Segment(a)] == [Segment(outer), Segment(a)];
    assert top + [Segment(b)] == [Segment(outer), Segment(b)];
    assert top + [Segment(c)] == [Segment(outer), Segment(c)];
  }

  /** The segment lists of RootTLS{}, in binding order. */
  lemma RootTLSPaths()
    ensures LeafPaths(RootTLSSchema, []) == [["tls", "ca"], ["tls", "clientpem"], ["tls", "clientkey"]]
  {
    var outer := RootTLSSchema[0];
    var fields := outer.kind.fields;
    PathsOfStructOfThree(outer, fields[0], fields[1], fields[2]);
    assert Lower("TLS") == "tls" && Lower("CA") == "ca";
    assert Lower("ClientPem") == "clientpem" && Lower("ClientKey") == "clientkey";
  }

  /** Binding RootTLS{} registers exactly the keys of the three inputs. */
  lemma RootTLSKeys()
    ensures EnvKeys(RootTLSSchema, []) == {"tls.ca", "tls.clientpem", "tls.clientkey"}
  {
    RootTLSPaths();
    var ca, pem, key := ["tls", "ca"], ["tls", "clientpem"], ["tls", "clientkey"];
    assert Lower(Join(ca, ".")) == "tls.ca";
    assert Lower(Join(pem, ".")) == "tls.clientpem";
    assert Lower(Join(key, ".")) == "tls.clientkey";
    KeysOfThree(ca, pem, key);
  }

  lemma KeysOfThree(p: seq<string>, q: seq<string>, r: seq<string>)
    ensures (set x | x in [p, q, r] :: Lower(Join(x, "."))) ==
      {Lower(Join(p, ".")), Lower(Join(q, ".")), Lower(Join(r, "."))}
  {
  }
}
