/** saramaviper.go: resolving a *sarama.Config from the provider. The SCRAM generator and the
    version are resolved first and written back into the provider, then the provider is decoded
    into the config, the SCRAM factory and the TLS config are attached, and the result is
    validated; the first failing step ends the run. */
module SaramaViper {
  import opened Wrappers
  import opened Strings
  import opened Errors
  import opened Crypto
  import opened Sarama
  import opened Viper
  import opened EnvBinder
  import opened Tls

  const KeyScramClientGenerator := "net.sasl.scramclientgeneratorfunc"
  const KeyVersion := "version"
  const NameSHA256 := "SHA256"
  const NameSHA512 := "SHA512"

  /** Library code the pipeline calls and that is not part of this model. */
  datatype Libraries = Libraries(
    /** The field tree reflection yields for *sarama.NewConfig(). */
    configSchema: seq<SchemaField>,
    /** sarama.NewConfig(): the defaults the decode starts from. */
    newConfig: SaramaConfig,
    /** v.Unmarshal(&cfg): decodes the provider's values over the defaults. */
    unmarshal: (SaramaConfig, Store) -> Result<SaramaConfig, string>,
    /** sarama.ParseKafkaVersion. */
    parseKafkaVersion: string -> Result<KafkaVersion, string>,
    /** (*sarama.Config).Validate: None when the config is valid, else the error text. */
    validate: SaramaConfig -> Option<string>,
    tls: TlsLibraries)

  /** The switch of parseHashGeneratorFunc: exactly "SHA256" and exactly "SHA512" select a
      hash, compared case-sensitively; any other text selects none. */
  function HashGeneratorNamed(name: string): (r: Option<HashGenerator>)
    ensures r == Some(SHA256) <==> name == NameSHA256
    ensures r == Some(SHA512) <==> name == NameSHA512
  {
    if name == NameSHA256 then Some(SHA256)
    else if name == NameSHA512 then Some(SHA512)
    else None
  }

  datatype GeneratorOutcome = GeneratorOutcome(result: Result<Option<HashGenerator>, Error>, store: Store)

  /** What parseHashGeneratorFunc returns and leaves in the provider. An unset key yields no
      generator and no change; a recognised name yields its hash and clears the key, leaving
      every other key as it was; any other value is an error naming it, and the key stays. */
  function ScramGeneratorStep(s: Store): (r: GeneratorOutcome)
    ensures r.result == Ok(None) <==> !IsSetIn(s, KeyScramClientGenerator)
    ensures r.result == Ok(None) ==> r.store == s
    ensures (r.result.Ok? && r.result.value.Some?) <==>
      && IsSetIn(s, KeyScramClientGenerator)
      && (GetStringIn(s, KeyScramClientGenerator) == NameSHA256 || GetStringIn(s, KeyScramClientGenerator) == NameSHA512)
    ensures r.result.Ok? && r.result.value.Some? ==>
      && r.result.value == HashGeneratorNamed(GetStringIn(s, KeyScramClientGenerator))
      && !IsSetIn(r.store, KeyScramClientGenerator)
      && forall k :: Lower(k) != Lower(KeyScramClientGenerator) ==> Lookup(r.store, k) == Lookup(s, k)
    ensures r.result.Err? ==>
      r.result.error == UnsupportedScramGenerator(GetStringIn(s, KeyScramClientGenerator)) && r.store == s
  {
    if !IsSetIn(s, KeyScramClientGenerator) then GeneratorOutcome(Ok(None), s)
    else
      var name := GetStringIn(s, KeyScramClientGenerator);
      match HashGeneratorNamed(name)
      case None => GeneratorOutcome(Err(UnsupportedScramGenerator(name)), s)
      case Some(h) => GeneratorOutcome(Ok(Some(h)), SetIn(s, KeyScramClientGenerator, Null))
  }

  datatype VersionOutcome = VersionOutcome(error: Option<Error>, store: Store)

  /** What parseVersion returns and leaves in the provider. An unset key is a no-op; a text
      the parser rejects (including the text of a non-string value) is an error naming it and
      the key stays; otherwise the key holds the parsed version. No other key changes. */
  function VersionStep(s: Store, parse: string -> Result<KafkaVersion, string>): (r: VersionOutcome)
    ensures !IsSetIn(s, KeyVersion) ==> r == VersionOutcome(None, s)
    ensures r.error.Some? <==> IsSetIn(s, KeyVersion) && parse(GetStringIn(s, KeyVersion)).Err?
    ensures r.error.Some? ==>
      && r.error.value == VersionParse(GetStringIn(s, KeyVersion), parse(GetStringIn(s, KeyVersion)).error)
      && r.store == s
    ensures IsSetIn(s, KeyVersion) && parse(GetStringIn(s, KeyVersion)).Ok? ==>
      Lookup(r.store, KeyVersion) == Version(parse(GetStringIn(s, KeyVersion)).value)
    ensures forall k :: Lower(k) != Lower(KeyVersion) ==> Lookup(r.store, k) == Lookup(s, k)
  {
    if !IsSetIn(s, KeyVersion) then VersionOutcome(None, s)
    else
      var version := GetStringIn(s, KeyVersion);
      match parse(version)
      case Err(e) => VersionOutcome(Some(VersionParse(version, e)), s)
      case Ok(kafkaVersion) => VersionOutcome(None, SetIn(s, KeyVersion, Version(kafkaVersion)))
  }

  /** What parseTLS returns. Without a `tls` entry in the settings there is no TLS config and
      no error; a config is only built from a present `tls` subtree and then holds exactly one
      certificate and a root pool; a failure is wrapped. */
  function TlsStep(s: Store, libs: TlsLibraries): (r: Result<Option<TlsContext>, Error>)
    ensures KeyRootTLS !in TopLevelKeys(s) ==> r == Ok(None)
    ensures r.Ok? && r.value.Some? ==>
      && KeyRootTLS in TopLevelKeys(s)
      && |r.value.value.certificates| == 1
      && r.value.value.rootCAs.Some?
    ensures r.Err? ==>
      && KeyRootTLS in TopLevelKeys(s)
      && TlsConfigFromViper(s, libs).Err?
      && r.error == TlsFailed(TlsConfigFromViper(s, libs).error)
    ensures KeyRootTLS in TopLevelKeys(s) ==>
      && (r.Ok? <==> TlsConfigFromViper(s, libs).Ok?)
      && (r.Ok? ==> r.value == Some(TlsConfigFromViper(s, libs).value))
  {
    if KeyRootTLS !in TopLevelKeys(s) then Ok(None)
    else
      match TlsConfigFromViper(s, libs)
      case Err(e) => Err(TlsFailed(e))
      case Ok(tlsConfig) => Ok(Some(tlsConfig))
  }

  /** `cfg.Net.SASL.SCRAMClientGeneratorFunc = ...` when a generator was resolved. */
  function WithScramFactory(c: SaramaConfig, generator: Option<HashGenerator>): SaramaConfig {
    if generator.Some? then c.(net := c.net.(sasl := c.net.sasl.(scramClientGeneratorFunc := generator))) else c
  }

  /** `cfg.Net.TLS.Config = tlsConfig` when a TLS config was built. */
  function WithTlsConfig(c: SaramaConfig, tlsConfig: Option<TlsContext>): SaramaConfig {
    if tlsConfig.Some? then c.(net := c.net.(tls := c.net.tls.(config := tlsConfig))) else c
  }

  /** The decode-and-assemble half of newSaramaConfigFromViper, over the provider's values once
      the generator and the version have been resolved. */
  function Assembled(resolved: Store, libs: Libraries, generator: Option<HashGenerator>): Result<SaramaConfig, Error> {
    match libs.unmarshal(libs.newConfig, resolved)
    case Err(e) => Err(Decode(e))
    case Ok(decoded) =>
      var cfg := WithScramFactory(decoded, generator);
      match TlsStep(resolved, libs.tls)
      case Err(e) => Err(TlsDecodeFailed(e))
      case Ok(tlsConfig) =>
        var assembled := WithTlsConfig(cfg, tlsConfig);
        match libs.validate(assembled)
        case Some(e) => Err(ValidationFailed(e))
        case None => Ok(assembled)
  }

  /** The outcome of newSaramaConfigFromViper and the provider's values afterwards. */
  datatype Resolution = Resolution(result: Result<SaramaConfig, Error>, store: Store)

  function Resolve(s: Store, libs: Libraries): Resolution {
    var generator := ScramGeneratorStep(s);
    if generator.result.Err? then Resolution(Err(ScramGeneratorFailed(generator.result.error)), generator.store)
    else
      var version := VersionStep(generator.store, libs.parseKafkaVersion);
      if version.error.Some? then Resolution(Err(VersionFailed(version.error.value)), version.store)
      else Resolution(Assembled(version.store, libs, generator.result.value), version.store)
  }

  /** parseHashGeneratorFunc. */
  method ParseHashGeneratorFunc(v: Provider) returns (r: Result<Option<HashGenerator>, Error>)
    modifies v`values
    ensures r == ScramGeneratorStep(old(v.values)).result
    ensures v.values == ScramGeneratorStep(old(v.values)).store
  {
    if !v.IsSet(KeyScramClientGenerator) {
      return Ok(None);
    }
    var generator: HashGenerator;
    var name := v.GetString(KeyScramClientGenerator);
    if name == NameSHA256 {
      generator := SHA256;
    } else if name == NameSHA512 {
      generator := SHA512;
    } else {
      return Err(UnsupportedScramGenerator(name));
    }
    v.Set(KeyScramClientGenerator, Null);
    return Ok(Some(generator));
  }

  /** parseVersion. */
  method ParseVersion(v: Provider, parse: string -> Result<KafkaVersion, string>) returns (err: Option<Error>)
    modifies v`values
    ensures err == VersionStep(old(v.values), parse).error
    ensures v.values == VersionStep(old(v.values), parse).store
  {
    if !v.IsSet(KeyVersion) {
      return None;
    }
    var version := v.GetString(KeyVersion);
    var kafkaVersion := parse(version);
    if kafkaVersion.Err? {
      return Some(VersionParse(version, kafkaVersion.error));
    }
    v.Set(KeyVersion, Version(kafkaVersion.value));
    return None;
  }

  /** parseTLS: reads the provider and changes nothing. */
  method ParseTLS(v: Provider, libs: TlsLibraries) returns (r: Result<Option<TlsContext>, Error>)
    ensures r == TlsStep(v.values, libs)
  {
    if KeyRootTLS !in v.AllSettingsKeys() {
      return Ok(None);
    }
    var tlsConfig := TlsConfigFromViper(v.values, libs);
    if tlsConfig.Err? {
      return Err(TlsFailed(tlsConfig.error));
    }
    return Ok(Some(tlsConfig.value));
  }

  /** newSaramaConfigFromViper: binds the keys of both schemas, then runs the steps in order;
      the provider ends with the values Resolve describes and a fresh config is returned only
      when no step failed. */
  method NewSaramaConfigFromViper(v: Provider, libs: Libraries) returns (r: Result<Config, Error>)
    modifies v
    ensures v.values == Resolve(old(v.values), libs).store
    ensures v.bound == old(v.bound) + EnvKeys(libs.configSchema, []) + EnvKeys(RootTLSSchema, [])
    ensures r.Err? <==> Resolve(old(v.values), libs).result.Err?
    ensures r.Err? ==> r.error == Resolve(old(v.values), libs).result.error
    ensures r.Ok? ==> fresh(r.value) && r.value.Snapshot() == Resolve(old(v.values), libs).result.value
  {
    BindEnvs(v, libs.configSchema, []);
    BindEnvs(v, RootTLSSchema, []);
    // SetEnvKeyReplacer only affects the environment lookup, which is not modelled.

    var hashGeneratorFn := ParseHashGeneratorFunc(v);
    if hashGeneratorFn.Err? {
      return Err(ScramGeneratorFailed(hashGeneratorFn.error));
    }

    var versionErr := ParseVersion(v, libs.parseKafkaVersion);
    if versionErr.Some? {
      return Err(VersionFailed(versionErr.value));
    }

    r := AssembleConfig(v, libs, hashGeneratorFn.value);
  }

  /** The decode-and-assemble half of newSaramaConfigFromViper: reads the provider, builds a
      fresh config, and changes nothing else. */
  method AssembleConfig(v: Provider, libs: Libraries, generator: Option<HashGenerator>) returns (r: Result<Config, Error>)
    ensures r.Err? <==> Assembled(v.values, libs, generator).Err?
    ensures r.Err? ==> r.error == Assembled(v.values, libs, generator).error
    ensures r.Ok? ==> fresh(r.value) && r.value.Snapshot() == Assembled(v.values, libs, generator).value
  {
    var decoded := libs.unmarshal(libs.newConfig, v.values);
    if decoded.Err? {
      return Err(Decode(decoded.error));
    }
    var cfg := new Config(decoded.value);

    if generator.Some? {
      cfg.net := cfg.net.(sasl := cfg.net.sasl.(scramClientGeneratorFunc := generator));
    }

    var tlsConfig := ParseTLS(v, libs.tls);
    if tlsConfig.Err? {
      return Err(TlsDecodeFailed(tlsConfig.error));
    }

    if tlsConfig.value.Some? {
      cfg.net := cfg.net.(tls := cfg.net.tls.(config := tlsConfig.value));
    }

    var invalid := libs.validate(cfg.Snapshot());
    if invalid.Some? {
      return Err(ValidationFailed(invalid.value));
    }
    return Ok(cfg);
  }

  // ---------------------------------------------------------------------------------------
  // Properties of the pipeline

  /** A reported error names the first step that failed: every step before it succeeded. */
  lemma ErrorNamesFirstFailingStep(s: Store, libs: Libraries)
    ensures var g := ScramGeneratorStep(s); var r := Resolve(s, libs);
      r.result.Err? ==> match r.result.error
        case ScramGeneratorFailed(_) => g.result.Err?
        case VersionFailed(_) =>
          g.result.Ok? && VersionStep(g.store, libs.parseKafkaVersion).error.Some?
        case Decode(_) =>
          && g.result.Ok? && VersionStep(g.store, libs.parseKafkaVersion).error.None?
          && libs.unmarshal(libs.newConfig, r.store).Err?
        case TlsDecodeFailed(_) =>
          && g.result.Ok? && VersionStep(g.store, libs.parseKafkaVersion).error.None?
          && libs.unmarshal(libs.newConfig, r.store).Ok?
          && TlsStep(r.store, libs.tls).Err?
        case ValidationFailed(_) =>
          && g.result.Ok? && VersionStep(g.store, libs.parseKafkaVersion).error.None?
          && libs.unmarshal(libs.newConfig, r.store).Ok?
          && TlsStep(r.store, libs.tls).Ok?
          && libs.validate(WithTlsConfig(WithScramFactory(libs.unmarshal(libs.newConfig, r.store).value,
                                                          g.result.value), TlsStep(r.store, libs.tls).value)).Some?
        case _ => false
  {
  }

  /** An unsupported generator ends the run before anything else is consulted, and leaves the
      provider untouched. */
  lemma ScramFailureStopsPipeline(s: Store, libs: Libraries, other: Libraries)
    requires ScramGeneratorStep(s).result.Err?
    ensures Resolve(s, libs) == Resolve(s, other)
    ensures Resolve(s, libs).store == s
  {
  }

  /** A version the parser rejects ends the run before decoding, TLS and validation. */
  lemma VersionFailureStopsPipeline(s: Store, libs: Libraries, newConfig: SaramaConfig,
                                    unmarshal: (SaramaConfig, Store) -> Result<SaramaConfig, string>,
                                    validate: SaramaConfig -> Option<string>, tls: TlsLibraries)
    requires ScramGeneratorStep(s).result.Ok?
    requires VersionStep(ScramGeneratorStep(s).store, libs.parseKafkaVersion).error.Some?
    ensures Resolve(s, libs).result.Err? && Resolve(s, libs).result.error.VersionFailed?
    ensures Resolve(s, libs) ==
            Resolve(s, libs.(newConfig := newConfig, unmarshal := unmarshal, validate := validate, tls := tls))
  {
  }

  /** A decode failure ends the run before TLS and validation. */
  lemma DecodeFailureSkipsTlsAndValidation(s: Store, libs: Libraries,
                                           validate: SaramaConfig -> Option<string>, tls: TlsLibraries)
    requires Resolve(s, libs).result.Err? && Resolve(s, libs).result.error.Decode?
    ensures Resolve(s, libs) == Resolve(s, libs.(validate := validate, tls := tls))
  {
  }

  /** A TLS failure ends the run before validation. */
  lemma TlsFailureSkipsValidation(s: Store, libs: Libraries, validate: SaramaConfig -> Option<string>)
    requires Resolve(s, libs).result.Err? && Resolve(s, libs).result.error.TlsDecodeFailed?
    ensures Resolve(s, libs) == Resolve(s, libs.(validate := validate))
  {
  }

  /** The run writes back only the generator key and the version key; after a successful run
      the generator key reads as unset and a version that was given holds its parsed form. */
  lemma ResolveTouchesOnlyResolvedKeys(s: Store, libs: Libraries)
    ensures forall k :: Lower(k) != Lower(KeyScramClientGenerator) && Lower(k) != Lower(KeyVersion) ==>
      Lookup(Resolve(s, libs).store, k) == Lookup(s, k)
    ensures Resolve(s, libs).result.Ok? ==>
      && !IsSetIn(Resolve(s, libs).store, KeyScramClientGenerator)
      && (IsSetIn(s, KeyVersion) ==>
            && libs.parseKafkaVersion(GetStringIn(s, KeyVersion)).Ok?
            && Lookup(Resolve(s, libs).store, KeyVersion) == Version(libs.parseKafkaVersion(GetStringIn(s, KeyVersion)).value))
  {
    var g := ScramGeneratorStep(s);
    assert Lower(KeyVersion) != Lower(KeyScramClientGenerator) by {
      assert |Lower(KeyVersion)| != |Lower(KeyScramClientGenerator)|;
    }
    if g.result.Ok? {
      assert Lookup(g.store, KeyVersion) == Lookup(s, KeyVersion);
    }
  }

  /** A version the step wrote back reads as its String form; when the parser accepts that
      form as the same version, running the step again changes nothing. This is what a
      second run over the same provider, or a version given as a KafkaVersion value, meets. */
  lemma VersionStepRerun(s: Store, parse: string -> Result<KafkaVersion, string>)
    requires IsSetIn(s, KeyVersion) && parse(GetStringIn(s, KeyVersion)).Ok?
    requires parse(VersionText(parse(GetStringIn(s, KeyVersion)).value)) == parse(GetStringIn(s, KeyVersion))
    ensures VersionStep(s, parse).error.None?
    ensures GetStringIn(VersionStep(s, parse).store, KeyVersion) == VersionText(parse(GetStringIn(s, KeyVersion)).value)
    ensures VersionStep(VersionStep(s, parse).store, parse) == VersionStep(s, parse)
  {
    var v := parse(GetStringIn(s, KeyVersion)).value;
    var once := SetIn(s, KeyVersion, Version(v));
    SetThenRead(s, KeyVersion, Version(v), KeyVersion);
    assert SetIn(once, KeyVersion, Version(v)) == once;
  }

  /** A non-empty key whose first character is not 't' is not nested under `tls`. */
  lemma NotUnderTls(k: string)
    requires |k| > 0 && k[0] != 't'
    ensures FirstSegment(k) != KeyRootTLS
  {
  }

  /** Setting a key outside the `tls` subtree does not change whether `tls` is among the
      top-level settings. */
  lemma SetOutsideTlsKeepsTlsEntry(s: Store, key: string, value: Value)
    requires FirstSegment(Lower(key)) != KeyRootTLS
    ensures KeyRootTLS in TopLevelKeys(SetIn(s, key, value)) <==> KeyRootTLS in TopLevelKeys(s)
  {
    var r := SetIn(s, key, value);
    if KeyRootTLS in TopLevelKeys(r) {
      var k :| k in r && r[k] != Null && FirstSegment(k) == KeyRootTLS;
      assert k != Lower(key);
      assert k in s && s[k] == r[k];
    }
    if KeyRootTLS in TopLevelKeys(s) {
      var k :| k in s && s[k] != Null && FirstSegment(k) == KeyRootTLS;
      assert k != Lower(key);
      assert k in r && r[k] == s[k];
    }
  }

  /** Resolving the generator and the version never adds or removes the `tls` settings. */
  lemma ResolveKeepsTlsEntry(s: Store, libs: Libraries)
    ensures KeyRootTLS in TopLevelKeys(Resolve(s, libs).store) <==> KeyRootTLS in TopLevelKeys(s)
  {
    var g := ScramGeneratorStep(s);
    if g.result.Ok? && g.result.value.Some? {
      NotUnderTls(Lower(KeyScramClientGenerator));
      SetOutsideTlsKeepsTlsEntry(s, KeyScramClientGenerator, Null);
    }
    if g.result.Ok? && IsSetIn(g.store, KeyVersion) && libs.parseKafkaVersion(GetStringIn(g.store, KeyVersion)).Ok? {
      NotUnderTls(Lower(KeyVersion));
      SetOutsideTlsKeepsTlsEntry(g.store, KeyVersion, Version(libs.parseKafkaVersion(GetStringIn(g.store, KeyVersion)).value));
    }
  }

  /** A successfully resolved config is the decoded config with at most two fields replaced:
      the SCRAM factory, set exactly when a generator was named, and the TLS config, set
      exactly when `tls` settings were given, to one certificate and a root pool. It passed
      validation. */
  lemma ResolvedConfigShape(s: Store, libs: Libraries)
    requires Resolve(s, libs).result.Ok?
    ensures var r := Resolve(s, libs); var g := ScramGeneratorStep(s).result;
      var decoded := libs.unmarshal(libs.newConfig, r.store);
      && g.Ok? && decoded.Ok?
      && libs.validate(r.result.value) == None
      && (g.value.Some? ==> r.result.value.net.sasl.scramClientGeneratorFunc == g.value)
      && (g.value.None? ==>
            r.result.value.net.sasl.scramClientGeneratorFunc == decoded.value.net.sasl.scramClientGeneratorFunc)
      && (KeyRootTLS !in TopLevelKeys(s) ==> r.result.value.net.tls.config == decoded.value.net.tls.config)
      && (KeyRootTLS in TopLevelKeys(s) ==>
            && TlsConfigFromViper(r.store, libs.tls).Ok?
            && r.result.value.net.tls.config == Some(TlsConfigFromViper(r.store, libs.tls).value)
            && r.result.value.net.tls.config.Some?
            && |r.result.value.net.tls.config.value.certificates| == 1
            && r.result.value.net.tls.config.value.rootCAs.Some?)
      && forall f :: f != NetSASLScramClientGeneratorFunc && f != NetTLSConfig ==>
           Get(r.result.value, f) == Get(decoded.value, f)
  {
    ResolveKeepsTlsEntry(s, libs);
  }

  /** An unsupported generator name is reported with the name in the message. */
  lemma UnsupportedGeneratorReported(s: Store, libs: Libraries)
    requires IsSetIn(s, KeyScramClientGenerator)
    requires HashGeneratorNamed(GetStringIn(s, KeyScramClientGenerator)).None?
    ensures Resolve(s, libs).result.Err? && Resolve(s, libs).result.error.ScramGeneratorFailed?
    ensures Contains(Message(Resolve(s, libs).result.error), GetStringIn(s, KeyScramClientGenerator))
  {
    var name := GetStringIn(s, KeyScramClientGenerator);
    UnsupportedGeneratorNamesValue(name);
    WrapperKeepsInnerText(ScramGeneratorFailed(UnsupportedScramGenerator(name)), name);
  }

  /** A version the parser rejects is reported with the version's text in the message. */
  lemma UnparsableVersionReported(s: Store, libs: Libraries)
    requires ScramGeneratorStep(s).result.Ok?
    requires IsSetIn(s, KeyVersion) && libs.parseKafkaVersion(GetStringIn(s, KeyVersion)).Err?
    ensures Resolve(s, libs).result.Err? && Resolve(s, libs).result.error.VersionFailed?
    ensures Contains(Message(Resolve(s, libs).result.error), GetStringIn(s, KeyVersion))
  {
    var g := ScramGeneratorStep(s);
    assert Lower(KeyVersion) != Lower(KeyScramClientGenerator) by {
      assert |Lower(KeyVersion)| != |Lower(KeyScramClientGenerator)|;
    }
    assert Lookup(g.store, KeyVersion) == Lookup(s, KeyVersion);
    var version := GetStringIn(s, KeyVersion);
    var cause := libs.parseKafkaVersion(version).error;
    VersionParseNamesValue(version, cause);
    WrapperKeepsInnerText(VersionFailed(VersionParse(version, cause)), version);
  }

  // ---------------------------------------------------------------------------------------
  // The behaviours the repository's tests exercise, over any library behaviour they rely on

  /** An empty provider resolves to the defaults, with no SCRAM factory when the defaults
      have none. */
  lemma EmptyProviderYieldsDefaults(libs: Libraries)
    requires libs.unmarshal(libs.newConfig, map[]) == Ok(libs.newConfig)
    requires libs.validate(libs.newConfig) == None
    ensures Resolve(map[], libs) == Resolution(Ok(libs.newConfig), map[])
    ensures Resolve(map[], libs).result.value.net.sasl.scramClientGeneratorFunc ==
            libs.newConfig.net.sasl.scramClientGeneratorFunc
  {
    assert TopLevelKeys(map[]) == {};
  }

  /** "SHA256" under the generator key yields a config carrying the SHA-256 factory, and the
      key is cleared before decoding. */
  lemma Sha256GeneratorAttached(libs: Libraries)
    requires libs.unmarshal(libs.newConfig, SetIn(SetIn(map[], KeyScramClientGenerator, Text(NameSHA256)),
                                                  KeyScramClientGenerator, Null)).Ok?
    requires forall c :: libs.validate(c) == None
    ensures var s := SetIn(map[], KeyScramClientGenerator, Text(NameSHA256));
      && Resolve(s, libs).result.Ok?
      && Resolve(s, libs).result.value.net.sasl.scramClientGeneratorFunc == Some(SHA256)
      && !IsSetIn(Resolve(s, libs).store, KeyScramClientGenerator)
  {
    var s := SetIn(map[], KeyScramClientGenerator, Text(NameSHA256));
    var cleared := SetIn(s, KeyScramClientGenerator, Null);
    assert !IsSetIn(cleared, KeyVersion) by {
      assert Lower(KeyVersion) != Lower(KeyScramClientGenerator) by {
        assert |Lower(KeyVersion)| != |Lower(KeyScramClientGenerator)|;
      }
    }
    assert TopLevelKeys(cleared) == {} by {
      assert forall k :: k in cleared ==> cleared[k] == Null;
    }
  }

  /** Any other generator name is rejected. */
  lemma InvalidGeneratorRejected(libs: Libraries)
    ensures Resolve(SetIn(map[], KeyScramClientGenerator, Text("not-valid")), libs).result ==
            Err(ScramGeneratorFailed(UnsupportedScramGenerator("not-valid")))
  {
  }

  /** A version text the parser accepts is written back as the parsed version before decoding. */
  lemma ParsedVersionStored(libs: Libraries, text: string, version: KafkaVersion)
    requires libs.parseKafkaVersion(text) == Ok(version)
    ensures var r := Resolve(SetIn(map[], KeyVersion, Text(text)), libs);
      (r.result.Ok? || !r.result.error.VersionFailed?) && Lookup(r.store, KeyVersion) == Version(version)
  {
    var s := SetIn(map[], KeyVersion, Text(text));
    assert Lower(KeyVersion) != Lower(KeyScramClientGenerator) by {
      assert |Lower(KeyVersion)| != |Lower(KeyScramClientGenerator)|;
    }
    assert !IsSetIn(s, KeyScramClientGenerator);
  }

  /** A numeric version is read as its decimal text, so a parser that rejects "123" makes
      the run fail with "123" in the message. */
  lemma NumericVersionRejected(libs: Libraries)
    requires libs.parseKafkaVersion("123").Err?
    ensures var r := Resolve(SetIn(map[], KeyVersion, Integer(123)), libs);
      r.result.Err? && r.result.error.VersionFailed? && Contains(Message(r.result.error), "123")
  {
    var s := SetIn(map[], KeyVersion, Integer(123));
    assert Lower(KeyVersion) != Lower(KeyScramClientGenerator) by {
      assert |Lower(KeyVersion)| != |Lower(KeyScramClientGenerator)|;
    }
    assert !IsSetIn(s, KeyScramClientGenerator);
    assert GetStringIn(s, KeyVersion) == "123";
    UnparsableVersionReported(s, libs);
  }
}
