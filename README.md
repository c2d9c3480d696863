# saramaconfig, modelled in Dafny

saramaconfig builds a Kafka client configuration (a `*sarama.Config`) from a viper
configuration provider. This project models the three files that hold the package's logic:

- `saramaviper.go`: the resolution pipeline `newSaramaConfigFromViper`. It first registers
  one environment key per leaf field of `sarama.Config` and of the TLS record (`bindEnvs`).
  Then it resolves the SCRAM hash generator and the Kafka version and writes both back into
  the provider. It decodes the provider into the default config, attaches the SCRAM factory
  and an optional TLS config, and validates. The first failing step ends the run with a
  wrapped error.
- `tlsconfig.go`: TLS assembly. The three base64 fields under `tls` are decoded in the
  fixed order CA, client certificate, client key. Then the key pair is parsed and a
  `tls.Config` is built with one certificate and a root pool.
- `saramaconfig.go`: the exported entry point `NewFromViper`, and the functional options
  (`SaramaOpt`), each of which assigns a fixed set of config fields.

Modules:

| module | file | contents |
|---|---|---|
| `Wrappers` | `wrappers.dfy` | Option and Result |
| `Strings` | `strings.dfy` | ASCII lower-casing (`strings.ToLower`), `strings.Join`, `strconv.Itoa`, substring containment |
| `Errors` | `errors.dfy` | every error the package builds, with its exact `fmt.Errorf` text |
| `Crypto` | `crypto.dfy` | hash generators, certificates, cert pools and `tls.Config` as plain data |
| `Sarama` | `sarama.dfy` | the part of `sarama.Config` the package touches: a value type with field-wise `Get`/`Put`, the int32 conversion, and `class Config` for the in-place object |
| `Viper` | `viper.dfy` | the provider as `class Provider`: a flat map of lower-cased dotted keys to values (not viper's nested map) plus the set of bound environment keys |
| `EnvBinder` | `env_binder.dfy` | `bindEnvs` over an explicit field tree that stands in for reflection |
| `Tls` | `tls.dfy` | tlsconfig.go: the TLS records, the three assembly functions and the keys the TLS record binds |
| `SaramaViper` | `sarama_viper.dfy` | the parse steps and the pipeline; each method is specified by a pure function (`ScramGeneratorStep`, `VersionStep`, `TlsStep`, `Resolve`) |
| `Options` | `options.dfy` | the options as a datatype, a table of the assignments each performs, the in-place `Apply`, and the lemmas about options |

Library code that the package calls is passed in as function-valued fields of a record
(`SaramaViper.Libraries`, `Tls.TlsLibraries`), and every property holds for every
behaviour of that code. This covers `sarama.NewConfig`, viper's `Unmarshal`,
`sarama.ParseKafkaVersion`, `Config.Validate`, base64 decoding, `tls.X509KeyPair` and PEM
parsing.

Two behaviours of the code that a reader may not expect:

- An empty TLS field is not a decode failure in Go. The standard base64 decoder maps `""`
  to `""`, so an empty client certificate or key fails later, in the key-pair parse, and an
  empty CA text never fails. The decoder is a parameter of the model; `EmptyFieldsReachKeyPairParse`
  states this outcome for any decoder that maps `""` to `""`.
- A numeric `version` such as 123 is read back through `GetString` as the text "123".

## Model

| member | source | states |
|---|---|---|
| Strings.Lower | saramaviper.go:134 | lower-casing keeps the length, maps each character through ASCII lower-casing, yields text with no upper-case letter, and leaves already lower-case text unchanged |
| Errors.UnsupportedGeneratorNamesValue | saramaviper.go:87 | the unsupported-generator message contains the offending value |
| Errors.VersionParseNamesValue | saramaviper.go:106 | the version-parse message contains the version text |
| Errors.CertDecodeNamesArtifact | tlsconfig.go:48-60 | each decode message names its artifact ("tls CA", "tls Client Pem", "tls Client Key") |
| Errors.WrapperKeepsInnerText | saramaviper.go:32-66 | a wrapping error's message still contains any text of the wrapped message |
| Sarama.Put | saramaconfig.go:21-72 | a field assignment makes that field read the new value and leaves every other field as it was |
| Sarama.Extensionality | saramaconfig.go:17 | two configs that agree on every field are equal |
| Sarama.ToInt32 | saramaconfig.go:36 | Go's `int32(x)` is congruent to x modulo 2^32 and is x itself when x fits |
| Sarama.Config.constructor | saramaviper.go:41 | a new config object holds the given configuration |
| Viper.SetIn | saramaviper.go:91 | in the flat store, `v.Set` makes the key read the new value, leaves every other key (compared case-insensitively) as it was, adds only the lower-cased key, and keeps every stored key lower-cased |
| Viper.GetStringIn | saramaviper.go:79 | `v.GetString` reads an unset key as "", a text as itself and a stored KafkaVersion as its `String` form ("0.m.v.p" for 0.x, else "M.m.v") |
| Viper.SetThenRead | saramaviper.go:101 | a value stored with `Set` reads back through `IsSet` (set iff not nil) and `GetString` under any spelling of the key |
| Viper.FirstSegment | saramaviper.go:115 | the top-level name of a key is a prefix of it, holds no '.', and is followed by a '.' when shorter than the key |
| Viper.TopLevelKeys | saramaviper.go:115 | over a store of lower-cased keys, a name is a key of `AllSettings` iff some key that `IsSet` reports as set has it as its top-level name |
| Viper.Provider.constructor | samaraconfig_test.go:29 | a new provider holds no values and no bound keys |
| Viper.Provider.Set | saramaviper.go:91 | the provider's values become those of `SetIn` |
| Viper.Provider.BindEnv | saramaviper.go:144 | binding adds the lower-cased key to the bound set and no value changes |
| EnvBinder.LeafPaths | saramaviper.go:128-146 | there is one path per leaf field of the tree |
| EnvBinder.LeafPathsAppend | saramaviper.go:131 | the paths of two field lists are the paths of the first followed by those of the second |
| EnvBinder.LeafPathsSound | saramaviper.go:134-145 | every produced path extends the prefix with the segments of a leaf field, where a segment is the tag if present and else the lower-cased name |
| EnvBinder.LeafPathsComplete | saramaviper.go:134-145 | every leaf field's path under the prefix is produced |
| EnvBinder.EnvKeysAppend | saramaviper.go:131-146 | the keys bound for two field lists are the union of the keys for each |
| EnvBinder.BindEnvs | saramaviper.go:128-147 | exactly the joined, lower-cased path of every leaf field is added to the bound keys; struct fields bind nothing themselves and no value changes |
| Tls.TlsConfigFromCerts | tlsconfig.go:66-80 | succeeds iff the key pair parses; a parse error is returned verbatim; a config holds exactly the parsed pair and the pool of the CA's certificates |
| Tls.TlsConfigFromEncodedCerts | tlsconfig.go:44-64 | a decode error names the first artifact that fails, and all earlier ones decoded; if all three decode, the result is `TlsConfigFromCerts` of the decoded texts; if any fails, the result is a decode error |
| Tls.TlsConfigFromViper | tlsconfig.go:26-42 | an unmarshal failure is a decode error; otherwise the result succeeds iff assembly does, and an assembly error is wrapped |
| Tls.EmptyFieldsReachKeyPairParse | tlsconfig.go:44-71 | with a decoder that maps "" to "", empty fields decode like any other: when every field is empty or decodable, success is decided by the key pair alone, whatever the CA text, and the only error is the key-pair parse's, verbatim |
| Tls.LaterInputsIgnored | tlsconfig.go:45-61 | once an artifact fails to decode, the later inputs do not affect the result |
| Tls.DecodeErrorNamesArtifact | tlsconfig.go:48-60 | a decode error's message names the artifact that failed |
| Tls.CaTextNeverFails | tlsconfig.go:73-74 | the CA text never decides success, since the pool's append result is ignored |
| Tls.UnmarshalFailureSkipsDecoding | tlsconfig.go:29-33 | after an unmarshal failure no decode or key-pair parse is consulted |
| Tls.RootTLSPaths | tlsconfig.go:16-24 | the TLS record's leaf paths are `tls.ca`, `tls.clientpem` and `tls.clientkey`, in that order |
| Tls.RootTLSKeys | saramaviper.go:25 | binding the TLS record registers exactly `tls.ca`, `tls.clientpem` and `tls.clientkey` |
| SaramaViper.HashGeneratorNamed | saramaviper.go:81-89 | exactly "SHA256" selects SHA-256 and exactly "SHA512" selects SHA-512 (case-sensitive) |
| SaramaViper.ScramGeneratorStep | saramaviper.go:72-94 | unset key: no generator, no error, no change; a recognised name: its hash, the key cleared to nil, no other key changed; any other value: an error naming it, with the provider unchanged |
| SaramaViper.VersionStep | saramaviper.go:96-112 | unset: no-op; a text the parser rejects: an error naming it, with the provider unchanged; success: the key holds the parsed version; no other key changes |
| SaramaViper.TlsStep | saramaviper.go:114-126 | without `tls` settings: no config and no error; with them: a config iff `TlsConfigFromViper` succeeds, and then exactly the config it built (one certificate and a root pool), otherwise its error wrapped |
| SaramaViper.ParseHashGeneratorFunc | saramaviper.go:72-94 | returns and leaves in the provider what `ScramGeneratorStep` describes |
| SaramaViper.ParseVersion | saramaviper.go:96-112 | returns and leaves in the provider what `VersionStep` describes |
| SaramaViper.ParseTLS | saramaviper.go:114-126 | returns `TlsStep` of the provider's values and changes nothing |
| SaramaViper.AssembleConfig | saramaviper.go:41-69 | decodes, attaches the factory and the TLS config in place, and validates; the fresh config or the first error is as `Assembled` describes |
| SaramaViper.NewSaramaConfigFromViper | saramaviper.go:23-70 | binds the keys of both schemas; the provider's values and the returned config or error are as `Resolve` describes; a config is returned only when no step failed |
| SaramaViper.ErrorNamesFirstFailingStep | saramaviper.go:29-67 | a reported error names the first failing step, in the order generator, version, decode, TLS, validation, and every earlier step succeeded |
| SaramaViper.ScramFailureStopsPipeline | saramaviper.go:29-33 | an unsupported generator ends the run before any library call, with the provider unchanged |
| SaramaViper.VersionFailureStopsPipeline | saramaviper.go:35-39 | a rejected version ends the run before decoding, TLS and validation |
| SaramaViper.DecodeFailureSkipsTlsAndValidation | saramaviper.go:43-47 | a decode failure ends the run before TLS and validation |
| SaramaViper.TlsFailureSkipsValidation | saramaviper.go:55-59 | a TLS failure ends the run before validation |
| SaramaViper.ResolveTouchesOnlyResolvedKeys | saramaviper.go:91-109 | the run writes back only the generator and version keys; after success the generator key is unset and a given version holds its parsed form |
| SaramaViper.SetOutsideTlsKeepsTlsEntry | saramaviper.go:115 | setting any key whose top-level name is not `tls` does not change whether `tls` is a top-level setting |
| SaramaViper.VersionStepRerun | saramaviper.go:101-109 | a version written back reads as its `String` form; when the parser maps that form to the same version, a second run of the step succeeds and changes nothing |
| SaramaViper.ResolveKeepsTlsEntry | saramaviper.go:29-39 | resolving the generator and version never adds or removes the `tls` settings |
| SaramaViper.ResolvedConfigShape | saramaviper.go:49-69 | a resolved config is the decoded one with the SCRAM factory replaced iff a generator was named, and the TLS config replaced iff `tls` settings were given, then by exactly the config `TlsConfigFromViper` built from the resolved provider (one certificate and a root pool); all else is as decoded, and it passed validation |
| SaramaViper.UnsupportedGeneratorReported | saramaviper.go:31-32 | an unsupported generator fails the run with the value in the message |
| SaramaViper.UnparsableVersionReported | saramaviper.go:37-38 | a rejected version fails the run with its text in the message |
| SaramaViper.EmptyProviderYieldsDefaults | samaraconfig_test.go:115-122 | an empty provider resolves to the defaults, with the default (nil) SCRAM factory |
| SaramaViper.Sha256GeneratorAttached | samaraconfig_test.go:95-104 | "SHA256" yields a config with the SHA-256 factory, and the key is cleared before decoding |
| SaramaViper.InvalidGeneratorRejected | samaraconfig_test.go:106-113 | "not-valid" fails with the unsupported-generator error |
| SaramaViper.ParsedVersionStored | samaraconfig_test.go:141-151 | an accepted version text is stored as the parsed version before decoding and causes no version error |
| SaramaViper.NumericVersionRejected | samaraconfig_test.go:163-171 | the number 123 is read as "123", and a parser that rejects it fails the run with "123" in the message |
| Options.Assignments | saramaconfig.go:19-74 | every option assigns between one and four fields, each with a value of the field's type and none twice |
| Options.AssignAllInOrder | saramaconfig.go:21-72 | running a short assignment list is the chain of its assignments in order |
| Options.AssignAllKeeps | saramaconfig.go:17 | fields outside an assignment list keep their values |
| Options.AssignAllWrites | saramaconfig.go:17 | with no field assigned twice, every listed field ends with its listed value |
| Options.OptionKeepsOtherFields | saramaconfig.go:19-74 | an option leaves every field it does not assign unchanged |
| Options.OptionWritesListedFields | saramaconfig.go:19-74 | an option sets every field it assigns to the assigned value |
| Options.OptionFieldValue | saramaconfig.go:19-74 | after an option, a field reads the option's value if assigned and its old value otherwise |
| Options.OptionIdempotent | saramaconfig.go:19-74 | applying an option twice equals applying it once |
| Options.LaterOptionWins | saramaconfig.go:20-31 | an option assigning all fields of an earlier one overrides it, e.g. `ProducerMaxRetries` after `ProducerNoRetries` |
| Options.DisjointOptionsCommute | saramaconfig.go:19-74 | options on disjoint fields can be applied in either order |
| Options.NoRetriesIsZeroRetries | saramaconfig.go:20-31 | `ProducerNoRetries` is `ProducerMaxRetries(0)` and sets the retry maximum to 0 |
| Options.ConsumerBatchNarrowsFetchMin | saramaconfig.go:34-39 | `ConsumerBatch` stores the minimum fetch size wrapped to int32 (unchanged when it fits) and the given wait time |
| Options.TimeoutSetsAllThree | saramaconfig.go:50-56 | `Timeout` sets the dial, read and admin timeouts to the same value |
| Options.SaslEnablesHandshake | saramaconfig.go:59-66 | `SASL` enables SASL with the given mechanism, user and password and keeps the SCRAM factory |
| Options.TlsEnablesWithConfig | saramaconfig.go:69-74 | `TLS` enables TLS with exactly the given config |
| Options.CommitAsyncEnablesAutoCommit | saramaconfig.go:42-47 | `ConsumerCommitAsync` turns auto-commit on with the given interval |
| Options.Apply | saramaconfig.go:17-74 | running an option's closure on a config object leaves it holding `Applied` of its old contents |
| Options.NewFromViper | saramaconfig.go:12-14 | returns exactly what the pipeline returns, with the same effect on the provider |

## Left out

- The environment layer of viper: the environment lookup behind `BindEnv`, `AutomaticEnv`
  and `SetEnvKeyReplacer` (saramaviper.go:27). Only the set of bound keys is modelled. The
  provider holds only the override layer that `Set` writes; config files and defaults are
  not modelled.
- Viper's `Unmarshal`, `sarama.NewConfig`, `sarama.ParseKafkaVersion`,
  `(*sarama.Config).Validate`, base64 decoding, `tls.X509KeyPair` and PEM parsing are foreign
  code. They are parameters, and no property assumes anything about them beyond what a
  lemma states in its `requires`.
- Go reflection in `bindEnvs` is replaced by an explicit field tree
  (`EnvBinder.SchemaField`), given with `Libraries.configSchema` for `sarama.Config`. The
  panics reflection raises on unexported or non-struct inputs are not modelled.
- Viper.IsSetIn, Viper.Lookup and Viper.SetIn: the store is a flat map from full dotted
  keys to values. Viper keeps `Set` values in a nested map, so it reports a key as set when
  values exist only under its dotted extensions (`version.x` makes `version` set, reading as
  ""). Setting a key also hides the values nested under it. Neither is modelled. So, for
  example, a stored `version.x` leaves the model's version step a no-op, where viper would
  fail the run on the version "".
- Strings.Lower: ASCII letters only; Go's `strings.ToLower` also folds non-ASCII letters.
- Viper.GetStringIn: renders only the value kinds the model stores (text, integers,
  booleans, versions, nil); other `cast.ToString` cases (floats, byte slices, errors) are not
  modelled.
- SaramaViper.ResolveTouchesOnlyResolvedKeys, SaramaViper.Sha256GeneratorAttached and
  SaramaViper.ScramGeneratorStep: clearing the generator key with `Set(key, nil)`
  (saramaviper.go:91) hides only a value given through `Set`. In viper a nil override falls
  through to the lower layers, so a generator given as an environment variable or in a
  config file is still visible to `Unmarshal` afterwards. Those layers are not modelled, so
  the model's "the key is cleared before decoding" holds only for values given through
  `Set`.
- `int` and `time.Duration` are unbounded integers. The only narrowing the package performs
  (`int32(minFetchBytes)`) is modelled explicitly.
- Only the `sarama.Config` fields the package, its options and its tests touch are modelled.
  The rest of the record is not.
- The SCRAM client adapter `scramclient/xdg.go` and the hash functions are not part of this
  model. A factory is represented by the hash it binds.
- `configgetter.go` (an interface with no behaviour) and the repository's example programs
  (environment setup, file reading and printing) are not part of this model.
- The constant `prefix` (saramaviper.go:16) is declared but never used, and is not modelled.
- The tests that decode single fields (samaraconfig_test.go:26-93) and the parsed version
  landing in `cfg.Version` (samaraconfig_test.go:141-151) depend on viper's `Unmarshal`,
  which is a parameter here. The model states only what the pipeline hands to it.
