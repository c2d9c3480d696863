/** The part of sarama.Config that the pipeline, its options and its tests touch. */
module Sarama {
  import opened Wrappers
  import opened Crypto
  import opened Strings

  newtype int32 = x: int | -0x8000_0000 <= x < 0x8000_0000

  /** time.Duration, in nanoseconds. */
  type Duration = int

  /** sarama.KafkaVersion: four version numbers. */
  datatype KafkaVersion = KafkaVersion(major: nat, minor: nat, veryMinor: nat, patch: nat)

  /** KafkaVersion.String: "0.minor.veryMinor.patch" for 0.x versions, else
      "major.minor.veryMinor". */
  function VersionText(v: KafkaVersion): string {
    if v.major == 0 then "0." + Decimal(v.minor) + "." + Decimal(v.veryMinor) + "." + Decimal(v.patch)
    else Decimal(v.major) + "." + Decimal(v.minor) + "." + Decimal(v.veryMinor)
  }

  datatype Admin = Admin(retryMax: int, timeout: Duration)

  /** Net.SASL; a nil SCRAMClientGeneratorFunc is None, otherwise the factory builds SCRAM
      clients bound to the given hash. */
  datatype SASL = SASL(enable: bool, mechanism: string, user: string, password: string,
                       scramClientGeneratorFunc: Option<HashGenerator>)

  datatype TLS = TLS(enable: bool, config: Option<TlsContext>)

  datatype Net = Net(dialTimeout: Duration, readTimeout: Duration, sasl: SASL, tls: TLS)

  datatype Producer = Producer(retryMax: int)

  datatype Consumer = Consumer(fetchMin: int32, maxWaitTime: Duration,
                               autoCommitEnable: bool, autoCommitInterval: Duration)

  datatype SaramaConfig = SaramaConfig(admin: Admin, net: Net, producer: Producer,
                                       consumer: Consumer, version: KafkaVersion)

  /** The addressable fields of SaramaConfig, one per leaf. */
  datatype Field =
    | AdminRetryMax | AdminTimeout
    | NetDialTimeout | NetReadTimeout
    | NetSASLEnable | NetSASLMechanism | NetSASLUser | NetSASLPassword | NetSASLScramClientGeneratorFunc
    | NetTLSEnable | NetTLSConfig
    | ProducerRetryMax
    | ConsumerFetchMin | ConsumerMaxWaitTime | ConsumerAutoCommitEnable | ConsumerAutoCommitInterval
    | VersionField

  datatype FieldValue =
    | IntValue(i: int)
    | Int32Value(n: int32)
    | DurationValue(d: Duration)
    | BoolValue(b: bool)
    | StringValue(s: string)
    | GeneratorValue(g: Option<HashGenerator>)
    | TlsValue(t: Option<TlsContext>)
    | VersionValue(v: KafkaVersion)

  function Get(c: SaramaConfig, f: Field): FieldValue {
    match f
    case AdminRetryMax => IntValue(c.admin.retryMax)
    case AdminTimeout => DurationValue(c.admin.timeout)
    case NetDialTimeout => DurationValue(c.net.dialTimeout)
    case NetReadTimeout => DurationValue(c.net.readTimeout)
    case NetSASLEnable => BoolValue(c.net.sasl.enable)
    case NetSASLMechanism => StringValue(c.net.sasl.mechanism)
    case NetSASLUser => StringValue(c.net.sasl.user)
    case NetSASLPassword => StringValue(c.net.sasl.password)
    case NetSASLScramClientGeneratorFunc => GeneratorValue(c.net.sasl.scramClientGeneratorFunc)
    case NetTLSEnable => BoolValue(c.net.tls.enable)
    case NetTLSConfig => TlsValue(c.net.tls.config)
    case ProducerRetryMax => IntValue(c.producer.retryMax)
    case ConsumerFetchMin => Int32Value(c.consumer.fetchMin)
    case ConsumerMaxWaitTime => DurationValue(c.consumer.maxWaitTime)
    case ConsumerAutoCommitEnable => BoolValue(c.consumer.autoCommitEnable)
    case ConsumerAutoCommitInterval => DurationValue(c.consumer.autoCommitInterval)
    case VersionField => VersionValue(c.version)
  }

  /** The value has the Go type of the field. */
  predicate Fits(f: Field, v: FieldValue) {
    match f
    case AdminRetryMax => v.IntValue?
    case AdminTimeout => v.DurationValue?
    case NetDialTimeout => v.DurationValue?
    case NetReadTimeout => v.DurationValue?
    case NetSASLEnable => v.BoolValue?
    case NetSASLMechanism => v.StringValue?
    case NetSASLUser => v.StringValue?
    case NetSASLPassword => v.StringValue?
    case NetSASLScramClientGeneratorFunc => v.GeneratorValue?
    case NetTLSEnable => v.BoolValue?
    case NetTLSConfig => v.TlsValue?
    case ProducerRetryMax => v.IntValue?
    case ConsumerFetchMin => v.Int32Value?
    case ConsumerMaxWaitTime => v.DurationValue?
    case ConsumerAutoCommitEnable => v.BoolValue?
    case ConsumerAutoCommitInterval => v.DurationValue?
    case VersionField => v.VersionValue?
  }

  /** A Go assignment `cfg.<f> = v`: afterwards `f` reads `v` and every other field reads what
      it read before. */
  function Put(c: SaramaConfig, f: Field, v: FieldValue): (r: SaramaConfig)
    requires Fits(f, v)
    ensures Get(r, f) == v
    ensures forall g :: g != f ==> Get(r, g) == Get(c, g)
  {
    match f
    case AdminRetryMax => c.(admin := c.admin.(retryMax := v.i))
    case AdminTimeout => c.(admin := c.admin.(timeout := v.d))
    case NetDialTimeout => c.(net := c.net.(dialTimeout := v.d))
    case NetReadTimeout => c.(net := c.net.(readTimeout := v.d))
    case NetSASLEnable => c.(net := c.net.(sasl := c.net.sasl.(enable := v.b)))
    case NetSASLMechanism => c.(net := c.net.(sasl := c.net.sasl.(mechanism := v.s)))
    case NetSASLUser => c.(net := c.net.(sasl := c.net.sasl.(user := v.s)))
    case NetSASLPassword => c.(net := c.net.(sasl := c.net.sasl.(password := v.s)))
    case NetSASLScramClientGeneratorFunc => c.(net := c.net.(sasl := c.net.sasl.(scramClientGeneratorFunc := v.g)))
    case NetTLSEnable => c.(net := c.net.(tls := c.net.tls.(enable := v.b)))
    case NetTLSConfig => c.(net := c.net.(tls := c.net.tls.(config := v.t)))
    case ProducerRetryMax => c.(producer := c.producer.(retryMax := v.i))
    case ConsumerFetchMin => c.(consumer := c.consumer.(fetchMin := v.n))
    case ConsumerMaxWaitTime => c.(consumer := c.consumer.(maxWaitTime := v.d))
    case ConsumerAutoCommitEnable => c.(consumer := c.consumer.(autoCommitEnable := v.b))
    case ConsumerAutoCommitInterval => c.(consumer := c.consumer.(autoCommitInterval := v.d))
    case VersionField => c.(version := v.v)
  }

  /** Two configurations that agree on every field are the same configuration. */
  lemma Extensionality(a: SaramaConfig, b: SaramaConfig)
    requires forall f :: Get(a, f) == Get(b, f)
    ensures a == b
  {
    assert Get(a, AdminRetryMax) == Get(b, AdminRetryMax);
    assert Get(a, AdminTimeout) == Get(b, AdminTimeout);
    assert Get(a, NetDialTimeout) == Get(b, NetDialTimeout);
    assert Get(a, NetReadTimeout) == Get(b, NetReadTimeout);
    assert Get(a, NetSASLEnable) == Get(b, NetSASLEnable);
    assert Get(a, NetSASLMechanism) == Get(b, NetSASLMechanism);
    assert Get(a, NetSASLUser) == Get(b, NetSASLUser);
    assert Get(a, NetSASLPassword) == Get(b, NetSASLPassword);
    assert Get(a, NetSASLScramClientGeneratorFunc) == Get(b, NetSASLScramClientGeneratorFunc);
    assert Get(a, NetTLSEnable) == Get(b, NetTLSEnable);
    assert Get(a, NetTLSConfig) == Get(b, NetTLSConfig);
    assert Get(a, ProducerRetryMax) == Get(b, ProducerRetryMax);
    assert Get(a, ConsumerFetchMin) == Get(b, ConsumerFetchMin);
    assert Get(a, ConsumerMaxWaitTime) == Get(b, ConsumerMaxWaitTime);
    assert Get(a, ConsumerAutoCommitEnable) == Get(b, ConsumerAutoCommitEnable);
    assert Get(a, ConsumerAutoCommitInterval) == Get(b, ConsumerAutoCommitInterval);
    assert Get(a, VersionField) == Get(b, VersionField);
  }

  /** Go's `int32(x)`: keeps the low 32 bits, read as two's complement. */
  function ToInt32(x: int): (r: int32)
    ensures (r as int - x) % 0x1_0000_0000 == 0
    ensures -0x8000_0000 <= x < 0x8000_0000 ==> r as int == x
  {
    var low := x % 0x1_0000_0000;
    if low < 0x8000_0000 then low as int32 else (low - 0x1_0000_0000) as int32
  }

  /** A *sarama.Config: one object whose nested struct fields are updated in place. */
  class Config {
    var admin: Admin
    var net: Net
    var producer: Producer
    var consumer: Consumer
    var version: KafkaVersion

    constructor (c: SaramaConfig)
      ensures Snapshot() == c
    {
      admin, net, producer, consumer, version := c.admin, c.net, c.producer, c.consumer, c.version;
    }

    /** The configuration the object currently holds, as a value. */
    function Snapshot(): SaramaConfig
      reads this
    {
      SaramaConfig(admin, net, producer, consumer, version)
    }
  }
}
