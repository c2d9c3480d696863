/** saramaconfig.go: the package entry point and the functional options. A SaramaOpt is a Go
    closure that assigns a few fields of a *sarama.Config; here each option is a value, its
    effect is the list of assignments it performs, and Apply performs them on a Config. */
module Options {
  import opened Wrappers
  import opened Crypto
  import Sarama
  import Viper
  import EnvBinder
  import Tls
  import Errors
  import SaramaViper

  datatype SaramaOpt =
    | ProducerNoRetries
    | ProducerMaxRetries(retries: int)
    | ConsumerBatch(minFetchBytes: int, maxWaitTime: Sarama.Duration)
    | ConsumerCommitAsync(interval: Sarama.Duration)
    | Timeout(timeout: Sarama.Duration)
    | SASL(mechanism: string, username: string, password: string)
    | TLS(config: Option<TlsContext>)

  /** One `cfg.<field> = value` statement. */
  datatype Assignment = Assignment(field: Sarama.Field, value: Sarama.FieldValue)

  predicate WellTyped(assignments: seq<Assignment>) {
    forall i :: 0 <= i < |assignments| ==> Sarama.Fits(assignments[i].field, assignments[i].value)
  }

  /** No field is assigned twice. */
  predicate DistinctFields(assignments: seq<Assignment>) {
    forall i, j :: 0 <= i < j < |assignments| ==> assignments[i].field != assignments[j].field
  }

  /** The fields an assignment list writes. */
  function Written(assignments: seq<Assignment>): set<Sarama.Field> {
    set i | 0 <= i < |assignments| :: assignments[i].field
  }

  /** The statements of each option's closure, in order. Every value has its field's type
      and no option assigns a field twice. */
  function Assignments(opt: SaramaOpt): (r: seq<Assignment>)
    ensures WellTyped(r)
    ensures DistinctFields(r)
    ensures 1 <= |r| <= 4
  {
    match opt
    case ProducerNoRetries =>
      [Assignment(Sarama.ProducerRetryMax, Sarama.IntValue(0))]
    case ProducerMaxRetries(retries) =>
      [Assignment(Sarama.ProducerRetryMax, Sarama.IntValue(retries))]
    case ConsumerBatch(minFetchBytes, maxWaitTime) =>
      [Assignment(Sarama.ConsumerFetchMin, Sarama.Int32Value(Sarama.ToInt32(minFetchBytes))),
       Assignment(Sarama.ConsumerMaxWaitTime, Sarama.DurationValue(maxWaitTime))]
    case ConsumerCommitAsync(interval) =>
      [Assignment(Sarama.ConsumerAutoCommitEnable, Sarama.BoolValue(true)),
       Assignment(Sarama.ConsumerAutoCommitInterval, Sarama.DurationValue(interval))]
    case Timeout(timeout) =>
      [Assignment(Sarama.NetDialTimeout, Sarama.DurationValue(timeout)),
       Assignment(Sarama.NetReadTimeout, Sarama.DurationValue(timeout)),
       Assignment(Sarama.AdminTimeout, Sarama.DurationValue(timeout))]
    case SASL(mechanism, username, password) =>
      [Assignment(Sarama.NetSASLEnable, Sarama.BoolValue(true)),
       Assignment(Sarama.NetSASLMechanism, Sarama.StringValue(mechanism)),
       Assignment(Sarama.NetSASLUser, Sarama.StringValue(username)),
       Assignment(Sarama.NetSASLPassword, Sarama.StringValue(password))]
    case TLS(config) =>
      [Assignment(Sarama.NetTLSEnable, Sarama.BoolValue(true)),
       Assignment(Sarama.NetTLSConfig, Sarama.TlsValue(config))]
  }

  /** Performs the assignments in order. */
  function AssignAll(c: Sarama.SaramaConfig, assignments: seq<Assignment>): Sarama.SaramaConfig
    requires WellTyped(assignments)
    decreases |assignments|
  {
    if assignments == [] then c
    else AssignAll(Sarama.Put(c, assignments[0].field, assignments[0].value), assignments[1..])
  }

  /** AssignAll on a short list is the chain of its assignments. */
  lemma AssignAllInOrder(c: Sarama.SaramaConfig, assignments: seq<Assignment>)
    requires WellTyped(assignments) && 1 <= |assignments| <= 4
    ensures var a := assignments; var c1 := Sarama.Put(c, a[0].field, a[0].value);
      && (|a| == 1 ==> AssignAll(c, a) == c1)
      && (|a| >= 2 ==> var c2 := Sarama.Put(c1, a[1].field, a[1].value);
           && (|a| == 2 ==> AssignAll(c, a) == c2)
           && (|a| >= 3 ==> var c3 := Sarama.Put(c2, a[2].field, a[2].value);
                && (|a| == 3 ==> AssignAll(c, a) == c3)
                && (|a| == 4 ==> AssignAll(c, a) == Sarama.Put(c3, a[3].field, a[3].value))))
  {
    var a := assignments;
    var c1 := Sarama.Put(c, a[0].field, a[0].value);
    assert AssignAll(c, a) == AssignAll(c1, a[1..]);
    if |a| >= 2 {
      var c2 := Sarama.Put(c1, a[1].field, a[1].value);
      assert a[1..][0] == a[1] && a[1..][1..] == a[2..];
      assert AssignAll(c1, a[1..]) == AssignAll(c2, a[2..]);
      if |a| >= 3 {
        var c3 := Sarama.Put(c2, a[2].field, a[2].value);
        assert a[2..][0] == a[2] && a[2..][1..] == a[3..];
        assert AssignAll(c2, a[2..]) == AssignAll(c3, a[3..]);
        if |a| == 4 {
          assert a[3..][0] == a[3] && a[3..][1..] == [];
          assert AssignAll(c3, a[3..]) == AssignAll(Sarama.Put(c3, a[3].field, a[3].value), []);
        }
      }
    }
  }

  /** The configuration after running an option on `c`. */
  function Applied(opt: SaramaOpt, c: Sarama.SaramaConfig): Sarama.SaramaConfig {
    AssignAll(c, Assignments(opt))
  }

  /** Fields outside the assignment list keep their values. */
  lemma {:induction false} AssignAllKeeps(c: Sarama.SaramaConfig, assignments: seq<Assignment>, f: Sarama.Field)
    requires WellTyped(assignments)
    requires f !in Written(assignments)
    ensures Sarama.Get(AssignAll(c, assignments), f) == Sarama.Get(c, f)
    decreases |assignments|
  {
    if assignments != [] {
      var rest := assignments[1..];
      assert Written(rest) <= Written(assignments) by {
        forall g | g in Written(rest) ensures g in Written(assignments) {
          var i :| 0 <= i < |rest| && rest[i].field == g;
          assert assignments[i + 1].field == g;
        }
      }
      assert assignments[0].field in Written(assignments);
      AssignAllKeeps(Sarama.Put(c, assignments[0].field, assignments[0].value), rest, f);
    }
  }

  /** With no field assigned twice, each listed field ends with its listed value. */
  lemma {:induction false} AssignAllWrites(c: Sarama.SaramaConfig, assignments: seq<Assignment>, i: nat)
    requires WellTyped(assignments) && DistinctFields(assignments)
    requires i < |assignments|
    ensures Sarama.Get(AssignAll(c, assignments), assignments[i].field) == assignments[i].value
    decreases |assignments|
  {
    var rest := assignments[1..];
    var next := Sarama.Put(c, assignments[0].field, assignments[0].value);
    if i == 0 {
      forall j | 0 <= j < |rest| ensures rest[j].field != assignments[0].field {
        assert rest[j] == assignments[j + 1];
      }
      AssignAllKeeps(next, rest, assignments[0].field);
    } else {
      assert rest[i - 1] == assignments[i];
      AssignAllWrites(next, rest, i - 1);
    }
  }

  /** An option leaves every field it does not assign unchanged. */
  lemma OptionKeepsOtherFields(opt: SaramaOpt, c: Sarama.SaramaConfig, f: Sarama.Field)
    requires f !in Written(Assignments(opt))
    ensures Sarama.Get(Applied(opt, c), f) == Sarama.Get(c, f)
  {
    AssignAllKeeps(c, Assignments(opt), f);
  }

  /** An option sets every field it assigns to the assigned value, whatever the field held. */
  lemma OptionWritesListedFields(opt: SaramaOpt, c: Sarama.SaramaConfig, i: nat)
    requires i < |Assignments(opt)|
    ensures Sarama.Get(Applied(opt, c), Assignments(opt)[i].field) == Assignments(opt)[i].value
  {
    AssignAllWrites(c, Assignments(opt), i);
  }

  /** After an option, a field reads the option's value if the option assigns it and its old
      value otherwise. */
  lemma OptionFieldValue(opt: SaramaOpt, c: Sarama.SaramaConfig, f: Sarama.Field)
    ensures f in Written(Assignments(opt)) ==>
      exists i :: 0 <= i < |Assignments(opt)| && Assignments(opt)[i].field == f &&
                  Sarama.Get(Applied(opt, c), f) == Assignments(opt)[i].value
    ensures f !in Written(Assignments(opt)) ==> Sarama.Get(Applied(opt, c), f) == Sarama.Get(c, f)
  {
    if f in Written(Assignments(opt)) {
      var i :| 0 <= i < |Assignments(opt)| && Assignments(opt)[i].field == f;
      OptionWritesListedFields(opt, c, i);
    } else {
      OptionKeepsOtherFields(opt, c, f);
    }
  }

  /** Applying an option twice is the same as applying it once. */
  lemma OptionIdempotent(opt: SaramaOpt, c: Sarama.SaramaConfig)
    ensures Applied(opt, Applied(opt, c)) == Applied(opt, c)
  {
    var once := Applied(opt, c);
    forall f ensures Sarama.Get(Applied(opt, once), f) == Sarama.Get(once, f) {
      if f in Written(Assignments(opt)) {
        var i :| 0 <= i < |Assignments(opt)| && Assignments(opt)[i].field == f;
        OptionWritesListedFields(opt, once, i);
        OptionWritesListedFields(opt, c, i);
      } else {
        OptionKeepsOtherFields(opt, once, f);
      }
    }
    Sarama.Extensionality(Applied(opt, once), once);
  }

  /** An option that assigns every field an earlier one assigned overrides it completely. */
  lemma LaterOptionWins(first: SaramaOpt, second: SaramaOpt, c: Sarama.SaramaConfig)
    requires Written(Assignments(first)) <= Written(Assignments(second))
    ensures Applied(second, Applied(first, c)) == Applied(second, c)
  {
    var both := Applied(second, Applied(first, c));
    var only := Applied(second, c);
    forall f ensures Sarama.Get(both, f) == Sarama.Get(only, f) {
      if f in Written(Assignments(second)) {
        var i :| 0 <= i < |Assignments(second)| && Assignments(second)[i].field == f;
        OptionWritesListedFields(second, Applied(first, c), i);
        OptionWritesListedFields(second, c, i);
      } else {
        OptionKeepsOtherFields(second, Applied(first, c), f);
        OptionKeepsOtherFields(second, c, f);
        OptionKeepsOtherFields(first, c, f);
      }
    }
    Sarama.Extensionality(both, only);
  }

  /** Options that assign disjoint fields can be applied in either order. */
  lemma DisjointOptionsCommute(first: SaramaOpt, second: SaramaOpt, c: Sarama.SaramaConfig)
    requires Written(Assignments(first)) !! Written(Assignments(second))
    ensures Applied(second, Applied(first, c)) == Applied(first, Applied(second, c))
  {
    var one := Applied(second, Applied(first, c));
    var other := Applied(first, Applied(second, c));
    forall f ensures Sarama.Get(one, f) == Sarama.Get(other, f) {
      OptionFieldValue(first, c, f);
      OptionFieldValue(first, Applied(second, c), f);
      OptionFieldValue(second, c, f);
      OptionFieldValue(second, Applied(first, c), f);
      if f in Written(Assignments(first)) {
        var i :| 0 <= i < |Assignments(first)| && Assignments(first)[i].field == f;
        OptionWritesListedFields(first, c, i);
        OptionWritesListedFields(first, Applied(second, c), i);
      } else if f in Written(Assignments(second)) {
        var i :| 0 <= i < |Assignments(second)| && Assignments(second)[i].field == f;
        OptionWritesListedFields(second, c, i);
        OptionWritesListedFields(second, Applied(first, c), i);
      }
    }
    Sarama.Extensionality(one, other);
  }

  /** ProducerNoRetries is ProducerMaxRetries(0). */
  lemma NoRetriesIsZeroRetries(c: Sarama.SaramaConfig)
    ensures Applied(ProducerNoRetries, c) == Applied(ProducerMaxRetries(0), c)
    ensures Applied(ProducerNoRetries, c).producer.retryMax == 0
  {
    OptionWritesListedFields(ProducerNoRetries, c, 0);
  }

  /** ConsumerBatch stores the minimum fetch size converted to int32: unchanged when it fits,
      otherwise wrapped modulo 2^32. */
  lemma ConsumerBatchNarrowsFetchMin(c: Sarama.SaramaConfig, minFetchBytes: int, maxWaitTime: Sarama.Duration)
    ensures var r := Applied(ConsumerBatch(minFetchBytes, maxWaitTime), c);
      && (r.consumer.fetchMin as int - minFetchBytes) % 0x1_0000_0000 == 0
      && (-0x8000_0000 <= minFetchBytes < 0x8000_0000 ==> r.consumer.fetchMin as int == minFetchBytes)
      && r.consumer.maxWaitTime == maxWaitTime
  {
    OptionWritesListedFields(ConsumerBatch(minFetchBytes, maxWaitTime), c, 0);
    OptionWritesListedFields(ConsumerBatch(minFetchBytes, maxWaitTime), c, 1);
  }

  /** Timeout sets the dial, read and admin timeouts to the same value. */
  lemma TimeoutSetsAllThree(c: Sarama.SaramaConfig, timeout: Sarama.Duration)
    ensures var r := Applied(Timeout(timeout), c);
      r.net.dialTimeout == timeout && r.net.readTimeout == timeout && r.admin.timeout == timeout
  {
    OptionWritesListedFields(Timeout(timeout), c, 0);
    OptionWritesListedFields(Timeout(timeout), c, 1);
    OptionWritesListedFields(Timeout(timeout), c, 2);
  }

  /** SASL enables the handshake with the given mechanism and credentials, leaving the SCRAM
      factory as it was. */
  lemma SaslEnablesHandshake(c: Sarama.SaramaConfig, mechanism: string, username: string, password: string)
    ensures var r := Applied(SASL(mechanism, username, password), c);
      && r.net.sasl == Sarama.SASL(true, mechanism, username, password, c.net.sasl.scramClientGeneratorFunc)
  {
    var opt := SASL(mechanism, username, password);
    OptionWritesListedFields(opt, c, 0);
    OptionWritesListedFields(opt, c, 1);
    OptionWritesListedFields(opt, c, 2);
    OptionWritesListedFields(opt, c, 3);
    assert Sarama.NetSASLScramClientGeneratorFunc !in Written(Assignments(opt));
    OptionKeepsOtherFields(opt, c, Sarama.NetSASLScramClientGeneratorFunc);
  }

  /** TLS enables TLS with exactly the given config. */
  lemma TlsEnablesWithConfig(c: Sarama.SaramaConfig, config: Option<TlsContext>)
    ensures Applied(TLS(config), c).net.tls == Sarama.TLS(true, config)
  {
    OptionWritesListedFields(TLS(config), c, 0);
    OptionWritesListedFields(TLS(config), c, 1);
  }

  /** ConsumerCommitAsync turns auto-commit on with the given interval. */
  lemma CommitAsyncEnablesAutoCommit(c: Sarama.SaramaConfig, interval: Sarama.Duration)
    ensures var r := Applied(ConsumerCommitAsync(interval), c);
      r.consumer.autoCommitEnable && r.consumer.autoCommitInterval == interval
  {
    OptionWritesListedFields(ConsumerCommitAsync(interval), c, 0);
    OptionWritesListedFields(ConsumerCommitAsync(interval), c, 1);
  }

  /** Runs an option's closure on a config in place. */
  method Apply(opt: SaramaOpt, cfg: Sarama.Config)
    modifies cfg
    ensures cfg.Snapshot() == Applied(opt, old(cfg.Snapshot()))
  {
    AssignAllInOrder(cfg.Snapshot(), Assignments(opt));
    match opt {
      case ProducerNoRetries =>
        cfg.producer := cfg.producer.(retryMax := 0);
      case ProducerMaxRetries(retries) =>
        cfg.producer := cfg.producer.(retryMax := retries);
      case ConsumerBatch(minFetchBytes, maxWaitTime) =>
        cfg.consumer := cfg.consumer.(fetchMin := Sarama.ToInt32(minFetchBytes));
        cfg.consumer := cfg.consumer.(maxWaitTime := maxWaitTime);
      case ConsumerCommitAsync(interval) =>
        cfg.consumer := cfg.consumer.(autoCommitEnable := true);
        cfg.consumer := cfg.consumer.(autoCommitInterval := interval);
      case Timeout(timeout) =>
        cfg.net := cfg.net.(dialTimeout := timeout);
        cfg.net := cfg.net.(readTimeout := timeout);
        cfg.admin := cfg.admin.(timeout := timeout);
      case SASL(mechanism, username, password) =>
        cfg.net := cfg.net.(sasl := cfg.net.sasl.(enable := true));
        cfg.net := cfg.net.(sasl := cfg.net.sasl.(mechanism := mechanism));
        cfg.net := cfg.net.(sasl := cfg.net.sasl.(user := username));
        cfg.net := cfg.net.(sasl := cfg.net.sasl.(password := password));
      case TLS(config) =>
        cfg.net := cfg.net.(tls := cfg.net.tls.(enable := true));
        cfg.net := cfg.net.(tls := cfg.net.tls.(config := config));
    }
  }

  /** NewFromViper: the exported entry point, which runs the pipeline. */
  method NewFromViper(v: Viper.Provider, libs: SaramaViper.Libraries) returns (r: Result<Sarama.Config, Errors.Error>)
    modifies v
    ensures v.values == SaramaViper.Resolve(old(v.values), libs).store
    ensures v.bound == old(v.bound) + EnvBinder.EnvKeys(libs.configSchema, []) + EnvBinder.EnvKeys(Tls.RootTLSSchema, [])
    ensures r.Err? <==> SaramaViper.Resolve(old(v.values), libs).result.Err?
    ensures r.Err? ==> r.error == SaramaViper.Resolve(old(v.values), libs).result.error
    ensures r.Ok? ==> fresh(r.value) && r.value.Snapshot() == SaramaViper.Resolve(old(v.values), libs).result.value
  {
    r := SaramaViper.NewSaramaConfigFromViper(v, libs);
  }
}
