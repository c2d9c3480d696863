/** The configuration provider (a *viper.Viper) as far as the pipeline uses it: an override
    layer of values under case-insensitive dotted keys, written by Set, and the set of keys
    registered with BindEnv. */
module Viper {
  import opened Strings
  import opened Sarama

  /** A value held under a key: Go's `interface{}` restricted to what the pipeline stores. */
  datatype Value =
    | Null
    | Text(s: string)
    | Integer(i: int)
    | Boolean(b: bool)
    | Version(v: KafkaVersion)

  /** Values by lower-cased key. */
  type Store = map<string, Value>

  /** Every key of the store is in lower case, as viper keeps them. */
  predicate Normalized(s: Store) {
    forall k :: k in s ==> Lower(k) == k
  }

  /** viper.Get: keys are case-insensitive; an absent key reads as nil. */
  function Lookup(s: Store, key: string): Value {
    var k := Lower(key);
    if k in s then s[k] else Null
  }

  /** viper.IsSet: a key holding nil counts as unset. */
  predicate IsSetIn(s: Store, key: string) {
    Lookup(s, key) != Null
  }

  /** cast.ToString of a stored value: nil is "", numbers are decimal, a KafkaVersion is
      rendered by its String method. */
  function ValueText(v: Value): string {
    match v
    case Text(t) => t
    case Integer(i) => Decimal(i)
    case Boolean(b) => if b then "true" else "false"
    case Null => ""
    case Version(kv) => VersionText(kv)
  }

  /** viper.GetString: an unset key reads as "", a text as itself, a version as its String
      form, and any other value as its cast.ToString text. */
  function GetStringIn(s: Store, key: string): (r: string)
    ensures !IsSetIn(s, key) ==> r == ""
    ensures Lookup(s, key).Text? ==> r == Lookup(s, key).s
    ensures Lookup(s, key).Version? ==> r == VersionText(Lookup(s, key).v)
  {
    ValueText(Lookup(s, key))
  }

  /** What `v.Set(key, value)` stored reads back through IsSet and GetString under any
      spelling of the key. */
  lemma SetThenRead(s: Store, key: string, value: Value, k: string)
    requires Lower(k) == Lower(key)
    ensures IsSetIn(SetIn(s, key, value), k) <==> value != Null
    ensures GetStringIn(SetIn(s, key, value), k) == ValueText(value)
  {
  }

  /** viper.Set: the key now reads `value` and every other key reads what it read before. */
  function SetIn(s: Store, key: string, value: Value): (r: Store)
    ensures Lookup(r, key) == value
    ensures forall k :: Lower(k) != Lower(key) ==> Lookup(r, k) == Lookup(s, k)
    ensures r.Keys == s.Keys + {Lower(key)}
    ensures Normalized(s) ==> Normalized(r)
  {
    s[Lower(key) := value]
  }

  /** The text of a key up to its first '.', the top-level name it is nested under. */
  function FirstSegment(key: string): (r: string)
    ensures |r| <= |key| && r == key[..|r|]
    ensures '.' !in r
    ensures |r| < |key| ==> key[|r|] == '.'
  {
    if key == [] || key[0] == '.' then [] else [key[0]] + FirstSegment(key[1..])
  }

  /** The top-level keys of viper.AllSettings: keys holding nil are skipped. Over a store of
      lower-cased keys, a name is top-level exactly when some key that IsSet reports as set
      is nested under it. */
  function TopLevelKeys(s: Store): (r: set<string>)
    ensures Normalized(s) ==> forall t :: t in r <==> exists k :: IsSetIn(s, k) && FirstSegment(Lower(k)) == t
  {
    var r := set k | k in s && s[k] != Null :: FirstSegment(k);
    assert Normalized(s) ==> forall t :: t in r <==> exists k :: IsSetIn(s, k) && FirstSegment(Lower(k)) == t by {
      if Normalized(s) {
        forall t | t in r ensures exists k :: IsSetIn(s, k) && FirstSegment(Lower(k)) == t {
          var k :| k in s && s[k] != Null && FirstSegment(k) == t;
          assert Lower(k) == k;
          assert IsSetIn(s, k);
        }
        forall t | (exists k :: IsSetIn(s, k) && FirstSegment(Lower(k)) == t) ensures t in r {
          var k :| IsSetIn(s, k) && FirstSegment(Lower(k)) == t;
          assert Lower(k) in s && s[Lower(k)] != Null;
        }
      }
    }
    r
  }

  class Provider {
    var values: Store
    var bound: set<string>

    /** viper.New(). */
    constructor ()
      ensures values == map[] && bound == {}
      ensures Normalized(values)
    {
      values, bound := map[], {};
    }

    function IsSet(key: string): bool
      reads this
    {
      IsSetIn(values, key)
    }

    function GetString(key: string): string
      reads this
    {
      GetStringIn(values, key)
    }

    /** The keys of AllSettings(). */
    function AllSettingsKeys(): set<string>
      reads this
    {
      TopLevelKeys(values)
    }

    method Set(key: string, value: Value)
      modifies this`values
      ensures values == SetIn(old(values), key, value)
    {
      values := values[Lower(key) := value];
    }

    /** BindEnv(key): registers the lower-cased key for environment lookup; no value changes. */
    method BindEnv(key: string)
      modifies this`bound
      ensures bound == old(bound) + {Lower(key)}
    {
      bound := bound + {Lower(key)};
    }
  }
}
