/** bindEnvs (saramaviper.go:128-146): a walk over a struct type's fields that registers the
    dotted key of every non-struct field with the provider. Go's reflection is replaced by an
    explicit tree of field descriptors. */
module EnvBinder {
  import opened Wrappers
  import opened Strings
  import opened Viper

  /** reflect.Struct, or any other kind of field. */
  datatype Kind = Leaf | Struct(fields: seq<SchemaField>)

  /** A struct field: its Go name, its `mapstructure` tag when it has one, and its kind. */
  datatype SchemaField = SchemaField(name: string, tag: Option<string>, kind: Kind)

  /** The key segment of a field: the tag when present, else the lower-cased name. */
  function Segment(f: SchemaField): string {
    match f.tag
    case Some(t) => t
    case None => Lower(f.name)
  }

  /** The number of non-struct fields reachable through `fields`. */
  function LeafCount(fields: seq<SchemaField>): nat
    decreases fields
  {
    if fields == [] then 0
    else
      (match fields[0].kind
       case Leaf => 1
       case Struct(sub) => LeafCount(sub))
      + LeafCount(fields[1..])
  }

  /** The segment lists bindEnvs builds, in the order it binds them: a struct field contributes
      the paths of its own fields under its extended prefix, any other field its own path. */
  function LeafPaths(fields: seq<SchemaField>, parts: seq<string>): (paths: seq<seq<string>>)
    ensures |paths| == LeafCount(fields)
    decreases fields
  {
    if fields == [] then []
    else
      var path := parts + [Segment(fields[0])];
      (match fields[0].kind
       case Leaf => [path]
       case Struct(sub) => LeafPaths(sub, path))
      + LeafPaths(fields[1..], parts)
  }

  /** `path` names, segment by segment, a non-struct field reachable through `fields`. */
  ghost predicate IsLeafPath(fields: seq<SchemaField>, path: seq<string>)
    decreases fields
  {
    |path| > 0 &&
    exists i :: 0 <= i < |fields| && Segment(fields[i]) == path[0] &&
      match fields[i].kind
      case Leaf => |path| == 1
      case Struct(sub) => IsLeafPath(sub, path[1..])
  }

  /** The keys bindEnvs registers: each path joined with '.', lower-cased as BindEnv does. */
  function EnvKeys(fields: seq<SchemaField>, parts: seq<string>): set<string> {
    set p | p in LeafPaths(fields, parts) :: Lower(Join(p, "."))
  }

  /** Walking two field lists one after the other yields the two walks' paths in order. */
  lemma {:induction false} LeafPathsAppend(a: seq<SchemaField>, b: seq<SchemaField>, parts: seq<string>)
    ensures LeafPaths(a + b, parts) == LeafPaths(a, parts) + LeafPaths(b, parts)
    decreases a
  {
    if a == [] {
      assert a + b == b;
    } else {
      assert (a + b)[0] == a[0];
      assert (a + b)[1..] == a[1..] + b;
      LeafPathsAppend(a[1..], b, parts);
    }
  }

  /** Every path bindEnvs builds extends the prefix by a path to a non-struct field. */
  lemma {:induction false} LeafPathsSound(fields: seq<SchemaField>, parts: seq<string>, p: seq<string>)
    requires p in LeafPaths(fields, parts)
    ensures |p| > |parts| && p[..|parts|] == parts && IsLeafPath(fields, p[|parts|..])
    decreases fields
  {
    var path := parts + [Segment(fields[0])];
    var head := match fields[0].kind
      case Leaf => [path]
      case Struct(sub) => LeafPaths(sub, path);
    assert LeafPaths(fields, parts) == head + LeafPaths(fields[1..], parts);
    if p in head {
      match fields[0].kind
      case Leaf =>
        assert p == path;
        assert p[|parts|..] == [Segment(fields[0])];
      case Struct(sub) =>
        LeafPathsSound(sub, path, p);
        var q := p[|parts|..];
        assert q[0] == Segment(fields[0]);
        assert q[1..] == p[|path|..];
    } else {
      LeafPathsSound(fields[1..], parts, p);
      var q := p[|parts|..];
      var j :| 0 <= j < |fields[1..]| && Segment(fields[1..][j]) == q[0] &&
        match fields[1..][j].kind
        case Leaf => |q| == 1
        case Struct(sub) => IsLeafPath(sub, q[1..]);
      assert fields[j + 1] == fields[1..][j];
    }
  }

  /** Every path to a non-struct field, under the prefix, is one bindEnvs builds. */
  lemma {:induction false} LeafPathsComplete(fields: seq<SchemaField>, parts: seq<string>, p: seq<string>)
    requires |p| > |parts| && p[..|parts|] == parts && IsLeafPath(fields, p[|parts|..])
    ensures p in LeafPaths(fields, parts)
    decreases fields
  {
    var q := p[|parts|..];
    var i :| 0 <= i < |fields| && Segment(fields[i]) == q[0] &&
      match fields[i].kind
      case Leaf => |q| == 1
      case Struct(sub) => IsLeafPath(sub, q[1..]);
    var path := parts + [Segment(fields[0])];
    var head := match fields[0].kind
      case Leaf => [path]
      case Struct(sub) => LeafPaths(sub, path);
    assert LeafPaths(fields, parts) == head + LeafPaths(fields[1..], parts);
    if i == 0 {
      match fields[0].kind
      case Leaf =>
        assert q == [Segment(fields[0])];
        assert p == parts + q;
        assert p in head;
      case Struct(sub) =>
        assert p[..|path|] == path;
        assert p[|path|..] == q[1..];
        LeafPathsComplete(sub, path, p);
    } else {
      assert fields[1..][i - 1] == fields[i];
      assert IsLeafPath(fields[1..], q);
      LeafPathsComplete(fields[1..], parts, p);
    }
  }

  lemma EnvKeysAppend(a: seq<SchemaField>, b: seq<SchemaField>, parts: seq<string>)
    ensures EnvKeys(a + b, parts) == EnvKeys(a, parts) + EnvKeys(b, parts)
  {
    LeafPathsAppend(a, b, parts);
  }

  /** bindEnvs(v, iface, parts...): registers the key of every non-struct field and reads or
      sets no value. */
  method BindEnvs(v: Provider, fields: seq<SchemaField>, parts: seq<string>)
    modifies v`bound
    ensures v.bound == old(v.bound) + EnvKeys(fields, parts)
    ensures v.values == old(v.values)
    decreases fields
  {
    for i := 0 to |fields|
      invariant v.bound == old(v.bound) + EnvKeys(fields[..i], parts)
      invariant v.values == old(v.values)
    {
      var field := fields[i];
      var name := Segment(field);
      var path := parts + [name];
      match field.kind {
        case Struct(sub) =>
          BindEnvs(v, sub, path);
        case Leaf =>
          v.BindEnv(Join(path, "."));
      }
      assert fields[..i + 1] == fields[..i] + [field];
      EnvKeysAppend(fields[..i], [field], parts);
      assert LeafPaths([field], parts) == LeafPaths([field], parts) + LeafPaths([], parts);
    }
    assert fields[..|fields|] == fields;
  }
}
