/** Redaction of secret values at any depth of an input. */
module Redaction {
  import opened Basics
  import opened Keys

  datatype Value = Scalar(text: string) | List(items: seq<Value>) | Object(fields: map<string, Value>)

  type Fields = map<string, Value>

  const MARK := Scalar("[REDACTED]")

  // The result

  function RedactedValue(v: Value): Value
    decreases v, 1
  {
    match v
    case Scalar(_) => v
    case List(items) => List(seq(|items|, i requires 0 <= i < |items| => RedactedValue(items[i])))
    case Object(fields) => Object(Redacted(fields))
  }

  function Redacted(fields: Fields): Fields
    decreases Object(fields), 0
  {
    map key | key in fields :: if SensitiveKey(key) then MARK else RedactedValue(fields[key])
  }

  /** A missing input stays missing. */
  function RedactedInput(input: Option<Fields>): Option<Fields>
  {
    if input.None? then None else Some(Redacted(input.value))
  }

  // The copying loops

  /** Visits the fields in any order. */
  method RedactMap(fields: Fields) returns (redacted: Fields)
    ensures redacted == Redacted(fields)
    decreases Object(fields), 0
  {
    redacted := map[];
    var todo := fields.Keys;
    while todo != {}
      invariant todo <= fields.Keys && redacted.Keys == fields.Keys - todo
      invariant forall key | key in redacted :: redacted[key] == Redacted(fields)[key]
      decreases todo
    {
      var key :| key in todo;
      todo := todo - {key};
      var sensitive := CheckKey(key);
      if sensitive {
        redacted := redacted[key := MARK];
        continue;
      }
      var value := RedactValue(fields[key]);
      redacted := redacted[key := value];
    }
  }

  method RedactValue(value: Value) returns (redacted: Value)
    ensures redacted == RedactedValue(value)
    decreases value, 1
  {
    match value
    case Object(fields) =>
      var copy := RedactMap(fields);
      redacted := Object(copy);
    case List(items) =>
      var copy: seq<Value> := [];
      for index := 0 to |items|
        invariant |copy| == index
        invariant forall i | 0 <= i < index :: copy[i] == RedactedValue(items[i])
      {
        var item := RedactValue(items[index]);
        copy := copy + [item];
      }
      redacted := List(copy);
    case Scalar(_) => redacted := value;
  }

  // What redaction hides, and all it hides

  /** The values differ at most inside fields with sensitive keys. */
  predicate Agree(a: Value, b: Value)
    decreases a, 1
  {
    match (a, b)
    case (Scalar(s), Scalar(t)) => s == t
    case (List(xs), List(ys)) => |xs| == |ys| && forall i | 0 <= i < |xs| :: Agree(xs[i], ys[i])
    case (Object(f), Object(g)) => AgreeFields(f, g)
    case _ => false
  }

  predicate AgreeFields(f: Fields, g: Fields)
    decreases Object(f), 0
  {
    f.Keys == g.Keys && forall key | key in f && !SensitiveKey(key) :: Agree(f[key], g[key])
  }

  /** Two values have the same redaction exactly when they agree outside sensitive fields. */
  lemma {:induction false} RedactionIsExact(a: Value, b: Value)
    ensures RedactedValue(a) == RedactedValue(b) <==> Agree(a, b)
    decreases a, 1
  {
    hide SensitiveKey;
    match (a, b) {
      case (List(xs), List(ys)) =>
        if |xs| == |ys| {
          forall i | 0 <= i < |xs| ensures RedactedValue(xs[i]) == RedactedValue(ys[i]) <==> Agree(xs[i], ys[i]) {
            RedactionIsExact(xs[i], ys[i]);
          }
          var rx, ry := RedactedValue(a).items, RedactedValue(b).items;
          assert forall i | 0 <= i < |xs| :: rx[i] == RedactedValue(xs[i]) && ry[i] == RedactedValue(ys[i]);
          assert rx == ry <==> forall i | 0 <= i < |xs| :: Agree(xs[i], ys[i]);
        } else {
          assert |RedactedValue(a).items| != |RedactedValue(b).items|;
        }
      case (Object(f), Object(g)) => RedactionOfFieldsIsExact(f, g);
      case _ =>
    }
  }

  /** Two inputs have the same redaction exactly when they have the same keys and agree on every value
      outside sensitive keys, at every depth. */
  lemma {:induction false} RedactionOfFieldsIsExact(f: Fields, g: Fields)
    ensures Redacted(f) == Redacted(g) <==> AgreeFields(f, g)
    decreases Object(f), 0
  {
    hide SensitiveKey;
    assert Redacted(f).Keys == f.Keys && Redacted(g).Keys == g.Keys;
    if f.Keys == g.Keys {
      forall key | key in f && !SensitiveKey(key)
        ensures RedactedValue(f[key]) == RedactedValue(g[key]) <==> Agree(f[key], g[key])
      {
        RedactionIsExact(f[key], g[key]);
      }
      assert Redacted(f) == Redacted(g) <==> forall key | key in f :: Redacted(f)[key] == Redacted(g)[key];
      assert forall key | key in f && SensitiveKey(key) :: Redacted(f)[key] == Redacted(g)[key];
    }
  }

  lemma {:induction false} RedactionIsIdempotent(v: Value)
    ensures RedactedValue(RedactedValue(v)) == RedactedValue(v)
    decreases v, 1
  {
    hide SensitiveKey;
    match v {
      case Scalar(_) =>
      case List(items) =>
        forall i | 0 <= i < |items| ensures RedactedValue(RedactedValue(items[i])) == RedactedValue(items[i]) {
          RedactionIsIdempotent(items[i]);
        }
      case Object(fields) => RedactionOfFieldsIsIdempotent(fields);
    }
  }

  /** Redacting a second time changes nothing. */
  lemma {:induction false} RedactionOfFieldsIsIdempotent(fields: Fields)
    ensures Redacted(Redacted(fields)) == Redacted(fields)
    decreases Object(fields), 0
  {
    hide SensitiveKey;
    forall key | key in fields && !SensitiveKey(key)
      ensures RedactedValue(RedactedValue(fields[key])) == RedactedValue(fields[key])
    {
      RedactionIsIdempotent(fields[key]);
    }
  }

  // Path by path

  datatype Step = Field(key: string) | Index(i: nat)

  /** What stands at the end of a path into a value. */
  function Lookup(v: Value, path: seq<Step>): Option<Value>
    decreases |path|
  {
    if path == [] then Some(v)
    else if v.Object? && path[0].Field? && path[0].key in v.fields then Lookup(v.fields[path[0].key], path[1..])
    else if v.List? && path[0].Index? && path[0].i < |v.items| then Lookup(v.items[path[0].i], path[1..])
    else None
  }

  /** No key on the path is sensitive. */
  predicate Plain(path: seq<Step>)
  {
    forall i | 0 <= i < |path| :: path[i].Field? ==> !SensitiveKey(path[i].key)
  }

  lemma OneField(v: Value, key: string)
    ensures Lookup(v, [Field(key)]) == if v.Object? && key in v.fields then Some(v.fields[key]) else None
  {
    assert [Field(key)][1..] == [];
    assert v.Object? && key in v.fields ==> Lookup(v.fields[key], []) == Some(v.fields[key]);
  }

  /** A path without sensitive keys leads to the redaction of what it led to, so every scalar on such a path
      stands as it was; the value of a sensitive key at the end of one is the mark, whatever it was. */
  lemma {:induction false} PathByPath(v: Value, path: seq<Step>, secret: string)
    requires Plain(path)
    ensures match Lookup(v, path)
      case None => Lookup(RedactedValue(v), path) == None
      case Some(x) =>
        && Lookup(RedactedValue(v), path).Some?
        && (x.Scalar? ==> Lookup(RedactedValue(v), path) == Some(x))
    ensures SensitiveKey(secret) ==>
      match Lookup(v, path + [Field(secret)])
      case None => Lookup(RedactedValue(v), path + [Field(secret)]) == None
      case Some(_) => Lookup(RedactedValue(v), path + [Field(secret)]) == Some(Scalar("[REDACTED]"))
    decreases |path|
  {
    hide SensitiveKey;
    var r := RedactedValue(v);
    if path != [] {
      var rest := path[1..];
      assert (path + [Field(secret)])[1..] == rest + [Field(secret)] && (path + [Field(secret)])[0] == path[0];
      assert forall i | 0 <= i < |rest| :: rest[i] == path[i + 1];
      if v.Object? && path[0].Field? && path[0].key in v.fields {
        PathByPath(v.fields[path[0].key], rest, secret);
        assert r == Object(Redacted(v.fields)) && Redacted(v.fields).Keys == v.fields.Keys;
        assert Redacted(v.fields)[path[0].key] == RedactedValue(v.fields[path[0].key]);
      } else if v.List? && path[0].Index? && path[0].i < |v.items| {
        PathByPath(v.items[path[0].i], rest, secret);
        assert r.List? && |r.items| == |v.items|;
        assert r.items[path[0].i] == RedactedValue(v.items[path[0].i]);
      }
    } else {
      assert path + [Field(secret)] == [Field(secret)];
      OneField(v, secret);
      OneField(r, secret);
    }
  }
}
