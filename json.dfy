/** JavaScript values as the exporter receives them from `JSON.parse` of an API
    response, with the few language rules the exporter relies on: truthiness,
    `a || b`, property reads, `String(v)` and `JSON.stringify(v)`.
    Numbers are integers here (fractions, NaN and infinities are not modelled). */
module Json {
  import opened Wrappers

  datatype Value =
    | Undefined
    | Null
    | Bool(b: bool)
    | Num(n: int)
    | Str(s: string)
    | Arr(items: seq<Value>)
    | Obj(fields: seq<(string, Value)>)

  /** An object literal's fields: property name and value, in insertion order. */
  type Props<V> = seq<(string, V)>

  /** JavaScript truthiness: `undefined`, `null`, `false`, `0` and `""` are falsy. */
  predicate Truthy(v: Value) {
    match v
    case Undefined => false
    case Null => false
    case Bool(b) => b
    case Num(n) => n != 0
    case Str(s) => s != ""
    case Arr(_) => true
    case Obj(_) => true
  }

  /** `a || b`. */
  function Or(a: Value, b: Value): (r: Value)
    ensures Truthy(a) ==> r == a
    ensures !Truthy(a) ==> r == b
  {
    if Truthy(a) then a else b
  }

  /** `a?.b` read on a record: the first field named `key` of an object, and
      `undefined` for anything else (an array, a string, a missing field). */
  function Get(v: Value, key: string): Value {
    match v
    case Obj(fields) => Lookup(fields, key).GetOr(Undefined)
    case _ => Undefined
  }

  /** Reading a property that is not there, or reading from something that is
      not an object, gives `undefined`. */
  lemma GetMissing(v: Value, key: string)
    ensures v.Obj? && (forall i :: 0 <= i < |v.fields| ==> v.fields[i].0 != key) ==> Get(v, key) == Undefined
    ensures !v.Obj? ==> Get(v, key) == Undefined
  {
    if v.Obj? {
      LookupFinds(v.fields, key);
    }
  }

  function Lookup<V>(props: Props<V>, key: string): Option<V> {
    if props == [] then None
    else if props[0].0 == key then Some(props[0].1)
    else Lookup(props[1..], key)
  }

  /** A lookup succeeds exactly when some field carries the name, and what it
      finds is the value of such a field. */
  lemma {:induction false} LookupFinds<V>(props: Props<V>, key: string)
    ensures Lookup(props, key).Some? <==> exists i :: 0 <= i < |props| && props[i].0 == key
    ensures Lookup(props, key).Some? ==> exists i :: 0 <= i < |props| && props[i] == (key, Lookup(props, key).value)
  {
    if props != [] && props[0].0 != key {
      LookupFinds(props[1..], key);
      assert forall i :: 1 <= i < |props| ==> props[i] == props[1..][i - 1];
    }
  }

  function Names<V>(props: Props<V>): (ks: seq<string>)
    ensures |ks| == |props|
    ensures forall i :: 0 <= i < |props| ==> ks[i] == props[i].0
  {
    if props == [] then [] else [props[0].0] + Names(props[1..])
  }

  /** `o[key] = value` on an object: an existing property keeps its place and
      takes the new value; a new property is appended. */
  function Put<V>(props: Props<V>, key: string, value: V): Props<V> {
    if props == [] then [(key, value)]
    else if props[0].0 == key then [(key, value)] + props[1..]
    else [props[0]] + Put(props[1..], key, value)
  }

  /** The property names in an object have no repeats. */
  predicate DistinctNames<V>(props: Props<V>) {
    forall i, j :: 0 <= i < j < |props| ==> props[i].0 != props[j].0
  }

  /** Assigning a property adds at most the one name and keeps names distinct. */
  lemma {:induction false} PutKeepsDistinct<V>(props: Props<V>, key: string, value: V)
    requires DistinctNames(props)
    ensures DistinctNames(Put(props, key, value))
    ensures forall k :: k in Names(Put(props, key, value)) <==> k in Names(props) || k == key
    ensures |Put(props, key, value)| == if key in Names(props) then |props| else |props| + 1
  {
    if props != [] {
      assert Names(props) == [props[0].0] + Names(props[1..]);
      assert props[0].0 !in Names(props[1..]);
      if props[0].0 != key {
        assert forall i :: 0 < i < |props| ==> props[1..][i - 1] == props[i];
        PutKeepsDistinct(props[1..], key, value);
        var tail := Put(props[1..], key, value);
        assert Names(Put(props, key, value)) == [props[0].0] + Names(tail);
      } else {
        assert Names(Put(props, key, value)) == [key] + Names(props[1..]);
      }
    }
  }

  /** After `o[key] = value`, reading `key` gives `value` and every other
      property reads as before. */
  lemma {:induction false} PutLookup<V>(props: Props<V>, key: string, value: V, other: string)
    ensures Lookup(Put(props, key, value), other) == if other == key then Some(value) else Lookup(props, other)
  {
    if props != [] && props[0].0 != key {
      PutLookup(props[1..], key, value, other);
    }
  }

  /** The i-th name is the name of the i-th property. */
  lemma {:induction false} NamesAt<V>(props: Props<V>)
    ensures |Names(props)| == |props|
    ensures forall i :: 0 <= i < |props| ==> Names(props)[i] == props[i].0
  {
    if props != [] {
      NamesAt(props[1..]);
    }
  }

  /** The names of two property lists joined are their names joined. */
  lemma {:induction false} NamesAppend<V>(a: Props<V>, b: Props<V>)
    ensures Names(a + b) == Names(a) + Names(b)
  {
    if a == [] {
      assert a + b == b;
    } else {
      assert (a + b)[1..] == a[1..] + b;
      NamesAppend(a[1..], b);
    }
  }

  /** Dropping the first property keeps the rest distinct, and none of them
      is named like the first. */
  lemma DistinctTail<V>(props: Props<V>)
    requires props != [] && DistinctNames(props)
    ensures DistinctNames(props[1..])
    ensures forall i :: 0 <= i < |props[1..]| ==> props[1..][i].0 != props[0].0
  {
    var rest := props[1..];
    forall i, j | 0 <= i < j < |rest|
      ensures rest[i].0 != rest[j].0
    {
      assert rest[i] == props[i + 1] && rest[j] == props[j + 1];
    }
    forall i | 0 <= i < |rest|
      ensures rest[i].0 != props[0].0
    {
      assert rest[i] == props[i + 1];
    }
  }

  /** Assigning a property the object does not have yet appends it. */
  lemma {:induction false} PutAppends<V>(props: Props<V>, key: string, value: V)
    requires key !in Names(props)
    ensures Put(props, key, value) == props + [(key, value)]
  {
    if props != [] {
      assert Names(props) == [props[0].0] + Names(props[1..]);
      PutAppends(props[1..], key, value);
      assert props == [props[0]] + props[1..];
    }
  }

  /** Assigning the second property the value it already has changes nothing. */
  lemma PutSecondUnchanged<V>(props: Props<V>, key: string, value: V)
    requires |props| >= 2 && props[0].0 != key && props[1] == (key, value)
    ensures Put(props, key, value) == props
  {
    assert Put(props[1..], key, value) == [(key, value)] + props[2..] == props[1..];
    assert props == [props[0]] + props[1..];
  }

  /** `Object.assign(base, options)`, and `{ ...base, ...options }`: the
      properties of `options` assigned onto `base` one after the other. */
  function Assign<V>(base: Props<V>, options: Props<V>): Props<V>
    decreases |options|
  {
    if options == [] then base else Assign(Put(base, options[0].0, options[0].1), options[1..])
  }

  /** A property the options set reads as the options' value; any other reads
      as in `base`. */
  lemma {:induction false} AssignLookup<V>(base: Props<V>, options: Props<V>, key: string)
    requires DistinctNames(options)
    decreases |options|
    ensures Lookup(Assign(base, options), key) == if Lookup(options, key).Some? then Lookup(options, key) else Lookup(base, key)
  {
    if options != [] {
      var rest := options[1..];
      assert forall i :: 0 <= i < |rest| ==> rest[i] == options[i + 1];
      assert DistinctNames(rest);
      AssignLookup(Put(base, options[0].0, options[0].1), rest, key);
      PutLookup(base, options[0].0, options[0].1, key);
      if key == options[0].0 {
        LookupFinds(rest, key);
        assert Lookup(rest, key).None?;
      }
    }
  }

  /** The first property of `base` stays first. */
  lemma {:induction false} PutKeepsFirst<V>(props: Props<V>, key: string, value: V)
    requires props != []
    ensures Put(props, key, value) != [] && Put(props, key, value)[0].0 == props[0].0
  {
  }

  lemma {:induction false} AssignKeepsFirst<V>(base: Props<V>, options: Props<V>)
    requires base != []
    ensures Assign(base, options) != [] && Assign(base, options)[0].0 == base[0].0
    decreases |options|
  {
    if options != [] {
      PutKeepsFirst(base, options[0].0, options[0].1);
      AssignKeepsFirst(Put(base, options[0].0, options[0].1), options[1..]);
    }
  }

  /** Assigning properties with distinct new names appends them in order. */
  lemma {:induction false} AssignAppends<V>(base: Props<V>, options: Props<V>)
    requires DistinctNames(options)
    requires forall i :: 0 <= i < |options| ==> options[i].0 !in Names(base)
    ensures Assign(base, options) == base + options
    decreases |options|
  {
    if options != [] {
      var first := options[0];
      PutAppends(base, first.0, first.1);
      var next := base + [first];
      var rest := options[1..];
      NamesAppend(base, [first]);
      assert Names([first]) == [first.0];
      DistinctTail(options);
      forall i | 0 <= i < |rest|
        ensures rest[i].0 !in Names(next)
      {
        assert rest[i] == options[i + 1];
      }
      AssignAppends(next, rest);
      assert next + rest == base + options;
    }
  }

  /** Assignment keeps property names distinct. */
  lemma {:induction false} AssignKeepsDistinct<V>(base: Props<V>, options: Props<V>)
    requires DistinctNames(base)
    ensures DistinctNames(Assign(base, options))
    decreases |options|
  {
    if options != [] {
      PutKeepsDistinct(base, options[0].0, options[0].1);
      AssignKeepsDistinct(Put(base, options[0].0, options[0].1), options[1..]);
    }
  }

  /** `Object.keys(v)`: the own enumerable property names. */
  function Keys(v: Value): (ks: seq<string>)
    ensures v.Obj? ==> ks == Names(v.fields)
  {
    match v
    case Obj(fields) => Names(fields)
    case Arr(items) => Indices(|items|)
    case Str(s) => Indices(|s|)
    case _ => []
  }

  /** The strings "0", "1", ..., for array and string indices. */
  function Indices(n: nat): (r: seq<string>)
    ensures |r| == n
  {
    if n == 0 then [] else Indices(n - 1) + [IntToString(n - 1)]
  }

  function DigitChar(d: nat): char
    requires d < 10
  {
    "0123456789"[d]
  }

  function NatToString(n: nat): (s: string)
    ensures |s| >= 1
    ensures forall i :: 0 <= i < |s| ==> '0' <= s[i] <= '9'
    decreases n
  {
    if n < 10 then [DigitChar(n)] else NatToString(n / 10) + [DigitChar(n % 10)]
  }

  /** The decimal text of an integer, as `String(n)` writes it. */
  function IntToString(n: int): string {
    if n < 0 then "-" + NatToString(-n) else NatToString(n)
  }

  /** `String(v)` (also `v.toString()` and template interpolation). */
  function ToString(v: Value): string
    decreases v
  {
    match v
    case Undefined => "undefined"
    case Null => "null"
    case Bool(b) => if b then "true" else "false"
    case Num(n) => IntToString(n)
    case Str(s) => s
    case Arr(items) => JoinElements(v, items)
    case Obj(_) => "[object Object]"
  }

  /** `items.join(",")`, where `null` and `undefined` elements become "". */
  function JoinElements(parent: Value, items: seq<Value>): string
    requires forall i :: 0 <= i < |items| ==> items[i] < parent
    decreases parent, |items|
  {
    if items == [] then ""
    else
      var head := if items[0].Undefined? || items[0].Null? then "" else ToString(items[0]);
      if |items| == 1 then head else head + "," + JoinElements(parent, items[1..])
  }

  /** A JSON string literal; only the quote and the backslash are escaped. */
  function Quote(s: string): string {
    "\"" + Escape(s) + "\""
  }

  function Escape(s: string): string {
    if s == [] then ""
    else (if s[0] == '"' then "\\\"" else if s[0] == '\\' then "\\\\" else [s[0]]) + Escape(s[1..])
  }

  /** `JSON.stringify(v)` without indentation. `undefined` array elements are
      written as `null` and `undefined` properties are skipped. */
  function Stringify(v: Value): string
    decreases v
  {
    match v
    case Undefined => "null"
    case Null => "null"
    case Bool(b) => if b then "true" else "false"
    case Num(n) => IntToString(n)
    case Str(s) => Quote(s)
    case Arr(items) => "[" + StringifyItems(v, items) + "]"
    case Obj(fields) => "{" + StringifyFields(v, fields, true) + "}"
  }

  function StringifyItems(parent: Value, items: seq<Value>): string
    requires forall i :: 0 <= i < |items| ==> items[i] < parent
    decreases parent, |items|
  {
    if items == [] then ""
    else if |items| == 1 then Stringify(items[0])
    else Stringify(items[0]) + "," + StringifyItems(parent, items[1..])
  }

  function StringifyFields(parent: Value, fields: Props<Value>, first: bool): string
    requires forall i :: 0 <= i < |fields| ==> fields[i].1 < parent
    decreases parent, |fields|
  {
    if fields == [] then ""
    else if fields[0].1.Undefined? then StringifyFields(parent, fields[1..], first)
    else
      (if first then "" else ",") + Quote(fields[0].0) + ":" + Stringify(fields[0].1)
      + StringifyFields(parent, fields[1..], false)
  }

  /** A value whose properties can be read without a `TypeError`. */
  predicate Readable(v: Value) {
    !v.Null? && !v.Undefined?
  }
}
