/** Counter objects such as `groups[value] = (groups[value] || 0) + 1`: a
    property per distinct key, in the order the keys were first seen. */
module Tally {
  import opened Json

  type Counts = Props<nat>

  /** The count stored under `key`, 0 when the key is absent. */
  function CountOf(t: Counts, key: string): nat {
    if t == [] then 0 else if t[0].0 == key then t[0].1 else CountOf(t[1..], key)
  }

  /** The sum of all counts. */
  function Total(t: Counts): nat {
    if t == [] then 0 else t[0].1 + Total(t[1..])
  }

  /** `t[key] = (t[key] || 0) + 1`. */
  function Bump(t: Counts, key: string): Counts {
    Put<nat>(t, key, CountOf(t, key) + 1)
  }

  /** Counting every key of `keys` in turn, as a `reduce` or `forEach` does. */
  function TallyOf(keys: seq<string>): Counts {
    if keys == [] then [] else Bump(TallyOf(keys[..|keys| - 1]), keys[|keys| - 1])
  }

  /** How many entries of `keys` equal `key`. */
  function Occurrences(keys: seq<string>, key: string): nat {
    if keys == [] then 0
    else Occurrences(keys[..|keys| - 1], key) + (if keys[|keys| - 1] == key then 1 else 0)
  }

  lemma {:induction false} BumpCounts(t: Counts, key: string, other: string)
    requires DistinctNames(t)
    ensures DistinctNames(Bump(t, key))
    ensures Total(Bump(t, key)) == Total(t) + 1
    ensures CountOf(Bump(t, key), other) == CountOf(t, other) + (if other == key then 1 else 0)
  {
    PutKeepsDistinct<nat>(t, key, CountOf(t, key) + 1);
    PutCounts(t, key, CountOf(t, key) + 1, other);
  }

  lemma {:induction false} PutCounts(t: Counts, key: string, n: nat, other: string)
    requires DistinctNames(t)
    ensures Total(Put<nat>(t, key, n)) == Total(t) - CountOf(t, key) + n
    ensures CountOf(Put<nat>(t, key, n), other) == if other == key then n else CountOf(t, other)
  {
    if t != [] {
      assert Names(t) == [t[0].0] + Names(t[1..]);
      assert forall i :: 0 < i < |t| ==> t[1..][i - 1] == t[i];
      if t[0].0 != key {
        PutCounts(t[1..], key, n, other);
      } else {
        AbsentCountsZero(t[1..], key);
      }
    }
  }

  lemma {:induction false} AbsentCountsZero(t: Counts, key: string)
    requires key !in Names(t)
    ensures CountOf(t, key) == 0
  {
    if t != [] {
      assert Names(t) == [t[0].0] + Names(t[1..]);
      AbsentCountsZero(t[1..], key);
    }
  }

  /** A tally has one property per distinct key, its counts add up to the
      number of keys counted, and each count is that key's number of occurrences. */
  lemma {:induction false} TallyOfCounts(keys: seq<string>, key: string)
    ensures DistinctNames(TallyOf(keys))
    ensures Total(TallyOf(keys)) == |keys|
    ensures CountOf(TallyOf(keys), key) == Occurrences(keys, key)
  {
    if keys != [] {
      var init := keys[..|keys| - 1];
      TallyOfCounts(init, key);
      BumpCounts(TallyOf(init), keys[|keys| - 1], key);
    }
  }

  /** Counting the keys onto an existing counter object. */
  function BumpAll(t: Counts, keys: seq<string>): Counts {
    if keys == [] then t else Bump(BumpAll(t, keys[..|keys| - 1]), keys[|keys| - 1])
  }

  /** Counting onto an empty object is the tally of the keys, and counting
      two runs of keys in turn is counting them together. */
  lemma {:induction false} BumpAllAppend(t: Counts, a: seq<string>, b: seq<string>)
    ensures BumpAll(t, a + b) == BumpAll(BumpAll(t, a), b)
    ensures BumpAll([], a) == TallyOf(a)
  {
    if b != [] {
      assert (a + b)[..|a + b| - 1] == a + b[..|b| - 1];
      BumpAllAppend(t, a, b[..|b| - 1]);
    } else {
      assert a + b == a;
    }
    if a != [] {
      BumpAllAppend(t, a[..|a| - 1], []);
    }
  }

  /** `set.add(key)` on an insertion-ordered set. */
  function AddKey(seen: seq<string>, key: string): seq<string> {
    if key in seen then seen else seen + [key]
  }

  /** Adding every key in turn, as `keys.forEach(k => set.add(k))` does. */
  function AddKeys(seen: seq<string>, keys: seq<string>): seq<string> {
    if keys == [] then seen else AddKey(AddKeys(seen, keys[..|keys| - 1]), keys[|keys| - 1])
  }

  predicate Distinct(xs: seq<string>) {
    forall i, j :: 0 <= i < j < |xs| ==> xs[i] != xs[j]
  }

  /** In a list without repeats, no entry occurs before its own place. */
  lemma DistinctFresh(xs: seq<string>, i: int)
    requires Distinct(xs) && 0 <= i < |xs|
    ensures xs[i] !in xs[..i]
  {
  }

  /** The set keeps its earlier members in place, has no repeats, and holds
      exactly its earlier members and the added keys. */
  lemma {:induction false} AddKeysContents(seen: seq<string>, keys: seq<string>)
    requires Distinct(seen)
    ensures Distinct(AddKeys(seen, keys))
    ensures forall k :: k in AddKeys(seen, keys) <==> k in seen || k in keys
    ensures |seen| <= |AddKeys(seen, keys)| && AddKeys(seen, keys)[..|seen|] == seen
  {
    if keys != [] {
      var init := keys[..|keys| - 1];
      AddKeysContents(seen, init);
      assert keys == init + [keys[|keys| - 1]];
      var r := AddKeys(seen, init);
      if keys[|keys| - 1] !in r {
        assert (r + [keys[|keys| - 1]])[..|seen|] == r[..|seen|];
      }
    }
  }

  lemma {:induction false} AddKeysAppend(seen: seq<string>, a: seq<string>, b: seq<string>)
    ensures AddKeys(seen, a + b) == AddKeys(AddKeys(seen, a), b)
  {
    if b != [] {
      assert (a + b)[..|a + b| - 1] == a + b[..|b| - 1];
      AddKeysAppend(seen, a, b[..|b| - 1]);
    } else {
      assert a + b == a;
    }
  }

  /** A counter object lists its property names in the order the keys were
      first counted: the same order an insertion-ordered set of the keys has. */
  lemma {:induction false} TallyNames(keys: seq<string>)
    ensures Names(TallyOf(keys)) == AddKeys([], keys)
  {
    if keys != [] {
      var init := keys[..|keys| - 1];
      var key := keys[|keys| - 1];
      TallyNames(init);
      TallyOfCounts(init, key);
      PutNames<nat>(TallyOf(init), key, CountOf(TallyOf(init), key) + 1);
    }
  }

  lemma {:induction false} PutNames<V>(props: Props<V>, key: string, value: V)
    ensures Names(Put(props, key, value)) == if key in Names(props) then Names(props) else Names(props) + [key]
  {
    if props != [] {
      assert Names(props) == [props[0].0] + Names(props[1..]);
      if props[0].0 != key {
        PutNames(props[1..], key, value);
        assert Names(Put(props, key, value)) == [props[0].0] + Names(Put(props[1..], key, value));
      } else {
        assert Names(Put(props, key, value)) == [key] + Names(props[1..]);
      }
    }
  }

  /** Membership alone, for any starting sequence. */
  lemma {:induction false} AddKeysMembers(seen: seq<string>, keys: seq<string>)
    ensures forall k :: k in AddKeys(seen, keys) <==> k in seen || k in keys
  {
    if keys != [] {
      var init := keys[..|keys| - 1];
      AddKeysMembers(seen, init);
      assert keys == init + [keys[|keys| - 1]];
    }
  }

  /** Assigning properties one after another adds each new name at the end,
      as an insertion-ordered set does. */
  lemma {:induction false} AssignNames<V>(base: Props<V>, options: Props<V>)
    ensures Names(Assign(base, options)) == AddKeys(Names(base), Names(options))
    decreases |options|
  {
    if options == [] {
    } else {
      var (k, v) := options[0];
      PutNames(base, k, v);
      AssignNames(Put(base, k, v), options[1..]);
      assert Names(options) == [k] + Names(options[1..]);
      AddKeysAppend(Names(base), [k], Names(options[1..]));
      assert [k][..0] == [];
    }
  }
}
