/** Values and arrays as the PHP runtime sees them, shared by every module of the model. */
module Php {

  datatype Option<T> = None | Some(value: T)

  /** A PHP array key: an integer or a string. */
  datatype Key = IntKey(i: int) | StrKey(s: string)

  /** An ordered association list: a PHP array keeps its entries in insertion order. */
  type Assoc<K, V> = seq<(K, V)>

  /** A PHP array: integer or string keys, in insertion order. */
  type Array<V> = Assoc<Key, V>

  /** A PHP value as it flows through the framework. */
  datatype Value = Null | Bool(b: bool) | Int(i: int) | Float(f: real) | Str(s: string) | Obj(o: object)

  /** A PHP callable, by the way it was written down. */
  datatype Callback = FunctionName(name: string) | MethodRef(target: string, methodName: string) | Closure(id: nat)

  /** An object built by a container: its class and the arguments its constructor received. */
  class Instance {
    const cls: string
    const args: Array<Value>

    constructor (cls: string, args: Array<Value>)
      ensures this.cls == cls && this.args == args
    {
      this.cls := cls;
      this.args := args;
    }
  }

  predicate Distinct<T(==)>(s: seq<T>) {
    forall i, j :: 0 <= i < j < |s| ==> s[i] != s[j]
  }

  function KeysOf<K, V>(a: Assoc<K, V>): (ks: seq<K>)
    ensures |ks| == |a|
  {
    if a == [] then [] else [a[0].0] + KeysOf(a[1..])
  }

  lemma {:induction false} KeysOfAt<K, V>(a: Assoc<K, V>, i: nat)
    requires i < |a|
    ensures KeysOf(a)[i] == a[i].0
  {
    if i > 0 {
      KeysOfAt(a[1..], i - 1);
    }
  }

  function ValuesOf<K, V>(a: Assoc<K, V>): seq<V> {
    seq(|a|, i requires 0 <= i < |a| => a[i].1)
  }

  lemma {:induction false} KeysOfAppend<K, V>(a: Assoc<K, V>, b: Assoc<K, V>)
    ensures KeysOf(a + b) == KeysOf(a) + KeysOf(b)
  {
    if a != [] {
      assert (a + b)[1..] == a[1..] + b;
      KeysOfAppend(a[1..], b);
    } else {
      assert a + b == b;
    }
  }

  /** Every PHP array has distinct keys. */
  predicate DistinctKeys<K(==,!new), V>(a: Assoc<K, V>) {
    Distinct(KeysOf(a))
  }

  /** `$a[$k]` when `array_key_exists($k, $a)`, otherwise nothing. */
  function Get<K(==,!new), V>(a: Assoc<K, V>, k: K): (r: Option<V>)
    ensures r.None? <==> k !in KeysOf(a)
  {
    if a == [] then None
    else if a[0].0 == k then Some(a[0].1)
    else Get(a[1..], k)
  }

  /** `$a[$k] = $v`: an existing key keeps its place, a new key goes to the end. */
  function Put<K(==,!new), V>(a: Assoc<K, V>, k: K, v: V): Assoc<K, V> {
    if a == [] then [(k, v)]
    else if a[0].0 == k then [(k, v)] + a[1..]
    else [a[0]] + Put(a[1..], k, v)
  }

  /** After assigning a key it holds the new value, and every other key's value is as it was. */
  lemma {:induction false} GetPut<K(!new), V>(a: Assoc<K, V>, k: K, v: V, k': K)
    ensures Get(Put(a, k, v), k') == if k' == k then Some(v) else Get(a, k')
  {
    if a != [] && a[0].0 != k {
      GetPut(a[1..], k, v, k');
    }
  }

  /** Assigning an existing key keeps the key order; a new key is appended. */
  lemma {:induction false} KeysOfPut<K(!new), V>(a: Assoc<K, V>, k: K, v: V)
    ensures KeysOf(Put(a, k, v)) == if k in KeysOf(a) then KeysOf(a) else KeysOf(a) + [k]
  {
    if a != [] && a[0].0 != k {
      KeysOfPut(a[1..], k, v);
      assert KeysOf(Put(a, k, v)) == [a[0].0] + KeysOf(Put(a[1..], k, v));
    }
  }

  /** Storing under a key the array does not have appends the entry at the end. */
  lemma {:induction false} PutAbsent<K(!new), V>(a: Assoc<K, V>, k: K, v: V)
    requires k !in KeysOf(a)
    ensures Put(a, k, v) == a + [(k, v)]
  {
    if a != [] {
      assert KeysOf(a) == [a[0].0] + KeysOf(a[1..]);
      PutAbsent(a[1..], k, v);
      assert [a[0]] + (a[1..] + [(k, v)]) == a + [(k, v)];
    }
  }

  lemma PutKeepsDistinct<K(!new), V>(a: Assoc<K, V>, k: K, v: V)
    requires DistinctKeys(a)
    ensures DistinctKeys(Put(a, k, v))
  {
    KeysOfPut(a, k, v);
  }

  /** `array_is_list`: the keys are 0, 1, ..., count - 1 in this order. */
  predicate IsList<V>(a: Array<V>) {
    forall i :: 0 <= i < |a| ==> a[i].0 == IntKey(i)
  }

  /** A list has integer keys only, so no string key is ever found in it. */
  lemma ListHasNoStringKey<V>(a: Array<V>, s: string)
    requires IsList(a)
    ensures StrKey(s) !in KeysOf(a)
  {
    if StrKey(s) in KeysOf(a) {
      var i :| 0 <= i < |a| && KeysOf(a)[i] == StrKey(s);
      KeysOfAt(a, i);
    }
  }

  /** The list `[v0, v1, ...]` as a PHP array. */
  function ListOf<V>(vs: seq<V>): (a: Array<V>)
    ensures |a| == |vs| && IsList(a) && ValuesOf(a) == vs
  {
    seq(|vs|, i requires 0 <= i < |vs| => (IntKey(i), vs[i]))
  }

  function IntPart<V>(e: (Key, V)): seq<V> {
    if e.0.IntKey? then [e.1] else []
  }

  /** The values stored under integer keys, in array order. */
  function IntValues<V>(a: Array<V>): seq<V> {
    if a == [] then [] else IntPart(a[0]) + IntValues(a[1..])
  }

  /** One step of `array_merge`: an integer-keyed entry is appended under the next
      index (the accumulator's integer keys are always 0 .. n - 1), a string-keyed
      entry is assigned, so a later value replaces an earlier one in place. */
  function AddEntry<V>(acc: Array<V>, e: (Key, V)): Array<V> {
    if e.0.IntKey? then acc + [(IntKey(|IntValues(acc)|), e.1)]
    else Put(acc, e.0, e.1)
  }

  function AddAll<V>(acc: Array<V>, b: Array<V>): Array<V>
    decreases |b|
  {
    if b == [] then acc else AddAll(AddEntry(acc, b[0]), b[1..])
  }

  /** `array_merge($a, $b)`. */
  function Merge<V>(a: Array<V>, b: Array<V>): Array<V> {
    AddAll(AddAll([], a), b)
  }

  lemma {:induction false} IntValuesAppend<V>(a: Array<V>, b: Array<V>)
    ensures IntValues(a + b) == IntValues(a) + IntValues(b)
  {
    if a == [] {
      assert a + b == b;
    } else {
      var ab := a + b;
      assert ab[0] == a[0];
      assert ab[1..] == a[1..] + b;
      IntValuesAppend(a[1..], b);
      assert IntValues(ab) == IntPart(a[0]) + IntValues(a[1..] + b);
    }
  }

  lemma {:induction false} IntValuesPutString<V>(a: Array<V>, k: Key, v: V)
    requires k.StrKey?
    ensures IntValues(Put(a, k, v)) == IntValues(a)
  {
    if a != [] && a[0].0 != k {
      IntValuesPutString(a[1..], k, v);
      assert Put(a, k, v)[1..] == Put(a[1..], k, v);
    }
  }

  lemma {:induction false} AddAllIntValues<V>(acc: Array<V>, b: Array<V>)
    ensures IntValues(AddAll(acc, b)) == IntValues(acc) + IntValues(b)
    decreases |b|
  {
    if b != [] {
      var next := AddEntry(acc, b[0]);
      AddEntryIntValues(acc, b[0]);
      AddAllIntValues(next, b[1..]);
      assert IntValues(b) == IntPart(b[0]) + IntValues(b[1..]);
    }
  }

  /** One merge step appends the entry's value to the integer-keyed values exactly when
      its key is an integer. */
  lemma AddEntryIntValues<V>(acc: Array<V>, e: (Key, V))
    ensures IntValues(AddEntry(acc, e)) == IntValues(acc) + IntPart(e)
  {
    if e.0.IntKey? {
      var added := (IntKey(|IntValues(acc)|), e.1);
      IntValuesAppend(acc, [added]);
      assert IntValues([added]) == [e.1] by {
        assert [added][1..] == [];
      }
    } else {
      IntValuesPutString(acc, e.0, e.1);
    }
  }

  /** `array_merge` appends: the integer-keyed values of the result are those of the
      first array followed by those of the second. */
  lemma MergeIntValues<V>(a: Array<V>, b: Array<V>)
    ensures IntValues(Merge(a, b)) == IntValues(a) + IntValues(b)
  {
    AddAllIntValues([], a);
    AddAllIntValues(AddAll([], a), b);
  }

  lemma {:induction false} GetAppendOther<V>(a: Array<V>, e: (Key, V), k: Key)
    requires e.0 != k
    ensures Get(a + [e], k) == Get(a, k)
  {
    if a != [] {
      assert (a + [e])[1..] == a[1..] + [e];
      GetAppendOther(a[1..], e, k);
    }
  }

  lemma {:induction false} AddAllString<V>(acc: Array<V>, b: Array<V>, k: Key)
    requires k.StrKey? && DistinctKeys(b)
    ensures Get(AddAll(acc, b), k) == if k in KeysOf(b) then Get(b, k) else Get(acc, k)
    decreases |b|
  {
    if b != [] {
      var next := AddEntry(acc, b[0]);
      assert DistinctKeys(b[1..]) by {
        assert KeysOf(b[1..]) == KeysOf(b)[1..];
      }
      AddAllString(next, b[1..], k);
      if b[0].0.StrKey? {
        GetPut(acc, b[0].0, b[0].1, k);
      }
      if b[0].0 == k {
        assert KeysOf(b)[0] == k;
        assert k !in KeysOf(b[1..]) by {
          assert KeysOf(b[1..]) == KeysOf(b)[1..];
        }
      } else if b[0].0.IntKey? {
        GetAppendOther(acc, (IntKey(|IntValues(acc)|), b[0].1), k);
      }
    }
  }

  /** `array_merge` is right-biased on string keys: a key of the second array takes
      its value from there, any other string key keeps the first array's value. */
  lemma MergeStringKey<V>(a: Array<V>, b: Array<V>, s: string)
    requires DistinctKeys(a) && DistinctKeys(b)
    ensures Get(Merge(a, b), StrKey(s)) ==
              if StrKey(s) in KeysOf(b) then Get(b, StrKey(s)) else Get(a, StrKey(s))
  {
    AddAllString([], a, StrKey(s));
    AddAllString(AddAll([], a), b, StrKey(s));
  }
}
