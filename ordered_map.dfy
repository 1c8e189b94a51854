/** A JavaScript plain object used as a dictionary from string keys to values.
    `Object.keys` and `for (const k in o)` visit the keys in insertion order
    (the ids used here are numeric snowflakes: never array-index strings,
    which JavaScript would list first, nor `__proto__` or an inherited
    property name, which a lookup would find without an own key);
    assigning to an existing key keeps its place. */
module OrderedMap {
  import opened JsValues

  type Dict<V> = seq<(string, V)>

  /** `Object.keys(d)`. */
  function Keys<V>(d: Dict<V>): (ks: seq<string>)
    ensures |ks| == |d|
    ensures forall i :: 0 <= i < |d| ==> ks[i] == d[i].0
  {
    if d == [] then [] else [d[0].0] + Keys(d[1..])
  }

  predicate Has<V>(d: Dict<V>, k: string) {
    k in Keys(d)
  }

  /** `d[k]`, None when the key is absent. */
  function Get<V>(d: Dict<V>, k: string): (r: Option<V>)
    ensures r.Some? <==> Has(d, k)
  {
    if d == [] then None
    else if d[0].0 == k then Some(d[0].1)
    else
      assert Keys(d) == [d[0].0] + Keys(d[1..]);
      Get(d[1..], k)
  }

  /** When no key occurs twice, the i-th entry is what its key looks up. */
  lemma {:induction false} GetAt<V>(d: Dict<V>, i: nat)
    requires NoDuplicates(Keys(d)) && i < |d|
    ensures Get(d, d[i].0) == Some(d[i].1)
  {
    if i > 0 {
      assert Keys(d)[0] != Keys(d)[i];
      assert Keys(d) == [d[0].0] + Keys(d[1..]);
      assert d[1..][i - 1] == d[i];
      GetAt(d[1..], i - 1);
    }
  }

  /** `d[k] = v`: a new key goes last, an existing key keeps its place and
      only its value changes. */
  function Put<V>(d: Dict<V>, k: string, v: V): (r: Dict<V>)
  {
    if d == [] then [(k, v)]
    else if d[0].0 == k then [(k, v)] + d[1..]
    else [d[0]] + Put(d[1..], k, v)
  }

  lemma {:induction false} PutSpec<V>(d: Dict<V>, k: string, v: V)
    ensures Keys(Put(d, k, v)) == if Has(d, k) then Keys(d) else Keys(d) + [k]
    ensures Get(Put(d, k, v), k) == Some(v)
    ensures forall k' :: k' != k ==> Get(Put(d, k, v), k') == Get(d, k')
  {
    var r := Put(d, k, v);
    if d == [] {
    } else if d[0].0 == k {
      assert Keys([(k, v)] + d[1..]) == [k] + Keys(d[1..]);
    } else {
      var rest := Put(d[1..], k, v);
      PutSpec(d[1..], k, v);
      assert Keys(d) == [d[0].0] + Keys(d[1..]);
      assert Keys([d[0]] + rest) == [d[0].0] + Keys(rest);
      assert ([d[0]] + rest)[1..] == rest;
    }
  }

  /** Assigning twice to one key is the same as assigning the second value once. */
  lemma {:induction false} PutTwice<V>(d: Dict<V>, k: string, v1: V, v2: V)
    ensures Put(Put(d, k, v1), k, v2) == Put(d, k, v2)
  {
    if d != [] && d[0].0 != k {
      PutTwice(d[1..], k, v1, v2);
      PutSpec(d[1..], k, v1);
      assert Put(d, k, v1)[1..] == Put(d[1..], k, v1);
    }
  }

  /** The object built by assigning the entries one after the other. */
  function PutAll<V>(es: seq<(string, V)>): Dict<V> {
    if es == [] then [] else Put(PutAll(es[..|es| - 1]), es[|es| - 1].0, es[|es| - 1].1)
  }

  function KeysOf<V>(es: seq<(string, V)>): (ks: seq<string>)
    ensures |ks| == |es| && forall i :: 0 <= i < |es| ==> ks[i] == es[i].0
  {
    if es == [] then [] else KeysOf(es[..|es| - 1]) + [es[|es| - 1].0]
  }

  /** Its keys are the assigned keys, each once, in order of first assignment. */
  lemma {:induction false} PutAllKeys<V>(es: seq<(string, V)>)
    ensures Keys(PutAll(es)) == Distinct(KeysOf(es))
  {
    if es != [] {
      var p, k, v := es[..|es| - 1], es[|es| - 1].0, es[|es| - 1].1;
      var q, ks := PutAll(p), KeysOf(p);
      assert PutAll(es) == Put(q, k, v);
      PutAllKeys(p);
      PutSpec(q, k, v);
      assert KeysOf(es) == ks + [k];
      DistinctSnoc(ks, k);
      assert Has(q, k) <==> k in Distinct(ks);
    }
  }

  /** Under each key lies the value assigned to it last. */
  lemma {:induction false} PutAllValues<V>(es: seq<(string, V)>, j: nat)
    requires j < |es|
    requires forall l :: j < l < |es| ==> es[l].0 != es[j].0
    ensures Get(PutAll(es), es[j].0) == Some(es[j].1)
  {
    var p := es[..|es| - 1];
    PutSpec(PutAll(p), es[|es| - 1].0, es[|es| - 1].1);
    if j < |es| - 1 {
      PutAllValues(p, j);
    }
  }
}
