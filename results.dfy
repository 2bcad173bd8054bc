/**
 * The shape every component works on: an additive result set maps a dataset
 * name to a bundle, and a bundle maps an observable name to an additive value.
 *
 * Python dicts keep insertion order, and both the grouping engine (first
 * match, last overwrite) and the output order depend on it, so a result set
 * is an ordered sequence of (name, value) entries with dict-assignment
 * semantics (`Put`). A bundle is only ever looked up and rebuilt key by key,
 * so it is a plain `map`.
 */
module Results {

  datatype Option<T> = None | Some(value: T)

  /** The exceptions the aggregation code lets escape, by condition. */
  datatype Error =
    | StructureMismatch        // ValueError: bundles of one group have different observables
    | KeyLookup(key: string)   // KeyError on the named key
    | ZeroDivision(dataset: string)  // a zero raw event count in the scale factor

  datatype Result<T> = Ok(value: T) | Err(error: Error) {
    predicate IsFailure() { Err? }
    function PropagateFailure<U>(): Result<U>
      requires Err?
    {
      Err(error)
    }
    function Extract(): T
      requires Ok?
    {
      value
    }
  }

  /**
   * An additive value. `Number` is a Python int or float: immutable, so
   * `x *= f` only rebinds a local name. `Accumulator` is a histogram-like
   * object that adds and scales in place; its contents are abstracted to one
   * real (every operation here is linear, so one real per bin behaves alike).
   */
  datatype Obs = Number(v: real) | Accumulator(v: real)

  /** `a + b`: numbers stay numbers, anything involving an accumulator is one. */
  function Plus(a: Obs, b: Obs): (r: Obs)
    ensures r.v == a.v + b.v
    ensures r.Number? <==> a.Number? && b.Number?
  {
    if a.Number? && b.Number? then Number(a.v + b.v) else Accumulator(a.v + b.v)
  }

  /** `a * f`, which keeps the kind of `a`. */
  function Times(a: Obs, f: real): (r: Obs)
    ensures r.v == a.v * f
    ensures r.Number? == a.Number?
  {
    if a.Number? then Number(a.v * f) else Accumulator(a.v * f)
  }

  type Bundle = map<string, Obs>

  type Entries<V> = seq<(string, V)>

  type ResultSet = Entries<Bundle>

  /** The keys of an ordered dict, in iteration order. */
  function Names<V>(e: Entries<V>): (r: seq<string>)
    ensures |r| == |e|
    ensures forall i :: 0 <= i < |e| ==> r[i] == e[i].0
  {
    if e == [] then [] else [e[0].0] + Names(e[1..])
  }

  /** A Python dict never holds the same key twice. */
  ghost predicate IsDict<V>(e: Entries<V>) {
    forall i, j :: 0 <= i < j < |e| ==> e[i].0 != e[j].0
  }

  /** `d.get(k)`: the value stored under `k`, if any. */
  function Lookup<V>(e: Entries<V>, k: string): (r: Option<V>)
    ensures r.Some? <==> k in Names(e)
    ensures r.Some? ==> exists i :: 0 <= i < |e| && e[i] == (k, r.value)
  {
    if e == [] then None
    else if e[0].0 == k then Some(e[0].1)
    else
      var r := Lookup(e[1..], k);
      assert Names(e) == [e[0].0] + Names(e[1..]);
      assert r.Some? ==> exists i :: 0 <= i < |e| && e[i] == (k, r.value) by {
        if r.Some? {
          var i :| 0 <= i < |e[1..]| && e[1..][i] == (k, r.value);
          assert e[i + 1] == (k, r.value);
        }
      }
      r
  }

  /**
   * `d[k] = v`: an existing key keeps its position and gets the new value,
   * a new key goes to the end.
   */
  function Put<V>(e: Entries<V>, k: string, v: V): (r: Entries<V>)
    ensures k in Names(e) ==> |r| == |e|
    ensures k !in Names(e) ==> r == e + [(k, v)]
  {
    if e == [] then [(k, v)]
    else if e[0].0 == k then [(k, v)] + e[1..]
    else
      assert Names(e) == [e[0].0] + Names(e[1..]);
      [e[0]] + Put(e[1..], k, v)
  }

  /** After `d[k] = v`, `k` holds `v` and every other key holds what it held. */
  lemma {:induction false} PutLookup<V>(e: Entries<V>, k: string, v: V, k': string)
    ensures Lookup(Put(e, k, v), k') == if k' == k then Some(v) else Lookup(e, k')
    ensures k' in Names(Put(e, k, v)) <==> k' == k || k' in Names(e)
  {
    if e != [] && e[0].0 != k {
      PutLookup(e[1..], k, v, k');
      assert Put(e, k, v) == [e[0]] + Put(e[1..], k, v);
      assert Put(e, k, v)[1..] == Put(e[1..], k, v);
    }
  }

  /** In a dict, the value stored under the key at position `i` is the one there. */
  lemma {:induction false} LookupAt<V>(e: Entries<V>, i: nat)
    requires IsDict(e)
    requires i < |e|
    ensures Lookup(e, e[i].0) == Some(e[i].1)
  {
    if i > 0 {
      assert e[1..][i - 1] == e[i];
      LookupAt(e[1..], i - 1);
    }
  }

  /** `d[k] = v` keeps every key unique. */
  lemma PutKeepsDict<V>(e: Entries<V>, k: string, v: V)
    requires IsDict(e)
    ensures IsDict(Put(e, k, v))
  {
    if k in Names(e) {
      var i :| 0 <= i < |e| && e[i].0 == k;
      PutReplaces(e, i, v);
    }
  }

  /** Updating past the head of `[a] + t` updates `t`. */
  lemma ConsUpdate<T>(a: T, t: seq<T>, j: nat, x: T)
    requires j < |t|
    ensures ([a] + t)[j + 1 := x] == [a] + t[j := x]
  {
    var lhs, rhs := ([a] + t)[j + 1 := x], [a] + t[j := x];
    forall m | 0 <= m < |lhs| ensures lhs[m] == rhs[m] {
      if m > 0 {
        assert rhs[m] == t[j := x][m - 1];
      }
    }
  }

  /** Putting the key of the first entry replaces that entry. */
  lemma PutHead<V>(e: Entries<V>, v: V)
    requires e != []
    ensures Put(e, e[0].0, v) == e[0 := (e[0].0, v)]
  {
    assert [(e[0].0, v)] + e[1..] == e[0 := (e[0].0, v)];
  }

  /** Putting a key other than the first keeps the first entry and puts into the rest. */
  lemma PutCons<V>(e: Entries<V>, k: string, v: V)
    requires e != [] && e[0].0 != k
    ensures Put(e, k, v) == [e[0]] + Put(e[1..], k, v)
  {
  }

  /**
   * Putting the key at position `i`, when no earlier entry has that key,
   * replaces that entry and nothing else.
   */
  lemma {:induction false} PutReplaces<V>(e: Entries<V>, i: nat, v: V)
    requires i < |e|
    requires forall j :: 0 <= j < i ==> e[j].0 != e[i].0
    ensures Put(e, e[i].0, v) == e[i := (e[i].0, v)]
  {
    var k := e[i].0;
    if i == 0 {
      PutHead(e, v);
    } else {
      var tail := e[1..];
      assert tail[i - 1] == e[i];
      assert forall j :: 0 <= j < i - 1 ==> tail[j] == e[j + 1];
      PutReplaces(tail, i - 1, v);
      PutCons(e, k, v);
      assert e == [e[0]] + tail;
      ConsUpdate(e[0], tail, i - 1, (k, v));
    }
  }
}
