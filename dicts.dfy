/**
 * Python dictionaries as ordered association lists: keys keep their insertion
 * order, assigning to a present key keeps its position, and `update` assigns
 * the entries of the second dictionary one after the other.
 */
module Dicts {
  import opened Wrappers

  type Dict<V> = seq<(string, V)>

  /** `d.get(k)`: the value stored under `k`, if any. */
  function Get<V>(d: Dict<V>, k: string): Option<V> {
    if d == [] then None
    else if d[0].0 == k then Some(d[0].1)
    else Get(d[1..], k)
  }

  predicate HasKey<V>(d: Dict<V>, k: string) {
    Get(d, k).Some?
  }

  /** Every key occurs once, as in a real dictionary. */
  predicate Wf<V>(d: Dict<V>) {
    d == [] || (!HasKey(d[1..], d[0].0) && Wf(d[1..]))
  }

  /** `d[k] = v`. */
  function Put<V>(d: Dict<V>, k: string, v: V): Dict<V> {
    if d == [] then [(k, v)]
    else if d[0].0 == k then [(k, v)] + d[1..]
    else [d[0]] + Put(d[1..], k, v)
  }

  /** `d.update(e)`. */
  function Update<V>(d: Dict<V>, e: Dict<V>): Dict<V>
    decreases |e|
  {
    if e == [] then d else Update(Put(d, e[0].0, e[0].1), e[1..])
  }

  lemma {:induction false} GetPut<V>(d: Dict<V>, k: string, v: V, k': string)
    ensures Get(Put(d, k, v), k') == if k' == k then Some(v) else Get(d, k')
  {
    if d != [] && d[0].0 != k {
      GetPut(d[1..], k, v, k');
    }
  }

  lemma {:induction false} PutWf<V>(d: Dict<V>, k: string, v: V)
    requires Wf(d)
    ensures Wf(Put(d, k, v))
  {
    if d != [] && d[0].0 != k {
      PutWf(d[1..], k, v);
      GetPut(d[1..], k, v, d[0].0);
      assert Put(d, k, v)[1..] == Put(d[1..], k, v);
    }
  }

  /** After `d.update(e)` a key has the value `e` gives it, or else the one it had in `d`. */
  lemma {:induction false} GetUpdate<V>(d: Dict<V>, e: Dict<V>, k: string)
    requires Wf(e)
    ensures Get(Update(d, e), k) == if HasKey(e, k) then Get(e, k) else Get(d, k)
    decreases |e|
  {
    if e != [] {
      GetUpdate(Put(d, e[0].0, e[0].1), e[1..], k);
      GetPut(d, e[0].0, e[0].1, k);
    }
  }

  lemma {:induction false} UpdateWf<V>(d: Dict<V>, e: Dict<V>)
    requires Wf(d)
    ensures Wf(Update(d, e))
    decreases |e|
  {
    if e != [] {
      PutWf(d, e[0].0, e[0].1);
      UpdateWf(Put(d, e[0].0, e[0].1), e[1..]);
    }
  }

  /** `update` of a longer dictionary is one more assignment. */
  lemma {:induction false} UpdateSnoc<V>(d: Dict<V>, e: Dict<V>, k: string, v: V)
    ensures Update(d, e + [(k, v)]) == Put(Update(d, e), k, v)
    decreases |e|
  {
    if e == [] {
      assert ([] + [(k, v)])[1..] == [];
    } else {
      assert (e + [(k, v)])[1..] == e[1..] + [(k, v)];
      UpdateSnoc(Put(d, e[0].0, e[0].1), e[1..], k, v);
    }
  }
}
