/**
 * Plain JavaScript objects with string values (header objects, JSON request
 * bodies, query parameter lists) as ordered association lists. A JavaScript
 * object keeps each key once, at the position where it was first inserted;
 * assigning an existing key replaces its value in place, and `{...a, ...b}`
 * assigns the entries of `b` one after the other onto a copy of `a`.
 */
module Objects {
  import opened Common

  type Obj = seq<(string, string)>

  /** The keys of `o`, in insertion order. */
  function Keys(o: Obj): seq<string> {
    if o == [] then [] else [o[0].0] + Keys(o[1..])
  }

  /** `o[k]`, or `None` when `k` is not a key of `o`. */
  function Get(o: Obj, k: string): Option<string> {
    if o == [] then None
    else if o[0].0 == k then Some(o[0].1)
    else Get(o[1..], k)
  }

  /** Every key occurs at most once, as in any JavaScript object. */
  predicate DistinctKeys(o: Obj) {
    o == [] || (Get(o[1..], o[0].0).None? && DistinctKeys(o[1..]))
  }

  /**
   * `o[k] = v`: an existing key keeps its position and takes the new value;
   * a new key is appended at the end. No other key changes.
   */
  function Assign(o: Obj, k: string, v: string): (r: Obj)
    ensures Get(r, k) == Some(v)
    ensures forall j :: j != k ==> Get(r, j) == Get(o, j)
    ensures Keys(o) <= Keys(r)
    ensures DistinctKeys(o) ==> DistinctKeys(r)
  {
    if o == [] then [(k, v)]
    else if o[0].0 == k then [(k, v)] + o[1..]
    else [o[0]] + Assign(o[1..], k, v)
  }

  /**
   * `{...o, ...extra}`. A key of `extra` takes `extra`'s value, every other
   * key keeps `o`'s value, and the keys of `o` keep their positions (`extra`
   * overrides a key of `o` without moving it).
   */
  function Spread(o: Obj, extra: Obj): (r: Obj)
    requires DistinctKeys(extra)
    ensures forall k :: Get(r, k) == if Get(extra, k).Some? then Get(extra, k) else Get(o, k)
    ensures Keys(o) <= Keys(r)
    ensures DistinctKeys(o) ==> DistinctKeys(r)
    decreases |extra|
  {
    if extra == [] then o
    else Spread(Assign(o, extra[0].0, extra[0].1), extra[1..])
  }

  /** Reading an object that starts with the entry `x`. */
  lemma GetCons(x: (string, string), o: Obj, k: string)
    ensures Get([x] + o, k) == if x.0 == k then Some(x.1) else Get(o, k)
  {
    assert ([x] + o)[1..] == o;
  }

  lemma KeysCons(x: (string, string), o: Obj)
    ensures Keys([x] + o) == [x.0] + Keys(o)
  {
    assert ([x] + o)[1..] == o;
  }

  lemma DistinctCons(x: (string, string), o: Obj)
    ensures DistinctKeys([x] + o) <==> Get(o, x.0).None? && DistinctKeys(o)
  {
    assert ([x] + o)[1..] == o;
  }
}
