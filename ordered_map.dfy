/**
 * An insertion-ordered string-keyed table: a JavaScript `Map`, or a plain object whose keys are
 * not array indices. Setting a new key appends it; setting a key already there keeps its place.
 */
module OrderedMap {
  /** The keys in insertion order and what each key maps to. */
  datatype Entries<V> = Entries(keys: seq<string>, vals: map<string, V>)

  function Empty<V>(): Entries<V> {
    Entries([], map[])
  }

  /** Each key is listed once, and exactly the keys with an entry are listed. */
  ghost predicate WellFormed<V>(e: Entries<V>) {
    && (forall i, j :: 0 <= i < j < |e.keys| ==> e.keys[i] != e.keys[j])
    && (forall d :: d in e.vals <==> d in e.keys)
  }

  /** `map.set(d, v)`, `obj[d] = v`. */
  function Put<V>(e: Entries<V>, d: string, v: V): Entries<V> {
    Entries(if d in e.vals then e.keys else e.keys + [d], e.vals[d := v])
  }

  /** `Array.from(map.values())`, `Object.values(obj)`. */
  function Values<V>(e: Entries<V>): (r: seq<V>)
    requires WellFormed(e)
    ensures |r| == |e.keys| && forall i :: 0 <= i < |e.keys| ==> r[i] == e.vals[e.keys[i]]
  {
    seq(|e.keys|, i requires 0 <= i < |e.keys| => e.vals[e.keys[i]])
  }

  /** Setting a key keeps the table well formed, and keeps the earlier keys in front. */
  lemma PutWellFormed<V>(e: Entries<V>, d: string, v: V)
    requires WellFormed(e)
    ensures WellFormed(Put(e, d, v))
    ensures e.keys <= Put(e, d, v).keys && d in Put(e, d, v).vals && Put(e, d, v).vals[d] == v
  {
    var r := Put(e, d, v);
    if d !in e.vals {
      forall i, j | 0 <= i < j < |r.keys| ensures r.keys[i] != r.keys[j] {
        if j == |e.keys| { assert r.keys[i] == e.keys[i] && e.keys[i] in e.keys; }
        else { assert r.keys[i] == e.keys[i] && r.keys[j] == e.keys[j]; }
      }
    }
  }

  /** A table updated in place. */
  class Table<V> {
    var keys: seq<string>
    var vals: map<string, V>

    function State(): Entries<V>
      reads this
    {
      Entries(keys, vals)
    }

    constructor ()
      ensures State() == Empty()
    {
      keys := [];
      vals := map[];
    }

    /** `map.set(d, v)`. */
    method Set(d: string, v: V)
      modifies this
      ensures State() == Put(old(State()), d, v)
    {
      if d !in vals {
        keys := keys + [d];
      }
      vals := vals[d := v];
    }
  }
}
