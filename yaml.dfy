/** The dictionaries `json_format.MessageToDict` produces and the serializer
    and the stage driver rewrite: Python's `dict` keeps its keys in insertion
    order, so a dictionary is a list of key/value entries. */
module Yaml {
  import opened Wrappers

  /** A YAML value: what `MessageToDict` yields (None, bool, int, float, str,
      list, dict) and the `byml.Int` / `byml.Float` wrappers the serializer
      puts around numbers. */
  datatype Yml =
    | YNull
    | YBool(b: bool)
    | YInt(i: int)
    | YFloat(x: real)
    | YStr(s: string)
    | YList(items: seq<Yml>)
    | YDict(entries: seq<(string, Yml)>)
    | BymlInt(i: int)
    | BymlFloat(x: real)

  type Entries = seq<(string, Yml)>

  function Keys(d: Entries): (ks: seq<string>)
    ensures |ks| == |d| && forall i :: 0 <= i < |d| ==> ks[i] == d[i].0
  {
    if d == [] then [] else [d[0].0] + Keys(d[1..])
  }

  /** `d.get(k)`: the value of the first entry with key `k`. */
  function Lookup(d: Entries, k: string): Option<Yml>
  {
    if d == [] then None
    else if d[0].0 == k then Some(d[0].1)
    else Lookup(d[1..], k)
  }

  /** A Python dictionary has each key once. */
  predicate DistinctKeys(d: Entries)
  {
    d == [] || (Lookup(d[1..], d[0].0) == None && DistinctKeys(d[1..]))
  }

  /** `d.pop(k)` without the value: the entry goes, the others keep their order. */
  function Pop(d: Entries, k: string): Entries
  {
    if d == [] then []
    else if d[0].0 == k then d[1..]
    else [d[0]] + Pop(d[1..], k)
  }

  /** `d[k] = v`: a present key keeps its place and takes the value, a new
      key goes last. */
  function Put(d: Entries, k: string, v: Yml): Entries
  {
    if d == [] then [(k, v)]
    else if d[0].0 == k then [(k, v)] + d[1..]
    else [d[0]] + Put(d[1..], k, v)
  }

  /** A key is present exactly when it is among the keys. */
  lemma {:induction false} LookupKeys(d: Entries, k: string)
    ensures Lookup(d, k).Some? <==> k in Keys(d)
  {
    if d != [] {
      LookupKeys(d[1..], k);
    }
  }

  /** After `d[k] = v`, `k` maps to `v` and every other key to what it did. */
  lemma {:induction false} PutLookup(d: Entries, k: string, v: Yml, q: string)
    ensures Lookup(Put(d, k, v), q) == if q == k then Some(v) else Lookup(d, q)
  {
    if d != [] && d[0].0 != k {
      PutLookup(d[1..], k, v, q);
    }
  }

  /** `d[k] = v` keeps the keys in their order and adds `k` last when it is new. */
  lemma {:induction false} PutKeys(d: Entries, k: string, v: Yml)
    ensures Keys(Put(d, k, v)) == if k in Keys(d) then Keys(d) else Keys(d) + [k]
  {
    if d != [] && d[0].0 != k {
      PutKeys(d[1..], k, v);
      assert Keys(d) == [d[0].0] + Keys(d[1..]);
    }
  }

  /** `d[k] = v` leaves a dictionary a dictionary. */
  lemma {:induction false} PutDistinct(d: Entries, k: string, v: Yml)
    requires DistinctKeys(d)
    ensures DistinctKeys(Put(d, k, v))
  {
    if d != [] && d[0].0 != k {
      PutDistinct(d[1..], k, v);
      PutLookup(d[1..], k, v, d[0].0);
    }
  }

  /** After `d.pop(k)`, `k` is gone and every other key maps to what it did. */
  lemma {:induction false} PopLookup(d: Entries, k: string, q: string)
    requires DistinctKeys(d)
    ensures Lookup(Pop(d, k), q) == if q == k then None else Lookup(d, q)
  {
    if d != [] && d[0].0 != k {
      PopLookup(d[1..], k, q);
    }
  }

  /** Two dictionaries with the same keys in the same order are alike in
      having each key once. */
  lemma {:induction false} SameKeysDistinct(a: Entries, b: Entries)
    requires Keys(a) == Keys(b)
    ensures DistinctKeys(a) == DistinctKeys(b)
  {
    if a != [] {
      assert Keys(a[1..]) == Keys(b[1..]) by {
        assert Keys(a[1..]) == Keys(a)[1..] && Keys(b[1..]) == Keys(b)[1..];
      }
      assert a[0].0 == b[0].0 by {
        assert Keys(a)[0] == Keys(b)[0];
      }
      LookupKeys(a[1..], a[0].0);
      LookupKeys(b[1..], b[0].0);
      SameKeysDistinct(a[1..], b[1..]);
    }
  }

  /** `d.pop(k)` leaves a dictionary a dictionary. */
  lemma {:induction false} PopDistinct(d: Entries, k: string)
    requires DistinctKeys(d)
    ensures DistinctKeys(Pop(d, k))
  {
    if d != [] && d[0].0 != k {
      PopDistinct(d[1..], k);
      PopLookup(d[1..], k, d[0].0);
    }
  }

  /** `{**a, **b}`: a copy of `a` updated with the entries of `b` in order. */
  function Merged(a: Entries, b: Entries): Entries
    decreases |b|
  {
    if b == [] then a else Merged(Put(a, b[0].0, b[0].1), b[1..])
  }

  /** In `{**a, **b}` the keys of `b` win: a key maps to `b`'s value when `b`
      has it and to `a`'s otherwise. */
  lemma {:induction false} MergedLookup(a: Entries, b: Entries, q: string)
    requires DistinctKeys(b)
    ensures Lookup(Merged(a, b), q) == if Lookup(b, q).Some? then Lookup(b, q) else Lookup(a, q)
    decreases |b|
  {
    if b != [] {
      PutLookup(a, b[0].0, b[0].1, q);
      MergedLookup(Put(a, b[0].0, b[0].1), b[1..], q);
    }
  }

  /** `{**a, **b}` of two dictionaries is a dictionary. */
  lemma {:induction false} MergedDistinct(a: Entries, b: Entries)
    requires DistinctKeys(a)
    ensures DistinctKeys(Merged(a, b))
    decreases |b|
  {
    if b != [] {
      PutDistinct(a, b[0].0, b[0].1);
      MergedDistinct(Put(a, b[0].0, b[0].1), b[1..]);
    }
  }

  /** `{**a, **b}` keeps the keys of `a` first and in their order. */
  lemma {:induction false} MergedKeepsOrder(a: Entries, b: Entries)
    ensures |Keys(Merged(a, b))| >= |Keys(a)| && Keys(Merged(a, b))[..|a|] == Keys(a)
    decreases |b|
  {
    if b != [] {
      var a' := Put(a, b[0].0, b[0].1);
      PutKeys(a, b[0].0, b[0].1);
      MergedKeepsOrder(a', b[1..]);
      assert Keys(a')[..|a|] == Keys(a);
    }
  }

  /** A property of every value survives `d[k] = v` when `v` has it. */
  lemma {:induction false} PutValues(d: Entries, k: string, v: Yml, P: Yml -> bool)
    requires forall i :: 0 <= i < |d| ==> P(d[i].1)
    requires P(v)
    ensures forall i :: 0 <= i < |Put(d, k, v)| ==> P(Put(d, k, v)[i].1)
  {
    if d != [] && d[0].0 != k {
      PutValues(d[1..], k, v, P);
      assert forall i :: 1 <= i < |Put(d, k, v)| ==> Put(d, k, v)[i] == Put(d[1..], k, v)[i - 1];
    }
  }

  /** A property of every value survives `d.pop(k)`. */
  lemma {:induction false} PopValues(d: Entries, k: string, P: Yml -> bool)
    requires forall i :: 0 <= i < |d| ==> P(d[i].1)
    ensures forall i :: 0 <= i < |Pop(d, k)| ==> P(Pop(d, k)[i].1)
  {
    if d != [] && d[0].0 != k {
      PopValues(d[1..], k, P);
      assert forall i :: 1 <= i < |Pop(d, k)| ==> Pop(d, k)[i] == Pop(d[1..], k)[i - 1];
    }
  }

  /** A property of every value of both sides survives `{**a, **b}`. */
  lemma {:induction false} MergedValues(a: Entries, b: Entries, P: Yml -> bool)
    requires forall i :: 0 <= i < |a| ==> P(a[i].1)
    requires forall i :: 0 <= i < |b| ==> P(b[i].1)
    ensures forall i :: 0 <= i < |Merged(a, b)| ==> P(Merged(a, b)[i].1)
    decreases |b|
  {
    if b != [] {
      PutValues(a, b[0].0, b[0].1, P);
      MergedValues(Put(a, b[0].0, b[0].1), b[1..], P);
    }
  }

  /** A value found by `d.get(k)` is one of the values of `d`. */
  lemma {:induction false} LookupValues(d: Entries, k: string, P: Yml -> bool)
    requires forall i :: 0 <= i < |d| ==> P(d[i].1)
    ensures Lookup(d, k).Some? ==> P(Lookup(d, k).value)
  {
    if d != [] && d[0].0 != k {
      LookupValues(d[1..], k, P);
    }
  }
}
