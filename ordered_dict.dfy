/**
 * Insertion-ordered dictionaries keyed by strings, as the language's `dict`
 * and `collections.defaultdict(list)`: assigning an existing key replaces its
 * value in place, assigning a new key appends it at the end, and reading an
 * absent bucket of a default dictionary gives the empty list.
 */
module OrderedDict {
  import opened Wrappers

  datatype Entry<V> = Entry(key: string, value: V)

  type Dict<V> = seq<Entry<V>>

  function Keys<V>(d: Dict<V>): (ks: seq<string>)
    ensures |ks| == |d|
    ensures forall i :: 0 <= i < |d| ==> ks[i] == d[i].key
  {
    seq(|d|, i requires 0 <= i < |d| => d[i].key)
  }

  predicate DistinctKeys<V>(d: Dict<V>) {
    forall i, j :: 0 <= i < j < |d| ==> d[i].key != d[j].key
  }

  /** The position of the first entry with key `k`, or `|d|` when there is none. */
  function Find<V>(d: Dict<V>, k: string): (i: nat)
    ensures i <= |d|
    ensures i < |d| ==> d[i].key == k
    ensures forall j :: 0 <= j < i ==> d[j].key != k
  {
    if d == [] then 0
    else if d[0].key == k then 0
    else 1 + Find(d[1..], k)
  }

  lemma FindIs<V>(d: Dict<V>, k: string, i: nat)
    requires i <= |d|
    requires i < |d| ==> d[i].key == k
    requires forall j :: 0 <= j < i ==> d[j].key != k
    ensures Find(d, k) == i
  {
  }

  function Lookup<V>(d: Dict<V>, k: string): (r: Option<V>)
    ensures r.Some? <==> k in Keys(d)
  {
    var i := Find(d, k);
    if i < |d| then Some(d[i].value) else None
  }

  /** Reading a key looks at the first entry, then at the rest. */
  lemma LookupCons<V>(d: Dict<V>, k: string)
    requires d != []
    ensures Lookup(d, k) == if d[0].key == k then Some(d[0].value) else Lookup(d[1..], k)
  {
    if d[0].key != k {
      assert Find(d, k) == 1 + Find(d[1..], k);
    }
  }

  /** `d[k] = v`: replaces the value of an existing key in place, or appends a new entry. */
  function Put<V>(d: Dict<V>, k: string, v: V): Dict<V> {
    var i := Find(d, k);
    if i < |d| then d[i := Entry(k, v)] else d + [Entry(k, v)]
  }

  /** After `d[k] = v`, `k` reads `v` and every other key reads what it read before. */
  lemma PutLookup<V>(d: Dict<V>, k: string, v: V)
    ensures Lookup(Put(d, k, v), k) == Some(v)
    ensures forall k' :: k' != k ==> Lookup(Put(d, k, v), k') == Lookup(d, k')
  {
    var i := Find(d, k);
    var r := Put(d, k, v);
    FindIs(r, k, i);
    forall k' | k' != k
      ensures Lookup(r, k') == Lookup(d, k')
    {
      var j := Find(d, k');
      if i == |d| && j == |d| {
        FindIs(r, k', |r|);
      } else {
        FindIs(r, k', j);
      }
    }
  }

  /** A new key is appended; an existing key keeps its position; distinct keys stay distinct. */
  lemma PutKeys<V>(d: Dict<V>, k: string, v: V)
    ensures Keys(Put(d, k, v)) == if k in Keys(d) then Keys(d) else Keys(d) + [k]
    ensures DistinctKeys(d) ==> DistinctKeys(Put(d, k, v))
  {
    var i := Find(d, k);
    if i < |d| {
      assert Keys(Put(d, k, v)) == Keys(d);
    } else {
      assert k !in Keys(d);
      assert Keys(Put(d, k, v)) == Keys(d) + [k];
    }
  }

  /** Reading a default dictionary of lists: the bucket of `k`, empty when absent. */
  function Bucket<V>(d: Dict<seq<V>>, k: string): seq<V> {
    var r := Lookup(d, k);
    if r.Some? then r.value else []
  }

  /** `d[k].append(v)` on a `defaultdict(list)`. */
  function Append<V>(d: Dict<seq<V>>, k: string, v: V): Dict<seq<V>> {
    Put(d, k, Bucket(d, k) + [v])
  }

  /** The total number of values held over all buckets. */
  function Total<V>(d: Dict<seq<V>>): nat {
    if d == [] then 0 else Total(d[..|d| - 1]) + |d[|d| - 1].value|
  }

  lemma {:induction false} TotalAppendEntry<V>(d: Dict<seq<V>>, e: Entry<seq<V>>)
    ensures Total(d + [e]) == Total(d) + |e.value|
  {
    assert (d + [e])[..|d + [e]| - 1] == d;
  }

  lemma {:induction false} TotalUpdate<V>(d: Dict<seq<V>>, i: nat, e: Entry<seq<V>>)
    requires i < |d|
    ensures Total(d[i := e]) + |d[i].value| == Total(d) + |e.value|
  {
    var n := |d| - 1;
    if i == n {
      assert d[i := e][..n] == d[..n];
    } else {
      assert d[i := e][..n] == d[..n][i := e];
      TotalUpdate(d[..n], i, e);
    }
  }

  /** Appending one value to a default dictionary adds exactly one value to its total. */
  lemma AppendTotal<V>(d: Dict<seq<V>>, k: string, v: V)
    ensures Total(Append(d, k, v)) == Total(d) + 1
  {
    var i := Find(d, k);
    if i < |d| {
      TotalUpdate(d, i, Entry(k, Bucket(d, k) + [v]));
    } else {
      TotalAppendEntry(d, Entry(k, Bucket(d, k) + [v]));
    }
  }

  /**
   * The default dictionary built by appending `value(x)` to the bucket
   * `key(x)` for every item `x`, in item order.
   */
  function Grouped<T, V>(items: seq<T>, key: T -> string, value: T -> V): Dict<seq<V>> {
    if items == [] then []
    else
      var last := items[|items| - 1];
      Append(Grouped(items[..|items| - 1], key, value), key(last), value(last))
  }

  /** The values of the items whose key is `k`, in item order. */
  function Pick<T, V>(items: seq<T>, key: T -> string, value: T -> V, k: string): seq<V> {
    if items == [] then []
    else
      var last := items[|items| - 1];
      Pick(items[..|items| - 1], key, value, k) + (if key(last) == k then [value(last)] else [])
  }

  /** Each item lands in exactly the bucket of its key, in item order. */
  lemma {:induction false} GroupedBucket<T, V>(items: seq<T>, key: T -> string, value: T -> V, k: string)
    ensures Bucket(Grouped(items, key, value), k) == Pick(items, key, value, k)
  {
    if items != [] {
      var init, last := items[..|items| - 1], items[|items| - 1];
      var g := Grouped(init, key, value);
      GroupedBucket(init, key, value, k);
      PutLookup(g, key(last), Bucket(g, key(last)) + [value(last)]);
    }
  }

  /** The bucket sizes add up to the number of items, and no key appears twice. */
  lemma {:induction false} GroupedTotal<T, V>(items: seq<T>, key: T -> string, value: T -> V)
    ensures Total(Grouped(items, key, value)) == |items|
    ensures DistinctKeys(Grouped(items, key, value))
  {
    if items != [] {
      var init, last := items[..|items| - 1], items[|items| - 1];
      var g := Grouped(init, key, value);
      GroupedTotal(init, key, value);
      AppendTotal(g, key(last), value(last));
      PutKeys(g, key(last), Bucket(g, key(last)) + [value(last)]);
    }
  }

  /** The keys are exactly the keys of the items. */
  lemma {:induction false} GroupedKeys<T, V>(items: seq<T>, key: T -> string, value: T -> V, k: string)
    ensures k in Keys(Grouped(items, key, value)) <==> exists i :: 0 <= i < |items| && key(items[i]) == k
  {
    if items != [] {
      var init, last := items[..|items| - 1], items[|items| - 1];
      var g := Grouped(init, key, value);
      GroupedKeys(init, key, value, k);
      PutKeys(g, key(last), Bucket(g, key(last)) + [value(last)]);
      if exists i :: 0 <= i < |items| && key(items[i]) == k {
        var i :| 0 <= i < |items| && key(items[i]) == k;
        if i < |init| {
          assert key(init[i]) == k;
        }
      }
      if exists i :: 0 <= i < |init| && key(init[i]) == k {
        var i :| 0 <= i < |init| && key(init[i]) == k;
        assert key(items[i]) == k;
      }
    }
  }

  /** Applies `f` to every value, keeping keys and order (a dictionary comprehension). */
  function MapValues<V, W>(d: Dict<V>, f: V -> W): (r: Dict<W>)
    ensures Keys(r) == Keys(d)
    ensures forall i :: 0 <= i < |d| ==> r[i].value == f(d[i].value)
  {
    seq(|d|, i requires 0 <= i < |d| => Entry(d[i].key, f(d[i].value)))
  }

  lemma MapValuesLookup<V, W>(d: Dict<V>, f: V -> W, k: string)
    ensures var r := Lookup(MapValues(d, f), k);
      (r.Some? <==> Lookup(d, k).Some?) &&
      (r.Some? ==> r.value == f(Lookup(d, k).value))
  {
    FindIs(MapValues(d, f), k, Find(d, k));
  }
}
