/** A Python `OrderedDict` (or a plain dict, whose iteration follows insertion
    order): the keys in insertion order together with the key/value mapping. */
module OrderedMaps {

  import opened Strs

  datatype OrderedMap<V> = OrderedMap(keys: seq<string>, values: map<string, V>) {

    ghost predicate Valid() {
      Distinct(keys) && forall k :: k in values <==> k in keys
    }

    /** `d[k] = v`: a new key goes last, an existing key keeps its place. */
    function Put(k: string, v: V): (r: OrderedMap<V>)
      requires Valid()
      ensures r.Valid() && r.values == values[k := v]
      ensures k in values ==> r.keys == keys
      ensures k !in values ==> r.keys == keys + [k]
    {
      if k in values then OrderedMap(keys, values[k := v]) else OrderedMap(keys + [k], values[k := v])
    }

    /** `del d[k]` (when present): the other keys keep their order. */
    function Remove(k: string): (r: OrderedMap<V>)
      requires Valid()
      ensures r.Valid() && r.values == values - {k}
      ensures forall x :: x in r.keys <==> x in keys && x != k
    {
      WithoutDistinct(keys, k);
      OrderedMap(Without(keys, k), values - {k})
    }

    /** `d.update(other)`: the other map's entries put one by one in its order. */
    function Update(other: OrderedMap<V>): (r: OrderedMap<V>)
      requires Valid() && other.Valid()
      ensures r.Valid() && r.values == values + other.values
      decreases |other.keys|
    {
      if |other.keys| == 0 then
        assert other.values == map[];
        this
      else
        var k := other.keys[0];
        var rest := other.Tail();
        PutThenRest(values, other.values, k);
        Put(k, other.values[k]).Update(rest)
    }

    /** The map without its first key. */
    function Tail(): (r: OrderedMap<V>)
      requires Valid() && |keys| > 0
      ensures r.Valid() && r.keys == keys[1..] && r.values == values - {keys[0]}
    {
      var r := OrderedMap(keys[1..], values - {keys[0]});
      assert forall x :: x in r.keys ==> x != keys[0] by {
        forall x | x in r.keys ensures x != keys[0] {
          var i :| 0 <= i < |r.keys| && r.keys[i] == x;
          assert keys[i + 1] == x;
        }
      }
      r
    }
  }

  function Empty<V>(): (r: OrderedMap<V>)
    ensures r.Valid() && r.keys == [] && r.values == map[]
  {
    OrderedMap([], map[])
  }

  /** Putting the first entry of `b` and then the rest of `b` is the same as the union. */
  lemma PutThenRest<V>(a: map<string, V>, b: map<string, V>, k: string)
    requires k in b
    ensures a[k := b[k]] + (b - {k}) == a + b
  {
  }

  /** `keys` without `k`, order kept. */
  function Without(keys: seq<string>, k: string): (r: seq<string>)
    ensures forall x :: x in r <==> x in keys && x != k
    decreases |keys|
  {
    if |keys| == 0 then []
    else if keys[0] == k then Without(keys[1..], k)
    else [keys[0]] + Without(keys[1..], k)
  }

  lemma {:induction false} WithoutDistinct(keys: seq<string>, k: string)
    requires Distinct(keys)
    ensures Distinct(Without(keys, k))
    decreases |keys|
  {
    if |keys| > 0 {
      WithoutDistinct(keys[1..], k);
      assert keys[0] !in keys[1..] by {
        forall i | 0 <= i < |keys[1..]| ensures keys[1..][i] != keys[0] {
          assert keys[1..][i] == keys[i + 1];
        }
      }
      if keys[0] != k {
        ConsDistinct(keys[0], Without(keys[1..], k));
      }
    }
  }

  lemma ConsDistinct(x: string, s: seq<string>)
    requires Distinct(s) && x !in s
    ensures Distinct([x] + s)
  {
    var t := [x] + s;
    forall i, j | 0 <= i < j < |t| ensures t[i] != t[j] {
      assert t[j] == s[j - 1];
      if i > 0 { assert t[i] == s[i - 1]; }
    }
  }

  /** The entries of `items` put one after another. */
  function PutAll<V>(d: OrderedMap<V>, items: seq<(string, V)>): (r: OrderedMap<V>)
    requires d.Valid()
    ensures r.Valid()
    decreases |items|
  {
    if |items| == 0 then d
    else
      var last := items[|items| - 1];
      PutAll(d, items[..|items| - 1]).Put(last.0, last.1)
  }

  /** The mapping the entries of `items` describe, a later entry for a key
      replacing an earlier one. */
  function AsMap<V>(items: seq<(string, V)>): map<string, V>
    decreases |items|
  {
    if |items| == 0 then map[]
    else
      var last := items[|items| - 1];
      AsMap(items[..|items| - 1])[last.0 := last.1]
  }

  /** Putting entries keeps the existing keys in front, in their order. */
  lemma {:induction false} PutAllKeepsOrder<V>(d: OrderedMap<V>, items: seq<(string, V)>)
    requires d.Valid()
    ensures d.keys <= PutAll(d, items).keys
    decreases |items|
  {
    if |items| > 0 {
      var init, last := items[..|items| - 1], items[|items| - 1];
      PutAllKeepsOrder(d, init);
      assert PutAll(d, init).keys <= PutAll(d, init).Put(last.0, last.1).keys;
    }
  }

  /** Putting entries adds the entries' mapping to the values. */
  lemma {:induction false} PutAllValues<V>(d: OrderedMap<V>, items: seq<(string, V)>)
    requires d.Valid()
    ensures PutAll(d, items).values == d.values + AsMap(items)
    decreases |items|
  {
    if |items| > 0 {
      var init, last := items[..|items| - 1], items[|items| - 1];
      PutAllValues(d, init);
      PlusUpdate(d.values, AsMap(init), last.0, last.1);
    }
  }

  lemma PlusUpdate<V>(a: map<string, V>, b: map<string, V>, k: string, v: V)
    ensures (a + b)[k := v] == a + b[k := v]
  {
    var l, r := (a + b)[k := v], a + b[k := v];
    assert l.Keys == r.Keys;
    forall x | x in l ensures l[x] == r[x] {
    }
  }

  /** The value of a key is its last entry's value. */
  lemma {:induction false} AsMapLast<V>(items: seq<(string, V)>, i: int)
    requires 0 <= i < |items|
    requires forall j :: i < j < |items| ==> items[j].0 != items[i].0
    ensures items[i].0 in AsMap(items) && AsMap(items)[items[i].0] == items[i].1
    decreases |items|
  {
    if i < |items| - 1 {
      AsMapLast(items[..|items| - 1], i);
    }
  }

  /** The keys of the mapping are the keys of the entries. */
  lemma {:induction false} AsMapKeys<V>(items: seq<(string, V)>, k: string)
    ensures k in AsMap(items) <==> exists i :: 0 <= i < |items| && items[i].0 == k
    decreases |items|
  {
    if |items| > 0 {
      AsMapKeys(items[..|items| - 1], k);
      if k in AsMap(items[..|items| - 1]) {
        var i :| 0 <= i < |items| - 1 && items[..|items| - 1][i].0 == k;
        assert items[i].0 == k;
      }
      if exists i :: 0 <= i < |items| && items[i].0 == k {
        var i :| 0 <= i < |items| && items[i].0 == k;
        if i < |items| - 1 {
          assert items[..|items| - 1][i].0 == k;
        }
      }
    }
  }

  /** `update` keeps the existing keys in front, in their order. */
  lemma {:induction false} UpdateKeepsOrder<V>(d: OrderedMap<V>, other: OrderedMap<V>)
    requires d.Valid() && other.Valid()
    ensures d.keys <= d.Update(other).keys
    decreases |other.keys|
  {
    if |other.keys| > 0 {
      var k := other.keys[0];
      var rest := other.Tail();
      var d' := d.Put(k, other.values[k]);
      PutThenRest(d.values, other.values, k);
      assert d.Update(other) == d'.Update(rest);
      UpdateKeepsOrder(d', rest);
      PrefixTrans(d.keys, d'.keys, d'.Update(rest).keys);
    }
  }

  lemma PrefixTrans(a: seq<string>, b: seq<string>, c: seq<string>)
    requires a <= b && b <= c
    ensures a <= c
  {
    assert a == b[..|a|] && b == c[..|b|];
    assert c[..|b|][..|a|] == c[..|a|];
  }
}
