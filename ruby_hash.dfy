/**
 * Ruby's Hash as the library uses it: an insertion-ordered table with
 * distinct keys. `[]=` replaces a present key's value in place (keeping its
 * position) or appends a new entry; `merge!` is `[]=` for each entry of the
 * argument in order; `keys` and `values` list the entries in order.
 */
module RubyHash {
  import opened Wrappers

  /** A hash key: the library keys its maps by Symbols, callers may pass Strings. */
  datatype Key = Sym(name: string) | Str(name: string)

  /** Position of the first entry whose key is `k`. */
  function IndexOf<K(==), V>(es: seq<(K, V)>, k: K): (r: Option<nat>)
    ensures r.Some? ==> r.value < |es| && es[r.value].0 == k
    ensures r.Some? ==> forall j :: 0 <= j < r.value ==> es[j].0 != k
    ensures r.None? ==> forall j :: 0 <= j < |es| ==> es[j].0 != k
  {
    if |es| == 0 then None
    else if es[0].0 == k then Some(0)
    else match IndexOf(es[1..], k)
      case None => None
      case Some(i) => Some(i + 1)
  }

  /** The value of the LAST entry of `es` with key `k`: what a left-to-right sequence of `[]=` leaves behind. */
  function LastWith<K(==), V>(es: seq<(K, V)>, k: K): Option<V>
  {
    if |es| == 0 then None
    else if es[|es| - 1].0 == k then Some(es[|es| - 1].1)
    else LastWith(es[..|es| - 1], k)
  }

  datatype Hash<K(==), V> = Hash(entries: seq<(K, V)>) {

    /** Keys are distinct. Every Ruby Hash satisfies this. */
    ghost predicate Valid() {
      forall i, j :: 0 <= i < j < |entries| ==> entries[i].0 != entries[j].0
    }

    /** `hash.keys` */
    function Keys(): (ks: seq<K>)
      ensures |ks| == |entries|
      ensures forall i :: 0 <= i < |ks| ==> ks[i] == entries[i].0
    {
      seq(|entries|, i requires 0 <= i < |entries| => entries[i].0)
    }

    /** `hash.values` */
    function Values(): (vs: seq<V>)
      ensures |vs| == |entries|
      ensures forall i :: 0 <= i < |vs| ==> vs[i] == entries[i].1
    {
      seq(|entries|, i requires 0 <= i < |entries| => entries[i].1)
    }

    /** `hash[k]`, with `nil` as None. */
    function Get(k: K): (r: Option<V>)
      ensures r.Some? <==> k in Keys()
      ensures r.Some? ==> r.value in Values()
    {
      match IndexOf(entries, k)
      case None => None
      case Some(i) => Some(entries[i].1)
    }

    /** `hash[k] = v` on a copy of the hash. */
    function Put(k: K, v: V): Hash<K, V>
    {
      match IndexOf(entries, k)
      case Some(i) => Hash(entries[i := (k, v)])
      case None => Hash(entries + [(k, v)])
    }

    /** `hash.merge!(other)` on a copy of the hash. */
    function Merge(other: Hash<K, V>): Hash<K, V>
    {
      PutAll(this, other.entries)
    }
  }

  /** `[]=` of each entry of `es`, left to right. */
  function PutAll<K(==), V>(h: Hash<K, V>, es: seq<(K, V)>): Hash<K, V>
    decreases |es|
  {
    if |es| == 0 then h else PutAll(h.Put(es[0].0, es[0].1), es[1..])
  }

  /** The empty hash `{}`. */
  function Empty<K(==), V>(): (h: Hash<K, V>)
    ensures h.Valid() && h.Keys() == []
  {
    Hash([])
  }

  /** A display `{k1 => v1, ...}` written out in full: later duplicates overwrite. */
  function FromPairs<K(==), V>(es: seq<(K, V)>): Hash<K, V>
  {
    PutAll(Empty(), es)
  }

  /** ActiveSupport's `symbolize_keys`: String keys become Symbols; later entries win on a clash. */
  function SymbolizeKeys<V>(h: Hash<Key, V>): Hash<Key, V>
  {
    FromPairs(Symbolized(h.entries))
  }

  function Symbolized<V>(es: seq<(Key, V)>): (r: seq<(Key, V)>)
    ensures |r| == |es|
    ensures forall i :: 0 <= i < |es| ==> r[i] == (Sym(es[i].0.name), es[i].1)
  {
    seq(|es|, i requires 0 <= i < |es| => (Sym(es[i].0.name), es[i].1))
  }

  // ---------------------------------------------------------------------
  // Lemmas

  lemma PutValid<K, V>(h: Hash<K, V>, k: K, v: V)
    requires h.Valid()
    ensures h.Put(k, v).Valid()
  {
  }

  /** `[]=` keeps the keys of any valid hash distinct. */
  lemma PutValidAny<K, V>(h: Hash<K, V>)
    ensures forall k: K, v: V {:trigger h.Put(k, v)} :: h.Valid() ==> h.Put(k, v).Valid()
  {
    forall k: K, v: V | h.Valid() ensures h.Put(k, v).Valid() { PutValid(h, k, v); }
  }

  /** Reading back after `[]=`: the written key has the new value, every other key is untouched. */
  lemma GetPut<K, V>(h: Hash<K, V>, k: K, v: V, k': K)
    ensures h.Put(k, v).Get(k') == if k' == k then Some(v) else h.Get(k')
  {
    match IndexOf(h.entries, k)
    case Some(i) =>
      var es := h.entries[i := (k, v)];
      assert forall j :: 0 <= j < |es| ==> es[j].0 == h.entries[j].0;
      assert IndexOf(es, k') == IndexOf(h.entries, k') by { IndexOfSameKeys(es, h.entries, k'); }
    case None =>
      var es := h.entries + [(k, v)];
      IndexOfAppend(h.entries, (k, v), k');
  }

  lemma IndexOfSameKeys<K, V>(a: seq<(K, V)>, b: seq<(K, V)>, k: K)
    requires |a| == |b|
    requires forall j :: 0 <= j < |a| ==> a[j].0 == b[j].0
    ensures IndexOf(a, k) == IndexOf(b, k)
  {
    if |a| > 0 && a[0].0 != k {
      IndexOfSameKeys(a[1..], b[1..], k);
    }
  }

  lemma IndexOfAppend<K, V>(es: seq<(K, V)>, e: (K, V), k: K)
    requires IndexOf(es, e.0).None?
    ensures IndexOf(es + [e], k) == if k == e.0 then Some(|es|) else IndexOf(es, k)
  {
    if |es| > 0 {
      assert (es + [e])[1..] == es[1..] + [e];
      if es[0].0 != k {
        IndexOfAppend(es[1..], e, k);
      }
    }
  }

  lemma {:induction false} PutAllValid<K, V>(h: Hash<K, V>, es: seq<(K, V)>)
    requires h.Valid()
    ensures PutAll(h, es).Valid()
    decreases |es|
  {
    if |es| > 0 {
      PutValid(h, es[0].0, es[0].1);
      PutAllValid(h.Put(es[0].0, es[0].1), es[1..]);
    }
  }

  lemma LastWithCons<K, V>(e: (K, V), es: seq<(K, V)>, k: K)
    ensures LastWith([e] + es, k) == if LastWith(es, k).Some? then LastWith(es, k) else if e.0 == k then Some(e.1) else None
    decreases |es|
  {
    if |es| > 0 {
      assert ([e] + es)[..|[e] + es| - 1] == [e] + es[..|es| - 1];
      LastWithCons(e, es[..|es| - 1], k);
    } else {
      assert [e] + es == [e];
    }
  }

  /** `merge!` / a left-to-right fold of `[]=`: a key takes the last value written for it, else keeps its old one. */
  lemma {:induction false} GetPutAll<K, V>(h: Hash<K, V>, es: seq<(K, V)>, k: K)
    ensures PutAll(h, es).Get(k) == if LastWith(es, k).Some? then LastWith(es, k) else h.Get(k)
    decreases |es|
  {
    if |es| > 0 {
      var h' := h.Put(es[0].0, es[0].1);
      GetPutAll(h', es[1..], k);
      GetPut(h, es[0].0, es[0].1, k);
      assert es == [es[0]] + es[1..];
      LastWithCons(es[0], es[1..], k);
    }
  }

  /** In a hash with distinct keys, the last entry with a key is its only entry. */
  lemma {:induction false} LastWithIsGet<K, V>(h: Hash<K, V>, k: K)
    requires h.Valid()
    ensures LastWith(h.entries, k) == h.Get(k)
    decreases |h.entries|
  {
    var es := h.entries;
    if |es| > 0 {
      var init := Hash(es[..|es| - 1]);
      LastWithIsGet(init, k);
      if es[|es| - 1].0 == k {
        assert IndexOf(init.entries, k).None?;
        IndexOfAppend(init.entries, es[|es| - 1], k);
        assert init.entries + [es[|es| - 1]] == es;
      } else {
        IndexOfAppend(init.entries, es[|es| - 1], k);
        assert init.entries + [es[|es| - 1]] == es;
      }
    }
  }

  /** `a.merge!(b)`: keys of `b` take `b`'s value, the other keys keep `a`'s, and the result is a Hash. */
  lemma MergeGet<K, V>(a: Hash<K, V>, b: Hash<K, V>, k: K)
    requires a.Valid() && b.Valid()
    ensures a.Merge(b).Valid()
    ensures a.Merge(b).Get(k) == if k in b.Keys() then b.Get(k) else a.Get(k)
  {
    PutAllValid(a, b.entries);
    GetPutAll(a, b.entries, k);
    LastWithIsGet(b, k);
  }

  /** `keys` and `values` of one hash pair up positionally: the i-th value is stored under the i-th key. */
  lemma {:induction false} KeysValuesPaired<K, V>(h: Hash<K, V>, i: nat)
    requires h.Valid() && i < |h.entries|
    ensures |h.Keys()| == |h.Values()|
    ensures h.Get(h.Keys()[i]) == Some(h.Values()[i])
  {
    var k := h.entries[i].0;
    var j := IndexOf(h.entries, k).value;
    assert j == i;
  }

  /** After `symbolize_keys` only Symbol keys remain, and `Sym(n)` gives the last value stored under `n` in either spelling. */
  lemma SymbolizeKeysGet<V>(h: Hash<Key, V>, n: string)
    ensures SymbolizeKeys(h).Valid()
    ensures SymbolizeKeys(h).Get(Str(n)) == None
    ensures SymbolizeKeys(h).Get(Sym(n)) == LastWith(Symbolized(h.entries), Sym(n))
  {
    PutAllValid(Empty<Key, V>(), Symbolized(h.entries));
    GetPutAll(Empty<Key, V>(), Symbolized(h.entries), Sym(n));
    GetPutAll(Empty<Key, V>(), Symbolized(h.entries), Str(n));
    LastWithNoStr(Symbolized(h.entries), n);
  }

  lemma LastWithNoStr<V>(es: seq<(Key, V)>, n: string)
    requires forall i :: 0 <= i < |es| ==> es[i].0.Sym?
    ensures LastWith(es, Str(n)) == None
    decreases |es|
  {
    if |es| > 0 { LastWithNoStr(es[..|es| - 1], n); }
  }
}
