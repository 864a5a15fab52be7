/**
 * The pipeline-layout de-duplication cache. A pipeline layout is identified
 * by the ordered list of descriptor-set-layout handles it references
 * (PipelineLayoutInfo); the cache maps each such list to the one
 * VkPipelineLayout created for it, so asking twice for the same list
 * creates the layout once.
 */
module PipelineLayouts {
  import opened VkTypes
  import opened SizeT

  /**
   * The cache key: the ordered list of descriptor-set-layout handles.
   * `hashOf` stands for std::hash<size_t>, which the model leaves
   * uninterpreted.
   */
  datatype PipelineLayoutInfo = PipelineLayoutInfo(layouts: seq<Handle>) {

    /** operator==: sizes first, then handle by handle, returning at the first mismatch. */
    predicate Equals(other: PipelineLayoutInfo) {
      if |other.layouts| != |layouts| then false else MatchFrom(layouts, other.layouts, 0)
    }

    /** hash(): the hash of the size, XOR-ed with the hash of every handle. */
    function Hash(hashOf: nat -> Word): Word {
      XorWord(hashOf(|layouts|), XorAll(layouts, hashOf))
    }
  }

  /** The index loop of operator==, from index i on. */
  predicate MatchFrom(a: seq<Handle>, b: seq<Handle>, i: nat)
    requires |a| == |b| && i <= |a|
    decreases |a| - i
  {
    if i == |a| then true
    else if b[i] != a[i] then false
    else MatchFrom(a, b, i + 1)
  }

  /** The XOR fold of the hashes of `s`, in loop order. */
  function XorAll(s: seq<Handle>, hashOf: nat -> Word): Word {
    if s == [] then 0 else XorWord(XorAll(s[..|s| - 1], hashOf), hashOf(s[|s| - 1]))
  }

  lemma {:induction false} MatchFromIff(a: seq<Handle>, b: seq<Handle>, i: nat)
    requires |a| == |b| && i <= |a|
    ensures MatchFrom(a, b, i) <==> a[i..] == b[i..]
    decreases |a| - i
  {
    if i < |a| {
      MatchFromIff(a, b, i + 1);
      assert a[i..] == [a[i]] + a[i + 1..];
      assert b[i..] == [b[i]] + b[i + 1..];
    }
  }

  /** Two keys compare equal exactly when they hold the same handles in the same order. */
  lemma EqualsIffSameList(x: PipelineLayoutInfo, y: PipelineLayoutInfo)
    ensures x.Equals(y) <==> x.layouts == y.layouts
  {
    if |x.layouts| == |y.layouts| {
      MatchFromIff(x.layouts, y.layouts, 0);
      assert x.layouts[0..] == x.layouts && y.layouts[0..] == y.layouts;
    }
  }

  /** Equality is reflexive, so the unordered_map finds a key it stored. */
  lemma EqualsReflexive(x: PipelineLayoutInfo)
    ensures x.Equals(x)
  {
    EqualsIffSameList(x, x);
  }

  /** Keys that compare equal hash equally, whatever std::hash is. */
  lemma EqualKeysHashEqually(x: PipelineLayoutInfo, y: PipelineLayoutInfo, hashOf: nat -> Word)
    requires x.Equals(y)
    ensures x.Hash(hashOf) == y.Hash(hashOf)
  {
    EqualsIffSameList(x, y);
  }

  /** The fold over a concatenation is the XOR of the folds of its parts. */
  lemma {:induction false} XorAllAppend(s: seq<Handle>, t: seq<Handle>, hashOf: nat -> Word)
    ensures XorAll(s + t, hashOf) == XorWord(XorAll(s, hashOf), XorAll(t, hashOf))
    decreases |t|
  {
    if t == [] {
      assert s + t == s;
    } else {
      var t', last := t[..|t| - 1], hashOf(t[|t| - 1]);
      XorAllAppend(s, t', hashOf);
      assert (s + t)[..|s + t| - 1] == s + t';
      XorAssoc(XorAll(s, hashOf), XorAll(t', hashOf), last);
    }
  }

  /** Taking one handle out of the middle of a list takes its hash out of the fold. */
  lemma XorAllRemove(left: seq<Handle>, h: Handle, right: seq<Handle>, hashOf: nat -> Word)
    ensures XorAll(left + ([h] + right), hashOf) == XorWord(XorAll(left + right, hashOf), hashOf(h))
  {
    XorAllAppend(left, [h] + right, hashOf);
    XorAllAppend([h], right, hashOf);
    XorAllAppend(left, right, hashOf);
    assert [h][..0] == [];
    var p, x, q := XorAll(left, hashOf), hashOf(h), XorAll(right, hashOf);
    XorComm(x, q);
    XorAssoc(p, q, x);
  }

  /** The fold ignores order: lists holding the same handles equally often fold alike. */
  lemma {:induction false} XorAllPermutation(a: seq<Handle>, b: seq<Handle>, hashOf: nat -> Word)
    requires multiset(a) == multiset(b)
    ensures XorAll(a, hashOf) == XorAll(b, hashOf)
    decreases |a|
  {
    if a != [] {
      var x := a[|a| - 1];
      var a' := a[..|a| - 1];
      assert a == a' + [x];
      assert x in multiset(b);
      var j :| 0 <= j < |b| && b[j] == x;
      var b' := b[..j] + b[j + 1..];
      assert b == b[..j] + ([x] + b[j + 1..]);
      assert multiset(b') == multiset(b) - multiset{x};
      XorAllPermutation(a', b', hashOf);
      XorAllRemove(b[..j], x, b[j + 1..], hashOf);
    } else {
      assert |b| == |multiset(b)| == 0;
    }
  }

  /**
   * Any reordering of the same handles collides: the keys hash alike
   * (the XOR fold is order-blind) though they compare unequal.
   */
  lemma ReorderedKeysCollide(x: PipelineLayoutInfo, y: PipelineLayoutInfo, hashOf: nat -> Word)
    requires multiset(x.layouts) == multiset(y.layouts)
    ensures |x.layouts| == |y.layouts|
    ensures x.Hash(hashOf) == y.Hash(hashOf)
    ensures x.Equals(y) <==> x.layouts == y.layouts
  {
    assert |x.layouts| == |multiset(x.layouts)| == |multiset(y.layouts)| == |y.layouts|;
    XorAllPermutation(x.layouts, y.layouts, hashOf);
    EqualsIffSameList(x, y);
  }

  /** Two distinct handles in swapped order: the same hash, yet not equal keys. */
  lemma SwappedPairCollides(h1: Handle, h2: Handle, hashOf: nat -> Word)
    requires h1 != h2
    ensures PipelineLayoutInfo([h1, h2]).Hash(hashOf) == PipelineLayoutInfo([h2, h1]).Hash(hashOf)
    ensures !PipelineLayoutInfo([h1, h2]).Equals(PipelineLayoutInfo([h2, h1]))
  {
    assert multiset([h1, h2]) == multiset([h2, h1]);
    ReorderedKeysCollide(PipelineLayoutInfo([h1, h2]), PipelineLayoutInfo([h2, h1]), hashOf);
  }

  /** VkPipelineLayoutCreateInfo: setLayoutCount and the array pSetLayouts points at. */
  datatype PipelineLayoutCreateInfo = PipelineLayoutCreateInfo(setLayoutCount: nat, setLayouts: seq<Handle>)

  /** Builds the lookup key from the first setLayoutCount handles, in order. */
  method KeyOf(info: PipelineLayoutCreateInfo) returns (key: PipelineLayoutInfo)
    requires info.setLayoutCount <= |info.setLayouts|
    ensures |key.layouts| == info.setLayoutCount
    ensures forall i :: 0 <= i < info.setLayoutCount ==> key.layouts[i] == info.setLayouts[i]
  {
    key := PipelineLayoutInfo([]);
    var i := 0;
    while i < info.setLayoutCount
      invariant 0 <= i <= info.setLayoutCount
      invariant key.layouts == info.setLayouts[..i]
    {
      key := key.(layouts := key.layouts + [info.setLayouts[i]]);
      i := i + 1;
    }
  }

  /** No two keys of the map share a layout handle. */
  ghost predicate Injective(m: map<PipelineLayoutInfo, Handle>) {
    forall k1, k2 :: k1 in m && k2 in m && k1 != k2 ==> m[k1] != m[k2]
  }

  /** The driver calls that destroy the layouts in `destroyed`, in order. */
  function DestroyCalls(destroyed: seq<Handle>): (r: seq<Call>)
    ensures |r| == |destroyed|
    ensures forall i :: 0 <= i < |r| ==> r[i] == Destroy(PipelineLayoutObject, destroyed[i])
  {
    if destroyed == [] then [] else DestroyCalls(destroyed[..|destroyed| - 1]) + [Destroy(PipelineLayoutObject, destroyed[|destroyed| - 1])]
  }

  /** No handle occurs twice. */
  predicate Distinct(s: seq<Handle>) {
    forall i, j :: 0 <= i < j < |s| ==> s[i] != s[j]
  }

  class PipelineLayoutCache {
    var device: Handle
    var cache: map<PipelineLayoutInfo, Handle>

    /**
     * Every cached layout came from the driver and the map is one-to-one:
     * each was freshly created for its own key.
     */
    ghost predicate Valid(host: Host)
      reads this, host
    {
      && (forall k :: k in cache ==> cache[k] != NullHandle && cache[k] < host.nextHandle)
      && Injective(cache)
    }

    /** The defaulted constructor: no device yet. */
    constructor Default()
      ensures device == NullHandle && cache == map[]
    {
      device := NullHandle;
      cache := map[];
    }

    constructor (device: Handle)
      ensures this.device == device && cache == map[]
    {
      this.device := device;
      cache := map[];
    }

    /**
     * create_pipeline_layout: the key is the first setLayoutCount handles in
     * order. A hit returns the stored layout and calls nothing; a miss creates
     * one layout, stores it under the key and returns it. The assertion on
     * m_Device aborts on a cache that was never given a device.
     */
    method CreatePipelineLayout(host: Host, info: PipelineLayoutCreateInfo) returns (layout: Handle)
      requires device != NullHandle
      requires info.setLayoutCount <= |info.setLayouts|
      requires host.Valid() && Valid(host)
      modifies this`cache, host`trace, host`nextHandle
      ensures host.Valid() && Valid(host)
      ensures var key := PipelineLayoutInfo(info.setLayouts[..info.setLayoutCount]);
        && key in cache && cache[key] == layout
        && (key in old(cache) ==>
              && layout == old(cache)[key]
              && cache == old(cache)
              && host.trace == old(host.trace)
              && host.nextHandle == old(host.nextHandle))
        && (key !in old(cache) ==>
              && layout == old(host.nextHandle)
              && cache == old(cache)[key := layout]
              && host.trace == old(host.trace) + [Call.CreatePipelineLayout(key.layouts, layout)])
      ensures host.nextHandle >= old(host.nextHandle)
    {
      var key := KeyOf(info);
      assert key.layouts == info.setLayouts[..info.setLayoutCount];
      if key in cache {
        layout := cache[key];
      } else {
        layout := host.Fresh();
        host.Record(Call.CreatePipelineLayout(key.layouts, layout));
        cache := cache[key := layout];
      }
    }

    /**
     * cleanup: destroys every cached layout, in the map's (unspecified)
     * iteration order, and keeps the map as it is.
     */
    method Cleanup(host: Host) returns (destroyed: seq<Handle>)
      requires Valid(host)
      modifies host`trace
      ensures cache == old(cache)
      ensures Distinct(destroyed)
      ensures forall h :: h in destroyed <==> h in cache.Values
      ensures host.trace == old(host.trace) + DestroyCalls(destroyed)
    {
      destroyed := [];
      var remaining := cache.Keys;
      while remaining != {}
        invariant remaining <= cache.Keys
        invariant Distinct(destroyed)
        invariant forall h :: h in destroyed <==> exists k :: k in cache.Keys - remaining && cache[k] == h
        invariant host.trace == old(host.trace) + DestroyCalls(destroyed)
        decreases remaining
      {
        var k :| k in remaining;
        var h := cache[k];
        assert h !in destroyed;
        host.Record(Destroy(PipelineLayoutObject, h));
        destroyed := destroyed + [h];
        remaining := remaining - {k};
      }
    }
  }

  /** Asking twice with the same list returns the same layout and creates it once. */
  method SameListSameLayout(host: Host, cache: PipelineLayoutCache, info: PipelineLayoutCreateInfo)
    returns (first: Handle, second: Handle)
    requires cache.device != NullHandle
    requires info.setLayoutCount <= |info.setLayouts|
    requires host.Valid() && cache.Valid(host)
    modifies cache`cache, host`trace, host`nextHandle
    ensures first == second
    ensures |host.trace| <= |old(host.trace)| + 1
  {
    first := cache.CreatePipelineLayout(host, info);
    second := cache.CreatePipelineLayout(host, info);
  }

  /** Different lists never share a layout. */
  method DifferentListsDifferentLayouts(host: Host, cache: PipelineLayoutCache, a: PipelineLayoutCreateInfo, b: PipelineLayoutCreateInfo)
    returns (la: Handle, lb: Handle)
    requires cache.device != NullHandle
    requires a.setLayoutCount <= |a.setLayouts| && b.setLayoutCount <= |b.setLayouts|
    requires a.setLayouts[..a.setLayoutCount] != b.setLayouts[..b.setLayoutCount]
    requires host.Valid() && cache.Valid(host)
    modifies cache`cache, host`trace, host`nextHandle
    ensures la != lb
  {
    la := cache.CreatePipelineLayout(host, a);
    lb := cache.CreatePipelineLayout(host, b);
  }
}
