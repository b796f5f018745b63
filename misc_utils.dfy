/// The list and object utilities of `helpers/misc-utils.ts`: `chunk`, `omit`,
/// `filterMapBy`, the address sanity test and the registry filter behind
/// `printContracts`.
module MiscUtils {
  import opened Base

  // ---------------------------------------------------------------------
  // Euclidean division facts used by the chunking proofs

  lemma MulAtLeast(m: int, k: int)
    requires m >= 1 && k > 0
    ensures m * k >= k
  {
    assert m * k - k == (m - 1) * k;
  }

  /// Quotient and remainder are determined by `a == q * k + r, 0 <= r < k`.
  lemma DivModUnique(a: int, k: int, q: int, r: int)
    requires k > 0 && 0 <= r < k && a == q * k + r
    ensures a / k == q && a % k == r
  {
    var q', r' := a / k, a % k;
    assert a == q' * k + r';
    if q' < q {
      assert (q - q') * k == q * k - q' * k;
      MulAtLeast(q - q', k);
      assert false;
    } else if q < q' {
      assert (q' - q) * k == q' * k - q * k;
      MulAtLeast(q' - q, k);
      assert false;
    }
  }

  // ---------------------------------------------------------------------
  // chunk

  /// `Array.prototype.slice(i, j)` for `i <= j`: both ends are clamped to
  /// the list.
  function Slice<T>(arr: seq<T>, i: nat, j: nat): (r: seq<T>)
  {
    var e := if j < |arr| then j else |arr|;
    var b := if i < e then i else e;
    arr[b..e]
  }

  /// One step of the reduce in `chunk`, from index `i` on. A chunk starts
  /// where `!(i % size)` holds; with size 0 the remainder is NaN, `!NaN`
  /// holds and the slice `[i, i)` is empty.
  function ChunkFrom<T>(arr: seq<T>, size: nat, i: nat, acc: seq<seq<T>>): seq<seq<T>>
    requires i <= |arr|
    decreases |arr| - i
  {
    if i == |arr| then acc
    else
      var starts := size == 0 || i % size == 0;
      ChunkFrom(arr, size, i + 1, if starts then acc + [Slice(arr, i, i + size)] else acc)
  }

  function Chunk<T>(arr: seq<T>, size: nat): seq<seq<T>>
  {
    ChunkFrom(arr, size, 0, [])
  }

  /// Reference definition: cut `size` items off the front until none remain.
  function Partition<T>(s: seq<T>, size: nat): seq<seq<T>>
    requires size > 0
    decreases |s|
  {
    if |s| <= size then (if s == [] then [] else [s])
    else [s[..size]] + Partition(s[size..], size)
  }

  function Flatten<T>(ss: seq<seq<T>>): seq<T>
  {
    if ss == [] then [] else ss[0] + Flatten(ss[1..])
  }

  lemma {:induction false} ChunkFromAcc<T>(arr: seq<T>, size: nat, i: nat, acc: seq<seq<T>>)
    requires i <= |arr|
    ensures ChunkFrom(arr, size, i, acc) == acc + ChunkFrom(arr, size, i, [])
    decreases |arr| - i
  {
    if i < |arr| {
      var starts := size == 0 || i % size == 0;
      if starts {
        var c := Slice(arr, i, i + size);
        assert [] + [c] == [c];
        ChunkFromAcc(arr, size, i + 1, acc + [c]);
        ChunkFromAcc(arr, size, i + 1, [c]);
        assert acc + [c] + ChunkFrom(arr, size, i + 1, []) == acc + ([c] + ChunkFrom(arr, size, i + 1, []));
      } else {
        ChunkFromAcc(arr, size, i + 1, acc);
        ChunkFromAcc(arr, size, i + 1, []);
      }
    }
  }

  /// Indices strictly between two chunk starts add nothing.
  lemma {:induction false} ChunkFromSkip<T>(arr: seq<T>, size: nat, j: nat, m: nat, acc: seq<seq<T>>)
    requires size > 0 && j <= m <= |arr|
    requires forall t :: j <= t < m ==> t % size != 0
    ensures ChunkFrom(arr, size, j, acc) == ChunkFrom(arr, size, m, acc)
    decreases m - j
  {
    if j < m {
      assert j % size != 0;
      ChunkFromSkip(arr, size, j + 1, m, acc);
    }
  }

  /// The index after a chunk start that is not a multiple of the size.
  lemma NotAStart(i: nat, size: nat, t: nat)
    requires size > 0 && i % size == 0 && i < t < i + size
    ensures t % size != 0
  {
    DivModUnique(i, size, i / size, 0);
    DivModUnique(t, size, i / size, t - i);
  }

  lemma NextStart(i: nat, size: nat)
    requires size > 0 && i % size == 0
    ensures (i + size) % size == 0
  {
    DivModUnique(i, size, i / size, 0);
    DivModUnique(i + size, size, i / size + 1, 0);
  }

  /// From a chunk start, `chunk` emits the slice up to the next start and
  /// goes on from there.
  lemma ChunkFromStep<T>(arr: seq<T>, size: nat, i: nat)
    requires size > 0 && i < |arr| && i % size == 0
    ensures var m := if i + size < |arr| then i + size else |arr|;
            ChunkFrom(arr, size, i, []) == [arr[i..m]] + ChunkFrom(arr, size, m, [])
  {
    var m := if i + size < |arr| then i + size else |arr|;
    var c := Slice(arr, i, i + size);
    assert c == arr[i..m];
    assert [] + [c] == [c];
    assert ChunkFrom(arr, size, i, []) == ChunkFrom(arr, size, i + 1, [c]);
    forall t | i + 1 <= t < m
      ensures t % size != 0
    {
      NotAStart(i, size, t);
    }
    ChunkFromSkip(arr, size, i + 1, m, [c]);
    ChunkFromAcc(arr, size, m, [c]);
  }

  lemma {:induction false} ChunkFromBoundary<T>(arr: seq<T>, size: nat, i: nat)
    requires size > 0 && i <= |arr| && i % size == 0
    ensures ChunkFrom(arr, size, i, []) == Partition(arr[i..], size)
    decreases |arr| - i
  {
    if i < |arr| {
      ChunkFromStep(arr, size, i);
      if i + size < |arr| {
        var m := i + size;
        NextStart(i, size);
        ChunkFromBoundary(arr, size, m);
        assert arr[i..][size..] == arr[m..];
        assert arr[i..][..size] == arr[i..m];
      } else {
        assert ChunkFrom(arr, size, |arr|, []) == [];
        assert arr[i..|arr|] == arr[i..];
      }
    }
  }

  /// For a positive size, `chunk` is the reference partition.
  lemma ChunkIsPartition<T>(arr: seq<T>, size: nat)
    requires size > 0
    ensures Chunk(arr, size) == Partition(arr, size)
  {
    ChunkFromBoundary(arr, size, 0);
    assert arr[0..] == arr;
  }

  lemma {:induction false} PartitionFlatten<T>(s: seq<T>, size: nat)
    requires size > 0
    ensures Flatten(Partition(s, size)) == s
    decreases |s|
  {
    if |s| <= size {
      if s != [] {
        assert Flatten([s]) == s + Flatten([]);
      }
    } else {
      PartitionFlatten(s[size..], size);
      var p := Partition(s, size);
      assert p[1..] == Partition(s[size..], size);
      assert s[..size] + s[size..] == s;
    }
  }

  lemma {:induction false} PartitionSizes<T>(s: seq<T>, size: nat)
    requires size > 0
    ensures forall c :: 0 <= c < |Partition(s, size)| ==>
              0 < |Partition(s, size)[c]| <= size
    ensures forall c :: 0 <= c < |Partition(s, size)| - 1 ==>
              |Partition(s, size)[c]| == size
    decreases |s|
  {
    if |s| > size {
      PartitionSizes(s[size..], size);
      var p := Partition(s, size);
      assert forall c :: 1 <= c < |p| ==> p[c] == Partition(s[size..], size)[c - 1];
    }
  }

  lemma {:induction false} PartitionCount<T>(s: seq<T>, size: nat)
    requires size > 0
    ensures |Partition(s, size)| == (|s| + size - 1) / size
    decreases |s|
  {
    var x := |s| + size - 1;
    if s == [] {
      DivModUnique(x, size, 0, size - 1);
    } else if |s| <= size {
      DivModUnique(x, size, 1, x - size);
    } else {
      PartitionCount(s[size..], size);
      var y := |s[size..]| + size - 1;
      DivModUnique(y, size, y / size, y % size);
      assert x == (y / size + 1) * size + y % size;
      DivModUnique(x, size, y / size + 1, y % size);
    }
  }

  /// Concatenating the chunks in order gives back the input.
  lemma ChunkFlatten<T>(arr: seq<T>, size: nat)
    requires size > 0
    ensures Flatten(Chunk(arr, size)) == arr
  {
    ChunkIsPartition(arr, size);
    PartitionFlatten(arr, size);
  }

  /// Every chunk is non-empty and holds at most `size` items; all but the
  /// last hold exactly `size`.
  lemma ChunkSizes<T>(arr: seq<T>, size: nat)
    requires size > 0
    ensures forall c :: 0 <= c < |Chunk(arr, size)| ==> 0 < |Chunk(arr, size)[c]| <= size
    ensures forall c :: 0 <= c < |Chunk(arr, size)| - 1 ==> |Chunk(arr, size)[c]| == size
  {
    ChunkIsPartition(arr, size);
    PartitionSizes(arr, size);
  }

  /// There are ceil(n / size) chunks: none for an empty list, one when the
  /// size exceeds the length.
  lemma ChunkCount<T>(arr: seq<T>, size: nat)
    requires size > 0
    ensures |Chunk(arr, size)| == (|arr| + size - 1) / size
    ensures arr == [] ==> Chunk(arr, size) == []
    ensures 0 < |arr| <= size ==> Chunk(arr, size) == [arr]
  {
    ChunkIsPartition(arr, size);
    PartitionCount(arr, size);
  }

  lemma {:induction false} PartitionSingletons<T>(s: seq<T>)
    ensures Partition(s, 1) == seq(|s|, i requires 0 <= i < |s| => [s[i]])
    decreases |s|
  {
    if |s| == 1 {
      assert s == [s[0]];
    } else if |s| > 1 {
      PartitionSingletons(s[1..]);
      assert s[..1] == [s[0]];
    }
  }

  /// Chunks of size 1 are the singletons of the input, in order.
  lemma ChunkSingletons<T>(arr: seq<T>)
    ensures Chunk(arr, 1) == seq(|arr|, i requires 0 <= i < |arr| => [arr[i]])
  {
    ChunkIsPartition(arr, 1);
    PartitionSingletons(arr);
  }

  lemma {:induction false} ChunkFromZero<T>(arr: seq<T>, i: nat, acc: seq<seq<T>>)
    requires i <= |arr|
    ensures ChunkFrom(arr, 0, i, acc) == acc + seq(|arr| - i, _ => [])
    decreases |arr| - i
  {
    if i < |arr| {
      assert Slice(arr, i, i) == [];
      ChunkFromZero(arr, i + 1, acc + [[]]);
    }
  }

  /// With size 0 every index starts a chunk and every slice is empty.
  lemma ChunkSizeZero<T>(arr: seq<T>)
    ensures Chunk(arr, 0) == seq(|arr|, _ => [])
  {
    ChunkFromZero(arr, 0, []);
  }

  // ---------------------------------------------------------------------
  // omit

  /// The reduce in `omit` over the first `n` keys of `obj`: a key in `drop`
  /// is skipped, any other is spread into the accumulator with its value.
  function OmitUpTo<V>(obj: Dict<V>, drop: seq<string>, n: nat): Dict<V>
    requires n <= |obj|
  {
    if n == 0 then []
    else
      var acc := OmitUpTo(obj, drop, n - 1);
      var k := obj[n - 1].0;
      if k in drop then acc else Put(acc, k, Get(obj, k).value)
  }

  function Omit<V>(obj: Dict<V>, drop: seq<string>): Dict<V>
  {
    OmitUpTo(obj, drop, |obj|)
  }

  /// The keys of `ks` not listed in `drop`, in order.
  function FilterOut(ks: seq<string>, drop: seq<string>): (r: seq<string>)
    ensures forall x :: x in r <==> x in ks && x !in drop
  {
    if ks == [] then []
    else FilterOut(ks[..|ks| - 1], drop) + (if ks[|ks| - 1] in drop then [] else [ks[|ks| - 1]])
  }

  lemma {:induction false} OmitUpToGet<V>(obj: Dict<V>, drop: seq<string>, n: nat, k: string)
    requires n <= |obj|
    ensures Get(OmitUpTo(obj, drop, n), k) ==
            if k in drop || k !in Keys(obj)[..n] then None else Get(obj, k)
  {
    if n > 0 {
      OmitUpToGet(obj, drop, n - 1, k);
      var acc := OmitUpTo(obj, drop, n - 1);
      var key := obj[n - 1].0;
      assert Keys(obj)[..n] == Keys(obj)[..n - 1] + [key];
      if key !in drop {
        PutGet(acc, key, Get(obj, key).value, k);
      }
    }
  }

  /// `omit` keeps exactly the keys not listed, each with its own value.
  lemma OmitGet<V>(obj: Dict<V>, drop: seq<string>, k: string)
    ensures Get(Omit(obj, drop), k) == if k in drop then None else Get(obj, k)
  {
    OmitUpToGet(obj, drop, |obj|, k);
    assert Keys(obj)[..|obj|] == Keys(obj);
  }

  lemma {:induction false} OmitUpToKeys<V>(obj: Dict<V>, drop: seq<string>, n: nat)
    requires n <= |obj| && DistinctKeys(obj)
    ensures Keys(OmitUpTo(obj, drop, n)) == FilterOut(Keys(obj)[..n], drop)
  {
    if n > 0 {
      OmitUpToKeys(obj, drop, n - 1);
      var acc := OmitUpTo(obj, drop, n - 1);
      var key := obj[n - 1].0;
      var pre := Keys(obj)[..n];
      assert pre[..n - 1] == Keys(obj)[..n - 1];
      if key !in drop {
        assert key !in Keys(obj)[..n - 1];
        PutKeys(acc, key, Get(obj, key).value);
      }
    }
  }

  /// On a JavaScript object (no repeated key), `omit` keeps the remaining
  /// keys in their original order.
  lemma OmitKeyOrder<V>(obj: Dict<V>, drop: seq<string>)
    requires DistinctKeys(obj)
    ensures Keys(Omit(obj, drop)) == FilterOut(Keys(obj), drop)
  {
    OmitUpToKeys(obj, drop, |obj|);
    assert Keys(obj)[..|obj|] == Keys(obj);
  }

  // ---------------------------------------------------------------------
  // filterMapBy

  /// A JavaScript object the caller owns and the helper updates in place.
  class JsObject<V> {
    var entries: Dict<V>

    constructor (entries: Dict<V>)
      ensures this.entries == entries
    {
      this.entries := entries;
    }

    /// `obj[k] = v`.
    method Set(k: string, v: V)
      modifies this
      ensures entries == Put(old(entries), k, v)
    {
      entries := Put(entries, k, v);
    }
  }

  /// `Array.prototype.filter` on a key list.
  function FilterKeys(ks: seq<string>, fn: string -> bool): (r: seq<string>)
    ensures forall x :: x in r <==> x in ks && fn(x)
  {
    if ks == [] then []
    else FilterKeys(ks[..|ks| - 1], fn) + (if fn(ks[|ks| - 1]) then [ks[|ks| - 1]] else [])
  }

  /// `list` after `obj[key] = raw[key]` for each key of `ks` in turn.
  function PutAll<V>(list: Dict<V>, raw: Dict<V>, ks: seq<string>): Dict<V>
    requires forall x :: x in ks ==> x in Keys(raw)
  {
    if ks == [] then list
    else
      var k := ks[|ks| - 1];
      Put(PutAll(list, raw, ks[..|ks| - 1]), k, Get(raw, k).value)
  }

  /// Writes `raw[key]` into `list` for every key of `raw` that satisfies
  /// `fn`, in key order, and hands back the same object.
  method FilterMapBy<V>(raw: Dict<V>, list: JsObject<V>, fn: string -> bool) returns (r: JsObject<V>)
    modifies list
    ensures r == list
    ensures list.entries == PutAll(old(list.entries), raw, FilterKeys(Keys(raw), fn))
  {
    var keys := FilterKeys(Keys(raw), fn);
    var i := 0;
    while i < |keys|
      invariant 0 <= i <= |keys|
      invariant list.entries == PutAll(old(list.entries), raw, keys[..i])
    {
      assert keys[..i + 1][..i] == keys[..i];
      list.Set(keys[i], Get(raw, keys[i]).value);
      i := i + 1;
    }
    assert keys[..i] == keys;
    r := list;
  }

  lemma {:induction false} PutAllGet<V>(list: Dict<V>, raw: Dict<V>, ks: seq<string>, k: string)
    requires forall x :: x in ks ==> x in Keys(raw)
    ensures Get(PutAll(list, raw, ks), k) == if k in ks then Get(raw, k) else Get(list, k)
  {
    if ks != [] {
      var last := ks[|ks| - 1];
      assert ks == ks[..|ks| - 1] + [last];
      PutAllGet(list, raw, ks[..|ks| - 1], k);
      PutGet(PutAll(list, raw, ks[..|ks| - 1]), last, Get(raw, last).value, k);
    }
  }

  /// After `filterMapBy`, a key of `raw` satisfying `fn` reads `raw`'s
  /// value; every other key reads what `list` held before.
  lemma FilterMapByGet<V>(raw: Dict<V>, list: Dict<V>, fn: string -> bool, k: string)
    ensures Get(PutAll(list, raw, FilterKeys(Keys(raw), fn)), k) ==
            if k in Keys(raw) && fn(k) then Get(raw, k) else Get(list, k)
  {
    PutAllGet(list, raw, FilterKeys(Keys(raw), fn), k);
  }

  // ---------------------------------------------------------------------
  // notFalsyOrZeroAddress

  predicate IsHexDigit(c: char)
  {
    '0' <= c <= '9' || 'a' <= c <= 'f' || 'A' <= c <= 'F'
  }

  /// The shape `ethers.isAddress` accepts: 40 hex digits, optionally after
  /// a `0x` prefix.
  predicate IsAddress(s: string)
  {
    (|s| == 42 && s[0] == '0' && s[1] == 'x' && forall i :: 2 <= i < 42 ==> IsHexDigit(s[i]))
    || (|s| == 40 && forall i :: 0 <= i < 40 ==> IsHexDigit(s[i]))
  }

  /// Falsy input is rejected outright; otherwise the address must be well
  /// formed and differ, as a string, from the zero address.
  predicate NotFalsyOrZeroAddress(address: Option<Address>)
  {
    if !Truthy(address) then false
    else IsAddress(address.value) && address.value != ZERO_ADDRESS
  }

  /// The cases the address test separates.
  lemma NotFalsyOrZeroAddressCases(s: string)
    ensures !NotFalsyOrZeroAddress(None) && !NotFalsyOrZeroAddress(Some(""))
    ensures !NotFalsyOrZeroAddress(Some(ZERO_ADDRESS))
    ensures NotFalsyOrZeroAddress(Some(s)) <==> IsAddress(s) && s != ZERO_ADDRESS
    ensures NotFalsyOrZeroAddress(Some(s)) ==> |s| == 40 || (|s| == 42 && s[..2] == "0x")
  {
    if NotFalsyOrZeroAddress(Some(s)) && |s| == 42 {
      assert s[..2] == [s[0], s[1]];
    }
  }

  // ---------------------------------------------------------------------
  // printContracts

  /// The registry entries that hold a record for `network`; `printContracts`
  /// reports their number.
  function ContractsOn(db: Store, network: string): (ids: set<string>)
    ensures forall id :: id in ids <==>
              exists p :: p in db && |p| >= 2 && p[0] == id && p[1] == network
  {
    set p | p in db && |p| >= 2 && p[1] == network :: p[0]
  }
}
