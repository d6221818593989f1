// The inference server's batching cache (infer_server/src/core/cache.h):
// a FIFO of packages between the request API and the processors. The
// static strategy cuts each request into batch-sized packages; the dynamic
// strategy feeds items into a Batcher (infer_server/src/util/batcher.h)
// that emits a package whenever batch_size items are waiting. Discarded
// requests are removed lazily, when Pop meets them at the front.
module InferCache {
  import opened Common

  /** One piece of inference data; `ctrl` names the request it belongs to. */
  datatype Item = Item(ctrl: nat, payload: int)

  /** A package of items; `continuous` is set when the request carries
      continuous input data (predict_io holds a value). */
  datatype Package = Package(data: seq<Item>, continuous: bool)

  datatype PopResult =
    | Popped(pack: Package)
    | Null
      /** The cache is empty but still running: the C++ Pop waits on a
          condition variable for another thread, which is not modelled. */
    | Blocked

  /** All items of a sequence of packages, in order. */
  function AllItems(ps: seq<Package>): seq<Item>
  {
    if |ps| == 0 then [] else AllItems(ps[..|ps| - 1]) + ps[|ps| - 1].data
  }

  lemma {:induction false} AllItemsSnoc(ps: seq<Package>, p: Package)
    ensures AllItems(ps + [p]) == AllItems(ps) + p.data
  {
    assert (ps + [p])[..|ps|] == ps;
  }

  lemma {:induction false} AllItemsAppend(ps: seq<Package>, qs: seq<Package>)
    ensures AllItems(ps + qs) == AllItems(ps) + AllItems(qs)
    decreases |qs|
  {
    if |qs| == 0 {
      assert ps + qs == ps;
    } else {
      var init, last := qs[..|qs| - 1], qs[|qs| - 1];
      assert qs == init + [last];
      calc {
        AllItems(ps + qs);
        { assert ps + qs == (ps + init) + [last]; AllItemsSnoc(ps + init, last); }
        AllItems(ps + init) + last.data;
        { AllItemsAppend(ps, init); }
        AllItems(ps) + AllItems(init) + last.data;
        { AllItemsSnoc(init, last); }
        AllItems(ps) + AllItems(qs);
      }
    }
  }

  /** The items whose request has not been discarded, in order. */
  function Survivors(items: seq<Item>, discarded: set<nat>): (s: seq<Item>)
    ensures forall i :: 0 <= i < |s| ==> s[i].ctrl !in discarded
    ensures |s| <= |items|
  {
    if |items| == 0 then []
    else
      var last := items[|items| - 1];
      Survivors(items[..|items| - 1], discarded) + (if last.ctrl in discarded then [] else [last])
  }

  /** The items whose request has been discarded, in order. */
  function Dropped(items: seq<Item>, discarded: set<nat>): (s: seq<Item>)
    ensures forall i :: 0 <= i < |s| ==> s[i].ctrl in discarded
  {
    if |items| == 0 then []
    else
      var last := items[|items| - 1];
      Dropped(items[..|items| - 1], discarded) + (if last.ctrl in discarded then [last] else [])
  }

  lemma {:induction false} FilterSnoc(items: seq<Item>, x: Item, discarded: set<nat>)
    ensures Survivors(items + [x], discarded) ==
      Survivors(items, discarded) + (if x.ctrl in discarded then [] else [x])
    ensures Dropped(items + [x], discarded) ==
      Dropped(items, discarded) + (if x.ctrl in discarded then [x] else [])
  {
    assert (items + [x])[..|items|] == items;
  }

  /** Every item either survives or is dropped: the two filters split the
      input and lose nothing. */
  lemma {:induction false} FilterSplits(items: seq<Item>, discarded: set<nat>)
    ensures |Survivors(items, discarded)| + |Dropped(items, discarded)| == |items|
    ensures forall x :: x in items <==> x in Survivors(items, discarded) || x in Dropped(items, discarded)
  {
    if |items| > 0 {
      var init := items[..|items| - 1];
      FilterSplits(init, discarded);
      assert items == init + [items[|items| - 1]];
    }
  }

  lemma FilterAppend(a: seq<Item>, b: seq<Item>, discarded: set<nat>)
    ensures Survivors(a + b, discarded) == Survivors(a, discarded) + Survivors(b, discarded)
    ensures Dropped(a + b, discarded) == Dropped(a, discarded) + Dropped(b, discarded)
  {
    SurvivorsAppend(a, b, discarded);
    DroppedAppend(a, b, discarded);
  }

  lemma {:induction false} SurvivorsAppend(a: seq<Item>, b: seq<Item>, discarded: set<nat>)
    ensures Survivors(a + b, discarded) == Survivors(a, discarded) + Survivors(b, discarded)
    decreases |b|
  {
    if |b| == 0 {
      assert a + b == a;
    } else {
      var init, last := b[..|b| - 1], b[|b| - 1];
      var tail := if last.ctrl in discarded then [] else [last];
      assert b == init + [last];
      calc {
        Survivors(a + b, discarded);
        { assert a + b == (a + init) + [last]; FilterSnoc(a + init, last, discarded); }
        Survivors(a + init, discarded) + tail;
        { SurvivorsAppend(a, init, discarded); }
        Survivors(a, discarded) + Survivors(init, discarded) + tail;
        { FilterSnoc(init, last, discarded); }
        Survivors(a, discarded) + Survivors(b, discarded);
      }
    }
  }

  lemma {:induction false} DroppedAppend(a: seq<Item>, b: seq<Item>, discarded: set<nat>)
    ensures Dropped(a + b, discarded) == Dropped(a, discarded) + Dropped(b, discarded)
    decreases |b|
  {
    if |b| == 0 {
      assert a + b == a;
    } else {
      var init, last := b[..|b| - 1], b[|b| - 1];
      var tail := if last.ctrl in discarded then [last] else [];
      assert b == init + [last];
      calc {
        Dropped(a + b, discarded);
        { assert a + b == (a + init) + [last]; FilterSnoc(a + init, last, discarded); }
        Dropped(a + init, discarded) + tail;
        { DroppedAppend(a, init, discarded); }
        Dropped(a, discarded) + Dropped(init, discarded) + tail;
        { FilterSnoc(init, last, discarded); }
        Dropped(a, discarded) + Dropped(b, discarded);
      }
    }
  }

  predicate HasDiscarded(items: seq<Item>, discarded: set<nat>)
  {
    exists i :: 0 <= i < |items| && items[i].ctrl in discarded
  }

  /** The static ClearDiscard looks at a package's first item only. */
  predicate LeadDiscarded(p: Package, discarded: set<nat>)
  {
    |p.data| > 0 && p.data[0].ctrl in discarded
  }

  /** The packages the static ClearDiscard keeps: those whose first item
      belongs to a live request, in their original order. */
  function KeptPacks(ps: seq<Package>, discarded: set<nat>): seq<Package>
  {
    if |ps| == 0 then []
    else
      var last := ps[|ps| - 1];
      KeptPacks(ps[..|ps| - 1], discarded) + (if LeadDiscarded(last, discarded) then [] else [last])
  }

  /** The packages the static ClearDiscard drops. */
  function DroppedPacks(ps: seq<Package>, discarded: set<nat>): seq<Package>
  {
    if |ps| == 0 then []
    else
      var last := ps[|ps| - 1];
      DroppedPacks(ps[..|ps| - 1], discarded) + (if LeadDiscarded(last, discarded) then [last] else [])
  }

  lemma {:induction false} PackFilterSnoc(ps: seq<Package>, p: Package, discarded: set<nat>)
    ensures KeptPacks(ps + [p], discarded) ==
      KeptPacks(ps, discarded) + (if LeadDiscarded(p, discarded) then [] else [p])
    ensures DroppedPacks(ps + [p], discarded) ==
      DroppedPacks(ps, discarded) + (if LeadDiscarded(p, discarded) then [p] else [])
  {
    assert (ps + [p])[..|ps|] == ps;
  }

  /** One step of the static ClearDiscard's loop over the packages. */
  lemma PackFilterStep(ps: seq<Package>, j: nat, discarded: set<nat>)
    requires j < |ps|
    ensures LeadDiscarded(ps[j], discarded) ==>
      KeptPacks(ps[..j + 1], discarded) == KeptPacks(ps[..j], discarded) &&
      AllItems(DroppedPacks(ps[..j + 1], discarded)) == AllItems(DroppedPacks(ps[..j], discarded)) + ps[j].data
    ensures !LeadDiscarded(ps[j], discarded) ==>
      KeptPacks(ps[..j + 1], discarded) == KeptPacks(ps[..j], discarded) + [ps[j]] &&
      DroppedPacks(ps[..j + 1], discarded) == DroppedPacks(ps[..j], discarded)
  {
    assert ps[..j + 1] == ps[..j] + [ps[j]];
    PackFilterSnoc(ps[..j], ps[j], discarded);
    var dropped := DroppedPacks(ps[..j], discarded);
    if LeadDiscarded(ps[j], discarded) {
      AllItemsSnoc(dropped, ps[j]);
      assert KeptPacks(ps[..j], discarded) + [] == KeptPacks(ps[..j], discarded);
    } else {
      assert dropped + [] == dropped;
    }
  }

  /** The static ClearDiscard keeps only packages it was given. */
  lemma {:induction false} KeptPacksFromInput(ps: seq<Package>, discarded: set<nat>)
    ensures forall p :: p in KeptPacks(ps, discarded) ==> p in ps
    decreases |ps|
  {
    if |ps| > 0 {
      var init := ps[..|ps| - 1];
      KeptPacksFromInput(init, discarded);
      assert forall p :: p in init ==> p in ps;
    }
  }

  /** The static ClearDiscard sorts every package into exactly one of the
      two lists: kept ones lead with a live item, dropped ones with a
      discarded item. */
  lemma {:induction false} PackFilterSplits(ps: seq<Package>, discarded: set<nat>)
    ensures |KeptPacks(ps, discarded)| + |DroppedPacks(ps, discarded)| == |ps|
    ensures forall p :: p in KeptPacks(ps, discarded) ==> !LeadDiscarded(p, discarded)
    ensures forall p :: p in DroppedPacks(ps, discarded) ==> LeadDiscarded(p, discarded) && p in ps
    decreases |ps|
  {
    if |ps| > 0 {
      var init := ps[..|ps| - 1];
      PackFilterSplits(init, discarded);
      assert forall p :: p in init ==> p in ps;
    }
  }

  // ---------------------------------------------------------------------
  // Cutting a sequence of items into batches

  /** Consecutive chunks of k items; the last one holds the remainder. */
  function Chunks(s: seq<Item>, k: nat): seq<seq<Item>>
    requires k > 0
    decreases |s|
  {
    if |s| == 0 then []
    else if |s| <= k then [s]
    else [s[..k]] + Chunks(s[k..], k)
  }

  /** The chunks are non-empty, hold at most k items, and concatenate back
      to the input. */
  lemma {:induction false} ChunksPartition(s: seq<Item>, k: nat)
    requires k > 0
    ensures Flatten(Chunks(s, k)) == s
    ensures forall i :: 0 <= i < |Chunks(s, k)| ==> 0 < |Chunks(s, k)[i]| <= k
    decreases |s|
  {
    if |s| == 0 {
    } else if |s| <= k {
      assert Chunks(s, k) == [s];
      assert Flatten([s]) == Flatten([]) + s;
    } else {
      ChunksPartition(s[k..], k);
      FlattenCons(s[..k], Chunks(s[k..], k));
      assert s[..k] + s[k..] == s;
    }
  }

  /** Chunk i holds min(k, remaining) items, where remaining = |s| - i*k. */
  lemma {:induction false} ChunkSizes(s: seq<Item>, k: nat, i: nat)
    requires k > 0
    requires i < |Chunks(s, k)|
    ensures i * k < |s|
    ensures |Chunks(s, k)[i]| == Min(k, |s| - i * k)
    ensures Chunks(s, k)[i] == s[i * k .. i * k + Min(k, |s| - i * k)]
    decreases |s|
  {
    if |s| <= k {
      assert i == 0;
    } else if i > 0 {
      ChunkSizes(s[k..], k, i - 1);
      var j := (i - 1) * k;
      assert j + k == i * k;
      var len := Min(k, |s| - i * k);
      assert Chunks(s, k)[i] == Chunks(s[k..], k)[i - 1];
      assert s[k..][j .. j + len] == s[j + k .. j + k + len];
    }
  }

  lemma {:induction false} FlattenCons<T>(x: seq<T>, ss: seq<seq<T>>)
    ensures Flatten([x] + ss) == x + Flatten(ss)
    decreases |ss|
  {
    if |ss| == 0 {
      assert [x] + ss == [x];
      assert Flatten([x]) == Flatten([]) + x;
    } else {
      var init := ss[..|ss| - 1];
      FlattenCons(x, init);
      assert [x] + ss == ([x] + init) + [ss[|ss| - 1]];
      FlattenSnoc([x] + init, ss[|ss| - 1]);
      assert ss == init + [ss[|ss| - 1]];
      FlattenSnoc(init, ss[|ss| - 1]);
    }
  }

  lemma {:induction false} ChunksAppend(s: seq<Item>, t: seq<Item>, k: nat, m: nat)
    requires k > 0 && |s| == m * k
    ensures Chunks(s + t, k) == Chunks(s, k) + Chunks(t, k)
    decreases m
  {
    if m == 0 {
      assert s + t == t;
    } else {
      assert |s| == (m - 1) * k + k;
      var rest := s[k..];
      ChunksAppend(rest, t, k, m - 1);
      assert (s + t)[..k] == s[..k];
      assert (s + t)[k..] == rest + t;
      if |s + t| <= k {
        assert t == [] && |s| == k;
        assert s + t == s;
      } else if |s| <= k {
        assert rest == [];
        assert rest + t == t;
      }
    }
  }

  /** Closing a chunk: s[..end] is cut like s[..start] followed by one
      chunk s[start..end], when start is a whole number of chunks. */
  lemma ChunksExtend(s: seq<Item>, start: nat, end: nat, k: nat, m: nat)
    requires k > 0 && start == m * k
    requires start < end <= |s| && end - start <= k
    ensures Chunks(s[..end], k) == Chunks(s[..start], k) + [s[start..end]]
  {
    assert s[..end] == s[..start] + s[start..end];
    ChunksAppend(s[..start], s[start..end], k, m);
  }

  /** Closing a chunk, as queued packages; a full chunk keeps the start
      of the next one at a whole number of chunks. */
  lemma CloseChunk(s: seq<Item>, start: nat, end: nat, k: nat, m: nat)
    requires k > 0 && start == m * k
    requires start < end <= |s| && end - start <= k
    ensures AsPackages(Chunks(s[..end], k)) ==
      AsPackages(Chunks(s[..start], k)) + [Package(s[start..end], false)]
    ensures end - start == k ==> end == (m + 1) * k
  {
    ChunksExtend(s, start, end, k, m);
    AsPackagesSnoc(Chunks(s[..start], k), s[start..end]);
  }

  /** Wraps each chunk in a (non-continuous) package. */
  function AsPackages(chunks: seq<seq<Item>>): (ps: seq<Package>)
    ensures |ps| == |chunks|
    ensures forall i :: 0 <= i < |ps| ==> ps[i] == Package(chunks[i], false)
  {
    seq(|chunks|, i requires 0 <= i < |chunks| => Package(chunks[i], false))
  }

  lemma {:induction false} AllItemsOfPackages(chunks: seq<seq<Item>>)
    ensures AllItems(AsPackages(chunks)) == Flatten(chunks)
    decreases |chunks|
  {
    if |chunks| > 0 {
      var init := chunks[..|chunks| - 1];
      AllItemsOfPackages(init);
      assert AsPackages(chunks)[..|chunks| - 1] == AsPackages(init);
    }
  }

  lemma AsPackagesSnoc(chunks: seq<seq<Item>>, c: seq<Item>)
    ensures AsPackages(chunks + [c]) == AsPackages(chunks) + [Package(c, false)]
  {
  }

  /** Appending the chunks of `items` to a queue adds exactly `items` to
      its contents, in packages of 1..k items. */
  lemma AppendChunks(ps: seq<Package>, items: seq<Item>, k: nat)
    requires k > 0
    ensures AllItems(ps + AsPackages(Chunks(items, k))) == AllItems(ps) + items
    ensures forall i :: |ps| <= i < |ps + AsPackages(Chunks(items, k))| ==>
      var p := (ps + AsPackages(Chunks(items, k)))[i];
      0 < |p.data| <= k && !p.continuous
  {
    ChunksPartition(items, k);
    AllItemsAppend(ps, AsPackages(Chunks(items, k)));
    AllItemsOfPackages(Chunks(items, k));
  }

  // ---------------------------------------------------------------------
  // The cache

  /** CacheStatic (dynamic == false) and CacheDynamic (dynamic == true):
      the virtual Enqueue and ClearDiscard are chosen by `dynamic`. */
  class Cache {
    const dynamic: bool
    const batchSize: nat
    var cache: seq<Package>
    var running: bool
    /** The Batcher's pending items (always empty for the static cache). */
    var pending: seq<Item>
    /** Every item handed to ProcessFailed(Status::SUCCESS), in order. */
    var failed: seq<Item>

    /** Size of a static chunk: `++batch_idx > BatchSize() - 1` compares
        with the uint32 value BatchSize() - 1, so a batch size of 0 means
        chunks of 2^32 items. */
    function ChunkLimit(): (k: nat)
      ensures k >= 1
      ensures 0 < batchSize < U32_MOD ==> k == batchSize
    {
      U32(batchSize - 1) + 1
    }

    /** A package this cache can hold: never empty; batch-sized unless it
        is a continuous package of the static cache. */
    predicate PackOk(p: Package)
    {
      0 < |p.data| &&
      (dynamic ==> |p.data| <= batchSize && !p.continuous) &&
      (!dynamic && !p.continuous ==> |p.data| <= ChunkLimit())
    }

    /** Valid() without the bound on the batcher's pending items, which
        AddItem exceeds for a moment before it emits. */
    predicate Queued()
      reads this
    {
      IsU32(batchSize) &&
      (dynamic ==> batchSize > 0) &&
      (!dynamic ==> pending == []) &&
      forall i :: 0 <= i < |cache| ==> PackOk(cache[i])
    }

    predicate Valid()
      reads this
    {
      Queued() && (dynamic ==> |pending| < batchSize)
    }

    /** Every item the cache holds, queued or waiting in the batcher. */
    function Contents(): seq<Item>
      reads this
    {
      AllItems(cache) + pending
    }

    /** The Batcher constructor CHECKs a non-zero batch size, so only the
        dynamic cache demands one. */
    constructor (dynamic: bool, batchSize: nat)
      requires IsU32(batchSize)
      requires dynamic ==> batchSize > 0
      ensures Valid()
      ensures this.dynamic == dynamic && this.batchSize == batchSize
      ensures cache == [] && pending == [] && failed == [] && !running
    {
      this.dynamic := dynamic;
      this.batchSize := batchSize;
      cache := [];
      running := false;
      pending := [];
      failed := [];
    }

    method Start()
      requires Valid()
      modifies this
      ensures Valid()
      ensures running
      ensures cache == old(cache) && pending == old(pending) && failed == old(failed)
    {
      running := true;
    }

    /** Stop clears the running flag; the dynamic cache also emits what the
        batcher holds. */
    method Stop()
      requires Valid()
      modifies this
      ensures Valid()
      ensures !running && pending == [] && failed == old(failed)
      ensures Contents() == old(Contents())
      ensures !dynamic ==> cache == old(cache)
    {
      running := false;
      if dynamic {
        Emit();
      }
    }

    /** Batcher::Emit (also fired by the batch timer): the pending items, if
        any, become one package. */
    method Emit()
      requires Queued() && (dynamic ==> |pending| <= batchSize)
      modifies this
      ensures Valid()
      ensures pending == [] && running == old(running) && failed == old(failed)
      ensures old(pending) == [] ==> cache == old(cache)
      ensures old(pending) != [] ==> cache == old(cache) + [Package(old(pending), false)]
      ensures Contents() == old(Contents())
    {
      if pending != [] {
        assert PackOk(Package(pending, false));
        AllItemsSnoc(cache, Package(pending, false));
        cache := cache + [Package(pending, false)];
        pending := [];
      }
    }

    /** Push refuses a package while the cache is stopped; otherwise the
        package's items join the cache, in order. */
    method Push(pack: Package) returns (ok: bool)
      requires Valid()
      requires pack.continuous ==> |pack.data| > 0
      modifies this
      ensures Valid()
      ensures ok == old(running)
      ensures !ok ==> cache == old(cache) && pending == old(pending)
      ensures ok ==> Contents() == old(Contents()) + pack.data
      ensures running == old(running) && failed == old(failed)
    {
      if !running {
        return false;
      }
      if dynamic {
        EnqueueDynamic(pack);
      } else {
        EnqueueStatic(pack);
      }
      return true;
    }

    /** CacheStatic::Enqueue: a continuous package is queued whole; any
        other is cut into chunks of ChunkLimit() items (an empty one adds
        nothing). */
    method EnqueueStatic(pack: Package)
      requires Valid() && !dynamic
      requires pack.continuous ==> |pack.data| > 0
      modifies this
      ensures Valid()
      ensures pack.continuous ==> cache == old(cache) + [pack]
      ensures !pack.continuous ==>
        cache == old(cache) + AsPackages(Chunks(pack.data, ChunkLimit()))
      ensures Contents() == old(Contents()) + pack.data
      ensures running == old(running) && failed == old(failed) && pending == old(pending)
    {
      if pack.continuous {
        AllItemsSnoc(cache, pack);
        cache := cache + [pack];
        return;
      }
      CutIntoBatches(pack.data);
      AppendChunks(old(cache), pack.data, ChunkLimit());
    }

    /** The loop of CacheStatic::Enqueue: items are gathered into a package
        that is queued once it holds ChunkLimit() items, or at the last
        item. */
    method CutIntoBatches(items: seq<Item>)
      modifies this`cache
      ensures cache == old(cache) + AsPackages(Chunks(items, ChunkLimit()))
    {
      var k := ChunkLimit();
      var batchIdx := 0;
      var current: seq<Item> := [];
      ghost var start := 0;
      ghost var m := 0;
      var idx := 0;
      while idx < |items|
        invariant 0 <= start <= idx <= |items|
        invariant current == items[start..idx] && batchIdx == |current| < k
        invariant idx < |items| ==> start == m * k
        invariant idx == |items| ==> start == idx
        invariant cache == old(cache) + AsPackages(Chunks(items[..start], k))
      {
        current := current + [items[idx]];
        assert current == items[start..idx + 1];
        batchIdx := batchIdx + 1;
        if batchIdx > k - 1 || idx == |items| - 1 {
          CloseChunk(items, start, idx + 1, k, m);
          assert cache + [Package(current, false)] == old(cache) + AsPackages(Chunks(items[..idx + 1], k));
          cache := cache + [Package(current, false)];
          batchIdx := 0;
          current := [];
          start := idx + 1;
          m := m + 1;
        }
        idx := idx + 1;
      }
      assert items[..start] == items;
    }

    /** CacheDynamic::Enqueue: every item goes to the batcher, which emits a
        package each time batch_size items are pending. */
    method EnqueueDynamic(pack: Package)
      requires Valid() && dynamic
      modifies this
      ensures Valid()
      ensures Contents() == old(Contents()) + pack.data
      ensures running == old(running) && failed == old(failed)
    {
      var idx := 0;
      while idx < |pack.data|
        invariant 0 <= idx <= |pack.data|
        invariant Valid()
        invariant Contents() == old(Contents()) + pack.data[..idx]
        invariant running == old(running) && failed == old(failed)
      {
        AddItem(pack.data[idx]);
        assert pack.data[..idx + 1] == pack.data[..idx] + [pack.data[idx]];
        idx := idx + 1;
      }
      assert pack.data[..idx] == pack.data;
    }

    /** Batcher::AddItem: the item is appended; at batch_size pending items
        they are emitted as one package. */
    method AddItem(item: Item)
      requires Valid() && dynamic
      modifies this
      ensures Valid()
      ensures Contents() == old(Contents()) + [item]
      ensures |old(pending)| + 1 < batchSize ==> pending == old(pending) + [item] && cache == old(cache)
      ensures |old(pending)| + 1 == batchSize ==>
        pending == [] && cache == old(cache) + [Package(old(pending) + [item], false)]
      ensures running == old(running) && failed == old(failed)
    {
      pending := pending + [item];
      if |pending| > batchSize - 1 {
        Emit();
      }
    }

    /** The cache after ClearDiscard: the static cache keeps the packages
        whose first item is live; the dynamic cache re-batches every live
        item into packages of batch_size. */
    function Cleared(ps: seq<Package>, discarded: set<nat>): seq<Package>
      requires dynamic ==> batchSize > 0
      reads this
    {
      if dynamic then AsPackages(Chunks(Survivors(AllItems(ps), discarded), batchSize))
      else KeptPacks(ps, discarded)
    }

    /** The items ClearDiscard reports through ProcessFailed(SUCCESS). */
    function ClearedItems(ps: seq<Package>, discarded: set<nat>): seq<Item>
      reads this
    {
      if dynamic then Dropped(AllItems(ps), discarded)
      else AllItems(DroppedPacks(ps, discarded))
    }

    /** Pop: an empty cache gives null once stopped (and waits while
        running); otherwise the front package is taken, unless one of its
        items is discarded, in which case the whole cache is cleared first
        and the new front (or null) is taken. */
    method Pop(discarded: set<nat>) returns (r: PopResult)
      requires Valid()
      modifies this`cache, this`failed
      ensures Valid()
      ensures old(cache) == [] ==>
        (cache == [] && failed == old(failed) && r == (if old(running) then Blocked else Null))
      ensures old(cache) != [] && !HasDiscarded(old(cache)[0].data, discarded) ==>
        r == Popped(old(cache)[0]) && cache == old(cache)[1..] && failed == old(failed)
      ensures old(cache) != [] && HasDiscarded(old(cache)[0].data, discarded) ==>
        var c := Cleared(old(cache), discarded);
        failed == old(failed) + ClearedItems(old(cache), discarded) &&
        (c == [] ==> r == Null && cache == []) &&
        (c != [] ==> r == Popped(c[0]) && cache == c[1..])
      ensures dynamic && r.Popped? ==>
        forall i :: 0 <= i < |r.pack.data| ==> r.pack.data[i].ctrl !in discarded
    {
      if cache == [] {
        return if running then Blocked else Null;
      }
      ghost var waiting := |pending|;
      var pack := cache[0];
      if HasDiscarded(pack.data, discarded) {
        ghost var all := cache;
        if dynamic {
          ClearDiscardDynamic(discarded);
          DynamicClearKeepsExactlyLive(all, discarded, batchSize);
        } else {
          ClearDiscardStatic(discarded);
        }
        if cache == [] {
          return Null;
        }
        pack := cache[0];
        assert pack in cache;
      }
      cache := cache[1..];
      assert |pending| == waiting;
      r := Popped(pack);
    }

    /** CacheStatic::ClearDiscard: packages are taken off the front one by
        one; those whose first item is discarded have every item reported
        and are dropped, the others are queued again in order. */
    method ClearDiscardStatic(discarded: set<nat>)
      requires Valid() && !dynamic && cache != []
      modifies this`cache, this`failed
      ensures Valid()
      ensures cache == KeptPacks(old(cache), discarded)
      ensures failed == old(failed) + AllItems(DroppedPacks(old(cache), discarded))
    {
      ghost var all := cache;
      var kept := DrainStatic(discarded);
      KeptPacksFromInput(all, discarded);
      Requeue(kept);
      assert forall i :: 0 <= i < |cache| ==> cache[i] in all;
    }

    /** The first loop of CacheStatic::ClearDiscard: the queue is emptied
        from the front, dropped packages reported and kept ones collected. */
    method DrainStatic(discarded: set<nat>) returns (kept: seq<Package>)
      requires forall i :: 0 <= i < |cache| ==> |cache[i].data| > 0
      modifies this`cache, this`failed
      ensures cache == []
      ensures kept == KeptPacks(old(cache), discarded)
      ensures failed == old(failed) + AllItems(DroppedPacks(old(cache), discarded))
    {
      ghost var all := cache;
      kept := [];
      ghost var j := 0;
      while cache != []
        invariant 0 <= j <= |all| && cache == all[j..]
        invariant kept == KeptPacks(all[..j], discarded)
        invariant failed == old(failed) + AllItems(DroppedPacks(all[..j], discarded))
        decreases |cache|
      {
        var pack := cache[0];
        cache := cache[1..];
        PackFilterStep(all, j, discarded);
        if pack.data[0].ctrl !in discarded {
          kept := kept + [pack];
        } else {
          ghost var reported := AllItems(DroppedPacks(all[..j], discarded));
          ReportFailed(pack.data);
          assert failed == old(failed) + (reported + pack.data);
        }
        j := j + 1;
      }
      assert all[..j] == all;
    }

    /** ProcessFailed(Status::SUCCESS) on every item of a dropped package. */
    method ReportFailed(items: seq<Item>)
      modifies this`failed
      ensures failed == old(failed) + items
    {
      var i := 0;
      while i < |items|
        invariant 0 <= i <= |items|
        invariant failed == old(failed) + items[..i]
      {
        failed := failed + [items[i]];
        assert items[..i + 1] == items[..i] + [items[i]];
        i := i + 1;
      }
      assert items[..i] == items;
    }

    /** The closing loop of CacheStatic::ClearDiscard: the kept packages go
        back to the queue in order. */
    method Requeue(kept: seq<Package>)
      modifies this`cache
      ensures cache == old(cache) + kept
    {
      var n := 0;
      while n < |kept|
        invariant 0 <= n <= |kept| && cache == old(cache) + kept[..n]
      {
        cache := cache + [kept[n]];
        assert kept[..n + 1] == kept[..n] + [kept[n]];
        n := n + 1;
      }
      assert kept[..n] == kept;
    }

    /** CacheDynamic::ClearDiscard: every queued package is taken apart;
        discarded items are reported, live ones are re-batched in order into
        packages of at most batch_size items. */
    method ClearDiscardDynamic(discarded: set<nat>)
      requires Valid() && dynamic && cache != []
      modifies this`cache, this`failed
      ensures Valid()
      ensures cache == AsPackages(Chunks(Survivors(AllItems(old(cache)), discarded), batchSize))
      ensures failed == old(failed) + Dropped(AllItems(old(cache)), discarded)
    {
      ghost var all := cache;
      ghost var waiting := |pending|;
      var live := DrainDynamic(discarded);
      assert |pending| == waiting < batchSize;
      Rebatch(live);
      assert cache == AsPackages(Chunks(live, batchSize)) by {
        assert [] + AsPackages(Chunks(live, batchSize)) == AsPackages(Chunks(live, batchSize));
      }
      DynamicClearKeepsExactlyLive(all, discarded, batchSize);
      forall i | 0 <= i < |cache| ensures PackOk(cache[i]) {
        assert cache[i] in cache;
      }
    }

    /** The first loop of CacheDynamic::ClearDiscard: the queue is emptied
        from the front and every package split into live and discarded
        items. */
    method DrainDynamic(discarded: set<nat>) returns (live: seq<Item>)
      modifies this`cache, this`failed
      ensures cache == []
      ensures live == Survivors(AllItems(old(cache)), discarded)
      ensures failed == old(failed) + Dropped(AllItems(old(cache)), discarded)
    {
      ghost var all := cache;
      live := [];
      ghost var j := 0;
      while cache != []
        invariant 0 <= j <= |all| && cache == all[j..]
        invariant live == Survivors(AllItems(all[..j]), discarded)
        invariant failed == old(failed) + Dropped(AllItems(all[..j]), discarded)
        decreases |cache|
      {
        var pack := cache[0];
        cache := cache[1..];
        ghost var before := AllItems(all[..j]);
        ghost var failedBefore := failed;
        live := SplitDiscarded(pack.data, discarded, live);
        assert AllItems(all[..j + 1]) == before + pack.data by {
          assert all[..j + 1] == all[..j] + [pack];
          AllItemsSnoc(all[..j], pack);
        }
        FilterAppend(before, pack.data, discarded);
        assert failed == old(failed) + (Dropped(before, discarded) + Dropped(pack.data, discarded));
        j := j + 1;
      }
      assert all[..j] == all;
    }

    /** The inner loop of CacheDynamic::ClearDiscard over one package: live
        items are appended to `live`, discarded ones are reported. */
    method SplitDiscarded(items: seq<Item>, discarded: set<nat>, live0: seq<Item>) returns (live: seq<Item>)
      modifies this`failed
      ensures live == live0 + Survivors(items, discarded)
      ensures failed == old(failed) + Dropped(items, discarded)
    {
      live := live0;
      var i := 0;
      while i < |items|
        invariant 0 <= i <= |items|
        invariant live == live0 + Survivors(items[..i], discarded)
        invariant failed == old(failed) + Dropped(items[..i], discarded)
      {
        var it := items[i];
        FilterSnoc(items[..i], it, discarded);
        assert items[..i + 1] == items[..i] + [it];
        if it.ctrl !in discarded {
          live := live + [it];
        } else {
          failed := failed + [it];
        }
        i := i + 1;
      }
      assert items[..i] == items;
    }

    /** The second loop of CacheDynamic::ClearDiscard: the live items are
        queued again in packages that close at batch_size items or at the
        last item. */
    method Rebatch(live: seq<Item>)
      requires batchSize > 0
      modifies this`cache
      ensures cache == old(cache) + AsPackages(Chunks(live, batchSize))
    {
      var k := batchSize;
      var current: seq<Item> := [];
      ghost var start := 0;
      ghost var m := 0;
      var idx := 0;
      while idx < |live|
        invariant 0 <= start <= idx <= |live|
        invariant current == live[start..idx] && |current| < k
        invariant idx < |live| ==> start == m * k
        invariant idx == |live| ==> start == idx
        invariant cache == old(cache) + AsPackages(Chunks(live[..start], k))
      {
        current := current + [live[idx]];
        assert current == live[start..idx + 1];
        if |current| >= k || idx == |live| - 1 {
          CloseChunk(live, start, idx + 1, k, m);
          assert cache + [Package(current, false)] == old(cache) + AsPackages(Chunks(live[..idx + 1], k));
          cache := cache + [Package(current, false)];
          current := [];
          start := idx + 1;
          m := m + 1;
        }
        idx := idx + 1;
      }
      assert live[..start] == live;
    }
  }

  /** After the dynamic ClearDiscard no queued item belongs to a discarded
      request, and every live item is still queued, in order. */
  lemma DynamicClearKeepsExactlyLive(ps: seq<Package>, discarded: set<nat>, k: nat)
    requires k > 0
    ensures AllItems(AsPackages(Chunks(Survivors(AllItems(ps), discarded), k))) ==
      Survivors(AllItems(ps), discarded)
    ensures forall p :: p in AsPackages(Chunks(Survivors(AllItems(ps), discarded), k)) ==>
      0 < |p.data| <= k && forall i :: 0 <= i < |p.data| ==> p.data[i].ctrl !in discarded
  {
    var live := Survivors(AllItems(ps), discarded);
    var chunks := Chunks(live, k);
    ChunksPartition(live, k);
    AllItemsOfPackages(chunks);
    ChunkItemsFrom(live, k);
    forall p | p in AsPackages(chunks)
      ensures 0 < |p.data| <= k && forall i :: 0 <= i < |p.data| ==> p.data[i].ctrl !in discarded
    {
      var c :| 0 <= c < |chunks| && p == Package(chunks[c], false);
      forall i | 0 <= i < |p.data| ensures p.data[i].ctrl !in discarded {
        assert p.data[i] in live;
      }
    }
  }

  /** Every item of a chunk comes from the input. */
  lemma {:induction false} ChunkItemsFrom(s: seq<Item>, k: nat)
    requires k > 0
    ensures forall c, i :: 0 <= c < |Chunks(s, k)| && 0 <= i < |Chunks(s, k)[c]| ==> Chunks(s, k)[c][i] in s
    decreases |s|
  {
    if |s| > k {
      ChunkItemsFrom(s[k..], k);
      forall c, i | 0 <= c < |Chunks(s, k)| && 0 <= i < |Chunks(s, k)[c]| ensures Chunks(s, k)[c][i] in s {
        if c == 0 {
          assert Chunks(s, k)[0] == s[..k];
          assert s[..k][i] == s[i];
        } else {
          assert Chunks(s, k)[c] == Chunks(s[k..], k)[c - 1];
          var x := Chunks(s, k)[c][i];
          assert x in s[k..];
          var j :| 0 <= j < |s[k..]| && s[k..][j] == x;
          assert s[k + j] == x;
        }
      }
    } else if |s| > 0 {
      assert Chunks(s, k) == [s];
    }
  }

}
