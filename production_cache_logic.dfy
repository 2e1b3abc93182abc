/**
 * The value-level logic of objects/ProductionCache.kt: the ordered cache
 * map, the merge performed by `updateCache`, the change check
 * `hasCacheChanged`, the lookup `getProductionItemFromCache`, the
 * constructor `createNewProductionItem`, and the pieces of `syncDb` that
 * do not touch state (eligibility, request building, pending-list
 * filtering). The class in ProductionCacheObject is proved against these.
 */
module ProductionCacheLogic {
  import opened Wrappers
  import opened ProductionModel
  import opened Sequences

  // ---------------------------------------------------------------------
  // The cache map
  // ---------------------------------------------------------------------

  /**
   * `productionCache` is a Kotlin `mutableMapOf`, a LinkedHashMap: its
   * values are iterated in the order in which their keys were first
   * inserted, and re-assigning an existing key keeps its place. `order`
   * records that insertion order.
   */
  datatype LinkedCache = LinkedCache(order: seq<string>, entries: map<string, seq<ProductionPayload>>) {

    /** `order` lists every key of `entries` exactly once. */
    ghost predicate Valid() {
      && NoDuplicates(order)
      && (forall o :: o in entries <==> o in order)
    }

    /** `productionCache[origin] ?: emptyList()`. */
    function ListOf(origin: string): seq<ProductionPayload> {
      if origin in entries then entries[origin] else []
    }

    /** `productionCache[origin] = list`. */
    function Put(origin: string, list: seq<ProductionPayload>): (c: LinkedCache)
      ensures c.entries == entries[origin := list]
      ensures c.ListOf(origin) == list
      ensures forall o :: o != origin ==> c.ListOf(o) == ListOf(o)
      ensures c.order == if origin in entries then order else order + [origin]
      ensures Valid() ==> c.Valid()
    {
      LinkedCache(if origin in entries then order else order + [origin], entries[origin := list])
    }
  }

  const EmptyCache := LinkedCache([], map[])

  // ---------------------------------------------------------------------
  // Records and their correlation ids
  // ---------------------------------------------------------------------

  /** `list.any { it.custom_uid == uid }`. */
  predicate HasUid(list: seq<ProductionPayload>, uid: string) {
    exists i :: 0 <= i < |list| && list[i].customUid == uid
  }

  ghost predicate UidsDistinct(list: seq<ProductionPayload>) {
    forall i, j :: 0 <= i < j < |list| ==> list[i].customUid != list[j].customUid
  }

  /** The invariant the service relies on: within one origin's list, `custom_uid` is unique. */
  ghost predicate AllUidsDistinct(c: LinkedCache) {
    forall o :: o in c.entries ==> UidsDistinct(c.entries[o])
  }

  /** Every record stored under origin `o` names `o` as its origin. */
  ghost predicate OriginsConsistent(c: LinkedCache) {
    forall o, i :: o in c.entries && 0 <= i < |c.entries[o]| ==> c.entries[o][i].origin == o
  }

  /** `list.indexOfFirst { it.custom_uid == uid }`: -1 when there is none. */
  function FirstUidIndex(list: seq<ProductionPayload>, uid: string): (k: int)
    ensures -1 <= k < |list|
    ensures k == -1 <==> !HasUid(list, uid)
    ensures 0 <= k ==> list[k].customUid == uid
    ensures forall j :: 0 <= j < k ==> list[j].customUid != uid
  {
    if |list| == 0 then -1
    else if list[0].customUid == uid then 0
    else
      var k := FirstUidIndex(list[1..], uid);
      assert forall j :: 0 < j < |list| ==> list[j] == list[1..][j - 1];
      if k == -1 then -1 else k + 1
  }

  /** The three in-memory flags of a record. */
  function SyncFlags(p: ProductionPayload): (bool, bool, bool) {
    (p.dbSync, p.posSync, p.kitchenSync)
  }

  /** `item` carrying the `db_sync`, `pos_sync` and `kitchen_sync` of `existing`. */
  function WithFlagsOf(item: ProductionPayload, existing: ProductionPayload): (r: ProductionPayload)
    ensures SyncFlags(r) == SyncFlags(existing)
    ensures r.(dbSync := item.dbSync, posSync := item.posSync, kitchenSync := item.kitchenSync) == item
  {
    item.(dbSync := existing.dbSync, posSync := existing.posSync, kitchenSync := existing.kitchenSync)
  }

  // ---------------------------------------------------------------------
  // updateCache
  // ---------------------------------------------------------------------

  /**
   * What one step of `updateCache` does to the list of the item's
   * origin: the first record with the same `custom_uid` is overwritten in
   * place by the item carrying that record's sync flags; without one the
   * item is appended.
   */
  function Upsert(list: seq<ProductionPayload>, item: ProductionPayload): seq<ProductionPayload> {
    var k := FirstUidIndex(list, item.customUid);
    if k != -1 then list[k := WithFlagsOf(item, list[k])] else list + [item]
  }

  /** One step of `updateCache`: the item's origin gets the upserted list. */
  function MergeItem(c: LinkedCache, item: ProductionPayload): LinkedCache {
    c.Put(item.origin, Upsert(c.ListOf(item.origin), item))
  }

  /** `updateCache(items)`: the items are merged one after the other, in order. */
  function MergeAll(c: LinkedCache, items: seq<ProductionPayload>): LinkedCache
    decreases |items|
  {
    if items == [] then c
    else MergeItem(MergeAll(c, items[..|items| - 1]), items[|items| - 1])
  }

  /** Unfolding `MergeAll` over a prefix of the items, one item further. */
  lemma MergeAllPrefixStep(c: LinkedCache, items: seq<ProductionPayload>, i: nat)
    requires i < |items|
    ensures MergeAll(c, items[..i + 1]) == MergeItem(MergeAll(c, items[..i]), items[i])
  {
    assert items[..i + 1][..i] == items[..i];
  }

  /** A matching record is replaced at its own index, carrying its old flags; nothing else moves. */
  lemma UpsertMatched(list: seq<ProductionPayload>, item: ProductionPayload, j: nat)
    requires j < |list| && list[j].customUid == item.customUid
    requires forall i :: 0 <= i < j ==> list[i].customUid != item.customUid
    ensures |Upsert(list, item)| == |list|
    ensures Upsert(list, item)[j] == WithFlagsOf(item, list[j])
    ensures forall i :: 0 <= i < |list| && i != j ==> Upsert(list, item)[i] == list[i]
  {
    assert FirstUidIndex(list, item.customUid) == j;
  }

  /** An item whose `custom_uid` is not in the list is appended at the end. */
  lemma UpsertUnmatched(list: seq<ProductionPayload>, item: ProductionPayload)
    requires !HasUid(list, item.customUid)
    ensures Upsert(list, item) == list + [item]
  {
  }

  /** A record already in the list keeps its index, its `custom_uid` and its three sync flags. */
  lemma UpsertKeepsRecord(list: seq<ProductionPayload>, item: ProductionPayload, j: nat)
    requires j < |list|
    ensures j < |Upsert(list, item)|
    ensures Upsert(list, item)[j].customUid == list[j].customUid
    ensures SyncFlags(Upsert(list, item)[j]) == SyncFlags(list[j])
  {
  }

  lemma UpsertPreservesDistinct(list: seq<ProductionPayload>, item: ProductionPayload)
    requires UidsDistinct(list)
    ensures UidsDistinct(Upsert(list, item))
  {
    var k := FirstUidIndex(list, item.customUid);
    var r := Upsert(list, item);
    if k == -1 {
      forall i, j | 0 <= i < j < |r| ensures r[i].customUid != r[j].customUid {
        if j == |list| {
          assert r[i] == list[i];
        }
      }
    } else {
      forall i | 0 <= i < |r| ensures r[i].customUid == list[i].customUid { }
    }
  }

  lemma MergeItemPreservesInvariants(c: LinkedCache, item: ProductionPayload)
    requires c.Valid() && AllUidsDistinct(c)
    ensures MergeItem(c, item).Valid() && AllUidsDistinct(MergeItem(c, item))
    ensures c.entries.Keys <= MergeItem(c, item).entries.Keys
  {
    UpsertPreservesDistinct(c.ListOf(item.origin), item);
  }

  /** `updateCache` keeps the order of origins consistent and `custom_uid`s distinct per origin. */
  lemma {:induction false} MergeAllPreservesInvariants(c: LinkedCache, items: seq<ProductionPayload>)
    requires c.Valid() && AllUidsDistinct(c)
    ensures MergeAll(c, items).Valid() && AllUidsDistinct(MergeAll(c, items))
    ensures c.entries.Keys <= MergeAll(c, items).entries.Keys
    decreases |items|
  {
    if items != [] {
      var prefix := items[..|items| - 1];
      MergeAllPreservesInvariants(c, prefix);
      MergeItemPreservesInvariants(MergeAll(c, prefix), items[|items| - 1]);
    }
  }

  /** The origins the items name. */
  function Origins(items: seq<ProductionPayload>): (s: set<string>)
    ensures forall o :: o in s <==> exists i :: 0 <= i < |items| && items[i].origin == o
    decreases |items|
  {
    if items == [] then {}
    else
      var prefix := items[..|items| - 1];
      assert forall i :: 0 <= i < |prefix| ==> prefix[i] == items[i];
      Origins(prefix) + {items[|items| - 1].origin}
  }

  /** The origins after `updateCache` are the old ones plus the origins of the items. */
  lemma {:induction false} MergeAllKeys(c: LinkedCache, items: seq<ProductionPayload>)
    ensures MergeAll(c, items).entries.Keys == c.entries.Keys + Origins(items)
    decreases |items|
  {
    if items != [] {
      MergeAllKeys(c, items[..|items| - 1]);
    }
  }

  /** An origin no incoming item names keeps its list (and its presence) under `updateCache`. */
  lemma {:induction false} MergeAllOtherOrigins(c: LinkedCache, items: seq<ProductionPayload>, o: string)
    requires forall i :: 0 <= i < |items| ==> items[i].origin != o
    ensures MergeAll(c, items).ListOf(o) == c.ListOf(o)
    ensures o in MergeAll(c, items).entries <==> o in c.entries
    decreases |items|
  {
    if items != [] {
      var prefix := items[..|items| - 1];
      assert forall i :: 0 <= i < |prefix| ==> prefix[i] == items[i];
      MergeAllOtherOrigins(c, prefix, o);
    }
  }

  /**
   * Records are never deleted by `updateCache`, only overwritten in place:
   * the record at index `j` of origin `o` keeps its index, its
   * `custom_uid` and its three sync flags, whatever is merged.
   */
  lemma {:induction false} MergeAllKeepsRecord(c: LinkedCache, items: seq<ProductionPayload>, o: string, j: nat)
    requires j < |c.ListOf(o)|
    ensures j < |MergeAll(c, items).ListOf(o)|
    ensures MergeAll(c, items).ListOf(o)[j].customUid == c.ListOf(o)[j].customUid
    ensures SyncFlags(MergeAll(c, items).ListOf(o)[j]) == SyncFlags(c.ListOf(o)[j])
    decreases |items|
  {
    if items != [] {
      var prefix := items[..|items| - 1];
      var last := items[|items| - 1];
      MergeAllKeepsRecord(c, prefix, o, j);
      if last.origin == o {
        UpsertKeepsRecord(MergeAll(c, prefix).ListOf(o), last, j);
      }
    }
  }

  /** `updateCache` stores each item under its own origin, so origin consistency is kept. */
  lemma {:induction false} MergeAllKeepsOriginsConsistent(c: LinkedCache, items: seq<ProductionPayload>)
    requires OriginsConsistent(c)
    ensures OriginsConsistent(MergeAll(c, items))
    decreases |items|
  {
    if items != [] {
      var prefix := items[..|items| - 1];
      var last := items[|items| - 1];
      MergeAllKeepsOriginsConsistent(c, prefix);
      var m := MergeAll(c, prefix);
      var l := m.ListOf(last.origin);
      var k := FirstUidIndex(l, last.customUid);
      assert forall i :: 0 <= i < |l| ==> l[i].origin == last.origin;
      var r := Upsert(l, last);
      assert forall i :: 0 <= i < |r| ==> r[i].origin == last.origin by {
        if k == -1 {
          assert forall i :: 0 <= i < |l| ==> r[i] == l[i];
        }
      }
    }
  }

  /** `.map { it.apply { it.db_sync = true } }` over the queried records. */
  function MarkDbSynced(records: seq<ProductionPayload>): (r: seq<ProductionPayload>)
    ensures |r| == |records|
    ensures forall i :: 0 <= i < |r| ==> r[i].dbSync && r[i].(dbSync := records[i].dbSync) == records[i]
  {
    if records == [] then []
    else [records[0].(dbSync := true)] + MarkDbSynced(records[1..])
  }

  /**
   * The `db_sync = true` set on queried records survives only for
   * records first seen through the query: if origin `o` had no record
   * with `custom_uid` `u`, then after merging db-synced records every
   * record of `o` with that id is db-synced.
   */
  lemma {:induction false} MergeSyncedKeepsDbSync(c: LinkedCache, items: seq<ProductionPayload>, o: string, u: string)
    requires forall i :: 0 <= i < |items| ==> items[i].dbSync
    requires forall j :: 0 <= j < |c.ListOf(o)| && c.ListOf(o)[j].customUid == u ==> c.ListOf(o)[j].dbSync
    ensures forall j :: (0 <= j < |MergeAll(c, items).ListOf(o)| && MergeAll(c, items).ListOf(o)[j].customUid == u
      ==> MergeAll(c, items).ListOf(o)[j].dbSync)
    decreases |items|
  {
    if items != [] {
      var prefix := items[..|items| - 1];
      var last := items[|items| - 1];
      assert forall i :: 0 <= i < |prefix| ==> prefix[i] == items[i];
      MergeSyncedKeepsDbSync(c, prefix, o, u);
      var l := MergeAll(c, prefix).ListOf(o);
      if last.origin == o {
        var k := FirstUidIndex(l, last.customUid);
        var r := Upsert(l, last);
        forall j | 0 <= j < |r| && r[j].customUid == u ensures r[j].dbSync {
          if k != -1 && j == k {
            assert l[k].customUid == u;
          } else if k == -1 && j == |l| {
            assert r[j] == last;
          } else {
            assert r[j] == l[j];
          }
        }
      }
    }
  }

  /** A record the query returns for an origin that lacked its `custom_uid` ends up cached under that origin. */
  lemma {:induction false} MergeAllAddsUid(c: LinkedCache, items: seq<ProductionPayload>, i: nat)
    requires i < |items|
    ensures HasUid(MergeAll(c, items).ListOf(items[i].origin), items[i].customUid)
    decreases |items|
  {
    var prefix := items[..|items| - 1];
    var last := items[|items| - 1];
    var m := MergeAll(c, prefix);
    if i == |items| - 1 {
      var l := m.ListOf(last.origin);
      var k := FirstUidIndex(l, last.customUid);
      if k == -1 {
        assert Upsert(l, last)[|l|] == last;
      } else {
        assert Upsert(l, last)[k].customUid == last.customUid;
      }
    } else {
      assert prefix[i] == items[i];
      MergeAllAddsUid(c, prefix, i);
      var l := m.ListOf(items[i].origin);
      var j :| 0 <= j < |l| && l[j].customUid == items[i].customUid;
      MergeAllKeepsRecord(m, [last], items[i].origin, j);
      assert MergeAll(m, [last]) == MergeItem(m, last) by {
        assert [last][..0] == [];
      }
    }
  }

  // ---------------------------------------------------------------------
  // hasCacheChanged
  // ---------------------------------------------------------------------

  /**
   * `hasCacheChanged(old, new)`: true when the maps differ in size, or
   * some origin of `old` is missing from `new`, has a list of another
   * length, or has an item that is not (by value) in the new list. It is
   * a one-directional containment check.
   */
  predicate HasCacheChanged(oldCache: map<string, seq<ProductionPayload>>, newCache: map<string, seq<ProductionPayload>>) {
    || |oldCache| != |newCache|
    || exists origin :: origin in oldCache &&
         (|| origin !in newCache
          || |oldCache[origin]| != |newCache[origin]|
          || exists item :: item in oldCache[origin] && item !in newCache[origin])
  }

  /** A cache compared with itself never registers as changed. */
  lemma HasCacheChangedIrreflexive(c: map<string, seq<ProductionPayload>>)
    ensures !HasCacheChanged(c, c)
  {
  }

  lemma SubsetOfEqualSize<T>(a: set<T>, b: set<T>)
    requires a <= b && |a| == |b|
    ensures a == b
  {
    assert b == a + (b - a);
    assert a * (b - a) == {};
    assert |b - a| == 0;
    assert b - a == {};
  }

  /**
   * What "unchanged" guarantees: the same origins, lists of the same
   * lengths, and every old item still present in its origin's new list.
   */
  lemma UnchangedCharacterized(oldCache: map<string, seq<ProductionPayload>>, newCache: map<string, seq<ProductionPayload>>)
    requires !HasCacheChanged(oldCache, newCache)
    ensures oldCache.Keys == newCache.Keys
    ensures forall o :: o in oldCache ==> |oldCache[o]| == |newCache[o]|
    ensures forall o, p :: o in oldCache && p in oldCache[o] ==> p in newCache[o]
  {
    assert oldCache.Keys <= newCache.Keys;
    assert |oldCache.Keys| == |oldCache| && |newCache.Keys| == |newCache|;
    SubsetOfEqualSize(oldCache.Keys, newCache.Keys);
  }

  /**
   * The converse: the same origins, lists of the same lengths and every
   * old item still present in its origin's new list is "unchanged".
   */
  lemma UnchangedFromCharacterization(oldCache: map<string, seq<ProductionPayload>>, newCache: map<string, seq<ProductionPayload>>)
    requires oldCache.Keys == newCache.Keys
    requires forall o :: o in oldCache ==> |oldCache[o]| == |newCache[o]|
    requires forall o, p :: o in oldCache && p in oldCache[o] ==> p in newCache[o]
    ensures !HasCacheChanged(oldCache, newCache)
  {
    assert |oldCache| == |oldCache.Keys| && |newCache| == |newCache.Keys|;
  }

  /**
   * The check is coarse and not symmetric: a list whose items are all
   * still found by value can hide a replaced item, so `new` can differ
   * from `old` and pass, while the reverse comparison registers it.
   */
  lemma HasCacheChangedIsOneDirectional(a: ProductionPayload, b: ProductionPayload)
    requires a != b
    ensures !HasCacheChanged(map["SO001" := [a, a]], map["SO001" := [a, b]])
    ensures HasCacheChanged(map["SO001" := [a, b]], map["SO001" := [a, a]])
  {
    var oldCache := map["SO001" := [a, a]];
    var newCache := map["SO001" := [a, b]];
    assert b in newCache["SO001"] && b !in oldCache["SO001"];
  }

  // ---------------------------------------------------------------------
  // getProductionItemFromCache
  // ---------------------------------------------------------------------

  /** `productionCache.values.flatten()`, in the map's iteration order. */
  function Flatten(order: seq<string>, c: LinkedCache): seq<ProductionPayload> {
    if order == [] then [] else c.ListOf(order[0]) + Flatten(order[1..], c)
  }

  /** `records.find { it.custom_uid == uid }`. */
  function FindByUid(records: seq<ProductionPayload>, uid: string): (r: Option<ProductionPayload>)
    ensures r.None? <==> !HasUid(records, uid)
    ensures r.Some? ==> r.value.customUid == uid && r.value in records
  {
    if records == [] then None
    else if records[0].customUid == uid then Some(records[0])
    else
      assert forall j :: 0 < j < |records| ==> records[j] == records[1..][j - 1];
      FindByUid(records[1..], uid)
  }

  /** Where a record is kept: its origin's key and its index in that origin's list. */
  datatype Location = Location(origin: string, index: nat)

  /**
   * The cache location of the record `getProductionItemFromCache` finds:
   * the first origin (in the map's order) holding the id, and the first
   * index with that id in its list.
   */
  function LocateIn(order: seq<string>, c: LinkedCache, uid: string): (loc: Option<Location>)
    ensures loc.Some? ==>
      && loc.value.index < |c.ListOf(loc.value.origin)|
      && c.ListOf(loc.value.origin)[loc.value.index].customUid == uid
  {
    if order == [] then None
    else
      var k := FirstUidIndex(c.ListOf(order[0]), uid);
      if k != -1 then Some(Location(order[0], k)) else LocateIn(order[1..], c, uid)
  }

  /**
   * `LocateIn` fails exactly when no origin of `order` holds the id; when
   * it succeeds its origin is the first one holding it and its index the
   * first with that id.
   */
  lemma {:induction false} LocateInFindsFirst(order: seq<string>, c: LinkedCache, uid: string)
    ensures var loc := LocateIn(order, c, uid);
      && (loc.None? <==> forall k :: 0 <= k < |order| ==> !HasUid(c.ListOf(order[k]), uid))
      && (loc.Some? ==>
        && loc.value.origin in order
        && (forall j :: 0 <= j < loc.value.index ==> c.ListOf(loc.value.origin)[j].customUid != uid)
        && (exists k :: 0 <= k < |order| && order[k] == loc.value.origin
                        && forall k' :: 0 <= k' < k ==> !HasUid(c.ListOf(order[k']), uid)))
    decreases |order|
  {
    if order != [] && FirstUidIndex(c.ListOf(order[0]), uid) == -1 {
      var rest := LocateIn(order[1..], c, uid);
      LocateInFindsFirst(order[1..], c, uid);
      assert forall k :: 0 < k < |order| ==> order[k] == order[1..][k - 1];
      if rest.Some? {
        var k1 :| 0 <= k1 < |order[1..]| && order[1..][k1] == rest.value.origin
                  && forall k' :: 0 <= k' < k1 ==> !HasUid(c.ListOf(order[1..][k']), uid);
        assert order[k1 + 1] == rest.value.origin;
        forall k' | 0 <= k' < k1 + 1 ensures !HasUid(c.ListOf(order[k']), uid) {
          if k' > 0 {
            assert order[k'] == order[1..][k' - 1];
          }
        }
      }
    }
  }

  lemma {:induction false} FindByUidAppend(a: seq<ProductionPayload>, b: seq<ProductionPayload>, uid: string)
    ensures FindByUid(a + b, uid) == if HasUid(a, uid) then FindByUid(a, uid) else FindByUid(b, uid)
    decreases |a|
  {
    if a != [] {
      assert (a + b)[1..] == a[1..] + b;
      if a[0].customUid != uid {
        FindByUidAppend(a[1..], b, uid);
        assert HasUid(a, uid) <==> HasUid(a[1..], uid) by {
          assert forall j :: 0 < j < |a| ==> a[j] == a[1..][j - 1];
        }
      }
    } else {
      assert a + b == b;
    }
  }

  lemma {:induction false} FindByUidIsFirst(records: seq<ProductionPayload>, uid: string)
    requires HasUid(records, uid)
    ensures FindByUid(records, uid) == Some(records[FirstUidIndex(records, uid)])
    decreases |records|
  {
    if records[0].customUid != uid {
      assert HasUid(records[1..], uid) by {
        var j :| 0 <= j < |records| && records[j].customUid == uid;
        assert records[1..][j - 1] == records[j];
      }
      FindByUidIsFirst(records[1..], uid);
    }
  }

  /**
   * The flattened search of the source and the location-based search
   * agree: the record found in `values.flatten()` is the one stored at
   * `LocateIn`'s location.
   */
  lemma {:induction false} FindAgreesWithLocate(order: seq<string>, c: LinkedCache, uid: string)
    ensures FindByUid(Flatten(order, c), uid) ==
      match LocateIn(order, c, uid)
      case None => None
      case Some(loc) => Some(c.ListOf(loc.origin)[loc.index])
    decreases |order|
  {
    if order != [] {
      var head := c.ListOf(order[0]);
      FindByUidAppend(head, Flatten(order[1..], c), uid);
      if HasUid(head, uid) {
        FindByUidIsFirst(head, uid);
      } else {
        FindAgreesWithLocate(order[1..], c, uid);
      }
    }
  }

  // ---------------------------------------------------------------------
  // createNewProductionItem
  // ---------------------------------------------------------------------

  /**
   * `createNewProductionItem(body)`: id 0, no sync flag set, priority
   * "high", timestamp "0", everything else taken from the body.
   */
  function CreateNewProductionItem(body: ProductionOrderBody): (item: ProductionPayload)
    ensures item.id == 0 && item.priority == "high" && item.timestamp == "0"
    ensures !item.dbSync && !item.posSync && !item.kitchenSync
    ensures item.origin == body.origin && item.customUid == body.customUid
    ensures item.state == body.state && item.component == body.extraComponents
    ensures item.product == ProductPaiload(body.productId, body.displayName)
    ensures item.displayName == body.displayName && item.originUniqueName == body.originUniqueName
    ensures item.productionDelta == body.productionDelta
  {
    ProductionPayload(
      id := 0,
      displayName := body.displayName,
      origin := body.origin,
      originUniqueName := body.originUniqueName,
      productionDelta := body.productionDelta,
      priority := "high",
      state := body.state,
      product := ProductPaiload(body.productId, body.displayName),
      component := body.extraComponents,
      dbSync := false,
      posSync := false,
      kitchenSync := false,
      customUid := body.customUid,
      timestamp := "0")
  }

  // ---------------------------------------------------------------------
  // syncDb: the ERP stand-ins and the pure parts of the pass
  // ---------------------------------------------------------------------

  /** What `queryProduction()` did: returned records, or threw (it also throws on an empty result). */
  datatype QueryOutcome = QueryReturned(records: seq<ProductionPayload>) | QueryFailed

  /** `runCatching { queryProduction() }.getOrDefault(emptyList())`. */
  function QueriedRecords(q: QueryOutcome): seq<ProductionPayload> {
    match q
    case QueryReturned(rs) => rs
    case QueryFailed => []
  }

  /** What one `createProduction` call did: returned the ERP's string, or threw. */
  datatype CreateOutcome = CreateReturned(value: string) | CreateFailed

  /** The i-th `createProduction` call of a pass gets the i-th answer; a call past the end throws. */
  function CreateOutcomeAt(outcomes: seq<CreateOutcome>, i: nat): CreateOutcome {
    if i < |outcomes| then outcomes[i] else CreateFailed
  }

  ghost predicate CreatesSucceed(outcomes: seq<CreateOutcome>, n: nat) {
    forall i :: 0 <= i < n ==> CreateOutcomeAt(outcomes, i).CreateReturned?
  }

  lemma CreatesSucceedStep(outcomes: seq<CreateOutcome>, n: nat)
    requires CreatesSucceed(outcomes, n) && CreateOutcomeAt(outcomes, n).CreateReturned?
    ensures CreatesSucceed(outcomes, n + 1)
  {
  }

  /** The field map `createProduction` is sent (the source renders the integers as decimal strings). */
  datatype CreateRequest = CreateRequest(
    posReference: string,
    productId: int,
    state: string,
    productTmplId: int,
    productUomId: int,
    productQty: int,
    bomId: int,
    customUid: string,
    components: map<int, Quantity>)

  /**
   * `extra_components.associate { it.id to it.qty }`: one entry per
   * component id, and when an id repeats the last component wins.
   */
  function ComponentQuantities(cs: seq<ComponentPayload>): map<int, Quantity>
    decreases |cs|
  {
    if cs == [] then map[]
    else ComponentQuantities(cs[..|cs| - 1])[cs[|cs| - 1].id := cs[|cs| - 1].qty]
  }

  /** Every component id gets an entry, and no other id does. */
  lemma {:induction false} ComponentQuantitiesKeys(cs: seq<ComponentPayload>)
    ensures forall id :: id in ComponentQuantities(cs) <==> exists i :: 0 <= i < |cs| && cs[i].id == id
    decreases |cs|
  {
    if cs != [] {
      var prefix := cs[..|cs| - 1];
      ComponentQuantitiesKeys(prefix);
      assert forall i :: 0 <= i < |prefix| ==> prefix[i] == cs[i];
    }
  }

  /** An id carries the quantity of the last component with that id. */
  lemma {:induction false} ComponentQuantitiesLastWins(cs: seq<ComponentPayload>, i: nat)
    requires i < |cs|
    requires forall j :: i < j < |cs| ==> cs[j].id != cs[i].id
    ensures cs[i].id in ComponentQuantities(cs) && ComponentQuantities(cs)[cs[i].id] == cs[i].qty
    decreases |cs|
  {
    if i < |cs| - 1 {
      var prefix := cs[..|cs| - 1];
      assert prefix[i] == cs[i];
      ComponentQuantitiesLastWins(prefix, i);
    }
  }

  function CreateRequestFor(body: ProductionOrderBody): (r: CreateRequest)
    ensures r.posReference == body.origin && r.customUid == body.customUid
    ensures r.productId == body.productId && r.state == body.state
    ensures r.productTmplId == body.productTmplId && r.productUomId == body.productUomId
    ensures r.productQty == body.productQty && r.bomId == body.bomId
    ensures r.components == ComponentQuantities(body.extraComponents)
  {
    CreateRequest(
      posReference := body.origin,
      productId := body.productId,
      state := body.state,
      productTmplId := body.productTmplId,
      productUomId := body.productUomId,
      productQty := body.productQty,
      bomId := body.bomId,
      customUid := body.customUid,
      components := ComponentQuantities(body.extraComponents))
  }

  /**
   * A pending entry is pushed to the ERP when its `custom_uid` is among
   * the not yet db-synced records cached under its origin.
   */
  predicate Eligible(c: LinkedCache, body: ProductionOrderBody) {
    var l := c.ListOf(body.origin);
    exists j :: 0 <= j < |l| && !l[j].dbSync && l[j].customUid == body.customUid
  }

  /** The pending entries, in order, for which one `syncDb` pass issues `createProduction`. */
  function EligibleEntries(c: LinkedCache, pending: seq<ProductionOrderBody>): (r: seq<ProductionOrderBody>)
    ensures |r| <= |pending|
    decreases |pending|
  {
    if pending == [] then []
    else
      var prefix := pending[..|pending| - 1];
      var last := pending[|pending| - 1];
      EligibleEntries(c, prefix) + (if Eligible(c, last) then [last] else [])
  }

  /** Exactly the eligible entries of the pending list are pushed. */
  lemma {:induction false} EligibleEntriesMembers(c: LinkedCache, pending: seq<ProductionOrderBody>)
    ensures forall e :: e in EligibleEntries(c, pending) <==> e in pending && Eligible(c, e)
    decreases |pending|
  {
    if pending != [] {
      var prefix := pending[..|pending| - 1];
      var last := pending[|pending| - 1];
      assert pending == prefix + [last];
      EligibleEntriesMembers(c, prefix);
    }
  }

  lemma {:induction false} EligibleEntriesAppend(c: LinkedCache, a: seq<ProductionOrderBody>, b: seq<ProductionOrderBody>)
    ensures EligibleEntries(c, a + b) == EligibleEntries(c, a) + EligibleEntries(c, b)
    decreases |b|
  {
    if b == [] {
      assert a + b == a;
    } else {
      var prefix := b[..|b| - 1];
      assert (a + b)[..|a + b| - 1] == a + prefix;
      assert (a + b)[|a + b| - 1] == b[|b| - 1];
      EligibleEntriesAppend(c, a, prefix);
    }
  }

  /** The entries eligible within a prefix of the pending list are a prefix of all eligible entries. */
  lemma EligibleEntriesPrefix(c: LinkedCache, pending: seq<ProductionOrderBody>, i: nat)
    requires i <= |pending|
    ensures |EligibleEntries(c, pending[..i])| <= |EligibleEntries(c, pending)|
    ensures EligibleEntries(c, pending)[..|EligibleEntries(c, pending[..i])|] == EligibleEntries(c, pending[..i])
  {
    assert pending == pending[..i] + pending[i..];
    EligibleEntriesAppend(c, pending[..i], pending[i..]);
  }

  /** Extending the prefix by one entry adds that entry when it is eligible. */
  lemma EligibleEntriesStep(c: LinkedCache, pending: seq<ProductionOrderBody>, i: nat)
    requires i < |pending|
    ensures EligibleEntries(c, pending[..i + 1]) == EligibleEntries(c, pending[..i]) + (if Eligible(c, pending[i]) then [pending[i]] else [])
  {
    assert pending[..i + 1][..i] == pending[..i];
  }

  function CreateRequests(entries: seq<ProductionOrderBody>): (r: seq<CreateRequest>)
    ensures |r| == |entries|
  {
    seq(|entries|, i requires 0 <= i < |entries| => CreateRequestFor(entries[i]))
  }

  function UidsOf(entries: seq<ProductionOrderBody>): (s: set<string>)
  {
    set i | 0 <= i < |entries| :: entries[i].customUid
  }

  lemma RequestsAndUidsSnoc(entries: seq<ProductionOrderBody>, e: ProductionOrderBody)
    ensures CreateRequests(entries + [e]) == CreateRequests(entries) + [CreateRequestFor(e)]
    ensures UidsOf(entries + [e]) == UidsOf(entries) + {e.customUid}
  {
    assert forall i :: 0 <= i < |entries| ==> (entries + [e])[i] == entries[i];
    assert (entries + [e])[|entries|] == e;
  }

  /**
   * `pending.removeAll { it.custom_uid in uids }`: the entries whose id is
   * not in `uids`, in their original relative order.
   */
  function Without(pending: seq<ProductionOrderBody>, uids: set<string>): (r: seq<ProductionOrderBody>)
    ensures |r| <= |pending|
  {
    if pending == [] then []
    else (if pending[0].customUid in uids then [] else [pending[0]]) + Without(pending[1..], uids)
  }

  /**
   * `removeAll` keeps exactly the entries whose id is not in `uids`, and
   * removes nothing when no entry's id is.
   */
  lemma {:induction false} WithoutMembers(pending: seq<ProductionOrderBody>, uids: set<string>)
    ensures forall e :: e in Without(pending, uids) <==> e in pending && e.customUid !in uids
    ensures (forall e :: e in pending ==> e.customUid !in uids) ==> Without(pending, uids) == pending
    decreases |pending|
  {
    if pending != [] {
      WithoutMembers(pending[1..], uids);
      assert forall e :: e in pending <==> e == pending[0] || e in pending[1..];
    }
  }

  /** Removal keeps relative order: filtering distributes over concatenation. */
  lemma {:induction false} WithoutAppend(a: seq<ProductionOrderBody>, b: seq<ProductionOrderBody>, uids: set<string>)
    ensures Without(a + b, uids) == Without(a, uids) + Without(b, uids)
    decreases |a|
  {
    if a == [] {
      assert a + b == b;
    } else {
      assert (a + b)[0] == a[0];
      assert (a + b)[1..] == a[1..] + b;
      WithoutAppend(a[1..], b, uids);
    }
  }

  /** What a completed `syncDb` returns: `true`, the last create result, or null. */
  datatype SyncResult = CacheChanged | LastCreate(value: string) | Null

  /** How a `syncDb` call ended: with a result, or with an exception from `createProduction`. */
  datatype SyncOutcome = Returned(result: SyncResult) | Threw
}
