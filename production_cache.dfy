/**
 * The `ProductionCache` object of objects/ProductionCache.kt: the cache
 * of production items by origin, the FIFO admission queue of origins and
 * the list of submissions waiting to be created in the ERP, with the
 * operations that update them in place.
 *
 * Every `notifyClients(clients, "refresh")` the object issues is counted
 * in `refreshes`; the broadcast itself is WebSocketClientsObject.
 * The ERP calls made by `syncDb` are parameters: the outcome of each
 * `queryProduction()` and the answers to the `createProduction` calls.
 */
module ProductionCacheObject {
  import opened Wrappers
  import opened ProductionModel
  import opened ProductionCacheLogic
  import opened Sequences

  /** The cache after the first query of a `syncDb` pass has been merged. */
  function FirstPass(c: LinkedCache, firstQuery: QueryOutcome): LinkedCache {
    MergeAll(c, MarkDbSynced(QueriedRecords(firstQuery)))
  }

  /** The value a completed pass returns when the cache registers no change. */
  function LastCreateResult(outcomes: seq<CreateOutcome>, issued: nat): SyncResult {
    if issued == 0 then Null
    else
      match CreateOutcomeAt(outcomes, issued - 1)
      case CreateReturned(v) => LastCreate(v)
      case CreateFailed => Null
  }

  /**
   * The object invariant on the cache and the queue: the map's key order
   * is consistent, ids are distinct within each origin's list, the queue
   * holds no origin twice and only origins that have a cache entry.
   */
  ghost predicate StateValid(c: LinkedCache, queue: seq<string>) {
    && c.Valid()
    && AllUidsDistinct(c)
    && NoDuplicates(queue)
    && (forall o :: o in queue ==> o in c.entries)
  }

  lemma MergeAllKeepsStateValid(c: LinkedCache, queue: seq<string>, items: seq<ProductionPayload>)
    requires StateValid(c, queue)
    ensures StateValid(MergeAll(c, items), queue)
  {
    MergeAllPreservesInvariants(c, items);
  }

  /**
   * The loop of `updateCache`: for each item in order, the first record of
   * the item's origin with the same `custom_uid` is overwritten by the item
   * carrying that record's flags, or the item is appended to the list.
   */
  method MergeInto(cache: LinkedCache, production: seq<ProductionPayload>) returns (merged: LinkedCache)
    ensures merged == MergeAll(cache, production)
  {
    merged := cache;
    var i := 0;
    while i < |production|
      invariant 0 <= i <= |production|
      invariant merged == MergeAll(cache, production[..i])
    {
      var item := production[i];
      ghost var expected := Upsert(merged.ListOf(item.origin), item);
      var currentItems := merged.ListOf(item.origin);
      var existingItemIndex := FirstUidIndex(currentItems, item.customUid);
      if existingItemIndex != -1 {
        // the matched record's in-memory flags are carried over to the incoming item
        currentItems := currentItems[existingItemIndex := WithFlagsOf(item, currentItems[existingItemIndex])];
      } else {
        currentItems := currentItems + [item];
      }
      assert currentItems == expected;
      MergeAllPrefixStep(cache, production, i);
      merged := merged.Put(item.origin, currentItems);
      i := i + 1;
    }
    assert production[..|production|] == production;
  }

  /**
   * The create loop of `syncDb`: over the pending list, in order, each
   * entry eligible in `c` is sent to `createProduction`; `requests` are the
   * calls issued, `res` the last value returned and `uids` the ids pushed.
   * `failed` reports that a create threw, which ends the loop at once.
   */
  method IssueCreates(c: LinkedCache, pending: seq<ProductionOrderBody>, createOutcomes: seq<CreateOutcome>)
    returns (failed: bool, requests: seq<CreateRequest>, res: SyncResult, uids: set<string>)
    ensures !failed <==> CreatesSucceed(createOutcomes, |EligibleEntries(c, pending)|)
    ensures !failed ==>
      var eligible := EligibleEntries(c, pending);
      && requests == CreateRequests(eligible)
      && uids == UidsOf(eligible)
      && res == LastCreateResult(createOutcomes, |eligible|)
    ensures failed ==>
      var eligible := EligibleEntries(c, pending);
      && 0 < |requests| <= |eligible|
      && requests == CreateRequests(eligible[..|requests|])
      && CreatesSucceed(createOutcomes, |requests| - 1)
      && CreateOutcomeAt(createOutcomes, |requests| - 1).CreateFailed?
  {
    res := Null;
    uids := {};
    requests := [];
    failed := false;
    ghost var done: seq<ProductionOrderBody> := [];
    var i := 0;
    while i < |pending|
      invariant 0 <= i <= |pending|
      invariant done == EligibleEntries(c, pending[..i])
      invariant requests == CreateRequests(done) && uids == UidsOf(done)
      invariant CreatesSucceed(createOutcomes, |done|)
      invariant res == LastCreateResult(createOutcomes, |done|)
    {
      var item := pending[i];
      EligibleEntriesStep(c, pending, i);
      if Eligible(c, item) {
        var created := CreateOutcomeAt(createOutcomes, |requests|);
        RequestsAndUidsSnoc(done, item);
        requests := requests + [CreateRequestFor(item)];
        if created.CreateFailed? {
          EligibleEntriesPrefix(c, pending, i + 1);
          failed := true;
          return;
        }
        CreatesSucceedStep(createOutcomes, |done|);
        done := done + [item];
        res := LastCreate(created.value);
        uids := uids + {item.customUid};
      }
      i := i + 1;
    }
    assert pending[..|pending|] == pending;
  }

  class ProductionCache {
    /** Production items by origin (order name), most recently admitted first. */
    var productionCache: LinkedCache
    /** Origins admitted and not yet popped, oldest first. */
    var productionQueue: seq<string>
    /** Submissions waiting for `syncDb` to create them in the ERP. */
    var productionToSync: seq<ProductionOrderBody>
    /** How many "refresh" broadcasts the object has issued. */
    var refreshes: nat

    /** The object invariant (see StateValid). */
    ghost predicate Valid()
      reads this
    {
      StateValid(productionCache, productionQueue)
    }

    constructor ()
      ensures Valid()
      ensures productionCache == EmptyCache && productionQueue == [] && productionToSync == []
      ensures refreshes == 0
    {
      productionCache := EmptyCache;
      productionQueue := [];
      productionToSync := [];
      refreshes := 0;
    }

    /** `getQueue()`: the live admission queue. */
    function GetQueue(): seq<string>
      reads this
    {
      productionQueue
    }

    /** `getCache()`: the live cache map itself, with its key order. */
    function GetCache(): LinkedCache
      reads this
    {
      productionCache
    }

    /**
     * `getProductionItemFromCache(customUid)`: the first record with that
     * id in `values.flatten()`; null when no origin holds one.
     */
    function GetProductionItemFromCache(customUid: string): (r: Option<ProductionPayload>)
      reads this
      requires Valid()
      ensures r.None? <==> forall o :: o in productionCache.entries ==> !HasUid(productionCache.entries[o], customUid)
      ensures r.Some? ==> r.value.customUid == customUid
      ensures r.Some? ==> exists o :: o in productionCache.entries && r.value in productionCache.entries[o]
      ensures r == match LocateIn(productionCache.order, productionCache, customUid)
        case None => None
        case Some(loc) => Some(productionCache.ListOf(loc.origin)[loc.index])
    {
      FindAgreesWithLocate(productionCache.order, productionCache, customUid);
      LocateInFindsFirst(productionCache.order, productionCache, customUid);
      FindByUid(Flatten(productionCache.order, productionCache), customUid)
    }

    /**
     * `setNext(origin, item)`: sets the item's `pos_sync`; if the origin
     * already holds a record with the item's id nothing else happens;
     * otherwise the item is put at the head of the origin's list, the
     * origin joins the queue unless it is already queued, and one refresh
     * is broadcast. Returns the live queue and the item as `setNext`
     * leaves the caller's object.
     */
    method SetNext(origin: string, item: ProductionPayload) returns (queue: seq<string>, admitted: ProductionPayload)
      requires Valid()
      modifies this
      ensures Valid()
      ensures admitted == item.(posSync := true)
      ensures queue == productionQueue
      ensures productionToSync == old(productionToSync)
      ensures HasUid(old(productionCache.ListOf(origin)), item.customUid) ==>
        && productionCache == old(productionCache)
        && productionQueue == old(productionQueue)
        && refreshes == old(refreshes)
      ensures !HasUid(old(productionCache.ListOf(origin)), item.customUid) ==>
        && productionCache == old(productionCache).Put(origin, [admitted] + old(productionCache.ListOf(origin)))
        && productionQueue == old(productionQueue) + (if origin in old(productionQueue) then [] else [origin])
        && refreshes == old(refreshes) + 1
      ensures OriginsConsistent(old(productionCache)) && origin == item.origin ==> OriginsConsistent(productionCache)
    {
      admitted := item.(posSync := true);
      var existingItems := productionCache.ListOf(origin);
      if HasUid(existingItems, admitted.customUid) {
        queue := productionQueue;
        return;
      }
      var withItem := [admitted] + existingItems;
      assert UidsDistinct(withItem) by {
        forall i, j | 0 <= i < j < |withItem| ensures withItem[i].customUid != withItem[j].customUid {
          assert withItem[j] == existingItems[j - 1];
          if i > 0 {
            assert withItem[i] == existingItems[i - 1];
          }
        }
      }
      productionCache := productionCache.Put(origin, withItem);
      if origin !in productionQueue {
        productionQueue := productionQueue + [origin];
      }
      refreshes := refreshes + 1;
      queue := productionQueue;
    }

    /**
     * `getNext()`: pops the head origin off the queue and returns its
     * cached list; the cache entry is kept. An empty queue gives null and
     * changes nothing.
     */
    method GetNext() returns (r: Option<seq<ProductionPayload>>)
      requires Valid()
      modifies this
      ensures Valid()
      ensures old(productionQueue) == [] ==> r == None && productionQueue == []
      ensures old(productionQueue) != [] ==>
        && productionQueue == old(productionQueue)[1..]
        && old(productionQueue)[0] in productionCache.entries
        && r == Some(productionCache.entries[old(productionQueue)[0]])
      ensures productionCache == old(productionCache)
      ensures productionToSync == old(productionToSync) && refreshes == old(refreshes)
    {
      if productionQueue == [] {
        r := None;
      } else {
        var head := productionQueue[0];
        productionQueue := productionQueue[1..];
        r := if head in productionCache.entries then Some(productionCache.entries[head]) else None;
      }
    }

    /**
     * `updateCache(production)`: merges the items one after the other
     * (see MergeAll), then broadcasts one refresh, even for an empty batch.
     */
    method UpdateCache(production: seq<ProductionPayload>)
      requires Valid()
      modifies this
      ensures Valid()
      ensures productionCache == MergeAll(old(productionCache), production)
      ensures productionQueue == old(productionQueue) && productionToSync == old(productionToSync)
      ensures refreshes == old(refreshes) + 1
    {
      MergeAllKeepsStateValid(productionCache, productionQueue, production);
      productionCache := MergeInto(productionCache, production);
      refreshes := refreshes + 1;
    }

    /**
     * `syncDb()`: merges the first query's records (db-synced, a failed
     * query read as empty), issues `createProduction` for every eligible
     * pending entry in list order, merges the second query, drops the
     * pending entries whose id was pushed, and returns `true` if the cache
     * changed, else the last create result (null if none was issued).
     * `oldCache` and `newCache` are both the live map, so the change check
     * compares the cache with itself. A create that throws ends the pass:
     * the pending list is left as it was and no second query is made.
     * `requests` are the `createProduction` calls, in order.
     */
    method SyncDb(firstQuery: QueryOutcome, secondQuery: QueryOutcome, createOutcomes: seq<CreateOutcome>)
      returns (outcome: SyncOutcome, requests: seq<CreateRequest>)
      requires Valid()
      modifies this
      ensures Valid()
      ensures productionQueue == old(productionQueue)
      ensures
        var c1 := FirstPass(old(productionCache), firstQuery);
        var eligible := EligibleEntries(c1, old(productionToSync));
        outcome.Returned? <==> CreatesSucceed(createOutcomes, |eligible|)
      ensures outcome.Returned? ==>
        var c1 := FirstPass(old(productionCache), firstQuery);
        var eligible := EligibleEntries(c1, old(productionToSync));
        && requests == CreateRequests(eligible)
        && productionCache == MergeAll(c1, MarkDbSynced(QueriedRecords(secondQuery)))
        && productionToSync == Without(old(productionToSync), UidsOf(eligible))
        && outcome.result == LastCreateResult(createOutcomes, |eligible|)
        && refreshes == old(refreshes) + 2
      ensures outcome.Threw? ==>
        var c1 := FirstPass(old(productionCache), firstQuery);
        var eligible := EligibleEntries(c1, old(productionToSync));
        && 0 < |requests| <= |eligible|
        && requests == CreateRequests(eligible[..|requests|])
        && CreatesSucceed(createOutcomes, |requests| - 1)
        && CreateOutcomeAt(createOutcomes, |requests| - 1).CreateFailed?
        && productionCache == c1
        && productionToSync == old(productionToSync)
        && refreshes == old(refreshes) + 1
    {
      var existingProductions := MarkDbSynced(QueriedRecords(firstQuery));
      UpdateCache(existingProductions);
      var failed, issued, res, toDeleteCustomUIDs := IssueCreates(productionCache, productionToSync, createOutcomes);
      requests := issued;
      if failed {
        // the exception from createProduction leaves syncDb here
        outcome := Threw;
        return;
      }
      existingProductions := MarkDbSynced(QueriedRecords(secondQuery));
      UpdateCache(existingProductions);
      productionToSync := Without(productionToSync, toDeleteCustomUIDs);
      // oldCache and newCache are both the map returned by getCache()
      HasCacheChangedIrreflexive(productionCache.entries);
      outcome := Returned(if HasCacheChanged(productionCache.entries, productionCache.entries) then CacheChanged else res);
    }
  }
}
