/**
 * The production handlers of routes/ProductionRoutes.kt that drive the
 * `ProductionCache` object: `/setNextProduction`, `/confirmProduction`,
 * `/popProductionQueue` and `/syncDb`. Request decoding, authentication
 * and the HTTP status codes are left to the framework; each handler takes
 * its decoded body and returns what it responds with.
 */
module ProductionRoutes {
  import opened Wrappers
  import opened ProductionModel
  import opened ProductionCacheLogic
  import opened ProductionCacheObject

  // ---------------------------------------------------------------------
  // Facts the handlers rely on
  // ---------------------------------------------------------------------

  /** A pending entry stays eligible through any merge: merges keep a record's id and flags. */
  lemma EligibleSurvivesMerge(c: LinkedCache, body: ProductionOrderBody, items: seq<ProductionPayload>)
    requires Eligible(c, body)
    ensures Eligible(MergeAll(c, items), body)
  {
    var l := c.ListOf(body.origin);
    var j :| 0 <= j < |l| && !l[j].dbSync && l[j].customUid == body.customUid;
    MergeAllKeepsRecord(c, items, body.origin, j);
  }

  /**
   * A record admitted by `/setNextProduction` (at the head of its
   * origin's list, with the flags it was admitted with) keeps
   * `db_sync = false` and `pos_sync = true` through any later merge, even
   * when the ERP query returns it marked as synced: the merge carries the
   * cached flags over.
   */
  lemma SubmittedRecordStaysUnsynced(c: LinkedCache, body: ProductionOrderBody, items: seq<ProductionPayload>)
    requires c.ListOf(body.origin) != []
    requires c.ListOf(body.origin)[0].customUid == body.customUid
    requires SyncFlags(c.ListOf(body.origin)[0]) == SyncFlags(CreateNewProductionItem(body).(posSync := true))
    ensures var l := MergeAll(c, items).ListOf(body.origin);
      && l != []
      && l[0].customUid == body.customUid
      && !l[0].dbSync && l[0].posSync && !l[0].kitchenSync
  {
    MergeAllKeepsRecord(c, items, body.origin, 0);
  }

  /** Overwriting a record by one with the same id keeps the object invariant. */
  lemma ReplaceKeepsStateValid(c: LinkedCache, queue: seq<string>, o: string, j: nat, r: ProductionPayload)
    requires StateValid(c, queue)
    requires j < |c.ListOf(o)| && r.customUid == c.ListOf(o)[j].customUid
    ensures StateValid(c.Put(o, c.ListOf(o)[j := r]), queue)
  {
    var l := c.ListOf(o);
    var l' := l[j := r];
    assert forall i :: 0 <= i < |l'| ==> l'[i].customUid == l[i].customUid;
  }

  /**
   * Merging a record back into the list it was taken from, at the first
   * index with its id and under its own origin, changes nothing: it
   * overwrites itself and carries its own flags.
   */
  lemma MergeOwnRecordIsNoop(c: LinkedCache, r: ProductionPayload, j: nat)
    requires c.Valid() && r.origin in c.entries
    requires j < |c.ListOf(r.origin)| && c.ListOf(r.origin)[j] == r
    requires forall i :: 0 <= i < j ==> c.ListOf(r.origin)[i].customUid != r.customUid
    ensures MergeAll(c, [r]) == c
  {
    var l := c.ListOf(r.origin);
    assert [r][..0] == [];
    assert FirstUidIndex(l, r.customUid) == j;
    assert WithFlagsOf(r, l[j]) == r;
    assert Upsert(l, r) == l;
    assert c.entries[r.origin := l] == c.entries;
  }

  // ---------------------------------------------------------------------
  // /setNextProduction
  // ---------------------------------------------------------------------

  /**
   * `/setNextProduction`: the submission joins the pending list, a new
   * record is built from it and admitted with `setNext`, and the record
   * (with `pos_sync` set) is sent back. A submission whose id is new to
   * its origin is left eligible for the next `syncDb`.
   */
  method SetNextProduction(pc: ProductionCache, body: ProductionOrderBody) returns (response: ProductionPayload)
    requires pc.Valid()
    modifies pc
    ensures pc.Valid()
    ensures response == CreateNewProductionItem(body).(posSync := true)
    ensures pc.productionToSync == old(pc.productionToSync) + [body]
    ensures HasUid(old(pc.productionCache.ListOf(body.origin)), body.customUid) ==>
      && pc.productionCache == old(pc.productionCache) && pc.productionQueue == old(pc.productionQueue)
      && pc.refreshes == old(pc.refreshes)
    ensures !HasUid(old(pc.productionCache.ListOf(body.origin)), body.customUid) ==>
      && pc.productionCache == old(pc.productionCache).Put(body.origin, [response] + old(pc.productionCache.ListOf(body.origin)))
      && pc.productionQueue == old(pc.productionQueue) + (if body.origin in old(pc.productionQueue) then [] else [body.origin])
      && pc.refreshes == old(pc.refreshes) + 1
      && Eligible(pc.productionCache, body)
  {
    pc.productionToSync := pc.productionToSync + [body];
    var item := CreateNewProductionItem(body);
    var queue;
    queue, response := pc.SetNext(body.origin, item);
    assert !HasUid(old(pc.productionCache.ListOf(body.origin)), body.customUid) ==>
      pc.productionCache.ListOf(body.origin)[0] == response;
  }

  // ---------------------------------------------------------------------
  // /confirmProduction
  // ---------------------------------------------------------------------

  datatype ConfirmResponse = Confirmed(item: ProductionPayload) | NotFound

  /** The cache once the record at `loc` has had its state overwritten in place. */
  function WithStateAt(c: LinkedCache, loc: Location, state: string): LinkedCache
    requires loc.index < |c.ListOf(loc.origin)|
  {
    var list := c.ListOf(loc.origin);
    c.Put(loc.origin, list[loc.index := list[loc.index].(state := state)])
  }

  /**
   * Confirming the record `getProductionItemFromCache` finds keeps the
   * invariant, and merging the confirmed record back leaves it at its
   * place with its id and flags; with records under their own origins the
   * merge adds nothing to the in-place write.
   */
  lemma ConfirmMerge(c: LinkedCache, queue: seq<string>, id: string, loc: Location)
    requires StateValid(c, queue)
    requires LocateIn(c.order, c, id) == Some(loc)
    ensures loc.index < |c.ListOf(loc.origin)|
    ensures
      var record := c.ListOf(loc.origin)[loc.index].(state := "progress");
      var written := WithStateAt(c, loc, "progress");
      var after := MergeAll(written, [record]);
      && StateValid(written, queue)
      && loc.index < |after.ListOf(loc.origin)|
      && after.ListOf(loc.origin)[loc.index].customUid == id
      && SyncFlags(after.ListOf(loc.origin)[loc.index]) == SyncFlags(c.ListOf(loc.origin)[loc.index])
      && (OriginsConsistent(c) ==> after == written)
  {
    var list := c.ListOf(loc.origin);
    var record := list[loc.index].(state := "progress");
    var written := WithStateAt(c, loc, "progress");
    ReplaceKeepsStateValid(c, queue, loc.origin, loc.index, record);
    MergeAllKeepsRecord(written, [record], loc.origin, loc.index);
    if OriginsConsistent(c) {
      assert loc.origin in c.entries;
      assert list[loc.index].origin == loc.origin;
      MergeOwnRecordIsNoop(written, record, loc.index);
    }
  }

  /**
   * `/confirmProduction`: `getProductionItemFromCache` finds the record for
   * the id. It is the record at `LocateIn`'s location, as
   * ProductionCache.GetProductionItemFromCache states. Its state becomes
   * "progress". The record is the cached object itself, so the new state
   * is written into the cache at once. The record is then merged back with
   * `updateCache` and sent back. An unknown id answers not found and
   * changes nothing. When each record is kept under its own origin, the
   * merge changes nothing more: the confirmation is exactly that one
   * record's new state.
   */
  method ConfirmProduction(pc: ProductionCache, id: string) returns (response: ConfirmResponse)
    requires pc.Valid()
    modifies pc
    ensures pc.Valid()
    ensures pc.productionQueue == old(pc.productionQueue) && pc.productionToSync == old(pc.productionToSync)
    ensures LocateIn(old(pc.productionCache.order), old(pc.productionCache), id).None? ==>
      && response == NotFound
      && pc.productionCache == old(pc.productionCache) && pc.refreshes == old(pc.refreshes)
    ensures LocateIn(old(pc.productionCache.order), old(pc.productionCache), id).Some? ==>
      var loc := LocateIn(old(pc.productionCache.order), old(pc.productionCache), id).value;
      var before := old(pc.productionCache).ListOf(loc.origin);
      var now := pc.productionCache.ListOf(loc.origin);
      && loc.index < |before|
      && response == Confirmed(before[loc.index].(state := "progress"))
      && pc.refreshes == old(pc.refreshes) + 1
      && loc.index < |now|
      && now[loc.index].customUid == id
      && SyncFlags(now[loc.index]) == SyncFlags(before[loc.index])
      && (OriginsConsistent(old(pc.productionCache)) ==>
            pc.productionCache == WithStateAt(old(pc.productionCache), loc, "progress"))
  {
    var c := pc.productionCache;
    var found := LocateIn(c.order, c, id);
    if found.None? {
      return NotFound;
    }
    var loc := found.value;
    ConfirmMerge(c, pc.productionQueue, id, loc);
    var record := c.ListOf(loc.origin)[loc.index].(state := "progress");
    // the found record is the cached object: its new state is visible in the cache at once
    pc.productionCache := WithStateAt(c, loc, "progress");
    pc.UpdateCache([record]);
    response := Confirmed(record);
  }

  // ---------------------------------------------------------------------
  // /popProductionQueue
  // ---------------------------------------------------------------------

  /** What `/popProductionQueue` answers: an empty JSON list, or the popped origin's records. */
  datatype PopResponse = EmptyList | Records(items: seq<ProductionPayload>)

  /**
   * `/popProductionQueue`: pops the oldest queued origin and answers with
   * its cached records; the cache keeps them. An empty queue answers `[]`.
   */
  method PopProductionQueue(pc: ProductionCache) returns (response: PopResponse)
    requires pc.Valid()
    modifies pc
    ensures pc.Valid()
    ensures old(pc.productionQueue) == [] ==> response == EmptyList && pc.productionQueue == []
    ensures old(pc.productionQueue) != [] ==>
      && old(pc.productionQueue)[0] in pc.productionCache.entries
      && response == Records(pc.productionCache.entries[old(pc.productionQueue)[0]])
      && pc.productionQueue == old(pc.productionQueue)[1..]
    ensures pc.productionCache == old(pc.productionCache) && pc.productionToSync == old(pc.productionToSync)
    ensures pc.refreshes == old(pc.refreshes)
  {
    var body := pc.GetNext();
    if body.None? {
      response := EmptyList;
    } else {
      response := Records(body.value);
    }
  }

  // ---------------------------------------------------------------------
  // /syncDb
  // ---------------------------------------------------------------------

  /** The text `/syncDb` answers: `"$res"` of the pass's result, or `false` when it threw. */
  function SyncResponseText(outcome: SyncOutcome): (text: string)
    ensures outcome.Threw? ==> text == "false"
    ensures outcome.Returned? && outcome.result == Null ==> text == "null"
    ensures outcome.Returned? && outcome.result == CacheChanged ==> text == "true"
    ensures outcome.Returned? && outcome.result.LastCreate? ==> text == outcome.result.value
  {
    match outcome
    case Threw => "false"
    case Returned(CacheChanged) => "true"
    case Returned(LastCreate(v)) => v
    case Returned(Null) => "null"
  }

  /**
   * The state a pass leaves when a create threw: only the first query has
   * been merged (one refresh) and the pending list is as it was.
   */
  ghost predicate PassThrewState(cache: LinkedCache, pending: seq<ProductionOrderBody>, refreshes: nat, firstQuery: QueryOutcome,
                                 cache': LinkedCache, pending': seq<ProductionOrderBody>, refreshes': nat)
  {
    && cache' == FirstPass(cache, firstQuery)
    && pending' == pending
    && refreshes' == refreshes + 1
  }

  /**
   * The state a completed pass leaves: both queries merged (two
   * refreshes) and every pushed entry's id removed from the pending list.
   */
  ghost predicate PassCompletedState(cache: LinkedCache, pending: seq<ProductionOrderBody>, refreshes: nat,
                                     firstQuery: QueryOutcome, secondQuery: QueryOutcome,
                                     cache': LinkedCache, pending': seq<ProductionOrderBody>, refreshes': nat)
  {
    var c1 := FirstPass(cache, firstQuery);
    && cache' == MergeAll(c1, MarkDbSynced(QueriedRecords(secondQuery)))
    && pending' == Without(pending, UidsOf(EligibleEntries(c1, pending)))
    && refreshes' == refreshes + 2
  }

  /**
   * `/syncDb`: runs one pass (an exception reads as `false`) and answers
   * with the result's text. The change check compares the cache with
   * itself, so the answer is never the pass's `true`: it is the last
   * create result, `null` when nothing was pushed, or `false`.
   */
  method SyncDbRoute(pc: ProductionCache, firstQuery: QueryOutcome, secondQuery: QueryOutcome, createOutcomes: seq<CreateOutcome>)
    returns (response: string, requests: seq<CreateRequest>)
    requires pc.Valid()
    modifies pc
    ensures pc.Valid()
    ensures
      var eligible := EligibleEntries(FirstPass(old(pc.productionCache), firstQuery), old(pc.productionToSync));
      && (!CreatesSucceed(createOutcomes, |eligible|) ==>
            && response == "false"
            && 0 < |requests| <= |eligible|
            && requests == CreateRequests(eligible[..|requests|])
            && CreatesSucceed(createOutcomes, |requests| - 1)
            && CreateOutcomeAt(createOutcomes, |requests| - 1).CreateFailed?
            && PassThrewState(old(pc.productionCache), old(pc.productionToSync), old(pc.refreshes), firstQuery,
                 pc.productionCache, pc.productionToSync, pc.refreshes))
      && (CreatesSucceed(createOutcomes, |eligible|) ==>
            && requests == CreateRequests(eligible)
            && response == SyncResponseText(Returned(LastCreateResult(createOutcomes, |eligible|)))
            && PassCompletedState(old(pc.productionCache), old(pc.productionToSync), old(pc.refreshes), firstQuery, secondQuery,
                 pc.productionCache, pc.productionToSync, pc.refreshes))
    ensures pc.productionQueue == old(pc.productionQueue)
  {
    var outcome;
    outcome, requests := pc.SyncDb(firstQuery, secondQuery, createOutcomes);
    response := SyncResponseText(outcome);
  }

  // ---------------------------------------------------------------------
  // The periodic sync (plugins/TaskScheduler.kt)
  // ---------------------------------------------------------------------

  /**
   * One tick of the scheduled sync: a pass runs and the clients are told
   * to refresh exactly when it returned something other than null. An
   * exception is not caught there; it ends the scheduler, reported here
   * as no notification and `stops`.
   */
  method ScheduledSyncTick(pc: ProductionCache, firstQuery: QueryOutcome, secondQuery: QueryOutcome, createOutcomes: seq<CreateOutcome>)
    returns (notify: bool, stops: bool)
    requires pc.Valid()
    modifies pc
    ensures pc.Valid()
    ensures
      var eligible := EligibleEntries(FirstPass(old(pc.productionCache), firstQuery), old(pc.productionToSync));
      && (stops <==> !CreatesSucceed(createOutcomes, |eligible|))
      && (notify <==> !stops && 0 < |eligible| && CreateOutcomeAt(createOutcomes, |eligible| - 1).CreateReturned?)
      && (stops ==>
            PassThrewState(old(pc.productionCache), old(pc.productionToSync), old(pc.refreshes), firstQuery,
              pc.productionCache, pc.productionToSync, pc.refreshes))
      && (!stops ==>
            PassCompletedState(old(pc.productionCache), old(pc.productionToSync), old(pc.refreshes), firstQuery, secondQuery,
              pc.productionCache, pc.productionToSync, pc.refreshes))
    ensures pc.productionQueue == old(pc.productionQueue)
  {
    var outcome, requests := pc.SyncDb(firstQuery, secondQuery, createOutcomes);
    stops := outcome.Threw?;
    notify := outcome.Returned? && outcome.result != Null;
  }
}
