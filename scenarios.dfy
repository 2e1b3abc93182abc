/**
 * End-to-end scenarios, proved for all submissions of the given shape: a
 * submission followed by a sync pass, two submissions popped in order,
 * and a broadcast with one failing session.
 */
module Scenarios {
  import opened Wrappers
  import opened ProductionModel
  import opened ProductionCacheLogic
  import opened ProductionCacheObject
  import opened ProductionRoutes
  import opened WebSocketClientsObject

  /**
   * A submission, then a sync pass whose two ERP queries both return the
   * submitted record (marked synced) and whose one create succeeds: the
   * create is issued, the pending list empties, and the cached record
   * still reads `db_sync = false`, because the merge keeps the flags the
   * cache already had.
   */
  method SubmitThenSync(body: ProductionOrderBody, erpRecord: ProductionPayload, created: string)
    returns (queue: seq<string>, pending: seq<ProductionOrderBody>, record: ProductionPayload, response: string)
    requires erpRecord.origin == body.origin && erpRecord.customUid == body.customUid
    ensures queue == [body.origin]
    ensures pending == []
    ensures record.customUid == body.customUid && !record.dbSync && record.posSync
    ensures response == created
  {
    var pc := new ProductionCache();
    var item := SetNextProduction(pc, body);
    queue := pc.productionQueue;
    response := SyncSubmission(pc, body, erpRecord, created);
    pending := pc.productionToSync;
    record := pc.productionCache.ListOf(body.origin)[0];
  }

  /** The sync pass of SubmitThenSync, on the state the submission left. */
  method SyncSubmission(pc: ProductionCache, body: ProductionOrderBody, erpRecord: ProductionPayload, created: string)
    returns (response: string)
    requires pc.Valid()
    requires pc.productionToSync == [body]
    requires pc.productionCache.ListOf(body.origin) == [CreateNewProductionItem(body).(posSync := true)]
    modifies pc
    ensures pc.productionQueue == old(pc.productionQueue)
    ensures pc.productionToSync == []
    ensures response == created
    ensures var l := pc.productionCache.ListOf(body.origin);
      l != [] && l[0].customUid == body.customUid && !l[0].dbSync && l[0].posSync
  {
    SubmissionIsPushed(pc.productionCache, body, erpRecord, created);
    var requests;
    response, requests := SyncDbRoute(pc, QueryReturned([erpRecord]), QueryReturned([erpRecord]), [CreateReturned(created)]);
  }

  /**
   * After a submission to an empty cache, a pass whose queries both return
   * the submitted record and whose one create answers `created`: exactly
   * that submission is pushed, the pass completes with `created`,
   * `removeAll` empties the pending list, and the cached record is still
   * not db-synced after both merges.
   */
  lemma SubmissionIsPushed(c0: LinkedCache, body: ProductionOrderBody, erpRecord: ProductionPayload, created: string)
    requires c0.ListOf(body.origin) == [CreateNewProductionItem(body).(posSync := true)]
    ensures var c1 := FirstPass(c0, QueryReturned([erpRecord]));
      var c2 := MergeAll(c1, MarkDbSynced(QueriedRecords(QueryReturned([erpRecord]))));
      && EligibleEntries(c1, [body]) == [body]
      && CreatesSucceed([CreateReturned(created)], |[body]|)
      && SyncResponseText(Returned(LastCreateResult([CreateReturned(created)], |[body]|))) == created
      && Without([body], UidsOf([body])) == []
      && c2.ListOf(body.origin) != []
      && c2.ListOf(body.origin)[0].customUid == body.customUid
      && !c2.ListOf(body.origin)[0].dbSync && c2.ListOf(body.origin)[0].posSync
  {
    var c1 := FirstPass(c0, QueryReturned([erpRecord]));
    SubmittedRecordStaysUnsynced(c0, body, MarkDbSynced([erpRecord]));
    MergeAllKeepsRecord(c0, MarkDbSynced([erpRecord]), body.origin, 0);
    assert Eligible(c1, body) by {
      assert !c1.ListOf(body.origin)[0].dbSync;
    }
    assert [body][..0] == [];
    EligibleEntriesStep(c1, [body], 0);
    assert [body][..1] == [body];
    SubmittedRecordStaysUnsynced(c1, body, MarkDbSynced([erpRecord]));
    assert UidsOf([body]) == {body.customUid};
  }

  /**
   * Submissions to two different origins queue them in submission order;
   * one pop answers with the first origin's records and leaves the second
   * queued, and the first origin's records stay in the cache.
   */
  method TwoOriginsPopInOrder(first: ProductionOrderBody, second: ProductionOrderBody)
    returns (popped: PopResponse, queue: seq<string>, kept: seq<ProductionPayload>)
    requires first.origin != second.origin
    ensures popped == Records([CreateNewProductionItem(first).(posSync := true)])
    ensures queue == [second.origin]
    ensures kept == [CreateNewProductionItem(first).(posSync := true)]
  {
    var pc := new ProductionCache();
    assert pc.productionCache.ListOf(first.origin) == [];
    var a := SetNextProduction(pc, first);
    ghost var c1 := pc.productionCache;
    assert pc.productionQueue == [first.origin];
    assert c1.ListOf(first.origin) == [a];
    assert c1.ListOf(second.origin) == [];
    var b := SetNextProduction(pc, second);
    assert pc.productionCache.ListOf(first.origin) == c1.ListOf(first.origin);
    assert pc.productionQueue == [first.origin, second.origin];
    popped := PopProductionQueue(pc);
    queue := pc.productionQueue;
    kept := pc.productionCache.ListOf(first.origin);
  }

  /**
   * A broadcast to three sessions of which the second fails: all three
   * are attempted, the other two are delivered, and the hub still holds
   * all three sessions afterwards.
   */
  method BroadcastWithOneFailure() returns (attempts: seq<SendAttempt>, stillConnected: seq<Session>)
    ensures |attempts| == 3
    ensures attempts[0].delivered && !attempts[1].delivered && attempts[2].delivered
    ensures forall i :: 0 <= i < 3 ==> attempts[i].text == "refresh"
    ensures stillConnected == [Session(1), Session(2), Session(3)]
  {
    var hub := new WebSocketClients();
    hub.Connect(Session(1));
    hub.Connect(Session(2));
    hub.Connect(Session(3));
    attempts := hub.NotifyClients(hub.clients, "refresh", None, {Session(2)});
    stillConnected := hub.clients;
  }
}
