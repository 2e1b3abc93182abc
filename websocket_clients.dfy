/**
 * The `WebSocketClients` object of objects/WebSocketClientsCache.kt: the
 * set of open `/updates` sessions and the broadcast `notifyClients`.
 *
 * The set is a synchronized `LinkedHashSet`, so it iterates in the order
 * sessions joined; it is modelled as a sequence without repetitions. The
 * transport is a parameter: `failing` holds the sessions whose `send`
 * throws, which the broadcast catches and reports before going on.
 */
module WebSocketClientsObject {
  import opened Wrappers
  import opened Sequences

  /** An open websocket session, known by identity only. */
  datatype Session = Session(id: nat)

  /** One `session.send(Frame.Text(text))` and whether it went through. */
  datatype SendAttempt = SendAttempt(session: Session, text: string, delivered: bool)

  /** The one message a broadcast ever sends. */
  const RefreshMessage := "refresh"

  /** `s - session` on a linked set: the other sessions, in their order. */
  function Remove(s: seq<Session>, session: Session): (r: seq<Session>)
    ensures forall x :: x in r <==> x in s && x != session
    ensures NoDuplicates(s) ==> NoDuplicates(r)
  {
    if s == [] then []
    else
      var rest := Remove(s[1..], session);
      assert forall x :: x in s <==> x == s[0] || x in s[1..];
      assert NoDuplicates(s) ==> NoDuplicates(s[1..]) && s[0] !in s[1..] by {
        if NoDuplicates(s) {
          forall i, j | 0 <= i < j < |s[1..]| ensures s[1..][i] != s[1..][j] {
            assert s[1..][i] == s[i + 1] && s[1..][j] == s[j + 1];
          }
          forall j | 0 <= j < |s[1..]| ensures s[1..][j] != s[0] {
            assert s[1..][j] == s[j + 1];
          }
        }
      }
      if s[0] == session then rest else [s[0]] + rest
  }

  /**
   * Removal keeps the order of the remaining sessions: it distributes over
   * concatenation, so the survivors on either side of the removed session
   * stay where they were relative to each other.
   */
  lemma {:induction false} RemoveAppend(a: seq<Session>, b: seq<Session>, session: Session)
    ensures Remove(a + b, session) == Remove(a, session) + Remove(b, session)
    decreases |a|
  {
    if a == [] {
      assert a + b == b;
    } else {
      assert (a + b)[0] == a[0];
      assert (a + b)[1..] == a[1..] + b;
      RemoveAppend(a[1..], b, session);
    }
  }

  class WebSocketClients {
    /** The open sessions, in the order they joined. */
    var clients: seq<Session>

    ghost predicate Valid()
      reads this
    {
      NoDuplicates(clients)
    }

    constructor ()
      ensures Valid() && clients == []
    {
      clients := [];
    }

    /** A session opens `/updates`: `clients += this` (no effect when it is already there). */
    method Connect(session: Session)
      requires Valid()
      modifies this
      ensures Valid()
      ensures clients == if session in old(clients) then old(clients) else old(clients) + [session]
    {
      if session !in clients {
        clients := clients + [session];
      }
    }

    /** The session's incoming channel ends: `clients -= this`. */
    method Disconnect(session: Session)
      requires Valid()
      modifies this
      ensures Valid()
      ensures clients == Remove(old(clients), session)
    {
      clients := Remove(clients, session);
    }

    /**
     * `notifyClients(clients, type, data)`: every session in the given set,
     * in its order, is sent the text "refresh"; `type` and `data` are not
     * used. A send that throws is caught and the loop goes on, so every
     * session gets exactly one attempt whatever the others do. The
     * object's own set of sessions is not touched.
     */
    method NotifyClients(recipients: seq<Session>, eventType: string, data: Option<string>, failing: set<Session>)
      returns (attempts: seq<SendAttempt>)
      ensures |attempts| == |recipients|
      ensures forall i :: 0 <= i < |attempts| ==>
        attempts[i] == SendAttempt(recipients[i], RefreshMessage, recipients[i] !in failing)
      ensures forall s :: s in recipients ==> exists i :: 0 <= i < |attempts| && attempts[i].session == s
      ensures forall i :: 0 <= i < |attempts| && attempts[i].delivered ==> attempts[i].session !in failing
    {
      var message := RefreshMessage;
      attempts := [];
      for k := 0 to |recipients|
        invariant |attempts| == k
        invariant forall i :: 0 <= i < k ==> attempts[i] == SendAttempt(recipients[i], message, recipients[i] !in failing)
      {
        var session := recipients[k];
        // a throwing send is caught (and printed); the broadcast continues
        var delivered := session !in failing;
        attempts := attempts + [SendAttempt(session, message, delivered)];
      }
    }
  }
}
