/**
 * The `OrderCache` object of objects/OrderCache.kt: a single FIFO queue of
 * customer orders. Once an order is popped it is gone from the service.
 */
module OrderCacheObject {
  import opened Wrappers
  import opened OrderModel

  class OrderCache {
    /** The orders waiting, oldest first. */
    var orderQueue: seq<Order>
    /** Every order ever appended, in arrival order. */
    ghost var accepted: seq<Order>
    /** Every order handed out by `getNext`, in the order they left. */
    ghost var popped: seq<Order>

    /** First in, first out: the orders leave in the order they arrived. */
    ghost predicate Valid()
      reads this
    {
      accepted == popped + orderQueue
    }

    constructor ()
      ensures Valid() && orderQueue == [] && accepted == [] && popped == []
    {
      orderQueue := [];
      accepted := [];
      popped := [];
    }

    /** `getNext()`: `removeFirstOrNull`, the oldest order or null when none waits. */
    method GetNext() returns (r: Option<Order>)
      requires Valid()
      modifies this
      ensures Valid() && accepted == old(accepted)
      ensures old(orderQueue) == [] ==> r == None && orderQueue == [] && popped == old(popped)
      ensures old(orderQueue) != [] ==>
        && r == Some(old(orderQueue)[0])
        && orderQueue == old(orderQueue)[1..]
        && popped == old(popped) + [r.value]
    {
      if orderQueue == [] {
        r := None;
      } else {
        r := Some(orderQueue[0]);
        popped := popped + [orderQueue[0]];
        orderQueue := orderQueue[1..];
      }
    }

    /** `addLast(order)`: `MutableList.add`, which appends and always answers true. */
    method AddLast(order: Order) returns (added: bool)
      requires Valid()
      modifies this
      ensures Valid() && popped == old(popped)
      ensures added
      ensures orderQueue == old(orderQueue) + [order]
      ensures accepted == old(accepted) + [order]
    {
      orderQueue := orderQueue + [order];
      accepted := accepted + [order];
      added := true;
    }
  }

  /**
   * Two orders appended to a fresh cache come back in arrival order, and
   * a third `getNext` finds the queue empty.
   */
  method ArrivalOrder(first: Order, second: Order) returns (a: Option<Order>, b: Option<Order>, c: Option<Order>)
    ensures a == Some(first) && b == Some(second) && c == None
  {
    var cache := new OrderCache();
    var ok := cache.AddLast(first);
    ok := cache.AddLast(second);
    a := cache.GetNext();
    b := cache.GetNext();
    c := cache.GetNext();
  }
}
