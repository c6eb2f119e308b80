// The FIFO queue of receipts, as the storage struct {first, last, data} and the
// library functions that update it.
module ReceiptQueue {
  import opened Words
  import opened MessageCodec

  const MAXIMUM_RECEIPT_COUNT: nat := 5

  datatype Queue = Queue(first: nat, last: nat, data: map<nat, Receipt>)

  const EMPTY: Queue := Queue(0, 0, map[])

  // Exactly the slots from first up to last hold a receipt; all others are zero.
  ghost predicate Valid(q: Queue) {
    q.first <= q.last && forall i :: i in q.data <==> q.first <= i < q.last
  }

  // The FIFO sequence that a queue represents, oldest receipt first.
  ghost function Contents(q: Queue): (s: seq<Receipt>)
    requires Valid(q)
    ensures |s| == q.last - q.first
  {
    seq(q.last - q.first, i requires 0 <= i < q.last - q.first => q.data[q.first + i])
  }

  function Min(a: nat, b: nat): nat {
    if a < b then a else b
  }

  method Enqueue(queue: Queue, receipt: Receipt) returns (q: Queue)
    requires Valid(queue)
    ensures Valid(q) && Contents(q) == Contents(queue) + [receipt]
  {
    q := Queue(queue.first, queue.last + 1, queue.data[queue.last := receipt]);
  }

  // None is the revert on an empty queue.
  method Dequeue(queue: Queue) returns (r: Option<(Queue, Receipt)>)
    requires Valid(queue)
    ensures r.None? <==> Contents(queue) == []
    ensures r.Some? ==> Valid(r.value.0) && Contents(queue) == [r.value.1] + Contents(r.value.0)
  {
    if queue.last == queue.first {
      return None;
    }
    var result := queue.data[queue.first];
    var q := Queue(queue.first + 1, queue.last, queue.data - {queue.first});
    assert Contents(queue) == [result] + Contents(q);
    return Some((q, result));
  }

  method Size(queue: Queue) returns (size: nat)
    requires Valid(queue)
    ensures size == |Contents(queue)|
  {
    size := queue.last - queue.first;
  }

  method GetReceiptAtIndex(queue: Queue, index: nat) returns (r: Option<Receipt>)
    requires Valid(queue)
    ensures r == if index < |Contents(queue)| then Some(Contents(queue)[index]) else None
  {
    var size := Size(queue);
    if index >= size {
      return None;
    }
    return Some(queue.data[queue.first + index]);
  }

  // One batch: the oldest receipts, five at most, leave the queue in order.
  method GetOutstandingReceiptsToSend(queue: Queue) returns (q: Queue, result: seq<Receipt>)
    requires Valid(queue)
    ensures Valid(q) && |result| == Min(MAXIMUM_RECEIPT_COUNT, |Contents(queue)|)
    ensures Contents(queue) == result + Contents(q)
  {
    hide Contents, Valid;
    var size := Size(queue);
    var resultSize := Min(MAXIMUM_RECEIPT_COUNT, size);
    q, result := queue, [];
    for i := 0 to resultSize
      invariant Valid(q) && |result| == i
      invariant Contents(queue) == result + Contents(q)
    {
      var next := Dequeue(q);
      assert result + Contents(q) == (result + [next.value.1]) + Contents(next.value.0);
      q, result := next.value.0, result + [next.value.1];
    }
  }
}
