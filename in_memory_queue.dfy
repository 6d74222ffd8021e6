/** The volatile queue backend: a FIFO over a buffered channel of payloads,
    bounded by a number of items, that keeps a running count of the payload
    bytes it holds. */
module InMemoryQueue {
  import opened Records

  class ConcurrentQueue {
    /** The channel's buffer, head first. */
    var queue: seq<Record>
    /** Payload bytes currently held. */
    var size: int
    /** Items currently held. */
    var length: int
    /** The channel's capacity, in items. */
    const maxLength: int
    /** Whether the channel has been closed. */
    var closed: bool

    /** `size` is the byte count of the buffered items, `length` their number,
        and the number never exceeds the channel's capacity. */
    ghost predicate Valid()
      reads this
    {
      size == SumLengths(queue) && length == |queue| && 0 <= length <= maxLength
    }

    /** NewConcurrentQueue. Go's `make` panics on a negative capacity. */
    constructor (maxLength: int)
      requires 0 <= maxLength
      ensures Valid() && !closed
      ensures queue == [] && size == 0 && length == 0 && this.maxLength == maxLength
    {
      queue := [];
      size := 0;
      length := 0;
      this.maxLength := maxLength;
      closed := false;
    }

    /** isEmpty decides on the byte count, so a queue that holds only empty
        payloads reports itself empty. */
    method IsEmpty() returns (empty: bool)
      requires Valid()
      ensures empty <==> forall i :: 0 <= i < |queue| ==> |queue[i]| == 0
    {
      SumLengthsZero(queue);
      empty := size == 0;
    }

    /** Length reports bytes, not items. */
    method Length() returns (n: nat)
      requires Valid()
      ensures n == SumLengths(queue)
    {
      n := size;
    }

    /** IsFull: capacity is counted in items. */
    method IsFull() returns (full: bool)
      requires Valid()
      ensures full <==> |queue| == maxLength
    {
      full := maxLength - length == 0;
    }

    /** Enqueue appends at the tail unless the queue is full, in which case the
        payload is dropped and neither an item nor an error is returned. The
        send on the channel panics once the channel is closed, so a caller
        must not enqueue into a closed queue that has room. */
    method Enqueue(data: Record) returns (item: Option<Item>, err: Option<QueueError>)
      requires Valid()
      requires !closed || length == maxLength
      modifies this
      ensures Valid() && closed == old(closed)
      ensures err == None
      ensures old(length) < maxLength ==>
        queue == old(queue) + [data] && size == old(size) + |data| &&
        length == old(length) + 1 && item == Some(Item(data))
      ensures old(length) == maxLength ==>
        queue == old(queue) && size == old(size) && length == old(length) && item == None
    {
      var full := IsFull();
      if !full {
        item := Some(Item(data));
        SumLengthsAppend(queue, [data]);
        queue := queue + [data];
        size := size + |data|;
        length := length + 1;
        err := None;
        return;
      }
      item, err := None, None;
    }

    /** Dequeue fails at once with ErrEmpty when no payload bytes are held,
        even if zero-length items are buffered; otherwise it removes the
        head. Receiving from a closed channel still yields the buffered items. */
    method Dequeue() returns (item: Option<Item>, err: Option<QueueError>)
      requires Valid()
      modifies this
      ensures Valid() && closed == old(closed)
      ensures old(size) == 0 ==>
        item == None && err == Some(ErrEmpty) &&
        queue == old(queue) && size == old(size) && length == old(length)
      ensures old(size) != 0 ==>
        old(queue) != [] && item == Some(Item(old(queue)[0])) && err == None &&
        queue == old(queue)[1..] && size == old(size) - |old(queue)[0]| &&
        length == old(length) - 1
    {
      var empty := IsEmpty();
      SumLengthsZero(queue);
      if empty {
        return None, Some(ErrEmpty);
      }
      var data := queue[0];
      queue := queue[1..];
      size := size - |data|;
      length := length - 1;
      item, err := Some(Item(data)), None;
    }

    /** Close only closes the channel. Its drain loop tests a variable that is
        nil from the start, so it never dequeues and the buffered items stay.
        Closing a closed channel panics. */
    method Close()
      requires Valid() && !closed
      modifies this
      ensures Valid() && closed
      ensures queue == old(queue) && size == old(size) && length == old(length)
    {
      closed := true;
    }
  }

  const DefaultQueueCapacity := 1000000

  /** Two 1000-byte payloads hold 2000 bytes; after one dequeue, 1000. */
  method CalculateSizeScenario() returns (before: nat, after: nat)
    ensures before == 2000 && after == 1000
  {
    var q := new ConcurrentQueue(DefaultQueueCapacity);
    var _, _ := q.Enqueue(Zeros(1000));
    var _, _ := q.Enqueue(Zeros(1000));
    before := q.Length();
    var _, _ := q.Dequeue();
    after := q.Length();
  }

  /** Dequeue on a new queue fails; after one enqueue it succeeds. */
  method EmptyQueueScenario() returns (first: Option<QueueError>, second: Option<QueueError>)
    ensures first == Some(ErrEmpty) && second == None
  {
    var q := new ConcurrentQueue(DefaultQueueCapacity);
    var item;
    item, first := q.Dequeue();
    var _, _ := q.Enqueue(Zeros(1000));
    item, second := q.Dequeue();
  }

  /** With room for one item the second enqueue is dropped, so the second
      dequeue finds nothing. */
  method FullQueueScenario() returns (dropped: Option<Item>, second: Option<Item>)
    ensures dropped == None && second == None
  {
    var q := new ConcurrentQueue(1);
    var message := Zeros(1000);
    var _, _ := q.Enqueue(message);
    var err;
    dropped, err := q.Enqueue(message);
    var _, _ := q.Dequeue();
    second, err := q.Dequeue();
  }

  /** Payloads of 12, 10, 10, 10 and 10 bytes; dequeuing once removes the
      12-byte head, leaving 40 bytes. */
  method FifoScenario() returns (head: Option<Item>, remaining: nat)
    ensures head == Some(Item(Zeros(12))) && remaining == 40
  {
    var q := new ConcurrentQueue(DefaultQueueCapacity);
    var _, _ := q.Enqueue(Zeros(12));
    var _, _ := q.Enqueue(Zeros(10));
    var _, _ := q.Enqueue(Zeros(10));
    var _, _ := q.Enqueue(Zeros(10));
    var _, _ := q.Enqueue(Zeros(10));
    var err;
    head, err := q.Dequeue();
    remaining := q.Length();
  }

  /** A queue holding only an empty payload reports itself empty and refuses
      to dequeue it, while it still occupies one of the item slots. */
  method ZeroLengthScenario() returns (err: Option<QueueError>, full: bool)
    ensures err == Some(ErrEmpty) && full
  {
    var q := new ConcurrentQueue(1);
    var _, _ := q.Enqueue([]);
    var item;
    item, err := q.Dequeue();
    full := q.IsFull();
  }
}
