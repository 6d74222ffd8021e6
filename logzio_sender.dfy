/** The sender: records go into a persistent FIFO, and a drain cycle takes
    them out again into one newline-delimited batch, hands the batch buffer to
    the HTTP transport and, unless the collector answers 200, queues again, as
    a single record, whatever the transport left unread in that buffer. */
module Logzio {
  import opened Records

  /** Upper bound on the payload bytes of one batch (3 MiB). */
  const MaxSize: nat := 3 * 1024 * 1024
  const DefaultHost: string := "https://listener.logz.io:8071"
  /** The delimiter written after every payload of a batch. */
  const NewLine: byte := 10
  const StatusOK: int := 200
  /** What joins the collector's address and the account token. */
  const TokenQuery: string := "/?token="

  /** The address a sender posts to: the collector's address with the token
      as the value of the `token` query parameter. */
  function Url(base: string, token: string): (u: string)
    ensures |u| == |base| + |TokenQuery| + |token|
    ensures u[..|base|] == base
    ensures u[|base|..|base| + |TokenQuery|] == TokenQuery
    ensures u[|base| + |TokenQuery|..] == token
  {
    base + TokenQuery + token
  }

  /** What the transport did with a post: it failed after reading the first
      `read` bytes of the body (none when no connection could be made), or the
      collector answered with a status code, by which time the whole body had
      been read. */
  datatype PostOutcome = TransportError(read: nat) | Status(code: int)

  /** Only a 200 answer counts as delivery. */
  function Delivered(outcome: PostOutcome): (d: bool)
    ensures d <==> outcome == Status(StatusOK)
  {
    outcome.Status? && outcome.code == StatusOK
  }

  /** What a post leaves in the buffer it was handed: the transport reads the
      buffer from the front, so the rest is a suffix of the body, and nothing
      is left once the collector has answered. */
  function Unread(body: seq<byte>, outcome: PostOutcome): (rest: seq<byte>)
    ensures |rest| <= |body| && rest == body[|body| - |rest|..]
    ensures outcome.Status? ==> rest == []
    ensures outcome == TransportError(0) ==> rest == body
  {
    match outcome
    case Status(_) => []
    case TransportError(read) => if read < |body| then body[read..] else []
  }

  // ---------------------------------------------------------------------------
  // The drain cycle as functions of the queue it starts from

  /** The bytes a batch holds for the given records: each payload followed by
      a newline, so one byte more per record than the payloads hold. */
  function Frame(records: seq<Record>): (r: seq<byte>)
    ensures |r| == SumLengths(records) + |records|
  {
    if records == [] then [] else records[0] + [NewLine] + Frame(records[1..])
  }

  /** How many records, from the head of `q`, a cycle that has already
      collected `bufSize` payload bytes takes into its batch: it stops at the
      end of the queue or at the first record whose payload and newline would
      take it past MaxSize. */
  function Accepted(q: seq<Record>, bufSize: nat): (n: nat)
    ensures n <= |q|
  {
    if q == [] || |q[0]| + bufSize + 1 > MaxSize then 0
    else 1 + Accepted(q[1..], bufSize + |q[0]|)
  }

  /** The outcome of one cycle's collecting loop. */
  datatype Cycle = Cycle(batch: seq<byte>, bufSize: nat, consumed: nat)

  /** The collecting loop of a drain cycle that starts from queue contents `q`:
      it takes the accepted records into the batch, and when it stopped at a
      record that does not fit, that record is consumed as well and is not
      part of the batch. A closed queue yields nothing; an open, non-empty one
      always loses at least its head. */
  function Harvest(q: seq<Record>, open: bool): (c: Cycle)
    ensures c.consumed <= |q|
    ensures open && q != [] ==> c.consumed > 0
  {
    if !open then Cycle([], 0, 0)
    else
      var n := Accepted(q, 0);
      Cycle(Frame(q[..n]), SumLengths(q[..n]), if n < |q| then n + 1 else n)
  }

  /** What a cycle offers to the transport: the batch, when it holds at least
      one payload byte. Nothing is offered exactly when the queue is closed or
      every accepted record is empty. */
  function Offered(q: seq<Record>, open: bool): (r: Option<seq<byte>>)
    ensures r.None? <==> !open || forall j :: 0 <= j < Accepted(q, 0) ==> |q[j]| == 0
    ensures r.Some? ==> r.value == Frame(q[..Accepted(q, 0)])
  {
    var c := Harvest(q, open);
    var n := Accepted(q, 0);
    SumLengthsZero(q[..n]);
    assert forall j :: 0 <= j < n ==> q[..n][j] == q[j];
    if c.bufSize > 0 then Some(c.batch) else None
  }

  /** The queue after a cycle as the sender is written: what the loop did not
      consume, followed, when something was offered and not delivered, by the
      part of the batch the transport left unread. The records the loop did
      not consume stay at the head, in order. */
  function AfterDrain(q: seq<Record>, open: bool, outcome: PostOutcome): (a: seq<Record>)
    ensures var c := Harvest(q, open);
      |q| - c.consumed <= |a| <= |q| - c.consumed + 1 && a[..|q| - c.consumed] == q[c.consumed..]
  {
    var c := Harvest(q, open);
    q[c.consumed..] + (if c.bufSize > 0 && !Delivered(outcome) then [Unread(c.batch, outcome)] else [])
  }

  /** The queue after a cycle that keeps its own copy of the batch and requeues
      that copy when the post is not delivered. The records the loop did not
      consume stay at the head, in order. */
  function AfterRetainingDrain(q: seq<Record>, open: bool, outcome: PostOutcome): (a: seq<Record>)
    ensures var c := Harvest(q, open);
      |q| - c.consumed <= |a| <= |q| - c.consumed + 1 && a[..|q| - c.consumed] == q[c.consumed..]
  {
    var c := Harvest(q, open);
    q[c.consumed..] + (if c.bufSize > 0 && !Delivered(outcome) then [c.batch] else [])
  }

  // ---------------------------------------------------------------------------
  // Properties of the drain cycle

  lemma {:induction false} FrameAppend(a: seq<Record>, b: seq<Record>)
    ensures Frame(a + b) == Frame(a) + Frame(b)
  {
    if a == [] {
      assert a + b == b;
    } else {
      assert (a + b)[1..] == a[1..] + b;
      FrameAppend(a[1..], b);
    }
  }

  /** The accepted records are exactly those before the first overflow: every
      one of them fits on top of the bytes collected before it, and the record
      after them, if any, does not. */
  lemma {:induction false} AcceptedIsFirstOverflow(q: seq<Record>, bufSize: nat)
    ensures forall j :: 0 <= j < Accepted(q, bufSize) ==>
      bufSize + SumLengths(q[..j]) + |q[j]| + 1 <= MaxSize
    ensures Accepted(q, bufSize) < |q| ==>
      bufSize + SumLengths(q[..Accepted(q, bufSize)]) + |q[Accepted(q, bufSize)]| + 1 > MaxSize
  {
    var n := Accepted(q, bufSize);
    if q == [] || |q[0]| + bufSize + 1 > MaxSize {
      assert q[..0] == [];
    } else {
      var rest, b := q[1..], bufSize + |q[0]|;
      AcceptedIsFirstOverflow(rest, b);
      forall j | 0 <= j <= n && j <= |rest|
        ensures SumLengths(q[..j]) == (if j == 0 then 0 else |q[0]| + SumLengths(rest[..j - 1]))
      {
        if j > 0 {
          assert q[..j][1..] == rest[..j - 1];
        }
      }
      forall j | 0 <= j < n
        ensures bufSize + SumLengths(q[..j]) + |q[j]| + 1 <= MaxSize
      {
        if j > 0 {
          assert q[j] == rest[j - 1];
        }
      }
    }
  }

  /** The converse: a count with the first-overflow property is the accepted
      count, so the property determines it. */
  lemma AcceptedUnique(q: seq<Record>, bufSize: nat, n: nat)
    requires n <= |q|
    requires forall j :: 0 <= j < n ==> bufSize + SumLengths(q[..j]) + |q[j]| + 1 <= MaxSize
    requires n < |q| ==> bufSize + SumLengths(q[..n]) + |q[n]| + 1 > MaxSize
    ensures n == Accepted(q, bufSize)
  {
    AcceptedIsFirstOverflow(q, bufSize);
  }

  /** A queue whose payloads and newlines fit into one batch is taken whole. */
  lemma {:induction false} AcceptedAll(q: seq<Record>, bufSize: nat)
    requires bufSize + SumLengths(q) + |q| <= MaxSize
    ensures Accepted(q, bufSize) == |q|
  {
    if q != [] {
      AcceptedAll(q[1..], bufSize + |q[0]|);
    }
  }

  /** The collected payload bytes stay below MaxSize, so the loop's
      `bufSize < maxSize` test never ends it; a cycle consumes its accepted
      records and at most one more, which is the first record that does not
      fit; the batch is the accepted payloads, each with its newline. */
  lemma HarvestShape(q: seq<Record>)
    ensures var c := Harvest(q, true); var n := Accepted(q, 0);
      c.bufSize < MaxSize &&
      |c.batch| == c.bufSize + n &&
      c.batch == Frame(q[..n]) && c.bufSize == SumLengths(q[..n]) &&
      (c.consumed == n <==> n == |q|) &&
      (c.consumed == n + 1 <==> n < |q|) &&
      (n < |q| ==> SumLengths(q[..n]) + |q[n]| + 1 > MaxSize)
  {
    var n := Accepted(q, 0);
    AcceptedIsFirstOverflow(q, 0);
    if n > 0 {
      assert q[..n] == q[..n - 1] + [q[n - 1]];
      SumLengthsAppend(q[..n - 1], [q[n - 1]]);
    }
  }

  /** A queue that fits into one batch is drained completely: every record is
      consumed, and what comes back is at most the unread part of its frame. */
  lemma SmallQueueDrainsWhole(q: seq<Record>, outcome: PostOutcome)
    requires SumLengths(q) + |q| <= MaxSize
    ensures Harvest(q, true) == Cycle(Frame(q), SumLengths(q), |q|)
    ensures AfterDrain(q, true, outcome) ==
      if SumLengths(q) > 0 && !Delivered(outcome) then [Unread(Frame(q), outcome)] else []
  {
    AcceptedAll(q, 0);
    assert q[..|q|] == q;
    var c := Harvest(q, true);
    assert c == Cycle(Frame(q), SumLengths(q), |q|);
    assert q[c.consumed..] == [];
  }

  /** A record too large for any batch, at the head of the queue, is consumed
      and dropped, and nothing is offered. */
  lemma OversizedHeadDropped(q: seq<Record>, outcome: PostOutcome)
    requires q != [] && |q[0]| >= MaxSize
    ensures Harvest(q, true) == Cycle([], 0, 1)
    ensures Offered(q, true) == None
    ensures AfterDrain(q, true, outcome) == q[1..]
  {
  }

  /** The record the loop stops at need not be too large for a batch of its
      own: it is dropped when it does not fit behind the records already
      collected, in the corrected cycle as well. Two records of 2 MiB each: the
      first is taken, the second consumed, and only the first comes back. */
  lemma FittingRecordDroppedBehindBatch()
    ensures var q := [Zeros(2 * 1024 * 1024), Zeros(2 * 1024 * 1024)];
      |q[1]| + 1 <= MaxSize &&
      Accepted(q, 0) == 1 && Harvest(q, true).consumed == 2 &&
      AfterRetainingDrain(q, true, TransportError(0)) == [Frame([q[0]])]
  {
  }

  /** The bytes a cycle on an open queue consumes: the batch's payload bytes
      and, when the loop stopped at a record that did not fit, that record's. */
  lemma ConsumedBytes(q: seq<Record>)
    ensures var c := Harvest(q, true); var n := Accepted(q, 0);
      SumLengths(q[..c.consumed]) == c.bufSize + (if n < |q| then |q[n]| else 0)
  {
    var n := Accepted(q, 0);
    if n < |q| {
      assert q[..n + 1] == q[..n] + [q[n]];
      SumLengthsAppend(q[..n], [q[n]]);
    }
  }

  /** Taking one more record into the batch appends its payload and a newline
      to the frame, and its length to the byte count. */
  lemma CollectStep(q: seq<Record>, k: nat)
    requires k < |q|
    ensures Frame(q[..k + 1]) == Frame(q[..k]) + q[k] + [NewLine]
    ensures SumLengths(q[..k + 1]) == SumLengths(q[..k]) + |q[k]|
  {
    assert q[..k + 1] == q[..k] + [q[k]];
    SumLengthsAppend(q[..k], [q[k]]);
    FrameAppend(q[..k], [q[k]]);
  }

  /** Record and byte accounting of one cycle as written: the queue loses the
      consumed prefix and gains one record, holding the unread part of the
      batch, exactly when something was offered and not delivered. */
  lemma DrainConservation(q: seq<Record>, open: bool, outcome: PostOutcome)
    ensures var c := Harvest(q, open); var a := AfterDrain(q, open, outcome);
      var back := Offered(q, open).Some? && !Delivered(outcome);
      |a| == |q| - c.consumed + (if back then 1 else 0) &&
      SumLengths(a) + SumLengths(q[..c.consumed]) ==
        SumLengths(q) + (if back then |Unread(c.batch, outcome)| else 0)
  {
    var c := Harvest(q, open);
    var back := c.bufSize > 0 && !Delivered(outcome);
    assert q == q[..c.consumed] + q[c.consumed..];
    SumLengthsAppend(q[..c.consumed], q[c.consumed..]);
    SumLengthsAppend(q[c.consumed..], if back then [Unread(c.batch, outcome)] else []);
  }

  /** As the sender is written, a status answer other than 200 requeues an
      empty record: the bytes of the batch's payloads, and those of the record
      the loop consumed for not fitting behind the batch, if any, are neither
      delivered nor queued any longer. */
  lemma StatusAnswerLosesBatch(q: seq<Record>, code: int)
    requires Offered(q, true).Some? && code != StatusOK
    ensures var c := Harvest(q, true); var a := AfterDrain(q, true, Status(code));
      a == q[c.consumed..] + [[]] &&
      SumLengths(a) + c.bufSize + (if Accepted(q, 0) < |q| then |q[Accepted(q, 0)]| else 0) == SumLengths(q) &&
      c.bufSize > 0
  {
    var c := Harvest(q, true);
    var n := Accepted(q, 0);
    DrainConservation(q, true, Status(code));
    ConsumedBytes(q);
  }

  /** A cycle that requeues its own copy of the batch loses no payload byte
      when the post is not delivered, except those of the record the loop
      consumed for not fitting behind the batch. */
  lemma RetainingDrainLosesNothing(q: seq<Record>, open: bool, outcome: PostOutcome)
    requires !Delivered(outcome)
    ensures var n := Accepted(q, 0);
      SumLengths(AfterRetainingDrain(q, open, outcome)) +
        (if open && n < |q| then |q[n]| else 0) >= SumLengths(q)
  {
    if !open {
      assert q[0..] + [] == q;
    } else {
      var c := Harvest(q, true);
      var n := Accepted(q, 0);
      var back: seq<Record> := if c.bufSize > 0 then [c.batch] else [];
      assert AfterRetainingDrain(q, open, outcome) == q[c.consumed..] + back;
      assert q == q[..c.consumed] + q[c.consumed..];
      SumLengthsAppend(q[..c.consumed], q[c.consumed..]);
      SumLengthsAppend(q[c.consumed..], back);
      assert SumLengths(back) >= c.bufSize;
      ConsumedBytes(q);
    }
  }

  // ---------------------------------------------------------------------------
  // The persistent queue, as the sender sees it

  /** The disk-backed FIFO. Its contents survive Close: opening the queue again
      on the same directory recovers them, which is why the constructor takes
      the recovered contents as a parameter. */
  class PersistentQueue {
    var items: seq<Record>
    var open: bool

    /** Opening the queue on a directory that holds `recovered`. */
    constructor (recovered: seq<Record>)
      ensures items == recovered && open
    {
      items := recovered;
      open := true;
    }

    method Enqueue(data: Record) returns (item: Option<Item>, err: Option<QueueError>)
      modifies this
      ensures open == old(open)
      ensures old(open) ==> items == old(items) + [data] && item == Some(Item(data)) && err == None
      ensures !old(open) ==> items == old(items) && item == None && err == Some(ErrDBClosed)
    {
      if !open {
        return None, Some(ErrDBClosed);
      }
      items := items + [data];
      item, err := Some(Item(data)), None;
    }

    method Dequeue() returns (item: Option<Item>, err: Option<QueueError>)
      modifies this
      ensures open == old(open)
      ensures item.None? <==> err.Some?
      ensures !old(open) ==> items == old(items) && err == Some(ErrDBClosed)
      ensures old(open) && old(items) == [] ==> items == old(items) && err == Some(ErrEmpty)
      ensures old(open) && old(items) != [] ==>
        item == Some(Item(old(items)[0])) && items == old(items)[1..]
    {
      if !open {
        return None, Some(ErrDBClosed);
      }
      if items == [] {
        return None, Some(ErrEmpty);
      }
      item, err := Some(Item(items[0])), None;
      items := items[1..];
    }

    /** Closing keeps the stored items; closing twice is harmless. */
    method Close()
      modifies this
      ensures !open && items == old(items)
    {
      open := false;
    }
  }

  // ---------------------------------------------------------------------------
  // The sender

  class LogzioSender {
    const queue: PersistentQueue
    /** The batch buffer of the last drain cycle. */
    var buf: seq<byte>
    /** Set while a drain cycle runs. */
    var draining: bool
    const token: string
    var url: string

    /** New: `base` is the address given with SetUrl, if any, and `stored` is
        what the queue's directory already holds. The buffer starts as MaxSize
        zero bytes, which every drain cycle clears before use. */
    constructor (token: string, base: Option<string>, stored: seq<Record>)
      ensures fresh(queue) && queue.items == stored && queue.open
      ensures this.token == token && !draining && |buf| == MaxSize
      ensures url == Url(if base.Some? then base.value else DefaultHost, token)
    {
      this.token := token;
      buf := Zeros(MaxSize);
      draining := false;
      url := Url(if base.Some? then base.value else DefaultHost, token);
      queue := new PersistentQueue(stored);
    }

    /** SetUrl applied after construction. */
    method SetUrl(base: string)
      modifies this
      ensures url == Url(base, token)
      ensures buf == old(buf) && draining == old(draining)
    {
      url := Url(base, token);
    }

    /** Send queues the payload unchanged and passes on the queue's error. */
    method Send(payload: Record) returns (err: Option<QueueError>)
      modifies queue
      ensures queue.open == old(queue.open)
      ensures err == None <==> old(queue.open)
      ensures err.Some? ==> err == Some(ErrDBClosed)
      ensures queue.items == if old(queue.open) then old(queue.items) + [payload] else old(queue.items)
    {
      var item;
      item, err := queue.Enqueue(payload);
    }

    /** Write reports every byte as written and returns Send's error. */
    method Write(p: Record) returns (n: int, err: Option<QueueError>)
      modifies queue
      ensures n == |p|
      ensures queue.open == old(queue.open)
      ensures err == None <==> old(queue.open)
      ensures err.Some? ==> err == Some(ErrDBClosed)
      ensures queue.items == if old(queue.open) then old(queue.items) + [p] else old(queue.items)
    {
      err := Send(p);
      n := |p|;
    }

    /** requeue: what is left in the batch buffer goes back as one record. */
    method Requeue()
      modifies queue
      ensures queue.open == old(queue.open)
      ensures queue.items == if old(queue.open) then old(queue.items) + [buf] else old(queue.items)
    {
      var err := Send(buf);
    }

    /** The collecting loop of a drain cycle: it clears the buffer, then
        dequeues while fewer than MaxSize payload bytes are collected and the
        queue reports no error, writing each payload and a newline to the
        buffer. The record that would overflow the batch ends the loop and is
        not written back. */
    method FillBuffer() returns (bufSize: nat)
      modifies this`buf, queue
      ensures queue.open == old(queue.open)
      ensures var c := Harvest(old(queue.items), old(queue.open));
        buf == c.batch && bufSize == c.bufSize && queue.items == old(queue.items)[c.consumed..]
    {
      ghost var q0, open0 := queue.items, queue.open;
      ghost var n0 := if open0 then Accepted(q0, 0) else 0;
      ghost var k := 0;
      ghost var dropped := false;
      buf := [];
      bufSize := 0;
      var err: Option<QueueError> := None;
      // A nil item comes with an error, which ends the loop at its guard.
      while bufSize < MaxSize && err == None
        invariant 0 <= k <= |q0| && queue.items == q0[k..] && queue.open == open0
        invariant buf == Frame(q0[..k]) && bufSize == SumLengths(q0[..k])
        invariant bufSize < MaxSize
        invariant open0 ==> k + Accepted(queue.items, bufSize) == n0
        invariant !open0 ==> k == 0
        invariant err.Some? ==> queue.items == [] || !open0
        decreases |queue.items|, if err == None then 1 else 0
      {
        var item;
        item, err := queue.Dequeue();
        if item.Some? {
          var value := item.value.value;
          if |value| + bufSize + 1 > MaxSize {
            dropped := true;
            break;
          }
          CollectStep(q0, k);
          bufSize := bufSize + |value|;
          buf := buf + value + [NewLine];
          k := k + 1;
        }
      }
      assert k == n0 && (dropped <==> open0 && n0 < |q0|);
      assert queue.items == q0[(if dropped then k + 1 else k)..];
    }

    /** The transport's side of `http.Post`: it is handed the batch buffer
        itself as the request body and reads it from the front. */
    method PostBody(outcome: PostOutcome)
      modifies this`buf
      ensures buf == Unread(old(buf), outcome)
    {
      buf := Unread(buf, outcome);
    }

    /** One drain cycle, with the transport's answer given as `outcome`. It
        returns the bytes offered to the transport, if any. A cycle that finds
        another one running does nothing; otherwise `draining` is set for the
        cycle and cleared on every way out of it, and the buffer keeps what the
        transport left unread. */
    method Drain(outcome: PostOutcome) returns (posted: Option<seq<byte>>)
      modifies this, queue
      ensures queue.open == old(queue.open) && url == old(url)
      ensures old(draining) ==>
        draining && posted == None && buf == old(buf) && queue.items == old(queue.items)
      ensures !old(draining) ==>
        var c := Harvest(old(queue.items), old(queue.open));
        !draining &&
        buf == (if c.bufSize > 0 then Unread(c.batch, outcome) else c.batch) &&
        posted == Offered(old(queue.items), old(queue.open)) &&
        queue.items == AfterDrain(old(queue.items), old(queue.open), outcome)
    {
      posted := None;
      if draining {
        return;
      }
      draining := true;
      var bufSize := FillBuffer();
      if bufSize > 0 {
        posted := Some(buf);
        PostBody(outcome);
        match outcome
        case TransportError(_) =>
          Requeue();
          draining := false;
          return;
        case Status(code) =>
          if code == StatusOK {
            draining := false;
            return;
          }
          Requeue();
      }
      draining := false;
    }

    /** A drain cycle that takes its own copy of the batch before posting and
        requeues that copy when the post is not delivered. */
    method DrainRetaining(outcome: PostOutcome) returns (posted: Option<seq<byte>>)
      modifies this, queue
      ensures queue.open == old(queue.open) && url == old(url)
      ensures old(draining) ==>
        draining && posted == None && buf == old(buf) && queue.items == old(queue.items)
      ensures !old(draining) ==>
        var c := Harvest(old(queue.items), old(queue.open));
        !draining &&
        buf == (if c.bufSize > 0 then Unread(c.batch, outcome) else c.batch) &&
        posted == Offered(old(queue.items), old(queue.open)) &&
        queue.items == AfterRetainingDrain(old(queue.items), old(queue.open), outcome)
    {
      posted := None;
      if draining {
        return;
      }
      draining := true;
      var bufSize := FillBuffer();
      if bufSize > 0 {
        var body := buf;
        posted := Some(body);
        PostBody(outcome);
        if !Delivered(outcome) {
          var err := Send(body);
        }
      }
      draining := false;
    }

    /** Sync runs one drain cycle and always succeeds; `posted` is what that
        cycle offered to the transport. */
    method Sync(outcome: PostOutcome) returns (err: Option<QueueError>, ghost posted: Option<seq<byte>>)
      modifies this, queue
      ensures err == None
      ensures queue.open == old(queue.open) && url == old(url)
      ensures old(draining) ==>
        draining && posted == None && buf == old(buf) && queue.items == old(queue.items)
      ensures !old(draining) ==>
        var c := Harvest(old(queue.items), old(queue.open));
        !draining &&
        buf == (if c.bufSize > 0 then Unread(c.batch, outcome) else c.batch) &&
        posted == Offered(old(queue.items), old(queue.open)) &&
        queue.items == AfterDrain(old(queue.items), old(queue.open), outcome)
    {
      posted := Drain(outcome);
      err := None;
    }

    /** Stop runs a final drain cycle, then closes the queue; the queue keeps
        what the cycle left in it. `posted` is what that cycle offered. */
    method Stop(outcome: PostOutcome) returns (ghost posted: Option<seq<byte>>)
      modifies this, queue
      ensures !queue.open && url == old(url)
      ensures old(draining) ==>
        draining && posted == None && buf == old(buf) && queue.items == old(queue.items)
      ensures !old(draining) ==>
        var c := Harvest(old(queue.items), old(queue.open));
        !draining &&
        buf == (if c.bufSize > 0 then Unread(c.batch, outcome) else c.batch) &&
        posted == Offered(old(queue.items), old(queue.open)) &&
        queue.items == AfterDrain(old(queue.items), old(queue.open), outcome)
    {
      posted := Drain(outcome);
      queue.Close();
    }
  }

  // ---------------------------------------------------------------------------
  // Scenarios

  /** The payload "blah". */
  const Blah: Record := [98, 108, 97, 104]

  /** A drain of a queue holding only "blah" offers "blah\n"; it leaves the
      queue empty on delivery, and otherwise holding what the transport left
      unread of "blah\n": all of it when no connection was made, nothing once
      the collector has answered. */
  lemma DrainBlah(outcome: PostOutcome)
    ensures Harvest([Blah], true) == Cycle(Blah + [NewLine], 4, 1)
    ensures Offered([Blah], true) == Some(Blah + [NewLine])
    ensures AfterDrain([Blah], true, outcome) ==
      if Delivered(outcome) then [] else [Unread(Blah + [NewLine], outcome)]
    ensures outcome == TransportError(0) ==> AfterDrain([Blah], true, outcome) == [Blah + [NewLine]]
    ensures outcome.Status? && !Delivered(outcome) ==> AfterDrain([Blah], true, outcome) == [[]]
  {
    SmallQueueDrainsWhole([Blah], outcome);
    assert [Blah][1..] == [];
  }

  /** Against an unreachable collector, one drain leaves exactly one record,
      the batch, and a second dequeue finds the queue empty. */
  method RetriesScenario() returns (first: Option<Item>, second: Option<QueueError>)
    ensures first == Some(Item(Blah + [NewLine])) && second == Some(ErrEmpty)
  {
    var l := new LogzioSender("fake-token", Some("http://localhost:12345"), []);
    var err := l.Send(Blah);
    assert l.queue.items == [Blah] && l.queue.open && !l.draining;
    DrainBlah(TransportError(0));
    var posted := l.Drain(TransportError(0));
    assert l.queue.items == [Blah + [NewLine]];
    first, err := l.queue.Dequeue();
    var item;
    item, second := l.queue.Dequeue();
  }

  /** Stop against an unreachable collector requeues the batch before
      closing; a sender opened on the same directory dequeues "blah\n". */
  method RestoreQueueScenario() returns (restored: Option<Item>)
    ensures restored == Some(Item(Blah + [NewLine]))
  {
    var l := new LogzioSender("fake-token", Some("http://localhost:12345"), []);
    var err := l.Send(Blah);
    assert l.queue.items == [Blah] && l.queue.open && !l.draining;
    DrainBlah(TransportError(0));
    var posted := l.Stop(TransportError(0));
    assert l.queue.items == [Blah + [NewLine]];
    var reopened := new LogzioSender("fake-token", Some("http://localhost:12345"), l.queue.items);
    restored, err := reopened.queue.Dequeue();
  }

  /** A working collector receives "blah\n" on the tokened address, and the
      queue is empty afterwards. */
  method SendScenario(base: string) returns (address: string, posted: Option<seq<byte>>, rest: Option<QueueError>)
    ensures address == base + "/?token=fake-token"
    ensures posted == Some(Blah + [NewLine]) && rest == Some(ErrEmpty)
  {
    var l := new LogzioSender("fake-token", Some(base), []);
    address := l.url;
    var err := l.Send(Blah);
    assert l.queue.items == [Blah] && l.queue.open && !l.draining;
    DrainBlah(Status(StatusOK));
    posted := l.Drain(Status(StatusOK));
    assert l.queue.items == [];
    var item;
    item, rest := l.queue.Dequeue();
  }

  /** Write reports the four bytes of "blah", and the Sync after it posts
      "blah\n" and empties the queue. */
  method WriteScenario(base: string) returns (n: int, ghost posted: Option<seq<byte>>, rest: Option<QueueError>)
    ensures n == 4 && posted == Some(Blah + [NewLine]) && rest == Some(ErrEmpty)
  {
    var l := new LogzioSender("fake-token", Some(base), []);
    var err;
    n, err := l.Write(Blah);
    assert l.queue.items == [Blah] && l.queue.open && !l.draining;
    DrainBlah(Status(StatusOK));
    err, posted := l.Sync(Status(StatusOK));
    assert l.queue.items == [];
    var item;
    item, rest := l.queue.Dequeue();
  }

  /** A 401 answer to the Sync's post of "blah\n" requeues the empty remainder
      of the buffer; the next drain consumes that empty record, posts nothing,
      and leaves the queue empty, so "blah" is lost. */
  method UnauthorizedScenario(base: string) returns (ghost firstPost: Option<seq<byte>>, secondPost: Option<seq<byte>>, rest: Option<QueueError>)
    ensures firstPost == Some(Blah + [NewLine])
    ensures secondPost == None && rest == Some(ErrEmpty)
  {
    var l := new LogzioSender("fake-token", Some(base), []);
    var n, err := l.Write(Blah);
    assert l.queue.items == [Blah] && l.queue.open && !l.draining;
    DrainBlah(Status(401));
    err, firstPost := l.Sync(Status(401));
    assert l.queue.items == [[]];
    SmallQueueDrainsWhole([[]], Status(202));
    secondPost := l.Drain(Status(202));
    assert l.queue.items == [];
    var item;
    item, rest := l.queue.Dequeue();
  }

  /** With a cycle that requeues its own copy of the batch, the 401 answer
      leaves "blah\n" queued, and the next cycle posts it again with one more
      newline, since the requeued record is itself framed. A 202 answer is not
      a delivery either, so that batch is queued in its turn. */
  method UnauthorizedRetainingScenario(base: string) returns (firstPost: Option<seq<byte>>, secondPost: Option<seq<byte>>, rest: Option<Item>)
    ensures firstPost == Some(Blah + [NewLine])
    ensures secondPost == Some(Blah + [NewLine, NewLine]) && rest == Some(Item(Blah + [NewLine, NewLine]))
  {
    var l := new LogzioSender("fake-token", Some(base), []);
    var n, err := l.Write(Blah);
    assert l.queue.items == [Blah] && l.queue.open && !l.draining;
    DrainBlah(Status(401));
    firstPost := l.DrainRetaining(Status(401));
    assert l.queue.items == [Blah + [NewLine]];
    SmallQueueDrainsWhole([Blah + [NewLine]], Status(202));
    assert Frame([Blah + [NewLine]]) == Blah + [NewLine, NewLine];
    secondPost := l.DrainRetaining(Status(202));
    assert l.queue.items == [Blah + [NewLine, NewLine]];
    rest, err := l.queue.Dequeue();
  }
}
