# logzio-go: queue and drain cycle, in Dafny

This project models the two sequential cores of the logzio-go log shipper and
proves properties of them.

- **The in-memory queue** (`InMemoryQueue.ConcurrentQueue`, in
  `in_memory_queue.dfy`). It is a FIFO over a buffered channel of payloads.
  Its capacity counts items. It keeps a running count of the payload bytes it
  holds (`size`) and of the items (`length`). The class invariant `Valid()`
  says that `size` is the byte count of the buffered payloads, that `length`
  is their number, and that `0 <= length <= maxLength`. Every method keeps
  it. Each method states its whole effect on the fields, including the
  source's quirks:
  - a full enqueue returns neither an item nor an error;
  - emptiness is decided on `size`, so a queue holding only empty payloads
    reports itself empty;
  - `Close` never dequeues anything.
- **The sender** (`Logzio.LogzioSender`, in `logzio_sender.dfy`). `Send` and
  `Write` put records into a persistent FIFO (`Logzio.PersistentQueue`, an
  abstract model of the on-disk queue). A drain cycle (`Drain`) works like
  this:
  1. It does nothing if another cycle is running.
  2. It collects records into one batch, each payload followed by a newline.
  3. It hands the batch buffer itself to the HTTP transport, which reads the
     request body out of it.
  4. Unless the answer is status 200, it queues again, as one record,
     whatever the transport left unread in the buffer.

  How the transport answers is a parameter (`PostOutcome`). It is either
  `TransportError(read)`, a failure after the first `read` bytes of the body
  were read (0 when no connection could be made), or `Status(code)`, an
  answer given after the whole body was read. So after any status answer the
  requeued record is empty, and a batch that the collector refused is lost
  (see "## Findings").

The drain cycle is specified by pure functions of the queue contents it
starts from:
- `Accepted`: how many records from the head fit into the batch.
- `Frame`: the bytes of a batch, each payload followed by byte 10.
- `Harvest`: the batch, its payload-byte count, and how many records the loop
  consumed. This includes the one record that did not fit, which is consumed
  but not added to the batch.
- `Offered`: what is posted. The batch is posted only when it holds at least
  one payload byte.
- `Unread`: what a post leaves in the buffer.
- `AfterDrain`: the queue after the cycle, as the sender is written.
- `AfterRetainingDrain`: the queue after a corrected cycle that requeues its
  own copy of the batch (`LogzioSender.DrainRetaining`).

`Drain` is proved to match these functions exactly. The lemmas next to them
prove what the cycle guarantees:
- the accepted records are exactly those before the first overflow;
- the `bufSize < maxSize` loop test never ends the loop;
- a queue that fits into one batch is taken whole;
- the first record that does not fit behind the batch is consumed and
  dropped, in both cycles, even when it would fit a batch of its own; a head
  record too large for any batch is the case where nothing is offered;
- a batch of only empty payloads is consumed and not posted;
- how many records and bytes the queue loses and gains in one cycle;
- as written, a status answer other than 200 loses the batch; the corrected
  cycle loses nothing but the record that did not fit behind the batch.

Most scenario methods at the end of both modules restate one of the
repository's tests as verified client code; the row of each names the test.
`ZeroLengthScenario` and `DrainBlah` restate no test: they follow from the
code alone, and the row of each cites that code.

`Records` (in `records.dfy`) holds what both parts share: a byte newtype,
`Item`, the queue errors, `SumLengths`, the byte count of a sequence of
records, and `Zeros`.

The model follows the code on three points where a reader might expect
otherwise:
- the in-memory capacity counts items, not bytes, although the tests' capacity
  constant carries the comment `// 3 mb` (inMemoryQueue/inMemoryQueue_test.go:10);
- `Close` does not drain the in-memory queue: its loop tests a variable that
  is nil from the start (inMemoryQueue/inMemoryQueue.go:85-91);
- only status 200 counts as delivery (`resp.StatusCode == http.StatusOK`,
  logziosender.go:184), so the 202 answer that the Unauthorized test gives its
  second post is not a delivery.

## Model

| member | source | states |
|---|---|---|
| `Records.SumLengthsBound` | inMemoryQueue/inMemoryQueue.go:43-46 | `SumLengths` is the byte count that `size` tracks. It counts every byte of every record: no single record holds more bytes than the whole sequence. |
| `Records.Zeros` | logziosender.go:61 | `make([]byte, n)`: exactly `n` bytes, all zero. |
| `Records.SumLengthsAppend` | inMemoryQueue/inMemoryQueue.go:43-46 | The byte count of two record sequences put one after the other is the sum of their byte counts. Adding `len(data)` on each enqueue relies on this to keep `size` equal to the bytes held. |
| `Records.SumLengthsZero` | inMemoryQueue/inMemoryQueue.go:30-35 | A sequence of records holds zero bytes exactly when every record in it is empty. |
| `InMemoryQueue.ConcurrentQueue.constructor` | inMemoryQueue/inMemoryQueue.go:19-28 | The new queue is valid, open and empty: `size == 0`, `length == 0`, and the given `maxLength`. The capacity must not be negative, because Go's `make` panics otherwise. |
| `InMemoryQueue.ConcurrentQueue.IsEmpty` | inMemoryQueue/inMemoryQueue.go:30-35 | Reports empty exactly when every buffered payload has zero length. It decides on the byte count, not on the number of items. |
| `InMemoryQueue.ConcurrentQueue.Enqueue` | inMemoryQueue/inMemoryQueue.go:37-51 | Below capacity, it appends `data` at the tail, adds `len(data)` to `size` and 1 to `length`, and returns `Item(data)` with no error. At capacity, nothing changes and it returns neither an item nor an error. The error is always nil. It keeps `Valid()`. |
| `InMemoryQueue.ConcurrentQueue.Dequeue` | inMemoryQueue/inMemoryQueue.go:55-69 | With `size == 0`, it returns `ErrEmpty` and no item, and changes nothing. Otherwise it removes and returns the head, subtracts its length from `size` and 1 from `length`, and returns no error. It keeps `Valid()`. |
| `InMemoryQueue.ConcurrentQueue.Length` | inMemoryQueue/inMemoryQueue.go:71-76 | Returns the number of payload bytes held, not the number of items, and changes nothing. |
| `InMemoryQueue.ConcurrentQueue.IsFull` | inMemoryQueue/inMemoryQueue.go:77-82 | Full exactly when the number of items equals `maxLength`. It changes nothing. |
| `InMemoryQueue.ConcurrentQueue.Close` | inMemoryQueue/inMemoryQueue.go:84-93 | Only marks the channel closed. The buffer, `size` and `length` are unchanged, because the drain loop's guard is false from the start. |
| `InMemoryQueue.CalculateSizeScenario` | inMemoryQueue/inMemoryQueue_test.go:13-26 | After two 1000-byte payloads, `Length()` is 2000. After one dequeue, it is 1000. |
| `InMemoryQueue.EmptyQueueScenario` | inMemoryQueue/inMemoryQueue_test.go:28-40 | Dequeue on a new queue gives `ErrEmpty`. After one enqueue, dequeue succeeds. |
| `InMemoryQueue.FullQueueScenario` | inMemoryQueue/inMemoryQueue_test.go:42-52 | With capacity 1, the second enqueue returns no item, and the second dequeue finds nothing. |
| `InMemoryQueue.FifoScenario` | inMemoryQueue/inMemoryQueue_test.go:73-89 | After payloads of 12, 10, 10, 10 and 10 bytes, one dequeue returns the 12-byte head and leaves 40 bytes. |
| `InMemoryQueue.ZeroLengthScenario` | inMemoryQueue/inMemoryQueue.go:30-58 | A queue of capacity 1 that holds one empty payload refuses to dequeue it (`ErrEmpty`) and is still full. |
| `Logzio.Url` | logziosender.go:63 | The address is the collector's address, then `/?token=`, then the token. The lengths add up, and each part can be read back at its position. |
| `Logzio.Accepted` | logziosender.go:155-165 | The number of records the collecting loop takes into the batch is at most the queue's length. |
| `Logzio.Delivered` | logziosender.go:184 | Delivery is exactly a `Status(200)` answer. |
| `Logzio.Unread` | logziosender.go:178 | What the transport leaves in the buffer is a suffix of the body, no longer than it. Nothing is left after a status answer, and the whole body when nothing was read. |
| `Logzio.Frame` | logziosender.go:162-167 | A batch holds its payload bytes plus one newline per record, so `bufSize` counts payload bytes only. |
| `Logzio.Harvest` | logziosender.go:154-175 | The loop consumes no more records than the queue holds, and at least one from an open, non-empty queue. |
| `Logzio.Offered` | logziosender.go:176-178 | Nothing is posted exactly when the queue is closed or every accepted record is empty. What is posted is the frame of the accepted records. |
| `Logzio.AfterDrain` | logziosender.go:176-206 | The records the loop did not consume stay at the head of the queue, in order, and at most one record is added behind them. |
| `Logzio.AfterRetainingDrain` | logziosender.go:176-206 | The same for the corrected cycle: the unconsumed records stay at the head, in order, with at most one record behind them. |
| `Logzio.FrameAppend` | logziosender.go:167 | Writing payload plus newline per record is compositional: the frame of two record sequences is the concatenation of their frames. |
| `Logzio.AcceptedIsFirstOverflow` | logziosender.go:155-165 | Each accepted record satisfies `bufSize + len + 1 <= maxSize` on top of the bytes before it. The next record, if there is one, violates it. |
| `Logzio.AcceptedUnique` | logziosender.go:155-165 | The converse: any count with the first-overflow property is the accepted count. |
| `Logzio.AcceptedAll` | logziosender.go:155-175 | If the payloads and newlines fit into `maxSize`, every record is accepted. |
| `Logzio.HarvestShape` | logziosender.go:154-175 | After the loop, `bufSize < maxSize`, so the loop's size test never ends it. The batch is the frame of the accepted prefix, and its length is `bufSize` plus the number of accepted records. The loop consumes exactly one record more than it accepts if and only if it stopped at a record that does not fit. |
| `Logzio.SmallQueueDrainsWhole` | logziosender.go:154-206 | A queue that fits into one batch is consumed whole. The queue is then empty if the batch was delivered or holds no payload bytes. Otherwise it holds one record: what the transport left unread of the batch. |
| `Logzio.OversizedHeadDropped` | logziosender.go:162-165 | A head record of at least `maxSize` bytes is consumed and dropped, nothing is offered, and the rest of the queue stays. |
| `Logzio.CollectStep` | logziosender.go:165-167 | Taking one more record appends its payload and a newline to the batch, and adds its length to `bufSize`. |
| `Logzio.ConsumedBytes` | logziosender.go:155-175 | The bytes a cycle consumes are the batch's payload bytes plus those of the record that did not fit behind it, if any. |
| `Logzio.FittingRecordDroppedBehindBatch` | logziosender.go:155-165 | With two 2 MiB records, the first is taken and the second is consumed and dropped, although it would fit a batch of its own. The corrected cycle gives back only the first, framed. |
| `Logzio.DrainConservation` | logziosender.go:154-206 | Accounting for one cycle. The queue loses the consumed records. It gains one record exactly when something was posted and not delivered. Its bytes plus the consumed bytes equal the old bytes plus what the transport left unread. |
| `Logzio.StatusAnswerLosesBatch` | logziosender.go:178-202 | As written, a posted batch answered with a status other than 200 comes back as an empty record. The queue's bytes fall by the batch's payload bytes, plus those of the record that did not fit behind the batch, if there was one. |
| `Logzio.RetainingDrainLosesNothing` | logziosender.go:176-206 | In the corrected cycle, an undelivered post loses no payload byte. The queue's bytes plus those of the record that did not fit behind the batch are at least the old bytes. |
| `Logzio.PersistentQueue.constructor` | logziosender.go:73-77 | Opening the queue on a directory gives back its stored records, and the queue is open. |
| `Logzio.PersistentQueue.Enqueue` | logziosender.go:117 | An open queue appends the payload and returns it as an item. A closed queue changes nothing and returns `ErrDBClosed`. |
| `Logzio.PersistentQueue.Dequeue` | logziosender.go:156 | An item comes back exactly when there is no error. A closed queue gives `ErrDBClosed`, an empty one `ErrEmpty`. Otherwise it removes and returns the head. |
| `Logzio.PersistentQueue.Close` | logziosender.go:127 | Closes the queue and keeps its records. |
| `Logzio.LogzioSender.constructor` | logziosender.go:59-80 | The address is built from the given address (or the default host) and the token. The queue is fresh, open and holds the stored records. The sender is not draining. |
| `Logzio.LogzioSender.SetUrl` | logziosender.go:91-97 | The address becomes the given address with the sender's token. |
| `Logzio.LogzioSender.Send` | logziosender.go:115-119 | Enqueues the payload unchanged and returns the queue's error. The error is nil exactly when the queue is open. |
| `Logzio.LogzioSender.Write` | logziosender.go:218-220 | Returns `len(p)` together with `Send`'s error, with `Send`'s effect on the queue. The error is nil exactly when the queue is open, and `ErrDBClosed` otherwise. |
| `Logzio.LogzioSender.Requeue` | logziosender.go:200-206 | Enqueues what is in the buffer (`l.buf.Bytes()`) as one record. |
| `Logzio.LogzioSender.PostBody` | logziosender.go:178 | `http.Post` reads the buffer it is handed: afterwards the buffer holds what `Unread` gives. |
| `Logzio.LogzioSender.FillBuffer` | logziosender.go:154-175 | The buffer, the payload-byte count and the remaining queue are exactly what `Harvest` gives for the queue the loop started from. |
| `Logzio.LogzioSender.Drain` | logziosender.go:139-192 | If a cycle is already running, nothing changes and nothing is posted. Otherwise `draining` is cleared on every exit path. The posted bytes are `Offered(...)`. The buffer holds the harvested batch, or, once posted, what the transport left unread of it. The queue becomes `AfterDrain(...)`. The address is unchanged. |
| `Logzio.LogzioSender.DrainRetaining` | logziosender.go:139-192 | The corrected cycle has the same guard, buffer and posted bytes as `Drain`. The queue becomes `AfterRetainingDrain(...)`. |
| `Logzio.LogzioSender.Sync` | logziosender.go:194-198 | One drain cycle with all of `Drain`'s effects: draining flag, buffer, posted bytes, queue, address. It always returns nil. |
| `Logzio.LogzioSender.Stop` | logziosender.go:125-129 | The final drain cycle, with all of `Drain`'s effects, and then the queue is closed. The queue keeps what the cycle left. |
| `Logzio.DrainBlah` | logziosender.go:154-206 | For a queue holding only "blah", the cycle offers "blah\n". The queue is then empty if delivered. It holds "blah\n" when no byte was read, and one empty record after a status answer other than 200. |
| `Logzio.RetriesScenario` | logsender_test.go:148-178 | Against an unreachable collector, one drain leaves exactly one record, "blah\n", and a second dequeue finds the queue empty. |
| `Logzio.RestoreQueueScenario` | logsender_test.go:309-350 | After `Send("blah")`, `Stop()` against an unreachable collector keeps "blah\n". A sender opened on what the queue stored dequeues "blah\n". |
| `Logzio.SendScenario` | logsender_test.go:180-208 | After `Send("blah")`, a working collector is posted "blah\n" on `base + "/?token=fake-token"`, and the queue is empty afterwards. |
| `Logzio.WriteScenario` | logsender_test.go:276-307 | On a collector at `base`, `Write("blah")` reports 4 bytes. The `Sync` after it posts "blah\n" and empties the queue. |
| `Logzio.UnauthorizedScenario` | logsender_test.go:352-392 | On a collector at `base`: `Write("blah")`, then `Sync` answered 401, then `Drain`. The first post is "blah\n", which is all the test checks. The requeued record is empty, so the `Drain` posts nothing and the queue ends empty. |
| `Logzio.UnauthorizedRetainingScenario` | logsender_test.go:352-392 | The same calls with the corrected cycle. The 401 answer leaves "blah\n" queued, and the next cycle posts "blah\n\n" because the requeued record gets its own newline. |

## Left out

- The HTTP transport (`http.Post`, the response body) is not modelled. Its
  answer is the `PostOutcome` parameter of `Drain`, `Sync` and `Stop`.
- `Url`: works on characters, while Go's `fmt.Sprintf` builds a UTF-8 byte
  string. For a non-ASCII base or token, `|u|` counts characters, not bytes.
- `Unread`: how far Go's HTTP client read the body is part of the outcome,
  not derived. A `Status` answer is taken to come after the whole body was
  read. A server that answers before reading the body to its end is not
  modelled.
- The on-disk queue library (goque / LevelDB) is an assumed abstract FIFO:
  - enqueue and dequeue on a closed queue give `ErrDBClosed`;
  - dequeue on an empty queue gives `ErrEmpty`;
  - closing keeps the records.

  The following are also not modelled:
  - item `ID` and `Key` numbering;
  - storage errors other than a closed queue;
  - failure to open the directory in `New`;
  - its `Length`, which the sender never calls.
- Concurrency is not modelled: the mutexes, the atomic `draining` flag, the
  channel's blocking send, and the race between `IsFull` and the send. All
  operations run one after another. A running cycle shows up only as
  `draining` already being set when `Drain` is called.
- The periodic `drainTimer` goroutine and `start` are not modelled.
- Debug and error logging are not modelled.
- The options `SetTempDirectory`, `SetDebug` and `SetDrainDuration`, and the
  temp-directory naming from the clock, are configuration only.
- The in-memory backend options, disk-space monitor and admission control
  that the tests refer to are not in `logziosender.go`. The sender is
  modelled over the persistent queue only.
- `genericQueue.go` only declares the four-operation interface. No common
  interface is declared here. `ConcurrentQueue` has all four operations.
  `PersistentQueue` has `Enqueue`, `Dequeue` and `Close` only, without
  `Length`.
- Go's `int` is 64 bits wide. `size`, `length` and `bufSize` are unbounded
  integers here. `Length`'s conversion to `uint64` is exact because `size` is
  never negative.
- Go panics become preconditions:
  - a negative capacity in `NewConcurrentQueue`;
  - sending on the channel after `Close` when the queue has room;
  - closing the channel twice.
- `InMemoryQueue.ConcurrentQueue.Close`: its dead drain loop is not written
  as a loop. It never runs, because it tests a variable that is nil from the
  start. The contract states that nothing is dequeued.
- The benchmarks and parallel tests are not modelled.

## Findings

| source | as written | input that shows it | evidently intended | confidence | as-written member | corrected member |
|---|---|---|---|---|---|---|
| logziosender.go:178-202 | `http.Post` is handed `l.buf` itself and reads it to its end. `requeue` then sends `l.buf.Bytes()`, which after any status answer is empty, so an answer other than 200 requeues an empty record. A transport error after `read` bytes likewise requeues only the unread tail, which can start in the middle of a record: "blah" with 2 bytes read comes back as "ah\n". | One queued record "blah", collector answers 401: the queue afterwards holds one empty record, and the next cycle consumes it and posts nothing (`UnauthorizedScenario`). | Requeue the batch as it was before the post, which is what the name `requeue` and the error message at line 190, which prints the buffer as the failed batch, take it to be. | medium, not executed; rests on Go's HTTP client reading a `*bytes.Buffer` body out of the buffer | `Logzio.StatusAnswerLosesBatch` | `Logzio.RetainingDrainLosesNothing` |

`Drain`, `Sync` and `Stop` model the sender as written. The corrected cycle
is `LogzioSender.DrainRetaining`, specified by `AfterRetainingDrain`.
