/** Values shared by both queue backends: bytes, queue items, the errors a
    queue reports, and the byte count of a sequence of records. */
module Records {

  /** One byte of a log record (Go's `byte`). */
  newtype byte = b: int | 0 <= b < 256

  /** A record as the queues hold it: an opaque, possibly empty, payload. */
  type Record = seq<byte>

  datatype Option<T> = None | Some(value: T)

  /** A dequeued or enqueued item. Only its payload is modelled; the numeric
      identifier and the key that the persistent queue attaches are not. */
  datatype Item = Item(value: Record)

  /** The two failure conditions a queue reports. */
  datatype QueueError = ErrEmpty | ErrDBClosed

  /** Total number of payload bytes in a sequence of records. */
  function SumLengths(records: seq<Record>): nat
  {
    if records == [] then 0 else |records[0]| + SumLengths(records[1..])
  }

  /** The byte count counts every byte of every record: no record holds more
      bytes than the whole sequence. */
  lemma {:induction false} SumLengthsBound(records: seq<Record>)
    ensures forall i :: 0 <= i < |records| ==> |records[i]| <= SumLengths(records)
  {
    if records != [] {
      SumLengthsBound(records[1..]);
      assert forall i :: 1 <= i < |records| ==> records[i] == records[1..][i - 1];
    }
  }

  /** The byte count of two sequences put one after the other is the sum of
      their byte counts. */
  lemma {:induction false} SumLengthsAppend(a: seq<Record>, b: seq<Record>)
    ensures SumLengths(a + b) == SumLengths(a) + SumLengths(b)
  {
    if a == [] {
      assert a + b == b;
    } else {
      assert (a + b)[1..] == a[1..] + b;
      SumLengthsAppend(a[1..], b);
    }
  }

  /** A sequence of records holds no bytes exactly when every record in it is
      empty (a non-empty sequence can hold zero bytes). */
  lemma {:induction false} SumLengthsZero(records: seq<Record>)
    ensures SumLengths(records) == 0 <==> forall i :: 0 <= i < |records| ==> |records[i]| == 0
  {
    if records != [] {
      SumLengthsZero(records[1..]);
      assert forall i :: 1 <= i < |records| ==> records[i] == records[1..][i - 1];
    }
  }

  /** `n` zero bytes, Go's `make([]byte, n)`. */
  function Zeros(n: nat): (s: Record)
    ensures |s| == n && forall i :: 0 <= i < n ==> s[i] == 0
  {
    seq(n, _ => 0)
  }
}
