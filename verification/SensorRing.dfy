/** The circular reader of kernel input events: a buffer of 2N events in which reads may run past
  * position N and are then copied back to the front. It refines a FIFO queue of capacity N.
  */
module SensorRing {
  import opened Options

  datatype Event = Event(kind: int, code: int, value: int)

  const EVENT_SIZE := 16     // sizeof(struct input_event) with 32-bit time
  const EINVAL := 22

  /** What one read(2) on the device does: `nread` is its return value (with `errno` on failure)
    * and `written` the events it put at the head, the last one possibly incomplete. */
  datatype KernelRead = KernelRead(nread: int, errno: int, written: seq<Event>)

  predicate Possible(r: KernelRead, free: nat) {
    && (r.nread < 0 ==> r.errno > 0 && r.written == [])
    && (r.nread >= 0 ==> r.nread <= free * EVENT_SIZE && |r.written| == (r.nread + EVENT_SIZE - 1) / EVENT_SIZE)
  }

  /** The events that a read delivers whole; none if it fails or stops inside an event. */
  function Delivered(r: KernelRead): (events: seq<Event>)
    requires r.nread >= 0 ==> |r.written| == (r.nread + EVENT_SIZE - 1) / EVENT_SIZE
  {
    if r.nread < 0 || r.nread % EVENT_SIZE != 0 then [] else r.written
  }

  class InputEventCircularReader {
    const capacity: nat        // N: mBufferEnd - mBuffer
    const buffer: array<Event>
    var head: nat              // mHead, may equal N
    var curr: nat              // mCurr, wraps to 0 at once
    var freeSpace: nat         // mFreeSpace

    ghost predicate Valid()
      reads this
    {
      && buffer.Length == 2 * capacity
      && freeSpace <= capacity
      && (curr < capacity || curr == 0)
      && var count := capacity - freeSpace;
         || head == curr + count <= capacity
         || (curr + count > capacity && head == curr + count - capacity)
         || (count == 0 && curr == 0 && head == capacity)
    }

    /** The position of the i-th unread event. */
    function At(i: nat): nat
      reads this
    {
      if curr + i < capacity then curr + i else curr + i - capacity
    }

    /** The queue this ring stands for: the unread events, oldest first. */
    ghost function Contents(): (q: seq<Event>)
      reads this, buffer
      requires Valid()
      ensures |q| == capacity - freeSpace
    {
      seq(capacity - freeSpace, i requires 0 <= i < capacity - freeSpace && Valid() reads this, buffer => buffer[At(i)])
    }

    constructor (numEvents: nat)
      ensures Valid() && fresh(buffer) && capacity == numEvents && Contents() == []
    {
      capacity := numEvents;
      buffer := new Event[numEvents * 2](_ => Event(0, 0, 0));
      head, curr, freeSpace := 0, 0, numEvents;
    }

    /** Appends what the read delivers; a failed or partial read, or a full ring, changes nothing. */
    method Fill(r: KernelRead) returns (n: int)
      requires Valid() && (freeSpace > 0 ==> Possible(r, freeSpace))
      modifies this, buffer
      ensures Valid() && curr == old(curr)
      ensures old(freeSpace) == 0 ==> n == 0 && Contents() == old(Contents())
      ensures old(freeSpace) > 0 ==>
                && Contents() == old(Contents()) + Delivered(r)
                && n == (if r.nread < 0 then -r.errno
                         else if r.nread % EVENT_SIZE != 0 then -EINVAL
                         else |Delivered(r)|)
    {
      var numEventsRead := 0;
      if freeSpace != 0 {
        ReadAtHead(r.written);
        if r.nread < 0 || r.nread % EVENT_SIZE != 0 {
          return if r.nread < 0 then -r.errno else -EINVAL;
        }
        numEventsRead := r.nread / EVENT_SIZE;
        if numEventsRead > 0 {
          Advance(r.written);
        }
      }
      return numEventsRead;
    }

    /** The kernel writes behind the head, never on an unread event nor past the buffer's end. */
    method ReadAtHead(written: seq<Event>)
      requires Valid() && |written| <= freeSpace
      modifies buffer
      ensures Contents() == old(Contents())
      ensures head + |written| <= buffer.Length && buffer[head..head + |written|] == written
    {
      forall k | 0 <= k < |written| {
        buffer[head + k] := written[k];
      }
      assert forall i :: 0 <= i < capacity - freeSpace ==> !(head <= At(i) < head + |written|);
    }

    /** Moves the head over the events just written, and copies those past N to the front. */
    method Advance(written: seq<Event>)
      requires Valid() && 0 < |written| <= freeSpace
      requires head + |written| <= buffer.Length && buffer[head..head + |written|] == written
      modifies this, buffer
      ensures Valid() && curr == old(curr) && Contents() == old(Contents()) + written
    {
      ghost var q := Contents();
      ghost var start := head;
      ghost var before := buffer[..];
      head := head + |written|;
      freeSpace := freeSpace - |written|;
      if head > capacity {
        CopyBack(head - capacity);
        head := head - capacity;
      }
      forall i | 0 <= i < |q| ensures buffer[At(i)] == q[i] {
        assert q[i] == before[At(i)];
      }
      forall i | 0 <= i < |written| ensures buffer[At(|q| + i)] == written[i] {
        assert written[i] == before[start..start + |written|][i] == before[start + i];
      }
    }

    method CopyBack(s: nat)
      requires s <= capacity && buffer.Length == 2 * capacity
      modifies buffer
      ensures forall k :: 0 <= k < buffer.Length ==>
                buffer[k] == if k < s then old(buffer[capacity + k]) else old(buffer[k])
    {
      forall k | 0 <= k < s {
        buffer[k] := buffer[capacity + k];
      }
    }

    /** The oldest event, if there is one. */
    method ReadEvent() returns (event: Option<Event>)
      requires Valid()
      ensures event == if Contents() == [] then None else Some(Contents()[0])
    {
      if capacity - freeSpace == 0 { return None; }
      assert Contents()[0] == buffer[At(0)];
      return Some(buffer[curr]);
    }

    /** Drops the oldest event; only called when there is one. */
    method Next()
      requires Valid() && Contents() != []
      modifies this
      ensures Valid() && Contents() == old(Contents())[1..] && freeSpace == old(freeSpace) + 1
    {
      ghost var q := Contents();
      curr := curr + 1;
      freeSpace := freeSpace + 1;
      if curr >= capacity { curr := 0; }
      assert forall i :: 0 <= i < |Contents()| ==> Contents()[i] == q[i + 1];
    }
  }

  // ----- runs -----

  /** `Offer`: the device has events pending, of which a read takes as many as fit; a torn read
    * stops inside the last of them. `Fail`: the read fails. `Remove`: readEvent, then next. */
  datatype Op = Offer(pending: seq<Event>, torn: bool) | Fail(errno: nat) | Remove

  function Min(a: nat, b: nat): nat { if a <= b then a else b }

  /** The read(2) that an operation amounts to when the ring has room for `free` events. */
  function ReadFor(op: Op, free: nat): (r: KernelRead)
    requires !op.Remove?
    ensures Possible(r, free)
  {
    match op
    case Offer(pending, torn) =>
      var n := Min(|pending|, free);
      KernelRead(n * EVENT_SIZE - (if torn && n > 0 then 1 else 0), 0, pending[..n])
    case Fail(errno) => KernelRead(-1, errno + 1, [])
  }

  /** What an operation does to a queue of the given capacity: what it delivers, and the queue
    * afterwards. A torn or failed read adds nothing; otherwise as many events as there is room for. */
  function FifoStep(q: seq<Event>, capacity: nat, op: Op): (seq<Event>, seq<Event>)
    requires |q| <= capacity
  {
    match op
    case Offer(pending, torn) => ([], if torn then q else q + pending[..Min(|pending|, capacity - |q|)])
    case Fail(_) => ([], q)
    case Remove => if q == [] then ([], []) else ([q[0]], q[1..])
  }

  function FifoRun(q: seq<Event>, capacity: nat, ops: seq<Op>): (r: (seq<Event>, seq<Event>))
    requires |q| <= capacity
    ensures |r.1| <= capacity
  {
    if ops == [] then ([], q)
    else
      var (d, q1) := FifoRun(q, capacity, ops[..|ops| - 1]);
      var (d2, q2) := FifoStep(q1, capacity, ops[|ops| - 1]);
      (d + d2, q2)
  }

  /** The events that were read while there was room, in order. */
  function Accepted(q: seq<Event>, capacity: nat, ops: seq<Op>): seq<Event>
    requires |q| <= capacity
  {
    if ops == [] then []
    else
      var (init, op) := (ops[..|ops| - 1], ops[|ops| - 1]);
      var (_, q1) := FifoRun(q, capacity, init);
      Accepted(q, capacity, init)
      + if op.Offer? && !op.torn then op.pending[..Min(|op.pending|, capacity - |q1|)] else []
  }

  /** Nothing is lost, duplicated or reordered: what comes out followed by what is left is what
    * was there followed by what was read. */
  lemma {:induction false} FifoConserves(q: seq<Event>, capacity: nat, ops: seq<Op>)
    requires |q| <= capacity
    ensures var (d, q') := FifoRun(q, capacity, ops); d + q' == q + Accepted(q, capacity, ops)
  {
    if ops != [] {
      var init, op := ops[..|ops| - 1], ops[|ops| - 1];
      FifoConserves(q, capacity, init);
      var (d, q1) := FifoRun(q, capacity, init);
      var (d2, q2) := FifoStep(q1, capacity, op);
      var more := if op.Offer? && !op.torn then op.pending[..Min(|op.pending|, capacity - |q1|)] else [];
      assert d2 + q2 == q1 + more;
      Regroup(q, Accepted(q, capacity, init), d, q1, more, d2, q2);
    }
  }

  lemma Regroup(q: seq<Event>, accepted: seq<Event>, d: seq<Event>, q1: seq<Event>, more: seq<Event>, d2: seq<Event>,
                q2: seq<Event>)
    requires d + q1 == q + accepted && d2 + q2 == q1 + more
    ensures (d + d2) + q2 == q + (accepted + more)
  {
    calc {
      (d + d2) + q2;
      d + (q1 + more);
      (d + q1) + more;
      q + (accepted + more);
    }
  }

  method RunOne(ring: InputEventCircularReader, op: Op) returns (delivered: seq<Event>)
    requires ring.Valid()
    modifies ring, ring.buffer
    ensures ring.Valid()
    ensures (delivered, ring.Contents()) == FifoStep(old(ring.Contents()), ring.capacity, op)
  {
    ghost var q := ring.Contents();
    delivered := [];
    if op.Remove? {
      var event := ring.ReadEvent();
      if event.Some? {
        ring.Next();
        delivered := [event.value];
      }
    } else if ring.freeSpace > 0 {
      var r := ReadFor(op, ring.freeSpace);
      var _ := ring.Fill(r);
      assert q + [] == q;
    } else if op.Offer? {
      assert q + op.pending[..0] == q;
    }
  }

  /** The ring refines a FIFO queue of capacity N over any run of reads and removals. */
  method RunRing(ring: InputEventCircularReader, ops: seq<Op>) returns (delivered: seq<Event>)
    requires ring.Valid()
    modifies ring, ring.buffer
    ensures ring.Valid()
    ensures (delivered, ring.Contents()) == FifoRun(old(ring.Contents()), ring.capacity, ops)
  {
    delivered := [];
    ghost var q := ring.Contents();
    for k := 0 to |ops|
      invariant ring.Valid() && (delivered, ring.Contents()) == FifoRun(q, ring.capacity, ops[..k])
    {
      var d := RunOne(ring, ops[k]);
      assert ops[..k + 1][..k] == ops[..k];
      delivered := delivered + d;
    }
    assert ops[..|ops|] == ops;
  }
}
