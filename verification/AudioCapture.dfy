/** The capture pipeline of an input stream: driver periods are cut into the sizes callers ask
  * for, and optionally pass through a preprocessor that consumes what it likes. A frame is one
  * value here; the source interleaves mChannelCount samples for each.
  */
module AudioCapture {
  import opened Options

  type Frame = int

  const PERIOD: nat := 1024      // AUDIO_HW_IN_PERIOD_SZ
  const NO_INIT: int := -19      // -ENODEV

  /** `n` frames of the stream `source`, from position `from` on. */
  function Slice(source: nat -> Frame, from: nat, n: nat): (s: seq<Frame>)
    ensures |s| == n && forall k :: 0 <= k < n ==> s[k] == source(from + k)
  {
    seq(n, k requires 0 <= k < n => source(from + k))
  }

  lemma SliceJoins(source: nat -> Frame, from: nat, n: nat, m: nat)
    ensures Slice(source, from, n) + Slice(source, from + n, m) == Slice(source, from, n + m)
  {
    var joined := Slice(source, from, n) + Slice(source, from + n, m);
    forall k | 0 <= k < n + m ensures joined[k] == source(from + k) {
      if k >= n { assert joined[k] == Slice(source, from + n, m)[k - n]; }
    }
  }

  function Min(a: nat, b: nat): nat { if a <= b then a else b }

  class CaptureStream {
    // The driver: the frames it delivers, and the result of each pcm_read (errors are negative).
    const source: nat -> Frame
    const status: nat -> int

    var pcmOpen: bool              // mPcm != NULL
    const mInputBuf: array<Frame>
    var mInputFramesIn: nat
    var mReadStatus: int
    var pcmReads: nat                 // calls of pcm_read so far
    var periods: nat               // those that succeeded

    ghost predicate Valid()
      reads this, mInputBuf
    {
      && mInputBuf.Length == PERIOD
      && mInputFramesIn <= PERIOD
      && mInputFramesIn <= periods * PERIOD
      && (forall k :: status(k) <= 0)
      && mReadStatus <= 0
      && (pcmOpen && mInputFramesIn > 0 ==> mReadStatus == 0)
      && (forall k :: PERIOD - mInputFramesIn <= k < PERIOD ==> mInputBuf[k] == source((periods - 1) * PERIOD + k))
    }

    /** How many of the driver's frames have left the input buffer. */
    ghost function Taken(): nat
      reads this, mInputBuf
      requires Valid()
    {
      periods * PERIOD - mInputFramesIn
    }

    constructor (source: nat -> Frame, status: nat -> int)
      requires forall k :: status(k) <= 0
      ensures Valid() && Taken() == 0 && !pcmOpen && fresh(mInputBuf)
      ensures this.source == source && this.status == status
    {
      this.source, this.status := source, status;
      mInputBuf := new Frame[PERIOD];
      pcmOpen, mInputFramesIn, mReadStatus, pcmReads, periods := false, 0, 0, 0, 0;
    }

    /** The input-buffer part of open_l: frames left over from the last session are dropped. */
    method OpenSession()
      requires Valid()
      modifies this
      ensures Valid() && pcmOpen
      ensures Taken() == periods * PERIOD && periods == old(periods) && pcmReads == old(pcmReads)
    {
      pcmOpen := true;
      mInputFramesIn := 0;
    }

    /** pcm_read of one period into the input buffer. */
    method PcmRead()
      requires Valid() && mInputFramesIn == 0
      modifies this, mInputBuf
      ensures Valid() && pcmOpen == old(pcmOpen) && Taken() == old(Taken())
      ensures pcmReads == old(pcmReads) + 1 && mReadStatus == status(old(pcmReads))
      ensures mInputFramesIn == if mReadStatus == 0 then 1024 else 0
    {
      mReadStatus := status(pcmReads);
      pcmReads := pcmReads + 1;
      if mReadStatus == 0 {
        forall k | 0 <= k < PERIOD {
          mInputBuf[k] := source(periods * PERIOD + k);
        }
        periods := periods + 1;
        mInputFramesIn := PERIOD;
      }
    }

    /** Offers up to `request` frames, starting at the returned offset of the input buffer. */
    method GetNextBuffer(request: nat) returns (raw: Option<nat>, count: nat)
      requires Valid()
      modifies this, mInputBuf
      ensures Valid() && pcmOpen == old(pcmOpen)
      ensures Taken() == old(Taken())
      ensures raw.Some? <==> mReadStatus == 0
      ensures raw.None? ==> count == 0
      ensures raw.Some? ==>
                && raw.value + count <= PERIOD && count <= mInputFramesIn
                && count == Min(request, if old(mInputFramesIn) == 0 then 1024 else old(mInputFramesIn))
                && mInputBuf[raw.value..raw.value + count] == Slice(source, Taken(), count)
      ensures !pcmOpen ==> mReadStatus == -19
      ensures pcmReads == old(pcmReads) + (if pcmOpen && old(mInputFramesIn) == 0 then 1 else 0)
      ensures pcmReads > old(pcmReads) ==> mReadStatus == status(old(pcmReads))
      ensures pcmOpen && pcmReads == old(pcmReads) ==> mReadStatus == 0
    {
      if !pcmOpen {
        mReadStatus := NO_INIT;
        return None, 0;
      }
      if mInputFramesIn == 0 {
        PcmRead();
        if mReadStatus != 0 {
          return None, 0;
        }
      }
      count := if request > mInputFramesIn then mInputFramesIn else request;
      raw := Some(PERIOD - mInputFramesIn);
      assert mInputBuf[raw.value..raw.value + count] == Slice(source, Taken(), count);
    }

    method ReleaseBuffer(count: nat)
      requires Valid() && count <= mInputFramesIn
      modifies this
      ensures Valid() && Taken() == old(Taken()) + count
      ensures pcmOpen == old(pcmOpen) && pcmReads == old(pcmReads) && mReadStatus == old(mReadStatus)
    {
      mInputFramesIn := mInputFramesIn - count;
    }

    /** One pass of readFrames' loop: copies the frames that the driver offers, at least one
      * unless it fails. */
    method CopyNext(buffer: array<Frame>, at: nat, want: nat) returns (count: nat)
      requires Valid() && buffer != mInputBuf && 0 < want && at + want <= buffer.Length
      modifies this, mInputBuf, buffer
      ensures Valid() && pcmOpen == old(pcmOpen)
      ensures count <= want && (mReadStatus == 0 ==> count > 0) && (mReadStatus != 0 ==> count == 0)
      ensures Taken() == old(Taken()) + count
      ensures forall k :: 0 <= k < buffer.Length ==>
                buffer[k] == if at <= k < at + count then source(old(Taken()) + k - at) else old(buffer[k])
      ensures pcmOpen && (forall k :: old(pcmReads) <= k ==> status(k) == 0) ==> mReadStatus == 0
      ensures !pcmOpen ==> mReadStatus == -19
      ensures pcmReads >= old(pcmReads)
      ensures pcmOpen && mReadStatus != 0 ==> pcmReads > old(pcmReads) && mReadStatus == status(pcmReads - 1)
    {
      var raw;
      raw, count := GetNextBuffer(want);
      if raw.Some? {
        ghost var chunk := mInputBuf[raw.value..raw.value + count];
        forall k | 0 <= k < count {
          buffer[at + k] := mInputBuf[raw.value + k];
        }
        assert forall k :: 0 <= k < count ==> buffer[at + k] == chunk[k];
        assert mInputBuf[raw.value..raw.value + count] == chunk;
      }
      ReleaseBuffer(count);
    }

    /** Without a resampler: copies exactly the next `frames` frames of the driver's stream, or
      * stops at a driver error. */
    method ReadFrames(buffer: array<Frame>, off: nat, frames: int) returns (r: int)
      requires Valid() && buffer != mInputBuf
      requires frames > 0 ==> off + frames <= buffer.Length
      modifies this, mInputBuf, buffer
      ensures Valid() && pcmOpen == old(pcmOpen)
      ensures frames <= 0 ==> r == 0
      ensures r >= 0 && frames > 0 ==> r == frames
      ensures r >= 0 ==> Taken() == old(Taken()) + r
      ensures r >= 0 ==> forall k :: 0 <= k < buffer.Length ==>
                buffer[k] == if off <= k < off + r then source(old(Taken()) + k - off) else old(buffer[k])
      ensures r < 0 ==> r == mReadStatus && Taken() >= old(Taken())
      ensures frames > 0 && !pcmOpen ==> r == -19
      ensures r < 0 && pcmOpen ==> pcmReads > old(pcmReads) && r == status(pcmReads - 1)
      ensures pcmOpen && (forall k :: old(pcmReads) <= k ==> status(k) == 0) ==> r >= 0
      ensures pcmReads >= old(pcmReads)
    {
      var framesWr := 0;
      ghost var from := Taken();
      while framesWr < frames
        invariant Valid() && pcmOpen == old(pcmOpen)
        invariant 0 <= framesWr && (if frames > 0 then framesWr <= frames else framesWr == 0)
        invariant Taken() == from + framesWr
        invariant forall k :: 0 <= k < buffer.Length ==>
                    buffer[k] == if off <= k < off + framesWr then source(from + k - off) else old(buffer[k])
        invariant pcmReads >= old(pcmReads) && (!pcmOpen ==> framesWr == 0)
      {
        var framesRd := CopyNext(buffer, off + framesWr, frames - framesWr);
        if mReadStatus != 0 {
          return mReadStatus;
        }
        framesWr := framesWr + framesRd;
      }
      return framesWr;
    }
  }

  function Sum(ns: seq<nat>): nat { if ns == [] then 0 else ns[0] + Sum(ns[1..]) }

  function Concat(chunks: seq<seq<Frame>>): seq<Frame> {
    if chunks == [] then [] else chunks[0] + Concat(chunks[1..])
  }

  lemma {:induction false} ConcatAppend(chunks: seq<seq<Frame>>, chunk: seq<Frame>)
    ensures Concat(chunks + [chunk]) == Concat(chunks) + chunk
  {
    if chunks == [] {
      assert chunks + [chunk] == [chunk];
    } else {
      ConcatAppend(chunks[1..], chunk);
      assert (chunks + [chunk])[1..] == chunks[1..] + [chunk];
    }
  }

  lemma {:induction false} SumAppend(ns: seq<nat>, n: nat)
    ensures Sum(ns + [n]) == Sum(ns) + n
  {
    if ns == [] {
      assert ns + [n] == [n];
    } else {
      SumAppend(ns[1..], n);
      assert (ns + [n])[1..] == ns[1..] + [n];
    }
  }

  method ReadOne(stream: CaptureStream, n: nat) returns (chunk: seq<Frame>)
    requires stream.Valid() && stream.pcmOpen
    requires forall k :: stream.pcmReads <= k ==> stream.status(k) == 0
    modifies stream, stream.mInputBuf
    ensures stream.Valid() && stream.pcmOpen && stream.pcmReads >= old(stream.pcmReads)
    ensures chunk == Slice(stream.source, old(stream.Taken()), n) && stream.Taken() == old(stream.Taken()) + n
  {
    var buffer := new Frame[n];
    var r := stream.ReadFrames(buffer, 0, n);
    chunk := buffer[..];
  }

  lemma NoRequests(source: nat -> Frame, from: nat)
    ensures Sum([]) == 0 && Concat([]) == Slice(source, from, 0)
  {}

  /** Any sequence of reads in one session, whatever their sizes, yields consecutive slices of
    * the driver's stream without gap or overlap. */
  method ReadAll(stream: CaptureStream, requests: seq<nat>) returns (chunks: seq<seq<Frame>>)
    requires stream.Valid() && stream.pcmOpen
    requires forall k :: stream.pcmReads <= k ==> stream.status(k) == 0
    modifies stream, stream.mInputBuf
    ensures stream.Valid()
    ensures |chunks| == |requests| && forall i :: 0 <= i < |chunks| ==> |chunks[i]| == requests[i]
    ensures Concat(chunks) == Slice(stream.source, old(stream.Taken()), Sum(requests))
    ensures stream.Taken() == old(stream.Taken()) + Sum(requests)
  {
    hide Slice, Concat, Sum;
    chunks := [];
    ghost var from := stream.Taken();
    NoRequests(stream.source, from);
    for j := 0 to |requests|
      invariant stream.Valid() && stream.pcmOpen && stream.pcmReads >= old(stream.pcmReads)
      invariant |chunks| == j && forall i :: 0 <= i < j ==> |chunks[i]| == requests[i]
      invariant stream.Taken() == from + Sum(requests[..j])
      invariant Concat(chunks) == Slice(stream.source, from, Sum(requests[..j]))
    {
      var chunk := ReadOne(stream, requests[j]);
      SliceJoins(stream.source, from, Sum(requests[..j]), requests[j]);
      ConcatAppend(chunks, chunk);
      SumAppend(requests[..j], requests[j]);
      assert requests[..j + 1] == requests[..j] + [requests[j]];
      chunks := chunks + [chunk];
    }
    assert requests[..|requests|] == requests;
  }

  // ----- preprocessing -----

  /** One call of the preprocessor: what it was offered, how much of it it consumed, and what it
    * put out. */
  datatype Call = Call(offered: seq<Frame>, consumed: nat, produced: seq<Frame>)

  ghost predicate CallsOk(calls: seq<Call>) {
    forall i :: 0 <= i < |calls| ==> calls[i].consumed <= |calls[i].offered|
  }

  ghost function Consumed(calls: seq<Call>): seq<Frame>
    requires CallsOk(calls)
  {
    if calls == [] then []
    else
      var last := calls[|calls| - 1];
      Consumed(calls[..|calls| - 1]) + last.offered[..last.consumed]
  }

  ghost function Produced(calls: seq<Call>): seq<Frame> {
    if calls == [] then [] else Produced(calls[..|calls| - 1]) + calls[|calls| - 1].produced
  }

  /** What the preprocessor does with each call; it takes no more than it is offered and puts out
    * no more than there is room for. */
  datatype Reaction = Reaction(consume: nat, produce: seq<Frame>)

  /** Without a driver error, what was left over (`left`) followed by what was read is exactly
    * what was consumed followed by what is left over `now`. */
  ghost predicate Conserved(left: seq<Frame>, read: seq<Frame>, calls: seq<Call>, now: seq<Frame>) {
    CallsOk(calls) && left + read == Consumed(calls) + now
  }

  lemma ReadConserves(left: seq<Frame>, read: seq<Frame>, calls: seq<Call>, now: seq<Frame>, more: seq<Frame>)
    requires Conserved(left, read, calls, now)
    ensures Conserved(left, read + more, calls, now + more)
  {
    assert left + (read + more) == (left + read) + more;
    assert Consumed(calls) + (now + more) == (Consumed(calls) + now) + more;
  }

  lemma CallConserves(left: seq<Frame>, read: seq<Frame>, calls: seq<Call>, call: Call, reaction: Reaction)
    requires Conserved(left, read, calls, call.offered) && Follows(call, reaction)
    ensures Conserved(left, read, calls + [call], call.offered[call.consumed..])
  {
    var calls', head, tail := calls + [call], call.offered[..call.consumed], call.offered[call.consumed..];
    assert calls'[..|calls|] == calls && calls'[|calls|] == call;
    assert CallsOk(calls');
    assert Consumed(calls') == Consumed(calls) + head;
    Associative(Consumed(calls), head, tail);
    assert head + tail == call.offered;
    hide Consumed, CallsOk;
  }

  lemma Associative(a: seq<Frame>, b: seq<Frame>, c: seq<Frame>)
    ensures (a + b) + c == a + (b + c)
  {}

  /** The calls follow the reactions, and their output is what the destination received. */
  ghost predicate Delivered(now: seq<Frame>, was: seq<Frame>, off: nat, calls: seq<Call>, reactions: seq<Reaction>) {
    var n := |Produced(calls)|;
    && off + n <= |was| && |calls| <= |reactions|
    && (forall i :: 0 <= i < |calls| ==> Follows(calls[i], reactions[i]))
    && now == was[..off] + Produced(calls) + was[off + n..]
  }

  predicate Follows(call: Call, reaction: Reaction) {
    call.consumed == Min(reaction.consume, |call.offered|) && call.produced <= reaction.produce
  }

  lemma CallDelivers(now: seq<Frame>, was: seq<Frame>, off: nat, calls: seq<Call>, reactions: seq<Reaction>, call: Call)
    requires Delivered(now, was, off, calls, reactions) && |calls| < |reactions|
    requires Follows(call, reactions[|calls|])
    requires off + |Produced(calls)| + |call.produced| <= |was|
    ensures var at := off + |Produced(calls)|;
            Delivered(now[..at] + call.produced + now[at + |call.produced|..], was, off, calls + [call], reactions)
    ensures |Produced(calls + [call])| == |Produced(calls)| + |call.produced|
  {
    var calls', out := calls + [call], Produced(calls);
    assert calls'[..|calls|] == calls && calls'[|calls|] == call;
    assert Produced(calls') == out + call.produced;
    hide Produced, Follows;
    var rest := was[off + |out|..];
    Spliced(was[..off], out, rest, call.produced);
    assert rest[|call.produced|..] == was[off + |out + call.produced|..];
  }

  /** Writing behind what has been written. */
  lemma Spliced(front: seq<Frame>, out: seq<Frame>, rest: seq<Frame>, more: seq<Frame>)
    requires |more| <= |rest|
    ensures var now, at := front + out + rest, |front| + |out|;
            now[..at] + more + now[at + |more|..] == front + (out + more) + rest[|more|..]
  {
    var now, at := front + out + rest, |front| + |out|;
    assert now[..at] == front + out;
    assert now[at + |more|..] == rest[|more|..];
    Associative(front, out, more);
  }

  lemma NothingYet(left: seq<Frame>, was: seq<Frame>, off: nat, reactions: seq<Reaction>)
    requires off <= |was|
    ensures Conserved(left, [], [], left) && Delivered(was, was, off, [], reactions) && Produced([]) == []
  {
    assert left + [] == Consumed([]) + left;
    assert was == was[..off] + Produced([]) + was[off..];
  }

  method WriteAt(buffer: array<Frame>, at: nat, data: seq<Frame>)
    requires at + |data| <= buffer.Length
    modifies buffer
    ensures buffer[..] == old(buffer[..at]) + data + old(buffer[at + |data|..])
  {
    forall k | 0 <= k < |data| {
      buffer[at + k] := data[k];
    }
  }

  class ProcessedStream {
    const input: CaptureStream
    var mProcBuf: array<Frame>
    var mProcBufSize: nat
    var mProcFramesIn: nat

    ghost predicate Valid()
      reads this, input, input.mInputBuf
    {
      && input.Valid()
      && mProcBuf != input.mInputBuf
      && mProcBufSize <= mProcBuf.Length
      && (input.pcmOpen ==> mProcFramesIn <= mProcBufSize)
    }

    ghost function Leftover(): seq<Frame>
      reads this, input, input.mInputBuf, mProcBuf
      requires Valid() && input.pcmOpen
    {
      mProcBuf[..mProcFramesIn]
    }

    constructor (input: CaptureStream)
      requires input.Valid()
      ensures Valid() && this.input == input && mProcFramesIn == 0 && fresh(mProcBuf)
    {
      this.input := input;
      mProcBuf := new Frame[0];
      mProcBufSize, mProcFramesIn := 0, 0;
    }

    /** close_l: the process buffer goes, but its fill count stays until the next open. */
    method Close()
      requires Valid()
      modifies this, input
      ensures Valid() && !input.pcmOpen && mProcBufSize == 0 && mProcFramesIn == old(mProcFramesIn) && fresh(mProcBuf)
    {
      mProcBuf := new Frame[0];
      mProcBufSize := 0;
      input.pcmOpen := false;
    }

    method Open()
      requires Valid()
      modifies this, input
      ensures Valid() && input.pcmOpen && Leftover() == [] && mProcBuf == old(mProcBuf)
    {
      input.OpenSession();
      mProcBufSize, mProcFramesIn := 0, 0;
    }

    /** realloc to `frames` frames: the old contents stay in front. */
    method Grow(frames: nat)
      requires Valid() && input.pcmOpen && mProcBufSize < frames
      modifies this
      ensures Valid() && input.pcmOpen && fresh(mProcBuf)
      ensures mProcBufSize == frames && mProcFramesIn == old(mProcFramesIn) && Leftover() == old(Leftover())
    {
      var grown := new Frame[frames];
      var i := 0;
      while i < mProcFramesIn
        invariant 0 <= i <= mProcFramesIn && mProcBuf == old(mProcBuf) && mProcFramesIn == old(mProcFramesIn)
        invariant forall k :: 0 <= k < i ==> grown[k] == mProcBuf[k]
        invariant mProcBuf[..] == old(mProcBuf[..])
      {
        grown[i] := mProcBuf[i];
        i := i + 1;
      }
      mProcBuf, mProcBufSize := grown, frames;
    }

    /** The reload step: if fewer than `frames` frames are waiting, grows the buffer if needed and
      * tops it up. */
    method Reload(frames: nat) returns (framesRd: int)
      requires Valid() && input.pcmOpen
      modifies this, input, input.mInputBuf, mProcBuf
      ensures Valid() && input.pcmOpen && (mProcBuf == old(mProcBuf) || fresh(mProcBuf))
      ensures framesRd >= 0 ==>
                && mProcFramesIn == old(mProcFramesIn) + framesRd >= frames
                && (old(mProcFramesIn) >= frames ==> framesRd == 0)
                && (old(mProcFramesIn) <= frames ==> mProcFramesIn == frames)
                && input.Taken() == old(input.Taken()) + framesRd
                && Leftover() == old(Leftover()) + Slice(input.source, old(input.Taken()), framesRd)
      ensures framesRd < 0 ==> framesRd == input.mReadStatus
      ensures input.pcmReads >= old(input.pcmReads)
      ensures (forall k :: old(input.pcmReads) <= k ==> input.status(k) == 0) ==> framesRd >= 0
    {
      ghost var left := Leftover();
      if mProcFramesIn >= frames {
        assert left + Slice(input.source, input.Taken(), 0) == left;
        return 0;
      }
      if mProcBufSize < frames { Grow(frames); }
      assert mProcBuf[..mProcFramesIn] == left;
      framesRd := input.ReadFrames(mProcBuf, mProcFramesIn, frames - mProcFramesIn);
      if framesRd >= 0 {
        assert mProcBuf[..mProcFramesIn] == left;
        assert mProcBuf[mProcFramesIn..frames] == Slice(input.source, old(input.Taken()), framesRd);
        hide Slice;
        mProcFramesIn := mProcFramesIn + framesRd;
        assert mProcBuf[..frames] == mProcBuf[..frames - framesRd] + mProcBuf[frames - framesRd..frames];
      }
    }

    /** The shift step: drops what the preprocessor consumed from the front (as memmove does). */
    method Shift(consumed: nat)
      requires Valid() && input.pcmOpen && consumed <= mProcFramesIn
      modifies this, mProcBuf
      ensures Valid() && input.pcmOpen && mProcBuf == old(mProcBuf)
      ensures Leftover() == old(Leftover())[consumed..]
    {
      mProcFramesIn := mProcFramesIn - consumed;
      forall k | 0 <= k < mProcFramesIn {
        mProcBuf[k] := mProcBuf[k + consumed];
      }
    }

    /** The preprocessor's turn: it reads the front of the process buffer and writes to `buffer`. */
    method Preprocess(buffer: array<Frame>, at: nat, room: nat, reaction: Reaction) returns (n: nat, ghost call: Call)
      requires Valid() && input.pcmOpen && buffer != input.mInputBuf && buffer != mProcBuf
      requires at + room <= buffer.Length
      modifies this, mProcBuf, buffer
      ensures Valid() && input.pcmOpen && mProcBuf == old(mProcBuf) && input.Taken() == old(input.Taken())
      ensures n == |call.produced| <= room && (n < room ==> call.produced == reaction.produce)
      ensures call.offered == old(Leftover()) && Follows(call, reaction)
      ensures Leftover() == call.offered[call.consumed..]
      ensures buffer[..] == old(buffer[..])[..at] + call.produced + old(buffer[..])[at + n..]
    {
      n := Min(|reaction.produce|, room);
      var consumed := Min(reaction.consume, mProcFramesIn);
      call := Call(Leftover(), consumed, reaction.produce[..n]);
      WriteAt(buffer, at, reaction.produce[..n]);
      assert Leftover() == call.offered;
      Shift(consumed);
    }

    /** Reload, seen from the frames read since the call began. */
    method Refill(frames: nat, ghost first: seq<Frame>, ghost from: nat, ghost read: seq<Frame>, ghost calls: seq<Call>)
      returns (framesRd: int, ghost read': seq<Frame>)
      requires Valid() && input.pcmOpen && input.Taken() == from + |read| && read == Slice(input.source, from, |read|)
      requires Conserved(first, read, calls, Leftover())
      modifies this, input, input.mInputBuf, mProcBuf
      ensures Valid() && input.pcmOpen && (mProcBuf == old(mProcBuf) || fresh(mProcBuf))
      ensures input.pcmReads >= old(input.pcmReads)
      ensures framesRd >= 0 ==>
                && input.Taken() == from + |read'| && read' == Slice(input.source, from, |read'|)
                && Conserved(first, read', calls, Leftover())
      ensures framesRd < 0 ==> framesRd == input.mReadStatus
      ensures (forall k :: old(input.pcmReads) <= k ==> input.status(k) == 0) ==> framesRd >= 0
    {
      hide Conserved, Slice;
      ghost var had := Leftover();
      framesRd := Reload(frames);
      read' := read;
      if framesRd >= 0 {
        SliceJoins(input.source, from, |read|, framesRd);
        ReadConserves(first, read, calls, had, Slice(input.source, from + |read|, framesRd));
        read' := Slice(input.source, from, |read| + framesRd);
      }
    }

    /** processFrames with one preprocessor. `reactions` is what that does on successive calls;
      * `running` says that they ran out before the request was met. A normal return delivers the
      * whole request. */
    method ProcessFrames(buffer: array<Frame>, off: nat, frames: nat, reactions: seq<Reaction>)
      returns (r: int, running: bool, ghost calls: seq<Call>)
      requires Valid() && input.pcmOpen && buffer != input.mInputBuf && buffer != mProcBuf
      requires off + frames <= buffer.Length
      modifies this, input, input.mInputBuf, mProcBuf, buffer
      ensures Valid() && input.pcmOpen && mProcFramesIn <= mProcBufSize
      ensures r >= 0 ==>
                && input.Taken() >= old(input.Taken())
                && Conserved(old(Leftover()),
                             Slice(input.source, old(input.Taken()), input.Taken() - old(input.Taken())),
                             calls, Leftover())
      ensures Delivered(buffer[..], old(buffer[..]), off, calls, reactions)
      ensures r >= 0 ==> r == |Produced(calls)| <= frames
      ensures r >= 0 && !running ==> r == frames
      ensures running ==> |calls| == |reactions|
      ensures r < 0 ==> r == input.mReadStatus
      ensures (forall k :: old(input.pcmReads) <= k ==> input.status(k) == 0) ==> r >= 0
    {
      hide Conserved, Delivered, Follows, Produced, Slice;
      var framesWr, next := 0, 0;
      calls := [];
      NothingYet(Leftover(), buffer[..], off, reactions);
      ghost var from := input.Taken();
      ghost var read := Slice(input.source, from, 0);
      ghost var was := buffer[..];
      while framesWr < frames
        invariant Valid() && input.pcmOpen && input.pcmReads >= old(input.pcmReads)
        invariant mProcBuf == old(mProcBuf) || fresh(mProcBuf)
        invariant input.Taken() == from + |read| && read == Slice(input.source, from, |read|)
        invariant Conserved(old(Leftover()), read, calls, Leftover())
        invariant Delivered(buffer[..], was, off, calls, reactions)
        invariant next == |calls| <= |reactions| && framesWr == |Produced(calls)| <= frames
        decreases |reactions| - next
      {
        var framesRd;
        framesRd, read := Refill(frames, old(Leftover()), from, read, calls);
        if framesRd < 0 {
          return framesRd, false, calls;
        }
        if next == |reactions| {
          return framesWr, true, calls;
        }
        ghost var before := buffer[..];
        var framesOut;
        ghost var call;
        framesOut, call := Preprocess(buffer, off + framesWr, frames - framesWr, reactions[next]);
        CallConserves(old(Leftover()), read, calls, call, reactions[next]);
        CallDelivers(before, was, off, calls, reactions, call);
        calls, next := calls + [call], next + 1;
        framesWr := framesWr + framesOut;
      }
      return framesWr, false, calls;
    }
  }
}
