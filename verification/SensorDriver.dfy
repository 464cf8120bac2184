/** The sensor drivers: each decodes the raw input events in its ring into samples, and can be
  * cut off after any number of them. The five drivers differ only in how an event updates the
  * pending sample. Conversions to float are left out: a sample keeps the raw values.
  */
module SensorDriver {
  import opened Options
  import opened SensorRing

  datatype Kind = Light | Proximity | Accelerometer | Magnetometer | Orientation

  /** A sample names its sensor, as sensors_event_t does. */
  datatype Sample = Sample(kind: Kind, x: int, y: int, z: int)

  const EV_SYN := 0
  const EV_REL := 2
  const EV_ABS := 3
  const CODE_X := 0              // ABS_X, REL_X
  const CODE_Y := 1
  const CODE_Z := 2
  const ABS_DISTANCE := 0x19
  const ABS_MISC := 0x28

  /** How an event other than EV_SYN updates the pending sample. Unknown types are only logged. */
  function Update(kind: Kind, s: Sample, e: Event): Sample {
    match kind
    case Light => if e.kind == EV_ABS && e.code == ABS_MISC then s.(x := e.value) else s
    case Proximity => if e.kind == EV_ABS && e.code == ABS_DISTANCE && e.value != -1 then s.(x := e.value) else s
    case _ =>
      if e.kind != EV_REL then s
      else if e.code == CODE_X then s.(x := e.value)
      else if e.code == CODE_Y then s.(y := e.value)
      else if e.code == CODE_Z then s.(z := e.value)
      else s
  }

  /** The reference decoder: one pass over raw events, giving the samples that an enabled driver
    * reports and the pending sample at the end. */
  function Decode(kind: Kind, enabled: bool, s: Sample, events: seq<Event>): (Sample, seq<Sample>) {
    if events == [] then (s, [])
    else
      var (s', out) := Decode(kind, enabled, s, events[..|events| - 1]);
      var e := events[|events| - 1];
      if e.kind == EV_SYN then (s', if enabled then out + [s'] else out)
      else (Update(kind, s', e), out)
  }

  lemma {:induction false} DecodeJoins(kind: Kind, enabled: bool, s: Sample, a: seq<Event>, b: seq<Event>)
    ensures var (s1, out1) := Decode(kind, enabled, s, a);
            var (s2, out2) := Decode(kind, enabled, s1, b);
            Decode(kind, enabled, s, a + b) == (s2, out1 + out2)
  {
    var (s1, out1) := Decode(kind, enabled, s, a);
    if b == [] {
      assert a + b == a && out1 + [] == out1;
    } else {
      var b' := b[..|b| - 1];
      DecodeJoins(kind, enabled, s, a, b');
      assert (a + b)[..|a + b| - 1] == a + b';
      var (s2, out2) := Decode(kind, enabled, s1, b');
      assert out1 + (out2 + [s2]) == (out1 + out2) + [s2];
    }
  }

  // -------- what the samples mean

  /** The value that `kind` and `code` were last reported with. */
  function LastReport(events: seq<Event>, kind: int, code: int): Option<int> {
    if events == [] then None
    else
      var e := events[|events| - 1];
      if e.kind == kind && e.code == code then Some(e.value) else LastReport(events[..|events| - 1], kind, code)
  }

  /** The events without the proximity reports that mean nothing. */
  function Meant(events: seq<Event>): seq<Event> {
    if events == [] then []
    else
      var rest, e := Meant(events[..|events| - 1]), events[|events| - 1];
      if e.kind == 3 && e.code == 0x19 && e.value == -1 then rest else rest + [e]
  }

  function Else(report: Option<int>, before: int): int { if report.Some? then report.value else before }

  /** The sample that events amount to: each axis has what was last reported for it, or what it had. */
  function Snapshot(kind: Kind, s: Sample, events: seq<Event>): Sample {
    match kind
    case Light => s.(x := Else(LastReport(events, 3, 0x28), s.x))
    case Proximity => s.(x := Else(LastReport(Meant(events), 3, 0x19), s.x))
    case _ => s.(x := Else(LastReport(events, 2, 0), s.x),
                 y := Else(LastReport(events, 2, 1), s.y),
                 z := Else(LastReport(events, 2, 2), s.z))
  }

  /** How many reports the events complete. */
  function Syns(events: seq<Event>): nat {
    if events == [] then 0
    else Syns(events[..|events| - 1]) + (if events[|events| - 1].kind == 0 then 1 else 0)
  }

  lemma SnapshotNext(kind: Kind, s: Sample, events: seq<Event>, e: Event)
    ensures Snapshot(kind, s, events + [e]) ==
            if e.kind == EV_SYN then Snapshot(kind, s, events) else Update(kind, Snapshot(kind, s, events), e)
  {
    var all := events + [e];
    assert all[..|all| - 1] == events;
    if Meant(all) != Meant(events) {
      assert Meant(all)[..|Meant(all)| - 1] == Meant(events);
    }
  }

  /** The pending sample is what the events amount to; and an enabled driver reports, for each EV_SYN,
    * what the events before it amount to. */
  lemma {:induction false} DecodeMeans(kind: Kind, enabled: bool, s: Sample, events: seq<Event>)
    ensures var (s', out) := Decode(kind, enabled, s, events);
            && s' == Snapshot(kind, s, events)
            && |out| == (if enabled then Syns(events) else 0)
            && forall p :: 0 <= p < |events| && events[p].kind == 0 && enabled ==>
                 Syns(events[..p]) < |out| && out[Syns(events[..p])] == Snapshot(kind, s, events[..p])
  {
    if events != [] {
      var init, e := events[..|events| - 1], events[|events| - 1];
      DecodeMeans(kind, enabled, s, init);
      SnapshotNext(kind, s, init, e);
      assert events == init + [e];
      hide Snapshot, Update;
      var out := Decode(kind, enabled, s, events).1;
      forall p | 0 <= p < |events| && events[p].kind == 0 && enabled
        ensures Syns(events[..p]) < |out| && out[Syns(events[..p])] == Snapshot(kind, s, events[..p])
      {
        if p < |init| { assert events[..p] == init[..p] && init[p] == events[p]; }
      }
    }
  }

  /** What a driver is, apart from its ring's layout. `enabled` is an int that need not be 0 or 1:
    * the magnetometer's constructor does not set it. */
  datatype DriverState = DriverState(kind: Kind, pending: Sample, hasPending: bool, enabled: int, queue: seq<Event>)

  const RING := 4                // events in a driver's ring

  /** readEvents' loop: it stops after `count` samples or at the end of the queue. The result is the
    * pending sample, the rest of the queue and the samples handed out. */
  function Drain(kind: Kind, enabled: bool, s: Sample, queue: seq<Event>, count: nat): (Sample, seq<Event>, seq<Sample>)
    decreases |queue|
  {
    if count == 0 || queue == [] then (s, queue, [])
    else if queue[0].kind == EV_SYN then
      var (s', rest, out) := Drain(kind, enabled, s, queue[1..], if enabled then count - 1 else count);
      (s', rest, if enabled then [s] + out else out)
    else Drain(kind, enabled, Update(kind, s, queue[0]), queue[1..], count)
  }

  /** The part of the queue that was used up. */
  function Used(queue: seq<Event>, rest: seq<Event>): seq<Event> {
    if |rest| <= |queue| then queue[..|queue| - |rest|] else []
  }

  /** The loop gives what one pass over the events it used up gives, and leaves events behind only
    * if it has given as many samples as were asked for. */
  lemma {:induction false} DrainDecodes(kind: Kind, enabled: bool, s: Sample, queue: seq<Event>, count: nat)
    ensures var (s', rest, out) := Drain(kind, enabled, s, queue, count);
            && queue == Used(queue, rest) + rest
            && Decode(kind, enabled, s, Used(queue, rest)) == (s', out)
            && |out| <= count && (|out| < count ==> rest == [])
    decreases |queue|
  {
    hide Decode, Update, Used;
    if count > 0 && queue != [] {
      var e, tail := queue[0], queue[1..];
      var s1 := if e.kind == EV_SYN then s else Update(kind, s, e);
      var count' := if e.kind == EV_SYN && enabled then count - 1 else count;
      DrainDecodes(kind, enabled, s1, tail, count');
      var (s', rest, out) := Drain(kind, enabled, s1, tail, count');
      UsedFirst(queue, rest);
      DecodeFirst(kind, enabled, s, e, Used(tail, rest));
    } else {
      NothingUsed(kind, enabled, s, queue);
    }
  }

  lemma UsedFirst(queue: seq<Event>, rest: seq<Event>)
    requires queue != [] && queue[1..] == Used(queue[1..], rest) + rest
    ensures Used(queue, rest) == [queue[0]] + Used(queue[1..], rest) && queue == Used(queue, rest) + rest
  {}

  lemma NothingUsed(kind: Kind, enabled: bool, s: Sample, queue: seq<Event>)
    ensures queue == Used(queue, queue) + queue && Decode(kind, enabled, s, Used(queue, queue)) == (s, [])
  {}

  lemma DecodeFirst(kind: Kind, enabled: bool, s: Sample, e: Event, events: seq<Event>)
    ensures var s1 := if e.kind == EV_SYN then s else Update(kind, s, e);
            var (s', out) := Decode(kind, enabled, s1, events);
            Decode(kind, enabled, s, [e] + events) == (s', if e.kind == EV_SYN && enabled then [s] + out else out)
  {
    var one := [e];
    assert one[..|one| - 1] == [] && one[|one| - 1] == e && [] + [s] == [s];
    var s1 := if e.kind == EV_SYN then s else Update(kind, s, e);
    var first := if e.kind == EV_SYN && enabled then [s] else [];
    assert Decode(kind, enabled, s, one[..|one| - 1]) == (s, []);
    assert Decode(kind, enabled, s, one) == (s1, first);
    DecodeJoins(kind, enabled, s, one, events);
    var out := Decode(kind, enabled, s1, events).1;
    assert [] + out == out;
  }

  lemma {:induction false} DrainKeepsKind(kind: Kind, enabled: bool, s: Sample, queue: seq<Event>, count: nat)
    requires s.kind == kind
    ensures var (s', _, out) := Drain(kind, enabled, s, queue, count);
            s'.kind == kind && forall k :: 0 <= k < |out| ==> out[k].kind == kind
    decreases |queue|
  {
    if count > 0 && queue != [] {
      var e := queue[0];
      DrainKeepsKind(kind, enabled, if e.kind == EV_SYN then s else Update(kind, s, e), queue[1..],
                     if e.kind == EV_SYN && enabled then count - 1 else count);
    }
  }

  /** readEvents, when `arrived` is what the read of the device delivers. A sample pending from
    * enable() goes out alone, and the device is not read. */
  function ReadSpec(st: DriverState, arrived: seq<Event>, count: nat): (r: (DriverState, seq<Sample>))
    requires count >= 1
  {
    if st.hasPending then
      (st.(hasPending := false), if st.enabled != 0 then [st.pending] else [])
    else
      var (s', rest, out) := Drain(st.kind, st.enabled != 0, st.pending, st.queue + arrived, count);
      (st.(pending := s', queue := rest), out)
  }

  /** What is read of the events that the device has: as many as the ring has room for. */
  function Arriving(st: DriverState, waiting: seq<Event>): seq<Event> {
    if st.hasPending || |st.queue| >= RING then [] else waiting[..Min(|waiting|, RING - |st.queue|)]
  }

  /** enable(): `canOpen` says whether the sysfs file could be opened, `distance` what the proximity
    * driver's initial-state ioctl returned, if it succeeded. */
  function Enabled(st: DriverState, en: int, canOpen: bool, distance: Option<int>): (DriverState, int) {
    var flags := if en != 0 then 1 else 0;
    if flags == st.enabled then (st, 0)
    else if !canOpen then (st, -1)
    else if st.kind == Proximity && distance.Some? then
      (st.(enabled := flags, hasPending := true, pending := st.pending.(x := distance.value)), 0)
    else (st.(enabled := flags), 0)
  }

  /** A driver just constructed: light and proximity enable themselves; the magnetometer's flag is
    * whatever memory held. */
  function Built(kind: Kind, flag: int, canOpen: bool, distance: Option<int>): DriverState {
    var st := DriverState(kind, Sample(kind, 0, 0, 0), false, if kind == Magnetometer then flag else 0, []);
    if kind == Light || kind == Proximity then Enabled(st, 1, canOpen, distance).0 else st
  }

  class Driver {
    const kind: Kind
    const ring: InputEventCircularReader
    var pending: Sample
    var hasPending: bool
    var enabled: int

    ghost predicate Valid()
      reads this, ring
    {
      ring.Valid() && ring.capacity == RING && pending.kind == kind
    }

    ghost function State(): DriverState
      reads this, ring, ring.buffer
      requires Valid()
    {
      DriverState(kind, pending, hasPending, enabled, ring.Contents())
    }

    constructor (kind: Kind, flag: int, canOpen: bool, distance: Option<int>)
      ensures Valid() && fresh(ring) && fresh(ring.buffer) && this.kind == kind
      ensures State() == Built(kind, flag, canOpen, distance)
      ensures enabled == (if kind == Light || kind == Proximity then (if canOpen then 1 else 0)
                          else if kind == Magnetometer then flag else 0)
      ensures pending.y == pending.z == 0 && (!hasPending ==> pending.x == 0)
      ensures hasPending <==> kind == Proximity && canOpen && distance.Some?
      ensures hasPending ==> distance == Some(pending.x)
      ensures ring.Contents() == []
    {
      this.kind := kind;
      this.ring := new InputEventCircularReader(RING);
      this.pending, this.hasPending := Sample(kind, 0, 0, 0), false;
      this.enabled := if kind == Magnetometer then flag else 0;
      new;
      if kind == Light || kind == Proximity {
        var _ := Enable(1, canOpen, distance);
      }
    }

    method Enable(en: int, canOpen: bool, distance: Option<int>) returns (r: int)
      requires Valid()
      modifies this
      ensures Valid() && (State(), r) == Enabled(old(State()), en, canOpen, distance)
    {
      var flags := if en != 0 then 1 else 0;
      if flags != enabled {
        if canOpen {
          enabled := flags;
          if kind == Proximity && distance.Some? {
            hasPending := true;
            pending := pending.(x := distance.value);
          }
          return 0;
        }
        return -1;
      }
      return 0;
    }

    /** Hands out at most `count` samples, at `data[off..]`; `r` is what the device's read(2)
      * would do. */
    method ReadEvents(data: array<Sample>, off: nat, count: int, r: KernelRead) returns (n: int)
      requires Valid() && (count > 0 ==> off + count <= data.Length)
      requires ring.freeSpace > 0 ==> Possible(r, ring.freeSpace)
      modifies this, ring, ring.buffer, data
      ensures Valid()
      ensures forall k :: 0 <= k < data.Length && !(off <= k < off + count) ==> data[k] == old(data[k])
      ensures count < 1 ==> n == -EINVAL && State() == old(State())
      ensures count >= 1 && n < 0 ==> State() == old(State())
      ensures count >= 1 ==>
                (n < 0 <==> !old(hasPending) && old(ring.freeSpace) > 0 && (r.nread < 0 || r.nread % EVENT_SIZE != 0))
      ensures count >= 1 && n >= 0 ==>
                var arrived := if old(ring.freeSpace) > 0 then Delivered(r) else [];
                n <= count && (State(), data[off..off + n]) == ReadSpec(old(State()), arrived, count)
    {
      if count < 1 { return -EINVAL; }
      if hasPending {
        hasPending := false;
        data[off] := pending;
        n := if enabled != 0 then 1 else 0;
        assert data[off..off + n] == if enabled != 0 then [pending] else [];
        return n;
      }
      var filled := ring.Fill(r);
      if filled < 0 { return filled; }
      assert old(ring.Contents()) + [] == old(ring.Contents());
      n := Loop(data, off, count);
    }

    /** The decoding loop of readEvents. */
    method Loop(data: array<Sample>, off: nat, count: nat) returns (n: nat)
      requires Valid() && off + count <= data.Length
      modifies this`pending, ring, data
      ensures Valid() && n <= count
      ensures forall k :: 0 <= k < data.Length && !(off <= k < off + count) ==> data[k] == old(data[k])
      ensures (pending, ring.Contents(), data[off..off + n])
              == Drain(kind, enabled != 0, old(pending), old(ring.Contents()), count)
    {
      hide Drain, Update;
      ghost var goal := Drain(kind, enabled != 0, pending, ring.Contents(), count);
      n := 0;
      ghost var out: seq<Sample> := [];
      assert [] + goal.2 == goal.2;
      while n < count
        invariant ring.Valid() && pending.kind == kind && n == |out| <= count
        invariant forall k :: 0 <= k < data.Length && !(off <= k < off + n) ==> data[k] == old(data[k])
        invariant forall k :: 0 <= k < n ==> data[off + k] == out[k]
        invariant goal == After(out, Drain(kind, enabled != 0, pending, ring.Contents(), count - n))
        decreases |ring.Contents()|
      {
        var event := ring.ReadEvent();
        if event.None? { break; }
        DrainStep(kind, enabled != 0, pending, ring.Contents(), count - n, out);
        if event.value.kind == EV_SYN {
          if enabled != 0 {
            data[off + n] := pending;
            n, out := n + 1, out + [pending];
          }
        } else {
          UpdateKeepsKind(kind, pending, event.value);
          pending := Update(kind, pending, event.value);
        }
        ring.Next();
      }
      DrainEnds(kind, enabled != 0, pending, ring.Contents(), count - n, out);
      assert data[off..off + n] == out;
    }
  }

  /** The result of a loop that had handed out `out` before. */
  function After(out: seq<Sample>, r: (Sample, seq<Event>, seq<Sample>)): (Sample, seq<Event>, seq<Sample>) {
    (r.0, r.1, out + r.2)
  }

  lemma DrainStep(kind: Kind, enabled: bool, s: Sample, queue: seq<Event>, count: nat, out: seq<Sample>)
    requires count > 0 && queue != []
    ensures After(out, Drain(kind, enabled, s, queue, count)) ==
            if queue[0].kind != EV_SYN then
              After(out, Drain(kind, enabled, Update(kind, s, queue[0]), queue[1..], count))
            else if enabled then After(out + [s], Drain(kind, enabled, s, queue[1..], count - 1))
            else After(out, Drain(kind, enabled, s, queue[1..], count))
  {
    if queue[0].kind == EV_SYN && enabled {
      var r := Drain(kind, enabled, s, queue[1..], count - 1).2;
      assert out + ([s] + r) == (out + [s]) + r;
    }
  }

  lemma DrainEnds(kind: Kind, enabled: bool, s: Sample, queue: seq<Event>, count: nat, out: seq<Sample>)
    requires count == 0 || queue == []
    ensures After(out, Drain(kind, enabled, s, queue, count)) == (s, queue, out)
  {
    assert out + [] == out;
  }

  lemma UpdateKeepsKind(kind: Kind, s: Sample, e: Event)
    ensures Update(kind, s, e).kind == s.kind
  {}

  // ----- batching -----

  /** One call of readEvents, and what the device has when it is made. */
  datatype Read = Read(count: nat, waiting: seq<Event>)

  /** A sequence of calls: the driver afterwards, and what each call hands out. */
  function ReadRun(st: DriverState, calls: seq<Read>): (r: (DriverState, seq<seq<Sample>>))
    requires |st.queue| <= RING && forall k :: 0 <= k < |calls| ==> calls[k].count >= 1
    ensures |r.0.queue| <= RING && |r.1| == |calls|
  {
    if calls == [] then (st, [])
    else
      var (st1, pieces) := ReadRun(st, calls[..|calls| - 1]);
      var call := calls[|calls| - 1];
      ReadBounded(st1, call);
      var (st2, out) := ReadSpec(st1, Arriving(st1, call.waiting), call.count);
      (st2, pieces + [out])
  }

  lemma ReadBounded(st: DriverState, call: Read)
    requires |st.queue| <= RING && call.count >= 1
    ensures var (st', out) := ReadSpec(st, Arriving(st, call.waiting), call.count);
            |st'.queue| <= RING && |out| <= call.count
  {
    if !st.hasPending {
      DrainDecodes(st.kind, st.enabled != 0, st.pending, st.queue + Arriving(st, call.waiting), call.count);
    }
  }

  /** The events that a sequence of calls takes from the device. */
  function Taken(st: DriverState, calls: seq<Read>): seq<Event>
    requires |st.queue| <= RING && forall k :: 0 <= k < |calls| ==> calls[k].count >= 1
  {
    if calls == [] then []
    else
      var init := calls[..|calls| - 1];
      Taken(st, init) + Arriving(ReadRun(st, init).0, calls[|calls| - 1].waiting)
  }

  /** A call takes from the device what fits into a ring of four, but nothing while a sample is pending. */
  lemma TakesWhatFits(st: DriverState, waiting: seq<Event>)
    requires |st.queue| <= RING
    ensures var taken := Arriving(st, waiting);
            && taken <= waiting
            && |taken| == if st.hasPending then 0 else if |waiting| + |st.queue| <= 4 then |waiting| else 4 - |st.queue|
  {}

  function Joined(pieces: seq<seq<Sample>>): seq<Sample> {
    if pieces == [] then [] else Joined(pieces[..|pieces| - 1]) + pieces[|pieces| - 1]
  }

  /** The driver used up `used` of what was in its ring followed by what arrived, and handed out
    * what one pass over that gives. */
  ghost predicate Batched(st: DriverState, arrived: seq<Event>, used: seq<Event>, st': DriverState, out: seq<Sample>) {
    && st.queue + arrived == used + st'.queue
    && Decode(st.kind, st.enabled != 0, st.pending, used) == (st'.pending, out)
    && st'.(pending := st.pending, queue := st.queue) == st
  }

  lemma BatchesJoin(st: DriverState, a1: seq<Event>, c1: seq<Event>, st1: DriverState, out1: seq<Sample>,
                    a2: seq<Event>, c2: seq<Event>, st2: DriverState, out2: seq<Sample>)
    requires Batched(st, a1, c1, st1, out1) && Batched(st1, a2, c2, st2, out2)
    ensures Batched(st, a1 + a2, c1 + c2, st2, out1 + out2)
  {
    DecodeJoins(st.kind, st.enabled != 0, st.pending, c1, c2);
    calc {
      st.queue + (a1 + a2);
      (st.queue + a1) + a2;
      c1 + (st1.queue + a2);
      (c1 + c2) + st2.queue;
    }
  }

  /** One call, on a driver without a pending sample. */
  lemma ReadBatches(st: DriverState, arrived: seq<Event>, count: nat)
    requires !st.hasPending && count >= 1
    ensures var (st', out) := ReadSpec(st, arrived, count);
            && Batched(st, arrived, Used(st.queue + arrived, st'.queue), st', out)
            && |out| <= count && (|out| < count ==> st'.queue == [])
  {
    DrainDecodes(st.kind, st.enabled != 0, st.pending, st.queue + arrived, count);
  }

  /** However the device's events are chunked and however many samples each call asks for: the calls
    * together hand out what one pass over the events they used up gives, and every event is either
    * used up or still in the ring. */
  lemma {:induction false} OnePass(st: DriverState, calls: seq<Read>) returns (used: seq<Event>)
    requires |st.queue| <= RING && !st.hasPending && forall k :: 0 <= k < |calls| ==> calls[k].count >= 1
    ensures var (st', pieces) := ReadRun(st, calls); Batched(st, Taken(st, calls), used, st', Joined(pieces))
    decreases |calls|
  {
    if calls == [] {
      used := [];
    } else {
      var init, call := calls[..|calls| - 1], calls[|calls| - 1];
      var used1 := OnePass(st, init);
      var (st1, pieces) := ReadRun(st, init);
      var arrived := Arriving(st1, call.waiting);
      ReadBatches(st1, arrived, call.count);
      var (st2, out) := ReadSpec(st1, arrived, call.count);
      var used2 := Used(st1.queue + arrived, st2.queue);
      BatchesJoin(st, Taken(st, init), used1, st1, Joined(pieces), arrived, used2, st2, out);
      used := used1 + used2;
      assert (pieces + [out])[..|pieces|] == pieces;
    }
  }

  /** Each call hands out no more than it was asked for, and less only if the ring is empty then. */
  lemma {:induction false} EachCall(st: DriverState, calls: seq<Read>, k: nat)
    requires |st.queue| <= RING && !st.hasPending && (forall j :: 0 <= j < |calls| ==> calls[j].count >= 1)
    requires k < |calls|
    ensures var out := ReadRun(st, calls).1[k];
            |out| <= calls[k].count && (|out| < calls[k].count ==> ReadRun(st, calls[..k + 1]).0.queue == [])
    decreases |calls|
  {
    hide Batched, ReadSpec, Taken, Joined, Arriving;
    var init, call := calls[..|calls| - 1], calls[|calls| - 1];
    if k < |calls| - 1 {
      EachCall(st, init, k);
      assert init[..k + 1] == calls[..k + 1];
    } else {
      StaysUnpended(st, init);
      var st1 := ReadRun(st, init).0;
      ReadBatches(st1, Arriving(st1, call.waiting), call.count);
      assert calls[..k + 1] == calls;
    }
  }

  lemma StaysUnpended(st: DriverState, calls: seq<Read>)
    requires |st.queue| <= RING && !st.hasPending && forall j :: 0 <= j < |calls| ==> calls[j].count >= 1
    ensures !ReadRun(st, calls).0.hasPending
  {
    var _ := OnePass(st, calls);
  }

  /** So each sample handed out holds, for every axis, what the device last reported before the EV_SYN
    * that completed it, however the reports were chunked. */
  lemma SamplesMean(st: DriverState, calls: seq<Read>) returns (used: seq<Event>)
    requires |st.queue| <= RING && !st.hasPending && forall k :: 0 <= k < |calls| ==> calls[k].count >= 1
    ensures var (st', pieces) := ReadRun(st, calls);
            var all, out := st.queue + Taken(st, calls), Joined(pieces);
            && all == used + st'.queue
            && st'.pending == Snapshot(st.kind, st.pending, used)
            && |out| == (if st.enabled != 0 then Syns(used) else 0)
            && forall p :: 0 <= p < |used| && used[p].kind == 0 && st.enabled != 0 ==>
                 Syns(used[..p]) < |out| && out[Syns(used[..p])] == Snapshot(st.kind, st.pending, used[..p])
  {
    hide Decode, Snapshot, Taken, ReadRun;
    used := OnePass(st, calls);
    DecodeMeans(st.kind, st.enabled != 0, st.pending, used);
  }

  /** Enabling or disabling the proximity sensor makes the initial state, if it could be read, the next
    * sample; it is handed out if the sensor is on. */
  lemma InitialStateFirst(st: DriverState, en: int, distance: int, arrived: seq<Event>, count: nat)
    requires st.kind == Proximity && count >= 1 && st.enabled != (if en != 0 then 1 else 0)
    ensures var (st1, r) := Enabled(st, en, true, Some(distance));
            var (st2, out) := ReadSpec(st1, arrived, count);
            && r == 0 && st1.enabled == (if en != 0 then 1 else 0) && st1.queue == st.queue
            && out == (if en != 0 then [st.pending.(x := distance)] else [])
            && st2 == st1.(hasPending := false) && !st2.hasPending
  {}

  method ReadOnce(driver: Driver, read: Read) returns (out: seq<Sample>)
    requires driver.Valid() && read.count >= 1
    modifies driver, driver.ring, driver.ring.buffer
    ensures driver.Valid()
    ensures var st := old(driver.State());
            |st.queue| <= RING && (driver.State(), out) == ReadSpec(st, Arriving(st, read.waiting), read.count)
  {
    var filler := driver.pending;
    var data := new Sample[read.count](_ => filler);
    var r := ReadFor(Offer(read.waiting, false), driver.ring.freeSpace);
    NoRoom(read.waiting);
    hide ReadSpec;
    var n := driver.ReadEvents(data, 0, read.count, r);
    out := data[0..0 + n];
  }

  lemma NoRoom(waiting: seq<Event>)
    ensures waiting[..Min(|waiting|, 0)] == []
  {}

  /** Any sequence of calls on a driver. */
  method ReadMany(driver: Driver, calls: seq<Read>) returns (pieces: seq<seq<Sample>>)
    requires driver.Valid() && forall k :: 0 <= k < |calls| ==> calls[k].count >= 1
    modifies driver, driver.ring, driver.ring.buffer
    ensures driver.Valid()
    ensures |old(driver.ring.Contents())| <= RING && (driver.State(), pieces) == ReadRun(old(driver.State()), calls)
  {
    pieces := [];
    ghost var st := driver.State();
    for k := 0 to |calls|
      invariant driver.Valid() && (driver.State(), pieces) == ReadRun(st, calls[..k])
    {
      var out := ReadOnce(driver, calls[k]);
      assert calls[..k + 1][..k] == calls[..k];
      pieces := pieces + [out];
    }
    assert calls[..|calls|] == calls;
  }
}
