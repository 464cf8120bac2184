/** The multiplexer over the sensor drivers: pollEvents hands out samples from every driver that
  * has events, and polls the devices for more while there is room.
  */
module SensorPoll {
  import opened Options
  import opened SensorRing
  import opened SensorDriver
  import opened SensorPollSpec

  /** No two drivers share an object. */
  ghost predicate Apart(sensors: seq<Driver>) {
    forall i, j :: 0 <= i < j < |sensors| ==>
      && sensors[i] != sensors[j] && sensors[i].ring != sensors[j].ring
      && sensors[i].ring.buffer != sensors[j].ring.buffer
  }

  class SensorsPollContext {
    const sensors: seq<Driver>
    var revents: seq<bool>       // POLLIN recorded, per driver

    ghost predicate Separate() { |sensors| == SENSORS && Apart(sensors) }

    ghost function Objects(): set<object> {
      (set i | 0 <= i < |sensors| :: sensors[i] as object)
      + (set i | 0 <= i < |sensors| :: sensors[i].ring as object)
      + (set i | 0 <= i < |sensors| :: sensors[i].ring.buffer as object)
    }

    ghost predicate Valid()
      reads this, Objects()
    {
      && Separate() && |revents| == SENSORS
      && forall i :: 0 <= i < SENSORS ==> sensors[i].Valid() && sensors[i].kind == KINDS[i]
    }

    ghost function States(): seq<DriverState>
      reads this, Objects()
      requires Valid()
    {
      seq(SENSORS, i requires 0 <= i < SENSORS && Valid() reads this, Objects() => sensors[i].State())
    }

    ghost function View(): (ctx: Context)
      reads this, Objects()
      requires Valid()
      ensures Sound(ctx)
    {
      Context(States(), revents)
    }

    /** All five drivers, the order fixing their index. `flag` is the magnetometer's enable flag,
      * which its constructor leaves unset; light and proximity enable themselves. */
    constructor (flag: int, canOpen: seq<bool>, distance: Option<int>)
      requires |canOpen| == SENSORS
      ensures Valid() && revents == [false, false, false, false, false]
      ensures forall i :: 0 <= i < SENSORS ==> View().drivers[i] == Built(KINDS[i], flag, canOpen[i], distance)
    {
      var drivers := MakeDrivers(flag, canOpen, distance);
      sensors := drivers;
      revents := [false, false, false, false, false];
    }

    /** One step of the inner loop: reads driver `i` if it has events, and forgets its POLLIN if it
      * had less than was asked for. */
    method VisitOne(i: nat, data: array<Sample>, off: nat, count: nat, waiting: seq<Event>) returns (nb: nat)
      requires Valid() && i < SENSORS && count >= 1 && off + count <= data.Length
      modifies this`revents, sensors[i], sensors[i].ring, sensors[i].ring.buffer, data
      ensures Valid() && nb <= count && data[..off] == old(data[..off])
      ensures (View(), data[off..off + nb]) == Visit(old(View()), i, waiting, count)
    {
      hide ReadSpec, Arriving, DriversSound, Built;
      ghost var ctx := View();
      nb := 0;
      if revents[i] || sensors[i].hasPending {
        nb := ReadSensor(i, data, off, count, waiting);
        if nb < count {
          revents := revents[i := false];
        }
        SameDrivers(View().drivers, ctx.drivers, i, sensors[i].State());
      } else {
        assert data[off..off + 0] == [];
      }
    }

    lemma SameDrivers(now: seq<DriverState>, was: seq<DriverState>, i: nat, st: DriverState)
      requires |now| == |was| == SENSORS && i < SENSORS && now[i] == st
      requires forall j :: 0 <= j < SENSORS && j != i ==> now[j] == was[j]
      ensures now == was[i := st]
    {}

    method ReadSensor(i: nat, data: array<Sample>, off: nat, count: nat, waiting: seq<Event>) returns (nb: nat)
      requires Valid() && i < SENSORS && count >= 1 && off + count <= data.Length
      modifies sensors[i], sensors[i].ring, sensors[i].ring.buffer, data
      ensures Valid() && nb <= count && data[..off] == old(data[..off])
      ensures forall j :: 0 <= j < SENSORS && j != i ==> sensors[j].State() == old(sensors[j].State())
      ensures var st := old(sensors[i].State());
              (sensors[i].State(), data[off..off + nb]) == ReadSpec(st, Arriving(st, waiting), count)
    {
      var r := ReadFor(Offer(waiting, false), sensors[i].ring.freeSpace);
      hide ReadSpec;
      ghost var st := sensors[i].State();
      nb := sensors[i].ReadEvents(data, off, count, r);
      ghost var arrived := if old(sensors[i].ring.freeSpace) > 0 then Delivered(r) else [];
      PendingReadsNothing(st, arrived, Arriving(st, waiting), count);
    }

    /** The inner loop: while there is room, visits every driver once. */
    method VisitAll(data: array<Sample>, off: nat, count: nat, waiting: seq<seq<Event>>) returns (nb: nat)
      requires Valid() && |waiting| == SENSORS && off + count <= data.Length
      modifies this`revents, Objects(), data
      ensures Valid() && nb <= count && data[..off] == old(data[..off])
      ensures (View(), data[off..off + nb]) == VisitFrom(old(View()), 0, waiting, count)
    {
      hide Visit, VisitFrom, Sound, DriversSound;
      ghost var goal := VisitFrom(View(), 0, waiting, count);
      ghost var before, out: seq<Sample> := data[..off], [];
      assert [] + goal.1 == goal.1;
      nb := 0;
      var room: nat, i: nat := count, 0;
      while room > 0 && i < SENSORS
        invariant i <= SENSORS && room + nb == count && Valid() && |out| == nb
        invariant data[..off + nb] == before + out
        invariant goal == Continued(out, VisitFrom(View(), i, waiting, room))
        decreases SENSORS - i
      {
        ContinuedStep(out, View(), i, waiting, room);
        var n := VisitOne(i, data, off + nb, room, waiting[i]);
        Appended(data[..], off + nb, n, before, out);
        out := out + data[off + nb..off + nb + n];
        room, nb, i := room - n, nb + n, i + 1;
      }
      VisitFromEnd(View(), i, waiting, room, 0);
      assert out + [] == out;
      assert data[..off + nb][off..] == out;
    }

    lemma Appended(data: seq<Sample>, at: nat, n: nat, before: seq<Sample>, out: seq<Sample>)
      requires at + n <= |data| && data[..at] == before + out
      ensures data[..at + n] == before + (out + data[at..at + n])
    {
      assert data[..at + n] == data[..at] + data[at..at + n];
    }

    /** poll(2): records which devices are readable. It replaces every recorded POLLIN. */
    method Poll(polled: Polled) returns (n: int)
      requires Valid() && (polled.Ready? ==> |polled.readable| == SENSORS)
      modifies this`revents
      ensures Valid()
      ensures View() == old(View()).(revents := if polled.Ready? then polled.readable else old(revents))
      ensures if polled.PollFailed? then n == -1 - polled.errno else n >= 0 && (n > 0 <==> Nonzero(polled))
    {
      match polled
      case PollFailed(errno) => n := -1 - errno;
      case Ready(readable, other) =>
        revents := readable;
        n := if other then 1 else 0;
        for i := 0 to SENSORS
          invariant n >= 0 && (n > 0 <==> other || true in readable[..i])
        {
          if readable[i] { n := n + 1; }
          assert readable[..i + 1] == readable[..i] + [readable[i]];
        }
        assert readable[..SENSORS] == readable;
    }

    /** Hands out up to `count` samples. `turns` is what the devices and poll(2) do; `waiting` says
      * that the call would still be waiting after them. */
    method PollEvents(data: array<Sample>, count: nat, turns: seq<Turn>) returns (r: int, waiting: bool)
      requires Valid() && count <= data.Length && TurnsOk(turns)
      modifies this`revents, Objects(), data
      ensures Valid()
      ensures var (ctx, out, end) := PollSpec(old(View()), turns, count);
              && View() == ctx && |out| <= count && data[..|out|] == out
              && waiting == end.Waiting?
              && r == if end.Failed? then -1 - end.errno else |out|
    {
      hide VisitFrom, PollSpec;
      ghost var goal := PollSpec(View(), turns, count);
      ghost var out: seq<Sample> := [];
      assert [] + goal.1 == goal.1;
      var nbEvents: nat, room: nat, k: nat := 0, count, 0;
      assert turns[0..] == turns;
      while true
        invariant Valid() && room + nbEvents == count && k <= |turns| && |out| == nbEvents
        invariant data[..nbEvents] == out && TurnsOk(turns[k..])
        invariant goal == PolledAfter(out, PollSpec(View(), turns[k..], room))
        decreases |turns| - k
      {
        PollStep(out, View(), turns[k..], room);
        if k == |turns| {
          return nbEvents, room > 0;
        }
        assert turns[k..][0] == turns[k] && turns[k..][1..] == turns[k + 1..];
        var nb := VisitAll(data, nbEvents, room, turns[k].waiting);
        Appended(data[..], nbEvents, nb, [], out);
        out := out + data[nbEvents..nbEvents + nb];
        room, nbEvents := room - nb, nbEvents + nb;
        assert data[..nbEvents] == out;
        if room == 0 {
          return nbEvents, false;
        }
        var n := Poll(turns[k].polled);
        if n < 0 {
          return n, false;
        }
        if n == 0 {
          return nbEvents, false;
        }
        k := k + 1;
      }
    }
  }

  /** Creates the drivers in the order of their indices. */
  method MakeDrivers(flag: int, canOpen: seq<bool>, distance: Option<int>) returns (sensors: seq<Driver>)
    requires |canOpen| == SENSORS
    ensures |sensors| == SENSORS && Apart(sensors)
    ensures forall i :: 0 <= i < SENSORS ==>
              && sensors[i].Valid() && sensors[i].kind == KINDS[i]
              && sensors[i].State() == Built(KINDS[i], flag, canOpen[i], distance)
  {
    hide Built;
    sensors := [];
    for k := 0 to SENSORS
      invariant |sensors| == k && Apart(sensors)
      invariant forall i :: 0 <= i < k ==>
                  && sensors[i].Valid() && sensors[i].kind == KINDS[i]
                  && sensors[i].State() == Built(KINDS[i], flag, canOpen[i], distance)
    {
      var d := new Driver(KINDS[k], flag, canOpen[k], distance);
      sensors := sensors + [d];
    }
  }

  /** With a sample pending, or room for no event, it does not matter what the device has. */
  lemma PendingReadsNothing(st: DriverState, a: seq<Event>, b: seq<Event>, count: nat)
    requires count >= 1 && (a == b || st.hasPending)
    ensures ReadSpec(st, a, count) == ReadSpec(st, b, count)
  {}

  function Continued(out: seq<Sample>, r: (Context, seq<Sample>)): (Context, seq<Sample>) { (r.0, out + r.1) }

  lemma ContinuedStep(out: seq<Sample>, ctx: Context, i: nat, waiting: seq<seq<Event>>, count: nat)
    requires Sound(ctx) && i < SENSORS && |waiting| == SENSORS && count > 0
    ensures var (ctx1, out1) := Visit(ctx, i, waiting[i], count);
            Continued(out, VisitFrom(ctx, i, waiting, count))
            == Continued(out + out1, VisitFrom(ctx1, i + 1, waiting, count - |out1|))
  {
    hide Visit, VisitFrom, Sound;
    VisitFromStep(ctx, i, waiting, count);
    var (ctx1, out1) := Visit(ctx, i, waiting[i], count);
    var (ctx2, rest) := VisitFrom(ctx1, i + 1, waiting, count - |out1|);
    assert VisitFrom(ctx, i, waiting, count) == (ctx2, out1 + rest);
    assert out + (out1 + rest) == (out + out1) + rest;
  }

  function PolledAfter(out: seq<Sample>, r: (Context, seq<Sample>, End)): (Context, seq<Sample>, End) {
    (r.0, out + r.1, r.2)
  }

  /** pollEvents' outer loop, unrolled once. */
  lemma PollStep(out: seq<Sample>, ctx: Context, turns: seq<Turn>, count: nat)
    requires Sound(ctx) && TurnsOk(turns)
    ensures turns == [] ==>
              PolledAfter(out, PollSpec(ctx, turns, count)) == (ctx, out, if count == 0 then Full else Waiting)
    ensures turns != [] ==>
              && TurnOk(turns[0]) && TurnsOk(turns[1..])
              && var (ctx1, out1) := VisitFrom(ctx, 0, turns[0].waiting, count);
                 var polled := turns[0].polled;
                 PolledAfter(out, PollSpec(ctx, turns, count)) ==
                 if |out1| == count then (ctx1, out + out1, Full)
                 else if polled.PollFailed? then (ctx1, out + out1, Failed(polled.errno))
                 else if !Nonzero(polled) then (ctx1.(revents := polled.readable), out + out1, NoMore)
                 else PolledAfter(out + out1, PollSpec(ctx1.(revents := polled.readable), turns[1..], count - |out1|))
  {
    hide VisitFrom;
    assert out + [] == out;
    if turns != [] && Nonzero(turns[0].polled) {
      var (ctx1, out1) := VisitFrom(ctx, 0, turns[0].waiting, count);
      if |out1| < count {
        var rest := PollSpec(ctx1.(revents := turns[0].polled.readable), turns[1..], count - |out1|).1;
        assert out + (out1 + rest) == (out + out1) + rest;
      }
    }
  }
}
