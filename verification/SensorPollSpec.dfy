/** What pollEvents does, as a function of what the drivers hold and what the devices and poll(2)
  * do: which samples it hands out, and what it leaves behind.
  */
module SensorPollSpec {
  import opened Options
  import opened SensorRing
  import opened SensorDriver

  const SENSORS: nat := 5        // numSensorDrivers
  const KINDS: seq<Kind> := [Light, Proximity, Accelerometer, Magnetometer, Orientation]

  /** The drivers, and for each whether POLLIN is recorded. */
  datatype Context = Context(drivers: seq<DriverState>, revents: seq<bool>)

  predicate Sound(ctx: Context) {
    |ctx.drivers| == |ctx.revents| == SENSORS && DriversSound(ctx.drivers)
  }

  predicate DriversSound(drivers: seq<DriverState>)
    requires |drivers| == SENSORS
  {
    forall i :: 0 <= i < SENSORS ==>
      drivers[i].kind == drivers[i].pending.kind == KINDS[i] && |drivers[i].queue| <= RING
  }

  /** What poll(2) returned: an error, or which devices are readable, and whether anything else is
    * reported: the wake pipe, or a device with POLLERR or POLLHUP alone. */
  datatype Polled = PollFailed(errno: nat) | Ready(readable: seq<bool>, other: bool)

  /** One turn of the outer loop: what each device has when it is read, then the poll. */
  datatype Turn = Turn(waiting: seq<seq<Event>>, polled: Polled)

  predicate TurnOk(t: Turn) {
    |t.waiting| == SENSORS && (t.polled.Ready? ==> |t.polled.readable| == SENSORS)
  }

  predicate TurnsOk(turns: seq<Turn>) {
    turns == [] || (TurnOk(turns[0]) && TurnsOk(turns[1..]))
  }

  predicate Nonzero(p: Polled) { p.Ready? && (p.other || true in p.readable) }

  /** How a call ends: with as many samples as were asked for, with fewer because no device has
    * more, with an error of poll(2), or not at all: `Waiting` is a call that still waits after the
    * turns given. */
  datatype End = Full | NoMore | Failed(errno: nat) | Waiting

  /** One step of the inner loop. */
  function Visit(ctx: Context, i: nat, waiting: seq<Event>, count: nat): (r: (Context, seq<Sample>))
    requires Sound(ctx) && i < SENSORS && count >= 1
    ensures Sound(r.0) && |r.1| <= count
  {
    if ctx.revents[i] || ctx.drivers[i].hasPending then
      var st := ctx.drivers[i];
      ReadSound(st, waiting, count);
      var (st', out) := ReadSpec(st, Arriving(st, waiting), count);
      (Context(ctx.drivers[i := st'], if |out| < count then ctx.revents[i := false] else ctx.revents), out)
    else (ctx, [])
  }

  lemma ReadSound(st: DriverState, waiting: seq<Event>, count: nat)
    requires |st.queue| <= RING && st.pending.kind == st.kind && count >= 1
    ensures var (st', out) := ReadSpec(st, Arriving(st, waiting), count);
            && st'.kind == st'.pending.kind == st.kind && |st'.queue| <= RING && !st'.hasPending
            && |out| <= count && AllOf(st.kind, out)
  {
    ReadBounded(st, Read(count, waiting));
    if !st.hasPending {
      DrainKeepsKind(st.kind, st.enabled != 0, st.pending, st.queue + Arriving(st, waiting), count);
    }
  }

  /** The inner loop from driver `i` on. */
  function VisitFrom(ctx: Context, i: nat, waiting: seq<seq<Event>>, count: nat): (r: (Context, seq<Sample>))
    requires Sound(ctx) && i <= SENSORS && |waiting| == SENSORS
    ensures Sound(r.0) && |r.1| <= count
    decreases SENSORS - i
  {
    if count == 0 || i == SENSORS then (ctx, [])
    else
      var (ctx1, out1) := Visit(ctx, i, waiting[i], count);
      var (ctx2, out2) := VisitFrom(ctx1, i + 1, waiting, count - |out1|);
      (ctx2, out1 + out2)
  }

  /** The whole call. */
  function PollSpec(ctx: Context, turns: seq<Turn>, count: nat): (r: (Context, seq<Sample>, End))
    requires Sound(ctx) && TurnsOk(turns)
    ensures Sound(r.0)
    decreases |turns|
  {
    if turns == [] then (ctx, [], if count == 0 then Full else Waiting)
    else
      var (ctx1, out1) := VisitFrom(ctx, 0, turns[0].waiting, count);
      if |out1| == count then (ctx1, out1, Full)
      else
        match turns[0].polled
        case PollFailed(errno) => (ctx1, out1, Failed(errno))
        case Ready(readable, other) =>
          if !Nonzero(turns[0].polled) then (ctx1.(revents := readable), out1, NoMore)
          else
            var (ctx2, out2, end) := PollSpec(ctx1.(revents := readable), turns[1..], count - |out1|);
            (ctx2, out1 + out2, end)
  }

  // -------- how much is handed out

  /** The room left and what was handed out add up to what was asked for; the call ends short of it
    * exactly if poll(2) failed, found nothing, or is still waiting. */
  lemma {:induction false} Counts(ctx: Context, turns: seq<Turn>, count: nat)
    requires Sound(ctx) && TurnsOk(turns)
    ensures var (_, out, end) := PollSpec(ctx, turns, count); |out| <= count && (end.Full? <==> |out| == count)
    decreases |turns|
  {
    hide VisitFrom;
    if turns != [] {
      var (ctx1, out1) := VisitFrom(ctx, 0, turns[0].waiting, count);
      if |out1| < count && Nonzero(turns[0].polled) {
        Counts(ctx1.(revents := turns[0].polled.readable), turns[1..], count - |out1|);
      }
    }
  }

  // -------- nothing is stranded

  /** A driver that is not forgotten: no sample pending from enable(), and POLLIN recorded if there
    * is anything in its ring. */
  predicate Remembered(ctx: Context, i: nat)
    requires Sound(ctx) && i < SENSORS
  {
    !ctx.drivers[i].hasPending && (ctx.drivers[i].queue == [] || ctx.revents[i])
  }

  lemma VisitRemembers(ctx: Context, i: nat, waiting: seq<Event>, count: nat, j: nat)
    requires Sound(ctx) && i < SENSORS && count >= 1 && j < SENSORS && Remembered(ctx, j)
    ensures var (ctx', out) := Visit(ctx, i, waiting, count);
            && Remembered(ctx', j)
            && (i == j && |out| < count ==> ctx'.drivers[j].queue == [])
            && (i != j ==> ctx'.drivers[j] == ctx.drivers[j])
  {
    if i == j && ctx.revents[i] {
      ReadBatches(ctx.drivers[i], Arriving(ctx.drivers[i], waiting), count);
    }
  }

  /** With room left after the inner loop, the rings of all drivers that were remembered are empty,
    * so that poll(2) may overwrite what is recorded. */
  lemma {:induction false} VisitsRemember(ctx: Context, i: nat, waiting: seq<seq<Event>>, count: nat, j: nat)
    requires Sound(ctx) && i <= SENSORS && |waiting| == SENSORS && j < SENSORS && Remembered(ctx, j)
    ensures var (ctx', out) := VisitFrom(ctx, i, waiting, count);
            && Remembered(ctx', j)
            && (|out| < count && (i <= j || ctx.drivers[j].queue == []) ==> ctx'.drivers[j].queue == [])
    decreases SENSORS - i
  {
    hide Visit, DriversSound;
    if count > 0 && i < SENSORS {
      var (ctx1, out1) := Visit(ctx, i, waiting[i], count);
      VisitRemembers(ctx, i, waiting[i], count, j);
      VisitsRemember(ctx1, i + 1, waiting, count - |out1|, j);
    }
  }

  /** A driver that was remembered is remembered after the call; and if the call ends because no
    * device has more, its ring is empty. */
  lemma {:induction false} NothingStranded(ctx: Context, turns: seq<Turn>, count: nat, j: nat)
    requires Sound(ctx) && TurnsOk(turns) && j < SENSORS && Remembered(ctx, j)
    ensures var (ctx', _, end) := PollSpec(ctx, turns, count);
            Remembered(ctx', j) && (end.NoMore? || end.Failed? ==> ctx'.drivers[j].queue == [])
    decreases |turns|
  {
    hide VisitFrom;
    if turns != [] {
      var (ctx1, out1) := VisitFrom(ctx, 0, turns[0].waiting, count);
      VisitsRemember(ctx, 0, turns[0].waiting, count, j);
      if |out1| < count && Nonzero(turns[0].polled) {
        NothingStranded(ctx1.(revents := turns[0].polled.readable), turns[1..], count - |out1|, j);
      }
    }
  }

  // -------- what is handed out

  /** The samples of one sensor among all that were handed out. */
  function Only(kind: Kind, samples: seq<Sample>): seq<Sample> {
    if samples == [] then []
    else
      var rest := Only(kind, samples[..|samples| - 1]);
      var last := samples[|samples| - 1];
      if last.kind == kind then rest + [last] else rest
  }

  lemma {:induction false} OnlyJoins(kind: Kind, a: seq<Sample>, b: seq<Sample>)
    ensures Only(kind, a + b) == Only(kind, a) + Only(kind, b)
  {
    if b == [] {
      assert a + b == a && Only(kind, a) + [] == Only(kind, a);
    } else {
      var b' := b[..|b| - 1];
      OnlyJoins(kind, a, b');
      assert (a + b)[..|a + b| - 1] == a + b';
    }
  }

  predicate AllOf(kind: Kind, samples: seq<Sample>) {
    forall k :: 0 <= k < |samples| ==> samples[k].kind == kind
  }

  lemma {:induction false} OnlyOf(kind: Kind, other: Kind, samples: seq<Sample>)
    requires AllOf(other, samples)
    ensures Only(kind, samples) == if kind == other then samples else []
  {
    if samples != [] {
      OnlyOf(kind, other, samples[..|samples| - 1]);
      assert samples == samples[..|samples| - 1] + [samples[|samples| - 1]];
    }
  }

  /** The events that driver `j` takes from its device during the inner loop. */
  function ArrivedIn(ctx: Context, i: nat, waiting: seq<seq<Event>>, count: nat, j: nat): seq<Event>
    requires Sound(ctx) && i <= SENSORS && |waiting| == SENSORS && j < SENSORS
    decreases SENSORS - i
  {
    if count == 0 || i == SENSORS then []
    else
      var (ctx1, out1) := Visit(ctx, i, waiting[i], count);
      (if i == j && ctx.revents[i] then Arriving(ctx.drivers[i], waiting[i]) else [])
      + ArrivedIn(ctx1, i + 1, waiting, count - |out1|, j)
  }

  /** And during the whole call. */
  function Arrived(ctx: Context, turns: seq<Turn>, count: nat, j: nat): seq<Event>
    requires Sound(ctx) && TurnsOk(turns) && j < SENSORS
    decreases |turns|
  {
    if turns == [] then []
    else
      var (ctx1, out1) := VisitFrom(ctx, 0, turns[0].waiting, count);
      ArrivedIn(ctx, 0, turns[0].waiting, count, j)
      + (if |out1| < count && Nonzero(turns[0].polled)
         then Arrived(ctx1.(revents := turns[0].polled.readable), turns[1..], count - |out1|, j) else [])
  }

  /** A batch in which nothing happened. */
  lemma NoBatch(st: DriverState, kind: Kind)
    ensures Batched(st, [], [], st, Only(kind, [])) && Only(kind, []) == []
  {}

  lemma FaithfulJoin(kind: Kind, st: DriverState, a1: seq<Event>, used1: seq<Event>, st1: DriverState,
                     out1: seq<Sample>,
                     a2: seq<Event>, used2: seq<Event>, st2: DriverState, out2: seq<Sample>)
    requires Batched(st, a1, used1, st1, Only(kind, out1)) && Batched(st1, a2, used2, st2, Only(kind, out2))
    ensures Batched(st, a1 + a2, used1 + used2, st2, Only(kind, out1 + out2))
  {
    hide Batched;
    BatchesJoin(st, a1, used1, st1, Only(kind, out1), a2, used2, st2, Only(kind, out2));
    OnlyJoins(kind, out1, out2);
  }

  lemma VisitFaithful(ctx: Context, i: nat, waiting: seq<Event>, count: nat, j: nat) returns (used: seq<Event>)
    requires Sound(ctx) && i < SENSORS && count >= 1 && j < SENSORS && !ctx.drivers[j].hasPending
    ensures var (ctx', out) := Visit(ctx, i, waiting, count);
            && !ctx'.drivers[j].hasPending
            && Batched(ctx.drivers[j], if i == j && ctx.revents[j] then Arriving(ctx.drivers[j], waiting) else [],
                       used, ctx'.drivers[j], Only(KINDS[j], out))
  {
    hide ReadSpec, Arriving, Batched, Used, Only;
    var st := ctx.drivers[i];
    NoBatch(ctx.drivers[j], KINDS[j]);
    used := [];
    if ctx.revents[i] || st.hasPending {
      ReadSound(st, waiting, count);
      var (st', out) := ReadSpec(st, Arriving(st, waiting), count);
      OnlyOf(KINDS[j], KINDS[i], out);
      if i == j {
        ReadBatches(st, Arriving(st, waiting), count);
        used := Used(st.queue + Arriving(st, waiting), st'.queue);
      }
    }
  }

  /** The inner loop, unrolled once. */
  lemma VisitFromStep(ctx: Context, i: nat, waiting: seq<seq<Event>>, count: nat)
    requires Sound(ctx) && i < SENSORS && |waiting| == SENSORS && count > 0
    ensures var (ctx1, out1) := Visit(ctx, i, waiting[i], count);
            var (ctx2, out2) := VisitFrom(ctx1, i + 1, waiting, count - |out1|);
            VisitFrom(ctx, i, waiting, count) == (ctx2, out1 + out2)
  {
    hide Visit;
  }

  lemma ArrivedStep(ctx: Context, i: nat, waiting: seq<seq<Event>>, count: nat, j: nat)
    requires Sound(ctx) && i < SENSORS && |waiting| == SENSORS && count > 0 && j < SENSORS
    ensures var (ctx1, out1) := Visit(ctx, i, waiting[i], count);
            ArrivedIn(ctx, i, waiting, count, j)
            == (if i == j && ctx.revents[i] then Arriving(ctx.drivers[i], waiting[i]) else [])
               + ArrivedIn(ctx1, i + 1, waiting, count - |out1|, j)
  {
    hide Visit, Arriving, VisitFrom, DriversSound;
  }

  lemma VisitFromEnd(ctx: Context, i: nat, waiting: seq<seq<Event>>, count: nat, j: nat)
    requires Sound(ctx) && i <= SENSORS && |waiting| == SENSORS && j < SENSORS && (count == 0 || i == SENSORS)
    ensures VisitFrom(ctx, i, waiting, count) == (ctx, []) && ArrivedIn(ctx, i, waiting, count, j) == []
  {}

  lemma {:induction false} VisitsFaithful(ctx: Context, i: nat, waiting: seq<seq<Event>>, count: nat, j: nat)
    returns (used: seq<Event>)
    requires Sound(ctx) && i <= SENSORS && |waiting| == SENSORS && j < SENSORS && !ctx.drivers[j].hasPending
    ensures var (ctx', out) := VisitFrom(ctx, i, waiting, count);
            && !ctx'.drivers[j].hasPending
            && Batched(ctx.drivers[j], ArrivedIn(ctx, i, waiting, count, j), used, ctx'.drivers[j], Only(KINDS[j], out))
    decreases SENSORS - i
  {
    hide Batched, Visit, VisitFrom, ArrivedIn, DriversSound, Only, Arriving;
    var kind := KINDS[j];
    if count == 0 || i == SENSORS {
      VisitFromEnd(ctx, i, waiting, count, j);
      NoBatch(ctx.drivers[j], kind);
      used := [];
    } else {
      VisitFromStep(ctx, i, waiting, count);
      ArrivedStep(ctx, i, waiting, count, j);
      var (ctx1, out1) := Visit(ctx, i, waiting[i], count);
      var used1 := VisitFaithful(ctx, i, waiting[i], count, j);
      var used2 := VisitsFaithful(ctx1, i + 1, waiting, count - |out1|, j);
      var (ctx2, out2) := VisitFrom(ctx1, i + 1, waiting, count - |out1|);
      var a1 := if i == j && ctx.revents[i] then Arriving(ctx.drivers[i], waiting[i]) else [];
      var a2 := ArrivedIn(ctx1, i + 1, waiting, count - |out1|, j);
      FaithfulJoin(kind, ctx.drivers[j], a1, used1, ctx1.drivers[j], out1, a2, used2, ctx2.drivers[j], out2);
      used := used1 + used2;
    }
  }

  /** Each driver's samples, picked out of all that are handed out, are what one pass over the events
    * it used up gives; and the events that it had and took are those used up and those still there. */
  lemma {:induction false} Faithful(ctx: Context, turns: seq<Turn>, count: nat, j: nat) returns (used: seq<Event>)
    requires Sound(ctx) && TurnsOk(turns) && j < SENSORS
    requires !ctx.drivers[j].hasPending
    ensures var (ctx', out, _) := PollSpec(ctx, turns, count);
            Batched(ctx.drivers[j], Arrived(ctx, turns, count, j), used, ctx'.drivers[j], Only(KINDS[j], out))
    decreases |turns|
  {
    hide Batched, VisitFrom, ArrivedIn, DriversSound, Only;
    if turns == [] {
      NoBatch(ctx.drivers[j], KINDS[j]);
      used := [];
    } else {
      var (ctx1, out1) := VisitFrom(ctx, 0, turns[0].waiting, count);
      var used1 := VisitsFaithful(ctx, 0, turns[0].waiting, count, j);
      var a1 := ArrivedIn(ctx, 0, turns[0].waiting, count, j);
      if |out1| < count && Nonzero(turns[0].polled) {
        var ctx1' := ctx1.(revents := turns[0].polled.readable);
        var used2 := Faithful(ctx1', turns[1..], count - |out1|, j);
        var (ctx2, out2, _) := PollSpec(ctx1', turns[1..], count - |out1|);
        var a2 := Arrived(ctx1', turns[1..], count - |out1|, j);
        FaithfulJoin(KINDS[j], ctx.drivers[j], a1, used1, ctx1.drivers[j], out1, a2, used2, ctx2.drivers[j], out2);
        used := used1 + used2;
      } else {
        assert a1 + [] == a1;
        used := used1;
      }
    }
  }

  // -------- drivers with nothing to do

  lemma SkipQuiet(ctx: Context, i: nat, waiting: seq<seq<Event>>, count: nat)
    requires Sound(ctx) && i < SENSORS && |waiting| == SENSORS && count > 0
    requires !ctx.revents[i] && !ctx.drivers[i].hasPending
    ensures VisitFrom(ctx, i, waiting, count) == VisitFrom(ctx, i + 1, waiting, count)
  {
    hide Visit, VisitFrom, DriversSound;
    VisitQuiet(ctx, i, waiting, count);
    VisitFromStep(ctx, i, waiting, count);
    var rest := VisitFrom(ctx, i + 1, waiting, count).1;
    assert [] + rest == rest;
  }

  lemma {:induction false} QuietFrom(ctx: Context, i: nat, waiting: seq<seq<Event>>, count: nat)
    requires Sound(ctx) && i <= SENSORS && |waiting| == SENSORS
    requires forall j :: i <= j < SENSORS ==> !ctx.revents[j] && !ctx.drivers[j].hasPending
    ensures VisitFrom(ctx, i, waiting, count) == (ctx, [])
    decreases SENSORS - i
  {
    hide VisitFrom, DriversSound;
    if i == SENSORS || count == 0 {
      VisitFromEnd(ctx, i, waiting, count, 0);
    } else {
      SkipQuiet(ctx, i, waiting, count);
      QuietFrom(ctx, i + 1, waiting, count);
    }
  }

  lemma VisitQuiet(ctx: Context, i: nat, waiting: seq<seq<Event>>, count: nat)
    requires Sound(ctx) && i <= SENSORS && |waiting| == SENSORS
    requires i < SENSORS ==> !ctx.revents[i] && !ctx.drivers[i].hasPending
    ensures i < SENSORS && count > 0 ==> Visit(ctx, i, waiting[i], count) == (ctx, [])
  {
  }

  // -------- in which order

  /** The drivers' order in the poll context. */
  function Rank(kind: Kind): nat {
    match kind
    case Light => 0
    case Proximity => 1
    case Accelerometer => 2
    case Magnetometer => 3
    case Orientation => 4
  }

  predicate InOrder(samples: seq<Sample>, lo: nat, hi: nat) {
    && (forall k :: 0 <= k < |samples| ==> lo <= Rank(samples[k].kind) < hi)
    && (forall j, k :: 0 <= j < k < |samples| ==> Rank(samples[j].kind) <= Rank(samples[k].kind))
  }

  /** The inner loop hands out light first, then proximity, accelerometer, magnetometer, orientation. */
  lemma {:induction false} VisitsInOrder(ctx: Context, i: nat, waiting: seq<seq<Event>>, count: nat)
    requires Sound(ctx) && i <= SENSORS && |waiting| == SENSORS
    ensures InOrder(VisitFrom(ctx, i, waiting, count).1, i, 5)
    decreases SENSORS - i
  {
    hide Visit, DriversSound, VisitFrom;
    if count == 0 || i == SENSORS {
      VisitFromEnd(ctx, i, waiting, count, 0);
    } else {
      VisitFromStep(ctx, i, waiting, count);
      VisitOfKind(ctx, i, waiting[i], count);
      var (ctx1, out1) := Visit(ctx, i, waiting[i], count);
      VisitsInOrder(ctx1, i + 1, waiting, count - |out1|);
      OrderJoins(out1, VisitFrom(ctx1, i + 1, waiting, count - |out1|).1, i);
    }
  }

  lemma OrderJoins(a: seq<Sample>, b: seq<Sample>, i: nat)
    requires i < 5 && (forall k :: 0 <= k < |a| ==> Rank(a[k].kind) == i) && InOrder(b, i + 1, 5)
    ensures InOrder(a + b, i, 5)
  {
    hide Rank;
  }

  lemma VisitOfKind(ctx: Context, i: nat, waiting: seq<Event>, count: nat)
    requires Sound(ctx) && i < SENSORS && count >= 1
    ensures var out := Visit(ctx, i, waiting, count).1; forall k :: 0 <= k < |out| ==> Rank(out[k].kind) == i
  {
    var st := ctx.drivers[i];
    ReadSound(st, waiting, count);
    assert Rank(KINDS[i]) == i;
    hide ReadSpec, Arriving, Rank;
  }

  // -------- calls with enable() in between

  datatype Action = Poll(turns: seq<Turn>, count: nat) | Switch(i: nat, en: int, canOpen: bool, distance: Option<int>)

  predicate ActionOk(a: Action) { if a.Poll? then TurnsOk(a.turns) else a.i < SENSORS }

  /** enable() on driver `i`. */
  function Switched(ctx: Context, i: nat, en: int, canOpen: bool, distance: Option<int>): (r: Context)
    requires Sound(ctx) && i < SENSORS
    ensures Sound(r)
  {
    ctx.(drivers := ctx.drivers[i := Enabled(ctx.drivers[i], en, canOpen, distance).0])
  }

  function Session(ctx: Context, actions: seq<Action>): (r: Context)
    requires Sound(ctx) && forall k :: 0 <= k < |actions| ==> ActionOk(actions[k])
    ensures Sound(r)
  {
    if actions == [] then ctx
    else
      var ctx1 := Session(ctx, actions[..|actions| - 1]);
      assert ActionOk(actions[|actions| - 1]);
      match actions[|actions| - 1]
      case Poll(turns, count) => PollSpec(ctx1, turns, count).0
      case Switch(i, en, canOpen, distance) => Switched(ctx1, i, en, canOpen, distance)
  }

  /** Nothing is ever stranded in a driver that never has a pending sample, whatever calls are made
    * and whatever sensors are switched in between. */
  lemma {:induction false} NeverStranded(ctx: Context, actions: seq<Action>, j: nat)
    requires Sound(ctx) && (forall k :: 0 <= k < |actions| ==> ActionOk(actions[k]))
    requires j < SENSORS && KINDS[j] != Proximity && Remembered(ctx, j)
    ensures Remembered(Session(ctx, actions), j)
  {
    if actions != [] {
      hide PollSpec;
      var init, last := actions[..|actions| - 1], actions[|actions| - 1];
      NeverStranded(ctx, init, j);
      if last.Poll? { NothingStranded(Session(ctx, init), last.turns, last.count, j); }
    }
  }
}
