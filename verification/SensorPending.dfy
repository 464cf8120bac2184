/** A sample pending from enable() and what pollEvents makes of it: the driver is read once, only
  * for that sample, and what is in its ring may be left without POLLIN recorded.
  */
module SensorPending {
  import opened Options
  import opened SensorRing
  import opened SensorDriver
  import opened SensorPollSpec

  /** The driver will be read again by a later call, or there is nothing left to read. */
  predicate Kept(ctx: Context, j: nat)
    requires Sound(ctx) && j < SENSORS
  {
    ctx.drivers[j].hasPending || ctx.drivers[j].queue == [] || ctx.revents[j]
  }

  /** What a context holds of one driver. */
  predicate Same(ctx: Context, ctx': Context, j: nat)
    requires Sound(ctx) && Sound(ctx') && j < SENSORS
  {
    ctx'.drivers[j] == ctx.drivers[j] && ctx'.revents[j] == ctx.revents[j]
  }

  // -------- the inner loop

  lemma VisitOther(ctx: Context, i: nat, waiting: seq<Event>, count: nat, j: nat)
    requires Sound(ctx) && i < SENSORS && count >= 1 && j < SENSORS
    requires i != j || (!ctx.revents[j] && !ctx.drivers[j].hasPending)
    ensures Same(ctx, Visit(ctx, i, waiting, count).0, j)
  {}

  /** A driver that the inner loop has passed, or that has nothing recorded, is not touched. */
  lemma {:induction false} VisitsOther(ctx: Context, i: nat, waiting: seq<seq<Event>>, count: nat, j: nat)
    requires Sound(ctx) && i <= SENSORS && |waiting| == SENSORS && j < SENSORS
    requires j < i || (!ctx.revents[j] && !ctx.drivers[j].hasPending)
    ensures Same(ctx, VisitFrom(ctx, i, waiting, count).0, j)
    decreases SENSORS - i
  {
    hide Visit, VisitFrom, DriversSound;
    if count == 0 || i == SENSORS {
      VisitFromEnd(ctx, i, waiting, count, j);
    } else {
      VisitFromStep(ctx, i, waiting, count);
      VisitOther(ctx, i, waiting[i], count, j);
      var (ctx1, out1) := Visit(ctx, i, waiting[i], count);
      VisitsOther(ctx1, i + 1, waiting, count - |out1|, j);
    }
  }

  /** The room that is left when the inner loop reaches driver `j`. */
  function RoomAt(ctx: Context, i: nat, waiting: seq<seq<Event>>, count: nat, j: nat): nat
    requires Sound(ctx) && |waiting| == SENSORS && i <= j < SENSORS
    decreases j - i
  {
    if count == 0 || i == j then count
    else
      var (ctx1, out1) := Visit(ctx, i, waiting[i], count);
      RoomAt(ctx1, i + 1, waiting, count - |out1|, j)
  }

  /** The pending sample goes out alone. */
  lemma VisitPending(ctx: Context, waiting: seq<Event>, count: nat, j: nat)
    requires Sound(ctx) && j < SENSORS && count >= 1 && ctx.drivers[j].hasPending
    ensures var (ctx', out) := Visit(ctx, j, waiting, count);
            && ctx'.drivers[j] == ctx.drivers[j].(hasPending := false)
            && |out| == (if ctx.drivers[j].enabled != 0 then 1 else 0)
            && (ctx'.revents[j] <==> ctx.revents[j] && count == 1 && ctx.drivers[j].enabled != 0)
  {}

  /** A driver with a pending sample after the inner loop: untouched if there was no room for it,
    * otherwise with its events as they were, and POLLIN recorded only if it was before and the
    * pending sample took the last room. */
  lemma {:induction false} VisitsPending(ctx: Context, i: nat, waiting: seq<seq<Event>>, count: nat, j: nat)
    requires Sound(ctx) && |waiting| == SENSORS && i <= j < SENSORS && ctx.drivers[j].hasPending
    ensures var (ctx', out) := VisitFrom(ctx, i, waiting, count);
            var room := RoomAt(ctx, i, waiting, count, j);
            var fills := room == 1 && ctx.drivers[j].enabled != 0;
            && (room == 0 ==> Same(ctx, ctx', j) && |out| == count)
            && (room > 0 ==> ctx'.drivers[j] == ctx.drivers[j].(hasPending := false)
                             && (ctx'.revents[j] <==> ctx.revents[j] && fills))
            && (fills ==> |out| == count)
    decreases j - i
  {
    hide Visit, VisitFrom, DriversSound;
    if count == 0 {
      VisitFromEnd(ctx, i, waiting, count, j);
    } else {
      VisitFromStep(ctx, i, waiting, count);
      var (ctx1, out1) := Visit(ctx, i, waiting[i], count);
      if i == j {
        VisitPending(ctx, waiting[i], count, j);
        VisitsOther(ctx1, i + 1, waiting, count - |out1|, j);
      } else {
        VisitOther(ctx, i, waiting[i], count, j);
        VisitsPending(ctx1, i + 1, waiting, count - |out1|, j);
      }
    }
  }

  // -------- the whole call

  /** Some poll(2) that the call makes reports driver `j`. */
  predicate Reported(ctx: Context, turns: seq<Turn>, count: nat, j: nat)
    requires Sound(ctx) && TurnsOk(turns) && j < SENSORS
    decreases |turns|
  {
    turns != [] &&
    var (ctx1, out1) := VisitFrom(ctx, 0, turns[0].waiting, count);
    var polled := turns[0].polled;
    && |out1| < count && polled.Ready?
    && (polled.readable[j]
        || (Nonzero(polled) && Reported(ctx1.(revents := polled.readable), turns[1..], count - |out1|, j)))
  }

  /** Events without POLLIN recorded are read again exactly if a poll(2) of the call reports them. */
  lemma {:induction false} LostIff(ctx: Context, turns: seq<Turn>, count: nat, j: nat)
    requires Sound(ctx) && TurnsOk(turns) && j < SENSORS
    requires !ctx.drivers[j].hasPending && ctx.drivers[j].queue != [] && !ctx.revents[j]
    ensures Kept(PollSpec(ctx, turns, count).0, j) <==> Reported(ctx, turns, count, j)
    decreases |turns|
  {
    hide VisitFrom, DriversSound;
    if turns != [] {
      VisitsOther(ctx, 0, turns[0].waiting, count, j);
      var (ctx1, out1) := VisitFrom(ctx, 0, turns[0].waiting, count);
      if |out1| < count && turns[0].polled.Ready? {
        AfterPoll(ctx1, turns, count - |out1|, j);
      }
    }
  }

  /** From the poll(2) of a turn on, for a driver without a pending sample whose POLLIN was not
    * recorded before it. */
  lemma AfterPoll(ctx: Context, turns: seq<Turn>, room: nat, j: nat)
    requires Sound(ctx) && turns != [] && TurnsOk(turns) && j < SENSORS && turns[0].polled.Ready?
    requires !ctx.drivers[j].hasPending
    ensures var polled := turns[0].polled;
            var ctx' := ctx.(revents := polled.readable);
            if Nonzero(polled) then
              Kept(PollSpec(ctx', turns[1..], room).0, j) <==>
                || ctx.drivers[j].queue == []
                || polled.readable[j]
                || Reported(ctx', turns[1..], room, j)
            else !polled.readable[j] && (Kept(ctx', j) <==> ctx.drivers[j].queue == [])
    decreases |turns|, 0
  {
    hide PollSpec, Reported, DriversSound;
    var polled := turns[0].polled;
    var ctx' := ctx.(revents := polled.readable);
    if Nonzero(polled) {
      if ctx.drivers[j].queue == [] || polled.readable[j] {
        NothingStranded(ctx', turns[1..], room, j);
      } else {
        LostIff(ctx', turns[1..], room, j);
      }
    }
  }

  /** After a call, a driver that had a pending sample is still to be read, or has nothing left to
    * read, exactly if its ring was empty, or the call had no room for its sample, or the sample took
    * the last room and POLLIN was recorded, or a poll(2) of the call reported it. Otherwise its
    * events are forgotten. */
  lemma PendingKeptIff(ctx: Context, turns: seq<Turn>, count: nat, j: nat)
    requires Sound(ctx) && TurnsOk(turns) && j < SENSORS && ctx.drivers[j].hasPending
    ensures Kept(PollSpec(ctx, turns, count).0, j) <==>
              || turns == []
              || ctx.drivers[j].queue == []
              || (var room := RoomAt(ctx, 0, turns[0].waiting, count, j);
                  room == 0 || (room == 1 && ctx.drivers[j].enabled != 0 && ctx.revents[j]))
              || Reported(ctx, turns, count, j)
  {
    hide VisitFrom, RoomAt, DriversSound;
    if turns != [] {
      VisitsPending(ctx, 0, turns[0].waiting, count, j);
      var (ctx1, out1) := VisitFrom(ctx, 0, turns[0].waiting, count);
      if |out1| < count && turns[0].polled.Ready? {
        AfterPoll(ctx1, turns, count - |out1|, j);
      }
    }
  }

  // -------- a reachable case

  const NOBODY := [false, false, false, false, false]
  const PROXIMITY := [false, true, false, false, false]
  const SYN := Event(EV_SYN, 0, 0)
  const SILENT: seq<seq<Event>> := [[], [], [], [], []]

  /** The context as constructed, where proximity could be enabled and its initial state not read. */
  function AtStart(flag: int, canOpen: seq<bool>): (ctx: Context)
    requires |canOpen| == SENSORS && canOpen[1]
    ensures Sound(ctx)
  {
    Context([Built(Light, flag, canOpen[0], None), Built(Proximity, flag, canOpen[1], None),
             Built(Accelerometer, flag, canOpen[2], None), Built(Magnetometer, flag, canOpen[3], None),
             Built(Orientation, flag, canOpen[4], None)], NOBODY)
  }

  /** Two proximity samples arrive during a call for one of them. */
  const FIRST_CALL := [Turn(SILENT, Ready(PROXIMITY, false)),
                       Turn([[], [SYN, SYN], [], [], []], Ready(NOBODY, false))]

  /** Then the sensor is disabled and enabled again, and its initial state is read. */
  function Story(distance: int): seq<Action> {
    [Poll(FIRST_CALL, 1), Switch(1, 0, true, None), Switch(1, 1, true, Some(distance))]
  }

  lemma StoryOk(distance: int)
    ensures TurnsOk(FIRST_CALL) && forall k :: 0 <= k < |Story(distance)| ==> ActionOk(Story(distance)[k])
  {
    assert FIRST_CALL[1..][1..] == [];
  }

  lemma OneSampleLeft(flag: int)
    ensures var st := Built(Proximity, flag, true, None);
            !st.hasPending && st.enabled == 1 && ReadSpec(st, [SYN, SYN], 1) == (st.(queue := [SYN]), [st.pending])
  {
    var st := Built(Proximity, flag, true, None);
    var queue := [SYN, SYN];
    assert st.queue + queue == queue && queue[1..] == [SYN] && queue[0] == SYN;
    assert Drain(Proximity, true, st.pending, [SYN], 0) == (st.pending, [SYN], []);
    assert [st.pending] + [] == [st.pending];
    assert Drain(Proximity, true, st.pending, queue, 1) == (st.pending, [SYN], [st.pending]);
  }

  lemma NothingPending(flag: int, canOpen: seq<bool>)
    requires |canOpen| == SENSORS && canOpen[1]
    ensures var ctx := AtStart(flag, canOpen);
            forall i :: 0 <= i < SENSORS ==> !ctx.revents[i] && !ctx.drivers[i].hasPending
  {}

  lemma FirstVisits(flag: int, canOpen: seq<bool>)
    requires |canOpen| == SENSORS && canOpen[1]
    ensures var ctx := AtStart(flag, canOpen);
            VisitFrom(ctx.(revents := PROXIMITY), 0, FIRST_CALL[1].waiting, 1)
            == (Context(ctx.drivers[1 := ctx.drivers[1].(queue := [SYN])], PROXIMITY), [ctx.drivers[1].pending])
  {
    var ctx := AtStart(flag, canOpen).(revents := PROXIMITY);
    var waiting := FIRST_CALL[1].waiting;
    NothingPending(flag, canOpen);
    OneSampleLeft(flag);
    var (ctx1, out1) := Visit(ctx, 1, waiting[1], 1);
    assert Arriving(ctx.drivers[1], waiting[1]) == [SYN, SYN];
    hide Visit, VisitFrom, DriversSound;
    SkipQuiet(ctx, 0, waiting, 1);
    VisitFromStep(ctx, 1, waiting, 1);
    VisitFromEnd(ctx1, 2, waiting, 0, 1);
    assert out1 + [] == out1;
  }

  /** A turn in which nothing is handed out and poll(2) finds something. */
  lemma EmptyTurn(ctx: Context, turns: seq<Turn>, count: nat)
    requires Sound(ctx) && TurnsOk(turns) && turns != [] && count > 0 && Nonzero(turns[0].polled)
    requires VisitFrom(ctx, 0, turns[0].waiting, count) == (ctx, [])
    ensures PollSpec(ctx, turns, count).0 == PollSpec(ctx.(revents := turns[0].polled.readable), turns[1..], count).0
  {
    hide VisitFrom, DriversSound;
  }

  /** A turn in which as many samples are handed out as were asked for. */
  lemma FullTurn(ctx: Context, turns: seq<Turn>, count: nat)
    requires Sound(ctx) && TurnsOk(turns) && turns != []
    requires |VisitFrom(ctx, 0, turns[0].waiting, count).1| == count
    ensures PollSpec(ctx, turns, count).0 == VisitFrom(ctx, 0, turns[0].waiting, count).0
  {
    hide VisitFrom, DriversSound;
  }

  /** What the first call leaves: one sample in the ring, with POLLIN recorded. */
  lemma AfterFirstCall(flag: int, canOpen: seq<bool>)
    requires |canOpen| == SENSORS && canOpen[1]
    ensures TurnsOk(FIRST_CALL)
    ensures var ctx := AtStart(flag, canOpen);
            PollSpec(ctx, FIRST_CALL, 1).0
            == Context(ctx.drivers[1 := ctx.drivers[1].(queue := [SYN])], PROXIMITY)
  {
    StoryOk(0);
    NothingPending(flag, canOpen);
    FirstVisits(flag, canOpen);
    assert FIRST_CALL[1..] == [FIRST_CALL[1]];
    assert Nonzero(Ready(PROXIMITY, false)) by { assert PROXIMITY[1]; }
    hide VisitFrom, AtStart, PollSpec, DriversSound;
    var ctx := AtStart(flag, canOpen);
    QuietFrom(ctx, 0, SILENT, 1);
    EmptyTurn(ctx, FIRST_CALL, 1);
    FullTurn(ctx.(revents := PROXIMITY), FIRST_CALL[1..], 1);
  }

  /** A session with one more action. */
  lemma OneMore(ctx: Context, actions: seq<Action>, a: Action)
    requires Sound(ctx) && ActionOk(a) && forall k :: 0 <= k < |actions| ==> ActionOk(actions[k])
    ensures var ctx1 := Session(ctx, actions);
            Session(ctx, actions + [a]) ==
            if a.Poll? then PollSpec(ctx1, a.turns, a.count).0
            else Switched(ctx1, a.i, a.en, a.canOpen, a.distance)
  {
    hide PollSpec, Switched, DriversSound;
    assert (actions + [a])[..|actions + [a]| - 1] == actions;
  }

  lemma StoryEnds(flag: int, canOpen: seq<bool>, distance: int)
    requires |canOpen| == SENSORS && canOpen[1]
    ensures TurnsOk(FIRST_CALL) && forall k :: 0 <= k < |Story(distance)| ==> ActionOk(Story(distance)[k])
    ensures Session(AtStart(flag, canOpen), Story(distance))
            == Switched(Switched(PollSpec(AtStart(flag, canOpen), FIRST_CALL, 1).0, 1, 0, true, None),
                        1, 1, true, Some(distance))
  {
    hide PollSpec, Switched, DriversSound, Session, AtStart;
    StoryOk(distance);
    var ctx, s := AtStart(flag, canOpen), Story(distance);
    assert [] + [s[0]] == [s[0]] && [s[0]] + [s[1]] == [s[0], s[1]] && [s[0], s[1]] + [s[2]] == s;
    OneMore(ctx, [], s[0]);
    OneMore(ctx, [s[0]], s[1]);
    OneMore(ctx, [s[0], s[1]], s[2]);
    NoAction(ctx);
  }

  lemma NoAction(ctx: Context)
    requires Sound(ctx)
    ensures Session(ctx, []) == ctx
  {}

  /** The reached context: a pending sample, and another in the ring. */
  lemma PendingReached(flag: int, canOpen: seq<bool>, distance: int)
    requires |canOpen| == SENSORS && canOpen[1]
    ensures forall k :: 0 <= k < |Story(distance)| ==> ActionOk(Story(distance)[k])
    ensures var ctx := Session(AtStart(flag, canOpen), Story(distance));
            && ctx.drivers[1].hasPending && ctx.drivers[1].queue == [SYN] && ctx.revents[1]
            && !ctx.revents[0] && !ctx.drivers[0].hasPending
  {
    StoryEnds(flag, canOpen, distance);
    AfterFirstCall(flag, canOpen);
    NothingPending(flag, canOpen);
    OneSampleLeft(flag);
    hide Session, PollSpec, Story;
  }

  /** And a call that forgets the sample in the ring: with room for two, it hands out the pending
    * sample, and poll(2) finds nothing. */
  lemma SampleForgotten(flag: int, canOpen: seq<bool>, distance: int)
    requires |canOpen| == SENSORS && canOpen[1]
    ensures forall k :: 0 <= k < |Story(distance)| ==> ActionOk(Story(distance)[k])
    ensures var ctx := Session(AtStart(flag, canOpen), Story(distance));
            !Kept(PollSpec(ctx, [Turn(SILENT, Ready(NOBODY, false))], 2).0, 1)
  {
    PendingReached(flag, canOpen, distance);
    var ctx := Session(AtStart(flag, canOpen), Story(distance));
    hide Session, Story, AtStart, PollSpec;
    var turn := Turn(SILENT, Ready(NOBODY, false));
    PendingKeptIff(ctx, [turn], 2, 1);
    VisitQuiet(ctx, 0, SILENT, 2);
    assert RoomAt(ctx, 0, SILENT, 2, 1) == 2;
    assert !Nonzero(turn.polled);
  }
}
