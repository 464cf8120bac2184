/** How a call of pollEvents ends: turn by turn, what there is when the drivers have been visited, and
  * which turn is the last.
  */
module SensorTurns {
  import opened SensorRing
  import opened SensorDriver
  import opened SensorPollSpec

  /** What there is at some point of a call: the context, the room left and the samples so far. */
  datatype Point = Point(ctx: Context, room: nat, out: seq<Sample>)

  lemma {:induction false} EachTurnOk(turns: seq<Turn>)
    requires TurnsOk(turns)
    ensures forall k :: 0 <= k < |turns| ==> TurnOk(turns[k])
  {
    if turns != [] { EachTurnOk(turns[1..]); }
  }

  /** When turn `k` begins, if the call gets there. */
  function Begun(ctx: Context, turns: seq<Turn>, count: nat, k: nat): (p: Point)
    requires Sound(ctx) && TurnsOk(turns) && k <= |turns|
    ensures Sound(p.ctx)
    decreases k, 0
  {
    if k == 0 then Point(ctx, count, [])
    else
      EachTurnOk(turns);
      var p, polled := Visited(ctx, turns, count, k - 1), turns[k - 1].polled;
      if polled.Ready? then p.(ctx := p.ctx.(revents := polled.readable)) else p
  }

  /** When the drivers have been visited in turn `k`. */
  function Visited(ctx: Context, turns: seq<Turn>, count: nat, k: nat): (p: Point)
    requires Sound(ctx) && TurnsOk(turns) && k < |turns|
    ensures Sound(p.ctx)
    decreases k, 1
  {
    EachTurnOk(turns);
    var p := Begun(ctx, turns, count, k);
    var (ctx', out) := VisitFrom(p.ctx, 0, turns[k].waiting, p.room);
    Point(ctx', p.room - |out|, p.out + out)
  }

  /** poll(2) reported a device, or the wake pipe, or an error condition of a device. */
  ghost predicate Reports(p: Polled) {
    p.Ready? && (p.other || exists i :: 0 <= i < |p.readable| && p.readable[i])
  }

  /** The point reached from a first turn, and the same point counted from the second. */
  lemma {:induction false} OneTurnLater(ctx: Context, turns: seq<Turn>, count: nat, k: nat)
    requires Sound(ctx) && TurnsOk(turns) && k < |turns| && turns[0].polled.Ready?
    ensures TurnOk(turns[0]) && TurnsOk(turns[1..])
    ensures var (ctx1, out1) := VisitFrom(ctx, 0, turns[0].waiting, count);
            var ctx' := ctx1.(revents := turns[0].polled.readable);
            var p, q := Begun(ctx, turns, count, k + 1), Begun(ctx', turns[1..], count - |out1|, k);
            && p == q.(out := out1 + q.out)
            && (k + 1 < |turns| ==>
                  var p', q' := Visited(ctx, turns, count, k + 1), Visited(ctx', turns[1..], count - |out1|, k);
                  p' == q'.(out := out1 + q'.out))
    decreases k
  {
    hide VisitFrom, DriversSound;
    var (ctx1, out1) := VisitFrom(ctx, 0, turns[0].waiting, count);
    assert turns[1..] == turns[1..][..];
    EachTurnOk(turns);
    if k == 0 {
      assert [] + out1 == out1 && out1 + [] == out1;
    } else {
      OneTurnLater(ctx, turns, count, k - 1);
      assert turns[1..][k - 1] == turns[k];
    }
    if k + 1 < |turns| {
      var q := Begun(ctx1.(revents := turns[0].polled.readable), turns[1..], count - |out1|, k);
      assert turns[1..][k] == turns[k + 1];
      var more := VisitFrom(q.ctx, 0, turns[k + 1].waiting, q.room).1;
      assert out1 + (q.out + more) == (out1 + q.out) + more;
    }
  }

  /** The call ends in turn `last`, every earlier one having left room and reported something; or it
    * still waits after all of them. */
  ghost predicate EndsAt(ctx: Context, turns: seq<Turn>, count: nat, last: nat, r: (Context, seq<Sample>, End))
    requires Sound(ctx) && TurnsOk(turns) && last <= |turns|
  {
    && (forall k :: 0 <= k < last ==> Reports(turns[k].polled) && Visited(ctx, turns, count, k).room > 0)
    && if last == |turns| then
         var p := Begun(ctx, turns, count, last);
         r == (p.ctx, p.out, if p.room == 0 then Full else Waiting)
       else
         var p, polled := Visited(ctx, turns, count, last), turns[last].polled;
         if p.room == 0 then r == (p.ctx, p.out, Full)
         else if polled.PollFailed? then r == (p.ctx, p.out, Failed(polled.errno))
         else !Reports(polled) && r == (p.ctx.(revents := polled.readable), p.out, NoMore)
  }

  lemma EndsLater(ctx: Context, turns: seq<Turn>, count: nat, last: nat, r: (Context, seq<Sample>, End))
    requires Sound(ctx) && TurnsOk(turns) && last < |turns| && turns[0].polled.Ready? && Reports(turns[0].polled)
    requires TurnOk(turns[0]) && TurnsOk(turns[1..])
    requires var (ctx1, out1) := VisitFrom(ctx, 0, turns[0].waiting, count);
             && |out1| < count
             && EndsAt(ctx1.(revents := turns[0].polled.readable), turns[1..], count - |out1|, last, r)
    ensures var out1 := VisitFrom(ctx, 0, turns[0].waiting, count).1;
            EndsAt(ctx, turns, count, last + 1, (r.0, out1 + r.1, r.2))
  {
    hide VisitFrom, DriversSound, Begun, Visited, Reports;
    EarlierLater(ctx, turns, count, last);
    OneTurnLater(ctx, turns, count, last);
    if last + 1 < |turns| { assert turns[1..][last] == turns[last + 1]; }
  }

  lemma EarlierLater(ctx: Context, turns: seq<Turn>, count: nat, last: nat)
    requires Sound(ctx) && TurnsOk(turns) && last < |turns| && turns[0].polled.Ready? && Reports(turns[0].polled)
    requires TurnOk(turns[0]) && TurnsOk(turns[1..])
    requires var (ctx1, out1) := VisitFrom(ctx, 0, turns[0].waiting, count);
             && |out1| < count
             && var ctx' := ctx1.(revents := turns[0].polled.readable);
                forall k :: 0 <= k < last ==>
                  Reports(turns[1..][k].polled) && Visited(ctx', turns[1..], count - |out1|, k).room > 0
    ensures forall k :: 0 <= k < last + 1 ==> Reports(turns[k].polled) && Visited(ctx, turns, count, k).room > 0
  {
    hide VisitFrom, DriversSound, Begun, Visited, Reports;
    forall k | 0 <= k < last + 1 ensures Reports(turns[k].polled) && Visited(ctx, turns, count, k).room > 0 {
      if k > 0 {
        OneTurnLater(ctx, turns, count, k - 1);
        assert turns[1..][k - 1] == turns[k];
      } else {
        FirstVisited(ctx, turns, count);
      }
    }
  }

  lemma FirstVisited(ctx: Context, turns: seq<Turn>, count: nat)
    requires Sound(ctx) && TurnsOk(turns) && turns != []
    ensures var (ctx1, out1) := VisitFrom(ctx, 0, turns[0].waiting, count);
            Visited(ctx, turns, count, 0) == Point(ctx1, count - |out1|, out1)
  {
    hide VisitFrom, DriversSound;
    var (ctx1, out1) := VisitFrom(ctx, 0, turns[0].waiting, count);
    assert [] + out1 == out1;
  }

  lemma EndsNow(ctx: Context, turns: seq<Turn>, count: nat)
    requires Sound(ctx) && TurnsOk(turns)
    requires turns != [] ==>
               || |VisitFrom(ctx, 0, turns[0].waiting, count).1| == count
               || !Reports(turns[0].polled)
    ensures EndsAt(ctx, turns, count, 0, PollSpec(ctx, turns, count))
  {
    hide VisitFrom, DriversSound;
    if turns != [] { FirstVisited(ctx, turns, count); }
  }

  lemma GoesOn(ctx: Context, turns: seq<Turn>, count: nat)
    requires Sound(ctx) && TurnsOk(turns) && turns != [] && Reports(turns[0].polled)
    requires |VisitFrom(ctx, 0, turns[0].waiting, count).1| < count
    ensures var (ctx1, out1) := VisitFrom(ctx, 0, turns[0].waiting, count);
            var r := PollSpec(ctx1.(revents := turns[0].polled.readable), turns[1..], count - |out1|);
            PollSpec(ctx, turns, count) == (r.0, out1 + r.1, r.2)
  {
    hide VisitFrom, DriversSound;
  }

  /** A call goes on to the next turn exactly if there is room left after the visits and poll(2)
    * reports something, be it only the wake pipe. So it ends for want of events only if poll(2)
    * reported nothing at all, and every earlier one something. */
  lemma {:induction false} CallEnds(ctx: Context, turns: seq<Turn>, count: nat) returns (last: nat)
    requires Sound(ctx) && TurnsOk(turns)
    ensures last <= |turns| && EndsAt(ctx, turns, count, last, PollSpec(ctx, turns, count))
    decreases |turns|
  {
    hide VisitFrom, DriversSound, PollSpec, Reports, EndsAt;
    if turns == [] {
      EndsNow(ctx, turns, count);
      last := 0;
    } else {
      var (ctx1, out1) := VisitFrom(ctx, 0, turns[0].waiting, count);
      var polled := turns[0].polled;
      if |out1| == count || !Reports(polled) {
        EndsNow(ctx, turns, count);
        last := 0;
      } else {
        EachTurnOk(turns);
        assert polled.Ready? by { ReadyReports(polled); }
        var l := CallEnds(ctx1.(revents := polled.readable), turns[1..], count - |out1|);
        GoesOn(ctx, turns, count);
        EndsLater(ctx, turns, count, l,
                  PollSpec(ctx1.(revents := polled.readable), turns[1..], count - |out1|));
        last := l + 1;
      }
    }
  }

  lemma ReadyReports(p: Polled)
    ensures Reports(p) ==> p.Ready?
  {}
}
