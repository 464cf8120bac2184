/** What a call has done by the time it returns, with other threads running in between: standby(),
  * write(), read(), setParameters(), setMicMute() and the closing of a stream.
  */
module AudioCalls {
  import opened Options
  import opened AudioResources
  import opened AudioProtocol
  import opened AudioLocks
  import opened AudioStandby
  import opened AudioHandles
  import opened AudioTheorems
  import opened AudioRuns
  import opened AudioModes

  /** Thread `t` is inside a call from state `a` of a run on, and has returned in state `b`. */
  ghost predicate Returns(run: seq<State>, a: nat, b: nat, t: nat) {
    && IsRun(run) && a < b < |run|
    && (forall j :: a <= j <= b ==> t < |run[j].threads|)
    && (forall j :: a <= j < b ==> run[j].threads[t] != Idle)
    && run[b].threads[t] == Idle
  }

  /** The stream has been put into standby since its counter had this value, and has closed everything. */
  predicate OutQuiet(sh: Shared, o: nat, cnt: nat) {
    o in sh.outs && var st := sh.outs[o]; st.standby && st.pcm.None? && st.mixer.None? && st.standbyCnt > cnt
  }

  predicate InQuiet(sh: Shared, i: nat, cnt: nat) {
    i in sh.ins && var st := sh.ins[i]; st.standby && st.pcm.None? && st.mixer.None? && st.standbyCnt > cnt
  }

  // ----- where a thread can be -----

  predicate InOutStandby(pc: PC, o: nat) { pc == OsStart(o) || pc == OsHw(o) || pc == OsBody(o) }
  predicate InInStandby(pc: PC, i: nat) { pc == IsStart(i) || pc == IsHw(i) || pc == IsBody(i) }

  predicate Writing(pc: PC, o: nat) {
    (IsWrite(pc) || pc.WrStart? || pc.WrHw? || pc.WrInLock? || pc.WrInHw?) && pc.o == o
  }

  predicate Reading(pc: PC, i: nat) { IsReading(pc) && pc.i == i }

  /** In a call of write() or standby() on an output, or of read() or standby() on an input. */
  predicate UsingOut(pc: PC, o: nat) { Writing(pc, o) || InOutStandby(pc, o) }
  predicate UsingIn(pc: PC, i: nat) { Reading(pc, i) || InInStandby(pc, i) }

  lemma UsingOutTakes(sh: Shared, pc: PC, o: nat)
    requires UsingOut(pc, o) && Wants(pc).Some?
    ensures UsingOut(Locked(sh, pc), o)
  {}

  lemma UsingInTakes(sh: Shared, pc: PC, i: nat)
    requires UsingIn(pc, i) && Wants(pc).Some?
    ensures UsingIn(Locked(sh, pc), i)
  {}

  lemma WritingRuns(sh: Shared, pc: PC, o: nat, c: Choice)
    requires Writing(pc, o) && Known(sh, pc) && Wants(pc).None?
    ensures var r := RunWrite(sh, pc, c);
            if r.pc == Idle then pc == WrPlay(o) && r.sh == sh else UsingOut(r.pc, o)
  {
    hide OpenOutOf, OpenInOf, StandbyInOf, CloseInOf, FirstActive;
  }

  lemma ReadingRuns(sh: Shared, pc: PC, i: nat, c: Choice)
    requires IsRead(pc) && pc.i == i && Known(sh, pc)
    ensures var r := RunRead(sh, pc, c);
            if r.pc == Idle then pc == RdCapture(i) && r.sh == sh else UsingIn(r.pc, i)
  {
    hide OutOpen, OpenInOf, CloseOutOf, StandbyOutOf;
  }

  lemma RunIsOut(sh: Shared, pc: PC, c: Choice)
    requires Known(sh, pc) && Wants(pc).None? && pc != Idle
    ensures IsWrite(pc) ==> Run(sh, pc, c) == RunWrite(sh, pc, c)
    ensures IsOutControl(pc) ==> Run(sh, pc, c) == RunOutControl(sh, pc, c)
  {
    hide Known, Wants, RunWrite, RunRead, RunOutControl, RunInControl, RunSetMode, RunHw, RunDrop;
  }

  lemma RunIsIn(sh: Shared, pc: PC, c: Choice)
    requires Known(sh, pc) && Wants(pc).None? && pc != Idle
    ensures IsRead(pc) ==> Run(sh, pc, c) == RunRead(sh, pc, c)
    ensures IsInControl(pc) ==> Run(sh, pc, c) == RunInControl(sh, pc, c)
  {
    hide Known, Wants, RunWrite, RunRead, RunOutControl, RunInControl, RunSetMode, RunHw, RunDrop;
  }

  lemma OutPlaces(pc: PC, o: nat)
    requires UsingOut(pc, o) && Wants(pc).None?
    ensures pc != Idle && (pc == OsBody(o) || (IsWrite(pc) && Writing(pc, o)))
  {}

  lemma InPlaces(pc: PC, i: nat)
    requires UsingIn(pc, i) && Wants(pc).None?
    ensures pc != Idle && (pc == IsBody(i) || (IsRead(pc) && pc.i == i))
  {}

  /** write() returns from pcm_write, or by way of standby(), whose last step puts the stream into
    * standby. */
  lemma UsingOutRuns(sh: Shared, pc: PC, o: nat, c: Choice)
    requires UsingOut(pc, o) && Known(sh, pc) && Wants(pc).None?
    ensures var r := Run(sh, pc, c);
            if r.pc == Idle then
              (pc == WrPlay(o) && r.sh == sh) || (pc == OsBody(o) && OutQuiet(r.sh, o, sh.outs[o].standbyCnt))
            else UsingOut(r.pc, o)
  {
    hide Known, Writing, IsWrite, Run;
    OutPlaces(pc, o);
    RunIsOut(sh, pc, c);
    if pc == OsBody(o) {
      hide RunWrite;
    } else {
      WritingRuns(sh, pc, o, c);
      hide RunWrite, UsingOut, OutQuiet;
    }
  }

  lemma UsingInRuns(sh: Shared, pc: PC, i: nat, c: Choice)
    requires UsingIn(pc, i) && Known(sh, pc) && Wants(pc).None?
    ensures var r := Run(sh, pc, c);
            if r.pc == Idle then
              (pc == RdCapture(i) && r.sh == sh) || (pc == IsBody(i) && InQuiet(r.sh, i, sh.ins[i].standbyCnt))
            else UsingIn(r.pc, i)
  {
    hide Known, Reading, IsRead, Run;
    InPlaces(pc, i);
    RunIsIn(sh, pc, c);
    if pc == IsBody(i) {
      hide RunRead;
    } else {
      ReadingRuns(sh, pc, i, c);
      hide RunRead, UsingIn, InQuiet;
    }
  }

  // ----- the counters only grow -----

  lemma CountersGrow(s: State, t: nat, c: Choice)
    requires StandbyInv(s) && Enabled(s, t, c)
    ensures var sh, sh' := s.sh, Step(s, t, c).sh;
            && (forall o :: o in sh.outs ==> o in sh'.outs && sh.outs[o].standbyCnt <= sh'.outs[o].standbyCnt)
            && (forall i :: i in sh.ins ==>
                  && i in sh'.ins && sh.ins[i].standbyCnt <= sh'.ins[i].standbyCnt
                  && (sh.ins[i].standbyCnt == sh'.ins[i].standbyCnt && !sh.ins[i].standby ==> !sh'.ins[i].standby))
  {
    hide Step, Known, PcOk;
    StepEffect(s, t, c);
    OwnStep(s, t, c);
  }

  lemma {:induction false} CountersAlong(run: seq<State>, a: nat, b: nat)
    requires IsRun(run) && a <= b < |run|
    ensures forall o :: o in run[a].sh.outs ==>
              o in run[b].sh.outs && run[a].sh.outs[o].standbyCnt <= run[b].sh.outs[o].standbyCnt
    ensures forall i :: i in run[a].sh.ins ==>
              i in run[b].sh.ins && run[a].sh.ins[i].standbyCnt <= run[b].sh.ins[i].standbyCnt
    decreases b
  {
    hide IsRun, Step, Enabled, ResourceInv;
    if a < b {
      CountersAlong(run, a, b - 1);
      RunInv(run, b - 1);
      var t, c := StepAt(run, b - 1);
      CountersGrow(run[b - 1], t, c);
    }
  }

  // ----- along a call -----

  /** A step of a run, seen from thread `t`: its own, or one that leaves it where it is. */
  lemma OwnOrOther(run: seq<State>, k: nat, t: nat) returns (own: bool, c: Choice)
    requires IsRun(run) && k + 1 < |run| && t < |run[k].threads|
    ensures t < |run[k + 1].threads|
    ensures if own then Enabled(run[k], t, c) && run[k + 1] == Step(run[k], t, c)
            else run[k + 1].threads[t] == run[k].threads[t]
  {
    hide IsRun, Step, Enabled;
    var u;
    u, c := StepAt(run, k);
    StepEffect(run[k], u, c);
    own := u == t;
  }

  lemma {:induction false} StaysUsingOut(run: seq<State>, a: nat, k: nat, b: nat, t: nat, o: nat)
    requires Returns(run, a, b, t) && a <= k < b && UsingOut(run[a].threads[t], o)
    ensures UsingOut(run[k].threads[t], o)
    decreases k
  {
    hide UsingOut, IsRun, Step, Enabled, Run;
    if a < k {
      StaysUsingOut(run, a, k - 1, b, t, o);
      var own, c := OwnOrOther(run, k - 1, t);
      if own { UsingOutStep(run[k - 1], t, c, o); }
    }
  }

  lemma UsingOutStep(s: State, t: nat, c: Choice, o: nat)
    requires Enabled(s, t, c) && UsingOut(s.threads[t], o)
    ensures var pc, s' := s.threads[t], Step(s, t, c);
            && Known(s.sh, pc) && o in s.sh.outs
            && if s'.threads[t] == Idle then
                 || (pc == WrPlay(o) && s'.sh == s.sh)
                 || (pc == OsBody(o) && OutQuiet(s'.sh, o, s.sh.outs[o].standbyCnt))
               else UsingOut(s'.threads[t], o)
  {
    StepEffect(s, t, c);
    var pc := s.threads[t];
    NamesOut(pc, o);
    hide Step, Run, UsingOut, OutQuiet;
    if Wants(pc).Some? {
      UsingOutTakes(s.sh, pc, o);
      UsingOutBusy(Locked(s.sh, pc), o);
    } else {
      UsingOutRuns(s.sh, pc, o, c);
    }
  }

  lemma NamesOut(pc: PC, o: nat)
    requires UsingOut(pc, o)
    ensures pc != Idle && OutOf(pc) == Some(o)
  {}

  lemma UsingOutBusy(pc: PC, o: nat)
    requires UsingOut(pc, o)
    ensures pc != Idle
  {}

  lemma {:induction false} StaysUsingIn(run: seq<State>, a: nat, k: nat, b: nat, t: nat, i: nat)
    requires Returns(run, a, b, t) && a <= k < b && UsingIn(run[a].threads[t], i)
    ensures UsingIn(run[k].threads[t], i)
    decreases k
  {
    hide UsingIn, IsRun, Step, Enabled, Run;
    if a < k {
      StaysUsingIn(run, a, k - 1, b, t, i);
      var own, c := OwnOrOther(run, k - 1, t);
      if own { UsingInStep(run[k - 1], t, c, i); }
    }
  }

  lemma UsingInStep(s: State, t: nat, c: Choice, i: nat)
    requires Enabled(s, t, c) && UsingIn(s.threads[t], i)
    ensures var pc, s' := s.threads[t], Step(s, t, c);
            && Known(s.sh, pc) && i in s.sh.ins
            && if s'.threads[t] == Idle then
                 || (pc == RdCapture(i) && s'.sh == s.sh)
                 || (pc == IsBody(i) && InQuiet(s'.sh, i, s.sh.ins[i].standbyCnt))
               else UsingIn(s'.threads[t], i)
  {
    StepEffect(s, t, c);
    var pc := s.threads[t];
    NamesIn(pc, i);
    hide Step, Run, UsingIn, InQuiet;
    if Wants(pc).Some? {
      UsingInTakes(s.sh, pc, i);
      NamesIn(Locked(s.sh, pc), i);
    } else {
      UsingInRuns(s.sh, pc, i, c);
    }
  }

  lemma NamesIn(pc: PC, i: nat)
    requires UsingIn(pc, i)
    ensures pc != Idle && InOf(pc) == Some(i)
  {}

  // ----- write(), read() and standby() -----

  lemma StandbyAt(run: seq<State>, k: nat)
    requires IsRun(run) && k < |run|
    ensures StandbyInv(run[k]) && LocksOk(run[k])
  {
    hide IsRun, StandbyInv, LocksOk, ResourceInv;
    RunInv(run, k);
  }

  lemma UsesKnown(s: State, t: nat)
    requires StandbyInv(s) && t < |s.threads|
    ensures forall o :: UsingOut(s.threads[t], o) ==> o in s.sh.outs
    ensures forall i :: UsingIn(s.threads[t], i) ==> i in s.sh.ins
    ensures forall o :: s.threads[t] == WrPlay(o) ==> o in s.sh.outs && !s.sh.outs[o].standby
    ensures forall i :: s.threads[t] == RdCapture(i) ==> i in s.sh.ins && !s.sh.ins[i].standby
  {
    var pc := s.threads[t];
    assert Known(s.sh, pc) && PcOk(s.sh, pc);
    forall o | UsingOut(pc, o) ensures o in s.sh.outs { NamesOut(pc, o); }
    forall i | UsingIn(pc, i) ensures i in s.sh.ins { NamesIn(pc, i); }
    hide UsingOut, UsingIn, StandbyInv, OutOf, InOf;
  }

  /** When write() or standby() returns, either pcm_write was just called, and the stream is active, or the
    * stream was put into standby during the call and has closed everything. */
  lemma OutCallReturns(run: seq<State>, a: nat, b: nat, t: nat, o: nat)
    requires Returns(run, a, b, t) && UsingOut(run[a].threads[t], o)
    ensures o in run[a].sh.outs
    ensures (run[b - 1].threads[t] == WrPlay(o) && o in run[b].sh.outs && !run[b].sh.outs[o].standby)
            || OutQuiet(run[b].sh, o, run[a].sh.outs[o].standbyCnt)
  {
    hide IsRun, Step, Enabled, StandbyInv, LocksOk, UsingOut, Known;
    StaysUsingOut(run, a, b - 1, b, t, o);
    StandbyAt(run, a);
    StandbyAt(run, b - 1);
    UsesKnown(run[a], t);
    UsesKnown(run[b - 1], t);
    CountersAlong(run, a, b - 1);
    var own, c := OwnOrOther(run, b - 1, t);
    UsingOutStep(run[b - 1], t, c, o);
  }

  /** Likewise read() and standby() of an input. */
  lemma InCallReturns(run: seq<State>, a: nat, b: nat, t: nat, i: nat)
    requires Returns(run, a, b, t) && UsingIn(run[a].threads[t], i)
    ensures i in run[a].sh.ins
    ensures (run[b - 1].threads[t] == RdCapture(i) && i in run[b].sh.ins && !run[b].sh.ins[i].standby)
            || InQuiet(run[b].sh, i, run[a].sh.ins[i].standbyCnt)
  {
    hide IsRun, Step, Enabled, StandbyInv, LocksOk, UsingIn, Known;
    StaysUsingIn(run, a, b - 1, b, t, i);
    StandbyAt(run, a);
    StandbyAt(run, b - 1);
    UsesKnown(run[a], t);
    UsesKnown(run[b - 1], t);
    CountersAlong(run, a, b - 1);
    var own, c := OwnOrOther(run, b - 1, t);
    UsingInStep(run[b - 1], t, c, i);
  }

  /** Thread `t` takes the step from state `a` of a run, with these results of its environment. */
  ghost predicate Moves(run: seq<State>, a: nat, t: nat, c: Choice) {
    a + 1 < |run| && t < |run[a].threads| && Enabled(run[a], t, c) && run[a + 1] == Step(run[a], t, c)
  }

  /** write() returns at once if pcm_write succeeds, the stream being active; if it fails, write() returns
    * only after the stream has been put into standby. */
  lemma PcmWriteDecides(run: seq<State>, a: nat, b: nat, t: nat, c: Choice, o: nat)
    requires Returns(run, a, b, t) && Moves(run, a, t, c) && run[a].threads[t] == WrPlay(o)
    ensures o in run[a].sh.outs
    ensures if c.flag then b == a + 1 && run[b].sh == run[a].sh && !run[b].sh.outs[o].standby
            else OutQuiet(run[b].sh, o, run[a].sh.outs[o].standbyCnt)
  {
    hide IsRun, Enabled, StandbyInv, LocksOk, UsingOut, OutQuiet;
    StandbyAt(run, a);
    StandbyAt(run, a + 1);
    UsesKnown(run[a], t);
    StepEffect(run[a], t, c);
    if !c.flag {
      assert run[a + 1].threads[t] == OsStart(o);
      StandbyReturns(run, a + 1, b, t, o);
    }
  }

  lemma PcmReadDecides(run: seq<State>, a: nat, b: nat, t: nat, c: Choice, i: nat)
    requires Returns(run, a, b, t) && Moves(run, a, t, c) && run[a].threads[t] == RdCapture(i)
    ensures i in run[a].sh.ins
    ensures if c.flag then b == a + 1 && run[b].sh == run[a].sh && !run[b].sh.ins[i].standby
            else InQuiet(run[b].sh, i, run[a].sh.ins[i].standbyCnt)
  {
    hide IsRun, Enabled, StandbyInv, LocksOk, UsingIn, InQuiet;
    StandbyAt(run, a);
    StandbyAt(run, a + 1);
    UsesKnown(run[a], t);
    StepEffect(run[a], t, c);
    if !c.flag {
      assert run[a + 1].threads[t] == IsStart(i);
      InStandbyReturns(run, a + 1, b, t, i);
    }
  }

  /** standby() of an output. */
  lemma StandbyReturns(run: seq<State>, a: nat, b: nat, t: nat, o: nat)
    requires Returns(run, a, b, t) && InOutStandby(run[a].threads[t], o)
    ensures o in run[a].sh.outs && OutQuiet(run[b].sh, o, run[a].sh.outs[o].standbyCnt)
  {
    hide IsRun, OutQuiet;
    StaysInStandby(run, a, b - 1, b, t, o);
    OutCallReturns(run, a, b, t, o);
  }

  lemma {:induction false} StaysInStandby(run: seq<State>, a: nat, k: nat, b: nat, t: nat, o: nat)
    requires Returns(run, a, b, t) && a <= k < b && InOutStandby(run[a].threads[t], o)
    ensures InOutStandby(run[k].threads[t], o)
    decreases k
  {
    hide IsRun, Step, Enabled, Run;
    if a < k {
      StaysInStandby(run, a, k - 1, b, t, o);
      var own, c := OwnOrOther(run, k - 1, t);
      if own { StandbyStep(run[k - 1], t, c, o); }
    }
  }

  lemma StandbyStep(s: State, t: nat, c: Choice, o: nat)
    requires Enabled(s, t, c) && InOutStandby(s.threads[t], o)
    ensures var pc' := Step(s, t, c).threads[t]; pc' == Idle || InOutStandby(pc', o)
  {
    StepEffect(s, t, c);
    hide Run;
    if s.threads[t].OsBody? { RunIsOut(s.sh, s.threads[t], c); }
    hide Step, StandbyOutOf;
  }

  lemma InStandbyStep(s: State, t: nat, c: Choice, i: nat)
    requires Enabled(s, t, c) && InInStandby(s.threads[t], i)
    ensures var pc' := Step(s, t, c).threads[t]; pc' == Idle || InInStandby(pc', i)
  {
    StepEffect(s, t, c);
    hide Run;
    if s.threads[t].IsBody? { RunIsIn(s.sh, s.threads[t], c); }
    hide Step, StandbyInOf;
  }

  /** standby() of an input. */
  lemma InStandbyReturns(run: seq<State>, a: nat, b: nat, t: nat, i: nat)
    requires Returns(run, a, b, t) && InInStandby(run[a].threads[t], i)
    ensures i in run[a].sh.ins && InQuiet(run[b].sh, i, run[a].sh.ins[i].standbyCnt)
  {
    hide IsRun, InQuiet;
    StaysInInStandby(run, a, b - 1, b, t, i);
    InCallReturns(run, a, b, t, i);
  }

  lemma {:induction false} StaysInInStandby(run: seq<State>, a: nat, k: nat, b: nat, t: nat, i: nat)
    requires Returns(run, a, b, t) && a <= k < b && InInStandby(run[a].threads[t], i)
    ensures InInStandby(run[k].threads[t], i)
    decreases k
  {
    hide IsRun, Step, Enabled, Run;
    if a < k {
      StaysInInStandby(run, a, k - 1, b, t, i);
      var own, c := OwnOrOther(run, k - 1, t);
      if own { InStandbyStep(run[k - 1], t, c, i); }
    }
  }

  // ----- calls that put a stream into standby -----

  /** The end of closing an output: if the reference was the last, the call returns only after the stream
    * has been put into standby; likewise an input. */
  lemma LastReferenceQuiets(run: seq<State>, a: nat, b: nat, t: nat, c: Choice)
    requires Returns(run, a, b, t) && Moves(run, a, t, c)
    ensures forall o :: run[a].threads[t] == HwDropOut(o) ==>
              && o in run[a].sh.outs
              && if c.flag then OutQuiet(run[b].sh, o, run[a].sh.outs[o].standbyCnt)
                 else b == a + 1 && run[b].sh == run[a].sh
    ensures forall i :: run[a].threads[t] == HwDropIn(i) ==>
              && i in run[a].sh.ins
              && if c.flag then InQuiet(run[b].sh, i, run[a].sh.ins[i].standbyCnt)
                 else b == a + 1 && run[b].sh == run[a].sh
  {
    hide IsRun, OutQuiet, InQuiet;
    var pc := run[a].threads[t];
    StepEffect(run[a], t, c);
    if pc.HwDropOut? && c.flag {
      StandbyReturns(run, a + 1, b, t, pc.o);
    } else if pc.HwDropIn? && c.flag {
      InStandbyReturns(run, a + 1, b, t, pc.i);
    }
  }

  /** setMicMute: if the state changes outside a call, the first active input is put into standby. */
  lemma MicMuteReturns(run: seq<State>, a: nat, b: nat, t: nat, c: Choice)
    requires Returns(run, a, b, t) && Moves(run, a, t, c) && run[a].threads[t] == HwBody(SetMicMute)
    ensures var sh := run[a].sh;
            if c.flag && sh.mode != InCall && ActiveInput(sh).Some? then
              var i := ActiveInput(sh).value;
              i in sh.ins && InQuiet(run[b].sh, i, sh.ins[i].standbyCnt)
            else b == a + 1 && run[b].sh == sh
  {
    hide IsRun, InQuiet, FirstActive;
    StepEffect(run[a], t, c);
    var sh := run[a].sh;
    if c.flag && sh.mode != InCall && ActiveInput(sh).Some? {
      assert run[a + 1].threads[t] == IsStart(ActiveInput(sh).value) && run[a + 1].sh == sh;
      InStandbyReturns(run, a + 1, b, t, ActiveInput(sh).value);
    }
  }

  /** getActiveInput_l gives the first of the registered inputs that is not in standby. */
  lemma {:induction false} FirstIsFirst(inputs: seq<nat>, ins: map<nat, InStream>)
    requires forall i :: i in inputs ==> i in ins
    ensures var r := FirstActive(inputs, ins);
            && (r.None? <==> forall k :: 0 <= k < |inputs| ==> ins[inputs[k]].standby)
            && (r.Some? ==> exists k :: 0 <= k < |inputs| && inputs[k] == r.value && !ins[inputs[k]].standby
                              && forall j :: 0 <= j < k ==> ins[inputs[j]].standby)
  {
    if inputs != [] && ins[inputs[0]].standby {
      var rest := inputs[1..];
      FirstIsFirst(rest, ins);
      if FirstActive(rest, ins).Some? {
        var k :| 0 <= k < |rest| && rest[k] == FirstActive(rest, ins).value && !ins[rest[k]].standby
                 && forall j :: 0 <= j < k ==> ins[rest[j]].standby;
        assert inputs[k + 1] == rest[k];
        forall j | 0 <= j < k + 1 ensures ins[inputs[j]].standby {
          if j > 0 { assert inputs[j] == rest[j - 1]; }
        }
      } else {
        forall k | 0 <= k < |inputs| ensures ins[inputs[k]].standby {
          if k > 0 { assert inputs[k] == rest[k - 1]; }
        }
      }
    }
  }

  /** setParameters of an output: a change of the route puts the stream, and no other, into standby, but
    * not in a call. */
  lemma RouteChanged(run: seq<State>, a: nat, t: nat, c: Choice, o: nat)
    requires IsRun(run) && Moves(run, a, t, c) && run[a].threads[t] == OpBody(o)
    ensures run[a + 1].threads[t] == Idle
    ensures if c.flag && run[a].sh.mode != InCall then OnlyTheseQuieted(run[a].sh, Some(o), None, run[a + 1].sh)
            else run[a + 1].sh == run[a].sh
  {
    hide IsRun, OnlyTheseQuieted, OutDoStandby;
    StepEffect(run[a], t, c);
    OutQuieted(run[a].sh, o);
  }

  lemma InRouteChanged(run: seq<State>, a: nat, t: nat, c: Choice, i: nat)
    requires IsRun(run) && Moves(run, a, t, c) && run[a].threads[t] == IpRouteBody(i)
    ensures run[a + 1].threads[t] == Idle
    ensures if c.flag && run[a].sh.mode != InCall then OnlyTheseQuieted(run[a].sh, None, Some(i), run[a + 1].sh)
            else run[a + 1].sh == run[a].sh
  {
    hide IsRun, OnlyTheseQuieted, InDoStandby;
    StepEffect(run[a], t, c);
    InQuieted(run[a].sh, i);
  }

  predicate InRoute(pc: PC) { pc.OpHw? || pc.OpBody? || pc.IpRouteHw? || pc.IpRouteBody? }

  predicate SameRoute(pc: PC, pc': PC) {
    InRoute(pc) && InRoute(pc') && OutOf(pc) == OutOf(pc') && InOf(pc) == InOf(pc')
  }

  lemma RouteStep(s: State, t: nat, c: Choice)
    requires Enabled(s, t, c) && InRoute(s.threads[t])
    ensures var pc, pc' := s.threads[t], Step(s, t, c).threads[t];
            if pc' == Idle then pc.OpBody? || pc.IpRouteBody? else SameRoute(pc, pc')
  {
    StepEffect(s, t, c);
    hide Step, StandbyOutOf, StandbyInOf;
  }

  lemma {:induction false} StaysInRoute(run: seq<State>, a: nat, k: nat, b: nat, t: nat)
    requires Returns(run, a, b, t) && a <= k < b && InRoute(run[a].threads[t])
    ensures SameRoute(run[a].threads[t], run[k].threads[t])
    decreases k
  {
    hide IsRun, Step, Enabled, Run, OutOf, InOf;
    if a < k {
      StaysInRoute(run, a, k - 1, b, t);
      var own, c := OwnOrOther(run, k - 1, t);
      if own { RouteStep(run[k - 1], t, c); }
    }
  }

  lemma RouteEnds(run: seq<State>, a: nat, b: nat, t: nat)
    requires Returns(run, a, b, t) && InRoute(run[a].threads[t])
    ensures var pc := run[b - 1].threads[t]; SameRoute(run[a].threads[t], pc) && (pc.OpBody? || pc.IpRouteBody?)
  {
    hide IsRun, Step, Enabled, SameRoute;
    StaysInRoute(run, a, b - 1, b, t);
    var own, c := OwnOrOther(run, b - 1, t);
    assert InRoute(run[b - 1].threads[t]) by { SameIsRoute(run[a].threads[t], run[b - 1].threads[t]); }
    RouteStep(run[b - 1], t, c);
  }

  lemma SameIsRoute(pc: PC, pc': PC)
    requires SameRoute(pc, pc')
    ensures InRoute(pc')
  {}

  lemma RouteAsked(s: State, t: nat, c: Choice)
    requires Enabled(s, t, c) && (s.threads[t].OpTest? || s.threads[t].IpRoute?)
    ensures var pc, s' := s.threads[t], Step(s, t, c);
            && s'.sh == s.sh
            && s'.threads[t] == if !c.flag then Idle else if pc.OpTest? then OpHw(pc.o) else IpRouteHw(pc.i)
  {
    StepEffect(s, t, c);
    hide Step;
  }

  /** A route in the parameters is looked at under the hardware lock before the call returns; without one,
    * nothing changes. */
  lemma RouteLookedAt(run: seq<State>, a: nat, b: nat, t: nat, c: Choice)
    requires Returns(run, a, b, t) && Moves(run, a, t, c) && (run[a].threads[t].OpTest? || run[a].threads[t].IpRoute?)
    ensures var pc := run[a].threads[t];
            if c.flag then run[b - 1].threads[t] == if pc.OpTest? then OpBody(pc.o) else IpRouteBody(pc.i)
            else b == a + 1 && run[b].sh == run[a].sh
  {
    hide IsRun, Step, Enabled;
    RouteAsked(run[a], t, c);
    if c.flag { RouteEnds(run, a + 1, b, t); }
  }
}
