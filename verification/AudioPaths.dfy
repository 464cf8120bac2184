/** Which way a call goes before it returns: setMode by its decision, setParameters by its tests, the
  * others by their body. With what these do (AudioModes, AudioCalls) this covers the call from its start.
  */
module AudioPaths {
  import opened Options
  import opened AudioResources
  import opened AudioProtocol
  import opened AudioLocks
  import opened AudioStandby
  import opened AudioHandles
  import opened AudioTheorems
  import opened AudioRuns
  import opened AudioModes
  import opened AudioCalls

  /** The call is between these two points. */
  datatype Leg = ModeLeg(mode: Mode) | RouteLeg(o: nat) | SourceLeg(i: nat) | SelectLeg(i: nat) | HwLeg(call: HwCall)

  /** Still before the point that the leg leads to. */
  predicate Before(leg: Leg, pc: PC) {
    match leg
    case ModeLeg(m) =>
      || pc == SmStart(m)
      || ((pc.SmOutLoop? || pc.SmOutLock? || pc.SmOutHw? || pc.SmOutCheck?
           || pc.SmInLoop? || pc.SmInLock? || pc.SmInHw? || pc.SmInCheck?) && pc.mode == m)
    case RouteLeg(o) => pc == OpStart(o)
    case SourceLeg(i) => pc == IpStart(i) || pc == IpSource(i) || pc == IpSourceHw(i) || pc == IpSourceBody(i)
    case SelectLeg(i) => pc == IpSourceHw(i)
    case HwLeg(call) => pc == HwStart(call)
  }

  predicate Reached(leg: Leg, pc: PC) {
    match leg
    case ModeLeg(m) => pc.SmApply? && pc.phase == Decide(m)
    case RouteLeg(o) => pc == OpTest(o)
    case SourceLeg(i) => pc == IpRoute(i)
    case SelectLeg(i) => pc == IpSourceBody(i)
    case HwLeg(call) => pc == HwBody(call)
  }

  lemma LegTakes(leg: Leg, sh: Shared, pc: PC)
    requires Before(leg, pc) && Wants(pc).Some?
    ensures Before(leg, Locked(sh, pc)) || Reached(leg, Locked(sh, pc))
  {}

  lemma LegRuns(leg: Leg, sh: Shared, pc: PC, c: Choice)
    requires Before(leg, pc) && Wants(pc).None? && Known(sh, pc)
    ensures pc != Idle
    ensures Before(leg, Run(sh, pc, c).pc) || Reached(leg, Run(sh, pc, c).pc)
  {
    hide Run, RunInControl, RunSetMode, Known;
    if leg.SourceLeg? {
      RunIsIn(sh, pc, c);
      SourceRuns(sh, pc, leg.i, c);
    } else {
      RunIsSetMode(sh, pc, c);
      ModeRuns(sh, pc, leg.mode, c);
    }
  }

  lemma RunIsSetMode(sh: Shared, pc: PC, c: Choice)
    requires Known(sh, pc) && (pc.SmOutLoop? || pc.SmOutCheck? || pc.SmInLoop? || pc.SmInCheck?)
    ensures Run(sh, pc, c) == RunSetMode(sh, pc, c)
  {
    hide Known, RunSetMode;
  }

  lemma SourceRuns(sh: Shared, pc: PC, i: nat, c: Choice)
    requires Known(sh, pc) && (pc == IpSource(i) || pc == IpSourceBody(i))
    ensures var pc' := RunInControl(sh, pc, c).pc; Before(SourceLeg(i), pc') || Reached(SourceLeg(i), pc')
  {
    hide OpenMixer, CloseMixer;
  }

  lemma ModeRuns(sh: Shared, pc: PC, m: Mode, c: Choice)
    requires Known(sh, pc) && (pc.SmOutLoop? || pc.SmOutCheck? || pc.SmInLoop? || pc.SmInCheck?) && pc.mode == m
    ensures var pc' := RunSetMode(sh, pc, c).pc; Before(ModeLeg(m), pc') || Reached(ModeLeg(m), pc')
  {
    hide FirstActive;
  }

  lemma LegStep(leg: Leg, s: State, t: nat, c: Choice)
    requires Enabled(s, t, c) && Before(leg, s.threads[t])
    ensures Before(leg, Step(s, t, c).threads[t]) || Reached(leg, Step(s, t, c).threads[t])
  {
    StepEffect(s, t, c);
    var pc := s.threads[t];
    NotIdle(leg, pc);
    hide Step, Run, Before, Reached;
    if Wants(pc).Some? {
      LegTakes(leg, s.sh, pc);
    } else {
      LegRuns(leg, s.sh, pc, c);
    }
  }

  lemma NotIdle(leg: Leg, pc: PC)
    requires Before(leg, pc) || Reached(leg, pc)
    ensures pc != Idle
  {}

  /** A call that returns has reached the end of its first leg. */
  lemma {:induction false} LegEnds(leg: Leg, run: seq<State>, a: nat, b: nat, t: nat) returns (d: nat)
    requires Returns(run, a, b, t) && Before(leg, run[a].threads[t])
    ensures a < d < b && Reached(leg, run[d].threads[t])
    decreases b - a
  {
    hide Before, Reached, IsRun, Step, Enabled;
    var own, c := OwnOrOther(run, a, t);
    if own { LegStep(leg, run[a], t, c); }
    if Reached(leg, run[a + 1].threads[t]) {
      NotIdle(leg, run[a + 1].threads[t]);
      d := a + 1;
    } else {
      NotIdle(leg, run[a + 1].threads[t]);
      d := LegEnds(leg, run, a + 1, b, t);
    }
  }

  /** An input source in the parameters is selected, with the mixer open, before the call goes on to the
    * route; and that leaves streams, counts and handles as they were. */
  lemma SourceSelected(run: seq<State>, a: nat, b: nat, t: nat, c: Choice, i: nat) returns (d: nat)
    requires Returns(run, a, b, t) && Moves(run, a, t, c) && run[a].threads[t] == IpSource(i)
    ensures a < d < b && run[d].threads[t] == if c.flag then IpSourceBody(i) else IpRoute(i)
  {
    hide IsRun, Step, Enabled;
    SourceAsked(run[a], t, c, i);
    if c.flag {
      d := LegEnds(SelectLeg(i), run, a + 1, b, t);
    } else {
      d := a + 1;
    }
  }

  lemma SourceAsked(s: State, t: nat, c: Choice, i: nat)
    requires Enabled(s, t, c) && s.threads[t] == IpSource(i)
    ensures Step(s, t, c).threads[t] == if c.flag then IpSourceHw(i) else IpRoute(i)
  {
    StepEffect(s, t, c);
    hide Step;
  }

  lemma SelectingKeeps(run: seq<State>, a: nat, t: nat, c: Choice, i: nat)
    requires IsRun(run) && Moves(run, a, t, c) && run[a].threads[t] == IpSourceBody(i) && !run[a].sh.callOpenFailed
    ensures run[a + 1].threads[t] == IpRoute(i)
    ensures var sh, sh' := run[a].sh, run[a + 1].sh;
            sh' == sh.(hw := sh'.hw) && sh'.hw == sh.hw.(serial := sh'.hw.serial)
  {
    hide IsRun, Enabled, Step, RefsOk;
    RefsAt(run, a);
    SelectStep(run[a], t, c, i);
  }

  lemma SelectStep(s: State, t: nat, c: Choice, i: nat)
    requires Enabled(s, t, c) && s.threads[t] == IpSourceBody(i) && RefsOk(s.sh)
    ensures Step(s, t, c).threads[t] == IpRoute(i)
    ensures var sh, sh' := s.sh, Step(s, t, c).sh; sh' == sh.(hw := sh'.hw) && sh'.hw == sh.hw.(serial := sh'.hw.serial)
  {
    StepEffect(s, t, c);
    MixerBack(s.sh, c.mixerReady);
    hide Step, RefsOk, OpenMixer, CloseMixer;
  }

  lemma MixerBack(sh: Shared, ready: bool)
    requires RefsOk(sh)
    ensures var hw := CloseMixer(OpenMixer(sh.hw, ready).0); hw == sh.hw.(serial := hw.serial)
  {}

  // ----- setMode from its start -----

  lemma ApplyStep(s: State, t: nat, c: Choice)
    requires Enabled(s, t, c) && s.threads[t].SmApply?
    ensures var pc, s' := s.threads[t], Step(s, t, c);
            if s'.threads[t] == Idle then pc.phase.Unlock? && s'.sh == s.sh
            else s'.threads[t].SmApply? && !s'.threads[t].phase.Decide?
  {
    StepEffect(s, t, c);
    var pc := s.threads[t];
    ApplyRuns(s.sh, pc, c);
    hide Step, RunApply;
  }

  lemma ApplyRuns(sh: Shared, pc: PC, c: Choice)
    requires pc.SmApply? && Known(sh, pc)
    ensures var r := RunApply(sh, pc.phase, pc.spOut, pc.spIn, c);
            if r.pc == Idle then pc.phase.Unlock? && r.sh == sh else r.pc.SmApply? && !r.pc.phase.Decide?
  {
    hide StandbyOutOf, StandbyInOf, CallOpenPcm, CallOpenMixer, CallClosePcm, CallCloseMixer;
  }

  lemma {:induction false} StaysInBody(run: seq<State>, d: nat, k: nat, b: nat, t: nat)
    requires Returns(run, d, b, t) && d <= k < b && run[d].threads[t].SmApply?
    ensures run[k].threads[t].SmApply?
    decreases k
  {
    hide IsRun, Step, Enabled;
    if d < k {
      StaysInBody(run, d, k - 1, b, t);
      var own, c := OwnOrOther(run, k - 1, t);
      if own { ApplyStep(run[k - 1], t, c); }
    }
  }

  /** The decision itself is one step. */
  lemma {:induction false} LastDecision(run: seq<State>, d: nat, b: nat, t: nat) returns (e: nat, c: Choice)
    requires Returns(run, d, b, t) && run[d].threads[t].SmApply? && run[d].threads[t].phase.Decide?
    ensures d <= e && e + 1 < b && run[e].threads[t] == run[d].threads[t] && Moves(run, e, t, c)
    decreases b - d
  {
    hide IsRun, Step, Enabled;
    var own;
    own, c := OwnOrOther(run, d, t);
    if own {
      e := d;
      ApplyStep(run[d], t, c);
    } else {
      e, c := LastDecision(run, d + 1, b, t);
    }
  }

  /** When setMode returns, in every run, it has taken its decision in some state, and what it leaves is what
    * ModeSet says of that state and the mode asked for, or nothing if the base class refused. */
  lemma SetModeReturns(run: seq<State>, a: nat, b: nat, t: nat, m: Mode) returns (d: nat, c: Choice)
    requires Returns(run, a, b, t) && run[a].threads[t] == SmStart(m)
    ensures a < d && d + 1 < b && Moves(run, d, t, c)
    ensures run[d].threads[t].SmApply? && run[d].threads[t].phase == Decide(m)
    ensures var sh, sh', pc := run[d].sh, run[b].sh, run[d].threads[t];
            if c.flag then ModeSet(sh, m, pc.spOut, pc.spIn, sh') else sh' == sh
  {
    hide IsRun, ModeSet, InBody, Enabled, Step;
    var d0 := LegEnds(ModeLeg(m), run, a, b, t);
    d, c := LastDecision(run, d0, b, t);
    BodyOf(run, d, b, t, c);
    ModeApplied(run, d, b - 1, t, c);
  }

  lemma BodyOf(run: seq<State>, d: nat, b: nat, t: nat, c: Choice)
    requires Returns(run, d, b, t) && Moves(run, d, t, c)
    requires run[d].threads[t].SmApply? && run[d].threads[t].phase.Decide? && d + 1 < b
    ensures InBody(run, d, b - 1, t, c) && run[b - 1].threads[t].phase.Unlock? && run[b].sh == run[b - 1].sh
  {
    hide IsRun, Step, Enabled;
    forall j | d <= j < b ensures run[j].threads[t].SmApply? { StaysInBody(run, d, j, b, t); }
    var own, c' := OwnOrOther(run, b - 1, t);
    ApplyStep(run[b - 1], t, c');
  }

  // ----- the retry loops are left at the right moment -----

  /** From a test or a check of a retry loop to the next point: setMode and read() go on without an output
    * exactly if none is registered or, setMode, the registered one is in standby, and with one exactly if it is
    * still registered and, setMode, its counter unchanged; setMode and write() go on without an input exactly
    * if none is active, and with one exactly if it is still the active one and its counter unchanged. */
  predicate LeavesInTime(sh: Shared, pc: PC, pc': PC) {
    match pc
    case SmOutLoop(_, _) =>
      pc'.SmInLoop? <==> (sh.output.Some? && sh.output.value in sh.outs ==> sh.outs[sh.output.value].standby)
    case SmOutCheck(_, o, cnt) =>
      pc'.SmInLoop? <==> sh.output == Some(o) && o in sh.outs && cnt == sh.outs[o].standbyCnt
    case SmInLoop(_, _, _) => pc'.SmApply? <==> ActiveInput(sh).None?
    case SmInCheck(_, _, i, cnt) =>
      pc'.SmApply? <==> ActiveInput(sh) == Some(i) && i in sh.ins && cnt == sh.ins[i].standbyCnt
    case WrInLoop(_, _) => pc'.WrOpenOut? <==> ActiveInput(sh).None?
    case WrInCheck(_, i, cnt) =>
      pc'.WrOpenOut? <==> ActiveInput(sh) == Some(i) && i in sh.ins && cnt == sh.ins[i].standbyCnt
    case RdOutLoop(_, _) => pc'.RdOpen? <==> sh.output.None?
    case RdCheck(_, o) => pc'.RdCycle? <==> sh.output == Some(o)
    case _ => true
  }

  /** In every run, the loops are left exactly then. */
  lemma LoopsLeave(run: seq<State>, k: nat, t: nat, c: Choice)
    requires IsRun(run) && Moves(run, k, t, c)
    ensures t < |run[k + 1].threads| && LeavesInTime(run[k].sh, run[k].threads[t], run[k + 1].threads[t])
  {
    hide IsRun, Enabled, Step, StandbyInv, LocksOk, LeavesInTime;
    StandbyAt(run, k);
    LoopStep(run[k], t, c);
  }

  lemma LoopStep(s: State, t: nat, c: Choice)
    requires StandbyInv(s) && Enabled(s, t, c)
    ensures t < |Step(s, t, c).threads| && LeavesInTime(s.sh, s.threads[t], Step(s, t, c).threads[t])
  {
    var pc := s.threads[t];
    assert PcOk(s.sh, pc) && Known(s.sh, pc);
    StepEffect(s, t, c);
    hide Step, StandbyInv, FirstActive, Enabled;
  }
}
