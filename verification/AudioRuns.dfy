/** What happens along a run between two points of one call: whether a stream stays registered
  * while a thread waits, who drops the last reference to it, and what entering a call amounts to
  * when other threads run in between.
  */
module AudioRuns {
  import opened Options
  import opened RefCounts
  import opened AudioResources
  import opened AudioProtocol
  import opened AudioLocks
  import opened AudioStandby
  import opened AudioHandles
  import opened AudioTheorems

  // ----- registration -----

  /** Between two states of a run, some thread unregistered output `o`. */
  ghost predicate ClosedOut(s: State, s': State, o: nat) {
    exists t: nat :: t < |s.threads| == |s'.threads| &&
      s.threads[t] == HwBody(CloseOutput(o)) && s'.threads[t] != s.threads[t]
  }

  ghost predicate ClosedIn(s: State, s': State, i: nat) {
    exists t: nat :: t < |s.threads| == |s'.threads| &&
      s.threads[t] == HwBody(CloseInput(i)) && s'.threads[t] != s.threads[t]
  }

  /** The step from state `k` of a run unregisters a stream. */
  ghost predicate OutClosedAt(run: seq<State>, k: nat, o: nat) {
    k + 1 < |run| && ClosedOut(run[k], run[k + 1], o)
  }

  ghost predicate InClosedAt(run: seq<State>, k: nat, i: nat) {
    k + 1 < |run| && ClosedIn(run[k], run[k + 1], i)
  }

  lemma NotWithout(inputs: seq<nat>, x: nat, y: nat)
    ensures y in Without(inputs, x) <==> y in inputs && y != x
  {}

  /** Only closeOutputStream and closeInputStream unregister, and a stream is not registered again. */
  lemma RegistryStep(s: State, t: nat, c: Choice)
    requires StandbyInv(s) && Enabled(s, t, c)
    ensures var s' := Step(s, t, c);
            && (forall o :: o in s.sh.outs ==>
                  && o in s'.sh.outs
                  && (s'.sh.output == Some(o) <==> s.sh.output == Some(o) && s.threads[t] != HwBody(CloseOutput(o))))
            && (forall i :: i in s.sh.ins ==>
                  && i in s'.sh.ins
                  && (i in s'.sh.inputs <==> i in s.sh.inputs && s.threads[t] != HwBody(CloseInput(i))))
  {
    hide Step, Run, Known, PcOk;
    StepEffect(s, t, c);
    OwnStep(s, t, c);
    var pc := s.threads[t];
    if pc.HwBody? {
      HwRegistry(s.sh, pc.call, c);
    }
  }

  lemma HwRegistry(sh: Shared, call: HwCall, c: Choice)
    requires Registered(sh)
    ensures var sh' := Run(sh, HwBody(call), c).sh;
            && (forall o :: o in sh.outs ==>
                  && o in sh'.outs
                  && (sh'.output == Some(o) <==> sh.output == Some(o) && call != CloseOutput(o)))
            && (forall i :: i in sh.ins ==>
                  && i in sh'.ins
                  && (i in sh'.inputs <==> i in sh.inputs && call != CloseInput(i)))
  {
    hide FirstActive, Without;
    if call.CloseInput? {
      InputCloses(sh, call.i, c);
    }
  }

  lemma InputCloses(sh: Shared, x: nat, c: Choice)
    ensures var sh' := RunHw(sh, CloseInput(x), c).sh;
            sh'.ins == sh.ins && forall i :: i in sh'.inputs <==> i in sh.inputs && i != x
  {
    forall i ensures i in Without(sh.inputs, x) <==> i in sh.inputs && i != x {
      NotWithout(sh.inputs, x, i);
    }
  }

  /** The thread that moved is the one whose program counter tells whether a stream was closed. */
  lemma MoverCloses(s: State, t: nat, c: Choice)
    requires Enabled(s, t, c)
    ensures forall o :: ClosedOut(s, Step(s, t, c), o) <==> s.threads[t] == HwBody(CloseOutput(o))
    ensures forall i :: ClosedIn(s, Step(s, t, c), i) <==> s.threads[t] == HwBody(CloseInput(i))
  {
    var s' := Step(s, t, c);
    StepEffect(s, t, c);
    if s.threads[t].HwBody? { assert s'.threads[t] != s.threads[t]; }
    hide Step;
  }

  /** A registered output stays registered exactly as long as nobody closes it. */
  lemma {:induction false} OutputStays(run: seq<State>, a: nat, b: nat, o: nat)
    requires IsRun(run) && a <= b < |run| && o in run[a].sh.outs && run[a].sh.output == Some(o)
    ensures o in run[b].sh.outs
    ensures run[b].sh.output == Some(o) <==> !exists j :: a <= j < b && OutClosedAt(run, j, o)
    decreases b
  {
    hide IsRun, ClosedOut;
    if a < b {
      OutputStays(run, a, b - 1, o);
      LastStep(run, b - 1);
      assert OutClosedAt(run, b - 1, o) <==> ClosedOut(run[b - 1], run[b], o);
    }
  }

  lemma {:induction false} InputStays(run: seq<State>, a: nat, b: nat, i: nat)
    requires IsRun(run) && a <= b < |run| && i in run[a].sh.ins && i in run[a].sh.inputs
    ensures i in run[b].sh.ins
    ensures i in run[b].sh.inputs <==> !exists j :: a <= j < b && InClosedAt(run, j, i)
    decreases b
  {
    hide IsRun, ClosedIn;
    if a < b {
      InputStays(run, a, b - 1, i);
      LastStep(run, b - 1);
      assert InClosedAt(run, b - 1, i) <==> ClosedIn(run[b - 1], run[b], i);
    }
  }

  /** One step of a run, seen from the streams that are registered. */
  lemma LastStep(run: seq<State>, k: nat)
    requires IsRun(run) && k + 1 < |run|
    ensures forall o :: o in run[k].sh.outs ==>
              && o in run[k + 1].sh.outs
              && (run[k + 1].sh.output == Some(o) <==> run[k].sh.output == Some(o) && !ClosedOut(run[k], run[k + 1], o))
    ensures forall i :: i in run[k].sh.ins ==>
              && i in run[k + 1].sh.ins
              && (i in run[k + 1].sh.inputs <==> i in run[k].sh.inputs && !ClosedIn(run[k], run[k + 1], i))
  {
    hide IsRun;
    RunInv(run, k);
    var t, c := StepAt(run, k);
    RegistryStep(run[k], t, c);
    MoverCloses(run[k], t, c);
  }

  /** The output that setMode validated is still registered when setMode uses it, exactly if nobody
    * closed it since. */
  lemma UsedOutputRegistered(run: seq<State>, a: nat, b: nat, t: nat)
    requires IsRun(run) && a + 1 <= b < |run| && t < |run[a].threads| && t < |run[b].threads|
    requires run[a].threads[t].SmOutCheck? && t < |run[a + 1].threads| && run[a + 1].threads[t].SmInLoop?
    requires run[b].threads[t].SmApply? && run[b].threads[t].spOut == Some(run[a].threads[t].o)
    ensures run[b].sh.output == run[b].threads[t].spOut <==>
            !exists j :: a + 1 <= j < b && OutClosedAt(run, j, run[a].threads[t].o)
  {
    SetModeOutputRevalidated(run, a, t);
    OutputStays(run, a + 1, b, run[a].threads[t].o);
  }

  // ----- the last reference -----

  /** Calls on a stream come through a plain pointer, which does not keep it alive. An input's
    * standby() is not among them: setMicMute calls it with a reference of its own. */
  predicate OutByPointer(pc: PC) {
    || IsWrite(pc) || pc.WrStart? || pc.WrHw? || pc.WrInLock? || pc.WrInHw?
    || IsOutControl(pc) || pc.OsStart? || pc.OsHw? || pc.OpStart? || pc.OpHw?
  }

  predicate InByPointer(pc: PC) {
    || IsReading(pc)
    || pc.IpStart? || pc.IpSource? || pc.IpSourceHw? || pc.IpSourceBody? || pc.IpRoute? || pc.IpRouteHw?
    || pc.IpRouteBody?
  }

  /** The stream that a thread keeps alive. */
  function OutRef(pc: PC): Option<nat> { if OutByPointer(pc) then None else OutOf(pc) }
  function InRef(pc: PC): Option<nat> { if InByPointer(pc) then None else InOf(pc) }

  /** Thread `t` gives up its reference to a stream while it holds the hardware lock. */
  ghost predicate DropsOut(s: State, s': State, t: nat, o: nat) {
    && t < |s.threads| == |s'.threads|
    && OutRef(s.threads[t]) == Some(o) && OutRef(s'.threads[t]) != Some(o)
    && Held(s.threads[t]).hw && Held(s'.threads[t]).hw
  }

  ghost predicate DropsIn(s: State, s': State, t: nat, i: nat) {
    && t < |s.threads| == |s'.threads|
    && InRef(s.threads[t]) == Some(i) && InRef(s'.threads[t]) != Some(i)
    && Held(s.threads[t]).hw && Held(s'.threads[t]).hw
  }

  /** No thread but `t` has a reference. */
  ghost predicate OnlyOutRef(s: State, t: nat, o: nat) {
    forall u: nat :: u < |s.threads| && u != t ==> OutRef(s.threads[u]) != Some(o)
  }

  ghost predicate OnlyInRef(s: State, t: nat, i: nat) {
    forall u: nat :: u < |s.threads| && u != t ==> InRef(s.threads[u]) != Some(i)
  }

  /** What a thread under the hardware lock gives up is registered, except at the checks that end
    * the waits of setMode and read(), and there it is given up if it is not registered. */
  lemma DroppedOut(sh: Shared, pc: PC, c: Choice, o: nat)
    requires Known(sh, pc) && PcOk(sh, pc) && Wants(pc).None? && pc != Idle && Held(pc).hw && OutRef(pc) == Some(o)
    requires sh.output != Some(o)
    ensures var r := Run(sh, pc, c);
            OutRef(r.pc) != Some(o) && Held(r.pc).hw <==> pc.SmOutCheck? || pc.RdCheck?
  {
    if pc.SmApply? {
      SmApplyKeeps(sh, pc, c);
    } else if IsRead(pc) {
      ReadDropsOut(sh, pc, c, o);
    } else {
      LoopDropsOut(sh, pc, c, o);
    }
    hide RunApply, RunRead, OutOf, PcOk, Known;
  }

  lemma SmApplyKeeps(sh: Shared, pc: PC, c: Choice)
    requires Known(sh, pc) && pc.SmApply?
    ensures var r := RunApply(sh, pc.phase, pc.spOut, pc.spIn, c);
            r.pc == Idle || (r.pc.SmApply? && r.pc.spOut == pc.spOut && r.pc.spIn == pc.spIn)
  {
    hide StandbyOutOf, StandbyInOf, CallOpenPcm, CallOpenMixer, CallClosePcm, CallCloseMixer;
  }

  lemma ReadDropsOut(sh: Shared, pc: PC, c: Choice, o: nat)
    requires Known(sh, pc) && PcOk(sh, pc) && IsRead(pc) && Held(pc).hw && OutOf(pc) == Some(o) && sh.output != Some(o)
    ensures pc.RdCheck? && OutRef(RunRead(sh, pc, c).pc) != Some(o) && Held(RunRead(sh, pc, c).pc).hw
  {}

  lemma LoopDropsOut(sh: Shared, pc: PC, c: Choice, o: nat)
    requires Known(sh, pc) && PcOk(sh, pc) && OutOf(pc) == Some(o) && sh.output != Some(o)
    requires pc.SmOutLoop? || pc.SmOutCheck? || pc.SmInLoop? || pc.SmInCheck?
    ensures var r := RunSetMode(sh, pc, c);
            if pc.SmOutCheck? then OutRef(r.pc) != Some(o) && Held(r.pc).hw else OutRef(r.pc) == Some(o)
  {}

  lemma DroppedIn(sh: Shared, pc: PC, c: Choice, i: nat)
    requires Known(sh, pc) && PcOk(sh, pc) && Wants(pc).None? && pc != Idle && Held(pc).hw && InRef(pc) == Some(i)
    requires i !in sh.inputs
    ensures var r := Run(sh, pc, c);
            InRef(r.pc) != Some(i) && Held(r.pc).hw <==> pc.SmInCheck? || pc.WrInCheck?
  {
    if pc.SmApply? {
      SmApplyKeeps(sh, pc, c);
    } else if IsWrite(pc) {
      WriteDropsIn(sh, pc, c, i);
    } else if pc.IsBody? {
      InControlEnds(sh, pc, c);
    } else {
      LoopDropsIn(sh, pc, c, i);
    }
    hide RunApply, RunWrite, RunInControl, InOf, PcOk, Known;
  }

  lemma WriteDropsIn(sh: Shared, pc: PC, c: Choice, i: nat)
    requires Known(sh, pc) && PcOk(sh, pc) && IsWrite(pc) && Held(pc).hw && InOf(pc) == Some(i) && i !in sh.inputs
    ensures pc.WrInCheck? && InRef(RunWrite(sh, pc, c).pc) != Some(i) && Held(RunWrite(sh, pc, c).pc).hw
  {}

  lemma InControlEnds(sh: Shared, pc: PC, c: Choice)
    requires Known(sh, pc) && IsInControl(pc) && Held(pc).hw
    ensures !Held(RunInControl(sh, pc, c).pc).hw
  {}

  lemma LoopDropsIn(sh: Shared, pc: PC, c: Choice, i: nat)
    requires Known(sh, pc) && PcOk(sh, pc) && InOf(pc) == Some(i) && i !in sh.inputs
    requires pc.SmOutLoop? || pc.SmOutCheck? || pc.SmInLoop? || pc.SmInCheck?
    ensures pc.SmInCheck?
    ensures var r := RunSetMode(sh, pc, c); InRef(r.pc) != Some(i) && Held(r.pc).hw
  {}

  /** The stream whose lock a thread waits for in a retry loop, from the loop's test to its check. */
  function AwaitedOut(pc: PC): Option<nat> {
    match pc
    case SmOutLoop(_, spOut) => spOut
    case RdOutLoop(_, spOut) => spOut
    case _ => None
  }

  function AwaitedIn(pc: PC): Option<nat> {
    match pc
    case SmInLoop(_, _, spIn) => spIn
    case WrInLoop(_, spIn) => spIn
    case _ => None
  }

  predicate ChecksOut(pc: PC, o: nat) { (pc.SmOutCheck? || pc.RdCheck?) && pc.o == o }
  predicate ChecksIn(pc: PC, i: nat) { (pc.SmInCheck? || pc.WrInCheck?) && pc.i == i }

  /** A step of `t` gives up, under the hardware lock, an output to which no other thread has a reference: its
    * destructor then wants that same lock. */
  ghost predicate DestroysOut(s: State, s': State, t: nat, o: nat) {
    DropsOut(s, s', t, o) && s.sh.output != Some(o) && OnlyOutRef(s, t, o)
  }

  ghost predicate DestroysIn(s: State, s': State, t: nat, i: nat) {
    DropsIn(s, s', t, i) && i !in s.sh.inputs && OnlyInRef(s, t, i)
  }

  /** In every reachable state, a thread drops the last reference to an output under the hardware
    * lock exactly if it is at the check of setMode's or read()'s loop, the output is no longer
    * registered and no other thread has a reference. */
  lemma DestroysOutIff(run: seq<State>, k: nat, t: nat, c: Choice, o: nat)
    requires IsRun(run) && k < |run| && Enabled(run[k], t, c)
    ensures DestroysOut(run[k], Step(run[k], t, c), t, o) <==>
            ChecksOut(run[k].threads[t], o) && run[k].sh.output != Some(o) && OnlyOutRef(run[k], t, o)
  {
    RunInv(run, k);
    DestroysOutStep(run[k], t, c, o);
  }

  lemma DestroysOutStep(s: State, t: nat, c: Choice, o: nat)
    requires StandbyInv(s) && Enabled(s, t, c)
    ensures DestroysOut(s, Step(s, t, c), t, o) <==>
            ChecksOut(s.threads[t], o) && s.sh.output != Some(o) && OnlyOutRef(s, t, o)
  {
    var pc, s' := s.threads[t], Step(s, t, c);
    StepEffect(s, t, c);
    CheckNames(pc, o);
    if pc == Idle {
    } else if Wants(pc).Some? {
      TakingHw(s.sh, pc);
    } else if s.sh.output != Some(o) && OutRef(pc) == Some(o) && Held(pc).hw {
      assert Known(s.sh, pc) && PcOk(s.sh, pc);
      DroppedOut(s.sh, pc, c, o);
    }
    hide Step, Held, OutRef, OutOf, OnlyOutRef, Run, PcOk, Known, StandbyInv, Enabled;
  }

  lemma CheckNames(pc: PC, o: nat)
    ensures ChecksOut(pc, o) ==> OutRef(pc) == Some(o) && Held(pc).hw && Wants(pc).None?
  {}

  lemma CheckNamesIn(pc: PC, i: nat)
    ensures ChecksIn(pc, i) ==> InRef(pc) == Some(i) && Held(pc).hw && Wants(pc).None?
  {}

  lemma DestroysInIff(run: seq<State>, k: nat, t: nat, c: Choice, i: nat)
    requires IsRun(run) && k < |run| && Enabled(run[k], t, c)
    ensures DestroysIn(run[k], Step(run[k], t, c), t, i) <==>
            ChecksIn(run[k].threads[t], i) && i !in run[k].sh.inputs && OnlyInRef(run[k], t, i)
  {
    RunInv(run, k);
    DestroysInStep(run[k], t, c, i);
  }

  lemma DestroysInStep(s: State, t: nat, c: Choice, i: nat)
    requires StandbyInv(s) && Enabled(s, t, c)
    ensures DestroysIn(s, Step(s, t, c), t, i) <==>
            ChecksIn(s.threads[t], i) && i !in s.sh.inputs && OnlyInRef(s, t, i)
  {
    var pc, s' := s.threads[t], Step(s, t, c);
    StepEffect(s, t, c);
    CheckNamesIn(pc, i);
    if pc == Idle {
    } else if Wants(pc).Some? {
      TakingHw(s.sh, pc);
    } else if i !in s.sh.inputs && InRef(pc) == Some(i) && Held(pc).hw {
      assert Known(s.sh, pc) && PcOk(s.sh, pc);
      DroppedIn(s.sh, pc, c, i);
    }
    hide Step, Held, InRef, InOf, OnlyInRef, Run, PcOk, Known, StandbyInv, Enabled;
  }

  /** So a thread that began to wait for an output destroys it at its check exactly if somebody
    * closed it during the wait and no other thread has a reference. */
  lemma DestroysIfClosedInWait(run: seq<State>, a: nat, b: nat, t: nat, c: Choice, o: nat)
    requires IsRun(run) && a <= b < |run| && t < |run[a].threads| && Enabled(run[b], t, c)
    requires AwaitedOut(run[a].threads[t]) == Some(o) && ChecksOut(run[b].threads[t], o)
    ensures DestroysOut(run[b], Step(run[b], t, c), t, o) <==>
            (exists j :: a <= j < b && OutClosedAt(run, j, o)) && OnlyOutRef(run[b], t, o)
  {
    RunInv(run, a);
    assert PcOk(run[a].sh, run[a].threads[t]);
    OutputStays(run, a, b, o);
    DestroysOutIff(run, b, t, c, o);
  }

  lemma DestroysInputIfClosedInWait(run: seq<State>, a: nat, b: nat, t: nat, c: Choice, i: nat)
    requires IsRun(run) && a <= b < |run| && t < |run[a].threads| && Enabled(run[b], t, c)
    requires AwaitedIn(run[a].threads[t]) == Some(i) && ChecksIn(run[b].threads[t], i)
    ensures DestroysIn(run[b], Step(run[b], t, c), t, i) <==>
            (exists j :: a <= j < b && InClosedAt(run, j, i)) && OnlyInRef(run[b], t, i)
  {
    RunInv(run, a);
    assert PcOk(run[a].sh, run[a].threads[t]);
    InputStays(run, a, b, i);
    DestroysInIff(run, b, t, c, i);
  }

  // ----- entering a call, among other threads -----

  /** How much of EnterCall has been done when setMode is in a phase. */
  ghost predicate Entering(sh0: Shared, spOut: Option<nat>, spIn: Option<nat>, phase: Phase, sh: Shared)
    requires spOut.Some? ==> spOut.value in sh0.outs
    requires spIn.Some? ==> spIn.value in sh0.ins
  {
    var sh2 := Quieted(sh0, spOut, spIn);
    match phase
    case EnterOut => sh == sh0
    case EnterIn => sh == if spOut.Some? then StandbyOutOf(sh0, spOut.value) else sh0
    case EnterPcm => sh == sh2
    case EnterMixer => exists p :: sh == CallOpenPcm(sh2, p)
    case Unlock => exists p, m :: sh == EnterCall(sh0, spOut, spIn, p, m)
    case _ => false
  }

  lemma EnteringNext(sh0: Shared, spOut: Option<nat>, spIn: Option<nat>, phase: Phase, sh: Shared, c: Choice)
    requires Known(sh0, SmApply(EnterOut, spOut, spIn)) && Known(sh, SmApply(phase, spOut, spIn))
    requires Entering(sh0, spOut, spIn, phase, sh)
    ensures var r := RunApply(sh, phase, spOut, spIn, c);
            r.pc.SmApply? ==> r.pc.spOut == spOut && r.pc.spIn == spIn && Entering(sh0, spOut, spIn, r.pc.phase, r.sh)
  {
    hide OutDoStandby, InDoStandby, OpenPcm, OpenMixer, CallOpenPcm, CallOpenMixer;
    if phase.EnterPcm? {
      assert RunApply(sh, phase, spOut, spIn, c).sh == CallOpenPcm(Quieted(sh0, spOut, spIn), c.pcmReady);
    } else if phase.EnterMixer? {
      var p :| sh == CallOpenPcm(Quieted(sh0, spOut, spIn), p);
      assert RunApply(sh, phase, spOut, spIn, c).sh == EnterCall(sh0, spOut, spIn, p, c.mixerReady);
    }
  }

  /** Nothing else touches the shared state while `t` is under the hardware lock. */
  lemma Undisturbed(s: State, t: nat, u: nat, c: Choice)
    requires LocksOk(s) && StandbyInv(s) && Enabled(s, u, c) && t < |s.threads| && u != t && Held(s.threads[t]).hw
    ensures Step(s, u, c).sh == s.sh && Step(s, u, c).threads[t] == s.threads[t]
  {
    StepEffect(s, u, c);
    MutualExclusion(s, t, u);
    if s.threads[u] != Idle && Wants(s.threads[u]).None? { RunOutside(s, u, c); }
  }

  lemma EnteringStep(sh0: Shared, pc0: PC, s: State, t: nat, u: nat, c: Choice)
    requires LocksOk(s) && StandbyInv(s) && Enabled(s, u, c) && t < |s.threads| && pc0.SmApply? && Known(sh0, pc0)
    requires s.threads[t].SmApply? && s.threads[t].spOut == pc0.spOut && s.threads[t].spIn == pc0.spIn
    requires Step(s, u, c).threads[t].SmApply? && Entering(sh0, pc0.spOut, pc0.spIn, s.threads[t].phase, s.sh)
    ensures var pc', sh' := Step(s, u, c).threads[t], Step(s, u, c).sh;
            pc'.spOut == pc0.spOut && pc'.spIn == pc0.spIn && Entering(sh0, pc0.spOut, pc0.spIn, pc'.phase, sh')
  {
    hide Entering, RunApply;
    var pc := s.threads[t];
    if u == t {
      StepEffect(s, t, c);
      EnteringNext(sh0, pc.spOut, pc.spIn, pc.phase, s.sh, c);
    } else {
      Undisturbed(s, t, u, c);
    }
  }

  /** While setMode is in its body, whatever other threads do in between, the state is the one it
    * found when it decided to enter the call, changed by its own steps alone. */
  lemma {:induction false} CallEntered(run: seq<State>, a: nat, b: nat, t: nat)
    requires IsRun(run) && a <= b < |run| && t < |run[a].threads|
    requires run[a].threads[t].SmApply? && run[a].threads[t].phase.EnterOut?
    requires forall j :: a <= j <= b ==> t < |run[j].threads| && run[j].threads[t].SmApply?
    ensures var pc := run[a].threads[t];
            && Known(run[a].sh, pc)
            && run[b].threads[t].spOut == pc.spOut && run[b].threads[t].spIn == pc.spIn
            && Entering(run[a].sh, pc.spOut, pc.spIn, run[b].threads[t].phase, run[b].sh)
    decreases b
  {
    hide IsRun, ResourceInv, Step, Enabled;
    RunInv(run, a);
    if a < b {
      CallEntered(run, a, b - 1, t);
      RunInv(run, b - 1);
      var u, c := StepAt(run, b - 1);
      EnteringStep(run[a].sh, run[a].threads[t], run[b - 1], t, u, c);
    }
  }

  /** When setMode has entered the call, the registered output is in standby exactly if setMode had
    * locked that very output, or it was in standby (or absent) when setMode decided. */
  lemma CallForcesStandby(run: seq<State>, a: nat, b: nat, t: nat)
    requires IsRun(run) && a <= b < |run| && t < |run[a].threads|
    requires run[a].threads[t].SmApply? && run[a].threads[t].phase.EnterOut?
    requires forall j :: a <= j <= b ==> t < |run[j].threads| && run[j].threads[t].SmApply?
    requires run[b].threads[t].phase.Unlock?
    ensures var sh, sh', pc := run[a].sh, run[b].sh, run[a].threads[t];
            && Registered(sh) && Registered(sh')
            && ((sh'.output.Some? ==> sh'.outs[sh'.output.value].standby)
                <==> (sh.output.Some? ==> pc.spOut == sh.output || sh.outs[sh.output.value].standby))
  {
    CallEntered(run, a, b, t);
    RunInv(run, a);
    RunInv(run, b);
    hide IsRun, ResourceInv, LocksOk;
    assert PcOk(run[a].sh, run[a].threads[t]);
    var sh, pc := run[a].sh, run[a].threads[t];
    var p, m :| run[b].sh == EnterCall(sh, pc.spOut, pc.spIn, p, m);
    EnterCallForcesStandby(sh, pc.spOut, pc.spIn, p, m);
  }

  /** And the counts are right exactly if both drivers could be opened. */
  lemma CallConserves(run: seq<State>, a: nat, b: nat, t: nat) returns (pcmReady: bool, mixerReady: bool)
    requires IsRun(run) && a <= b < |run| && t < |run[a].threads| && !run[a].sh.callOpenFailed
    requires run[a].threads[t].SmApply? && run[a].threads[t].phase.EnterOut?
    requires forall j :: a <= j <= b ==> t < |run[j].threads| && run[j].threads[t].SmApply?
    requires run[b].threads[t].phase.Unlock?
    ensures var sh, sh', pc := run[a].sh, run[b].sh, run[a].threads[t];
            && Known(sh, pc) && sh' == EnterCall(sh, pc.spOut, pc.spIn, pcmReady, mixerReady)
            && ((sh'.hw.pcm.cnt == |PcmUsers(sh')| + One(sh'.inCallAudioMode)
                 && sh'.hw.mixer.cnt == |OutMixerUsers(sh')| + |InMixerUsers(sh')| + One(sh'.inCallAudioMode))
                <==> PcmWillOpen(sh, pc.spOut, pcmReady) && MixerWillOpen(sh, pc.spOut, pc.spIn, mixerReady))
  {
    CallEntered(run, a, b, t);
    RunInv(run, a);
    hide IsRun;
    var sh, pc := run[a].sh, run[a].threads[t];
    pcmReady, mixerReady :| run[b].sh == EnterCall(sh, pc.spOut, pc.spIn, pcmReady, mixerReady);
    NothingHeldByCall(run[a], t);
    EnterCallConserves(sh, pc.spOut, pc.spIn, pcmReady, mixerReady);
  }

  /** setMode decides to enter a call only if it holds no reference of its own. */
  lemma NothingHeldByCall(s: State, t: nat)
    requires LocksOk(s) && ResourceInv(s) && !s.sh.callOpenFailed && t < |s.threads|
    requires s.threads[t].SmApply? && s.threads[t].phase.EnterOut?
    ensures RefsOk(s.sh) && !s.sh.callPcm && !s.sh.callMixer
  {
    hide RefsOk;
    assert Holds(s.threads[t], HwL);
    assert HwPc(s) == s.threads[t];
  }
}
