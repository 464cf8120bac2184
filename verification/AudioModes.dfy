/** What a call of setMode amounts to, from its decision to its end and with other threads running in
  * between: the mode, call mode, the streams it puts into standby and the references it gives back.
  */
module AudioModes {
  import opened Options
  import opened RefCounts
  import opened AudioResources
  import opened AudioProtocol
  import opened AudioLocks
  import opened AudioStandby
  import opened AudioHandles
  import opened AudioTheorems
  import opened AudioRuns

  // ----- leaving a call -----

  function GivenBack(sh: Shared): Shared { CallClosePcm(CallCloseMixer(sh)) }

  /** setMode's part with all locks held, from its decision to leave call mode to its end. */
  function LeaveCall(sh: Shared, spOut: Option<nat>, spIn: Option<nat>): Shared
    requires spOut.Some? ==> spOut.value in sh.outs
    requires spIn.Some? ==> spIn.value in sh.ins
  {
    Quieted(GivenBack(sh), spOut, spIn).(inCallAudioMode := false)
  }

  /** How much of LeaveCall has been done when setMode is in a phase. */
  ghost predicate Leaving(sh0: Shared, spOut: Option<nat>, spIn: Option<nat>, phase: Phase, sh: Shared)
    requires spOut.Some? ==> spOut.value in sh0.outs
    requires spIn.Some? ==> spIn.value in sh0.ins
  {
    match phase
    case LeaveMixer => sh == sh0
    case LeavePcm => sh == CallCloseMixer(sh0)
    case LeaveOut => sh == GivenBack(sh0)
    case LeaveIn => sh == if spOut.Some? then StandbyOutOf(GivenBack(sh0), spOut.value) else GivenBack(sh0)
    case Unlock => sh == LeaveCall(sh0, spOut, spIn)
    case _ => false
  }

  // ----- the whole body -----

  predicate Enters(sh: Shared, m: Mode) { m == InCall && !sh.inCallAudioMode }
  predicate Leaves(sh: Shared, m: Mode) { m == Normal && sh.inCallAudioMode }

  /** Where the body can be and what it has done, the base class having set the mode to `m` or, if
    * not `ok`, refused it. */
  ghost predicate Applying(sh0: Shared, m: Mode, ok: bool, spOut: Option<nat>, spIn: Option<nat>, phase: Phase,
                           sh: Shared)
    requires spOut.Some? ==> spOut.value in sh0.outs
    requires spIn.Some? ==> spIn.value in sh0.ins
  {
    var sh1 := if ok then sh0.(mode := m) else sh0;
    if ok && Enters(sh0, m) then Entering(sh1, spOut, spIn, phase, sh)
    else if ok && Leaves(sh0, m) then Leaving(sh1, spOut, spIn, phase, sh)
    else phase.Unlock? && sh == sh1
  }

  lemma LeavingNext(sh0: Shared, spOut: Option<nat>, spIn: Option<nat>, phase: Phase, sh: Shared, c: Choice)
    requires Known(sh0, SmApply(LeaveMixer, spOut, spIn)) && Known(sh, SmApply(phase, spOut, spIn))
    requires Leaving(sh0, spOut, spIn, phase, sh)
    ensures var r := RunApply(sh, phase, spOut, spIn, c);
            r.pc.SmApply? ==> r.pc.spOut == spOut && r.pc.spIn == spIn && Leaving(sh0, spOut, spIn, r.pc.phase, r.sh)
  {
    hide OutDoStandby, InDoStandby, CallClosePcm, CallCloseMixer;
  }

  lemma ApplyingNext(sh0: Shared, m: Mode, ok: bool, pc: PC, sh: Shared, c: Choice)
    requires pc.SmApply? && Known(sh0, pc) && Known(sh, pc)
    requires Applying(sh0, m, ok, pc.spOut, pc.spIn, pc.phase, sh)
    ensures var r := RunApply(sh, pc.phase, pc.spOut, pc.spIn, c);
            r.pc.SmApply? ==>
              && r.pc.spOut == pc.spOut && r.pc.spIn == pc.spIn
              && Applying(sh0, m, ok, pc.spOut, pc.spIn, r.pc.phase, r.sh)
  {
    hide Entering, Leaving;
    if ok && Enters(sh0, m) {
      EnteringNext(sh0.(mode := m), pc.spOut, pc.spIn, pc.phase, sh, c);
      hide RunApply;
    } else if ok && Leaves(sh0, m) {
      LeavingNext(sh0.(mode := m), pc.spOut, pc.spIn, pc.phase, sh, c);
      hide RunApply;
    }
  }

  lemma Decides(sh: Shared, m: Mode, spOut: Option<nat>, spIn: Option<nat>, c: Choice)
    requires Known(sh, SmApply(Decide(m), spOut, spIn))
    ensures var r := RunApply(sh, Decide(m), spOut, spIn, c);
            && r.pc.SmApply? && r.pc.spOut == spOut && r.pc.spIn == spIn
            && Applying(sh, m, c.flag, spOut, spIn, r.pc.phase, r.sh)
  {
    hide Quieted, EnterCall, LeaveCall, StandbyOutOf, StandbyInOf;
  }

  lemma DecidingStep(s: State, t: nat, c: Choice)
    requires Enabled(s, t, c) && s.threads[t].SmApply? && s.threads[t].phase.Decide?
    ensures var pc, s' := s.threads[t], Step(s, t, c);
            && s'.threads[t].SmApply? && s'.threads[t].spOut == pc.spOut && s'.threads[t].spIn == pc.spIn
            && Known(s.sh, pc) && Applying(s.sh, pc.phase.mode, c.flag, pc.spOut, pc.spIn, s'.threads[t].phase, s'.sh)
  {
    hide Applying, RunApply;
    var pc := s.threads[t];
    StepEffect(s, t, c);
    Decides(s.sh, pc.phase.mode, pc.spOut, pc.spIn, c);
    hide Step;
  }

  lemma ApplyingStep(sh0: Shared, m: Mode, ok: bool, pc0: PC, s: State, t: nat, u: nat, c: Choice)
    requires LocksOk(s) && StandbyInv(s) && Enabled(s, u, c) && t < |s.threads| && pc0.SmApply? && Known(sh0, pc0)
    requires s.threads[t].SmApply? && s.threads[t].spOut == pc0.spOut && s.threads[t].spIn == pc0.spIn
    requires Step(s, u, c).threads[t].SmApply? && Applying(sh0, m, ok, pc0.spOut, pc0.spIn, s.threads[t].phase, s.sh)
    ensures var pc', sh' := Step(s, u, c).threads[t], Step(s, u, c).sh;
            pc'.spOut == pc0.spOut && pc'.spIn == pc0.spIn && Applying(sh0, m, ok, pc0.spOut, pc0.spIn, pc'.phase, sh')
  {
    hide Applying, RunApply;
    if u == t {
      StepEffect(s, t, c);
      ApplyingNext(sh0, m, ok, s.threads[t], s.sh, c);
    } else {
      Undisturbed(s, t, u, c);
    }
  }

  /** Thread `t` takes setMode's decision in state `a` of a run, `c` saying whether the base class sets
    * the mode, and is still in the body in state `b`. */
  ghost predicate InBody(run: seq<State>, a: nat, b: nat, t: nat, c: Choice) {
    && IsRun(run) && a < b < |run| && t < |run[a].threads| && Enabled(run[a], t, c) && run[a + 1] == Step(run[a], t, c)
    && run[a].threads[t].SmApply? && run[a].threads[t].phase.Decide?
    && forall j :: a <= j <= b ==> t < |run[j].threads| && run[j].threads[t].SmApply?
  }

  /** From the decision on, whatever other threads do in between, the state is what setMode found,
    * changed by its own steps alone. */
  lemma {:induction false} BodyApplied(run: seq<State>, a: nat, b: nat, t: nat, c: Choice)
    requires InBody(run, a, b, t, c)
    ensures var pc := run[a].threads[t];
            && Known(run[a].sh, pc)
            && run[b].threads[t].spOut == pc.spOut && run[b].threads[t].spIn == pc.spIn
            && Applying(run[a].sh, pc.phase.mode, c.flag, pc.spOut, pc.spIn, run[b].threads[t].phase, run[b].sh)
    decreases b
  {
    hide IsRun, ResourceInv, Step, Enabled, Applying, RunApply;
    RunInv(run, a);
    var pc := run[a].threads[t];
    if b == a + 1 {
      DecidingStep(run[a], t, c);
    } else {
      BodyApplied(run, a, b - 1, t, c);
      RunInv(run, b - 1);
      var u, c' := StepAt(run, b - 1);
      ApplyingStep(run[a].sh, pc.phase.mode, c.flag, pc, run[b - 1], t, u, c');
    }
  }

  // ----- what it amounts to -----

  /** Output `spOut` and input `spIn` went into standby and closed everything; the other streams, and
    * what is registered, are as before. */
  ghost predicate OnlyTheseQuieted(sh: Shared, spOut: Option<nat>, spIn: Option<nat>, sh': Shared) {
    && sh'.output == sh.output && sh'.inputs == sh.inputs
    && sh'.outs.Keys == sh.outs.Keys && sh'.ins.Keys == sh.ins.Keys
    && (forall o :: o in sh.outs ==>
          var st, st' := sh.outs[o], sh'.outs[o];
          if Some(o) == spOut then
            st'.standby && st'.pcm.None? && st'.mixer.None? && st'.standbyCnt == st.standbyCnt + 1
          else st' == st)
    && (forall i :: i in sh.ins ==>
          var st, st' := sh.ins[i], sh'.ins[i];
          if Some(i) == spIn then
            st'.standby && st'.pcm.None? && st'.mixer.None? && st'.standbyCnt == st.standbyCnt + 1
          else st' == st)
  }

  lemma OutQuieted(sh: Shared, o: nat)
    requires o in sh.outs
    ensures OnlyTheseQuieted(sh, Some(o), None, StandbyOutOf(sh, o))
    ensures var sh' := StandbyOutOf(sh, o);
            sh'.mode == sh.mode && sh'.inCallAudioMode == sh.inCallAudioMode
            && sh'.callPcm == sh.callPcm && sh'.callMixer == sh.callMixer
  {}

  lemma InQuieted(sh: Shared, i: nat)
    requires i in sh.ins
    ensures OnlyTheseQuieted(sh, None, Some(i), StandbyInOf(sh, i))
    ensures var sh' := StandbyInOf(sh, i);
            sh'.mode == sh.mode && sh'.inCallAudioMode == sh.inCallAudioMode
            && sh'.callPcm == sh.callPcm && sh'.callMixer == sh.callMixer
  {}

  lemma BothQuieted(sh: Shared, spOut: Option<nat>, spIn: Option<nat>)
    requires spOut.Some? ==> spOut.value in sh.outs
    requires spIn.Some? ==> spIn.value in sh.ins
    ensures OnlyTheseQuieted(sh, spOut, spIn, Quieted(sh, spOut, spIn))
    ensures var sh' := Quieted(sh, spOut, spIn);
            sh'.mode == sh.mode && sh'.inCallAudioMode == sh.inCallAudioMode
            && sh'.callPcm == sh.callPcm && sh'.callMixer == sh.callMixer
  {
    var sh1 := if spOut.Some? then StandbyOutOf(sh, spOut.value) else sh;
    if spOut.Some? { OutQuieted(sh, spOut.value); }
    if spIn.Some? { InQuieted(sh1, spIn.value); }
    hide StandbyOutOf, StandbyInOf;
  }

  /** When setMode is done: if the base class refused the mode, nothing has changed. Otherwise the mode
    * is set, and call mode is on exactly if a call was asked for, or it was on and the mode is not the
    * normal one. Where that switches it, the streams that setMode had locked are in standby; leaving a
    * call, setMode has given back both references. */
  ghost predicate ModeSet(sh: Shared, m: Mode, spOut: Option<nat>, spIn: Option<nat>, sh': Shared) {
    && sh'.mode == m
    && (sh'.inCallAudioMode <==> m == InCall || (sh.inCallAudioMode && m != Normal))
    && (if sh'.inCallAudioMode == sh.inCallAudioMode then sh' == sh.(mode := m)
        else OnlyTheseQuieted(sh, spOut, spIn, sh'))
    && (sh.inCallAudioMode && !sh'.inCallAudioMode ==> !sh'.callPcm && !sh'.callMixer)
  }

  lemma ModeApplied(run: seq<State>, a: nat, b: nat, t: nat, c: Choice)
    requires InBody(run, a, b, t, c) && run[b].threads[t].phase.Unlock?
    ensures var sh, sh', pc := run[a].sh, run[b].sh, run[a].threads[t];
            if c.flag then ModeSet(sh, pc.phase.mode, pc.spOut, pc.spIn, sh') else sh' == sh
  {
    hide InBody;
    BodyApplied(run, a, b, t, c);
    InBodyNow(run, a, b, t, c);
    var sh, sh', pc := run[a].sh, run[b].sh, run[a].threads[t];
    AppliedMeans(sh, pc.phase.mode, c.flag, pc.spOut, pc.spIn, sh');
  }

  lemma InBodyNow(run: seq<State>, a: nat, b: nat, t: nat, c: Choice)
    requires InBody(run, a, b, t, c)
    ensures a < b < |run| && t < |run[a].threads| && t < |run[b].threads|
    ensures run[a].threads[t].SmApply? && run[a].threads[t].phase.Decide? && run[b].threads[t].SmApply?
  {}

  lemma AppliedMeans(sh: Shared, m: Mode, ok: bool, spOut: Option<nat>, spIn: Option<nat>, sh': Shared)
    requires spOut.Some? ==> spOut.value in sh.outs
    requires spIn.Some? ==> spIn.value in sh.ins
    requires Applying(sh, m, ok, spOut, spIn, Unlock, sh')
    ensures if ok then ModeSet(sh, m, spOut, spIn, sh') else sh' == sh
  {
    hide EnterCall, LeaveCall, OnlyTheseQuieted;
    if ok && Enters(sh, m) {
      var p, r :| sh' == EnterCall(sh.(mode := m), spOut, spIn, p, r);
      EnteredMeans(sh.(mode := m), spOut, spIn, p, r);
      SameStreams(sh, sh.(mode := m), spOut, spIn, sh');
    } else if ok && Leaves(sh, m) {
      LeftMeans(sh.(mode := m), spOut, spIn);
      SameStreams(sh, sh.(mode := m), spOut, spIn, sh');
    }
  }

  lemma SameStreams(sh: Shared, sh1: Shared, spOut: Option<nat>, spIn: Option<nat>, sh': Shared)
    requires sh1.output == sh.output && sh1.inputs == sh.inputs && sh1.outs == sh.outs && sh1.ins == sh.ins
    requires OnlyTheseQuieted(sh1, spOut, spIn, sh')
    ensures OnlyTheseQuieted(sh, spOut, spIn, sh')
  {}

  lemma EnteredMeans(sh: Shared, spOut: Option<nat>, spIn: Option<nat>, pcmReady: bool, mixerReady: bool)
    requires spOut.Some? ==> spOut.value in sh.outs
    requires spIn.Some? ==> spIn.value in sh.ins
    ensures var sh' := EnterCall(sh, spOut, spIn, pcmReady, mixerReady);
            OnlyTheseQuieted(sh, spOut, spIn, sh') && sh'.mode == sh.mode && sh'.inCallAudioMode
  {
    BothQuieted(sh, spOut, spIn);
    hide Quieted;
  }

  lemma LeftMeans(sh: Shared, spOut: Option<nat>, spIn: Option<nat>)
    requires spOut.Some? ==> spOut.value in sh.outs
    requires spIn.Some? ==> spIn.value in sh.ins
    ensures var sh' := LeaveCall(sh, spOut, spIn);
            && OnlyTheseQuieted(sh, spOut, spIn, sh')
            && sh'.mode == sh.mode && !sh'.inCallAudioMode && !sh'.callPcm && !sh'.callMixer
  {
    var sh1 := GivenBack(sh);
    BothQuieted(sh1, spOut, spIn);
    hide Quieted;
    SameStreams(sh, sh1, spOut, spIn, LeaveCall(sh, spOut, spIn));
  }

  // ----- the counts after leaving a call -----

  ghost predicate CountsRight(sh: Shared) {
    && sh.hw.pcm.cnt == |PcmUsers(sh)| + One(sh.inCallAudioMode)
    && sh.hw.mixer.cnt == |OutMixerUsers(sh)| + |InMixerUsers(sh)| + One(sh.inCallAudioMode)
  }

  function Less(n: nat, k: nat): nat { if n >= k then n - k else 0 }

  lemma OutCounts(sh: Shared, o: nat)
    requires o in sh.outs
    ensures var sh', st := StandbyOutOf(sh, o), sh.outs[o];
            && sh'.hw.pcm.cnt == Less(sh.hw.pcm.cnt, One(st.pcm.Some?))
            && sh'.hw.mixer.cnt == Less(sh.hw.mixer.cnt, One(st.mixer.Some?))
            && |PcmUsers(sh')| == |PcmUsers(sh)| - One(st.pcm.Some?)
            && |OutMixerUsers(sh')| == |OutMixerUsers(sh)| - One(st.mixer.Some?)
            && InMixerUsers(sh') == InMixerUsers(sh)
  {
    var sh' := StandbyOutOf(sh, o);
    assert PcmUsers(sh') == PcmUsers(sh) - {o};
    assert OutMixerUsers(sh') == OutMixerUsers(sh) - {o};
  }

  lemma InCounts(sh: Shared, i: nat)
    requires i in sh.ins
    ensures var sh', st := StandbyInOf(sh, i), sh.ins[i];
            && sh'.hw.pcm.cnt == sh.hw.pcm.cnt
            && sh'.hw.mixer.cnt == Less(sh.hw.mixer.cnt, One(st.mixer.Some?))
            && PcmUsers(sh') == PcmUsers(sh) && OutMixerUsers(sh') == OutMixerUsers(sh)
            && |InMixerUsers(sh')| == |InMixerUsers(sh)| - One(st.mixer.Some?)
  {
    assert InMixerUsers(StandbyInOf(sh, i)) == InMixerUsers(sh) - {i};
  }

  /** After leaving a call, each count is the number of streams that hold the driver if and only if
    * setMode had a reference to give back or no stream is left that holds the driver. */
  lemma LeaveCallConserves(sh: Shared, spOut: Option<nat>, spIn: Option<nat>)
    requires RefsOk(sh)
    requires spOut.Some? ==> spOut.value in sh.outs
    requires spIn.Some? ==> spIn.value in sh.ins
    ensures CountsRight(LeaveCall(sh, spOut, spIn)) <==>
            && (sh.callPcm || !PcmHeldElsewhere(sh, spOut))
            && (sh.callMixer || !MixerHeldElsewhere(sh, spOut, spIn))
  {
    hide RefsOk, Quieted, PcmUsers, OutMixerUsers, InMixerUsers, PcmHeldElsewhere, MixerHeldElsewhere, Refs;
    UsersAreHolders(sh);
    CountsOf(sh);
    var sh1 := GivenBack(sh);
    SameUsers(sh, sh1);
    assert sh1.hw.pcm.cnt == Less(sh.hw.pcm.cnt, 1) && sh1.hw.mixer.cnt == Less(sh.hw.mixer.cnt, 1);
    var p, q := QuietedCounts(sh1, spOut, spIn);
    SameUsers(LeaveCall(sh, spOut, spIn), Quieted(sh1, spOut, spIn));
  }

  /** Putting streams into standby gives back what they hold. */
  lemma QuietedCounts(sh: Shared, spOut: Option<nat>, spIn: Option<nat>) returns (p: nat, q: nat)
    requires spOut.Some? ==> spOut.value in sh.outs
    requires spIn.Some? ==> spIn.value in sh.ins
    ensures var sh' := Quieted(sh, spOut, spIn);
            && sh'.hw.pcm.cnt == Less(sh.hw.pcm.cnt, p)
            && sh'.hw.mixer.cnt == Less(sh.hw.mixer.cnt, q)
            && |PcmUsers(sh')| + p == |PcmUsers(sh)|
            && |OutMixerUsers(sh')| + |InMixerUsers(sh')| + q == |OutMixerUsers(sh)| + |InMixerUsers(sh)|
            && (|PcmUsers(sh')| == 0 <==> !PcmHeldElsewhere(sh, spOut))
            && (|OutMixerUsers(sh')| + |InMixerUsers(sh')| == 0 <==> !MixerHeldElsewhere(sh, spOut, spIn))
  {
    StillHeld(sh, spOut, spIn);
    hide StandbyOutOf, StandbyInOf, PcmUsers, OutMixerUsers, InMixerUsers, OnlyTheseQuieted;
    p, q := 0, 0;
    var sh1 := sh;
    if spOut.Some? {
      sh1 := StandbyOutOf(sh, spOut.value);
      OutCounts(sh, spOut.value);
      OutQuieted(sh, spOut.value);
      p, q := One(sh.outs[spOut.value].pcm.Some?), One(sh.outs[spOut.value].mixer.Some?);
    }
    if spIn.Some? {
      InCounts(sh1, spIn.value);
      q := q + One(sh1.ins[spIn.value].mixer.Some?);
    }
  }

  lemma SameUsers(sh: Shared, sh': Shared)
    requires sh'.outs == sh.outs && sh'.ins == sh.ins
    ensures PcmUsers(sh') == PcmUsers(sh) && OutMixerUsers(sh') == OutMixerUsers(sh)
    ensures InMixerUsers(sh') == InMixerUsers(sh)
    ensures forall spOut :: PcmHeldElsewhere(sh', spOut) <==> PcmHeldElsewhere(sh, spOut)
    ensures forall spOut, spIn :: MixerHeldElsewhere(sh', spOut, spIn) <==> MixerHeldElsewhere(sh, spOut, spIn)
  {}

  /** So in every run, the counts are right when setMode has left the call if and only if both opens
    * made for the call had succeeded, or nobody else was left to be robbed of a reference. */
  lemma CallLeft(run: seq<State>, a: nat, b: nat, t: nat, c: Choice)
    requires InBody(run, a, b, t, c) && run[b].threads[t].phase.Unlock? && c.flag && RefsOk(run[a].sh)
    requires Leaves(run[a].sh, run[a].threads[t].phase.mode)
    ensures var sh, pc := run[a].sh, run[a].threads[t];
            CountsRight(run[b].sh) <==>
            && (sh.callPcm || !PcmHeldElsewhere(sh, pc.spOut))
            && (sh.callMixer || !MixerHeldElsewhere(sh, pc.spOut, pc.spIn))
  {
    hide InBody, RefsOk, CountsRight, PcmHeldElsewhere, MixerHeldElsewhere, LeaveCall;
    BodyApplied(run, a, b, t, c);
    InBodyNow(run, a, b, t, c);
    var sh, pc := run[a].sh, run[a].threads[t];
    var sh1 := sh.(mode := pc.phase.mode);
    RefsIgnoreRest(sh, sh1);
    SameUsers(sh, sh1);
    LeaveCallConserves(sh1, pc.spOut, pc.spIn);
  }

  /** setMode's own opens: each holds a reference afterwards exactly if the driver can be opened or is open. */
  lemma CallOpens(run: seq<State>, a: nat, t: nat, c: Choice)
    requires IsRun(run) && a + 1 < |run| && t < |run[a].threads| && Enabled(run[a], t, c)
    requires run[a + 1] == Step(run[a], t, c) && run[a].threads[t].SmApply? && !run[a].sh.callOpenFailed
    ensures var sh, sh', phase := run[a].sh, run[a + 1].sh, run[a].threads[t].phase;
            && (phase.EnterPcm? ==> (sh'.callPcm <==> c.pcmReady || sh.hw.pcm.cnt > 0))
            && (phase.EnterMixer? ==> (sh'.callMixer <==> c.mixerReady || sh.hw.mixer.cnt > 0))
  {
    hide IsRun, Step, Enabled, RefsOk;
    RefsAt(run, a);
    CallOpenStep(run[a], t, c);
  }

  lemma RefsAt(run: seq<State>, k: nat)
    requires IsRun(run) && k < |run| && !run[k].sh.callOpenFailed
    ensures RefsOk(run[k].sh)
  {
    hide IsRun, RefsOk;
    RunInv(run, k);
  }

  lemma CallOpenStep(s: State, t: nat, c: Choice)
    requires Enabled(s, t, c) && s.threads[t].SmApply? && RefsOk(s.sh)
    ensures var sh', phase := Step(s, t, c).sh, s.threads[t].phase;
            && (phase.EnterPcm? ==> (sh'.callPcm <==> c.pcmReady || s.sh.hw.pcm.cnt > 0))
            && (phase.EnterMixer? ==> (sh'.callMixer <==> c.mixerReady || s.sh.hw.mixer.cnt > 0))
  {
    StepEffect(s, t, c);
    GrabSucceeds(s.sh.hw.pcm, OutPcms(s.sh.outs), c.pcmReady, s.sh.hw.serial);
    GrabSucceeds(s.sh.hw.mixer, OutMixers(s.sh.outs), c.mixerReady, s.sh.hw.serial);
    hide Step, StandbyOutOf, StandbyInOf, RefsOk, Grab;
  }

  // ----- the mode and call mode -----

  /** Between calls of setMode, call mode is on in a call and off in the normal mode; other modes leave
    * it as it was. `pc` is where the owner of the hardware lock is. */
  predicate ModeOk(sh: Shared, pc: PC) {
    var phase := if pc.SmApply? then pc.phase else Unlock;
    match phase
    case Decide(_) => Settled(sh)
    case Unlock => Settled(sh)
    case EnterOut => sh.mode == InCall && !sh.inCallAudioMode
    case EnterIn => sh.mode == InCall && !sh.inCallAudioMode
    case EnterPcm => sh.mode == InCall && !sh.inCallAudioMode
    case EnterMixer => sh.mode == InCall && !sh.inCallAudioMode
    case _ => sh.mode == Normal && sh.inCallAudioMode
  }

  predicate Settled(sh: Shared) {
    (sh.mode == InCall ==> sh.inCallAudioMode) && (sh.mode == Normal ==> !sh.inCallAudioMode)
  }

  /** The body of setMode begins with its decision. */
  lemma BeginsDeciding(sh: Shared, pc: PC, c: Choice)
    requires Known(sh, pc) && Wants(pc).None? && pc != Idle && !pc.SmApply?
    ensures var pc' := Run(sh, pc, c).pc; pc'.SmApply? ==> pc'.phase.Decide?
  {
    hide RunWrite, RunRead, RunInControl, RunOutControl, RunSetMode, RunHw;
    if pc.HwBody? || IsDrop(pc) {
      HwStays(sh, pc, c);
    } else if IsWrite(pc) {
      WriteStays(sh, pc, c);
    } else if IsRead(pc) {
      ReadStays(sh, pc, c);
    } else if IsInControl(pc) || IsOutControl(pc) {
      ControlStays(sh, pc, c);
    } else {
      LoopArrives(sh, pc, c);
    }
  }

  lemma LoopArrives(sh: Shared, pc: PC, c: Choice)
    requires Known(sh, pc) && (pc.SmOutLoop? || pc.SmOutCheck? || pc.SmInLoop? || pc.SmInCheck?)
    ensures var pc' := RunSetMode(sh, pc, c).pc; pc'.SmApply? ==> pc'.phase.Decide?
  {
    hide FirstActive;
  }

  lemma HwStays(sh: Shared, pc: PC, c: Choice)
    ensures pc.HwBody? ==> !RunHw(sh, pc.call, c).pc.SmApply?
    ensures IsDrop(pc) ==> !RunDrop(sh, pc, c).pc.SmApply?
  {
    hide FirstActive, Without;
  }

  lemma WriteStays(sh: Shared, pc: PC, c: Choice)
    requires Known(sh, pc) && IsWrite(pc)
    ensures !RunWrite(sh, pc, c).pc.SmApply?
  {
    hide OpenOutOf, OpenInOf, StandbyInOf, CloseInOf, FirstActive;
  }

  lemma ReadStays(sh: Shared, pc: PC, c: Choice)
    requires Known(sh, pc) && IsRead(pc)
    ensures !RunRead(sh, pc, c).pc.SmApply?
  {
    hide OutOpen, OpenInOf, StandbyOutOf, CloseOutOf;
  }

  lemma ControlStays(sh: Shared, pc: PC, c: Choice)
    requires Known(sh, pc)
    ensures IsInControl(pc) ==> !RunInControl(sh, pc, c).pc.SmApply?
    ensures IsOutControl(pc) ==> !RunOutControl(sh, pc, c).pc.SmApply?
  {
    hide StandbyInOf, StandbyOutOf;
  }

  lemma ApplyKeepsMode(sh: Shared, pc: PC, c: Choice)
    requires pc.SmApply? && Known(sh, pc) && ModeOk(sh, pc)
    ensures var r := RunApply(sh, pc.phase, pc.spOut, pc.spIn, c);
            ModeOk(r.sh, r.pc)
  {
    hide OutDoStandby, InDoStandby, OpenPcm, OpenMixer, ClosePcm, CloseMixer;
  }

  lemma RunKeepsMode(sh: Shared, pc: PC, c: Choice)
    requires Known(sh, pc) && PcOk(sh, pc) && Registered(sh) && Wants(pc).None? && pc != Idle && ModeOk(sh, pc)
    ensures var r := Run(sh, pc, c); ModeOk(r.sh, r.pc)
  {
    if pc.SmApply? {
      ApplyKeepsMode(sh, pc, c);
    } else {
      RunOk(sh, pc, c);
      BeginsDeciding(sh, pc, c);
      hide Run, OnlyOut, OnlyIn, OnlyRegistry, SameRegistry, PcOk;
    }
  }

  /** Outside the body, it does not matter who owns the lock. */
  lemma ModeElsewhere(sh: Shared, pc: PC)
    requires !pc.SmApply?
    ensures ModeOk(sh, pc) <==> ModeOk(sh, Idle)
  {}

  lemma NotInBody(sh: Shared, pc: PC)
    ensures !Held(pc).hw ==> !pc.SmApply?
    ensures Wants(pc).Some? ==> !Locked(sh, pc).SmApply?
  {}

  lemma StepKeepsMode(s: State, t: nat, c: Choice)
    requires LocksOk(s) && StandbyInv(s) && Enabled(s, t, c) && ModeOk(s.sh, HwPc(s))
    ensures ModeOk(Step(s, t, c).sh, HwPc(Step(s, t, c)))
  {
    var pc, s' := s.threads[t], Step(s, t, c);
    StepKeepsLocks(s, t, c);
    StepEffect(s, t, c);
    HwMoves(s, s', t);
    assert PcOk(s.sh, pc);
    assert Wants(pc) == Some(HwL) ==> HwPc(s) == Idle;
    NotInBody(s.sh, pc);
    NotInBody(s.sh, s'.threads[t]);
    hide LocksOk, ModeOk, Run, Step, HwPc, Held, Locked, Wants, PcOk, StandbyInv;
    if pc == Idle {
    } else if Wants(pc).Some? {
      TakingHw(s.sh, pc);
      ModeElsewhere(s.sh, s'.threads[t]);
    } else if Held(pc).hw {
      RunKeepsMode(s.sh, pc, c);
      if !s'.threads[t].SmApply? { ModeElsewhere(s'.sh, s'.threads[t]); }
    } else {
      RunOutside(s, t, c);
    }
  }

  lemma {:induction false} ModeInv(run: seq<State>, k: nat)
    requires IsRun(run) && k < |run|
    ensures ModeOk(run[k].sh, HwPc(run[k]))
  {
    hide ModeOk, ResourceInv, Step;
    if k == 0 {
      assert ModeOk(BOOT, Idle) by { ModeAtBoot(); }
    } else {
      ModeInv(run, k - 1);
      RunInv(run, k - 1);
      var t, c := StepAt(run, k - 1);
      StepKeepsMode(run[k - 1], t, c);
    }
  }

  lemma ModeAtBoot()
    ensures ModeOk(BOOT, Idle)
  {}

  /** In every reachable state in which the hardware lock is free, call mode is on if the mode is a
    * call, and off if it is the normal one. */
  lemma CallModeFollows(run: seq<State>, k: nat)
    requires IsRun(run) && k < |run| && HwL !in run[k].locks
    ensures var sh := run[k].sh;
            (sh.mode == InCall ==> sh.inCallAudioMode) && (sh.mode == Normal ==> !sh.inCallAudioMode)
  {
    ModeInv(run, k);
  }
}
