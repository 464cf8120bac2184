/** The "AudioOutLock" wake lock: an output stream holds it exactly while it is active, except
  * that write() takes it before it starts waiting for the input stream.
  */
module AudioWakeLock {
  import opened Options
  import opened RefCounts
  import opened AudioResources
  import opened AudioProtocol
  import opened AudioLocks
  import opened AudioStandby

  /** write() on `o` has acquired the wake lock and not yet left standby or given up. */
  predicate Waking(pc: PC, o: nat) {
    && (|| pc.WrInLoop? || pc.WrInLock? || pc.WrInHw? || pc.WrInCheck?
        || pc.WrOpenOut? || pc.WrOpenIn? || pc.WrFinish?)
    && pc.o == o
  }

  /** The stream's acquisitions outnumber its releases by one while it is active or waking. */
  predicate Balanced(st: OutStream, waking: bool) {
    st.wakes == One(!st.standby) + One(waking)
  }

  /** Some thread is inside write()'s wake-up of output `o`; it then holds that stream's lock. */
  predicate WakingUp(s: State, o: nat) {
    && OutL(o) in s.locks
    && s.locks[OutL(o)] < |s.threads|
    && Waking(s.threads[s.locks[OutL(o)]], o)
  }

  ghost predicate WakeInv(s: State) {
    forall o: nat :: o in s.sh.outs ==> Balanced(s.sh.outs[o], WakingUp(s, o))
  }

  /** The kernel's lock is one bit: it is held exactly while some stream's acquisition stands. */
  ghost predicate Followed(sh: Shared) {
    sh.wakeLock <==> exists o: nat :: o in sh.outs && sh.outs[o].wakes > 0
  }

  /** No two streams have an acquisition standing. */
  ghost predicate OneHolder(sh: Shared) {
    forall o: nat, p: nat :: o in sh.outs && p in sh.outs && sh.outs[o].wakes > 0 && sh.outs[p].wakes > 0 ==> o == p
  }

  /** The effect of one step of code on the wake lock. */
  ghost predicate WakeStep(sh: Shared, pc: PC, r: Ran) {
    match Held(pc).out
    case None =>
      && r.sh.wakeLock == sh.wakeLock
      && (r.sh.outs == sh.outs || exists o: nat :: o !in sh.outs && r.sh.outs == sh.outs[o := NEW_OUT])
    case Some(o) =>
      && o in sh.outs && o in r.sh.outs && r.sh.outs == sh.outs[o := r.sh.outs[o]]
      && (Balanced(sh.outs[o], Waking(pc, o)) ==>
            && Balanced(r.sh.outs[o], Waking(r.pc, o))
            && (r.sh.outs[o].wakes == sh.outs[o].wakes ==> r.sh.wakeLock == sh.wakeLock)
            && (r.sh.outs[o].wakes != sh.outs[o].wakes ==> (r.sh.wakeLock <==> r.sh.outs[o].wakes > 0)))
  }

  lemma WriteEntryWake(sh: Shared, pc: PC, c: Choice)
    requires Known(sh, pc) && PcOk(sh, pc)
    requires pc.WrTest? || pc.WrWake? || pc.WrInLoop? || pc.WrInCheck?
    ensures WakeStep(sh, pc, RunWrite(sh, pc, c))
  {
    hide InClose, FirstActive;
  }

  lemma WriteOpenOutWake(sh: Shared, pc: PC, c: Choice)
    requires Known(sh, pc) && PcOk(sh, pc)
    requires pc.WrOpenOut?
    ensures WakeStep(sh, pc, RunWrite(sh, pc, c))
  {}

  lemma WriteOpenInWake(sh: Shared, pc: PC, c: Choice)
    requires Known(sh, pc) && PcOk(sh, pc)
    requires pc.WrOpenIn?
    ensures WakeStep(sh, pc, RunWrite(sh, pc, c))
  {
    hide InOpen, InDoStandby, Balanced;
    if pc.spIn.Some? { InputsApart(sh, pc.spIn.value, c); }
    StillWaking(sh, pc, RunWrite(sh, pc, c));
  }

  /** Opening an input and putting it into standby leave outputs and wake lock alone. */
  lemma InputsApart(sh: Shared, i: nat, c: Choice)
    requires i in sh.ins
    ensures var sh1 := OpenInOf(sh, i, c.pcmReady, c.mixerReady);
            && i in sh1.ins && sh1.outs == sh.outs && sh1.wakeLock == sh.wakeLock
            && StandbyInOf(sh1, i).outs == sh.outs && StandbyInOf(sh1, i).wakeLock == sh.wakeLock
  {
    hide InOpen, InDoStandby;
  }

  lemma StillWaking(sh: Shared, pc: PC, r: Ran)
    requires Known(sh, pc) && pc.WrOpenIn? && r.pc == WrFinish(pc.o)
    requires r.sh.outs == sh.outs && r.sh.wakeLock == sh.wakeLock
    ensures WakeStep(sh, pc, r)
  {}

  lemma WriteFinishWake(sh: Shared, pc: PC, c: Choice)
    requires Known(sh, pc) && PcOk(sh, pc)
    requires pc.WrFinish? || pc.WrPlay?
    ensures WakeStep(sh, pc, RunWrite(sh, pc, c))
  {
    hide OutOpen, InOpen, InClose, InDoStandby, FirstActive;
  }

  lemma OutControlWake(sh: Shared, pc: PC, c: Choice)
    requires Known(sh, pc) && PcOk(sh, pc)
    requires IsOutControl(pc)
    ensures WakeStep(sh, pc, RunOutControl(sh, pc, c))
  {
    hide CloseMixer, ClosePcm;
  }

  lemma ReadEntryWake(sh: Shared, pc: PC, c: Choice)
    requires Known(sh, pc) && PcOk(sh, pc)
    requires pc.RdTest? || pc.RdOutLoop? || pc.RdCheck? || pc.RdCapture?
    ensures WakeStep(sh, pc, RunRead(sh, pc, c))
  {
    hide Balanced;
  }

  lemma ReadCycleWake(sh: Shared, pc: PC, c: Choice)
    requires Known(sh, pc) && PcOk(sh, pc)
    requires pc.RdCycle? || pc.RdOpen?
    ensures WakeStep(sh, pc, RunRead(sh, pc, c))
  {
    hide InOpen, OutClose;
    if pc.RdCycle? { CloseIsBalanced(sh, pc.o); }
  }

  lemma CloseIsBalanced(sh: Shared, o: nat)
    requires o in sh.outs
    ensures var sh' := CloseOutOf(sh, o);
            && sh'.outs == sh.outs[o := sh'.outs[o]] && sh'.wakeLock == sh.wakeLock
            && sh'.outs[o].wakes == sh.outs[o].wakes && sh'.outs[o].standby == sh.outs[o].standby
  {}

  lemma ReadReopenWake(sh: Shared, pc: PC, c: Choice)
    requires Known(sh, pc) && PcOk(sh, pc)
    requires pc.RdReopen?
    ensures WakeStep(sh, pc, RunRead(sh, pc, c))
  {
    var sh1 := OpenOutOf(sh, pc.o, c.pcmReady, c.mixerReady);
    var sh2 := StandbyOutOf(sh1, pc.o);
    assert sh2.outs == sh.outs[pc.o := sh2.outs[pc.o]];
    assert !Waking(RdOpen(pc.i), pc.o);
  }

  lemma InControlWake(sh: Shared, pc: PC, c: Choice)
    requires Known(sh, pc) && PcOk(sh, pc)
    requires IsInControl(pc)
    ensures WakeStep(sh, pc, RunInControl(sh, pc, c))
  {
    hide InDoStandby, OpenMixer, CloseMixer, Balanced;
  }

  lemma WriteWake(sh: Shared, pc: PC, c: Choice)
    requires Known(sh, pc) && PcOk(sh, pc) && IsWrite(pc)
    ensures WakeStep(sh, pc, RunWrite(sh, pc, c))
  {
    if pc.WrTest? || pc.WrWake? || pc.WrInLoop? || pc.WrInCheck? {
      WriteEntryWake(sh, pc, c);
    } else if pc.WrOpenOut? {
      WriteOpenOutWake(sh, pc, c);
    } else if pc.WrOpenIn? {
      WriteOpenInWake(sh, pc, c);
    } else {
      WriteFinishWake(sh, pc, c);
    }
  }

  lemma ReadWake(sh: Shared, pc: PC, c: Choice)
    requires Known(sh, pc) && PcOk(sh, pc) && IsRead(pc)
    ensures WakeStep(sh, pc, RunRead(sh, pc, c))
  {
    if pc.RdTest? || pc.RdOutLoop? || pc.RdCheck? || pc.RdCapture? {
      ReadEntryWake(sh, pc, c);
    } else if pc.RdCycle? || pc.RdOpen? {
      ReadCycleWake(sh, pc, c);
    } else {
      ReadReopenWake(sh, pc, c);
    }
  }

  lemma LoopWake(sh: Shared, pc: PC, c: Choice)
    requires Known(sh, pc) && Wants(pc).None?
    requires pc.SmOutLoop? || pc.SmOutCheck? || pc.SmInLoop? || pc.SmInCheck?
    ensures WakeStep(sh, pc, RunSetMode(sh, pc, c))
  {}

  lemma UntouchedWake(sh: Shared, pc: PC, r: Ran)
    requires Known(sh, pc) && pc.SmApply? && !IsWrite(r.pc) && !r.pc.WrInLock? && !r.pc.WrInHw?
    requires r.sh.outs == sh.outs && r.sh.wakeLock == sh.wakeLock
    ensures WakeStep(sh, pc, r)
  {}

  lemma ApplyDecideWake(sh: Shared, pc: PC, c: Choice)
    requires Known(sh, pc) && pc.SmApply? && (pc.phase.Decide? || pc.phase.Unlock?)
    ensures WakeStep(sh, pc, RunApply(sh, pc.phase, pc.spOut, pc.spIn, c))
  {
    UntouchedWake(sh, pc, RunApply(sh, pc.phase, pc.spOut, pc.spIn, c));
  }

  lemma ApplyEnterWake(sh: Shared, pc: PC, c: Choice)
    requires Known(sh, pc) && pc.SmApply? && (pc.phase.EnterPcm? || pc.phase.EnterMixer?)
    ensures WakeStep(sh, pc, RunApply(sh, pc.phase, pc.spOut, pc.spIn, c))
  {
    UntouchedWake(sh, pc, RunApply(sh, pc.phase, pc.spOut, pc.spIn, c));
  }

  lemma ApplyLeaveWake(sh: Shared, pc: PC, c: Choice)
    requires Known(sh, pc) && pc.SmApply? && (pc.phase.LeaveMixer? || pc.phase.LeavePcm?)
    ensures WakeStep(sh, pc, RunApply(sh, pc.phase, pc.spOut, pc.spIn, c))
  {
    UntouchedWake(sh, pc, RunApply(sh, pc.phase, pc.spOut, pc.spIn, c));
  }

  lemma ApplyOutWake(sh: Shared, pc: PC, c: Choice)
    requires Known(sh, pc) && pc.SmApply? && (pc.phase.EnterOut? || pc.phase.LeaveOut?)
    ensures WakeStep(sh, pc, RunApply(sh, pc.phase, pc.spOut, pc.spIn, c))
  {}

  lemma ApplyInWake(sh: Shared, pc: PC, c: Choice)
    requires Known(sh, pc) && pc.SmApply? && (pc.phase.EnterIn? || pc.phase.LeaveIn?)
    ensures WakeStep(sh, pc, RunApply(sh, pc.phase, pc.spOut, pc.spIn, c))
  {}

  lemma ApplyWake(sh: Shared, pc: PC, c: Choice)
    requires Known(sh, pc) && pc.SmApply?
    ensures WakeStep(sh, pc, RunApply(sh, pc.phase, pc.spOut, pc.spIn, c))
  {
    if pc.phase.EnterOut? || pc.phase.LeaveOut? {
      ApplyOutWake(sh, pc, c);
    } else if pc.phase.EnterIn? || pc.phase.LeaveIn? {
      ApplyInWake(sh, pc, c);
    } else if pc.phase.EnterPcm? || pc.phase.EnterMixer? {
      ApplyEnterWake(sh, pc, c);
    } else if pc.phase.LeaveMixer? || pc.phase.LeavePcm? {
      ApplyLeaveWake(sh, pc, c);
    } else {
      ApplyDecideWake(sh, pc, c);
    }
  }

  lemma HwWake(sh: Shared, call: HwCall, c: Choice)
    ensures WakeStep(sh, HwBody(call), RunHw(sh, call, c))
  {}

  lemma DropWake(sh: Shared, pc: PC, c: Choice)
    requires IsDrop(pc)
    ensures WakeStep(sh, pc, RunDrop(sh, pc, c))
  {}

  lemma RunWake(sh: Shared, pc: PC, c: Choice)
    requires Known(sh, pc) && PcOk(sh, pc) && Wants(pc).None? && pc != Idle
    ensures WakeStep(sh, pc, Run(sh, pc, c))
  {
    if pc.HwBody? {
      HwWake(sh, pc.call, c);
    } else if IsDrop(pc) {
      DropWake(sh, pc, c);
    } else if IsWrite(pc) {
      WriteWake(sh, pc, c);
    } else if IsOutControl(pc) {
      OutControlWake(sh, pc, c);
    } else if IsRead(pc) {
      ReadWake(sh, pc, c);
    } else if IsInControl(pc) {
      InControlWake(sh, pc, c);
    } else if pc.SmApply? {
      ApplyWake(sh, pc, c);
    } else {
      LoopWake(sh, pc, c);
    }
  }

  /** Only the owner of a stream's lock can be waking it up. */
  lemma WakerHolds(s: State, t: nat, o: nat)
    requires LocksOk(s) && t < |s.threads|
    ensures Waking(s.threads[t], o) ==> Held(s.threads[t]).out == Some(o)
    ensures Held(s.threads[t]).out == Some(o) ==> (WakingUp(s, o) <==> Waking(s.threads[t], o))
  {
    if Held(s.threads[t]).out == Some(o) { assert Holds(s.threads[t], OutL(o)); }
  }

  /** A step changes who is waking up output `o` only if its thread holds that stream's lock. */
  lemma WakingFrame(s: State, t: nat, c: Choice, o: nat)
    requires LocksOk(s) && Enabled(s, t, c) && LocksOk(Step(s, t, c))
    ensures var s' := Step(s, t, c);
            WakingUp(s', o) <==> if Held(s.threads[t]).out == Some(o) then Waking(s'.threads[t], o) else WakingUp(s, o)
  {
    var pc := s.threads[t];
    var s' := Step(s, t, c);
    WakerHolds(s', t, o);
    if pc == Idle {
    } else if Wants(pc).Some? {
      LockedHolds(s.sh, pc);
    } else {
      RunReleases(s.sh, pc, c);
    }
  }

  /** The invariant for output `o`, where `waking` says whether it is being woken up. */
  ghost predicate StreamWake(sh: Shared, o: nat, waking: bool) {
    if o in sh.outs then Balanced(sh.outs[o], waking) else !waking
  }

  lemma RunStreamWake(sh: Shared, pc: PC, r: Ran, o: nat, waking: bool)
    requires WakeStep(sh, pc, r) && StreamWake(sh, o, waking)
    requires Held(pc).out == Some(o) ==> waking == Waking(pc, o)
    requires o in r.sh.outs
    ensures StreamWake(r.sh, o, if Held(pc).out == Some(o) then Waking(r.pc, o) else waking)
  {}

  lemma StreamStaysBalanced(s: State, t: nat, c: Choice, o: nat)
    requires LocksOk(s) && StandbyInv(s) && WakeInv(s) && Enabled(s, t, c) && LocksOk(Step(s, t, c))
    requires o in Step(s, t, c).sh.outs
    ensures var s' := Step(s, t, c); StreamWake(s'.sh, o, WakingUp(s', o))
  {
    hide Run;
    var pc := s.threads[t];
    WakingFrame(s, t, c, o);
    WakerHolds(s, t, o);
    if o !in s.sh.outs { NobodyWakes(s, o); }
    if pc == Idle {
    } else if Wants(pc).Some? {
      TakeWaking(s.sh, pc, o);
    } else {
      RunWake(s.sh, pc, c);
      RunStreamWake(s.sh, pc, Run(s.sh, pc, c), o, WakingUp(s, o));
    }
  }

  lemma TakeWaking(sh: Shared, pc: PC, o: nat)
    requires Wants(pc).Some?
    ensures Waking(Locked(sh, pc), o) <==> Waking(pc, o)
  {}

  lemma NobodyWakes(s: State, o: nat)
    requires LocksOk(s) && StandbyInv(s) && o !in s.sh.outs
    ensures !WakingUp(s, o)
  {}

  lemma StepKeepsWake(s: State, t: nat, c: Choice)
    requires LocksOk(s) && StandbyInv(s) && WakeInv(s) && Enabled(s, t, c)
    ensures WakeInv(Step(s, t, c))
  {
    hide Run;
    var s' := Step(s, t, c);
    StepKeepsLocks(s, t, c);
    forall o: nat | o in s'.sh.outs
      ensures StreamWake(s'.sh, o, WakingUp(s', o))
    {
      StreamStaysBalanced(s, t, c, o);
    }
  }

  /** The code's effect on the kernel's lock, if at most one stream has an acquisition standing. */
  lemma RunFollows(sh: Shared, pc: PC, r: Ran)
    requires WakeStep(sh, pc, r) && Followed(sh) && OneHolder(sh)
    requires Held(pc).out.Some? ==> var o := Held(pc).out.value;
               o in sh.outs && Balanced(sh.outs[o], Waking(pc, o)) && Balanced(r.sh.outs[o], Waking(r.pc, o))
    ensures Followed(r.sh)
  {
    hide Waking;
    match Held(pc).out
    case None =>
      forall o: nat | o in r.sh.outs && r.sh.outs[o].wakes > 0 ensures o in sh.outs && sh.outs[o].wakes > 0 {}
      forall o: nat | o in sh.outs && sh.outs[o].wakes > 0 ensures o in r.sh.outs && r.sh.outs[o].wakes > 0 {}
    case Some(o) =>
      forall p: nat | p in sh.outs && p != o ensures p in r.sh.outs && r.sh.outs[p] == sh.outs[p] {}
      forall p: nat | p in r.sh.outs && p != o ensures p in sh.outs && r.sh.outs[p] == sh.outs[p] {}
  }

  lemma StepFollows(s: State, t: nat, c: Choice)
    requires LocksOk(s) && StandbyInv(s) && WakeInv(s) && Enabled(s, t, c)
    requires Followed(s.sh) && OneHolder(s.sh)
    ensures Followed(Step(s, t, c).sh)
  {
    hide Run, Followed, OneHolder, Balanced;
    var pc := s.threads[t];
    if pc != Idle && Wants(pc).None? {
      var r := Run(s.sh, pc, c);
      RunWake(s.sh, pc, c);
      if Held(pc).out.Some? { WakerHolds(s, t, Held(pc).out.value); }
      RunFollows(s.sh, pc, r);
    }
  }
}
