/** Reference counts, driver handles and standby flags of the audio protocol: the invariant
  * that ties them together after every step of every thread.
  *
  * Inside a critical section a stream may be half way between open and closed; the program
  * counter of the thread that owns the hardware lock says which stream that is.
  */
module AudioHandles {
  import opened Options
  import opened RefCounts
  import opened AudioResources
  import opened AudioProtocol
  import opened AudioLocks
  import opened AudioStandby

  /** write() has opened output `o` and not yet cleared its standby flag. */
  predicate OutOpening(pc: PC, o: nat) { (pc.WrOpenIn? || pc.WrFinish?) && pc.o == o }

  /** read() has closed the active output `o` and not yet re-opened it. */
  predicate OutCycling(pc: PC, o: nat) { pc.RdReopen? && pc.o == o }

  /** write() has closed the active input `i` and not yet re-opened it. */
  predicate InCycling(pc: PC, i: nat) { (pc.WrOpenOut? || pc.WrOpenIn?) && pc.spIn == Some(i) }

  predicate OutStreamOk(st: OutStream, opening: bool, cycling: bool) {
    && (st.pcm.None? ==> st.mixer.None?)
    && (st.standby && !opening ==> st.pcm.None?)
    && (!st.standby ==> (st.pcm.None? <==> cycling))
  }

  predicate InStreamOk(st: InStream, cycling: bool) {
    && (st.pcm.None? ==> st.mixer.None?)
    && (st.pcm.None? <==> st.standby || cycling)
  }

  ghost predicate OutsOk(sh: Shared, pc: PC) {
    forall o: nat :: o in sh.outs ==> OutStreamOk(sh.outs[o], OutOpening(pc, o), OutCycling(pc, o))
  }

  ghost predicate InsOk(sh: Shared, pc: PC) {
    forall i: nat :: i in sh.ins ==> InStreamOk(sh.ins[i], InCycling(pc, i))
  }

  /** setMode holds its own references exactly in call mode, except between its two opens and
    * from its closes to the end of leaving the call. */
  predicate CallOk(sh: Shared, pc: PC) {
    if pc.SmApply? && pc.phase.EnterMixer? then sh.callPcm && !sh.callMixer && !sh.inCallAudioMode
    else if pc.SmApply? && pc.phase.LeavePcm? then sh.callPcm && !sh.callMixer && sh.inCallAudioMode
    else if pc.SmApply? && (pc.phase.LeaveOut? || pc.phase.LeaveIn?) then
      !sh.callPcm && !sh.callMixer && sh.inCallAudioMode
    else
      && sh.callPcm == sh.callMixer == sh.inCallAudioMode
      && (pc.SmApply? ==>
            && (pc.phase.EnterOut? || pc.phase.EnterIn? || pc.phase.EnterPcm? ==> !sh.inCallAudioMode)
            && (pc.phase.LeaveMixer? ==> sh.inCallAudioMode))
  }

  /** `pc` is where the owner of the hardware lock is; Idle stands for nobody. */
  ghost predicate ResourcesOk(sh: Shared, pc: PC) {
    RefsOk(sh) && OutsOk(sh, pc) && InsOk(sh, pc) && CallOk(sh, pc)
  }

  // ----- reference counts, step by step -----

  /** What a step that opens or gives back a reference needs to know. */
  predicate ReadyAt(sh: Shared, pc: PC) {
    match pc
    case WrOpenOut(o, _) => o in sh.outs && sh.outs[o].pcm.None? && sh.outs[o].mixer.None?
    case RdReopen(_, o) => o in sh.outs && sh.outs[o].pcm.None? && sh.outs[o].mixer.None?
    case WrOpenIn(_, spIn) => spIn.Some? ==> spIn.value in sh.ins && sh.ins[spIn.value].mixer.None?
    case RdOpen(i) => i in sh.ins && sh.ins[i].mixer.None?
    case SmApply(phase, _, _) =>
      && (phase.EnterPcm? ==> !sh.callPcm)
      && (phase.EnterMixer? ==> !sh.callMixer)
      && (phase.LeaveMixer? ==> sh.callMixer)
      && (phase.LeavePcm? ==> sh.callPcm)
    case _ => true
  }

  lemma Ready(sh: Shared, pc: PC)
    requires Known(sh, pc) && PcOk(sh, pc) && OutsOk(sh, pc) && InsOk(sh, pc) && CallOk(sh, pc)
    ensures ReadyAt(sh, pc)
  {}

  lemma WriteOpenRefs(sh: Shared, pc: PC, c: Choice)
    requires Known(sh, pc) && (pc.WrOpenOut? || pc.WrOpenIn?) && ReadyAt(sh, pc) && RefsOk(sh)
    ensures RefsOk(RunWrite(sh, pc, c).sh)
  {
    hide RefsOk;
    if pc.WrOpenOut? {
      OpenOutKeepsRefs(sh, pc.o, c.pcmReady, c.mixerReady);
    } else if pc.spIn.Some? {
      OpenInKeepsRefs(sh, pc.spIn.value, c.pcmReady, c.mixerReady);
      CloseInKeepsRefs(OpenInOf(sh, pc.spIn.value, c.pcmReady, c.mixerReady), pc.spIn.value);
    }
  }

  /** write() acquires or releases the wake lock, or marks the stream active. */
  lemma WriteMarkRefs(sh: Shared, pc: PC, c: Choice)
    requires Known(sh, pc) && (pc.WrWake? || pc.WrFinish?) && RefsOk(sh)
    ensures RefsOk(RunWrite(sh, pc, c).sh)
  {
    hide RefsOk, OpenOutOf, OpenInOf, CloseInOf, StandbyInOf, FirstActive;
    MarkRefs(sh, RunWrite(sh, pc, c).sh, pc.o);
  }

  lemma MarkRefs(sh: Shared, sh': Shared, o: nat)
    requires RefsOk(sh) && o in sh.outs && o in sh'.outs && sh'.outs == sh.outs[o := sh'.outs[o]]
    requires sh'.outs[o].pcm == sh.outs[o].pcm && sh'.outs[o].mixer == sh.outs[o].mixer
    requires sh'.hw == sh.hw && sh'.ins == sh.ins && sh'.callPcm == sh.callPcm && sh'.callMixer == sh.callMixer
    ensures RefsOk(sh')
  {
    hide RefsOk;
    SameHandles(sh, o, sh'.outs[o]);
    RefsIgnoreRest(sh.(outs := sh'.outs), sh');
  }

  lemma WriteRefs(sh: Shared, pc: PC, c: Choice)
    requires Known(sh, pc) && IsWrite(pc) && ReadyAt(sh, pc) && RefsOk(sh)
    ensures RefsOk(RunWrite(sh, pc, c).sh)
  {
    hide RefsOk, OutOpen, InOpen, InClose, InDoStandby;
    if pc.WrWake? || pc.WrFinish? {
      WriteMarkRefs(sh, pc, c);
    } else if pc.WrInCheck? {
      CloseInKeepsRefs(sh, pc.i);
    } else if pc.WrOpenOut? || pc.WrOpenIn? {
      WriteOpenRefs(sh, pc, c);
    }
  }

  lemma ReadRefs(sh: Shared, pc: PC, c: Choice)
    requires Known(sh, pc) && IsRead(pc) && ReadyAt(sh, pc) && RefsOk(sh)
    ensures RefsOk(RunRead(sh, pc, c).sh)
  {
    hide RefsOk;
    if pc.RdCycle? {
      CloseOutKeepsRefs(sh, pc.o);
    } else if pc.RdReopen? {
      OpenOutKeepsRefs(sh, pc.o, c.pcmReady, c.mixerReady);
      StandbyOutKeepsRefs(OpenOutOf(sh, pc.o, c.pcmReady, c.mixerReady), pc.o);
    } else if pc.RdOpen? {
      OpenInKeepsRefs(sh, pc.i, c.pcmReady, c.mixerReady);
      InMarked(OpenInOf(sh, pc.i, c.pcmReady, c.mixerReady), pc.i);
    }
  }

  lemma InMarked(sh: Shared, i: nat)
    requires RefsOk(sh) && i in sh.ins
    ensures RefsOk(sh.(ins := sh.ins[i := sh.ins[i].(standby := false)]))
  {
    InUpdated(sh.ins, i, sh.ins[i].(standby := false));
    Unchanged(InMixers(sh.ins), i, sh.ins[i].mixer);
  }

  lemma ControlRefs(sh: Shared, pc: PC, c: Choice)
    requires Known(sh, pc) && RefsOk(sh)
    ensures IsOutControl(pc) ==> RefsOk(RunOutControl(sh, pc, c).sh)
    ensures IsInControl(pc) ==> RefsOk(RunInControl(sh, pc, c).sh)
  {
    hide RefsOk;
    if pc.OsBody? || pc.OpBody? {
      StandbyOutKeepsRefs(sh, pc.o);
    } else if pc.IsBody? || pc.IpRouteBody? {
      CloseInKeepsRefs(sh, pc.i);
    } else if pc.IpSourceBody? {
      MixerRoundTrip(sh, c.mixerReady);
    }
  }

  /** setParameters opens the mixer and closes it again, whatever the open gave. */
  lemma MixerRoundTrip(sh: Shared, ready: bool)
    requires RefsOk(sh)
    ensures RefsOk(sh.(hw := CloseMixer(OpenMixer(sh.hw, ready).0)))
  {
    var d := sh.hw.mixer;
    var (d', h) := Grab(d, ready, sh.hw.serial);
    assert Drop(d') == d;
  }

  lemma ApplyRefs(sh: Shared, phase: Phase, spOut: Option<nat>, spIn: Option<nat>, c: Choice)
    requires var pc := SmApply(phase, spOut, spIn); Known(sh, pc) && ReadyAt(sh, pc) && RefsOk(sh)
    ensures RefsOk(RunApply(sh, phase, spOut, spIn, c).sh)
  {
    hide RefsOk;
    var r := RunApply(sh, phase, spOut, spIn, c);
    match phase
    case Decide(m) => RefsIgnoreRest(sh, r.sh);
    case EnterOut => if spOut.Some? { StandbyOutKeepsRefs(sh, spOut.value); }
    case EnterIn => if spIn.Some? { CloseInKeepsRefs(sh, spIn.value); }
    case EnterPcm => CallOpensKeepRefs(sh, c.pcmReady);
    case EnterMixer =>
      CallOpensKeepRefs(sh, c.mixerReady);
      RefsIgnoreRest(CallOpenMixer(sh, c.mixerReady), r.sh);
    case LeaveMixer => CallClosesKeepRefs(sh);
    case LeavePcm => CallClosesKeepRefs(sh);
    case LeaveOut => if spOut.Some? { StandbyOutKeepsRefs(sh, spOut.value); }
    case LeaveIn =>
      if spIn.Some? {
        CloseInKeepsRefs(sh, spIn.value);
        RefsIgnoreRest(StandbyInOf(sh, spIn.value), r.sh);
      } else {
        RefsIgnoreRest(sh, r.sh);
      }
    case Unlock =>
  }

  lemma NewOutRefs(sh: Shared, o: nat)
    requires RefsOk(sh) && o !in sh.outs
    ensures RefsOk(sh.(outs := sh.outs[o := NEW_OUT]))
  {
    OutUpdated(sh.outs, o, NEW_OUT);
    HolderCount(OutPcms(sh.outs), o, None);
    HolderCount(OutMixers(sh.outs), o, None);
  }

  lemma NewInRefs(sh: Shared, i: nat)
    requires RefsOk(sh) && i !in sh.ins
    ensures RefsOk(sh.(ins := sh.ins[i := NEW_IN]))
  {
    InUpdated(sh.ins, i, NEW_IN);
    HolderCount(InMixers(sh.ins), i, None);
  }

  lemma OpenRefs(sh: Shared, call: HwCall, c: Choice)
    requires RefsOk(sh) && (call.OpenOutput? || call.OpenInput?)
    ensures RefsOk(RunHw(sh, call, c).sh)
  {
    hide RefsOk, FirstActive, Without;
    var r := RunHw(sh, call, c);
    if call.OpenOutput? && r.sh != sh {
      NewOutRefs(sh, c.id);
      RefsIgnoreRest(sh.(outs := r.sh.outs), r.sh);
    } else if r.sh != sh {
      NewInRefs(sh, c.id);
      RefsIgnoreRest(sh.(ins := r.sh.ins), r.sh);
    }
  }

  lemma HwRefs(sh: Shared, call: HwCall, c: Choice)
    requires RefsOk(sh)
    ensures RefsOk(RunHw(sh, call, c).sh)
  {
    hide RefsOk, FirstActive, Without;
    var r := RunHw(sh, call, c);
    if call.OpenOutput? || call.OpenInput? {
      OpenRefs(sh, call, c);
    } else {
      RefsIgnoreRest(sh, r.sh);
    }
  }

  // ----- streams and call mode, step by step -----

  /** Everything but the counts. */
  ghost predicate StreamsOk(sh: Shared, pc: PC) {
    OutsOk(sh, pc) && InsOk(sh, pc) && CallOk(sh, pc)
  }

  lemma WriteEntryStreams(sh: Shared, pc: PC, c: Choice)
    requires Known(sh, pc) && PcOk(sh, pc) && StreamsOk(sh, pc)
    requires pc.WrTest? || pc.WrWake? || pc.WrInLoop?
    ensures var r := RunWrite(sh, pc, c); StreamsOk(r.sh, r.pc)
  {}

  lemma WriteCheckStreams(sh: Shared, pc: PC, c: Choice)
    requires Known(sh, pc) && PcOk(sh, pc) && StreamsOk(sh, pc)
    requires pc.WrInCheck?
    ensures var r := RunWrite(sh, pc, c); StreamsOk(r.sh, r.pc)
  {}

  lemma WriteOpenOutStreams(sh: Shared, pc: PC, c: Choice)
    requires Known(sh, pc) && PcOk(sh, pc) && StreamsOk(sh, pc)
    requires pc.WrOpenOut?
    ensures var r := RunWrite(sh, pc, c); StreamsOk(r.sh, r.pc)
  {}

  lemma WriteOpenInStreams(sh: Shared, pc: PC, c: Choice)
    requires Known(sh, pc) && PcOk(sh, pc) && StreamsOk(sh, pc)
    requires pc.WrOpenIn?
    ensures var r := RunWrite(sh, pc, c); StreamsOk(r.sh, r.pc)
  {
    hide OutsOk, InsOk, CallOk, RunWrite;
    WriteOpenInOuts(sh, pc, c);
    WriteOpenInIns(sh, pc, c);
  }

  lemma WriteOpenInOuts(sh: Shared, pc: PC, c: Choice)
    requires Known(sh, pc) && PcOk(sh, pc) && OutsOk(sh, pc) && CallOk(sh, pc) && pc.WrOpenIn?
    ensures var r := RunWrite(sh, pc, c); OutsOk(r.sh, r.pc) && CallOk(r.sh, r.pc)
  {
    hide OutStreamOk, InOpen, InDoStandby;
  }

  lemma WriteOpenInIns(sh: Shared, pc: PC, c: Choice)
    requires Known(sh, pc) && PcOk(sh, pc) && InsOk(sh, pc) && pc.WrOpenIn?
    ensures var r := RunWrite(sh, pc, c); InsOk(r.sh, r.pc)
  {
    hide OutStreamOk;
  }

  lemma WriteFinishStreams(sh: Shared, pc: PC, c: Choice)
    requires Known(sh, pc) && PcOk(sh, pc) && StreamsOk(sh, pc)
    requires pc.WrFinish? || pc.WrPlay?
    ensures var r := RunWrite(sh, pc, c); StreamsOk(r.sh, r.pc)
  {}

  lemma OutControlStreams(sh: Shared, pc: PC, c: Choice)
    requires Known(sh, pc) && PcOk(sh, pc) && StreamsOk(sh, pc)
    requires IsOutControl(pc)
    ensures var r := RunOutControl(sh, pc, c); StreamsOk(r.sh, r.pc)
  {
    hide CloseMixer, ClosePcm;
  }

  lemma ReadEntryStreams(sh: Shared, pc: PC, c: Choice)
    requires Known(sh, pc) && PcOk(sh, pc) && StreamsOk(sh, pc)
    requires pc.RdTest? || pc.RdOutLoop? || pc.RdCheck? || pc.RdCapture?
    ensures var r := RunRead(sh, pc, c); StreamsOk(r.sh, r.pc)
  {
    hide OutStreamOk, InStreamOk;
  }

  lemma ReadCycleStreams(sh: Shared, pc: PC, c: Choice)
    requires Known(sh, pc) && PcOk(sh, pc) && StreamsOk(sh, pc)
    requires pc.RdCycle?
    ensures var r := RunRead(sh, pc, c); StreamsOk(r.sh, r.pc)
  {}

  lemma ReadReopenStreams(sh: Shared, pc: PC, c: Choice)
    requires Known(sh, pc) && PcOk(sh, pc) && StreamsOk(sh, pc)
    requires pc.RdReopen?
    ensures var r := RunRead(sh, pc, c); StreamsOk(r.sh, r.pc)
  {}

  lemma ReadOpenStreams(sh: Shared, pc: PC, c: Choice)
    requires Known(sh, pc) && PcOk(sh, pc) && StreamsOk(sh, pc)
    requires pc.RdOpen?
    ensures var r := RunRead(sh, pc, c); StreamsOk(r.sh, r.pc)
  {}

  lemma InSourceStreams(sh: Shared, pc: PC, c: Choice)
    requires Known(sh, pc) && PcOk(sh, pc) && StreamsOk(sh, pc)
    requires pc.IsBody? || pc.IpSource? || pc.IpSourceBody?
    ensures var r := RunInControl(sh, pc, c); StreamsOk(r.sh, r.pc)
  {
    hide OutStreamOk, CloseMixer, OpenMixer;
  }

  lemma InRouteStreams(sh: Shared, pc: PC, c: Choice)
    requires Known(sh, pc) && PcOk(sh, pc) && StreamsOk(sh, pc)
    requires pc.IpRoute? || pc.IpRouteBody?
    ensures var r := RunInControl(sh, pc, c); StreamsOk(r.sh, r.pc)
  {}

  lemma WriteStreams(sh: Shared, pc: PC, c: Choice)
    requires Known(sh, pc) && PcOk(sh, pc) && StreamsOk(sh, pc) && IsWrite(pc)
    ensures var r := RunWrite(sh, pc, c); StreamsOk(r.sh, r.pc)
  {
    if pc.WrTest? || pc.WrWake? || pc.WrInLoop? {
      WriteEntryStreams(sh, pc, c);
    } else if pc.WrInCheck? {
      WriteCheckStreams(sh, pc, c);
    } else if pc.WrOpenOut? {
      WriteOpenOutStreams(sh, pc, c);
    } else if pc.WrOpenIn? {
      WriteOpenInStreams(sh, pc, c);
    } else {
      WriteFinishStreams(sh, pc, c);
    }
  }

  lemma ReadStreams(sh: Shared, pc: PC, c: Choice)
    requires Known(sh, pc) && PcOk(sh, pc) && StreamsOk(sh, pc) && IsRead(pc)
    ensures var r := RunRead(sh, pc, c); StreamsOk(r.sh, r.pc)
  {
    if pc.RdTest? || pc.RdOutLoop? || pc.RdCheck? || pc.RdCapture? {
      ReadEntryStreams(sh, pc, c);
    } else if pc.RdCycle? {
      ReadCycleStreams(sh, pc, c);
    } else if pc.RdReopen? {
      ReadReopenStreams(sh, pc, c);
    } else {
      ReadOpenStreams(sh, pc, c);
    }
  }

  lemma InControlStreams(sh: Shared, pc: PC, c: Choice)
    requires Known(sh, pc) && PcOk(sh, pc) && StreamsOk(sh, pc) && IsInControl(pc)
    ensures var r := RunInControl(sh, pc, c); StreamsOk(r.sh, r.pc)
  {
    if pc.IsBody? || pc.IpSource? || pc.IpSourceBody? {
      InSourceStreams(sh, pc, c);
    } else {
      InRouteStreams(sh, pc, c);
    }
  }

  lemma LoopStreams(sh: Shared, pc: PC, c: Choice)
    requires Known(sh, pc) && StreamsOk(sh, pc) && Wants(pc).None?
    requires pc.SmOutLoop? || pc.SmOutCheck? || pc.SmInLoop? || pc.SmInCheck?
    ensures var r := RunSetMode(sh, pc, c); StreamsOk(r.sh, r.pc)
  {}

  lemma ApplyCallStreams(sh: Shared, pc: PC, c: Choice)
    requires Known(sh, pc) && StreamsOk(sh, pc) && pc.SmApply?
    requires || pc.phase.Decide? || pc.phase.EnterPcm? || pc.phase.EnterMixer? || pc.phase.Unlock?
             || pc.phase.LeaveMixer? || pc.phase.LeavePcm?
    ensures var r := RunApply(sh, pc.phase, pc.spOut, pc.spIn, c);
            !r.sh.callOpenFailed ==> StreamsOk(r.sh, r.pc)
  {}

  lemma ApplyOutStreams(sh: Shared, pc: PC, c: Choice)
    requires Known(sh, pc) && StreamsOk(sh, pc) && pc.SmApply?
    requires pc.phase.EnterOut? || pc.phase.LeaveOut?
    ensures var r := RunApply(sh, pc.phase, pc.spOut, pc.spIn, c);
            !r.sh.callOpenFailed ==> StreamsOk(r.sh, r.pc)
  {}

  lemma ApplyInStreams(sh: Shared, pc: PC, c: Choice)
    requires Known(sh, pc) && StreamsOk(sh, pc) && pc.SmApply?
    requires pc.phase.EnterIn? || pc.phase.LeaveIn?
    ensures var r := RunApply(sh, pc.phase, pc.spOut, pc.spIn, c);
            !r.sh.callOpenFailed ==> StreamsOk(r.sh, r.pc)
  {}

  lemma SetModeStreams(sh: Shared, pc: PC, c: Choice)
    requires Known(sh, pc) && StreamsOk(sh, pc) && Wants(pc).None?
    requires pc.SmOutLoop? || pc.SmOutCheck? || pc.SmInLoop? || pc.SmInCheck? || pc.SmApply?
    ensures var r := RunSetMode(sh, pc, c); !r.sh.callOpenFailed ==> StreamsOk(r.sh, r.pc)
  {
    if !pc.SmApply? {
      LoopStreams(sh, pc, c);
    } else if pc.phase.EnterOut? || pc.phase.LeaveOut? {
      ApplyOutStreams(sh, pc, c);
    } else if pc.phase.EnterIn? || pc.phase.LeaveIn? {
      ApplyInStreams(sh, pc, c);
    } else {
      ApplyCallStreams(sh, pc, c);
    }
  }

  lemma HwStreams(sh: Shared, call: HwCall, c: Choice)
    requires StreamsOk(sh, HwBody(call))
    ensures var r := RunHw(sh, call, c); StreamsOk(r.sh, r.pc)
  {}


  // ----- the invariant of all threads -----

  /** Where the owner of the hardware lock is. */
  function HwPc(s: State): PC {
    if HwL in s.locks && s.locks[HwL] < |s.threads| then s.threads[s.locks[HwL]] else Idle
  }

  /** Holds as long as no open made by setMode itself has failed. */
  ghost predicate ResourceInv(s: State) {
    !s.sh.callOpenFailed ==> ResourcesOk(s.sh, HwPc(s))
  }

  lemma NotInside(pc: PC, o: nat)
    requires !Held(pc).hw
    ensures !OutOpening(pc, o) && !OutCycling(pc, o) && !InCycling(pc, o) && !pc.SmApply?
  {}

  lemma NobodyInOutputs(sh: Shared, pc: PC)
    requires !Held(pc).hw
    ensures OutsOk(sh, pc) <==> OutsOk(sh, Idle)
  {
    forall o: nat ensures OutOpening(pc, o) == OutOpening(Idle, o) && OutCycling(pc, o) == OutCycling(Idle, o) {
      NotInside(pc, o);
      NotInside(Idle, o);
    }
    hide Held, OutOpening, OutCycling, OutStreamOk;
  }

  lemma NobodyInInputs(sh: Shared, pc: PC)
    requires !Held(pc).hw
    ensures InsOk(sh, pc) <==> InsOk(sh, Idle)
  {
    forall i: nat ensures InCycling(pc, i) == InCycling(Idle, i) {
      NotInside(pc, i);
      NotInside(Idle, i);
    }
    hide Held, InCycling, InStreamOk;
  }

  lemma NobodyInCall(sh: Shared, pc: PC)
    requires !Held(pc).hw
    ensures CallOk(sh, pc) <==> CallOk(sh, Idle)
  {
    NotInside(pc, 0);
    hide Held;
  }

  /** Away from the hardware lock no stream is half open. */
  lemma NobodyInside(sh: Shared, pc: PC)
    requires !Held(pc).hw
    ensures ResourcesOk(sh, pc) <==> ResourcesOk(sh, Idle)
  {
    NobodyInOutputs(sh, pc);
    NobodyInInputs(sh, pc);
    NobodyInCall(sh, pc);
    hide Held, RefsOk, OutsOk, InsOk, CallOk;
  }

  lemma TakeResources(sh: Shared, pc: PC)
    requires Wants(pc) == Some(HwL) && ResourcesOk(sh, Idle)
    ensures ResourcesOk(sh, Locked(sh, pc))
  {
    hide RefsOk;
    var pc' := Locked(sh, pc);
    forall o: nat ensures !OutOpening(pc', o) && !OutCycling(pc', o) && !InCycling(pc', o) {}
  }

  lemma RunRefs(sh: Shared, pc: PC, c: Choice)
    requires Known(sh, pc) && PcOk(sh, pc) && ResourcesOk(sh, pc) && Wants(pc).None? && pc != Idle
    ensures RefsOk(Run(sh, pc, c).sh)
  {
    hide RefsOk;
    Ready(sh, pc);
    if pc.HwBody? {
      HwRefs(sh, pc.call, c);
    } else if IsDrop(pc) {
      assert Run(sh, pc, c).sh == sh;
    } else if IsWrite(pc) {
      WriteRefs(sh, pc, c);
    } else if IsOutControl(pc) || IsInControl(pc) {
      ControlRefs(sh, pc, c);
    } else if IsRead(pc) {
      ReadRefs(sh, pc, c);
    } else if pc.SmApply? {
      ApplyRefs(sh, pc.phase, pc.spOut, pc.spIn, c);
    }
  }

  lemma DropStreams(sh: Shared, pc: PC, c: Choice)
    requires IsDrop(pc) && StreamsOk(sh, pc)
    ensures var r := RunDrop(sh, pc, c); r.sh == sh && StreamsOk(sh, r.pc)
  {}

  lemma RunStreams(sh: Shared, pc: PC, c: Choice)
    requires Known(sh, pc) && PcOk(sh, pc) && StreamsOk(sh, pc) && Wants(pc).None? && pc != Idle
    ensures var r := Run(sh, pc, c); !r.sh.callOpenFailed ==> StreamsOk(r.sh, r.pc)
  {
    if pc.HwBody? {
      HwStreams(sh, pc.call, c);
    } else if IsDrop(pc) {
      DropStreams(sh, pc, c);
    } else if IsWrite(pc) {
      WriteStreams(sh, pc, c);
    } else if IsOutControl(pc) {
      OutControlStreams(sh, pc, c);
    } else if IsRead(pc) {
      ReadStreams(sh, pc, c);
    } else if IsInControl(pc) {
      InControlStreams(sh, pc, c);
    } else {
      SetModeStreams(sh, pc, c);
    }
  }

  lemma RunResources(sh: Shared, pc: PC, c: Choice)
    requires Known(sh, pc) && PcOk(sh, pc) && ResourcesOk(sh, pc) && Wants(pc).None? && pc != Idle
    ensures var r := Run(sh, pc, c);
            !r.sh.callOpenFailed ==> ResourcesOk(r.sh, if Held(r.pc).hw then r.pc else Idle)
  {
    hide RefsOk, OutsOk, InsOk, CallOk;
    var r := Run(sh, pc, c);
    RunRefs(sh, pc, c);
    RunStreams(sh, pc, c);
    if !Held(r.pc).hw { NobodyInside(r.sh, r.pc); }
  }

  /** Who is under the hardware lock after a step of thread `t`. */
  lemma HwMoves(s: State, s': State, t: nat)
    requires LocksOk(s) && LocksOk(s') && t < |s.threads| == |s'.threads|
    requires forall u: nat :: u < |s.threads| && u != t ==> s'.threads[u] == s.threads[u]
    ensures HwPc(s') == if Held(s'.threads[t]).hw then s'.threads[t]
                        else if Held(s.threads[t]).hw then Idle else HwPc(s)
    ensures Held(s.threads[t]).hw ==> HwPc(s) == s.threads[t]
  {
    hide Held;
    var pc, pc' := s.threads[t], s'.threads[t];
    assert Holds(pc, HwL) <==> Held(pc).hw;
    assert Holds(pc', HwL) <==> Held(pc').hw;
    hide Holds;
    forall u: nat | u < |s.threads| && u != t ensures Holds(s.threads[u], HwL) <==> Holds(s'.threads[u], HwL) {}
    if HwL in s'.locks {
      var u := s'.locks[HwL];
      assert Holds(s'.threads[u], HwL);
      if u != t { assert s.threads[u] == s'.threads[u] && Holds(s.threads[u], HwL); }
    }
    if HwL in s.locks {
      var u := s.locks[HwL];
      assert Holds(s.threads[u], HwL);
      if u != t { assert Holds(s'.threads[u], HwL); }
    }
  }

  /** What a step does to the shared state. */
  lemma StepEffect(s: State, t: nat, c: Choice)
    requires Enabled(s, t, c)
    ensures var s' := Step(s, t, c); var pc := s.threads[t];
            && |s'.threads| == |s.threads|
            && (forall u: nat :: u < |s.threads| && u != t ==> s'.threads[u] == s.threads[u])
            && (pc == Idle || Wants(pc).Some? ==> s'.sh == s.sh)
            && (pc == Idle ==> !Held(s'.threads[t]).hw)
            && (pc != Idle && Wants(pc).Some? ==> s'.threads[t] == Locked(s.sh, pc))
            && (pc != Idle && Wants(pc).None? ==> s'.sh == Run(s.sh, pc, c).sh && s'.threads[t] == Run(s.sh, pc, c).pc)
  {
    hide Run;
  }

  /** Nobody asks for a lock under the hardware lock. */
  lemma TakingHw(sh: Shared, pc: PC)
    requires Wants(pc).Some?
    ensures !Held(pc).hw && (Held(Locked(sh, pc)).hw <==> Wants(pc) == Some(HwL))
  {}

  /** A step of a thread away from the hardware lock changes nothing, and does not take it. */
  lemma RunOutside(s: State, t: nat, c: Choice)
    requires StandbyInv(s) && LocksOk(s) && Enabled(s, t, c) && !Held(s.threads[t]).hw
    requires s.threads[t] != Idle && Wants(s.threads[t]).None?
    ensures var s' := Step(s, t, c); s'.sh == s.sh && !Held(s'.threads[t]).hw
  {
    OwnStep(s, t, c);
    RunReleases(s.sh, s.threads[t], c);
    hide Run;
    assert Holds(s.threads[t], HwL) <==> Held(s.threads[t]).hw;
    assert Holds(Step(s, t, c).threads[t], HwL) <==> Held(Step(s, t, c).threads[t]).hw;
  }

  lemma StaysFailed(s: State, t: nat, c: Choice)
    requires StandbyInv(s) && Enabled(s, t, c)
    ensures s.sh.callOpenFailed ==> Step(s, t, c).sh.callOpenFailed
  {
    hide Step;
    OwnStep(s, t, c);
  }

  lemma StepKeepsResources(s: State, t: nat, c: Choice)
    requires LocksOk(s) && StandbyInv(s) && ResourceInv(s) && Enabled(s, t, c)
    ensures ResourceInv(Step(s, t, c))
  {
    var pc, s' := s.threads[t], Step(s, t, c);
    StepKeepsLocks(s, t, c);
    StepEffect(s, t, c);
    HwMoves(s, s', t);
    assert !Held(Idle).hw;
    assert PcOk(s.sh, pc);
    assert Wants(pc) == Some(HwL) ==> HwPc(s) == Idle;
    StaysFailed(s, t, c);
    hide LocksOk, ResourcesOk, Run, Step, HwPc, Held, Locked, Wants, PcOk, StandbyInv;
    if s'.sh.callOpenFailed || pc == Idle {
    } else if Wants(pc).Some? {
      TakingHw(s.sh, pc);
      if Wants(pc) == Some(HwL) { TakeResources(s.sh, pc); }
    } else if Held(pc).hw {
      RunResources(s.sh, pc, c);
    } else {
      RunOutside(s, t, c);
    }
  }
}
