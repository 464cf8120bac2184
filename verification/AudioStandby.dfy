/** What each point of the audio protocol may rely on about the streams it names, and why the
  * lock discipline keeps it true while other threads run. This is the argument behind the
  * retry loops: a stream's standby flag is re-checked through its standby counter.
  */
module AudioStandby {
  import opened Options
  import opened AudioResources
  import opened AudioProtocol
  import opened AudioLocks

  ghost predicate OutActive(sh: Shared, spOut: Option<nat>) {
    spOut.Some? ==> spOut.value in sh.outs && !sh.outs[spOut.value].standby
  }

  ghost predicate InActive(sh: Shared, spIn: Option<nat>) {
    spIn.Some? ==> spIn.value in sh.ins && !sh.ins[spIn.value].standby
  }

  /** An unchanged standby counter means the stream never left the active state. */
  ghost predicate ActiveSince(sh: Shared, o: nat, cnt: nat) {
    && o in sh.outs
    && cnt <= sh.outs[o].standbyCnt
    && (cnt == sh.outs[o].standbyCnt ==> !sh.outs[o].standby)
  }

  predicate OutInStandby(sh: Shared, o: nat) { o in sh.outs && sh.outs[o].standby }
  predicate InInStandby(sh: Shared, i: nat) { i in sh.ins && sh.ins[i].standby }

  ghost predicate PcOk(sh: Shared, pc: PC) {
    match pc
    case SmOutLoop(_, spOut) => spOut == sh.output
    case SmOutLock(_, o, cnt) => ActiveSince(sh, o, cnt)
    case SmOutHw(_, o, cnt) => ActiveSince(sh, o, cnt)
    case SmOutCheck(_, o, cnt) => ActiveSince(sh, o, cnt)
    case SmInLoop(_, spOut, spIn) => OutActive(sh, spOut) && spIn == ActiveInput(sh)
    case SmInLock(_, spOut, _, _) => OutActive(sh, spOut)
    case SmInHw(_, spOut, _, _) => OutActive(sh, spOut)
    case SmInCheck(_, spOut, _, _) => OutActive(sh, spOut)
    case SmApply(phase, spOut, spIn) =>
      phase.Decide? || phase.EnterOut? ==> OutActive(sh, spOut) && spIn == ActiveInput(sh)
    case WrHw(o) => OutInStandby(sh, o)
    case WrWake(o) => OutInStandby(sh, o)
    case WrInLoop(o, spIn) => OutInStandby(sh, o) && spIn == ActiveInput(sh)
    case WrInLock(o, _, _) => OutInStandby(sh, o)
    case WrInHw(o, _, _) => OutInStandby(sh, o)
    case WrInCheck(o, _, _) => OutInStandby(sh, o)
    case WrOpenOut(o, spIn) => OutInStandby(sh, o) && InActive(sh, spIn) && spIn == ActiveInput(sh)
    case WrOpenIn(o, spIn) => OutInStandby(sh, o) && InActive(sh, spIn) && spIn == ActiveInput(sh)
    case WrFinish(o) => OutInStandby(sh, o)
    case WrPlay(o) => OutActive(sh, Some(o))
    case RdHw(i) => InInStandby(sh, i)
    case RdOutLoop(i, spOut) => InInStandby(sh, i) && spOut == sh.output
    case RdOutLock(i, _) => InInStandby(sh, i)
    case RdInLock(i, _) => InInStandby(sh, i)
    case RdHwLock(i, _) => InInStandby(sh, i)
    case RdCheck(i, _) => InInStandby(sh, i)
    case RdCycle(i, o) => InInStandby(sh, i) && sh.output == Some(o)
    case RdReopen(i, o) => InInStandby(sh, i) && OutActive(sh, Some(o)) && sh.output == Some(o)
    case RdOpen(i) => InInStandby(sh, i)
    case RdCapture(i) => InActive(sh, Some(i))
    case _ => true
  }

  /** What a step of a thread at `pc` can do: nothing without the hardware lock, and then change
    * at most one stream, whose own lock it holds, or what is registered; only the body of setMode
    * touches the mode. */
  ghost predicate Frame(sh: Shared, sh': Shared, pc: PC) {
    || sh' == sh
    || (Held(pc).hw && (sh.callOpenFailed ==> sh'.callOpenFailed) && (!pc.SmApply? ==> SameMode(sh, sh')) &&
        (|| (sh'.outs == sh.outs && sh'.ins == sh.ins && SameRegistry(sh, sh'))
         || (Held(pc).out.Some? && OnlyOut(sh, sh', Held(pc).out.value))
         || (Held(pc).inp.Some? && OnlyIn(sh, sh', Held(pc).inp.value, pc.RdOpen?))
         || (pc.HwBody? && OnlyRegistry(sh, sh'))))
  }

  predicate SameMode(sh: Shared, sh': Shared) {
    sh'.mode == sh.mode && sh'.inCallAudioMode == sh.inCallAudioMode
  }

  ghost predicate SameRegistry(sh: Shared, sh': Shared) {
    sh'.output == sh.output && sh'.inputs == sh.inputs
  }

  ghost predicate OnlyOut(sh: Shared, sh': Shared, o: nat) {
    && SameRegistry(sh, sh')
    && o in sh.outs && o in sh'.outs
    && sh'.outs == sh.outs[o := sh'.outs[o]] && sh'.ins == sh.ins
    && sh.outs[o].standbyCnt <= sh'.outs[o].standbyCnt
    && (sh.outs[o].standbyCnt == sh'.outs[o].standbyCnt && !sh.outs[o].standby ==> !sh'.outs[o].standby)
  }

  ghost predicate OnlyIn(sh: Shared, sh': Shared, i: nat, opening: bool) {
    && SameRegistry(sh, sh')
    && i in sh.ins && i in sh'.ins
    && sh'.ins == sh.ins[i := sh'.ins[i]] && sh'.outs == sh.outs
    && (sh.ins[i].standby && !sh'.ins[i].standby ==> opening)
    && sh.ins[i].standbyCnt <= sh'.ins[i].standbyCnt
    && (sh.ins[i].standbyCnt == sh'.ins[i].standbyCnt && !sh.ins[i].standby ==> !sh'.ins[i].standby)
  }

  /** Streams are registered or unregistered; a new one starts in standby. */
  ghost predicate OnlyRegistry(sh: Shared, sh': Shared) {
    && (Registered(sh) ==> Registered(sh'))
    && (forall o :: o in sh.outs ==> o in sh'.outs && sh'.outs[o] == sh.outs[o])
    && (forall i :: i in sh.ins ==> i in sh'.ins && sh'.ins[i] == sh.ins[i])
  }

  /** One step of code, seen from the thread that runs it: it touched nothing it had not locked,
    * and its own assertions hold where it arrives. */
  ghost predicate RanOk(sh: Shared, pc: PC, r: Ran) {
    Frame(sh, r.sh, pc) && PcOk(r.sh, r.pc)
  }

  /** A thread comes to name only streams it named before, or found registered just now. */
  ghost predicate RanNamed(sh: Shared, pc: PC, r: Ran) {
    && (OutOf(r.pc).Some? ==> OutOf(r.pc) == OutOf(pc) || OutOf(r.pc) == sh.output)
    && (InOf(r.pc).Some? ==> InOf(r.pc) == InOf(pc) || InOf(r.pc).value in sh.inputs)
    && (ReaderOf(r.pc).Some? ==> ReaderOf(r.pc) == ReaderOf(pc))
  }

  lemma WriteEntryOk(sh: Shared, pc: PC, c: Choice)
    requires Known(sh, pc) && PcOk(sh, pc) && Registered(sh)
    requires pc.WrTest? || pc.WrWake? || pc.WrInLoop? || pc.WrInCheck?
    ensures RanOk(sh, pc, RunWrite(sh, pc, c))
  {
    if pc.WrInCheck? { ClosingKeepsActive(sh, pc.i); }
  }

  /** Closing an input for the time of a write() leaves it the active one. */
  lemma ClosingKeepsActive(sh: Shared, i: nat)
    requires i in sh.ins
    ensures ActiveInput(CloseInOf(sh, i)) == ActiveInput(sh)
  {
    SameFirstActive(sh.inputs, sh.ins, CloseInOf(sh, i).ins);
  }

  lemma {:induction false} SameFirstActive(inputs: seq<nat>, ins: map<nat, InStream>, ins': map<nat, InStream>)
    requires ins'.Keys == ins.Keys && forall i :: i in ins ==> ins'[i].standby == ins[i].standby
    ensures FirstActive(inputs, ins') == FirstActive(inputs, ins)
  {
    if inputs != [] { SameFirstActive(inputs[1..], ins, ins'); }
  }

  lemma WriteOpenOk(sh: Shared, pc: PC, c: Choice)
    requires Known(sh, pc) && PcOk(sh, pc) && Registered(sh)
    requires pc.WrOpenOut? || pc.WrOpenIn?
    ensures RanOk(sh, pc, RunWrite(sh, pc, c))
  {}

  lemma WriteFinishOk(sh: Shared, pc: PC, c: Choice)
    requires Known(sh, pc) && PcOk(sh, pc) && Registered(sh)
    requires pc.WrFinish?
    ensures RanOk(sh, pc, RunWrite(sh, pc, c))
  {}

  lemma WritePlayOk(sh: Shared, pc: PC, c: Choice)
    requires Known(sh, pc) && PcOk(sh, pc) && Registered(sh)
    requires pc.WrPlay?
    ensures RanOk(sh, pc, RunWrite(sh, pc, c))
  {}

  lemma WriteOk(sh: Shared, pc: PC, c: Choice)
    requires Known(sh, pc) && PcOk(sh, pc) && Registered(sh) && IsWrite(pc)
    ensures RanOk(sh, pc, RunWrite(sh, pc, c))
  {
    if pc.WrTest? || pc.WrWake? || pc.WrInLoop? || pc.WrInCheck? {
      WriteEntryOk(sh, pc, c);
    } else if pc.WrOpenOut? || pc.WrOpenIn? {
      WriteOpenOk(sh, pc, c);
    } else if pc.WrFinish? {
      WriteFinishOk(sh, pc, c);
    } else {
      WritePlayOk(sh, pc, c);
    }
  }

  lemma OutControlOk(sh: Shared, pc: PC, c: Choice)
    requires Known(sh, pc) && PcOk(sh, pc) && Registered(sh)
    requires IsOutControl(pc)
    ensures RanOk(sh, pc, RunOutControl(sh, pc, c))
  {}

  lemma ReadEntryOk(sh: Shared, pc: PC, c: Choice)
    requires Known(sh, pc) && PcOk(sh, pc) && Registered(sh)
    requires pc.RdTest? || pc.RdOutLoop?
    ensures RanOk(sh, pc, RunRead(sh, pc, c))
  {}

  lemma ReadCheckOk(sh: Shared, pc: PC, c: Choice)
    requires Known(sh, pc) && PcOk(sh, pc) && Registered(sh)
    requires pc.RdCheck? || pc.RdCapture?
    ensures RanOk(sh, pc, RunRead(sh, pc, c))
  {}

  lemma ReadCycleOk(sh: Shared, pc: PC, c: Choice)
    requires Known(sh, pc) && PcOk(sh, pc) && Registered(sh)
    requires pc.RdCycle?
    ensures RanOk(sh, pc, RunRead(sh, pc, c))
  {}

  lemma ReadReopenOk(sh: Shared, pc: PC, c: Choice)
    requires Known(sh, pc) && PcOk(sh, pc) && Registered(sh)
    requires pc.RdReopen?
    ensures RanOk(sh, pc, RunRead(sh, pc, c))
  {
    var sh1 := OpenOutOf(sh, pc.o, c.pcmReady, c.mixerReady);
    assert OnlyOut(sh, sh1, pc.o);
    if sh1.outs[pc.o].pcm.None? {
      var sh2 := StandbyOutOf(sh1, pc.o);
      assert sh2.outs == sh.outs[pc.o := sh2.outs[pc.o]];
      assert OnlyOut(sh, sh2, pc.o);
    }
  }

  lemma ReadOpenOk(sh: Shared, pc: PC, c: Choice)
    requires Known(sh, pc) && PcOk(sh, pc) && Registered(sh)
    requires pc.RdOpen?
    ensures RanOk(sh, pc, RunRead(sh, pc, c))
  {}

  lemma ReadOk(sh: Shared, pc: PC, c: Choice)
    requires Known(sh, pc) && PcOk(sh, pc) && Registered(sh) && IsRead(pc)
    ensures RanOk(sh, pc, RunRead(sh, pc, c))
  {
    if pc.RdTest? || pc.RdOutLoop? {
      ReadEntryOk(sh, pc, c);
    } else if pc.RdCheck? || pc.RdCapture? {
      ReadCheckOk(sh, pc, c);
    } else if pc.RdCycle? {
      ReadCycleOk(sh, pc, c);
    } else if pc.RdReopen? {
      ReadReopenOk(sh, pc, c);
    } else {
      ReadOpenOk(sh, pc, c);
    }
  }

  lemma InControlOk(sh: Shared, pc: PC, c: Choice)
    requires Known(sh, pc) && PcOk(sh, pc) && Registered(sh)
    requires IsInControl(pc)
    ensures RanOk(sh, pc, RunInControl(sh, pc, c))
  {}

  lemma LoopOk(sh: Shared, pc: PC, c: Choice)
    requires Known(sh, pc) && PcOk(sh, pc) && Registered(sh)
    requires Wants(pc).None?
    requires pc.SmOutLoop? || pc.SmOutCheck? || pc.SmInLoop? || pc.SmInCheck?
    ensures RanOk(sh, pc, RunSetMode(sh, pc, c))
  {}

  lemma ApplyCallOk(sh: Shared, pc: PC, c: Choice)
    requires Known(sh, pc) && PcOk(sh, pc) && Registered(sh) && pc.SmApply?
    requires pc.phase.Decide? || pc.phase.EnterPcm? || pc.phase.EnterMixer? || pc.phase.Unlock?
    ensures RanOk(sh, pc, RunApply(sh, pc.phase, pc.spOut, pc.spIn, c))
  {}

  lemma ApplyLeaveOk(sh: Shared, pc: PC, c: Choice)
    requires Known(sh, pc) && PcOk(sh, pc) && Registered(sh) && pc.SmApply?
    requires pc.phase.LeaveMixer? || pc.phase.LeavePcm?
    ensures RanOk(sh, pc, RunApply(sh, pc.phase, pc.spOut, pc.spIn, c))
  {}

  lemma ApplyOutOk(sh: Shared, pc: PC, c: Choice)
    requires Known(sh, pc) && PcOk(sh, pc) && Registered(sh) && pc.SmApply?
    requires pc.phase.EnterOut? || pc.phase.LeaveOut?
    ensures RanOk(sh, pc, RunApply(sh, pc.phase, pc.spOut, pc.spIn, c))
  {}

  lemma ApplyInOk(sh: Shared, pc: PC, c: Choice)
    requires Known(sh, pc) && PcOk(sh, pc) && Registered(sh) && pc.SmApply?
    requires pc.phase.EnterIn? || pc.phase.LeaveIn?
    ensures RanOk(sh, pc, RunApply(sh, pc.phase, pc.spOut, pc.spIn, c))
  {}

  lemma SetModeOk(sh: Shared, pc: PC, c: Choice)
    requires Known(sh, pc) && PcOk(sh, pc) && Registered(sh) && Wants(pc).None?
    requires pc.SmOutLoop? || pc.SmOutCheck? || pc.SmInLoop? || pc.SmInCheck? || pc.SmApply?
    ensures RanOk(sh, pc, RunSetMode(sh, pc, c))
  {
    if !pc.SmApply? {
      LoopOk(sh, pc, c);
    } else if pc.phase.EnterOut? || pc.phase.LeaveOut? {
      ApplyOutOk(sh, pc, c);
    } else if pc.phase.EnterIn? || pc.phase.LeaveIn? {
      ApplyInOk(sh, pc, c);
    } else if pc.phase.LeaveMixer? || pc.phase.LeavePcm? {
      ApplyLeaveOk(sh, pc, c);
    } else {
      ApplyCallOk(sh, pc, c);
    }
  }

  lemma HwOk(sh: Shared, call: HwCall, c: Choice)
    requires Registered(sh)
    ensures RanOk(sh, HwBody(call), RunHw(sh, call, c))
  {
    hide PcOk, Frame;
    var r := RunHw(sh, call, c);
    PlainPc(r.sh, r.pc);
    HwFrame(sh, call, c);
  }

  /** These points assume nothing. */
  lemma PlainPc(sh: Shared, pc: PC)
    requires pc == Idle || IsDrop(pc) || pc.IsStart?
    ensures PcOk(sh, pc)
  {}

  lemma HwFrame(sh: Shared, call: HwCall, c: Choice)
    requires Registered(sh)
    ensures Frame(sh, RunHw(sh, call, c).sh, HwBody(call))
  {
    hide FirstActive;
  }

  lemma DropOk(sh: Shared, pc: PC, c: Choice)
    requires IsDrop(pc)
    ensures RanOk(sh, pc, RunDrop(sh, pc, c))
  {}

  lemma RunOk(sh: Shared, pc: PC, c: Choice)
    requires Known(sh, pc) && PcOk(sh, pc) && Registered(sh) && Wants(pc).None? && pc != Idle
    ensures RanOk(sh, pc, Run(sh, pc, c))
  {
    if pc.HwBody? {
      HwOk(sh, pc.call, c);
    } else if IsDrop(pc) {
      DropOk(sh, pc, c);
    } else if IsWrite(pc) {
      WriteOk(sh, pc, c);
    } else if IsOutControl(pc) {
      OutControlOk(sh, pc, c);
    } else if IsRead(pc) {
      ReadOk(sh, pc, c);
    } else if IsInControl(pc) {
      InControlOk(sh, pc, c);
    } else {
      SetModeOk(sh, pc, c);
    }
  }

  lemma WriteEntryNamed(sh: Shared, pc: PC, c: Choice)
    requires Known(sh, pc) && PcOk(sh, pc) && Registered(sh)
    requires pc.WrTest? || pc.WrWake? || pc.WrInLoop? || pc.WrInCheck?
    ensures RanNamed(sh, pc, RunWrite(sh, pc, c))
  {
    hide OutOpen, InOpen, InClose, InDoStandby;
  }

  lemma WriteOpenNamed(sh: Shared, pc: PC, c: Choice)
    requires Known(sh, pc) && PcOk(sh, pc) && Registered(sh)
    requires pc.WrOpenOut? || pc.WrOpenIn?
    ensures RanNamed(sh, pc, RunWrite(sh, pc, c))
  {
    hide OutOpen, InOpen, InClose, InDoStandby;
  }

  lemma WriteFinishNamed(sh: Shared, pc: PC, c: Choice)
    requires Known(sh, pc) && PcOk(sh, pc) && Registered(sh)
    requires pc.WrFinish? || pc.WrPlay?
    ensures RanNamed(sh, pc, RunWrite(sh, pc, c))
  {
    hide OutOpen, InOpen, InClose, InDoStandby;
  }

  lemma WriteNamed(sh: Shared, pc: PC, c: Choice)
    requires Known(sh, pc) && PcOk(sh, pc) && Registered(sh) && IsWrite(pc)
    ensures RanNamed(sh, pc, RunWrite(sh, pc, c))
  {
    if pc.WrTest? || pc.WrWake? || pc.WrInLoop? || pc.WrInCheck? {
      WriteEntryNamed(sh, pc, c);
    } else if pc.WrOpenOut? || pc.WrOpenIn? {
      WriteOpenNamed(sh, pc, c);
    } else {
      WriteFinishNamed(sh, pc, c);
    }
  }

  lemma OutControlNamed(sh: Shared, pc: PC, c: Choice)
    requires Known(sh, pc) && PcOk(sh, pc) && Registered(sh)
    requires IsOutControl(pc)
    ensures RanNamed(sh, pc, RunOutControl(sh, pc, c))
  {}

  lemma ReadEntryNamed(sh: Shared, pc: PC, c: Choice)
    requires Known(sh, pc) && PcOk(sh, pc) && Registered(sh)
    requires pc.RdTest? || pc.RdOutLoop?
    ensures RanNamed(sh, pc, RunRead(sh, pc, c))
  {}

  lemma ReadCheckNamed(sh: Shared, pc: PC, c: Choice)
    requires Known(sh, pc) && PcOk(sh, pc) && Registered(sh)
    requires pc.RdCheck? || pc.RdCapture?
    ensures RanNamed(sh, pc, RunRead(sh, pc, c))
  {}

  lemma ReadCycleNamed(sh: Shared, pc: PC, c: Choice)
    requires Known(sh, pc) && PcOk(sh, pc) && Registered(sh)
    requires pc.RdCycle?
    ensures RanNamed(sh, pc, RunRead(sh, pc, c))
  {}

  lemma ReadReopenNamed(sh: Shared, pc: PC, c: Choice)
    requires Known(sh, pc) && PcOk(sh, pc) && Registered(sh)
    requires pc.RdReopen?
    ensures RanNamed(sh, pc, RunRead(sh, pc, c))
  {
    hide OutOpen, OutDoStandby;
  }

  lemma ReadOpenNamed(sh: Shared, pc: PC, c: Choice)
    requires Known(sh, pc) && PcOk(sh, pc) && Registered(sh)
    requires pc.RdOpen?
    ensures RanNamed(sh, pc, RunRead(sh, pc, c))
  {}

  lemma ReadNamed(sh: Shared, pc: PC, c: Choice)
    requires Known(sh, pc) && PcOk(sh, pc) && Registered(sh) && IsRead(pc)
    ensures RanNamed(sh, pc, RunRead(sh, pc, c))
  {
    if pc.RdTest? || pc.RdOutLoop? {
      ReadEntryNamed(sh, pc, c);
    } else if pc.RdCheck? || pc.RdCapture? {
      ReadCheckNamed(sh, pc, c);
    } else if pc.RdCycle? {
      ReadCycleNamed(sh, pc, c);
    } else if pc.RdReopen? {
      ReadReopenNamed(sh, pc, c);
    } else {
      ReadOpenNamed(sh, pc, c);
    }
  }

  lemma InSourceNamed(sh: Shared, pc: PC, c: Choice)
    requires Known(sh, pc) && PcOk(sh, pc) && Registered(sh)
    requires pc.IsBody? || pc.IpSource? || pc.IpSourceBody?
    ensures RanNamed(sh, pc, RunInControl(sh, pc, c))
  {
    hide StandbyInOf, OpenMixer, CloseMixer;
  }

  lemma InRouteNamed(sh: Shared, pc: PC, c: Choice)
    requires Known(sh, pc) && PcOk(sh, pc) && Registered(sh)
    requires pc.IpRoute? || pc.IpRouteBody?
    ensures RanNamed(sh, pc, RunInControl(sh, pc, c))
  {
    hide StandbyInOf, OpenMixer, CloseMixer;
  }

  lemma InControlNamed(sh: Shared, pc: PC, c: Choice)
    requires Known(sh, pc) && PcOk(sh, pc) && Registered(sh) && IsInControl(pc)
    ensures RanNamed(sh, pc, RunInControl(sh, pc, c))
  {
    if pc.IsBody? || pc.IpSource? || pc.IpSourceBody? {
      InSourceNamed(sh, pc, c);
    } else {
      InRouteNamed(sh, pc, c);
    }
  }

  lemma LoopNamed(sh: Shared, pc: PC, c: Choice)
    requires Known(sh, pc) && PcOk(sh, pc) && Registered(sh)
    requires Wants(pc).None?
    requires pc.SmOutLoop? || pc.SmOutCheck? || pc.SmInLoop? || pc.SmInCheck?
    ensures RanNamed(sh, pc, RunSetMode(sh, pc, c))
  {}

  lemma ApplyCallNamed(sh: Shared, pc: PC, c: Choice)
    requires Known(sh, pc) && PcOk(sh, pc) && Registered(sh) && pc.SmApply?
    requires pc.phase.Decide? || pc.phase.EnterPcm? || pc.phase.EnterMixer? || pc.phase.Unlock?
    ensures RanNamed(sh, pc, RunApply(sh, pc.phase, pc.spOut, pc.spIn, c))
  {}

  lemma ApplyLeaveNamed(sh: Shared, pc: PC, c: Choice)
    requires Known(sh, pc) && PcOk(sh, pc) && Registered(sh) && pc.SmApply?
    requires pc.phase.LeaveMixer? || pc.phase.LeavePcm?
    ensures RanNamed(sh, pc, RunApply(sh, pc.phase, pc.spOut, pc.spIn, c))
  {}

  lemma ApplyOutNamed(sh: Shared, pc: PC, c: Choice)
    requires Known(sh, pc) && PcOk(sh, pc) && Registered(sh) && pc.SmApply?
    requires pc.phase.EnterOut? || pc.phase.LeaveOut?
    ensures RanNamed(sh, pc, RunApply(sh, pc.phase, pc.spOut, pc.spIn, c))
  {}

  lemma ApplyInNamed(sh: Shared, pc: PC, c: Choice)
    requires Known(sh, pc) && PcOk(sh, pc) && Registered(sh) && pc.SmApply?
    requires pc.phase.EnterIn? || pc.phase.LeaveIn?
    ensures RanNamed(sh, pc, RunApply(sh, pc.phase, pc.spOut, pc.spIn, c))
  {}

  lemma SetModeNamed(sh: Shared, pc: PC, c: Choice)
    requires Known(sh, pc) && PcOk(sh, pc) && Registered(sh) && Wants(pc).None?
    requires pc.SmOutLoop? || pc.SmOutCheck? || pc.SmInLoop? || pc.SmInCheck? || pc.SmApply?
    ensures RanNamed(sh, pc, RunSetMode(sh, pc, c))
  {
    if !pc.SmApply? {
      LoopNamed(sh, pc, c);
    } else if pc.phase.EnterOut? || pc.phase.LeaveOut? {
      ApplyOutNamed(sh, pc, c);
    } else if pc.phase.EnterIn? || pc.phase.LeaveIn? {
      ApplyInNamed(sh, pc, c);
    } else if pc.phase.LeaveMixer? || pc.phase.LeavePcm? {
      ApplyLeaveNamed(sh, pc, c);
    } else {
      ApplyCallNamed(sh, pc, c);
    }
  }

  lemma HwNamed(sh: Shared, call: HwCall, c: Choice)
    requires Registered(sh)
    ensures RanNamed(sh, HwBody(call), RunHw(sh, call, c))
  {
    hide FirstActive, Without;
  }

  lemma DropNamed(sh: Shared, pc: PC, c: Choice)
    requires IsDrop(pc)
    ensures RanNamed(sh, pc, RunDrop(sh, pc, c))
  {}

  lemma RunNamed(sh: Shared, pc: PC, c: Choice)
    requires Known(sh, pc) && PcOk(sh, pc) && Registered(sh) && Wants(pc).None? && pc != Idle
    ensures RanNamed(sh, pc, Run(sh, pc, c))
  {
    if pc.HwBody? {
      HwNamed(sh, pc.call, c);
    } else if IsDrop(pc) {
      DropNamed(sh, pc, c);
    } else if IsWrite(pc) {
      WriteNamed(sh, pc, c);
    } else if IsOutControl(pc) {
      OutControlNamed(sh, pc, c);
    } else if IsRead(pc) {
      ReadNamed(sh, pc, c);
    } else if IsInControl(pc) {
      InControlNamed(sh, pc, c);
    } else {
      SetModeNamed(sh, pc, c);
    }
  }

  lemma FrameKnown(sh: Shared, sh': Shared, pc: PC, r: Ran)
    requires Known(sh, pc) && Registered(sh) && Frame(sh, sh', pc) && RanNamed(sh, pc, r)
    ensures Known(sh', r.pc) && Registered(sh')
  {}

  lemma TakeOk(sh: Shared, pc: PC)
    requires Known(sh, pc) && PcOk(sh, pc) && Registered(sh) && Wants(pc).Some?
    ensures PcOk(sh, Locked(sh, pc)) && Known(sh, Locked(sh, pc))
    ensures ReaderOf(Locked(sh, pc)) == ReaderOf(pc)
  {
    hide PcOk, Known, ReaderOf, Locked;
    TakeNames(sh, pc);
    TakeReads(sh, pc);
    TakePcOk(sh, pc);
  }

  lemma TakePcOk(sh: Shared, pc: PC)
    requires Known(sh, pc) && PcOk(sh, pc) && Wants(pc).Some?
    ensures PcOk(sh, Locked(sh, pc))
  {
    hide FirstActive, Known;
  }

  lemma TakeNames(sh: Shared, pc: PC)
    requires Known(sh, pc) && Registered(sh) && Wants(pc).Some?
    ensures Known(sh, Locked(sh, pc))
  {
    hide OutOf, InOf, Locked;
    TakeNamesOut(sh, pc);
    TakeNamesIn(sh, pc);
  }

  lemma TakeNamesOut(sh: Shared, pc: PC)
    requires Wants(pc).Some?
    ensures OutOf(Locked(sh, pc)) == OutOf(pc) || OutOf(Locked(sh, pc)) == sh.output
  {
    if IsReading(pc) { ReaderNamesOut(sh, pc); } else { OtherNamesOut(sh, pc); }
    hide Locked, OutOf, IsReading;
  }

  lemma ReaderNamesOut(sh: Shared, pc: PC)
    requires Wants(pc).Some? && IsReading(pc)
    ensures OutOf(Locked(sh, pc)) == OutOf(pc) || OutOf(Locked(sh, pc)) == sh.output
  {}

  lemma OtherNamesOut(sh: Shared, pc: PC)
    requires Wants(pc).Some? && !IsReading(pc)
    ensures OutOf(Locked(sh, pc)) == OutOf(pc) || OutOf(Locked(sh, pc)) == sh.output
  {}

  lemma TakeNamesIn(sh: Shared, pc: PC)
    requires Wants(pc).Some?
    ensures InOf(Locked(sh, pc)) == InOf(pc)
  {}

  lemma TakeReads(sh: Shared, pc: PC)
    requires Wants(pc).Some?
    ensures ReaderOf(Locked(sh, pc)) == ReaderOf(pc)
  {
    hide InOf, Locked;
    TakeNamesIn(sh, pc);
    TakeStaysReading(sh, pc);
  }

  lemma TakeStaysReading(sh: Shared, pc: PC)
    requires Wants(pc).Some?
    ensures IsReading(Locked(sh, pc)) <==> IsReading(pc)
  {}

  /** What another thread relies on survives: it holds the lock, or counts, or is the reader. */
  lemma OthersOk(sh: Shared, sh': Shared, pc: PC, other: PC)
    requires Frame(sh, sh', pc) && Known(sh, other) && PcOk(sh, other)
    requires Held(pc).DisjointFrom(Held(other))
    requires ReaderOf(pc).Some? ==> ReaderOf(pc) != ReaderOf(other)
    ensures Known(sh', other) && PcOk(sh', other)
  {
    if sh' != sh {
      if Held(pc).out.Some? && OnlyOut(sh, sh', Held(pc).out.value) {
        OtherThanOut(sh, sh', Held(pc).out.value, other);
      } else if Held(pc).inp.Some? && OnlyIn(sh, sh', Held(pc).inp.value, pc.RdOpen?) {
        if pc.RdOpen? { assert ReaderOf(pc) == Some(Held(pc).inp.value); }
        OtherThanIn(sh, sh', Held(pc).inp.value, pc.RdOpen?, other);
      } else {
        OtherThanRegistry(sh, sh', other);
      }
    }
    hide PcOk, Known, OnlyOut, OnlyIn, Held, ReaderOf;
  }

  lemma OtherThanOut(sh: Shared, sh': Shared, o: nat, other: PC)
    requires OnlyOut(sh, sh', o) && Known(sh, other) && PcOk(sh, other)
    requires !Held(other).hw && Held(other).out != Some(o)
    ensures Known(sh', other) && PcOk(sh', other)
  {}

  lemma OtherThanIn(sh: Shared, sh': Shared, i: nat, opening: bool, other: PC)
    requires OnlyIn(sh, sh', i, opening) && Known(sh, other) && PcOk(sh, other)
    requires !Held(other).hw && Held(other).inp != Some(i) && (opening ==> ReaderOf(other) != Some(i))
    ensures Known(sh', other) && PcOk(sh', other)
  {}

  lemma OtherThanRegistry(sh: Shared, sh': Shared, other: PC)
    requires Known(sh, other) && PcOk(sh, other) && !Held(other).hw
    requires forall o :: o in sh.outs ==> o in sh'.outs && sh'.outs[o] == sh.outs[o]
    requires forall i :: i in sh.ins ==> i in sh'.ins && sh'.ins[i] == sh.ins[i]
    ensures Known(sh', other) && PcOk(sh', other)
  {}

  /** Every thread's assertions hold, and no input stream has two readers. */
  ghost predicate StandbyInv(s: State) {
    && Registered(s.sh)
    && (forall t: nat :: t < |s.threads| ==> Known(s.sh, s.threads[t]) && PcOk(s.sh, s.threads[t]))
    && (forall t: nat, u: nat :: t < |s.threads| && u < |s.threads| && t != u && ReaderOf(s.threads[t]).Some? ==>
          ReaderOf(s.threads[t]) != ReaderOf(s.threads[u]))
  }

  /** The shared state and the program counter after one step of thread `t`. */
  lemma OwnStep(s: State, t: nat, c: Choice)
    requires StandbyInv(s) && Enabled(s, t, c)
    ensures var s' := Step(s, t, c);
            && Registered(s'.sh)
            && Frame(s.sh, s'.sh, s.threads[t])
            && Known(s'.sh, s'.threads[t]) && PcOk(s'.sh, s'.threads[t])
            && (s.threads[t] != Idle && ReaderOf(s'.threads[t]).Some? ==>
                  ReaderOf(s'.threads[t]) == ReaderOf(s.threads[t]))
  {
    var pc := s.threads[t];
    if pc == Idle {
      assert PcOk(s.sh, c.start);
    } else if Wants(pc).Some? {
      TakeOk(s.sh, pc);
    } else {
      var r := Run(s.sh, pc, c);
      RunOk(s.sh, pc, c);
      RunNamed(s.sh, pc, c);
      FrameKnown(s.sh, r.sh, pc, r);
    }
  }

  lemma StepKeepsStandby(s: State, t: nat, c: Choice)
    requires LocksOk(s) && StandbyInv(s) && Enabled(s, t, c)
    ensures StandbyInv(Step(s, t, c))
  {
    var s' := Step(s, t, c);
    OwnStep(s, t, c);
    forall u: nat | u < |s'.threads| ensures Known(s'.sh, s'.threads[u]) && PcOk(s'.sh, s'.threads[u]) {
      if u != t {
        MutualExclusion(s, t, u);
        OthersOk(s.sh, s'.sh, s.threads[t], s.threads[u]);
      }
    }
  }
}
