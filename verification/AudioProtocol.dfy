/** The audio HAL's locking protocol as a step system. Threads call into one hardware object,
  * its output streams and its input streams, each with a mutex. A step either takes one lock
  * or runs the code up to the next lock operation of that thread; each `_l` call made under the
  * hardware lock is a step of its own. Driver results are nondeterministic choices.
  */
module AudioProtocol {
  import opened Options
  import opened AudioResources

  datatype Lock = OutL(o: nat) | InL(i: nat) | HwL

  /** Calls made under the hardware lock alone. */
  datatype HwCall = SetMicMute | OpenOutput | CloseOutput(o: nat) | OpenInput | CloseInput(i: nat)

  /** The part of setMode that runs with every lock it needs. */
  datatype Phase =
    | Decide(mode: Mode)
    | EnterOut | EnterIn | EnterPcm | EnterMixer
    | LeaveMixer | LeavePcm | LeaveOut | LeaveIn
    | Unlock

  /** Where a thread is, with the locals that matter. The comment says which locks are held. */
  datatype PC =
    | Idle
    // setMode
    | SmStart(mode: Mode)                                          // -
    | SmOutLoop(mode: Mode, spOut: Option<nat>)                    // hw
    | SmOutLock(mode: Mode, o: nat, cnt: nat)                      // -
    | SmOutHw(mode: Mode, o: nat, cnt: nat)                        // out
    | SmOutCheck(mode: Mode, o: nat, cnt: nat)                     // out, hw
    | SmInLoop(mode: Mode, spOut: Option<nat>, spIn: Option<nat>)  // spOut, hw
    | SmInLock(mode: Mode, spOut: Option<nat>, i: nat, cnt: nat)   // spOut
    | SmInHw(mode: Mode, spOut: Option<nat>, i: nat, cnt: nat)     // spOut, in
    | SmInCheck(mode: Mode, spOut: Option<nat>, i: nat, cnt: nat)  // spOut, in, hw
    | SmApply(phase: Phase, spOut: Option<nat>, spIn: Option<nat>) // spOut, spIn, hw
    // AudioStreamOutALSA::write
    | WrStart(o: nat)                                              // -
    | WrTest(o: nat)                                               // out
    | WrHw(o: nat)                                                 // out
    | WrWake(o: nat)                                               // out, hw
    | WrInLoop(o: nat, spIn: Option<nat>)                          // out, hw
    | WrInLock(o: nat, i: nat, cnt: nat)                           // out
    | WrInHw(o: nat, i: nat, cnt: nat)                             // out, in
    | WrInCheck(o: nat, i: nat, cnt: nat)                          // out, in, hw
    | WrOpenOut(o: nat, spIn: Option<nat>)                         // out, spIn, hw
    | WrOpenIn(o: nat, spIn: Option<nat>)                          // out, spIn, hw
    | WrFinish(o: nat)                                             // out, hw
    | WrPlay(o: nat)                                               // out
    // AudioStreamOutALSA::standby and setParameters
    | OsStart(o: nat)                                              // -
    | OsHw(o: nat)                                                 // out
    | OsBody(o: nat)                                               // out, hw
    | OpStart(o: nat)                                              // -
    | OpTest(o: nat)                                               // out
    | OpHw(o: nat)                                                 // out
    | OpBody(o: nat)                                               // out, hw
    // AudioStreamInALSA::read
    | RdStart(i: nat)                                              // -
    | RdTest(i: nat)                                               // in
    | RdHw(i: nat)                                                 // in
    | RdOutLoop(i: nat, spOut: Option<nat>)                        // in, hw
    | RdOutLock(i: nat, o: nat)                                    // -
    | RdInLock(i: nat, o: nat)                                     // out
    | RdHwLock(i: nat, o: nat)                                     // out, in
    | RdCheck(i: nat, o: nat)                                      // out, in, hw
    | RdCycle(i: nat, o: nat)                                      // out, in, hw
    | RdReopen(i: nat, o: nat)                                     // out, in, hw
    | RdOpen(i: nat)                                               // in, hw
    | RdCapture(i: nat)                                            // in
    // AudioStreamInALSA::standby and setParameters
    | IsStart(i: nat)                                              // -
    | IsHw(i: nat)                                                 // in
    | IsBody(i: nat)                                               // in, hw
    | IpStart(i: nat)                                              // -
    | IpSource(i: nat)                                             // in
    | IpSourceHw(i: nat)                                           // in
    | IpSourceBody(i: nat)                                         // in, hw
    | IpRoute(i: nat)                                              // in
    | IpRouteHw(i: nat)                                            // in
    | IpRouteBody(i: nat)                                          // in, hw
    // calls that only take the hardware lock
    | HwStart(call: HwCall)                                        // -
    | HwBody(call: HwCall)                                         // hw
    // closeOutputStream and closeInputStream, about to drop their own reference
    | HwDropOut(o: nat)                                            // -
    | HwDropIn(i: nat)                                             // -

  /** The locks a thread holds: never more than one of each kind. */
  datatype Locks = Locks(out: Option<nat>, inp: Option<nat>, hw: bool) {
    predicate Has(l: Lock) {
      match l
      case OutL(o) => out == Some(o)
      case InL(i) => inp == Some(i)
      case HwL => hw
    }

    function Minus(r: Locks): Locks {
      Locks(if r.out.Some? then None else out, if r.inp.Some? then None else inp, hw && !r.hw)
    }

    predicate DisjointFrom(r: Locks) {
      !(hw && r.hw) && (out.Some? ==> out != r.out) && (inp.Some? ==> inp != r.inp)
    }

    predicate Includes(r: Locks) {
      (r.out.Some? ==> r.out == out) && (r.inp.Some? ==> r.inp == inp) && (r.hw ==> hw)
    }
  }

  const NO_LOCKS := Locks(None, None, false)
  const HW_LOCK := Locks(None, None, true)

  function Held(pc: PC): Locks {
    match pc
    case SmOutLoop(_, _) => Locks(None, None, true)
    case SmOutHw(_, o, _) => Locks(Some(o), None, false)
    case SmOutCheck(_, o, _) => Locks(Some(o), None, true)
    case SmInLoop(_, spOut, _) => Locks(spOut, None, true)
    case SmInLock(_, spOut, _, _) => Locks(spOut, None, false)
    case SmInHw(_, spOut, i, _) => Locks(spOut, Some(i), false)
    case SmInCheck(_, spOut, i, _) => Locks(spOut, Some(i), true)
    case SmApply(_, spOut, spIn) => Locks(spOut, spIn, true)
    case WrTest(o) => Locks(Some(o), None, false)
    case WrHw(o) => Locks(Some(o), None, false)
    case WrWake(o) => Locks(Some(o), None, true)
    case WrInLoop(o, _) => Locks(Some(o), None, true)
    case WrInLock(o, _, _) => Locks(Some(o), None, false)
    case WrInHw(o, i, _) => Locks(Some(o), Some(i), false)
    case WrInCheck(o, i, _) => Locks(Some(o), Some(i), true)
    case WrOpenOut(o, spIn) => Locks(Some(o), spIn, true)
    case WrOpenIn(o, spIn) => Locks(Some(o), spIn, true)
    case WrFinish(o) => Locks(Some(o), None, true)
    case WrPlay(o) => Locks(Some(o), None, false)
    case OsHw(o) => Locks(Some(o), None, false)
    case OsBody(o) => Locks(Some(o), None, true)
    case OpTest(o) => Locks(Some(o), None, false)
    case OpHw(o) => Locks(Some(o), None, false)
    case OpBody(o) => Locks(Some(o), None, true)
    case RdTest(i) => Locks(None, Some(i), false)
    case RdHw(i) => Locks(None, Some(i), false)
    case RdOutLoop(i, _) => Locks(None, Some(i), true)
    case RdInLock(_, o) => Locks(Some(o), None, false)
    case RdHwLock(i, o) => Locks(Some(o), Some(i), false)
    case RdCheck(i, o) => Locks(Some(o), Some(i), true)
    case RdCycle(i, o) => Locks(Some(o), Some(i), true)
    case RdReopen(i, o) => Locks(Some(o), Some(i), true)
    case RdOpen(i) => Locks(None, Some(i), true)
    case RdCapture(i) => Locks(None, Some(i), false)
    case IsHw(i) => Locks(None, Some(i), false)
    case IsBody(i) => Locks(None, Some(i), true)
    case IpSource(i) => Locks(None, Some(i), false)
    case IpSourceHw(i) => Locks(None, Some(i), false)
    case IpSourceBody(i) => Locks(None, Some(i), true)
    case IpRoute(i) => Locks(None, Some(i), false)
    case IpRouteHw(i) => Locks(None, Some(i), false)
    case IpRouteBody(i) => Locks(None, Some(i), true)
    case HwBody(_) => Locks(None, None, true)
    case _ => NO_LOCKS
  }

  predicate Holds(pc: PC, l: Lock) { Held(pc).Has(l) }

  /** The lock a thread is about to take, if its next step is to take one. */
  function Wants(pc: PC): Option<Lock> {
    match pc
    case SmStart(_) => Some(HwL)
    case SmOutLock(_, o, _) => Some(OutL(o))
    case SmOutHw(_, _, _) => Some(HwL)
    case SmInLock(_, _, i, _) => Some(InL(i))
    case SmInHw(_, _, _, _) => Some(HwL)
    case WrStart(o) => Some(OutL(o))
    case WrHw(_) => Some(HwL)
    case WrInLock(_, i, _) => Some(InL(i))
    case WrInHw(_, _, _) => Some(HwL)
    case OsStart(o) => Some(OutL(o))
    case OsHw(_) => Some(HwL)
    case OpStart(o) => Some(OutL(o))
    case OpHw(_) => Some(HwL)
    case RdStart(i) => Some(InL(i))
    case RdHw(_) => Some(HwL)
    case RdOutLock(_, o) => Some(OutL(o))
    case RdInLock(i, _) => Some(InL(i))
    case RdHwLock(_, _) => Some(HwL)
    case IsStart(i) => Some(InL(i))
    case IsHw(_) => Some(HwL)
    case IpStart(i) => Some(InL(i))
    case IpSourceHw(_) => Some(HwL)
    case IpRouteHw(_) => Some(HwL)
    case HwStart(_) => Some(HwL)
    case _ => None
  }

  /** The streams a program counter names. */
  function OutOf(pc: PC): Option<nat> {
    match pc
    case SmOutLoop(_, spOut) => spOut
    case SmOutLock(_, o, _) => Some(o)
    case SmOutHw(_, o, _) => Some(o)
    case SmOutCheck(_, o, _) => Some(o)
    case SmInLoop(_, spOut, _) => spOut
    case SmInLock(_, spOut, _, _) => spOut
    case SmInHw(_, spOut, _, _) => spOut
    case SmInCheck(_, spOut, _, _) => spOut
    case SmApply(_, spOut, _) => spOut
    case WrStart(o) => Some(o)
    case WrTest(o) => Some(o)
    case WrHw(o) => Some(o)
    case WrWake(o) => Some(o)
    case WrInLoop(o, _) => Some(o)
    case WrInLock(o, _, _) => Some(o)
    case WrInHw(o, _, _) => Some(o)
    case WrInCheck(o, _, _) => Some(o)
    case WrOpenOut(o, _) => Some(o)
    case WrOpenIn(o, _) => Some(o)
    case WrFinish(o) => Some(o)
    case WrPlay(o) => Some(o)
    case OsStart(o) => Some(o)
    case OsHw(o) => Some(o)
    case OsBody(o) => Some(o)
    case OpStart(o) => Some(o)
    case OpTest(o) => Some(o)
    case OpHw(o) => Some(o)
    case OpBody(o) => Some(o)
    case RdOutLoop(_, spOut) => spOut
    case RdOutLock(_, o) => Some(o)
    case RdInLock(_, o) => Some(o)
    case RdHwLock(_, o) => Some(o)
    case RdCheck(_, o) => Some(o)
    case RdCycle(_, o) => Some(o)
    case RdReopen(_, o) => Some(o)
    case HwDropOut(o) => Some(o)
    case _ => None
  }

  function InOf(pc: PC): Option<nat> {
    match pc
    case SmInLoop(_, _, spIn) => spIn
    case SmInLock(_, _, i, _) => Some(i)
    case SmInHw(_, _, i, _) => Some(i)
    case SmInCheck(_, _, i, _) => Some(i)
    case SmApply(_, _, spIn) => spIn
    case WrInLoop(_, spIn) => spIn
    case WrInLock(_, i, _) => Some(i)
    case WrInHw(_, i, _) => Some(i)
    case WrInCheck(_, i, _) => Some(i)
    case WrOpenOut(_, spIn) => spIn
    case WrOpenIn(_, spIn) => spIn
    case IsStart(i) => Some(i)
    case IsHw(i) => Some(i)
    case IsBody(i) => Some(i)
    case IpStart(i) => Some(i)
    case IpSource(i) => Some(i)
    case IpSourceHw(i) => Some(i)
    case IpSourceBody(i) => Some(i)
    case IpRoute(i) => Some(i)
    case IpRouteHw(i) => Some(i)
    case IpRouteBody(i) => Some(i)
    case RdStart(i) => Some(i)
    case RdTest(i) => Some(i)
    case RdHw(i) => Some(i)
    case RdOutLoop(i, _) => Some(i)
    case RdOutLock(i, _) => Some(i)
    case RdInLock(i, _) => Some(i)
    case RdHwLock(i, _) => Some(i)
    case RdCheck(i, _) => Some(i)
    case RdCycle(i, _) => Some(i)
    case RdReopen(i, _) => Some(i)
    case RdOpen(i) => Some(i)
    case RdCapture(i) => Some(i)
    case HwDropIn(i) => Some(i)
    case _ => None
  }

  predicate IsReading(pc: PC) {
    || pc.RdStart? || pc.RdTest? || pc.RdHw? || pc.RdOutLoop? || pc.RdOutLock? || pc.RdInLock?
    || pc.RdHwLock? || pc.RdCheck? || pc.RdCycle? || pc.RdReopen? || pc.RdOpen? || pc.RdCapture?
  }

  /** The input stream whose read() the thread is in. */
  function ReaderOf(pc: PC): Option<nat> {
    if IsReading(pc) then InOf(pc) else None
  }

  predicate Known(sh: Shared, pc: PC) {
    && (OutOf(pc).Some? ==> OutOf(pc).value in sh.outs)
    && (InOf(pc).Some? ==> InOf(pc).value in sh.ins)
  }

  /** Only existing streams are registered. */
  ghost predicate Registered(sh: Shared) {
    && (sh.output.Some? ==> sh.output.value in sh.outs)
    && (forall i :: i in sh.inputs ==> i in sh.ins)
  }

  /** getActiveInput_l: the first registered input that is not in standby. */
  function ActiveInput(sh: Shared): Option<nat> { FirstActive(sh.inputs, sh.ins) }

  function FirstActive(inputs: seq<nat>, ins: map<nat, InStream>): (r: Option<nat>)
    ensures r.Some? ==> r.value in inputs && r.value in ins && !ins[r.value].standby
    ensures r.None? ==> forall i :: i in inputs && i in ins ==> ins[i].standby
  {
    if inputs == [] then None
    else if inputs[0] in ins && !ins[inputs[0]].standby then Some(inputs[0])
    else FirstActive(inputs[1..], ins)
  }

  function Without(s: seq<nat>, x: nat): (r: seq<nat>)
    ensures forall y :: y in r ==> y in s
  {
    if s == [] then [] else (if s[0] == x then [] else [s[0]]) + Without(s[1..], x)
  }

  /** What the environment decides: the result of the driver, of a comparison with a request
    * parameter or of a base-class call (`flag`), and the address of a new stream (`id`, `pos`). */
  datatype Choice = Choice(start: PC, flag: bool, pcmReady: bool, mixerReady: bool, id: nat, pos: nat)

  predicate IsCall(pc: PC) {
    pc.SmStart? || pc.WrStart? || pc.OsStart? || pc.OpStart? || pc.RdStart? || pc.IsStart? || pc.IpStart? || pc.HwStart?
  }

  /** The program counter after taking the wanted lock. Locals read right after are set here. */
  function Locked(sh: Shared, pc: PC): PC
    requires Wants(pc).Some?
  {
    match pc
    case SmStart(m) => SmOutLoop(m, sh.output)
    case SmOutLock(m, o, cnt) => SmOutHw(m, o, cnt)
    case SmOutHw(m, o, cnt) => SmOutCheck(m, o, cnt)
    case SmInLock(m, spOut, i, cnt) => SmInHw(m, spOut, i, cnt)
    case SmInHw(m, spOut, i, cnt) => SmInCheck(m, spOut, i, cnt)
    case WrStart(o) => WrTest(o)
    case WrHw(o) => WrWake(o)
    case WrInLock(o, i, cnt) => WrInHw(o, i, cnt)
    case WrInHw(o, i, cnt) => WrInCheck(o, i, cnt)
    case OsStart(o) => OsHw(o)
    case OsHw(o) => OsBody(o)
    case OpStart(o) => OpTest(o)
    case OpHw(o) => OpBody(o)
    case RdStart(i) => RdTest(i)
    case RdHw(i) => RdOutLoop(i, sh.output)
    case RdOutLock(i, o) => RdInLock(i, o)
    case RdInLock(i, o) => RdHwLock(i, o)
    case RdHwLock(i, o) => RdCheck(i, o)
    case IsStart(i) => IsHw(i)
    case IsHw(i) => IsBody(i)
    case IpStart(i) => IpSource(i)
    case IpSourceHw(i) => IpSourceBody(i)
    case IpRouteHw(i) => IpRouteBody(i)
    case HwStart(call) => HwBody(call)
  }

  /** The result of running a thread up to its next lock operation: the shared state, where the
    * thread is now, and the locks it released on the way. */
  datatype Ran = Ran(sh: Shared, pc: PC, released: Locks)

  function RunSetMode(sh: Shared, pc: PC, c: Choice): Ran
    requires Known(sh, pc) && Wants(pc).None?
    requires pc.SmOutLoop? || pc.SmOutCheck? || pc.SmInLoop? || pc.SmInCheck? || pc.SmApply?
  {
    match pc
    case SmOutLoop(m, spOut) =>
      if spOut.None? || sh.outs[spOut.value].standby then
        Ran(sh, SmInLoop(m, None, ActiveInput(sh)), NO_LOCKS)
      else
        Ran(sh, SmOutLock(m, spOut.value, sh.outs[spOut.value].standbyCnt), HW_LOCK)
    case SmOutCheck(m, o, cnt) =>
      if sh.output == Some(o) && cnt == sh.outs[o].standbyCnt then
        Ran(sh, SmInLoop(m, Some(o), ActiveInput(sh)), NO_LOCKS)
      else
        Ran(sh, SmOutLoop(m, sh.output), Locks(Some(o), None, false))
    case SmInLoop(m, spOut, spIn) =>
      if spIn.None? then
        Ran(sh, SmApply(Decide(m), spOut, None), NO_LOCKS)
      else
        Ran(sh, SmInLock(m, spOut, spIn.value, sh.ins[spIn.value].standbyCnt), HW_LOCK)
    case SmInCheck(m, spOut, i, cnt) =>
      if ActiveInput(sh) == Some(i) && cnt == sh.ins[i].standbyCnt then
        Ran(sh, SmApply(Decide(m), spOut, Some(i)), NO_LOCKS)
      else
        Ran(sh, SmInLoop(m, spOut, ActiveInput(sh)), Locks(None, Some(i), false))
    case SmApply(phase, spOut, spIn) => RunApply(sh, phase, spOut, spIn, c)
  }

  /** The body of setMode, one `_l` call at a time. */
  function RunApply(sh: Shared, phase: Phase, spOut: Option<nat>, spIn: Option<nat>, c: Choice): Ran
    requires Known(sh, SmApply(phase, spOut, spIn))
  {
    match phase
    case Decide(m) =>
      var sh1 := if c.flag then sh.(mode := m) else sh;
      var next :=
        if !c.flag then Unlock
        else if m == InCall && !sh.inCallAudioMode then EnterOut
        else if m == Normal && sh.inCallAudioMode then LeaveMixer
        else Unlock;
      Ran(sh1, SmApply(next, spOut, spIn), NO_LOCKS)
    case EnterOut =>
      Ran(if spOut.Some? then StandbyOutOf(sh, spOut.value) else sh, SmApply(EnterIn, spOut, spIn), NO_LOCKS)
    case EnterIn =>
      Ran(if spIn.Some? then StandbyInOf(sh, spIn.value) else sh, SmApply(EnterPcm, spOut, spIn), NO_LOCKS)
    case EnterPcm =>
      Ran(CallOpenPcm(sh, c.pcmReady), SmApply(EnterMixer, spOut, spIn), NO_LOCKS)
    case EnterMixer =>
      Ran(CallOpenMixer(sh, c.mixerReady).(inCallAudioMode := true), SmApply(Unlock, spOut, spIn), NO_LOCKS)
    case LeaveMixer =>
      Ran(CallCloseMixer(sh), SmApply(LeavePcm, spOut, spIn), NO_LOCKS)
    case LeavePcm =>
      Ran(CallClosePcm(sh), SmApply(LeaveOut, spOut, spIn), NO_LOCKS)
    case LeaveOut =>
      Ran(if spOut.Some? then StandbyOutOf(sh, spOut.value) else sh, SmApply(LeaveIn, spOut, spIn), NO_LOCKS)
    case LeaveIn =>
      Ran((if spIn.Some? then StandbyInOf(sh, spIn.value) else sh).(inCallAudioMode := false),
          SmApply(Unlock, spOut, spIn), NO_LOCKS)
    case Unlock =>
      Ran(sh, Idle, Locks(spOut, spIn, true))
  }

  predicate IsWrite(pc: PC) {
    || pc.WrTest? || pc.WrWake? || pc.WrInLoop? || pc.WrInCheck?
    || pc.WrOpenOut? || pc.WrOpenIn? || pc.WrFinish? || pc.WrPlay?
  }

  function RunWrite(sh: Shared, pc: PC, c: Choice): Ran
    requires Known(sh, pc) && IsWrite(pc)
  {
    match pc
    case WrTest(o) =>
      Ran(sh, if sh.outs[o].standby then WrHw(o) else WrPlay(o), NO_LOCKS)
    case WrWake(o) =>
      var st := sh.outs[o];
      Ran(sh.(outs := sh.outs[o := st.(wakes := st.wakes + 1)], wakeLock := true), WrInLoop(o, ActiveInput(sh)),
          NO_LOCKS)
    case WrInLoop(o, spIn) =>
      if spIn.None? then
        Ran(sh, WrOpenOut(o, None), NO_LOCKS)
      else
        Ran(sh, WrInLock(o, spIn.value, sh.ins[spIn.value].standbyCnt), HW_LOCK)
    case WrInCheck(o, i, cnt) =>
      if ActiveInput(sh) == Some(i) && cnt == sh.ins[i].standbyCnt then
        Ran(CloseInOf(sh, i), WrOpenOut(o, Some(i)), NO_LOCKS)
      else
        Ran(sh, WrInLoop(o, ActiveInput(sh)), Locks(None, Some(i), false))
    case WrOpenOut(o, spIn) =>
      Ran(OpenOutOf(sh, o, c.pcmReady, c.mixerReady), WrOpenIn(o, spIn), NO_LOCKS)
    case WrOpenIn(o, spIn) =>
      if spIn.None? then
        Ran(sh, WrFinish(o), NO_LOCKS)
      else
        var sh1 := OpenInOf(sh, spIn.value, c.pcmReady, c.mixerReady);
        Ran(if c.pcmReady then sh1 else StandbyInOf(sh1, spIn.value), WrFinish(o), Locks(None, spIn, false))
    case WrFinish(o) =>
      var st := sh.outs[o];
      if st.pcm.None? then
        Ran(sh.(outs := sh.outs[o := st.(wakes := st.wakes - 1)], wakeLock := false), OsStart(o),
            Locks(Some(o), None, true))
      else
        Ran(sh.(outs := sh.outs[o := st.(standby := false)]), WrPlay(o), HW_LOCK)
    case WrPlay(o) =>
      Ran(sh, if c.flag then Idle else OsStart(o), Locks(Some(o), None, false))
  }

  predicate IsOutControl(pc: PC) { pc.OsBody? || pc.OpTest? || pc.OpBody? }

  function RunOutControl(sh: Shared, pc: PC, c: Choice): Ran
    requires Known(sh, pc) && IsOutControl(pc)
  {
    match pc
    case OsBody(o) =>
      Ran(StandbyOutOf(sh, o), Idle, Locks(Some(o), None, true))
    case OpTest(o) =>
      if c.flag then Ran(sh, OpHw(o), NO_LOCKS) else Ran(sh, Idle, Locks(Some(o), None, false))
    case OpBody(o) =>
      Ran(if c.flag && sh.mode != InCall then StandbyOutOf(sh, o) else sh, Idle, Locks(Some(o), None, true))
  }

  predicate IsRead(pc: PC) {
    pc.RdTest? || pc.RdOutLoop? || pc.RdCheck? || pc.RdCycle? || pc.RdReopen? || pc.RdOpen? || pc.RdCapture?
  }

  function RunRead(sh: Shared, pc: PC, c: Choice): Ran
    requires Known(sh, pc) && IsRead(pc)
  {
    match pc
    case RdTest(i) =>
      Ran(sh, if sh.ins[i].standby then RdHw(i) else RdCapture(i), NO_LOCKS)
    case RdOutLoop(i, spOut) =>
      if spOut.None? then Ran(sh, RdOpen(i), NO_LOCKS)
      else Ran(sh, RdOutLock(i, spOut.value), Locks(None, Some(i), true))
    case RdCheck(i, o) =>
      if sh.output == Some(o) then Ran(sh, RdCycle(i, o), NO_LOCKS)
      else Ran(sh, RdOutLoop(i, sh.output), Locks(Some(o), None, false))
    case RdCycle(i, o) =>
      if sh.outs[o].standby then Ran(sh, RdOpen(i), Locks(Some(o), None, false))
      else Ran(CloseOutOf(sh, o), RdReopen(i, o), NO_LOCKS)
    case RdReopen(i, o) =>
      var sh1 := OpenOutOf(sh, o, c.pcmReady, c.mixerReady);
      Ran(if sh1.outs[o].pcm.Some? then sh1 else StandbyOutOf(sh1, o), RdOpen(i), Locks(Some(o), None, false))
    case RdOpen(i) =>
      var sh1 := OpenInOf(sh, i, c.pcmReady, c.mixerReady);
      if c.pcmReady then
        Ran(sh1.(ins := sh1.ins[i := sh1.ins[i].(standby := false)]), RdCapture(i), HW_LOCK)
      else
        Ran(sh1, IsStart(i), Locks(None, Some(i), true))
    case RdCapture(i) =>
      Ran(sh, if c.flag then Idle else IsStart(i), Locks(None, Some(i), false))
  }

  predicate IsInControl(pc: PC) {
    pc.IsBody? || pc.IpSource? || pc.IpSourceBody? || pc.IpRoute? || pc.IpRouteBody?
  }

  function RunInControl(sh: Shared, pc: PC, c: Choice): Ran
    requires Known(sh, pc) && IsInControl(pc)
  {
    match pc
    case IsBody(i) =>
      Ran(StandbyInOf(sh, i), Idle, Locks(None, Some(i), true))
    case IpSource(i) =>
      Ran(sh, if c.flag then IpSourceHw(i) else IpRoute(i), NO_LOCKS)
    case IpSourceBody(i) =>
      // opens the mixer, selects the source and closes the mixer again
      var (hw, _) := OpenMixer(sh.hw, c.mixerReady);
      Ran(sh.(hw := CloseMixer(hw)), IpRoute(i), HW_LOCK)
    case IpRoute(i) =>
      if c.flag then Ran(sh, IpRouteHw(i), NO_LOCKS) else Ran(sh, Idle, Locks(None, Some(i), false))
    case IpRouteBody(i) =>
      Ran(if c.flag && sh.mode != InCall then StandbyInOf(sh, i) else sh, Idle, Locks(None, Some(i), true))
  }

  function RunHw(sh: Shared, call: HwCall, c: Choice): Ran {
    match call
    case SetMicMute =>
      var spIn := if c.flag && sh.mode != InCall then ActiveInput(sh) else None;
      Ran(sh, if spIn.Some? then IsStart(spIn.value) else Idle, HW_LOCK)
    case OpenOutput =>
      if sh.output.None? && c.flag && c.id !in sh.outs then
        Ran(sh.(outs := sh.outs[c.id := NEW_OUT], output := Some(c.id)), Idle, HW_LOCK)
      else
        Ran(sh, Idle, HW_LOCK)
    case CloseOutput(o) =>
      if sh.output == Some(o) then Ran(sh.(output := None), HwDropOut(o), HW_LOCK)
      else Ran(sh, Idle, HW_LOCK)
    case OpenInput =>
      if c.flag && c.id !in sh.ins && c.pos <= |sh.inputs| then
        Ran(sh.(ins := sh.ins[c.id := NEW_IN], inputs := sh.inputs[..c.pos] + [c.id] + sh.inputs[c.pos..]),
            Idle, HW_LOCK)
      else
        Ran(sh, Idle, HW_LOCK)
    case CloseInput(i) =>
      if i in sh.inputs then Ran(sh.(inputs := Without(sh.inputs, i)), HwDropIn(i), HW_LOCK)
      else Ran(sh, Idle, HW_LOCK)
  }

  predicate IsDrop(pc: PC) { pc.HwDropOut? || pc.HwDropIn? }

  /** The end of closing a stream: if the reference is the last, the destructor calls standby(). */
  function RunDrop(sh: Shared, pc: PC, c: Choice): Ran
    requires IsDrop(pc)
  {
    match pc
    case HwDropOut(o) => Ran(sh, if c.flag then OsStart(o) else Idle, NO_LOCKS)
    case HwDropIn(i) => Ran(sh, if c.flag then IsStart(i) else Idle, NO_LOCKS)
  }

  function Run(sh: Shared, pc: PC, c: Choice): Ran
    requires Known(sh, pc) && Wants(pc).None? && pc != Idle
  {
    if pc.HwBody? then RunHw(sh, pc.call, c)
    else if IsDrop(pc) then RunDrop(sh, pc, c)
    else if IsWrite(pc) then RunWrite(sh, pc, c)
    else if IsOutControl(pc) then RunOutControl(sh, pc, c)
    else if IsRead(pc) then RunRead(sh, pc, c)
    else if IsInControl(pc) then RunInControl(sh, pc, c)
    else RunSetMode(sh, pc, c)
  }

  // ----- all threads together -----

  datatype State = State(sh: Shared, threads: seq<PC>, locks: map<Lock, nat>)

  ghost predicate Enabled(s: State, t: nat, c: Choice) {
    && t < |s.threads|
    && Known(s.sh, s.threads[t])
    && (s.threads[t] == Idle ==>
          && IsCall(c.start)
          && Known(s.sh, c.start)
          // an input stream has one reader
          && (c.start.RdStart? ==> forall u :: 0 <= u < |s.threads| ==> ReaderOf(s.threads[u]) != ReaderOf(c.start)))
    && (Wants(s.threads[t]).Some? ==> Wants(s.threads[t]).value !in s.locks)
  }

  function Step(s: State, t: nat, c: Choice): State
    requires t < |s.threads| && Known(s.sh, s.threads[t])
  {
    var pc := s.threads[t];
    if pc == Idle then
      s.(threads := s.threads[t := c.start])
    else if Wants(pc).Some? then
      State(s.sh, s.threads[t := Locked(s.sh, pc)], s.locks[Wants(pc).value := t])
    else
      var r := Run(s.sh, pc, c);
      State(r.sh, s.threads[t := r.pc], map l | l in s.locks && !r.released.Has(l) :: s.locks[l])
  }

  function Boot(threads: nat): State {
    State(BOOT, seq(threads, _ => Idle), map[])
  }

  /** A run: each state follows from the one before by an enabled step of some thread. */
  ghost predicate IsRun(run: seq<State>) {
    && |run| > 0
    && run[0] == Boot(|run[0].threads|)
    && forall k :: 0 <= k < |run| - 1 ==> Follows(run[k], run[k + 1])
  }

  ghost predicate Follows(s: State, s': State) {
    exists t: nat, c :: Enabled(s, t, c) && s' == Step(s, t, c)
  }
}
