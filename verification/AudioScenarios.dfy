/** Runs of the audio protocol that show where its intended properties stop: each lemma exhibits
  * a reachable state. The exact conditions are in AudioTheorems and AudioRuns.
  */
module AudioScenarios {
  import opened Options
  import opened RefCounts
  import opened AudioResources
  import opened AudioProtocol

  ghost predicate Reachable(s: State) {
    exists run :: IsRun(run) && run[|run| - 1] == s
  }

  lemma BootReachable(threads: nat)
    ensures Reachable(Boot(threads))
  {
    assert IsRun([Boot(threads)]);
  }

  lemma Extend(s: State, t: nat, c: Choice)
    requires Reachable(s) && Enabled(s, t, c)
    ensures Reachable(Step(s, t, c))
  {
    var run :| IsRun(run) && run[|run| - 1] == s;
    var run' := run + [Step(s, t, c)];
    forall k | 0 <= k < |run'| - 1 ensures Follows(run'[k], run'[k + 1]) {
      if k < |run| - 1 {
        assert Follows(run[k], run[k + 1]);
      } else {
        assert Enabled(run'[k], t, c) && run'[k + 1] == Step(run'[k], t, c);
      }
    }
    assert IsRun(run');
  }

  const GOOD := Choice(Idle, true, true, true, 0, 0)
  const NO_PCM := GOOD.(pcmReady := false)
  const NOT_LAST := GOOD.(flag := false)

  /** Two threads: thread `t` at `mine`, the other at `other`. */
  function Two(sh: Shared, t: nat, mine: PC, other: PC, locks: map<Lock, nat>): State {
    State(sh, if t == 0 then [mine, other] else [other, mine], locks)
  }

  lemma Swap(sh: Shared, t: nat, mine: PC, other: PC, locks: map<Lock, nat>)
    requires t < 2 && Reachable(Two(sh, t, mine, other, locks))
    ensures Reachable(Two(sh, 1 - t, other, mine, locks))
  {}

  lemma Start(sh: Shared, t: nat, mine: PC, other: PC, locks: map<Lock, nat>)
    requires t < 2 && Reachable(Two(sh, t, Idle, other, locks)) && IsCall(mine) && Known(sh, mine)
    requires mine.RdStart? ==> ReaderOf(other).None?
    ensures Reachable(Two(sh, t, mine, other, locks))
  {
    var s := Two(sh, t, Idle, other, locks);
    Extend(s, t, GOOD.(start := mine));
    assert Step(s, t, GOOD.(start := mine)) == Two(sh, t, mine, other, locks);
  }

  /** Thread `t` takes the lock `l` it wants and arrives at `next`. */
  lemma Take(sh: Shared, t: nat, mine: PC, other: PC, locks: map<Lock, nat>, l: Lock, next: PC)
    requires t < 2 && Reachable(Two(sh, t, mine, other, locks)) && Known(sh, mine)
    requires Wants(mine) == Some(l) && l !in locks && Locked(sh, mine) == next
    ensures Reachable(Two(sh, t, next, other, locks[l := t]))
  {
    var s := Two(sh, t, mine, other, locks);
    Extend(s, t, GOOD);
    assert Step(s, t, GOOD) == Two(sh, t, next, other, locks[l := t]);
  }

  /** Thread `t` runs up to its next lock operation; `locks'` is what remains taken. */
  lemma Go(sh: Shared, t: nat, mine: PC, other: PC, locks: map<Lock, nat>, c: Choice, locks': map<Lock, nat>)
    requires t < 2 && Reachable(Two(sh, t, mine, other, locks)) && Known(sh, mine)
    requires Wants(mine).None? && mine != Idle
    requires locks' == map l | l in locks && !Run(sh, mine, c).released.Has(l) :: locks[l]
    ensures var r := Run(sh, mine, c); Reachable(Two(r.sh, t, r.pc, other, locks'))
  {
    var s := Two(sh, t, mine, other, locks);
    Extend(s, t, c);
    assert Step(s, t, c) == Two(Run(sh, mine, c).sh, t, Run(sh, mine, c).pc, other, locks');
  }

  // ----- a state with an active input 0 and a registered output 0 in standby -----

  const FREE: map<Lock, nat> := map[]

  lemma InputOpenStarts()
    ensures Reachable(Two(BOOT, 0, HwBody(OpenInput), Idle, FREE[HwL := 0]))
  {
    hide Reachable, Run;
    BootReachable(2);
    assert Boot(2) == Two(BOOT, 0, Idle, Idle, FREE);
    Start(BOOT, 0, HwStart(OpenInput), Idle, FREE);
    Take(BOOT, 0, HwStart(OpenInput), Idle, FREE, HwL, HwBody(OpenInput));
  }

  lemma InputOpened()
    ensures Reachable(Two(BOOT.(ins := map[0 := NEW_IN], inputs := [0]), 0, Idle, Idle, FREE))
  {
    hide Reachable;
    InputOpenStarts();
    Go(BOOT, 0, HwBody(OpenInput), Idle, FREE[HwL := 0], GOOD, FREE);
    assert RunHw(BOOT, OpenInput, GOOD).sh == BOOT.(ins := map[0 := NEW_IN], inputs := [0]);
  }

  /** Input 0 is registered and active, and no output is open. */
  ghost predicate InputOnly(sh: Shared) {
    && sh.inputs == [0] && sh.ins.Keys == {0} && !sh.ins[0].standby && sh.ins[0].standbyCnt == 0
    && sh.output == None && sh.outs == map[] && sh.mode == Normal && !sh.inCallAudioMode
    && sh.hw.pcm == CLOSED
  }

  lemma InputWakes(sh: Shared)
    requires Reachable(Two(sh, 0, Idle, Idle, FREE)) && sh.ins.Keys == {0} && sh.ins[0].standby && sh.output.None?
    ensures Reachable(Two(sh, 0, RdOutLoop(0, None), Idle, FREE[InL(0) := 0][HwL := 0]))
  {
    hide Reachable;
    ReadTests(sh);
    Go(sh, 0, RdTest(0), Idle, FREE[InL(0) := 0], GOOD, FREE[InL(0) := 0]);
    Take(sh, 0, RdHw(0), Idle, FREE[InL(0) := 0], HwL, RdOutLoop(0, None));
  }

  lemma ReadTests(sh: Shared)
    requires Reachable(Two(sh, 0, Idle, Idle, FREE)) && 0 in sh.ins
    ensures Reachable(Two(sh, 0, RdTest(0), Idle, FREE[InL(0) := 0]))
  {
    hide Reachable, Run;
    Start(sh, 0, RdStart(0), Idle, FREE);
    Take(sh, 0, RdStart(0), Idle, FREE, InL(0), RdTest(0));
  }

  lemma ReadFindsNoOutput(sh: Shared)
    requires Reachable(Two(sh, 0, RdOutLoop(0, None), Idle, FREE[InL(0) := 0][HwL := 0])) && 0 in sh.ins
    ensures Reachable(Two(sh, 0, RdOpen(0), Idle, FREE[InL(0) := 0][HwL := 0]))
  {
    hide Reachable;
    Go(sh, 0, RdOutLoop(0, None), Idle, FREE[InL(0) := 0][HwL := 0], GOOD, FREE[InL(0) := 0][HwL := 0]);
  }

  lemma InputReads(sh: Shared)
    requires Reachable(Two(sh, 0, RdOutLoop(0, None), Idle, FREE[InL(0) := 0][HwL := 0])) && sh.ins.Keys == {0}
    ensures Reachable(Two(RunRead(sh, RdOpen(0), GOOD).sh, 0, RdCapture(0), Idle, FREE[InL(0) := 0]))
  {
    hide Reachable;
    ReadFindsNoOutput(sh);
    Go(sh, 0, RdOpen(0), Idle, FREE[InL(0) := 0][HwL := 0], GOOD, FREE[InL(0) := 0]);
  }

  lemma InputActive() returns (sh: Shared)
    ensures Reachable(Two(sh, 0, Idle, Idle, FREE)) && InputOnly(sh)
  {
    hide Reachable;
    InputOpened();
    var sh0 := BOOT.(ins := map[0 := NEW_IN], inputs := [0]);
    InputWakes(sh0);
    InputReads(sh0);
    sh := RunRead(sh0, RdOpen(0), GOOD).sh;
    ReadEnds(sh);
  }

  lemma ReadEnds(sh: Shared)
    requires Reachable(Two(sh, 0, RdCapture(0), Idle, FREE[InL(0) := 0])) && 0 in sh.ins
    ensures Reachable(Two(sh, 0, Idle, Idle, FREE))
  {
    hide Reachable;
    Go(sh, 0, RdCapture(0), Idle, FREE[InL(0) := 0], GOOD, FREE);
  }

  /** Input 0 is registered and active, output 0 is registered; nobody is in a call. */
  ghost predicate BothOpen(sh: Shared) {
    && sh.inputs == [0] && sh.ins.Keys == {0} && !sh.ins[0].standby && sh.ins[0].standbyCnt == 0
    && sh.output == Some(0) && sh.outs.Keys == {0} && sh.outs[0].standbyCnt == 0
    && sh.mode == Normal && !sh.inCallAudioMode
  }

  ghost predicate OutputIdle(sh: Shared) { BothOpen(sh) && sh.outs[0] == NEW_OUT && sh.hw.pcm == CLOSED }

  lemma Recording() returns (sh: Shared)
    ensures Reachable(Two(sh, 0, Idle, Idle, FREE)) && OutputIdle(sh)
  {
    hide Reachable;
    var sh0 := InputActive();
    Start(sh0, 0, HwStart(OpenOutput), Idle, FREE);
    Take(sh0, 0, HwStart(OpenOutput), Idle, FREE, HwL, HwBody(OpenOutput));
    Go(sh0, 0, HwBody(OpenOutput), Idle, FREE[HwL := 0], GOOD, FREE);
    sh := RunHw(sh0, OpenOutput, GOOD).sh;
  }

  // ----- write() on output 0 while input 0 is active -----

  lemma WriteEnters(sh: Shared, t: nat, other: PC)
    requires t < 2 && ReaderOf(other).None? && 0 in sh.outs
    requires Reachable(Two(sh, t, Idle, other, FREE))
    ensures Reachable(Two(sh, t, WrTest(0), other, FREE[OutL(0) := t]))
  {
    hide Reachable, Run;
    Start(sh, t, WrStart(0), other, FREE);
    Take(sh, t, WrStart(0), other, FREE, OutL(0), WrTest(0));
  }

  lemma WriteStarts(sh: Shared, t: nat, other: PC)
    requires t < 2 && ReaderOf(other).None?
    requires Reachable(Two(sh, t, Idle, other, FREE)) && OutputIdle(sh)
    ensures Reachable(Two(sh, t, WrWake(0), other, FREE[OutL(0) := t][HwL := t]))
  {
    hide Reachable;
    WriteEnters(sh, t, other);
    WriteTests(sh, t, other);
    Take(sh, t, WrHw(0), other, FREE[OutL(0) := t], HwL, WrWake(0));
  }

  lemma WriteTests(sh: Shared, t: nat, other: PC)
    requires t < 2 && Reachable(Two(sh, t, WrTest(0), other, FREE[OutL(0) := t])) && OutInStandby(sh)
    ensures Reachable(Two(sh, t, WrHw(0), other, FREE[OutL(0) := t]))
  {
    hide Reachable;
    Go(sh, t, WrTest(0), other, FREE[OutL(0) := t], GOOD, FREE[OutL(0) := t]);
  }

  predicate OutInStandby(sh: Shared) { 0 in sh.outs && sh.outs[0].standby }

  lemma WriteWaits(sh0: Shared, t: nat, other: PC) returns (sh: Shared)
    requires t < 2 && ReaderOf(other).None?
    requires Reachable(Two(sh0, t, Idle, other, FREE)) && OutputIdle(sh0)
    ensures BothOpen(sh) && sh.outs[0].standby && sh.hw.pcm == CLOSED && sh.wakeLock
    ensures Reachable(Two(sh, t, WrInLock(0, 0, 0), other, FREE[OutL(0) := t]))
  {
    hide Reachable;
    WriteStarts(sh0, t, other);
    sh := RunWrite(sh0, WrWake(0), GOOD).sh;
    Go(sh0, t, WrWake(0), other, FREE[OutL(0) := t][HwL := t], GOOD, FREE[OutL(0) := t][HwL := t]);
    Go(sh, t, WrInLoop(0, Some(0)), other, FREE[OutL(0) := t][HwL := t], GOOD, FREE[OutL(0) := t]);
  }

  /** The wake lock is held while the hardware lock is free and the only output is in standby. */
  lemma WakeLockHeldInStandby() returns (s: State)
    ensures Reachable(s) && HwL !in s.locks
    ensures s.sh.outs.Keys == {0} && s.sh.outs[0].standby && s.sh.wakeLock
  {
    hide Reachable;
    var sh := Recording();
    sh := WriteWaits(sh, 0, Idle);
    s := Two(sh, 0, WrInLock(0, 0, 0), Idle, FREE[OutL(0) := 0]);
  }

  lemma WriteTakesInput(sh: Shared, t: nat, other: PC)
    requires t < 2 && Reachable(Two(sh, t, WrInLock(0, 0, 0), other, FREE[OutL(0) := t])) && 0 in sh.outs && 0 in sh.ins
    ensures Reachable(Two(sh, t, WrInCheck(0, 0, 0), other, FREE[OutL(0) := t][InL(0) := t][HwL := t]))
  {
    hide Reachable, Run;
    Take(sh, t, WrInLock(0, 0, 0), other, FREE[OutL(0) := t], InL(0), WrInHw(0, 0, 0));
    Take(sh, t, WrInHw(0, 0, 0), other, FREE[OutL(0) := t][InL(0) := t], HwL, WrInCheck(0, 0, 0));
  }

  lemma WriteRetakes(sh: Shared, t: nat, other: PC)
    requires t < 2 && Reachable(Two(sh, t, WrInLock(0, 0, 0), other, FREE[OutL(0) := t])) && BothOpen(sh)
    ensures Reachable(Two(CloseInOf(sh, 0), t, WrOpenOut(0, Some(0)), other, FREE[OutL(0) := t][InL(0) := t][HwL := t]))
  {
    hide Reachable;
    var locks := FREE[OutL(0) := t][InL(0) := t][HwL := t];
    WriteTakesInput(sh, t, other);
    Go(sh, t, WrInCheck(0, 0, 0), other, locks, GOOD, locks);
  }

  lemma WriteOpens(sh: Shared, t: nat, other: PC)
    requires t < 2 && sh.outs.Keys == {0} && sh.ins.Keys == {0}
    requires Reachable(Two(sh, t, WrOpenOut(0, Some(0)), other, FREE[OutL(0) := t][InL(0) := t][HwL := t]))
    ensures Reachable(Two(OpenOutOf(sh, 0, true, true), t, WrOpenIn(0, Some(0)), other,
        FREE[OutL(0) := t][InL(0) := t][HwL := t]))
  {
    hide Reachable, OutOpen;
    var locks := FREE[OutL(0) := t][InL(0) := t][HwL := t];
    Go(sh, t, WrOpenOut(0, Some(0)), other, locks, GOOD, locks);
  }

  lemma WriteReopensInput(sh: Shared, t: nat, other: PC)
    requires t < 2 && sh.outs.Keys == {0} && sh.ins.Keys == {0}
    requires Reachable(Two(sh, t, WrOpenIn(0, Some(0)), other, FREE[OutL(0) := t][InL(0) := t][HwL := t]))
    ensures Reachable(Two(OpenInOf(sh, 0, true, true), t, WrFinish(0), other, FREE[OutL(0) := t][HwL := t]))
  {
    hide Reachable, InOpen;
    Go(sh, t, WrOpenIn(0, Some(0)), other, FREE[OutL(0) := t][InL(0) := t][HwL := t], GOOD,
        FREE[OutL(0) := t][HwL := t]);
  }

  lemma WriteEnds(sh: Shared, t: nat, other: PC)
    requires t < 2 && 0 in sh.outs && sh.outs[0].pcm.Some?
    requires Reachable(Two(sh, t, WrFinish(0), other, FREE[OutL(0) := t][HwL := t]))
    ensures Reachable(Two(sh.(outs := sh.outs[0 := sh.outs[0].(standby := false)]), t, Idle, other, FREE))
  {
    hide Reachable;
    Go(sh, t, WrFinish(0), other, FREE[OutL(0) := t][HwL := t], GOOD, FREE[OutL(0) := t]);
    Go(sh.(outs := sh.outs[0 := sh.outs[0].(standby := false)]), t, WrPlay(0), other, FREE[OutL(0) := t], GOOD, FREE);
  }

  lemma WriteFinishes(sh0: Shared, t: nat, other: PC) returns (sh: Shared)
    requires t < 2 && BothOpen(sh0) && sh0.hw.pcm == CLOSED
    requires Reachable(Two(sh0, t, WrInLock(0, 0, 0), other, FREE[OutL(0) := t]))
    ensures BothOpen(sh) && !sh.outs[0].standby
    ensures Reachable(Two(sh, t, Idle, other, FREE))
  {
    hide Reachable;
    WriteRetakes(sh0, t, other);
    var sh1 := CloseInOf(sh0, 0);
    WriteOpens(sh1, t, other);
    var sh2 := OpenOutOf(sh1, 0, true, true);
    WriteReopensInput(sh2, t, other);
    var sh3 := OpenInOf(sh2, 0, true, true);
    WriteEnds(sh3, t, other);
    sh := sh3.(outs := sh3.outs[0 := sh3.outs[0].(standby := false)]);
  }

  // ----- setMode(IN_CALL) racing with write() and closeOutputStream() -----

  lemma SetModeStarts(sh: Shared)
    requires Reachable(Two(sh, 0, Idle, Idle, FREE)) && sh.output == Some(0) && 0 in sh.outs
    ensures Reachable(Two(sh, 0, SmOutLoop(InCall, Some(0)), Idle, FREE[HwL := 0]))
  {
    hide Reachable, Run;
    Start(sh, 0, SmStart(InCall), Idle, FREE);
    Take(sh, 0, SmStart(InCall), Idle, FREE, HwL, SmOutLoop(InCall, Some(0)));
  }

  /** setMode finds the output in standby and goes on to wait for the input. */
  lemma SetModeSkipsOutput(sh: Shared)
    requires Reachable(Two(sh, 0, Idle, Idle, FREE)) && OutputIdle(sh)
    ensures Reachable(Two(sh, 0, SmInLock(InCall, None, 0, 0), Idle, FREE))
  {
    hide Reachable;
    SetModeStarts(sh);
    Go(sh, 0, SmOutLoop(InCall, Some(0)), Idle, FREE[HwL := 0], GOOD, FREE[HwL := 0]);
    SetModeAwaitsInput(sh);
  }

  lemma SetModeAwaitsInput(sh: Shared)
    requires Reachable(Two(sh, 0, SmInLoop(InCall, None, Some(0)), Idle, FREE[HwL := 0]))
    requires 0 in sh.ins && sh.ins[0].standbyCnt == 0
    ensures Reachable(Two(sh, 0, SmInLock(InCall, None, 0, 0), Idle, FREE))
  {
    hide Reachable;
    Go(sh, 0, SmInLoop(InCall, None, Some(0)), Idle, FREE[HwL := 0], GOOD, FREE);
  }

  lemma SetModeRetakes(sh: Shared, spOut: Option<nat>, locks: map<Lock, nat>)
    requires Reachable(Two(sh, 0, SmInLock(InCall, spOut, 0, 0), Idle, locks)) && spOut in {None, Some(0)}
    requires 0 in sh.ins && 0 in sh.outs && HwL !in locks && InL(0) !in locks
    ensures Reachable(Two(sh, 0, SmInCheck(InCall, spOut, 0, 0), Idle, locks[InL(0) := 0][HwL := 0]))
  {
    hide Reachable, Run;
    Take(sh, 0, SmInLock(InCall, spOut, 0, 0), Idle, locks, InL(0), SmInHw(InCall, spOut, 0, 0));
    Take(sh, 0, SmInHw(InCall, spOut, 0, 0), Idle, locks[InL(0) := 0], HwL, SmInCheck(InCall, spOut, 0, 0));
  }

  /** setMode gets the input's lock and the hardware lock back, and finds the input unchanged. */
  lemma SetModeProceeds(sh: Shared, spOut: Option<nat>, locks: map<Lock, nat>)
    requires Reachable(Two(sh, 0, SmInLock(InCall, spOut, 0, 0), Idle, locks)) && spOut in {None, Some(0)}
    requires sh.inputs == [0] && sh.ins.Keys == {0} && !sh.ins[0].standby && sh.ins[0].standbyCnt == 0 && 0 in sh.outs
    requires HwL !in locks && InL(0) !in locks
    ensures Reachable(Two(sh, 0, SmApply(Decide(InCall), spOut, Some(0)), Idle, locks[InL(0) := 0][HwL := 0]))
  {
    hide Reachable;
    SetModeRetakes(sh, spOut, locks);
    Go(sh, 0, SmInCheck(InCall, spOut, 0, 0), Idle, locks[InL(0) := 0][HwL := 0], GOOD, locks[InL(0) := 0][HwL := 0]);
  }

  /** One step of setMode's body. */
  lemma Apply(sh: Shared, phase: Phase, spOut: Option<nat>, spIn: Option<nat>, locks: map<Lock, nat>, c: Choice,
              sh': Shared, phase': Phase)
    requires Reachable(Two(sh, 0, SmApply(phase, spOut, spIn), Idle, locks)) && Known(sh, SmApply(phase, spOut, spIn))
    requires RunApply(sh, phase, spOut, spIn, c) == Ran(sh', SmApply(phase', spOut, spIn), NO_LOCKS)
    ensures Reachable(Two(sh', 0, SmApply(phase', spOut, spIn), Idle, locks))
  {
    hide Reachable, RunApply;
    Go(sh, 0, SmApply(phase, spOut, spIn), Idle, locks, c, locks);
  }

  lemma InputQuieted(sh: Shared, i: nat)
    requires i in sh.ins
    ensures var sh' := StandbyInOf(sh, i);
            && sh'.mode == sh.mode && sh'.output == sh.output && sh'.outs == sh.outs && sh'.hw.pcm == sh.hw.pcm
            && sh'.ins.Keys == sh.ins.Keys
  {}

  /** setMode decides to enter the call, and does, without an output locked. */
  lemma CallEnters(sh0: Shared, spIn: Option<nat>, locks: map<Lock, nat>, c: Choice) returns (sh: Shared)
    requires Reachable(Two(sh0, 0, SmApply(Decide(InCall), None, spIn), Idle, locks))
    requires !sh0.inCallAudioMode && (spIn.Some? ==> spIn.value in sh0.ins) && c.flag
    ensures Reachable(Two(sh, 0, SmApply(Unlock, None, spIn), Idle, locks))
    ensures sh.mode == InCall && sh.inCallAudioMode && sh.output == sh0.output && sh.outs == sh0.outs
    ensures !c.pcmReady && sh0.hw.pcm == CLOSED ==> sh.hw.pcm == CLOSED
  {
    hide Reachable;
    var sh2 := StreamsQuieted(sh0, spIn, locks, c);
    var sh3 := CallOpenPcm(sh2, c.pcmReady);
    Apply(sh2, EnterPcm, None, spIn, locks, c, sh3, EnterMixer);
    sh := CallOpenMixer(sh3, c.mixerReady).(inCallAudioMode := true);
    Apply(sh3, EnterMixer, None, spIn, locks, c, sh, Unlock);
  }

  lemma StreamsQuieted(sh0: Shared, spIn: Option<nat>, locks: map<Lock, nat>, c: Choice) returns (sh: Shared)
    requires Reachable(Two(sh0, 0, SmApply(Decide(InCall), None, spIn), Idle, locks))
    requires !sh0.inCallAudioMode && (spIn.Some? ==> spIn.value in sh0.ins) && c.flag
    ensures Reachable(Two(sh, 0, SmApply(EnterPcm, None, spIn), Idle, locks)) && (spIn.Some? ==> spIn.value in sh.ins)
    ensures sh.mode == InCall && sh.output == sh0.output && sh.outs == sh0.outs && sh.hw.pcm == sh0.hw.pcm
  {
    hide Reachable, StandbyInOf;
    var sh1 := sh0.(mode := InCall);
    Apply(sh0, Decide(InCall), None, spIn, locks, c, sh1, EnterOut);
    Apply(sh1, EnterOut, None, spIn, locks, c, sh1, EnterIn);
    sh := if spIn.Some? then StandbyInOf(sh1, spIn.value) else sh1;
    if spIn.Some? { InputQuieted(sh1, spIn.value); }
    Apply(sh1, EnterIn, None, spIn, locks, c, sh, EnterPcm);
  }

  /** setMode enters the call without having locked an output that is registered and active by
    * now, and leaves it so: a write() woke it up while setMode was waiting for the input's lock. */
  lemma CallEnteredWithActiveOutput() returns (s: State)
    ensures Reachable(s) && |s.threads| == 2 && s.threads[0] == SmApply(Unlock, None, Some(0))
    ensures s.sh.mode == InCall && s.sh.inCallAudioMode
    ensures s.sh.output == Some(0) && 0 in s.sh.outs && !s.sh.outs[0].standby
  {
    hide Reachable;
    var sh0 := Recording();
    SetModeSkipsOutput(sh0);
    var setMode := SmInLock(InCall, None, 0, 0);
    Swap(sh0, 0, setMode, Idle, FREE);
    var sh1 := WriteWaits(sh0, 1, setMode);
    var sh2 := WriteFinishes(sh1, 1, setMode);
    Swap(sh2, 1, Idle, setMode, FREE);
    SetModeProceeds(sh2, None, FREE);
    var locks := FREE[InL(0) := 0][HwL := 0];
    var sh := CallEnters(sh2, Some(0), locks, GOOD);
    s := Two(sh, 0, SmApply(Unlock, None, Some(0)), Idle, locks);
  }

  /** With no stream open at all, setMode goes straight to its decision. */
  lemma SetModeDecides()
    ensures Reachable(Two(BOOT, 0, SmApply(Decide(InCall), None, None), Idle, FREE[HwL := 0]))
  {
    hide Reachable;
    SetModeFindsNothing();
    Go(BOOT, 0, SmOutLoop(InCall, None), Idle, FREE[HwL := 0], GOOD, FREE[HwL := 0]);
    Go(BOOT, 0, SmInLoop(InCall, None, None), Idle, FREE[HwL := 0], GOOD, FREE[HwL := 0]);
  }

  lemma SetModeFindsNothing()
    ensures Reachable(Two(BOOT, 0, SmOutLoop(InCall, None), Idle, FREE[HwL := 0]))
  {
    hide Reachable, Run;
    BootReachable(2);
    assert Boot(2) == Two(BOOT, 0, Idle, Idle, FREE);
    Start(BOOT, 0, SmStart(InCall), Idle, FREE);
    Take(BOOT, 0, SmStart(InCall), Idle, FREE, HwL, SmOutLoop(InCall, None));
  }

  /** The PCM could not be opened, and the call is entered nevertheless: in call mode, with no
    * reference counted for it. */
  lemma CallEnteredWithoutPcm() returns (s: State)
    ensures Reachable(s) && s.sh.inCallAudioMode && s.sh.hw.pcm.cnt == 0 && s.sh.hw.pcm.handle.None?
    ensures |s.threads| == 2 && s.threads[0] == SmApply(Unlock, None, None)
  {
    hide Reachable;
    SetModeDecides();
    var sh := CallEnters(BOOT, None, FREE[HwL := 0], NO_PCM);
    s := Two(sh, 0, SmApply(Unlock, None, None), Idle, FREE[HwL := 0]);
  }

  lemma Playing() returns (sh: Shared)
    ensures Reachable(Two(sh, 0, Idle, Idle, FREE)) && BothOpen(sh) && !sh.outs[0].standby
  {
    hide Reachable;
    var sh0 := Recording();
    var sh1 := WriteWaits(sh0, 0, Idle);
    sh := WriteFinishes(sh1, 0, Idle);
  }

  lemma SetModeWaits(sh: Shared)
    requires Reachable(Two(sh, 0, Idle, Idle, FREE)) && BothOpen(sh) && !sh.outs[0].standby
    ensures Reachable(Two(sh, 0, SmOutLock(InCall, 0, 0), Idle, FREE))
  {
    hide Reachable;
    SetModeStarts(sh);
    Go(sh, 0, SmOutLoop(InCall, Some(0)), Idle, FREE[HwL := 0], GOOD, FREE);
  }

  lemma OutputCloseStarts(sh: Shared, other: PC, locks: map<Lock, nat>)
    requires Reachable(Two(sh, 1, Idle, other, locks)) && HwL !in locks
    ensures Reachable(Two(sh, 1, HwBody(CloseOutput(0)), other, locks[HwL := 1]))
  {
    hide Reachable, Run;
    Start(sh, 1, HwStart(CloseOutput(0)), other, locks);
    Take(sh, 1, HwStart(CloseOutput(0)), other, locks, HwL, HwBody(CloseOutput(0)));
  }

  lemma OutputCloses(sh: Shared, other: PC, locks: map<Lock, nat>)
    requires Reachable(Two(sh, 1, Idle, other, locks)) && HwL !in locks
    requires sh.output == Some(0) && 0 in sh.outs
    ensures Reachable(Two(sh.(output := None), 1, Idle, other, locks))
  {
    hide Reachable;
    OutputCloseStarts(sh, other, locks);
    OutputUnregisters(sh, other, locks);
    CloserLeaves(sh.(output := None), HwDropOut(0), other, locks);
  }

  lemma OutputUnregisters(sh: Shared, other: PC, locks: map<Lock, nat>)
    requires Reachable(Two(sh, 1, HwBody(CloseOutput(0)), other, locks[HwL := 1])) && HwL !in locks
    requires sh.output == Some(0)
    ensures Reachable(Two(sh.(output := None), 1, HwDropOut(0), other, locks))
  {
    hide Reachable;
    Go(sh, 1, HwBody(CloseOutput(0)), other, locks[HwL := 1], GOOD, locks);
  }

  /** The closer drops its own reference, which is not the last: another thread has one. */
  lemma CloserLeaves(sh: Shared, drop: PC, other: PC, locks: map<Lock, nat>)
    requires Reachable(Two(sh, 1, drop, other, locks)) && IsDrop(drop) && Known(sh, drop)
    ensures Reachable(Two(sh, 1, Idle, other, locks))
  {
    hide Reachable;
    Go(sh, 1, drop, other, locks, NOT_LAST, locks);
  }

  /** setMode is about to replace its reference to a stream that nobody else refers to any more,
    * while holding the hardware lock that the stream's destructor needs for its standby(). */
  lemma LastReferenceUnderHardwareLock() returns (s: State)
    ensures Reachable(s) && |s.threads| == 2 && s.threads[0] == SmOutCheck(InCall, 0, 0) && HwL in s.locks
    ensures s.locks[HwL] == 0
    ensures s.sh.output == None && forall t :: 0 < t < |s.threads| ==> OutOf(s.threads[t]).None?
  {
    hide Reachable;
    var sh0 := Playing();
    SetModeWaits(sh0);
    Swap(sh0, 0, SmOutLock(InCall, 0, 0), Idle, FREE);
    OutputCloses(sh0, SmOutLock(InCall, 0, 0), FREE);
    var sh := sh0.(output := None);
    Swap(sh, 1, Idle, SmOutLock(InCall, 0, 0), FREE);
    SetModeTakesOutput(sh);
    s := Two(sh, 0, SmOutCheck(InCall, 0, 0), Idle, FREE[OutL(0) := 0][HwL := 0]);
  }

  lemma InputClosesWhile(sh: Shared, other: PC, locks: map<Lock, nat>)
    requires Reachable(Two(sh, 1, Idle, other, locks)) && HwL !in locks
    requires sh.inputs == [0] && 0 in sh.ins
    ensures Reachable(Two(sh.(inputs := []), 1, Idle, other, locks))
  {
    hide Reachable;
    InputCloseStarts(sh, other, locks);
    InputUnregisters(sh, other, locks);
    CloserLeaves(sh.(inputs := []), HwDropIn(0), other, locks);
  }

  lemma InputUnregisters(sh: Shared, other: PC, locks: map<Lock, nat>)
    requires Reachable(Two(sh, 1, HwBody(CloseInput(0)), other, locks[HwL := 1])) && HwL !in locks
    requires sh.inputs == [0]
    ensures Reachable(Two(sh.(inputs := []), 1, HwDropIn(0), other, locks))
  {
    hide Reachable;
    assert Without([0], 0) == [];
    Go(sh, 1, HwBody(CloseInput(0)), other, locks[HwL := 1], GOOD, locks);
  }

  lemma InputCloseStarts(sh: Shared, other: PC, locks: map<Lock, nat>)
    requires Reachable(Two(sh, 1, Idle, other, locks)) && HwL !in locks
    ensures Reachable(Two(sh, 1, HwBody(CloseInput(0)), other, locks[HwL := 1]))
  {
    hide Reachable, Run;
    Start(sh, 1, HwStart(CloseInput(0)), other, locks);
    Take(sh, 1, HwStart(CloseInput(0)), other, locks, HwL, HwBody(CloseInput(0)));
  }

  /** write() likewise: the input it waited for was closed, and its own reference is the last. */
  lemma LastInputUnderHardwareLock() returns (s: State)
    ensures Reachable(s) && |s.threads| == 2 && s.threads[0] == WrInCheck(0, 0, 0)
    ensures HwL in s.locks && s.locks[HwL] == 0
    ensures s.sh.inputs == [] && forall t :: 0 < t < |s.threads| ==> InOf(s.threads[t]).None?
  {
    hide Reachable;
    var sh0 := Recording();
    var sh1 := WriteWaits(sh0, 0, Idle);
    var write := WrInLock(0, 0, 0);
    var locks := FREE[OutL(0) := 0];
    Swap(sh1, 0, write, Idle, locks);
    InputClosesWhile(sh1, write, locks);
    var sh := sh1.(inputs := []);
    Swap(sh, 1, Idle, write, locks);
    WriteTakesInput(sh, 0, Idle);
    s := Two(sh, 0, WrInCheck(0, 0, 0), Idle, FREE[OutL(0) := 0][InL(0) := 0][HwL := 0]);
  }

  const INPUT_OPEN := BOOT.(ins := map[0 := NEW_IN], inputs := [0])
  const BOTH_IDLE := INPUT_OPEN.(outs := map[0 := NEW_OUT], output := Some(0))

  lemma BothOpened()
    ensures Reachable(Two(BOTH_IDLE, 0, Idle, Idle, FREE))
  {
    hide Reachable;
    InputOpened();
    OutputOpens(INPUT_OPEN);
  }

  lemma OutputOpens(sh: Shared)
    requires Reachable(Two(sh, 0, Idle, Idle, FREE)) && sh.output.None? && sh.outs == map[]
    ensures Reachable(Two(sh.(outs := map[0 := NEW_OUT], output := Some(0)), 0, Idle, Idle, FREE))
  {
    hide Reachable;
    Start(sh, 0, HwStart(OpenOutput), Idle, FREE);
    Take(sh, 0, HwStart(OpenOutput), Idle, FREE, HwL, HwBody(OpenOutput));
    Go(sh, 0, HwBody(OpenOutput), Idle, FREE[HwL := 0], GOOD, FREE);
  }

  /** read() wakes up and goes to wait for the registered output's lock. */
  lemma ReadEnters(sh: Shared)
    requires Reachable(Two(sh, 0, Idle, Idle, FREE)) && 0 in sh.ins && sh.ins[0].standby
    requires sh.output == Some(0) && 0 in sh.outs
    ensures Reachable(Two(sh, 0, RdHw(0), Idle, FREE[InL(0) := 0]))
  {
    hide Reachable;
    ReadTests(sh);
    Go(sh, 0, RdTest(0), Idle, FREE[InL(0) := 0], GOOD, FREE[InL(0) := 0]);
  }

  lemma ReadWaits(sh: Shared)
    requires Reachable(Two(sh, 0, RdHw(0), Idle, FREE[InL(0) := 0])) && 0 in sh.ins
    requires sh.output == Some(0) && 0 in sh.outs
    ensures Reachable(Two(sh, 0, RdOutLock(0, 0), Idle, FREE))
  {
    hide Reachable;
    Take(sh, 0, RdHw(0), Idle, FREE[InL(0) := 0], HwL, RdOutLoop(0, Some(0)));
    Go(sh, 0, RdOutLoop(0, Some(0)), Idle, FREE[InL(0) := 0][HwL := 0], GOOD, FREE);
  }

  lemma ReadTakesStreams(sh: Shared)
    requires Reachable(Two(sh, 0, RdOutLock(0, 0), Idle, FREE)) && 0 in sh.ins && 0 in sh.outs
    ensures Reachable(Two(sh, 0, RdHwLock(0, 0), Idle, FREE[OutL(0) := 0][InL(0) := 0]))
  {
    hide Reachable, Run;
    Take(sh, 0, RdOutLock(0, 0), Idle, FREE, OutL(0), RdInLock(0, 0));
    Take(sh, 0, RdInLock(0, 0), Idle, FREE[OutL(0) := 0], InL(0), RdHwLock(0, 0));
  }

  lemma ReadTakes(sh: Shared)
    requires Reachable(Two(sh, 0, RdOutLock(0, 0), Idle, FREE)) && 0 in sh.ins && 0 in sh.outs
    ensures Reachable(Two(sh, 0, RdCheck(0, 0), Idle, FREE[OutL(0) := 0][InL(0) := 0][HwL := 0]))
  {
    hide Reachable, Run;
    ReadTakesStreams(sh);
    Take(sh, 0, RdHwLock(0, 0), Idle, FREE[OutL(0) := 0][InL(0) := 0], HwL, RdCheck(0, 0));
  }

  lemma OutputClosesInRead(sh: Shared)
    requires Reachable(Two(sh, 1, Idle, RdOutLock(0, 0), FREE)) && sh.output == Some(0) && 0 in sh.outs
    ensures Reachable(Two(sh.(output := None), 1, Idle, RdOutLock(0, 0), FREE))
  {
    hide Reachable;
    OutputCloses(sh, RdOutLock(0, 0), FREE);
  }

  /** And read(), with the output it waited for. */
  lemma LastOutputInRead() returns (s: State)
    ensures Reachable(s) && |s.threads| == 2 && s.threads[0] == RdCheck(0, 0)
    ensures HwL in s.locks && s.locks[HwL] == 0
    ensures s.sh.output == None && forall t :: 0 < t < |s.threads| ==> OutOf(s.threads[t]).None?
  {
    hide Reachable;
    BothOpened();
    ReadEnters(BOTH_IDLE);
    ReadWaits(BOTH_IDLE);
    Swap(BOTH_IDLE, 0, RdOutLock(0, 0), Idle, FREE);
    OutputClosesInRead(BOTH_IDLE);
    var sh := BOTH_IDLE.(output := None);
    Swap(sh, 1, Idle, RdOutLock(0, 0), FREE);
    ReadTakes(sh);
    s := Two(sh, 0, RdCheck(0, 0), Idle, FREE[OutL(0) := 0][InL(0) := 0][HwL := 0]);
  }

  lemma SetModeTakesOutput(sh: Shared)
    requires Reachable(Two(sh, 0, SmOutLock(InCall, 0, 0), Idle, FREE)) && 0 in sh.outs
    ensures Reachable(Two(sh, 0, SmOutCheck(InCall, 0, 0), Idle, FREE[OutL(0) := 0][HwL := 0]))
  {
    hide Reachable, Run;
    Take(sh, 0, SmOutLock(InCall, 0, 0), Idle, FREE, OutL(0), SmOutHw(InCall, 0, 0));
    Take(sh, 0, SmOutHw(InCall, 0, 0), Idle, FREE[OutL(0) := 0], HwL, SmOutCheck(InCall, 0, 0));
  }

  lemma SetModeKeepsOutput(sh: Shared)
    requires Reachable(Two(sh, 0, SmOutLock(InCall, 0, 0), Idle, FREE)) && BothOpen(sh) && !sh.outs[0].standby
    ensures Reachable(Two(sh, 0, SmInLoop(InCall, Some(0), Some(0)), Idle, FREE[OutL(0) := 0][HwL := 0]))
  {
    hide Reachable;
    var locks := FREE[OutL(0) := 0][HwL := 0];
    SetModeTakesOutput(sh);
    Go(sh, 0, SmOutCheck(InCall, 0, 0), Idle, locks, GOOD, locks);
  }

  lemma SetModeLocksOutput(sh: Shared)
    requires Reachable(Two(sh, 0, SmOutLock(InCall, 0, 0), Idle, FREE)) && BothOpen(sh) && !sh.outs[0].standby
    ensures Reachable(Two(sh, 0, SmInLock(InCall, Some(0), 0, 0), Idle, FREE[OutL(0) := 0]))
  {
    hide Reachable;
    SetModeKeepsOutput(sh);
    Go(sh, 0, SmInLoop(InCall, Some(0), Some(0)), Idle, FREE[OutL(0) := 0][HwL := 0], GOOD, FREE[OutL(0) := 0]);
  }

  /** The output that setMode re-validated is no longer registered when setMode uses it: closing
    * it takes only the hardware lock, which setMode dropped again to wait for the input. */
  lemma UsedOutputUnregistered() returns (s: State)
    ensures Reachable(s) && |s.threads| == 2 && s.threads[0] == SmApply(Decide(InCall), Some(0), Some(0))
    ensures s.sh.output == None
  {
    hide Reachable;
    var sh0 := Playing();
    SetModeWaits(sh0);
    SetModeLocksOutput(sh0);
    var setMode := SmInLock(InCall, Some(0), 0, 0);
    var locks := FREE[OutL(0) := 0];
    Swap(sh0, 0, setMode, Idle, locks);
    OutputCloses(sh0, setMode, locks);
    var sh := sh0.(output := None);
    Swap(sh, 1, Idle, setMode, locks);
    SetModeProceeds(sh, Some(0), locks);
    s := Two(sh, 0, SmApply(Decide(InCall), Some(0), Some(0)), Idle, locks[InL(0) := 0][HwL := 0]);
  }
}
