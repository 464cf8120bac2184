/** What every run of the audio protocol guarantees, for any number of threads and streams and
  * every interleaving of their calls.
  */
module AudioTheorems {
  import opened Options
  import opened RefCounts
  import opened AudioResources
  import opened AudioProtocol
  import opened AudioLocks
  import opened AudioStandby
  import opened AudioHandles
  import opened AudioWakeLock

  ghost predicate Inv(s: State) {
    LocksOk(s) && StandbyInv(s) && ResourceInv(s) && WakeInv(s)
  }

  lemma BootInv(threads: nat)
    ensures Inv(Boot(threads))
  {
    var s := Boot(threads);
    assert OutPcms(s.sh.outs) == map[] && OutMixers(s.sh.outs) == map[] && InMixers(s.sh.ins) == map[];
    assert Holders(map[]) == {};
    forall t: nat | t < |s.threads| ensures s.threads[t] == Idle {}
  }

  lemma StepKeepsInv(s: State, t: nat, c: Choice)
    requires Inv(s) && Enabled(s, t, c)
    ensures Inv(Step(s, t, c))
  {
    hide LocksOk, StandbyInv, ResourceInv, WakeInv, Step;
    StepKeepsLocks(s, t, c);
    StepKeepsStandby(s, t, c);
    StepKeepsResources(s, t, c);
    StepKeepsWake(s, t, c);
  }

  /** The step that leads from one state of a run to the next. */
  lemma StepAt(run: seq<State>, k: nat) returns (t: nat, c: Choice)
    requires IsRun(run) && k + 1 < |run|
    ensures Enabled(run[k], t, c) && run[k + 1] == Step(run[k], t, c)
  {
    hide Step, Known;
    assert Follows(run[k], run[k + 1]);
    t, c :| Enabled(run[k], t, c) && run[k + 1] == Step(run[k], t, c);
  }

  /** The invariant holds in every state of every run. */
  lemma {:induction false} RunInv(run: seq<State>, k: nat)
    requires IsRun(run) && k < |run|
    ensures Inv(run[k])
  {
    hide Inv;
    if k == 0 {
      BootInv(|run[0].threads|);
    } else {
      RunInv(run, k - 1);
      var t, c := StepAt(run, k - 1);
      StepKeepsInv(run[k - 1], t, c);
    }
  }

  // ----- deadlock -----

  /** No reachable state has a cycle of threads each waiting for a lock the next one holds. */
  lemma NoDeadlock(run: seq<State>, k: nat, chain: seq<nat>)
    requires IsRun(run) && k < |run|
    requires WaitChain(run[k], chain) && |chain| >= 2
    ensures chain[0] != chain[|chain| - 1] && |chain| <= 4
  {
    RunInv(run, k);
    NoWaitCycle(run[k], chain);
  }

  /** While any thread is inside a call, some thread inside a call can take a step. */
  lemma Progress(run: seq<State>, k: nat, t: nat, c: Choice) returns (u: nat)
    requires IsRun(run) && k < |run|
    requires t < |run[k].threads| && run[k].threads[t] != Idle
    ensures u < |run[k].threads| && run[k].threads[u] != Idle && Enabled(run[k], u, c)
  {
    RunInv(run, k);
    u := SomeoneCanStep(run[k], t, c);
  }

  // ----- references and handles -----

  /** Whenever the hardware lock is free, each count is the number of streams that hold the
    * driver, plus one in call mode, and the driver is open exactly while the count is positive. */
  lemma ReferencesConserved(run: seq<State>, k: nat)
    requires IsRun(run) && k < |run|
    requires HwL !in run[k].locks && !run[k].sh.callOpenFailed
    ensures var sh := run[k].sh;
            && sh.hw.pcm.cnt == |PcmUsers(sh)| + One(sh.inCallAudioMode)
            && sh.hw.mixer.cnt == |OutMixerUsers(sh)| + |InMixerUsers(sh)| + One(sh.inCallAudioMode)
            && (sh.hw.pcm.handle.Some? <==> sh.hw.pcm.cnt > 0)
            && (sh.hw.mixer.handle.Some? <==> sh.hw.mixer.cnt > 0)
  {
    RunInv(run, k);
    UsersAreHolders(run[k].sh);
  }

  ghost function PcmUsers(sh: Shared): set<nat> { set o | o in sh.outs && sh.outs[o].pcm.Some? }
  ghost function OutMixerUsers(sh: Shared): set<nat> { set o | o in sh.outs && sh.outs[o].mixer.Some? }
  ghost function InMixerUsers(sh: Shared): set<nat> { set i | i in sh.ins && sh.ins[i].mixer.Some? }

  lemma UsersAreHolders(sh: Shared)
    ensures Holders(OutPcms(sh.outs)) == PcmUsers(sh)
    ensures Holders(OutMixers(sh.outs)) == OutMixerUsers(sh)
    ensures Holders(InMixers(sh.ins)) == InMixerUsers(sh)
  {}

  /** A stream never keeps a handle across a close: every PCM or mixer handle that an output
    * holds, and every mixer handle that an input holds, is the one now open. */
  lemma NoStaleHandle(run: seq<State>, k: nat)
    requires IsRun(run) && k < |run| && !run[k].sh.callOpenFailed
    ensures var sh := run[k].sh;
            && (forall o :: o in sh.outs && sh.outs[o].pcm.Some? ==> sh.outs[o].pcm == sh.hw.pcm.handle)
            && (forall o :: o in sh.outs && sh.outs[o].mixer.Some? ==> sh.outs[o].mixer == sh.hw.mixer.handle)
            && (forall i :: i in sh.ins && sh.ins[i].mixer.Some? ==> sh.ins[i].mixer == sh.hw.mixer.handle)
  {
    RunInv(run, k);
    var sh := run[k].sh;
    forall o | o in sh.outs
      ensures sh.outs[o].pcm.Some? ==> sh.outs[o].pcm == sh.hw.pcm.handle
      ensures sh.outs[o].mixer.Some? ==> sh.outs[o].mixer == sh.hw.mixer.handle
    {
      assert o in OutPcms(sh.outs) && o in OutMixers(sh.outs);
    }
    forall i | i in sh.ins
      ensures sh.ins[i].mixer.Some? ==> sh.ins[i].mixer == sh.hw.mixer.handle
    {
      assert i in InMixers(sh.ins);
    }
  }

  /** Whenever the hardware lock is free, a stream is in standby exactly when it holds no PCM,
    * and then it holds no mixer either. */
  lemma StandbyIsClosed(run: seq<State>, k: nat)
    requires IsRun(run) && k < |run|
    requires HwL !in run[k].locks && !run[k].sh.callOpenFailed
    ensures forall o :: o in run[k].sh.outs ==>
              var st := run[k].sh.outs[o]; (st.standby <==> st.pcm.None?) && (st.standby ==> st.mixer.None?)
    ensures forall i :: i in run[k].sh.ins ==>
              var st := run[k].sh.ins[i]; (st.standby <==> st.pcm.None?) && (st.standby ==> st.mixer.None?)
  {
    RunInv(run, k);
    assert HwPc(run[k]) == Idle;
    forall o: nat | o in run[k].sh.outs
      ensures OutStreamOk(run[k].sh.outs[o], false, false)
    {
      assert !OutOpening(Idle, o) && !OutCycling(Idle, o);
    }
    forall i: nat | i in run[k].sh.ins
      ensures InStreamOk(run[k].sh.ins[i], false)
    {
      assert !InCycling(Idle, i);
    }
  }

  /** The writer's lock keeps its stream from being cycled by a reader. */
  lemma PlayingIsOpen(s: State, t: nat)
    requires LocksOk(s) && t < |s.threads| && s.threads[t].WrPlay?
    requires PcOk(s.sh, s.threads[t]) && OutsOk(s.sh, HwPc(s))
    ensures s.threads[t].o in s.sh.outs && s.sh.outs[s.threads[t].o].pcm.Some?
  {
    var o := s.threads[t].o;
    if OutCycling(HwPc(s), o) {
      assert Held(HwPc(s)).out == Some(o) && Held(s.threads[t]).out == Some(o);
      MutualExclusion(s, t, s.locks[HwL]);
    }
  }

  /** pcm_write is only ever called on the PCM that is open, although the writer holds no
    * hardware lock at that point. */
  lemma WriteUsesOpenPcm(run: seq<State>, k: nat, t: nat)
    requires IsRun(run) && k < |run| && !run[k].sh.callOpenFailed
    requires t < |run[k].threads| && run[k].threads[t].WrPlay?
    ensures var sh := run[k].sh; var o := run[k].threads[t].o;
            o in sh.outs && sh.outs[o].pcm.Some? && sh.outs[o].pcm == sh.hw.pcm.handle
  {
    hide RefsOk;
    RunInv(run, k);
    NoStaleHandle(run, k);
    PlayingIsOpen(run[k], t);
  }

  // ----- the wake lock -----

  /** Output `o` is active, or a write() is waking it up. */
  ghost predicate Awake(s: State, o: nat) {
    o in s.sh.outs && (!s.sh.outs[o].standby || WakingUp(s, o))
  }

  /** One output at a time, however many were opened and closed before. */
  ghost predicate OneAwake(s: State) {
    forall o: nat, p: nat :: Awake(s, o) && Awake(s, p) ==> o == p
  }

  lemma AwakeHolds(s: State, o: nat)
    requires WakeInv(s) && o in s.sh.outs
    ensures Awake(s, o) <==> s.sh.outs[o].wakes > 0
  {
    assert Balanced(s.sh.outs[o], WakingUp(s, o));
  }

  lemma {:induction false} WakeLockFollows(run: seq<State>, k: nat)
    requires IsRun(run) && k < |run| && forall j :: 0 <= j < k ==> OneAwake(run[j])
    ensures Followed(run[k].sh)
  {
    if k > 0 {
      WakeLockFollows(run, k - 1);
      RunInv(run, k - 1);
      var s := run[k - 1];
      var t, c := StepAt(run, k - 1);
      hide Step, Enabled, ResourceInv, IsRun;
      assert OneAwake(s);
      forall o: nat | o in s.sh.outs ensures Awake(s, o) <==> s.sh.outs[o].wakes > 0 { AwakeHolds(s, o); }
      hide WakeInv, Awake;
      StepFollows(s, t, c);
    }
  }

  /** In every run with at most one output awake at a time, the wake lock is held exactly while an
    * output is active or a write() is waking one up. So it mirrors the standby flags, as the code
    * intends, exactly when no write() is between acquiring it and leaving standby. */
  lemma WakeLockExact(run: seq<State>, k: nat)
    requires IsRun(run) && k < |run| && forall j :: 0 <= j <= k ==> OneAwake(run[j])
    ensures var s := run[k];
            && (s.sh.wakeLock <==> exists o: nat :: Awake(s, o))
            && ((s.sh.wakeLock <==> exists o: nat :: o in s.sh.outs && !s.sh.outs[o].standby)
                <==> !exists o: nat :: o in s.sh.outs && WakingUp(s, o))
  {
    WakeLockFollows(run, k);
    RunInv(run, k);
    var s := run[k];
    assert OneAwake(s);
    hide ResourceInv, LocksOk, IsRun;
    forall o: nat | o in s.sh.outs ensures Awake(s, o) <==> s.sh.outs[o].wakes > 0 { AwakeHolds(s, o); }
    forall o: nat | o in s.sh.outs && WakingUp(s, o) ensures s.sh.outs[o].standby { WakingInStandby(s, o); }
    hide WakeInv, StandbyInv, WakingUp;
  }

  lemma WakingInStandby(s: State, o: nat)
    requires StandbyInv(s) && o in s.sh.outs && WakingUp(s, o)
    ensures s.sh.outs[o].standby
  {
    assert PcOk(s.sh, s.threads[s.locks[OutL(o)]]);
  }

  // ----- the retry loops -----

  /** Thread `t` owns the lock. */
  predicate Owns(s: State, t: nat, l: Lock) { l in s.locks && s.locks[l] == t }

  /** setMode leaves its first retry loop with an output stream only if it holds that stream's
    * lock and the hardware lock, and the stream is still registered and active, although the
    * hardware lock was dropped in between. */
  lemma SetModeOutputRevalidated(run: seq<State>, k: nat, t: nat)
    requires IsRun(run) && k + 1 < |run| && t < |run[k].threads|
    requires run[k].threads[t].SmOutCheck? && run[k + 1].threads[t].SmInLoop?
    ensures var s := run[k + 1]; var o := run[k].threads[t].o;
            && s.threads[t].spOut == Some(o)
            && Owns(s, t, OutL(o)) && Owns(s, t, HwL)
            && s.sh.output == Some(o) && o in s.sh.outs && !s.sh.outs[o].standby
  {
    RunInv(run, k + 1);
    OnlyMover(run, k, t);
    var c :| Enabled(run[k], t, c) && run[k + 1] == Step(run[k], t, c);
    OutCheckPassed(run[k], t, c);
    hide ResourceInv, WakeInv, Step, Enabled;
    HoldsOutput(run[k + 1], t);
  }

  lemma OutCheckPassed(s: State, t: nat, c: Choice)
    requires Enabled(s, t, c) && s.threads[t].SmOutCheck? && Step(s, t, c).threads[t].SmInLoop?
    ensures Step(s, t, c).threads[t].spOut == Some(s.threads[t].o) == Step(s, t, c).sh.output
  {}

  lemma HoldsOutput(s: State, t: nat)
    requires LocksOk(s) && StandbyInv(s) && t < |s.threads|
    requires s.threads[t].SmInLoop? && s.threads[t].spOut.Some?
    ensures var o := s.threads[t].spOut.value;
            && Owns(s, t, OutL(o)) && Owns(s, t, HwL)
            && o in s.sh.outs && !s.sh.outs[o].standby
  {
    var pc := s.threads[t];
    assert PcOk(s.sh, pc);
    assert Holds(pc, OutL(pc.spOut.value)) && Holds(pc, HwL);
  }

  /** A program counter that changed was changed by its own thread's step. */
  lemma OnlyMover(run: seq<State>, k: nat, t: nat)
    requires IsRun(run) && k + 1 < |run| && t < |run[k].threads|
    requires run[k].threads[t] != run[k + 1].threads[t]
    ensures exists c :: Enabled(run[k], t, c) && run[k + 1] == Step(run[k], t, c)
  {
    assert Follows(run[k], run[k + 1]);
    var u: nat, c :| Enabled(run[k], u, c) && run[k + 1] == Step(run[k], u, c);
  }

  /** setMode and write() reach the code that uses the input stream only with its lock and the
    * hardware lock held, and then it is the first registered, active input; if they found none,
    * then every registered input is in standby. */
  lemma InputRevalidated(run: seq<State>, k: nat, t: nat)
    requires IsRun(run) && k < |run| && t < |run[k].threads|
    ensures var s := run[k]; var pc := s.threads[t];
            pc.SmApply? && pc.phase.Decide? ==>
              && Owns(s, t, HwL)
              && pc.spIn == ActiveInput(s.sh)
              && (pc.spIn.Some? ==> Owns(s, t, InL(pc.spIn.value)))
              && OutActive(s.sh, pc.spOut)
              && (pc.spOut.Some? ==> Owns(s, t, OutL(pc.spOut.value)))
    ensures var s := run[k]; var pc := s.threads[t];
            pc.WrOpenOut? ==>
              && Owns(s, t, HwL) && Owns(s, t, OutL(pc.o))
              && pc.spIn == ActiveInput(s.sh)
              && (pc.spIn.Some? ==> Owns(s, t, InL(pc.spIn.value)) && InActive(s.sh, pc.spIn))
  {
    hide ResourceInv, WakeInv;
    RunInv(run, k);
    var s := run[k];
    var pc := s.threads[t];
    assert PcOk(s.sh, pc);
    if (pc.SmApply? && pc.phase.Decide?) || pc.WrOpenOut? {
      assert Holds(pc, HwL);
      if pc.spIn.Some? { assert Holds(pc, InL(pc.spIn.value)); }
      if pc.SmApply? && pc.spOut.Some? { assert Holds(pc, OutL(pc.spOut.value)); }
      if pc.WrOpenOut? { assert Holds(pc, OutL(pc.o)); }
    }
  }

  // ----- entering a call -----

  /** setMode's part with all locks held, from its decision to enter call mode to its end. */
  function EnterCall(sh: Shared, spOut: Option<nat>, spIn: Option<nat>, pcmReady: bool, mixerReady: bool): Shared
    requires spOut.Some? ==> spOut.value in sh.outs
    requires spIn.Some? ==> spIn.value in sh.ins
  {
    CallOpenMixer(CallOpenPcm(Quieted(sh, spOut, spIn), pcmReady), mixerReady).(inCallAudioMode := true)
  }

  /** The streams that setMode has locked are put into standby. */
  function Quieted(sh: Shared, spOut: Option<nat>, spIn: Option<nat>): Shared
    requires spOut.Some? ==> spOut.value in sh.outs
    requires spIn.Some? ==> spIn.value in sh.ins
  {
    var sh1 := if spOut.Some? then StandbyOutOf(sh, spOut.value) else sh;
    if spIn.Some? then StandbyInOf(sh1, spIn.value) else sh1
  }

  /** Whether a driver that setMode opens for the call will be open: if it can be opened, or some
    * stream still holds it after setMode has put the streams it locked into standby. */
  predicate PcmWillOpen(sh: Shared, spOut: Option<nat>, ready: bool) { ready || PcmHeldElsewhere(sh, spOut) }

  predicate MixerWillOpen(sh: Shared, spOut: Option<nat>, spIn: Option<nat>, ready: bool) {
    ready || MixerHeldElsewhere(sh, spOut, spIn)
  }

  /** A stream other than those that setMode has locked holds the driver. */
  predicate PcmHeldElsewhere(sh: Shared, spOut: Option<nat>) {
    exists o :: o in sh.outs && Some(o) != spOut && sh.outs[o].pcm.Some?
  }

  predicate MixerHeldElsewhere(sh: Shared, spOut: Option<nat>, spIn: Option<nat>) {
    || (exists o :: o in sh.outs && Some(o) != spOut && sh.outs[o].mixer.Some?)
    || (exists i :: i in sh.ins && Some(i) != spIn && sh.ins[i].mixer.Some?)
  }

  /** After entering a call the counts are right exactly if both drivers could be opened, which
    * setMode does not check. */
  lemma EnterCallConserves(sh: Shared, spOut: Option<nat>, spIn: Option<nat>, pcmReady: bool, mixerReady: bool)
    requires RefsOk(sh) && !sh.callPcm && !sh.callMixer
    requires spOut.Some? ==> spOut.value in sh.outs
    requires spIn.Some? ==> spIn.value in sh.ins
    ensures var sh' := EnterCall(sh, spOut, spIn, pcmReady, mixerReady);
            (sh'.hw.pcm.cnt == |PcmUsers(sh')| + One(sh'.inCallAudioMode)
             && sh'.hw.mixer.cnt == |OutMixerUsers(sh')| + |InMixerUsers(sh')| + One(sh'.inCallAudioMode))
            <==> PcmWillOpen(sh, spOut, pcmReady) && MixerWillOpen(sh, spOut, spIn, mixerReady)
  {
    hide RefsOk, OutDoStandby, InDoStandby, OpenPcm, OpenMixer;
    var sh1 := if spOut.Some? then StandbyOutOf(sh, spOut.value) else sh;
    if spOut.Some? { StandbyOutKeepsRefs(sh, spOut.value); }
    var sh2 := if spIn.Some? then StandbyInOf(sh1, spIn.value) else sh1;
    if spIn.Some? { CloseInKeepsRefs(sh1, spIn.value); }
    CallOpensKeepRefs(sh2, pcmReady);
    var sh3 := CallOpenPcm(sh2, pcmReady);
    CallOpensKeepRefs(sh3, mixerReady);
    var sh4 := CallOpenMixer(sh3, mixerReady);
    UsersAreHolders(sh4);
    assert RefsOk(sh4);
    CountsOf(sh4);
    OpensSucceed(sh2, pcmReady, mixerReady);
    StillHeld(sh, spOut, spIn);
  }

  /** setMode's opens succeed exactly if the driver is ready or held. */
  lemma OpensSucceed(sh: Shared, pcmReady: bool, mixerReady: bool)
    requires RefsOk(sh) && !sh.callPcm && !sh.callMixer
    ensures var sh' := CallOpenMixer(CallOpenPcm(sh, pcmReady), mixerReady);
            && (sh'.callPcm <==> pcmReady || PcmUsers(sh) != {})
            && (sh'.callMixer <==> mixerReady || OutMixerUsers(sh) != {} || InMixerUsers(sh) != {})
  {
    UsersAreHolders(sh);
    CountsOf(sh);
  }

  /** The streams that setMode put into standby hold nothing; the others are as before. */
  lemma StillHeld(sh: Shared, spOut: Option<nat>, spIn: Option<nat>)
    requires spOut.Some? ==> spOut.value in sh.outs
    requires spIn.Some? ==> spIn.value in sh.ins
    ensures var sh1 := if spOut.Some? then StandbyOutOf(sh, spOut.value) else sh;
            var sh2 := if spIn.Some? then StandbyInOf(sh1, spIn.value) else sh1;
            && (PcmUsers(sh2) != {} <==> exists o :: o in sh.outs && Some(o) != spOut && sh.outs[o].pcm.Some?)
            && (OutMixerUsers(sh2) != {} <==> exists o :: o in sh.outs && Some(o) != spOut && sh.outs[o].mixer.Some?)
            && (InMixerUsers(sh2) != {} <==> exists i :: i in sh.ins && Some(i) != spIn && sh.ins[i].mixer.Some?)
  {
    var sh1 := if spOut.Some? then StandbyOutOf(sh, spOut.value) else sh;
    var sh2 := if spIn.Some? then StandbyInOf(sh1, spIn.value) else sh1;
    forall o | o in sh.outs
      ensures o in sh2.outs && (if Some(o) == spOut then sh2.outs[o].pcm.None? && sh2.outs[o].mixer.None?
                                else sh2.outs[o] == sh.outs[o]) {}
    forall i | i in sh.ins
      ensures i in sh2.ins && (if Some(i) == spIn then sh2.ins[i].mixer.None? else sh2.ins[i] == sh.ins[i]) {}
    assert sh2.outs.Keys == sh.outs.Keys && sh2.ins.Keys == sh.ins.Keys;
    NonEmpty(PcmUsers(sh2));
    NonEmpty(OutMixerUsers(sh2));
    NonEmpty(InMixerUsers(sh2));
    hide StandbyOutOf, StandbyInOf;
    assert forall o :: o in PcmUsers(sh2) <==> o in sh.outs && Some(o) != spOut && sh.outs[o].pcm.Some?;
    assert forall o :: o in OutMixerUsers(sh2) <==> o in sh.outs && Some(o) != spOut && sh.outs[o].mixer.Some?;
    assert forall i :: i in InMixerUsers(sh2) <==> i in sh.ins && Some(i) != spIn && sh.ins[i].mixer.Some?;
  }

  lemma NonEmpty(s: set<nat>)
    ensures s != {} <==> exists x :: x in s
  {}

  lemma CountsOf(sh: Shared)
    requires RefsOk(sh)
    ensures sh.hw.pcm.cnt == |Holders(OutPcms(sh.outs))| + One(sh.callPcm)
    ensures sh.hw.mixer.cnt == |Holders(OutMixers(sh.outs))| + |Holders(InMixers(sh.ins))| + One(sh.callMixer)
  {}

  /** Entering a call forces the registered output into standby exactly if setMode locked that
    * very output, or it was in standby (or absent) already. The retry loop over the inputs can
    * make both fail. */
  lemma EnterCallForcesStandby(sh: Shared, spOut: Option<nat>, spIn: Option<nat>, pcmReady: bool, mixerReady: bool)
    requires Registered(sh)
    requires spOut.Some? ==> spOut.value in sh.outs
    requires spIn == ActiveInput(sh)
    ensures var sh' := EnterCall(sh, spOut, spIn, pcmReady, mixerReady);
            (sh'.output.Some? ==> sh'.outs[sh'.output.value].standby)
            <==> (sh.output.Some? ==> spOut == sh.output || sh.outs[sh.output.value].standby)
  {
    var sh1 := if spOut.Some? then StandbyOutOf(sh, spOut.value) else sh;
    var sh2 := if spIn.Some? then StandbyInOf(sh1, spIn.value) else sh1;
    assert sh1.output == sh.output && sh1.outs.Keys == sh.outs.Keys && sh1.ins == sh.ins;
    assert sh2.output == sh.output && sh2.outs == sh1.outs;
    var sh' := EnterCall(sh, spOut, spIn, pcmReady, mixerReady);
    assert sh'.output == sh.output && sh'.outs == sh1.outs;
  }
}
