/** What write() and read() do to a stream of the other direction, what they open, and the wait for an
  * input: the stream was never out of use in between.
  */
module AudioCycles {
  import opened Options
  import opened RefCounts
  import opened AudioResources
  import opened AudioProtocol
  import opened AudioLocks
  import opened AudioStandby
  import opened AudioHandles
  import opened AudioTheorems
  import opened AudioRuns
  import opened AudioCalls

  // ----- the wait for an input -----

  predicate InWait(pc: PC) {
    pc.SmInLock? || pc.SmInHw? || pc.SmInCheck? || pc.WrInLock? || pc.WrInHw? || pc.WrInCheck?
  }

  /** About to use an input that it has waited for. */
  predicate Uses(pc: PC, i: nat) {
    || (pc.SmApply? && pc.phase.Decide? && pc.spIn == Some(i))
    || (pc.WrOpenOut? && pc.spIn == Some(i))
  }

  /** The wait began with this counter, and ends with the same. */
  lemma WaitStep(s: State, t: nat, c: Choice)
    requires Enabled(s, t, c) && InWait(s.threads[t])
    ensures var pc, pc' := s.threads[t], Step(s, t, c).threads[t];
            && (InWait(pc') ==> pc'.i == pc.i && pc'.cnt == pc.cnt)
            && (forall i :: Uses(pc', i) ==>
                  i == pc.i && i in s.sh.ins && pc.cnt == s.sh.ins[i].standbyCnt
                  && i in Step(s, t, c).sh.ins && Step(s, t, c).sh.ins[i].standbyCnt == pc.cnt)
  {
    StepEffect(s, t, c);
    hide Step, FirstActive;
  }

  lemma WaitBegins(s: State, t: nat, c: Choice, i: nat)
    requires Enabled(s, t, c) && AwaitedIn(s.threads[t]) == Some(i)
    ensures var pc', sh' := Step(s, t, c).threads[t], Step(s, t, c).sh;
            i in s.sh.ins && sh' == s.sh && InWait(pc') && pc'.i == i && pc'.cnt == s.sh.ins[i].standbyCnt
  {
    StepEffect(s, t, c);
    hide Step, FirstActive;
  }

  lemma {:induction false} WaitKeepsCount(run: seq<State>, a: nat, b: nat, t: nat)
    requires IsRun(run) && a <= b < |run|
    requires forall j :: a <= j <= b ==> t < |run[j].threads| && InWait(run[j].threads[t])
    ensures InWait(run[a].threads[t]) && InWait(run[b].threads[t])
    ensures run[b].threads[t].i == run[a].threads[t].i && run[b].threads[t].cnt == run[a].threads[t].cnt
    decreases b
  {
    hide IsRun, Step, Enabled;
    assert InWait(run[a].threads[t]) && InWait(run[b].threads[t]);
    if a < b {
      WaitKeepsCount(run, a, b - 1, t);
      var own, c := OwnOrOther(run, b - 1, t);
      if own { WaitStep(run[b - 1], t, c); }
    }
  }

  /** The input is active and has not been in standby since. */
  predicate StillActive(run: seq<State>, a: nat, j: nat, i: nat)
    requires a < |run| && j < |run| && i in run[a].sh.ins
  {
    var sh := run[j].sh;
    i in sh.ins && !sh.ins[i].standby && sh.ins[i].standbyCnt == run[a].sh.ins[i].standbyCnt
  }

  /** A stream whose counter is the same at two points was active all the time if it was at the first. */
  lemma {:induction false} ActiveAlong(run: seq<State>, a: nat, b: nat, i: nat)
    requires IsRun(run) && a <= b < |run| && i in run[a].sh.ins && !run[a].sh.ins[i].standby
    requires i in run[b].sh.ins && run[b].sh.ins[i].standbyCnt == run[a].sh.ins[i].standbyCnt
    ensures forall j :: a <= j <= b ==> StillActive(run, a, j, i)
    decreases b
  {
    hide IsRun, Step, Enabled, StandbyInv, LocksOk;
    if a < b {
      CountersAlong(run, a, b - 1);
      CountersAlong(run, b - 1, b);
      ActiveAlong(run, a, b - 1, i);
      StandbyAt(run, b - 1);
      var t, c := StepAt(run, b - 1);
      CountersGrow(run[b - 1], t, c);
      assert StillActive(run, a, b - 1, i);
    }
  }

  /** setMode and write() use an input that they had to wait for only if it has not been in standby since
    * the wait began. */
  lemma InputUninterrupted(run: seq<State>, a: nat, b: nat, t: nat, c: Choice, i: nat)
    requires IsRun(run) && a + 1 < b < |run| && Moves(run, a, t, c) && AwaitedIn(run[a].threads[t]) == Some(i)
    requires forall j :: a < j <= b ==> t < |run[j].threads|
    requires (forall j :: a < j < b ==> InWait(run[j].threads[t])) && Uses(run[b].threads[t], i)
    ensures i in run[a].sh.ins
    ensures forall j :: a <= j <= b ==> StillActive(run, a, j, i)
  {
    hide IsRun, Step, Enabled, StandbyInv, LocksOk;
    StandbyAt(run, a);
    AwaitedActive(run[a], t, i);
    WaitBegins(run[a], t, c, i);
    WaitKeepsCount(run, a + 1, b - 1, t);
    var own, c' := OwnOrOther(run, b - 1, t);
    WaitStep(run[b - 1], t, c');
    ActiveAlong(run, a, b, i);
  }

  lemma AwaitedActive(s: State, t: nat, i: nat)
    requires StandbyInv(s) && t < |s.threads| && AwaitedIn(s.threads[t]) == Some(i)
    ensures i in s.sh.ins && !s.sh.ins[i].standby
  {
    assert PcOk(s.sh, s.threads[t]);
  }

  // ----- read() cycles the output -----

  /** The handles apart. */
  function Bare(st: OutStream): OutStream { st.(pcm := None, mixer := None) }

  /** Output `o`, active before, was closed and opened again, or put into standby because that failed;
    * without another holder, the PCM is a new one. Nothing else of the streams changed. */
  ghost predicate OutReopened(sh: Shared, o: nat, sh': Shared)
    requires o in sh.outs
  {
    && sh'.output == sh.output && sh'.inputs == sh.inputs && sh'.ins == sh.ins
    && o in sh'.outs && sh'.outs == sh.outs[o := sh'.outs[o]]
    && var st, st' := sh.outs[o], sh'.outs[o];
       if st'.pcm.Some? then
         Bare(st') == Bare(st) && (sh.hw.pcm.cnt == 1 && st.pcm.Some? ==> st'.pcm.value >= sh.hw.serial)
       else OutQuiet(sh', o, st.standbyCnt)
  }

  /** How far read() has come with the output. */
  ghost predicate Cycling(sh0: Shared, i: nat, o: nat, pc: PC, sh: Shared)
    requires o in sh0.outs
  {
    match pc
    case RdCheck(_, _) => pc == RdCheck(i, o) && sh == sh0
    case RdCycle(_, _) => pc == RdCycle(i, o) && sh == sh0
    case RdReopen(_, _) => pc == RdReopen(i, o) && !sh0.outs[o].standby && sh == CloseOutOf(sh0, o)
    case RdOpen(_) => pc == RdOpen(i) && if sh0.outs[o].standby then sh == sh0 else OutReopened(sh0, o, sh)
    case _ => false
  }

  lemma CyclingNext(sh0: Shared, i: nat, o: nat, pc: PC, sh: Shared, c: Choice)
    requires o in sh0.outs && sh0.output == Some(o) && Known(sh, pc) && Cycling(sh0, i, o, pc, sh) && !pc.RdOpen?
    ensures Cycling(sh0, i, o, RunRead(sh, pc, c).pc, RunRead(sh, pc, c).sh)
  {
    hide OutReopened;
    if pc.RdReopen? { Reopens(sh0, o, c); }
  }

  lemma Reopens(sh: Shared, o: nat, c: Choice)
    requires o in sh.outs && !sh.outs[o].standby
    ensures var sh1 := OpenOutOf(CloseOutOf(sh, o), o, c.pcmReady, c.mixerReady);
            OutReopened(sh, o, if sh1.outs[o].pcm.Some? then sh1 else StandbyOutOf(sh1, o))
  {
    var sh1 := OpenOutOf(CloseOutOf(sh, o), o, c.pcmReady, c.mixerReady);
    assert sh1.outs == sh.outs[o := sh1.outs[o]];
    if sh1.outs[o].pcm.None? {
      var sh2 := StandbyOutOf(sh1, o);
      assert sh2.outs == sh.outs[o := sh2.outs[o]];
    }
  }

  lemma CyclingStep(sh0: Shared, i: nat, o: nat, s: State, t: nat, own: bool, u: nat, c: Choice)
    requires LocksOk(s) && StandbyInv(s) && Enabled(s, u, c) && t < |s.threads| && own == (u == t)
    requires o in sh0.outs && sh0.output == Some(o) && Cycling(sh0, i, o, s.threads[t], s.sh) && !s.threads[t].RdOpen?
    ensures Cycling(sh0, i, o, Step(s, u, c).threads[t], Step(s, u, c).sh)
  {
    var pc := s.threads[t];
    assert IsRead(pc) && Wants(pc).None? && Held(pc).hw;
    StepEffect(s, u, c);
    if own {
      RunIsIn(s.sh, pc, c);
      CyclingNext(sh0, i, o, pc, s.sh, c);
    } else {
      Undisturbed(s, t, u, c);
    }
    hide Step, Run, RunRead, Cycling;
  }

  /** read() that wakes an input up while an output is registered: an active output is closed and opened
    * again before the input is opened, an output in standby is left alone. */
  lemma {:induction false} OutputCycled(run: seq<State>, a: nat, b: nat, t: nat, i: nat, o: nat)
    requires IsRun(run) && a <= b < |run| && t < |run[a].threads| && run[a].threads[t] == RdCheck(i, o)
    requires o in run[a].sh.outs && run[a].sh.output == Some(o)
    requires forall j :: a <= j <= b ==> t < |run[j].threads| && (j < b ==> !run[j].threads[t].RdOpen?)
    ensures Cycling(run[a].sh, i, o, run[b].threads[t], run[b].sh)
    decreases b
  {
    hide IsRun, Step, Enabled, StandbyInv, LocksOk, Cycling;
    if a == b {
      CyclingBegins(run[a].sh, i, o);
    } else {
      OutputCycled(run, a, b - 1, t, i, o);
      StandbyAt(run, b - 1);
      var u, c := StepAt(run, b - 1);
      CyclingStep(run[a].sh, i, o, run[b - 1], t, u == t, u, c);
    }
  }

  lemma CyclingBegins(sh: Shared, i: nat, o: nat)
    requires o in sh.outs
    ensures Cycling(sh, i, o, RdCheck(i, o), sh)
  {}

  // ----- write() cycles the input -----

  function BareIn(st: InStream): InStream { st.(pcm := None, mixer := None) }

  /** Only the handles of output `o`, and input `i`, have changed, and no handle is older. */
  ghost predicate OnlyPair(sh0: Shared, o: nat, i: nat, sh: Shared)
    requires o in sh0.outs && i in sh0.ins
  {
    && o in sh.outs && sh.outs == sh0.outs[o := sh.outs[o]] && Bare(sh.outs[o]) == Bare(sh0.outs[o])
    && i in sh.ins && sh.ins == sh0.ins[i := sh.ins[i]]
    && sh.hw.serial >= sh0.hw.serial
  }

  /** How far write() has come with the input that it has locked: it is closed, and when the output has been
    * opened, opened again, or put into standby because that failed. */
  ghost predicate Reopening(sh0: Shared, o: nat, i: nat, pc: PC, sh: Shared)
    requires o in sh0.outs && i in sh0.ins
  {
    match pc
    case WrOpenOut(_, _) => pc == WrOpenOut(o, Some(i)) && OnlyPair(sh0, o, i, sh) && sh.ins[i] == BareIn(sh0.ins[i])
    case WrOpenIn(_, _) => pc == WrOpenIn(o, Some(i)) && OnlyPair(sh0, o, i, sh) && sh.ins[i] == BareIn(sh0.ins[i])
    case WrFinish(_) =>
      && pc == WrFinish(o) && OnlyPair(sh0, o, i, sh)
      && if sh.ins[i].pcm.Some? then
           BareIn(sh.ins[i]) == BareIn(sh0.ins[i]) && sh.ins[i].pcm.value >= sh0.hw.serial
         else InQuiet(sh, i, sh0.ins[i].standbyCnt)
    case _ => false
  }

  lemma ReopeningNext(sh0: Shared, o: nat, i: nat, pc: PC, sh: Shared, c: Choice)
    requires o in sh0.outs && i in sh0.ins && Known(sh, pc) && Reopening(sh0, o, i, pc, sh) && !pc.WrFinish?
    ensures Reopening(sh0, o, i, RunWrite(sh, pc, c).pc, RunWrite(sh, pc, c).sh)
  {
    if pc.WrOpenOut? {
      OutputOpened(sh0, o, i, sh, c);
      hide Reopening, OpenOutOf, OpenInOf, StandbyInOf, OnlyPair;
    } else {
      InputOpened(sh0, o, i, sh, c);
      hide Reopening, OpenOutOf, OpenInOf, StandbyInOf, OnlyPair;
    }
  }

  lemma OutputOpened(sh0: Shared, o: nat, i: nat, sh: Shared, c: Choice)
    requires o in sh0.outs && i in sh0.ins && o in sh.outs && Reopening(sh0, o, i, WrOpenOut(o, Some(i)), sh)
    ensures Reopening(sh0, o, i, WrOpenIn(o, Some(i)), OpenOutOf(sh, o, c.pcmReady, c.mixerReady))
  {
    var sh' := OpenOutOf(sh, o, c.pcmReady, c.mixerReady);
    assert sh'.outs == sh0.outs[o := sh'.outs[o]];
  }

  lemma InputOpened(sh0: Shared, o: nat, i: nat, sh: Shared, c: Choice)
    requires o in sh0.outs && i in sh0.ins && i in sh.ins && Reopening(sh0, o, i, WrOpenIn(o, Some(i)), sh)
    ensures var sh1 := OpenInOf(sh, i, c.pcmReady, c.mixerReady);
            Reopening(sh0, o, i, WrFinish(o), if c.pcmReady then sh1 else StandbyInOf(sh1, i))
  {
    var sh1 := OpenInOf(sh, i, c.pcmReady, c.mixerReady);
    var sh' := if c.pcmReady then sh1 else StandbyInOf(sh1, i);
    assert sh'.ins == sh0.ins[i := sh'.ins[i]];
  }

  lemma ReopeningStep(sh0: Shared, o: nat, i: nat, s: State, t: nat, u: nat, c: Choice)
    requires LocksOk(s) && StandbyInv(s) && Enabled(s, u, c) && t < |s.threads|
    requires o in sh0.outs && i in sh0.ins && Reopening(sh0, o, i, s.threads[t], s.sh) && !s.threads[t].WrFinish?
    ensures Reopening(sh0, o, i, Step(s, u, c).threads[t], Step(s, u, c).sh)
  {
    var pc := s.threads[t];
    assert IsWrite(pc) && Wants(pc).None? && Held(pc).hw;
    StepEffect(s, u, c);
    if u == t {
      RunIsOut(s.sh, pc, c);
      ReopeningNext(sh0, o, i, pc, s.sh, c);
    } else {
      Undisturbed(s, t, u, c);
    }
    hide Step, Run, RunWrite, Reopening;
  }

  /** write() that wakes an output up while an input is active: from the check that passes on, the input is
    * closed, and when the output has been opened, opened again with a new PCM, or put into standby. */
  lemma {:induction false} InputCycled(run: seq<State>, a: nat, b: nat, t: nat, c: Choice)
    requires IsRun(run) && a < b < |run| && Moves(run, a, t, c) && run[a].threads[t].WrInCheck?
    requires t < |run[a + 1].threads| && run[a + 1].threads[t].WrOpenOut?
    requires forall j :: a < j <= b ==> t < |run[j].threads| && (j < b ==> !run[j].threads[t].WrFinish?)
    ensures var pc, sh := run[a].threads[t], run[a].sh;
            && pc.o in sh.outs && pc.i in sh.ins && Reopening(sh, pc.o, pc.i, run[b].threads[t], run[b].sh)
    decreases b
  {
    hide IsRun, Step, Enabled, StandbyInv, LocksOk, Reopening;
    if b == a + 1 {
      ReopeningBegins(run[a], t, c);
    } else {
      InputCycled(run, a, b - 1, t, c);
      StandbyAt(run, b - 1);
      var u, c' := StepAt(run, b - 1);
      ReopeningStep(run[a].sh, run[a].threads[t].o, run[a].threads[t].i, run[b - 1], t, u, c');
    }
  }

  lemma ReopeningBegins(s: State, t: nat, c: Choice)
    requires Enabled(s, t, c) && s.threads[t].WrInCheck? && Step(s, t, c).threads[t].WrOpenOut?
    ensures var pc, s' := s.threads[t], Step(s, t, c);
            && pc.o in s.sh.outs && pc.i in s.sh.ins
            && Reopening(s.sh, pc.o, pc.i, s'.threads[t], s'.sh)
  {
    StepEffect(s, t, c);
    hide Step, FirstActive;
    var pc := s.threads[t];
    assert s.sh.outs[pc.o := s.sh.outs[pc.o]] == s.sh.outs;
  }

  // ----- what is opened -----

  function OpensOut(pc: PC): Option<nat> { if pc.WrOpenOut? || pc.RdReopen? then Some(pc.o) else None }

  function OpensIn(pc: PC): Option<nat> {
    if pc.RdOpen? then Some(pc.i) else if pc.WrOpenIn? then pc.spIn else None
  }

  /** Wherever write() and read() open a stream: an output's PCM is open afterwards exactly if it can be opened
    * or somebody else holds it, an input's exactly if it can be opened; and with the PCM, the mixer, exactly if
    * it can be opened or somebody else holds it. */
  lemma StreamsOpen(run: seq<State>, a: nat, t: nat, c: Choice)
    requires IsRun(run) && Moves(run, a, t, c) && !run[a].sh.callOpenFailed
    ensures var sh, sh', pc := run[a].sh, run[a + 1].sh, run[a].threads[t];
            && (OpensOut(pc).Some? ==>
                  var o := OpensOut(pc).value;
                  && o in sh'.outs
                  && (sh'.outs[o].pcm.Some? <==> c.pcmReady || sh.hw.pcm.cnt > 0)
                  && (sh'.outs[o].pcm.Some? ==> (sh'.outs[o].mixer.Some? <==> c.mixerReady || sh.hw.mixer.cnt > 0)))
            && (OpensIn(pc).Some? ==>
                  var i := OpensIn(pc).value;
                  && i in sh'.ins
                  && (sh'.ins[i].pcm.Some? <==> c.pcmReady)
                  && (sh'.ins[i].pcm.Some? ==> (sh'.ins[i].mixer.Some? <==> c.mixerReady || sh.hw.mixer.cnt > 0)))
  {
    RunInv(run, a);
    OpeningStep(run[a], t, c);
  }

  lemma OpeningStep(s: State, t: nat, c: Choice)
    requires LocksOk(s) && StandbyInv(s) && ResourceInv(s) && !s.sh.callOpenFailed && Enabled(s, t, c)
    ensures var sh, sh', pc := s.sh, Step(s, t, c).sh, s.threads[t];
            && (OpensOut(pc).Some? ==>
                  var o := OpensOut(pc).value;
                  && o in sh'.outs
                  && (sh'.outs[o].pcm.Some? <==> c.pcmReady || sh.hw.pcm.cnt > 0)
                  && (sh'.outs[o].pcm.Some? ==> (sh'.outs[o].mixer.Some? <==> c.mixerReady || sh.hw.mixer.cnt > 0)))
            && (OpensIn(pc).Some? ==>
                  var i := OpensIn(pc).value;
                  && i in sh'.ins
                  && (sh'.ins[i].pcm.Some? <==> c.pcmReady)
                  && (sh'.ins[i].pcm.Some? ==> (sh'.ins[i].mixer.Some? <==> c.mixerReady || sh.hw.mixer.cnt > 0)))
  {
    var pc := s.threads[t];
    if OpensOut(pc).Some? || OpensIn(pc).Some? {
      OpenerReady(s, t);
      StepEffect(s, t, c);
      hide Step, Run, RefsOk, ReadyAt, Known, ResourceInv, StandbyInv, LocksOk, Wants;
      OneKind(pc);
      if OpensOut(pc).Some? {
        RunOpensOut(s.sh, pc, c);
      } else {
        RunOpensIn(s.sh, pc, c);
      }
    }
  }

  lemma OneKind(pc: PC)
    ensures OpensOut(pc).None? || OpensIn(pc).None?
  {}

  lemma OpenerReady(s: State, t: nat)
    requires LocksOk(s) && StandbyInv(s) && ResourceInv(s) && !s.sh.callOpenFailed && t < |s.threads|
    requires OpensOut(s.threads[t]).Some? || OpensIn(s.threads[t]).Some?
    ensures Known(s.sh, s.threads[t]) && ReadyAt(s.sh, s.threads[t]) && RefsOk(s.sh)
    ensures Wants(s.threads[t]).None? && s.threads[t] != Idle
  {
    var pc := s.threads[t];
    assert Holds(pc, HwL);
    assert HwPc(s) == pc && PcOk(s.sh, pc) && Known(s.sh, pc);
    hide RefsOk, OutsOk, InsOk, CallOk, PcOk;
    Ready(s.sh, pc);
  }

  lemma RunOpensOut(sh: Shared, pc: PC, c: Choice)
    requires Known(sh, pc) && ReadyAt(sh, pc) && RefsOk(sh) && OpensOut(pc).Some? && Wants(pc).None? && pc != Idle
    ensures var sh', o := Run(sh, pc, c).sh, OpensOut(pc).value;
            && o in sh'.outs
            && (sh'.outs[o].pcm.Some? <==> c.pcmReady || sh.hw.pcm.cnt > 0)
            && (sh'.outs[o].pcm.Some? ==> (sh'.outs[o].mixer.Some? <==> c.mixerReady || sh.hw.mixer.cnt > 0))
  {
    hide RefsOk, Run;
    OpenOutKeepsRefs(sh, pc.o, c.pcmReady, c.mixerReady);
    if pc.WrOpenOut? { RunIsOut(sh, pc, c); } else { RunIsIn(sh, pc, c); }
    hide OutOpen;
  }

  lemma RunOpensIn(sh: Shared, pc: PC, c: Choice)
    requires Known(sh, pc) && ReadyAt(sh, pc) && RefsOk(sh) && OpensIn(pc).Some? && Wants(pc).None? && pc != Idle
    ensures var sh', i := Run(sh, pc, c).sh, OpensIn(pc).value;
            && i in sh'.ins
            && (sh'.ins[i].pcm.Some? <==> c.pcmReady)
            && (sh'.ins[i].pcm.Some? ==> (sh'.ins[i].mixer.Some? <==> c.mixerReady || sh.hw.mixer.cnt > 0))
  {
    hide RefsOk, Run;
    OpenInKeepsRefs(sh, OpensIn(pc).value, c.pcmReady, c.mixerReady);
    if pc.WrOpenIn? { RunIsOut(sh, pc, c); } else { RunIsIn(sh, pc, c); }
    hide InOpen;
  }
}
