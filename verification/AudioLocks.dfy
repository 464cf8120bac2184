/** Lock discipline of the audio HAL: mutual exclusion, the acquisition order
  * out -> in -> hw, and freedom from deadlock in every run.
  */
module AudioLocks {
  import opened Options
  import opened AudioResources
  import opened AudioProtocol

  /** A lock is recorded as taken by a thread exactly while that thread's code holds it. */
  ghost predicate LocksOk(s: State) {
    && (forall l :: l in s.locks ==> s.locks[l] < |s.threads| && Holds(s.threads[s.locks[l]], l))
    && (forall t: nat, l :: t < |s.threads| && Holds(s.threads[t], l) ==> l in s.locks && s.locks[l] == t)
  }

  /** No two threads run code that holds the same lock. */
  lemma MutualExclusion(s: State, t: nat, u: nat)
    requires LocksOk(s) && t < |s.threads| && u < |s.threads| && t != u
    ensures Held(s.threads[t]).DisjointFrom(Held(s.threads[u]))
  {
    forall l | Holds(s.threads[t], l) ensures !Holds(s.threads[u], l) {
      assert l in s.locks && s.locks[l] == t;
    }
    var a, b := Held(s.threads[t]), Held(s.threads[u]);
    if a.hw { assert Holds(s.threads[t], HwL); }
    if a.out.Some? { assert Holds(s.threads[t], OutL(a.out.value)); }
    if a.inp.Some? { assert Holds(s.threads[t], InL(a.inp.value)); }
    assert !Holds(s.threads[u], HwL) ==> !b.hw;
  }

  function Rank(l: Lock): nat { if l.OutL? then 0 else if l.InL? then 1 else 2 }

  /** A thread asks for a lock only while every lock it holds comes earlier in the order. */
  lemma OrderRespected(pc: PC, held: Lock)
    requires Wants(pc).Some? && Holds(pc, held)
    ensures Rank(held) < Rank(Wants(pc).value)
  {}

  /** Taking a lock adds it to the locks held and nothing else. */
  lemma LockedHolds(sh: Shared, pc: PC)
    requires Wants(pc).Some?
    ensures var h := Held(pc);
            Held(Locked(sh, pc)) ==
            match Wants(pc).value
            case OutL(o) => h.(out := Some(o))
            case InL(i) => h.(inp := Some(i))
            case HwL => h.(hw := true)
  {
    hide Locked, Held;
    if Wants(pc) == Some(HwL) { LockedHoldsHw(sh, pc); } else { LockedHoldsStream(sh, pc); }
  }

  lemma LockedHoldsHw(sh: Shared, pc: PC)
    requires Wants(pc) == Some(HwL)
    ensures Held(Locked(sh, pc)) == Held(pc).(hw := true)
  {
    if IsReading(pc) { ReaderHoldsHw(sh, pc); } else { OtherHoldsHw(sh, pc); }
    hide Locked, Held, IsReading;
  }

  lemma ReaderHoldsHw(sh: Shared, pc: PC)
    requires Wants(pc) == Some(HwL) && IsReading(pc)
    ensures Held(Locked(sh, pc)) == Held(pc).(hw := true)
  {}

  lemma OtherHoldsHw(sh: Shared, pc: PC)
    requires Wants(pc) == Some(HwL) && !IsReading(pc)
    ensures Held(Locked(sh, pc)) == Held(pc).(hw := true)
  {}

  lemma LockedHoldsStream(sh: Shared, pc: PC)
    requires Wants(pc).Some? && !Wants(pc).value.HwL?
    ensures Held(Locked(sh, pc)) ==
            if Wants(pc).value.OutL? then Held(pc).(out := Some(Wants(pc).value.o))
            else Held(pc).(inp := Some(Wants(pc).value.i))
  {}

  /** What running code does to the locks: it takes none, and drops exactly the ones it says,
    * all of which it held. */
  ghost predicate Releases(pc: PC, r: Ran) {
    Held(pc).Includes(r.released) && Held(r.pc) == Held(pc).Minus(r.released)
  }

  lemma SetModeReleases(sh: Shared, pc: PC, c: Choice)
    requires Known(sh, pc) && Wants(pc).None?
    requires pc.SmOutLoop? || pc.SmOutCheck? || pc.SmInLoop? || pc.SmInCheck? || pc.SmApply?
    ensures Releases(pc, RunSetMode(sh, pc, c))
  {
    hide StandbyOutOf, StandbyInOf, CallOpenPcm, CallOpenMixer, CallClosePcm, CallCloseMixer;
  }

  lemma WriteEntryReleases(sh: Shared, pc: PC, c: Choice)
    requires Known(sh, pc) && (pc.WrTest? || pc.WrWake? || pc.WrInLoop? || pc.WrInCheck?)
    ensures Releases(pc, RunWrite(sh, pc, c))
  {
    hide OpenInOf, CloseInOf, StandbyInOf, FirstActive;
  }

  lemma WriteOpenReleases(sh: Shared, pc: PC, c: Choice)
    requires Known(sh, pc) && (pc.WrOpenOut? || pc.WrOpenIn? || pc.WrFinish? || pc.WrPlay?)
    ensures Releases(pc, RunWrite(sh, pc, c))
  {
    hide OpenInOf, CloseInOf, StandbyInOf, FirstActive;
  }

  lemma OutControlReleases(sh: Shared, pc: PC, c: Choice)
    requires Known(sh, pc) && IsOutControl(pc)
    ensures Releases(pc, RunOutControl(sh, pc, c))
  {
    hide StandbyOutOf;
  }

  lemma ReadEntryReleases(sh: Shared, pc: PC, c: Choice)
    requires Known(sh, pc) && (pc.RdTest? || pc.RdOutLoop?)
    ensures Releases(pc, RunRead(sh, pc, c))
  {
    hide OutClose, OutDoStandby, InOpen;
  }

  lemma ReadCheckReleases(sh: Shared, pc: PC, c: Choice)
    requires Known(sh, pc) && (pc.RdCheck? || pc.RdCapture?)
    ensures Releases(pc, RunRead(sh, pc, c))
  {
    hide OutClose, OutDoStandby, InOpen;
  }

  lemma ReadOpenReleases(sh: Shared, pc: PC, c: Choice)
    requires Known(sh, pc) && (pc.RdCycle? || pc.RdOpen?)
    ensures Releases(pc, RunRead(sh, pc, c))
  {
    hide OutClose, OutDoStandby, InOpen;
  }

  lemma ReadReopenReleases(sh: Shared, pc: PC, c: Choice)
    requires Known(sh, pc) && pc.RdReopen?
    ensures Releases(pc, RunRead(sh, pc, c))
  {
    hide OutClose, OutDoStandby, InOpen;
  }

  lemma InControlReleases(sh: Shared, pc: PC, c: Choice)
    requires Known(sh, pc) && IsInControl(pc)
    ensures Releases(pc, RunInControl(sh, pc, c))
  {
    if pc.IpSource? || pc.IpSourceBody? {
      SourceReleases(sh, pc, c);
    } else {
      hide StandbyInOf;
    }
  }

  lemma SourceReleases(sh: Shared, pc: PC, c: Choice)
    requires Known(sh, pc) && (pc.IpSource? || pc.IpSourceBody?)
    ensures Releases(pc, RunInControl(sh, pc, c))
  {
    hide StandbyInOf, OpenMixer, CloseMixer;
  }

  lemma HwReleases(sh: Shared, call: HwCall, c: Choice)
    ensures Releases(HwBody(call), RunHw(sh, call, c))
  {}

  lemma DropReleases(sh: Shared, pc: PC, c: Choice)
    requires IsDrop(pc)
    ensures Releases(pc, RunDrop(sh, pc, c))
  {}

  lemma RunReleases(sh: Shared, pc: PC, c: Choice)
    requires Known(sh, pc) && Wants(pc).None? && pc != Idle
    ensures Releases(pc, Run(sh, pc, c))
  {
    hide Releases, Held, RunHw, RunDrop, RunWrite, RunOutControl, RunRead, RunInControl, RunSetMode;
    if pc.HwBody? {
      HwReleases(sh, pc.call, c);
    } else if IsDrop(pc) {
      DropReleases(sh, pc, c);
    } else if IsWrite(pc) {
      if pc.WrTest? || pc.WrWake? || pc.WrInLoop? || pc.WrInCheck? {
        WriteEntryReleases(sh, pc, c);
      } else {
        WriteOpenReleases(sh, pc, c);
      }
    } else if IsOutControl(pc) {
      OutControlReleases(sh, pc, c);
    } else if IsRead(pc) {
      if pc.RdTest? || pc.RdOutLoop? {
        ReadEntryReleases(sh, pc, c);
      } else if pc.RdCheck? || pc.RdCapture? {
        ReadCheckReleases(sh, pc, c);
      } else if pc.RdReopen? {
        ReadReopenReleases(sh, pc, c);
      } else {
        ReadOpenReleases(sh, pc, c);
      }
    } else if IsInControl(pc) {
      InControlReleases(sh, pc, c);
    } else {
      SetModeReleases(sh, pc, c);
    }
  }

  /** Thread `t` moves to `pc`, and the lock table changes only in what `t` owns. */
  lemma MoveKeepsLocks(s: State, t: nat, sh: Shared, pc: PC, locks: map<Lock, nat>)
    requires LocksOk(s) && t < |s.threads|
    requires forall l :: Holds(pc, l) <==> l in locks && locks[l] == t
    requires forall l :: l in locks && locks[l] != t ==> l in s.locks && locks[l] == s.locks[l]
    requires forall l :: l in s.locks && s.locks[l] != t ==> l in locks && locks[l] == s.locks[l]
    ensures LocksOk(State(sh, s.threads[t := pc], locks))
  {
    var s' := State(sh, s.threads[t := pc], locks);
    forall u: nat, l | u < |s'.threads| && Holds(s'.threads[u], l)
      ensures l in s'.locks && s'.locks[l] == u
    {
      if u != t { assert Holds(s.threads[u], l); }
    }
  }

  lemma HoldsTaken(sh: Shared, pc: PC, l: Lock)
    requires Wants(pc).Some?
    ensures Holds(Locked(sh, pc), l) <==> Holds(pc, l) || Wants(pc) == Some(l)
  {
    LockedHolds(sh, pc);
    RanksAbove(pc);
    hide Locked, Wants, Held;
  }

  /** A thread holds no lock of the kind it wants. */
  lemma RanksAbove(pc: PC)
    requires Wants(pc).Some?
    ensures match Wants(pc).value
            case OutL(_) => Held(pc).out.None?
            case InL(_) => Held(pc).inp.None?
            case HwL => !Held(pc).hw
  {}

  lemma TakeKeepsLocks(s: State, t: nat, c: Choice)
    requires LocksOk(s) && Enabled(s, t, c) && Wants(s.threads[t]).Some?
    ensures LocksOk(Step(s, t, c))
  {
    var pc := s.threads[t];
    var s' := Step(s, t, c);
    hide Locked, Wants, Holds;
    forall l ensures Holds(s'.threads[t], l) <==> l in s'.locks && s'.locks[l] == t {
      HoldsTaken(s.sh, pc, l);
      assert Holds(pc, l) <==> l in s.locks && s.locks[l] == t;
    }
    MoveKeepsLocks(s, t, s'.sh, s'.threads[t], s'.locks);
  }

  lemma RunKeepsLocks(s: State, t: nat, r: Ran)
    requires LocksOk(s) && t < |s.threads| && Releases(s.threads[t], r)
    ensures LocksOk(State(r.sh, s.threads[t := r.pc], map l | l in s.locks && !r.released.Has(l) :: s.locks[l]))
  {
    var pc := s.threads[t];
    var locks := map l | l in s.locks && !r.released.Has(l) :: s.locks[l];
    forall l ensures Holds(r.pc, l) <==> l in locks && locks[l] == t {
      assert Holds(pc, l) <==> l in s.locks && s.locks[l] == t;
    }
    forall l | l in s.locks && s.locks[l] != t ensures l in locks {
      assert r.released.Has(l) ==> Holds(pc, l);
    }
    MoveKeepsLocks(s, t, r.sh, r.pc, locks);
  }

  lemma StepKeepsLocks(s: State, t: nat, c: Choice)
    requires LocksOk(s) && Enabled(s, t, c)
    ensures LocksOk(Step(s, t, c))
  {
    var pc := s.threads[t];
    if pc == Idle {
      MoveKeepsLocks(s, t, s.sh, c.start, s.locks);
    } else if Wants(pc).Some? {
      TakeKeepsLocks(s, t, c);
    } else {
      RunReleases(s.sh, pc, c);
      RunKeepsLocks(s, t, Run(s.sh, pc, c));
    }
  }

  // ----- no deadlock -----

  /** Thread `t` is blocked on a lock that thread `u` holds. */
  ghost predicate WaitsFor(s: State, t: nat, u: nat) {
    && t < |s.threads|
    && Wants(s.threads[t]).Some?
    && Wants(s.threads[t]).value in s.locks
    && s.locks[Wants(s.threads[t]).value] == u
  }

  /** Each thread of the chain is blocked on the next. */
  ghost predicate WaitChain(s: State, chain: seq<nat>) {
    forall k :: 0 <= k < |chain| - 1 ==> WaitsFor(s, chain[k], chain[k + 1])
  }

  lemma {:induction false} WaitRanksRise(s: State, chain: seq<nat>, k: nat)
    requires LocksOk(s) && WaitChain(s, chain) && k < |chain| - 1
    ensures WaitsFor(s, chain[0], chain[1]) && WaitsFor(s, chain[k], chain[k + 1])
    ensures Rank(Wants(s.threads[chain[k]]).value) >= Rank(Wants(s.threads[chain[0]]).value) + k
  {
    assert WaitsFor(s, chain[k], chain[k + 1]);
    assert WaitsFor(s, chain[0], chain[1]);
    if k > 0 {
      WaitRanksRise(s, chain, k - 1);
      var blocked := Wants(s.threads[chain[k - 1]]).value;
      OrderRespected(s.threads[chain[k]], blocked);
    }
  }

  /** No cycle of waiting threads, and no chain of more than three waits. */
  lemma NoWaitCycle(s: State, chain: seq<nat>)
    requires LocksOk(s) && WaitChain(s, chain) && |chain| >= 2
    ensures chain[0] != chain[|chain| - 1]
    ensures |chain| <= 4
  {
    WaitRanksRise(s, chain, |chain| - 2);
    if chain[0] == chain[|chain| - 1] {
      var last := chain[|chain| - 2];
      assert WaitsFor(s, chain[0], chain[1]);
      OrderRespected(s.threads[chain[0]], Wants(s.threads[last]).value);
    }
  }

  /** Following the waits of a thread that is in a call leads to one that can take its next step. */
  lemma {:induction false} SomeoneCanStep(s: State, t: nat, c: Choice) returns (u: nat)
    requires LocksOk(s) && t < |s.threads| && s.threads[t] != Idle
    requires forall v :: 0 <= v < |s.threads| ==> Known(s.sh, s.threads[v])
    ensures u < |s.threads| && s.threads[u] != Idle && Enabled(s, u, c)
    decreases if Wants(s.threads[t]).Some? then 3 - Rank(Wants(s.threads[t]).value) else 0
  {
    u := t;
    if Wants(s.threads[t]).Some? && Wants(s.threads[t]).value in s.locks {
      var l := Wants(s.threads[t]).value;
      var v := s.locks[l];
      if Wants(s.threads[v]).Some? { OrderRespected(s.threads[v], l); }
      u := SomeoneCanStep(s, v, c);
    }
  }
}
