/** The driver state of the audio HAL and the open, close and standby functions of its
  * streams, as functions on values. These are the bodies of the `_l` methods, which run with
  * the hardware lock held.
  */
module AudioResources {
  import opened Options
  import opened RefCounts

  /** The hardware object's drivers, and the next unused handle number. */
  datatype Hw = Hw(pcm: Driver, mixer: Driver, serial: nat)

  function OpenPcm(hw: Hw, ready: bool): (Hw, Option<Handle>) {
    var (d, h) := Grab(hw.pcm, ready, hw.serial);
    (hw.(pcm := d, serial := hw.serial + 1), h)
  }

  function ClosePcm(hw: Hw): Hw { hw.(pcm := Drop(hw.pcm)) }

  function OpenMixer(hw: Hw, ready: bool): (Hw, Option<Handle>) {
    var (d, h) := Grab(hw.mixer, ready, hw.serial);
    (hw.(mixer := d, serial := hw.serial + 1), h)
  }

  function CloseMixer(hw: Hw): Hw { hw.(mixer := Drop(hw.mixer)) }

  /** An output stream. `wakes` counts its own acquisitions of "AudioOutLock" minus its releases. */
  datatype OutStream = OutStream(pcm: Option<Handle>, mixer: Option<Handle>, standby: bool, standbyCnt: nat, wakes: int)

  const NEW_OUT := OutStream(None, None, true, 0, 0)

  function OutClose(hw: Hw, st: OutStream): (Hw, OutStream) {
    var hw1 := if st.mixer.Some? then CloseMixer(hw) else hw;
    var hw2 := if st.pcm.Some? then ClosePcm(hw1) else hw1;
    (hw2, st.(mixer := None, pcm := None))
  }

  /** Fails (leaving `pcm` NULL) exactly when the PCM cannot be opened; a missing mixer is tolerated. */
  function OutOpen(hw: Hw, st: OutStream, pcmReady: bool, mixerReady: bool): (Hw, OutStream) {
    var (hw1, p) := OpenPcm(hw, pcmReady);
    if p.None? then (hw1, st.(pcm := None))
    else
      var (hw2, m) := OpenMixer(hw1, mixerReady);
      (hw2, st.(pcm := p, mixer := m))
  }

  function OutDoStandby(hw: Hw, st: OutStream): (Hw, OutStream) {
    var st1 := st.(standbyCnt := st.standbyCnt + 1);
    OutClose(hw, if st.standby then st1 else st1.(wakes := st1.wakes - 1, standby := true))
  }

  /** An input stream. Its PCM is opened on the driver directly and is not shared. */
  datatype InStream = InStream(pcm: Option<Handle>, mixer: Option<Handle>, standby: bool, standbyCnt: nat)

  const NEW_IN := InStream(None, None, true, 0)

  function InClose(hw: Hw, st: InStream): (Hw, InStream) {
    (if st.mixer.Some? then CloseMixer(hw) else hw, st.(mixer := None, pcm := None))
  }

  function InOpen(hw: Hw, st: InStream, pcmReady: bool, mixerReady: bool): (Hw, InStream) {
    if !pcmReady then (hw, st.(pcm := None))
    else
      var hw1 := hw.(serial := hw.serial + 1);
      var (hw2, m) := OpenMixer(hw1, mixerReady);
      (hw2, st.(pcm := Some(hw.serial), mixer := m))
  }

  function InDoStandby(hw: Hw, st: InStream): (Hw, InStream) {
    InClose(hw, st.(standbyCnt := st.standbyCnt + 1, standby := true))
  }

  // ----- the state shared by all threads -----

  datatype Mode = Normal | Ringtone | InCall | InCommunication

  /** `callPcm` and `callMixer` are history: whether setMode's own opens currently hold a
    * reference. `callOpenFailed` records that one of them has ever failed. */
  datatype Shared = Shared(
    hw: Hw,
    mode: Mode,
    inCallAudioMode: bool,
    output: Option<nat>,
    inputs: seq<nat>,
    outs: map<nat, OutStream>,
    ins: map<nat, InStream>,
    wakeLock: bool,
    callPcm: bool,
    callMixer: bool,
    callOpenFailed: bool)

  const BOOT := Shared(Hw(CLOSED, CLOSED, 0), Normal, false, None, [], map[], map[], false, false, false, false)

  function OutPcms(outs: map<nat, OutStream>): Holdings { map o | o in outs :: outs[o].pcm }
  function OutMixers(outs: map<nat, OutStream>): Holdings { map o | o in outs :: outs[o].mixer }
  function InMixers(ins: map<nat, InStream>): Holdings { map i | i in ins :: ins[i].mixer }

  /** The reference counts and the handles of both shared drivers are in order. */
  ghost predicate RefsOk(sh: Shared) {
    && Refs(sh.hw.pcm, OutPcms(sh.outs), One(sh.callPcm))
    && Refs(sh.hw.mixer, OutMixers(sh.outs), |Holders(InMixers(sh.ins))| + One(sh.callMixer))
    && Refs(sh.hw.mixer, InMixers(sh.ins), |Holders(OutMixers(sh.outs))| + One(sh.callMixer))
  }

  function SetOut(sh: Shared, o: nat, r: (Hw, OutStream)): Shared {
    sh.(hw := r.0, outs := sh.outs[o := r.1])
  }

  function SetIn(sh: Shared, i: nat, r: (Hw, InStream)): Shared {
    sh.(hw := r.0, ins := sh.ins[i := r.1])
  }

  function CloseOutOf(sh: Shared, o: nat): Shared
    requires o in sh.outs
  {
    SetOut(sh, o, OutClose(sh.hw, sh.outs[o]))
  }

  function OpenOutOf(sh: Shared, o: nat, pcmReady: bool, mixerReady: bool): Shared
    requires o in sh.outs
  {
    SetOut(sh, o, OutOpen(sh.hw, sh.outs[o], pcmReady, mixerReady))
  }

  /** doStandby_l of output `o`; the kernel's wake lock is not counted, so any release drops it. */
  function StandbyOutOf(sh: Shared, o: nat): Shared
    requires o in sh.outs
  {
    SetOut(sh, o, OutDoStandby(sh.hw, sh.outs[o])).(wakeLock := sh.wakeLock && sh.outs[o].standby)
  }

  function CloseInOf(sh: Shared, i: nat): Shared
    requires i in sh.ins
  {
    SetIn(sh, i, InClose(sh.hw, sh.ins[i]))
  }

  function OpenInOf(sh: Shared, i: nat, pcmReady: bool, mixerReady: bool): Shared
    requires i in sh.ins
  {
    SetIn(sh, i, InOpen(sh.hw, sh.ins[i], pcmReady, mixerReady))
  }

  function StandbyInOf(sh: Shared, i: nat): Shared
    requires i in sh.ins
  {
    SetIn(sh, i, InDoStandby(sh.hw, sh.ins[i]))
  }

  // setMode ignores the results of its own opens and closes.

  function CallOpenPcm(sh: Shared, ready: bool): Shared {
    var (hw, p) := OpenPcm(sh.hw, ready);
    sh.(hw := hw, callPcm := p.Some?, callOpenFailed := sh.callOpenFailed || p.None?)
  }

  function CallOpenMixer(sh: Shared, ready: bool): Shared {
    var (hw, m) := OpenMixer(sh.hw, ready);
    sh.(hw := hw, callMixer := m.Some?, callOpenFailed := sh.callOpenFailed || m.None?)
  }

  function CallCloseMixer(sh: Shared): Shared {
    sh.(hw := CloseMixer(sh.hw), callMixer := false)
  }

  function CallClosePcm(sh: Shared): Shared {
    sh.(hw := ClosePcm(sh.hw), callPcm := false)
  }

  // ----- every operation keeps the references in order -----

  lemma OutUpdated(outs: map<nat, OutStream>, o: nat, st: OutStream)
    ensures OutPcms(outs[o := st]) == OutPcms(outs)[o := st.pcm]
    ensures OutMixers(outs[o := st]) == OutMixers(outs)[o := st.mixer]
  {}

  lemma InUpdated(ins: map<nat, InStream>, i: nat, st: InStream)
    ensures InMixers(ins[i := st]) == InMixers(ins)[i := st.mixer]
  {}

  lemma Unchanged(m: Holdings, k: nat, h: Option<Handle>)
    requires k in m && m[k] == h
    ensures m[k := h] == m
  {}

  lemma OutMixerDropped(sh: Shared, o: nat)
    requires RefsOk(sh) && o in sh.outs && sh.outs[o].mixer.Some?
    ensures var sh' := sh.(hw := CloseMixer(sh.hw), outs := sh.outs[o := sh.outs[o].(mixer := None)]); RefsOk(sh')
  {
    var st := sh.outs[o].(mixer := None);
    OutUpdated(sh.outs, o, st);
    Unchanged(OutPcms(sh.outs), o, st.pcm);
    var m := OutMixers(sh.outs);
    HolderCount(m, o, None);
    DropKeeps(sh.hw.mixer, m, |Holders(InMixers(sh.ins))| + One(sh.callMixer), o);
    DropElsewhere(sh.hw.mixer, InMixers(sh.ins), |Holders(m)| + One(sh.callMixer));
  }

  lemma OutPcmDropped(sh: Shared, o: nat)
    requires RefsOk(sh) && o in sh.outs && sh.outs[o].pcm.Some?
    ensures var sh' := sh.(hw := ClosePcm(sh.hw), outs := sh.outs[o := sh.outs[o].(pcm := None)]); RefsOk(sh')
  {
    var st := sh.outs[o].(pcm := None);
    OutUpdated(sh.outs, o, st);
    Unchanged(OutMixers(sh.outs), o, st.mixer);
    DropKeeps(sh.hw.pcm, OutPcms(sh.outs), One(sh.callPcm), o);
  }

  /** Fields other than the two handles do not matter to the references. */
  lemma SameHandles(sh: Shared, o: nat, st: OutStream)
    requires RefsOk(sh) && o in sh.outs
    requires st.pcm == sh.outs[o].pcm && st.mixer == sh.outs[o].mixer
    ensures RefsOk(sh.(outs := sh.outs[o := st]))
  {
    OutUpdated(sh.outs, o, st);
    Unchanged(OutPcms(sh.outs), o, st.pcm);
    Unchanged(OutMixers(sh.outs), o, st.mixer);
  }

  function OutMixerGone(sh: Shared, o: nat): Shared
    requires o in sh.outs
  {
    if sh.outs[o].mixer.None? then sh
    else sh.(hw := CloseMixer(sh.hw), outs := sh.outs[o := sh.outs[o].(mixer := None)])
  }

  function OutPcmGone(sh: Shared, o: nat): Shared
    requires o in sh.outs
  {
    if sh.outs[o].pcm.None? then sh
    else sh.(hw := ClosePcm(sh.hw), outs := sh.outs[o := sh.outs[o].(pcm := None)])
  }

  lemma CloseOutInSteps(sh: Shared, o: nat)
    requires o in sh.outs
    ensures CloseOutOf(sh, o) == OutPcmGone(OutMixerGone(sh, o), o)
  {
    var sh2 := OutPcmGone(OutMixerGone(sh, o), o);
    assert CloseOutOf(sh, o).outs == sh2.outs;
  }

  lemma CloseOutKeepsRefs(sh: Shared, o: nat)
    requires RefsOk(sh) && o in sh.outs
    ensures RefsOk(CloseOutOf(sh, o))
  {
    CloseOutInSteps(sh, o);
    if sh.outs[o].mixer.Some? { OutMixerDropped(sh, o); }
    var sh1 := OutMixerGone(sh, o);
    assert RefsOk(sh1);
    if sh1.outs[o].pcm.Some? { OutPcmDropped(sh1, o); }
  }

  /** Only the drivers, the streams' handles and setMode's references matter. */
  lemma RefsIgnoreRest(sh: Shared, sh': Shared)
    requires RefsOk(sh) && sh'.hw == sh.hw && sh'.outs == sh.outs && sh'.ins == sh.ins
    requires sh'.callPcm == sh.callPcm && sh'.callMixer == sh.callMixer
    ensures RefsOk(sh')
  {}

  function OutMarkedStandby(sh: Shared, o: nat): Shared
    requires o in sh.outs
  {
    var st := sh.outs[o];
    var st1 := st.(standbyCnt := st.standbyCnt + 1);
    var st2 := if st.standby then st1 else st1.(wakes := st1.wakes - 1, standby := true);
    sh.(outs := sh.outs[o := st2])
  }

  lemma StandbyOutInSteps(sh: Shared, o: nat)
    requires o in sh.outs
    ensures StandbyOutOf(sh, o) ==
            CloseOutOf(OutMarkedStandby(sh, o), o).(wakeLock := sh.wakeLock && sh.outs[o].standby)
  {
    assert StandbyOutOf(sh, o).outs == CloseOutOf(OutMarkedStandby(sh, o), o).outs;
  }

  lemma StandbyOutKeepsRefs(sh: Shared, o: nat)
    requires RefsOk(sh) && o in sh.outs
    ensures RefsOk(StandbyOutOf(sh, o))
  {
    StandbyOutInSteps(sh, o);
    var sh1 := OutMarkedStandby(sh, o);
    SameHandles(sh, o, sh1.outs[o]);
    CloseOutKeepsRefs(sh1, o);
    RefsIgnoreRest(CloseOutOf(sh1, o), StandbyOutOf(sh, o));
  }

  lemma OutPcmTaken(sh: Shared, o: nat, ready: bool)
    requires RefsOk(sh) && o in sh.outs && sh.outs[o].pcm.None?
    ensures var (hw, p) := OpenPcm(sh.hw, ready);
            && RefsOk(sh.(hw := hw, outs := sh.outs[o := sh.outs[o].(pcm := p)]))
            && (p.Some? <==> ready || sh.hw.pcm.cnt > 0)
  {
    var (hw, p) := OpenPcm(sh.hw, ready);
    OutUpdated(sh.outs, o, sh.outs[o].(pcm := p));
    Unchanged(OutMixers(sh.outs), o, sh.outs[o].mixer);
    GrabKeeps(sh.hw.pcm, OutPcms(sh.outs), One(sh.callPcm), o, ready, sh.hw.serial);
  }

  lemma OutMixerTaken(sh: Shared, o: nat, ready: bool)
    requires RefsOk(sh) && o in sh.outs && sh.outs[o].mixer.None?
    ensures var (hw, m) := OpenMixer(sh.hw, ready);
            RefsOk(sh.(hw := hw, outs := sh.outs[o := sh.outs[o].(mixer := m)]))
  {
    var (hw, m) := OpenMixer(sh.hw, ready);
    OutUpdated(sh.outs, o, sh.outs[o].(mixer := m));
    Unchanged(OutPcms(sh.outs), o, sh.outs[o].pcm);
    HolderCount(OutMixers(sh.outs), o, m);
    GrabKeeps(sh.hw.mixer, OutMixers(sh.outs), |Holders(InMixers(sh.ins))| + One(sh.callMixer), o, ready, sh.hw.serial);
    GrabElsewhere(sh.hw.mixer, InMixers(sh.ins), |Holders(OutMixers(sh.outs))| + One(sh.callMixer), ready,
        sh.hw.serial);
  }

  lemma OpenOutInSteps(sh: Shared, o: nat, pcmReady: bool, mixerReady: bool)
    requires o in sh.outs && sh.outs[o].mixer.None?
    ensures var (hw, p) := OpenPcm(sh.hw, pcmReady);
            var sh1 := sh.(hw := hw, outs := sh.outs[o := sh.outs[o].(pcm := p)]);
            var (hw2, m) := OpenMixer(hw, mixerReady);
            OpenOutOf(sh, o, pcmReady, mixerReady) ==
            if p.None? then sh1 else sh1.(hw := hw2, outs := sh1.outs[o := sh1.outs[o].(mixer := m)])
  {
    var (hw, p) := OpenPcm(sh.hw, pcmReady);
    var sh1 := sh.(hw := hw, outs := sh.outs[o := sh.outs[o].(pcm := p)]);
    var r := OutOpen(sh.hw, sh.outs[o], pcmReady, mixerReady);
    assert sh1.outs[o := r.1] == sh.outs[o := r.1];
  }

  /** Opening an output keeps the references in order: the PCM is open if it can be opened or was open
    * already, and then the mixer likewise; nothing else of the stream changes. */
  lemma OpenOutKeepsRefs(sh: Shared, o: nat, pcmReady: bool, mixerReady: bool)
    requires RefsOk(sh) && o in sh.outs && sh.outs[o].pcm.None? && sh.outs[o].mixer.None?
    ensures RefsOk(OpenOutOf(sh, o, pcmReady, mixerReady))
    ensures var st := OpenOutOf(sh, o, pcmReady, mixerReady).outs[o];
            && (st.pcm.Some? <==> pcmReady || sh.hw.pcm.cnt > 0)
            && (st.mixer.Some? <==> st.pcm.Some? && (mixerReady || sh.hw.mixer.cnt > 0))
            && st.(pcm := None, mixer := None) == sh.outs[o]
  {
    OutPcmTaken(sh, o, pcmReady);
    OpenOutInSteps(sh, o, pcmReady, mixerReady);
    var (hw, p) := OpenPcm(sh.hw, pcmReady);
    var sh1 := sh.(hw := hw, outs := sh.outs[o := sh.outs[o].(pcm := p)]);
    if p.Some? { OutMixerTaken(sh1, o, mixerReady); }
    GrabSucceeds(sh.hw.mixer, OutMixers(sh.outs), mixerReady, hw.serial);
  }

  lemma GrabSucceeds(d: Driver, m: Holdings, ready: bool, serial: Handle)
    requires exists others :: Refs(d, m, others)
    ensures Grab(d, ready, serial).1.Some? <==> ready || d.cnt > 0
  {
    var others :| Refs(d, m, others);
    GrabElsewhere(d, m, others, ready, serial);
  }

  lemma InMixerDropped(sh: Shared, i: nat, st: InStream)
    requires RefsOk(sh) && i in sh.ins && st.mixer.None?
    ensures RefsOk(SetIn(sh, i, (if sh.ins[i].mixer.Some? then CloseMixer(sh.hw) else sh.hw, st)))
  {
    InUpdated(sh.ins, i, st);
    var m := InMixers(sh.ins);
    if sh.ins[i].mixer.Some? {
      HolderCount(m, i, None);
      DropKeeps(sh.hw.mixer, m, |Holders(OutMixers(sh.outs))| + One(sh.callMixer), i);
      DropElsewhere(sh.hw.mixer, OutMixers(sh.outs), |Holders(m)| + One(sh.callMixer));
    } else {
      Unchanged(m, i, None);
    }
  }

  lemma CloseInKeepsRefs(sh: Shared, i: nat)
    requires RefsOk(sh) && i in sh.ins
    ensures RefsOk(CloseInOf(sh, i)) && RefsOk(StandbyInOf(sh, i))
  {
    InMixerDropped(sh, i, InClose(sh.hw, sh.ins[i]).1);
    InMixerDropped(sh, i, InDoStandby(sh.hw, sh.ins[i]).1);
  }

  lemma InMixerTaken(sh: Shared, i: nat, st: InStream, hw: Hw, ready: bool)
    requires RefsOk(sh) && i in sh.ins && sh.ins[i].mixer.None?
    requires hw.mixer == sh.hw.mixer && hw.pcm == sh.hw.pcm
    requires st.mixer == OpenMixer(hw, ready).1
    ensures RefsOk(SetIn(sh, i, (OpenMixer(hw, ready).0, st)))
  {
    var m := InMixers(sh.ins);
    InUpdated(sh.ins, i, st);
    HolderCount(m, i, st.mixer);
    GrabKeeps(sh.hw.mixer, m, |Holders(OutMixers(sh.outs))| + One(sh.callMixer), i, ready, hw.serial);
    GrabElsewhere(sh.hw.mixer, OutMixers(sh.outs), |Holders(m)| + One(sh.callMixer), ready, hw.serial);
  }

  /** So does opening an input, whose PCM is not shared. */
  lemma OpenInKeepsRefs(sh: Shared, i: nat, pcmReady: bool, mixerReady: bool)
    requires RefsOk(sh) && i in sh.ins && sh.ins[i].mixer.None?
    ensures RefsOk(OpenInOf(sh, i, pcmReady, mixerReady))
    ensures var st := OpenInOf(sh, i, pcmReady, mixerReady).ins[i];
            && (st.pcm.Some? <==> pcmReady)
            && (st.mixer.Some? <==> pcmReady && (mixerReady || sh.hw.mixer.cnt > 0))
            && st.(pcm := sh.ins[i].pcm, mixer := None) == sh.ins[i]
  {
    hide RefsOk;
    InOpened(sh, i, pcmReady, mixerReady);
    var r := InOpen(sh.hw, sh.ins[i], pcmReady, mixerReady);
    if pcmReady {
      InMixerTaken(sh, i, r.1, sh.hw.(serial := sh.hw.serial + 1), mixerReady);
    } else {
      InMixerDropped(sh, i, r.1);
    }
  }

  lemma InOpened(sh: Shared, i: nat, pcmReady: bool, mixerReady: bool)
    requires RefsOk(sh) && i in sh.ins && sh.ins[i].mixer.None?
    ensures var st := InOpen(sh.hw, sh.ins[i], pcmReady, mixerReady).1;
            && (st.pcm.Some? <==> pcmReady)
            && (st.mixer.Some? <==> pcmReady && (mixerReady || sh.hw.mixer.cnt > 0))
            && st.(pcm := sh.ins[i].pcm, mixer := None) == sh.ins[i]
  {
    GrabSucceeds(sh.hw.mixer, InMixers(sh.ins), mixerReady, sh.hw.serial + 1);
  }

  /** setMode's opens keep the references in order whether or not they succeed: the history
    * flag follows the outcome. */
  lemma CallOpensKeepRefs(sh: Shared, ready: bool)
    requires RefsOk(sh)
    ensures !sh.callPcm ==> RefsOk(CallOpenPcm(sh, ready))
    ensures !sh.callMixer ==> RefsOk(CallOpenMixer(sh, ready))
  {
    GrabElsewhere(sh.hw.pcm, OutPcms(sh.outs), One(sh.callPcm), ready, sh.hw.serial);
    GrabElsewhere(sh.hw.mixer, OutMixers(sh.outs), |Holders(InMixers(sh.ins))| + One(sh.callMixer), ready,
        sh.hw.serial);
    GrabElsewhere(sh.hw.mixer, InMixers(sh.ins), |Holders(OutMixers(sh.outs))| + One(sh.callMixer), ready,
        sh.hw.serial);
  }

  /** setMode's unconditional closes are safe exactly when they give back a reference that it
    * holds, or nothing was open. */
  lemma CallClosesKeepRefs(sh: Shared)
    requires RefsOk(sh)
    ensures RefsOk(CallClosePcm(sh)) <==> sh.callPcm || sh.hw.pcm.cnt == 0
    ensures RefsOk(CallCloseMixer(sh)) <==> sh.callMixer || sh.hw.mixer.cnt == 0
  {
    DropElsewhere(sh.hw.pcm, OutPcms(sh.outs), One(sh.callPcm));
    DropElsewhere(sh.hw.mixer, OutMixers(sh.outs), |Holders(InMixers(sh.ins))| + One(sh.callMixer));
    DropElsewhere(sh.hw.mixer, InMixers(sh.ins), |Holders(OutMixers(sh.outs))| + One(sh.callMixer));
  }
}
