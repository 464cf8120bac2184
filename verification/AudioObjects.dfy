/** The audio HAL's objects as it writes them: counters and handles updated in place. Each
  * method is proved to do what the protocol's step functions say.
  *
  * Every method here runs with the hardware lock held, and the stream methods with the stream's
  * own lock too.
  */
module AudioObjects {
  import opened Options
  import opened RefCounts
  import opened AudioResources

  class AudioHardware {
    var mPcm: Option<Handle>
    var mMixer: Option<Handle>
    var mPcmOpenCnt: nat
    var mMixerOpenCnt: nat
    var serial: nat

    constructor ()
      ensures State() == BOOT.hw
    {
      mPcm, mMixer := None, None;
      mPcmOpenCnt, mMixerOpenCnt, serial := 0, 0, 0;
    }

    function State(): Hw
      reads this
    {
      Hw(Driver(mPcm, mPcmOpenCnt), Driver(mMixer, mMixerOpenCnt), serial)
    }

    method OpenPcmOut(ready: bool) returns (pcm: Option<Handle>)
      modifies this
      ensures (State(), pcm) == OpenPcm(old(State()), ready)
    {
      var handle := serial;
      serial := serial + 1;
      mPcmOpenCnt := mPcmOpenCnt + 1;
      if mPcmOpenCnt == 1 {
        if mPcm.Some? {
          mPcmOpenCnt := mPcmOpenCnt - 1;
          return None;
        }
        mPcm := Some(handle);
        if !ready {
          mPcmOpenCnt := mPcmOpenCnt - 1;
          mPcm := None;
        }
      }
      return mPcm;
    }

    method ClosePcmOut()
      modifies this
      ensures State() == ClosePcm(old(State()))
    {
      if mPcmOpenCnt == 0 { return; }
      mPcmOpenCnt := mPcmOpenCnt - 1;
      if mPcmOpenCnt == 0 { mPcm := None; }
    }

    method OpenMixer(ready: bool) returns (mixer: Option<Handle>)
      modifies this
      ensures (State(), mixer) == AudioResources.OpenMixer(old(State()), ready)
    {
      var handle := serial;
      serial := serial + 1;
      mMixerOpenCnt := mMixerOpenCnt + 1;
      if mMixerOpenCnt == 1 {
        if mMixer.Some? {
          mMixerOpenCnt := mMixerOpenCnt - 1;
          return None;
        }
        mMixer := if ready then Some(handle) else None;
        if mMixer.None? {
          mMixerOpenCnt := mMixerOpenCnt - 1;
          return None;
        }
      }
      return mMixer;
    }

    method CloseMixer()
      modifies this
      ensures State() == AudioResources.CloseMixer(old(State()))
    {
      if mMixerOpenCnt == 0 { return; }
      mMixerOpenCnt := mMixerOpenCnt - 1;
      if mMixerOpenCnt == 0 { mMixer := None; }
    }
  }

  class AudioStreamOut {
    const mHardware: AudioHardware
    var mPcm: Option<Handle>
    var mMixer: Option<Handle>
    var mStandby: bool
    var mStandbyCnt: nat
    var wakes: int

    constructor (hardware: AudioHardware)
      ensures mHardware == hardware && State() == NEW_OUT
    {
      mHardware := hardware;
      mPcm, mMixer, mStandby, mStandbyCnt, wakes := None, None, true, 0, 0;
    }

    function State(): OutStream
      reads this
    {
      OutStream(mPcm, mMixer, mStandby, mStandbyCnt, wakes)
    }

    method Close()
      modifies this, mHardware
      ensures (mHardware.State(), State()) == OutClose(old(mHardware.State()), old(State()))
    {
      if mMixer.Some? {
        mHardware.CloseMixer();
        mMixer := None;
      }
      if mPcm.Some? {
        mHardware.ClosePcmOut();
        mPcm := None;
      }
    }

    method Open(pcmReady: bool, mixerReady: bool) returns (ok: bool)
      modifies this, mHardware
      ensures (mHardware.State(), State()) == OutOpen(old(mHardware.State()), old(State()), pcmReady, mixerReady)
      ensures ok <==> mPcm.Some?
    {
      mPcm := mHardware.OpenPcmOut(pcmReady);
      if mPcm.None? { return false; }
      mMixer := mHardware.OpenMixer(mixerReady);
      return true;
    }

    method DoStandby()
      modifies this, mHardware
      ensures (mHardware.State(), State()) == OutDoStandby(old(mHardware.State()), old(State()))
      ensures mStandby && mPcm.None? && mMixer.None? && mStandbyCnt == old(mStandbyCnt) + 1
    {
      mStandbyCnt := mStandbyCnt + 1;
      if !mStandby {
        wakes := wakes - 1;
        mStandby := true;
      }
      Close();
    }
  }

  class AudioStreamIn {
    const mHardware: AudioHardware
    var mPcm: Option<Handle>
    var mMixer: Option<Handle>
    var mStandby: bool
    var mStandbyCnt: nat

    constructor (hardware: AudioHardware)
      ensures mHardware == hardware && State() == NEW_IN
    {
      mHardware := hardware;
      mPcm, mMixer, mStandby, mStandbyCnt := None, None, true, 0;
    }

    function State(): InStream
      reads this
    {
      InStream(mPcm, mMixer, mStandby, mStandbyCnt)
    }

    method Close()
      modifies this, mHardware
      ensures (mHardware.State(), State()) == InClose(old(mHardware.State()), old(State()))
    {
      if mMixer.Some? {
        mHardware.CloseMixer();
        mMixer := None;
      }
      mPcm := None;
    }

    /** The capture PCM belongs to this stream alone, so it is opened without counting. */
    method Open(pcmReady: bool, mixerReady: bool) returns (ok: bool)
      modifies this, mHardware
      ensures (mHardware.State(), State()) == InOpen(old(mHardware.State()), old(State()), pcmReady, mixerReady)
      ensures ok <==> mPcm.Some?
    {
      if !pcmReady {
        mPcm := None;
        return false;
      }
      mPcm := Some(mHardware.serial);
      mHardware.serial := mHardware.serial + 1;
      mMixer := mHardware.OpenMixer(mixerReady);
      return true;
    }

    method DoStandby()
      modifies this, mHardware
      ensures (mHardware.State(), State()) == InDoStandby(old(mHardware.State()), old(State()))
      ensures mStandby && mPcm.None? && mMixer.None? && mStandbyCnt == old(mStandbyCnt) + 1
    {
      mStandbyCnt := mStandbyCnt + 1;
      if !mStandby { mStandby := true; }
      Close();
    }
  }
}
