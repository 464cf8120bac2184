/** activate(): the accelerometer and the magnetometer are shared between the system and the
  * orientation sensor. This is the part of the poll context that activate() works on.
  */
module SensorActivation {
  import opened Options
  import opened SensorDriver

  const ID_A := 0
  const ID_M := 1
  const ID_O := 2
  const ID_L := 3
  const ID_P := 4
  const EINVAL := 22

  /** A driver's own idea of its state, and whether the hardware really is on. */
  datatype Switch = Switch(mEnabled: int, on: bool)

  function Flag(enabled: bool): int { if enabled then 1 else 0 }

  /** enable(): writes the sysfs file only if the flag changes; fails if it cannot open it. */
  function Enable(d: Switch, enabled: bool, canOpen: bool): (Switch, int) {
    if Flag(enabled) == d.mEnabled then (d, 0)
    else if canOpen then (Switch(Flag(enabled), enabled), 0)
    else (d, -1)
  }

  /** The drivers' enable() as the decoders see it is the same function of the flag. */
  lemma SameEnable(st: DriverState, d: Switch, en: int, canOpen: bool, distance: Option<int>)
    requires d.mEnabled == st.enabled
    ensures var (st', r) := Enabled(st, en, canOpen, distance);
            var (d', r') := Enable(d, en != 0, canOpen);
            r == r' && d'.mEnabled == st'.enabled
  {}

  predicate IsDriver(handle: int) { handle in {ID_A, ID_M, ID_O, ID_L, ID_P} }

  /** What the system asked for, the drivers, and the wake messages written so far. */
  datatype Sharing = Sharing(accel: bool, magnet: bool, orientation: bool, drivers: map<int, Switch>, wakes: nat) {
    predicate Complete() { ID_A in drivers && ID_M in drivers && ID_O in drivers && ID_L in drivers && ID_P in drivers }

    predicate On(handle: int) { handle in drivers && drivers[handle].on }

    /** A driver is on exactly if its flag says 1; the flag may be anything else while it is off. */
    ghost predicate Truthful() {
      forall h :: h in drivers ==> (drivers[h].mEnabled == 1 <==> drivers[h].on)
    }

    /** And it is 0 or 1. */
    ghost predicate FlagsSet() {
      forall h :: h in drivers ==> drivers[h].mEnabled == Flag(drivers[h].on)
    }

    /** Each shared sensor is on exactly if somebody wants it. */
    predicate Consistent() {
      && (On(ID_A) <==> accel || orientation)
      && (On(ID_M) <==> magnet || orientation)
      && (On(ID_O) <==> orientation)
    }

    predicate CanSwitch(handle: int, enabled: bool, canOpen: int -> bool)
      requires handle in drivers
    {
      canOpen(handle) || drivers[handle].mEnabled == Flag(enabled)
    }
  }

  function RealActivateSpec(s: Sharing, handle: int, enabled: bool, canOpen: bool): (r: (Sharing, int))
    requires s.Complete()
    ensures r.0.Complete()
  {
    if !IsDriver(handle) then (s, -EINVAL)
    else
      var (d, err) := Enable(s.drivers[handle], enabled, canOpen);
      (s.(drivers := s.drivers[handle := d], wakes := if enabled && err == 0 then s.wakes + 1 else s.wakes), err)
  }

  /** `canOpen` says, per driver, whether its sysfs file can be opened during the call. */
  function ActivateSpec(s: Sharing, handle: int, enabled: bool, canOpen: int -> bool): (r: (Sharing, int))
    requires s.Complete()
    ensures r.0.Complete()
  {
    if handle == ID_O then
      var s0 := s.(orientation := enabled);
      var (s1, err1) := if s.accel then (s0, 0) else RealActivateSpec(s0, ID_A, enabled, canOpen(ID_A));
      if err1 != 0 then (s1, err1)
      else
        var (s2, err2) := if s.magnet then (s1, 0) else RealActivateSpec(s1, ID_M, enabled, canOpen(ID_M));
        if err2 != 0 then (s2, err2) else RealActivateSpec(s2, ID_O, enabled, canOpen(ID_O))
    else
      var s0 := if handle == ID_A then s.(accel := enabled) else if handle == ID_M then s.(magnet := enabled) else s;
      if (handle == ID_A || handle == ID_M) && s.orientation then (s0, 0)
      else RealActivateSpec(s0, handle, enabled, canOpen(handle))
  }

  class SensorSharing {
    var mAccelActive: bool
    var mMagnetActive: bool
    var mOrientationActive: bool
    var drivers: map<int, Switch>
    var wakes: nat

    function View(): Sharing
      reads this
    {
      Sharing(mAccelActive, mMagnetActive, mOrientationActive, drivers, wakes)
    }

    /** `flag` is what the magnetometer's flag holds; light and proximity enable themselves, which
      * may fail. */
    constructor (flag: int, light: bool, proximity: bool)
      ensures View() == Initial(flag, light, proximity)
      ensures View().On(ID_L) == light && View().On(ID_P) == proximity && View().drivers[ID_M] == Switch(flag, false)
    {
      mAccelActive, mMagnetActive, mOrientationActive := false, false, false;
      drivers := map[ID_A := Switch(0, false), ID_M := Switch(flag, false), ID_O := Switch(0, false),
                     ID_L := Switch(Flag(light), light), ID_P := Switch(Flag(proximity), proximity)];
      wakes := 0;
    }

    method RealActivate(handle: int, enabled: bool, canOpen: bool) returns (err: int)
      requires View().Complete()
      modifies this`drivers, this`wakes
      ensures (View(), err) == RealActivateSpec(old(View()), handle, enabled, canOpen)
    {
      if !IsDriver(handle) { return -EINVAL; }
      var r := Enable(drivers[handle], enabled, canOpen);
      drivers := drivers[handle := r.0];
      err := r.1;
      if enabled && err == 0 {
        wakes := wakes + 1;
      }
    }

    method Activate(handle: int, enabled: bool, canOpen: int -> bool) returns (err: int)
      requires View().Complete()
      modifies this
      ensures (View(), err) == ActivateSpec(old(View()), handle, enabled, canOpen)
    {
      if handle == ID_O {
        mOrientationActive := enabled;
        if !mAccelActive {
          err := RealActivate(ID_A, enabled, canOpen(ID_A));
          if err != 0 { return err; }
        }
        if !mMagnetActive {
          err := RealActivate(ID_M, enabled, canOpen(ID_M));
          if err != 0 { return err; }
        }
      } else if handle == ID_A {
        mAccelActive := enabled;
        if mOrientationActive { return 0; }
      } else if handle == ID_M {
        mMagnetActive := enabled;
        if mOrientationActive { return 0; }
      }
      err := RealActivate(handle, enabled, canOpen(handle));
    }
  }

  // -------- one call

  /** Before the call: every driver that it must switch can be switched. */
  predicate Succeeds(s: Sharing, handle: int, enabled: bool, canOpen: int -> bool)
    requires s.Complete()
  {
    if handle == ID_O then
      && (s.accel || s.CanSwitch(ID_A, enabled, canOpen))
      && (s.magnet || s.CanSwitch(ID_M, enabled, canOpen))
      && s.CanSwitch(ID_O, enabled, canOpen)
    else if handle == ID_A || handle == ID_M then s.orientation || s.CanSwitch(handle, enabled, canOpen)
    else IsDriver(handle) && s.CanSwitch(handle, enabled, canOpen)
  }

  /** The call reports success exactly then. */
  lemma ReportsSuccess(s: Sharing, handle: int, enabled: bool, canOpen: int -> bool)
    requires s.Complete()
    ensures ActivateSpec(s, handle, enabled, canOpen).1 == 0 <==> Succeeds(s, handle, enabled, canOpen)
  {}

  /** What was asked for is recorded in any case; the light and proximity sensors are left alone. */
  lemma RecordsRequest(s: Sharing, handle: int, enabled: bool, canOpen: int -> bool)
    requires s.Complete()
    ensures var s' := ActivateSpec(s, handle, enabled, canOpen).0;
            && s'.orientation == (if handle == ID_O then enabled else s.orientation)
            && s'.accel == (if handle == ID_A then enabled else s.accel)
            && s'.magnet == (if handle == ID_M then enabled else s.magnet)
            && (handle != ID_L ==> s'.drivers[ID_L] == s.drivers[ID_L])
            && (handle != ID_P ==> s'.drivers[ID_P] == s.drivers[ID_P])
  {}

  lemma FlagsStay(s: Sharing, handle: int, enabled: bool, canOpen: int -> bool)
    requires s.Complete()
    ensures s.Truthful() ==> ActivateSpec(s, handle, enabled, canOpen).0.Truthful()
    ensures s.FlagsSet() ==> ActivateSpec(s, handle, enabled, canOpen).0.FlagsSet()
  {
    if handle == ID_O {
      var s0 := s.(orientation := enabled);
      var (s1, err1) := if s.accel then (s0, 0) else RealActivateSpec(s0, ID_A, enabled, canOpen(ID_A));
      var (s2, err2) := if s.magnet then (s1, 0) else RealActivateSpec(s1, ID_M, enabled, canOpen(ID_M));
      FlagsStayReal(s0, ID_A, enabled, canOpen(ID_A));
      FlagsStayReal(s1, ID_M, enabled, canOpen(ID_M));
      FlagsStayReal(s2, ID_O, enabled, canOpen(ID_O));
    } else {
      var s0 := if handle == ID_A then s.(accel := enabled) else if handle == ID_M then s.(magnet := enabled) else s;
      FlagsStayReal(s0, handle, enabled, canOpen(handle));
    }
    hide RealActivateSpec;
  }

  lemma FlagsStayReal(s: Sharing, handle: int, enabled: bool, canOpen: bool)
    requires s.Complete()
    ensures s.Truthful() ==> RealActivateSpec(s, handle, enabled, canOpen).0.Truthful()
    ensures s.FlagsSet() ==> RealActivateSpec(s, handle, enabled, canOpen).0.FlagsSet()
  {}

  /** If the drivers can be switched, the sharing rule is kept, whatever an uninitialised flag held,
    * as long as it did not claim to be on. */
  lemma SharingKept(s: Sharing, handle: int, enabled: bool, canOpen: int -> bool)
    requires s.Complete() && s.Truthful() && s.Consistent() && Succeeds(s, handle, enabled, canOpen)
    ensures var s' := ActivateSpec(s, handle, enabled, canOpen).0;
            s'.Consistent() && (handle in {ID_L, ID_P} ==> (s'.On(handle) <==> enabled))
  {}

  /** With all flags set, the rule is kept exactly then: a request is recorded before its driver is
    * switched. */
  lemma SharingKeptIff(s: Sharing, handle: int, enabled: bool, canOpen: int -> bool)
    requires s.Complete() && s.FlagsSet() && s.Consistent() && handle in {ID_A, ID_M, ID_O}
    ensures ActivateSpec(s, handle, enabled, canOpen).0.Consistent() <==> Succeeds(s, handle, enabled, canOpen)
  {}

  /** So it can break: the orientation sensor is asked for, and the accelerometer does not open. */
  lemma SharingBroken(light: bool, proximity: bool)
    ensures var s := Initial(0, light, proximity);
            s.Complete() && s.Consistent() && !ActivateSpec(s, ID_O, true, h => h != ID_A).0.Consistent()
  {}

  /** What a call reports: an unknown handle is refused and changes nothing; otherwise a driver that
    * cannot be switched makes it fail. */
  lemma ErrorCodes(s: Sharing, handle: int, enabled: bool, canOpen: int -> bool)
    requires s.Complete()
    ensures var (s', err) := ActivateSpec(s, handle, enabled, canOpen);
            if handle < 0 || handle > 4 then err == -22 && s' == s
            else err == if Succeeds(s, handle, enabled, canOpen) then 0 else -1
  {}

  /** Orientation switches the accelerometer, the magnetometer and itself in that order, each only if the
    * ones before it, as far as the system does not use them, could be switched. */
  lemma StopsAtFirst(s: Sharing, enabled: bool, canOpen: int -> bool)
    requires s.Complete()
    ensures var drivers := ActivateSpec(s, ID_O, enabled, canOpen).0.drivers;
            && (s.accel ==> drivers[ID_A] == s.drivers[ID_A])
            && (s.magnet ==> drivers[ID_M] == s.drivers[ID_M])
            && (!s.accel && !s.CanSwitch(ID_A, enabled, canOpen) ==> drivers[ID_M] == s.drivers[ID_M])
            && (!(s.accel || s.CanSwitch(ID_A, enabled, canOpen)) || !(s.magnet || s.CanSwitch(ID_M, enabled, canOpen))
                ==> drivers[ID_O] == s.drivers[ID_O])
            && (!s.accel && s.CanSwitch(ID_A, enabled, canOpen) ==> drivers[ID_A].mEnabled == Flag(enabled))
  {}

  /** A wake message is written for each driver that the call switched on, or found on already. */
  lemma WakesWhenOn(s: Sharing, handle: int, enabled: bool, canOpen: int -> bool)
    requires s.Complete()
    ensures var s' := ActivateSpec(s, handle, enabled, canOpen).0;
            && (!enabled ==> s'.wakes == s.wakes)
            && (enabled && handle != ID_O ==>
                  s'.wakes == s.wakes + (if Succeeds(s, handle, enabled, canOpen) && !Spared(s, handle) then 1 else 0))
            && (enabled && handle == ID_O && Succeeds(s, handle, enabled, canOpen) ==>
                  s'.wakes == s.wakes + 1 + (if s.accel then 0 else 1) + (if s.magnet then 0 else 1))
  {}

  /** The orientation sensor keeps the driver on, so that nothing is to be done. */
  predicate Spared(s: Sharing, handle: int) { (handle == ID_A || handle == ID_M) && s.orientation }

  // -------- whole runs

  function Initial(flag: int, light: bool, proximity: bool): Sharing {
    Sharing(false, false, false,
            map[ID_A := Switch(0, false), ID_M := Switch(flag, false), ID_O := Switch(0, false),
                ID_L := Switch(Flag(light), light), ID_P := Switch(Flag(proximity), proximity)], 0)
  }

  datatype Request = Request(handle: int, enabled: bool)

  /** A sequence of calls during which every driver's file can be opened. */
  function ActivateRun(s: Sharing, requests: seq<Request>): (s': Sharing)
    requires s.Complete()
    ensures s'.Complete()
  {
    if requests == [] then s
    else
      var last := requests[|requests| - 1];
      ActivateSpec(ActivateRun(s, requests[..|requests| - 1]), last.handle, last.enabled, _ => true).0
  }

  /** Whether the last request for `handle`, if any, was to enable it. */
  predicate Wanted(requests: seq<Request>, handle: int) {
    if requests == [] then false
    else
      var last := requests[|requests| - 1];
      if last.handle == handle then last.enabled else Wanted(requests[..|requests| - 1], handle)
  }

  /** The accelerometer is on exactly if the last request for it or for the orientation sensor was
    * to enable it; likewise the magnetometer; the orientation sensor exactly if requested. */
  predicate AsWanted(s: Sharing, requests: seq<Request>) {
    && (s.On(ID_A) <==> Wanted(requests, ID_A) || Wanted(requests, ID_O))
    && (s.On(ID_M) <==> Wanted(requests, ID_M) || Wanted(requests, ID_O))
    && (s.On(ID_O) <==> Wanted(requests, ID_O))
  }

  lemma {:induction false} SharedAsWanted(flag: int, light: bool, proximity: bool, requests: seq<Request>)
    requires flag != 1
    ensures var s := ActivateRun(Initial(flag, light, proximity), requests);
            && s.Truthful() && s.Consistent() && AsWanted(s, requests)
            && s.accel == Wanted(requests, ID_A) && s.magnet == Wanted(requests, ID_M)
            && s.orientation == Wanted(requests, ID_O)
  {
    if requests != [] {
      var init, last := requests[..|requests| - 1], requests[|requests| - 1];
      SharedAsWanted(flag, light, proximity, init);
      var s := ActivateRun(Initial(flag, light, proximity), init);
      RecordsRequest(s, last.handle, last.enabled, _ => true);
      FlagsStay(s, last.handle, last.enabled, _ => true);
      if IsDriver(last.handle) {
        SharingKept(s, last.handle, last.enabled, _ => true);
      }
    }
  }

  /** Whatever the system asks for, the sensors are on as wanted: this holds of all sequences of calls
    * exactly if the magnetometer's flag, which its constructor does not set, does not happen to be 1. */
  lemma SharedIffFlagNotOne(flag: int, light: bool, proximity: bool)
    ensures (forall requests :: AsWanted(ActivateRun(Initial(flag, light, proximity), requests), requests))
            <==> flag != 1
  {
    if flag != 1 {
      forall requests ensures AsWanted(ActivateRun(Initial(flag, light, proximity), requests), requests) {
        SharedAsWanted(flag, light, proximity, requests);
      }
    } else {
      MissedRequest(light, proximity);
    }
  }

  /** With a flag of 1, the first request for the magnetometer switches nothing. */
  lemma MissedRequest(light: bool, proximity: bool)
    ensures var requests := [Request(ID_M, true)];
            !AsWanted(ActivateRun(Initial(1, light, proximity), requests), requests)
  {
    var requests := [Request(ID_M, true)];
    var s := Initial(1, light, proximity);
    assert requests[..|requests| - 1] == [];
    assert ActivateRun(s, requests) == ActivateSpec(s, ID_M, true, _ => true).0;
  }

  method ActivateAll(ctx: SensorSharing, requests: seq<Request>)
    requires ctx.View().Complete()
    modifies ctx
    ensures ctx.View() == ActivateRun(old(ctx.View()), requests)
  {
    ghost var s := ctx.View();
    for k := 0 to |requests|
      invariant ctx.View().Complete() && ctx.View() == ActivateRun(s, requests[..k])
    {
      var _ := ctx.Activate(requests[k].handle, requests[k].enabled, _ => true);
      assert requests[..k + 1][..k] == requests[..k];
    }
    assert requests[..|requests|] == requests;
  }
}
