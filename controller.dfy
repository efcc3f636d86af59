/**
 * The module globals of Toy_Controller.py and the handlers that change them:
 * the configuration load, the slider handlers, the device partition and
 * selection of rescan_and_update_ui, the device radio handlers and the mode
 * update of the game listener. Widgets, page updates and all I/O are outside
 * the model; the workers read the globals through the snapshots below.
 */
module Controller {
  import opened Wrappers
  import opened Devices
  import ConfigStore
  import Workers

  /** Whether rescan files the device under the given kind: it is not removed
      and has at least one actuator of that kind. */
  predicate Serves(d: Device, kind: ActuatorKind): (b: bool)
    ensures b ==> !d.removed
    ensures b ==> 1 <= (if kind == Linear then d.linearActuators else d.vibratorActuators)
  {
    && !d.removed
    && (if kind == Linear then d.linearActuators > 0 else d.vibratorActuators > 0)
  }

  /** linear_devices (kind Linear) or vibrator_devices (kind Vibrator) as
      rescan rebuilds them from the registry, in registry order. */
  function Capable(devices: seq<Device>, kind: ActuatorKind): (r: seq<Device>)
    ensures forall d :: d in r <==> d in devices && Serves(d, kind)
    ensures |r| <= |devices|
  {
    if devices == [] then []
    else
      var init, last := devices[..|devices| - 1], devices[|devices| - 1];
      assert devices == init + [last];
      Capable(init, kind) + (if Serves(last, kind) then [last] else [])
  }

  /** The device indices of a device list (the keys of the Python dict). */
  function Indices(devs: seq<Device>): set<int> {
    set d | d in devs :: d.index
  }

  /** The radio group's value after rescan: unchanged when there is no device
      of the kind; kept when it names a listed device; else the first key. */
  function ChooseIndex(prev: Option<int>, devs: seq<Device>): (r: Option<int>)
    ensures devs == [] ==> r == prev
    ensures devs != [] ==> r.Some? && r.value in Indices(devs)
    ensures devs != [] && prev.Some? && prev.value in Indices(devs) ==> r == prev
    ensures devs != [] && !(prev.Some? && prev.value in Indices(devs)) ==> r == Some(devs[0].index)
  {
    if devs == [] then prev
    else if prev.Some? && prev.value in Indices(devs) then prev
    else Some(devs[0].index)
  }

  /** With no device serving a kind, the rebuilt dict of that kind is empty. */
  lemma {:induction false} NoneServing(devices: seq<Device>, kind: ActuatorKind)
    requires forall i :: 0 <= i < |devices| ==> !Serves(devices[i], kind)
    ensures Capable(devices, kind) == []
  {
    if devices != [] {
      var init := devices[..|devices| - 1];
      assert forall i :: 0 <= i < |init| ==> init[i] == devices[i];
      NoneServing(init, kind);
    }
  }

  /** The first device of a kind in the rebuilt dict is the first device of
      the registry that serves that kind. */
  lemma {:induction false} FirstCapableIsFirstServing(devices: seq<Device>, kind: ActuatorKind, j: nat)
    requires j < |devices| && Serves(devices[j], kind)
    requires forall i :: 0 <= i < j ==> !Serves(devices[i], kind)
    ensures Capable(devices, kind) != [] && Capable(devices, kind)[0] == devices[j]
  {
    var init, last := devices[..|devices| - 1], devices[|devices| - 1];
    if j == |devices| - 1 {
      assert forall i :: 0 <= i < |init| ==> init[i] == devices[i];
      NoneServing(init, kind);
    } else {
      assert forall i :: 0 <= i < |init| ==> init[i] == devices[i];
      FirstCapableIsFirstServing(init, kind, j);
    }
  }

  /** The selection rule against the raw registry: when some device serves
      the kind, the chosen index is one of those devices; a previous choice
      that still serves the kind is kept. */
  lemma SelectionRule(prev: Option<int>, devices: seq<Device>, kind: ActuatorKind)
    ensures var r := ChooseIndex(prev, Capable(devices, kind));
      && ((exists d :: d in devices && Serves(d, kind)) ==>
            r.Some? && exists d :: d in devices && Serves(d, kind) && d.index == r.value)
      && (prev.Some? && (exists d :: d in devices && Serves(d, kind) && d.index == prev.value) ==> r == prev)
  {
    var devs := Capable(devices, kind);
    if exists d :: d in devices && Serves(d, kind) {
      var d :| d in devices && Serves(d, kind);
      assert d in devs;
      var r := ChooseIndex(prev, devs);
      var c :| c in devs && c.index == r.value;
      assert c in devices && Serves(c, kind);
    }
    if prev.Some? && exists d :: d in devices && Serves(d, kind) && d.index == prev.value {
      var d :| d in devices && Serves(d, kind) && d.index == prev.value;
      assert d in devs;
    }
  }

  /** A previous choice that names no serving device gives way to the first
      device of the registry that serves the kind. */
  lemma SelectionFallsBackToFirst(prev: Option<int>, devices: seq<Device>, kind: ActuatorKind, j: nat)
    requires j < |devices| && Serves(devices[j], kind)
    requires forall i :: 0 <= i < j ==> !Serves(devices[i], kind)
    requires prev.Some? ==> forall d :: d in devices && Serves(d, kind) ==> d.index != prev.value
    ensures ChooseIndex(prev, Capable(devices, kind)) == Some(devices[j].index)
  {
    FirstCapableIsFirstServing(devices, kind, j);
    var devs := Capable(devices, kind);
    if prev.Some? {
      assert forall d :: d in devs ==> d.index != prev.value;
      assert prev.value !in Indices(devs);
    }
  }

  /** The binding rescan makes: slot 0 of the chosen device, or none. With a
      listed choice it is an actuator of the right kind on a listed device. */
  function Binding(choice: Option<int>, devs: seq<Device>, kind: ActuatorKind): (r: Option<Actuator>)
    requires devs != [] ==> choice.Some?
    ensures r.None? <==> devs == []
    ensures r.Some? ==> r.value.kind == kind && r.value.slot == 0
    ensures r.Some? ==> r.value.device == choice.value
    ensures r.Some? && choice.value in Indices(devs) ==> r.value.device in Indices(devs)
  {
    if devs == [] then None else Some(Actuator(choice.value, kind, 0))
  }

  /** `data.get("piston", 0)` and `data.get("vibe", 0)` of a game message. */
  function ModesOf(msg: map<string, int>): (r: (int, int))
    ensures r.0 == (if "piston" in msg then msg["piston"] else 0)
    ensures r.1 == (if "vibe" in msg then msg["vibe"] else 0)
  {
    (MapGet(msg, "piston", 0), MapGet(msg, "vibe", 0))
  }

  /** Every vibe strength is a valid vibrator speed. */
  predicate UnitStrengths(m: map<int, real>) {
    forall k :: k in m ==> 0.0 <= m[k] <= 1.0
  }

  /** The module globals. */
  class ControllerState {
    var pistonPosMin: real
    var pistonPosMax: real
    var pistonSpeed: map<int, real>
    var vibeStrength: map<int, real>
    var pistonMode: int
    var vibeMode: int
    var linearActuator: Option<Actuator>
    var vibratorActuator: Option<Actuator>
    var linearDevices: seq<Device>
    var vibratorDevices: seq<Device>
    /** The values of the piston and vibe radio groups. */
    var pistonChoice: Option<int>
    var vibeChoice: Option<int>

    /** The values the globals hold at import time. */
    constructor ()
      ensures Settings() == ConfigStore.Defaults && ConfigStore.DefaultsPresent(Settings())
      ensures pistonMode == 0 && vibeMode == 0
      ensures linearActuator == None && vibratorActuator == None
      ensures linearDevices == [] && vibratorDevices == []
      ensures pistonChoice == None && vibeChoice == None
    {
      pistonPosMin := ConfigStore.DefaultPosMin;
      pistonPosMax := ConfigStore.DefaultPosMax;
      pistonSpeed := ConfigStore.DefaultPistonSpeed;
      vibeStrength := ConfigStore.DefaultVibeStrength;
      pistonMode, vibeMode := 0, 0;
      linearActuator, vibratorActuator := None, None;
      linearDevices, vibratorDevices := [], [];
      pistonChoice, vibeChoice := None, None;
    }

    function Settings(): ConfigStore.Settings
      reads this
    {
      ConfigStore.Settings(pistonSpeed, vibeStrength, pistonPosMin, pistonPosMax)
    }

    /** A bound actuator always belongs to a listed device that serves its
        kind: a device without linear actuators never backs the piston
        binding, and likewise for vibration. */
    ghost predicate BindingsValid()
      reads this
    {
      && (linearActuator.Some? ==>
            linearActuator.value.kind == Linear && linearActuator.value.device in Indices(linearDevices))
      && (vibratorActuator.Some? ==>
            vibratorActuator.value.kind == Vibrator && vibratorActuator.value.device in Indices(vibratorDevices))
    }

    /** What piston_worker reads on a tick. */
    function PistonSnapshot(fails: bool): Workers.PistonEnv
      reads this
    {
      Workers.PistonEnv(pistonMode, linearActuator, pistonSpeed, pistonPosMin, pistonPosMax, fails)
    }

    /** What vibe_worker reads on a tick. */
    function VibeSnapshot(fails: bool): Workers.VibeEnv
      reads this
    {
      Workers.VibeEnv(vibeMode, vibratorActuator, vibeStrength, fails)
    }

    /** load_config applied to the globals. */
    method LoadConfig(read: ConfigStore.FileRead) returns (outcome: ConfigStore.LoadOutcome)
      modifies this`pistonSpeed, this`vibeStrength, this`pistonPosMin, this`pistonPosMax
      ensures outcome == ConfigStore.LoadConfig(old(Settings()), read)
      ensures Settings() == outcome.settings
      ensures ConfigStore.DefaultsPresent(old(Settings())) ==> ConfigStore.DefaultsPresent(Settings())
    {
      var current := Settings();
      outcome := ConfigStore.LoadConfig(current, read);
      var s := outcome.settings;
      pistonSpeed := s.pistonSpeed;
      vibeStrength := s.vibeStrength;
      pistonPosMin := s.posMin;
      pistonPosMax := s.posMax;
      assert Settings() == s;
    }

    /** on_speed_slider_change: the interval of one mode, in place. Every
        default key stays present, which the save/load round trip needs. */
    method OnSpeedSliderChange(mode: int, value: real)
      modifies this`pistonSpeed
      ensures pistonSpeed == old(pistonSpeed)[mode := value]
      ensures ConfigStore.DefaultsPresent(old(Settings())) ==> ConfigStore.DefaultsPresent(Settings())
    {
      pistonSpeed := pistonSpeed[mode := value];
    }

    /** on_vibe_strength_slider_change: the strength of one mode, in place. */
    method OnVibeStrengthSliderChange(mode: int, value: real)
      modifies this`vibeStrength
      ensures vibeStrength == old(vibeStrength)[mode := value]
      ensures ConfigStore.DefaultsPresent(old(Settings())) ==> ConfigStore.DefaultsPresent(Settings())
      ensures 0.0 <= value <= 1.0 && UnitStrengths(old(vibeStrength)) ==> UnitStrengths(vibeStrength)
    {
      vibeStrength := vibeStrength[mode := value];
    }

    /** on_min_pos_change: the new min, raising the max to it only if it
        passes the max. Afterwards min <= max, whatever held before. */
    method OnMinPosChange(value: real)
      modifies this`pistonPosMin, this`pistonPosMax
      ensures pistonPosMin == value
      ensures pistonPosMax == if value > old(pistonPosMax) then value else old(pistonPosMax)
      ensures pistonPosMin <= pistonPosMax
      ensures 0.0 <= value <= 1.0 && old(pistonPosMax) <= 1.0 ==> 0.0 <= pistonPosMin <= pistonPosMax <= 1.0
    {
      if value > pistonPosMax {
        pistonPosMax := value;
      }
      pistonPosMin := value;
    }

    /** on_max_pos_change: the new max, lowering the min to it only if it
        falls below the min. Afterwards min <= max, whatever held before. */
    method OnMaxPosChange(value: real)
      modifies this`pistonPosMin, this`pistonPosMax
      ensures pistonPosMax == value
      ensures pistonPosMin == if value < old(pistonPosMin) then value else old(pistonPosMin)
      ensures pistonPosMin <= pistonPosMax
      ensures 0.0 <= value <= 1.0 && 0.0 <= old(pistonPosMin) ==> 0.0 <= pistonPosMin <= pistonPosMax <= 1.0
    {
      if value < pistonPosMin {
        pistonPosMin := value;
      }
      pistonPosMax := value;
    }

    /** The device part of rescan_and_update_ui: rebuild both device dicts
        from the registry (its devices in order, indices distinct), skipping
        removed devices, then bind slot 0 of the chosen device of each kind,
        or nothing when no device serves that kind. */
    method Rescan(devices: seq<Device>)
      modifies this`linearDevices, this`vibratorDevices, this`pistonChoice, this`vibeChoice
      modifies this`linearActuator, this`vibratorActuator
      ensures linearDevices == Capable(devices, Linear)
      ensures vibratorDevices == Capable(devices, Vibrator)
      ensures pistonChoice == ChooseIndex(old(pistonChoice), linearDevices)
      ensures vibeChoice == ChooseIndex(old(vibeChoice), vibratorDevices)
      ensures linearActuator == Binding(pistonChoice, linearDevices, Linear)
      ensures vibratorActuator == Binding(vibeChoice, vibratorDevices, Vibrator)
      ensures BindingsValid()
    {
      RebuildDeviceLists(devices);
      BindLinear();
      BindVibrator();
    }

    /** `linear_devices.clear()`, `vibrator_devices.clear()` and the loop
        that refills them. */
    method RebuildDeviceLists(devices: seq<Device>)
      modifies this`linearDevices, this`vibratorDevices
      ensures linearDevices == Capable(devices, Linear)
      ensures vibratorDevices == Capable(devices, Vibrator)
    {
      linearDevices := [];
      vibratorDevices := [];
      var i := 0;
      while i < |devices|
        invariant 0 <= i <= |devices|
        invariant linearDevices == Capable(devices[..i], Linear)
        invariant vibratorDevices == Capable(devices[..i], Vibrator)
      {
        var d := devices[i];
        assert devices[..i + 1][..i] == devices[..i];
        if !d.removed {
          if d.linearActuators > 0 {
            linearDevices := linearDevices + [d];
          }
          if d.vibratorActuators > 0 {
            vibratorDevices := vibratorDevices + [d];
          }
        }
        i := i + 1;
      }
      assert devices[..i] == devices;
    }

    /** Choose the piston device and bind its first linear actuator. */
    method BindLinear()
      modifies this`pistonChoice, this`linearActuator
      ensures pistonChoice == ChooseIndex(old(pistonChoice), linearDevices)
      ensures linearActuator == Binding(pistonChoice, linearDevices, Linear)
      ensures linearActuator.Some? ==> linearActuator.value.kind == Linear
                                       && linearActuator.value.device in Indices(linearDevices)
    {
      var newLinear: Option<Actuator> := None;
      if linearDevices != [] {
        if !(pistonChoice.Some? && pistonChoice.value in Indices(linearDevices)) {
          pistonChoice := Some(linearDevices[0].index);
        }
        newLinear := Some(Actuator(pistonChoice.value, Linear, 0));
      }
      linearActuator := newLinear;
    }

    /** Choose the vibe device and bind its first vibrator. */
    method BindVibrator()
      modifies this`vibeChoice, this`vibratorActuator
      ensures vibeChoice == ChooseIndex(old(vibeChoice), vibratorDevices)
      ensures vibratorActuator == Binding(vibeChoice, vibratorDevices, Vibrator)
      ensures vibratorActuator.Some? ==> vibratorActuator.value.kind == Vibrator
                                         && vibratorActuator.value.device in Indices(vibratorDevices)
    {
      var newVibrator: Option<Actuator> := None;
      if vibratorDevices != [] {
        if !(vibeChoice.Some? && vibeChoice.value in Indices(vibratorDevices)) {
          vibeChoice := Some(vibratorDevices[0].index);
        }
        newVibrator := Some(Actuator(vibeChoice.value, Vibrator, 0));
      }
      vibratorActuator := newVibrator;
    }

    /** on_piston_device_selected, after the radio group has taken the
        clicked value: bind the device if it is listed, else keep the old
        binding. */
    method OnPistonDeviceSelected(index: int)
      modifies this`pistonChoice, this`linearActuator
      ensures pistonChoice == Some(index)
      ensures linearActuator == if index in Indices(linearDevices) then Some(Actuator(index, Linear, 0)) else old(linearActuator)
      ensures old(BindingsValid()) ==> BindingsValid()
    {
      pistonChoice := Some(index);
      if index in Indices(linearDevices) {
        linearActuator := Some(Actuator(index, Linear, 0));
      }
    }

    /** on_vibe_device_selected, likewise for the vibrator binding. */
    method OnVibeDeviceSelected(index: int)
      modifies this`vibeChoice, this`vibratorActuator
      ensures vibeChoice == Some(index)
      ensures vibratorActuator == if index in Indices(vibratorDevices) then Some(Actuator(index, Vibrator, 0)) else old(vibratorActuator)
      ensures old(BindingsValid()) ==> BindingsValid()
    {
      vibeChoice := Some(index);
      if index in Indices(vibratorDevices) {
        vibratorActuator := Some(Actuator(index, Vibrator, 0));
      }
    }

    /** The per-message body of game_websocket_listener: both modes are
        replaced exactly when either incoming value differs; a missing field
        reads as 0. Either way the modes end up equal to the message's. */
    method OnGameMessage(msg: map<string, int>) returns (changed: bool)
      modifies this`pistonMode, this`vibeMode
      ensures changed <==> ModesOf(msg) != (old(pistonMode), old(vibeMode))
      ensures (pistonMode, vibeMode) == ModesOf(msg)
    {
      var newPiston := MapGet(msg, "piston", 0);
      var newVibe := MapGet(msg, "vibe", 0);
      changed := newPiston != pistonMode || newVibe != vibeMode;
      if changed {
        pistonMode := newPiston;
        vibeMode := newVibe;
      }
    }
  }

  /** What the piston worker does with the globals: while the range stays
      put, a target inside it stays inside it, and every stroke made with
      the mode on goes to a position inside it. */
  lemma PistonStaysInRange(c: ControllerState, st: Workers.PistonState, fails: bool)
    requires c.pistonPosMin <= st.target <= c.pistonPosMax
    ensures var t := Workers.PistonStep(st, c.PistonSnapshot(fails));
      && c.pistonPosMin <= t.next.target <= c.pistonPosMax
      && (t.sent.Some? && c.pistonMode > 0 ==>
            c.pistonPosMin <= t.sent.value.position <= c.pistonPosMax)
  {
  }

  /** What the vibe worker does with the globals: with every strength in
      [0, 1], as the strength sliders keep them, every command it sends is a
      valid speed, and from its start the first tick with a vibrator bound
      sends. */
  lemma VibeSendsValidSpeeds(c: ControllerState, last: real, fails: bool)
    requires UnitStrengths(c.vibeStrength)
    ensures var t := Workers.VibeStep(last, c.VibeSnapshot(fails));
      && (t.sent.Some? ==> t.sent.value.Vibrate? && 0.0 <= t.sent.value.speed <= 1.0)
      && (last == Workers.NeverSent && c.vibratorActuator.Some? ==> t.sent.Some?)
  {
  }
}
