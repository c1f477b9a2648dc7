/**
 * The xComfort light entity: brightness conversion between the host's
 * 0..255 scale and the device's 0..99 scale, the pushed light state, and
 * the turn-on / turn-off commands that forward to the device and update
 * the held state in place.
 */
module Light {
  import opened Wrappers

  /** The host platform's colour modes that a light can report. */
  datatype ColorMode = BrightnessMode | OnOffMode

  /** A call the entity makes on its vendor device object. */
  datatype DeviceCall = Dimm(level: int) | Switch(on: bool)

  // ---------------------------------------------------------------------
  // Brightness conversion
  // ---------------------------------------------------------------------

  /**
   * Host brightness to device level: `ceil(b * 99 / 255.0)`, written as an
   * exact integer ceiling. The result is the least integer not below the
   * real quotient b * 99 / 255.
   */
  function ToDevice(b: int): (r: int)
    ensures (r - 1) as real < (b * 99) as real / 255.0 <= r as real
  {
    (99 * b + 254) / 255
  }

  /**
   * Device level to host brightness: `int(255.0 * d / 99.0)`, written as an
   * exact integer quotient that truncates toward zero as Python's `int`
   * does, also for a negative level.
   */
  function ToHost(d: int): (r: int)
    ensures d >= 0 ==> r as real <= (255 * d) as real / 99.0 < (r + 1) as real
    ensures d < 0 ==> (r - 1) as real < (255 * d) as real / 99.0 <= r as real
  {
    if d >= 0 then (255 * d) / 99 else -((255 * -d) / 99)
  }

  /**
   * Every host brightness lands on a device level, with both ends fixed;
   * only zero goes to level zero, and the top three brightnesses share
   * the top level.
   */
  lemma ToDeviceBounds(b: int)
    requires 0 <= b <= 255
    ensures 0 <= ToDevice(b) <= 99
    ensures b == 0 <==> ToDevice(b) == 0
    ensures ToDevice(b) == 99 <==> b >= 253
  {
  }

  /** Every device level lands on a host brightness, with both ends fixed. */
  lemma ToHostBounds(d: int)
    requires 0 <= d <= 99
    ensures 0 <= ToHost(d) <= 255
    ensures d == 0 <==> ToHost(d) == 0
    ensures d == 99 <==> ToHost(d) == 255
  {
  }

  /** Converting a device level to the host scale and back gives it back. */
  lemma DeviceRoundTrip(d: int)
    requires 0 <= d <= 99
    ensures ToDevice(ToHost(d)) == d
  {
    var h := ToHost(d);
    assert 99 * h <= 255 * d < 99 * h + 99;
    assert 255 * d <= 99 * h + 254 < 255 * d + 255;
  }

  /**
   * Converting a host brightness to the device scale and back never lowers
   * it and raises it by at most two.
   */
  lemma HostRoundTrip(b: int)
    requires 0 <= b <= 255
    ensures b <= ToHost(ToDevice(b)) <= b + 2
  {
    var d := ToDevice(b);
    assert 99 * b <= 255 * d < 99 * b + 255;
    var h := ToHost(d);
    assert 99 * h <= 255 * d < 99 * h + 99;
  }

  /** The host round trip can gain two, so it is not within one step. */
  lemma HostRoundTripGainsTwo()
    ensures ToDevice(3) == 2 && ToHost(2) == 5
    ensures exists b :: 0 <= b <= 255 && ToHost(ToDevice(b)) == b + 2
  {
    assert ToHost(ToDevice(3)) == 3 + 2;
  }

  // ---------------------------------------------------------------------
  // Vendor objects
  // ---------------------------------------------------------------------

  /** A device reported by the hub; only lights are wrapped. */
  class Device {
    const deviceId: int
    /** True when the device is an instance of the vendor's `Light`. */
    const isLight: bool
    const dimmable: bool
    /** The calls made on this device, oldest first. */
    ghost var calls: seq<DeviceCall>

    constructor (deviceId: int, isLight: bool, dimmable: bool)
      ensures this.deviceId == deviceId && this.isLight == isLight
      ensures this.dimmable == dimmable && calls == []
    {
      this.deviceId := deviceId;
      this.isLight := isLight;
      this.dimmable := dimmable;
      calls := [];
    }
  }

  /** The pushed state of a light; the commands update it in place. */
  class LightState {
    var switch: bool
    var dimmvalue: Option<int>

    constructor (switch: bool, dimmvalue: Option<int>)
      ensures this.switch == switch && this.dimmvalue == dimmvalue
    {
      this.switch := switch;
      this.dimmvalue := dimmvalue;
    }
  }

  // ---------------------------------------------------------------------
  // The light entity
  // ---------------------------------------------------------------------

  class XComfortLight {
    const device: Device
    /** The last pushed state; `null` until the first push. */
    var state: LightState?
    /** How many times a host state update has been scheduled. */
    ghost var updates: nat

    constructor (device: Device)
      ensures this.device == device && state == null && updates == 0
    {
      this.device := device;
      state := null;
      updates := 0;
    }

    /** The push handler: keep the new state; schedule an update unless it is `null`. */
    method StateChange(s: LightState?)
      modifies this
      ensures state == s
      ensures updates == old(updates) + (if s != null then 1 else 0)
    {
      state := s;
      var shouldUpdate := state != null;
      if shouldUpdate {
        updates := updates + 1;
      }
    }

    /**
     * The host brightness, absent without a state or without a dimming
     * level; a level in the device's range reads as a host brightness that
     * converts back to exactly that level.
     */
    function Brightness(): (r: Option<int>)
      reads this, state
      ensures r.None? <==> state == null || state.dimmvalue.None?
      ensures r.Some? ==> r.value == ToHost(state.dimmvalue.value)
      ensures r.Some? && 0 <= state.dimmvalue.value <= 99 ==>
                0 <= r.value <= 255 && ToDevice(r.value) == state.dimmvalue.value
    {
      if state != null && state.dimmvalue.Some? then
        var d := state.dimmvalue.value;
        if 0 <= d <= 99 then ToHostBounds(d); DeviceRoundTrip(d); Some(ToHost(d))
        else Some(ToHost(d))
      else
        None
    }

    /** On exactly when a state has been pushed and its switch is on. */
    function IsOn(): (r: bool)
      reads this, state
      ensures r <==> state != null && state.switch
    {
      if state != null then state.switch else false
    }

    /** Brightness mode exactly for a dimmable device. */
    function CurrentColorMode(): (r: ColorMode)
      ensures r == BrightnessMode <==> device.dimmable
      ensures r == OnOffMode <==> !device.dimmable
    {
      if device.dimmable then BrightnessMode else OnOffMode
    }

    /** The supported colour modes are just the current one. */
    function SupportedColorModes(): (r: set<ColorMode>)
      ensures r == {CurrentColorMode()}
    {
      if device.dimmable then {BrightnessMode} else {OnOffMode}
    }

    /**
     * Turn on: a dimmable device given a brightness is dimmed to the
     * converted level, which is kept as the state's level; otherwise the
     * device is switched on and the state's switch set. The held state
     * must exist (the source dereferences it unguarded).
     */
    method TurnOn(brightness: Option<int>)
      requires state != null
      modifies state, device`calls, this`updates
      ensures updates == old(updates) + 1
      ensures brightness.Some? && device.dimmable ==>
                device.calls == old(device.calls) + [Dimm(ToDevice(brightness.value))] &&
                state.dimmvalue == Some(ToDevice(brightness.value)) &&
                state.switch == old(state.switch)
      ensures brightness.Some? && device.dimmable && 0 <= brightness.value <= 255 ==>
                Brightness().Some? &&
                brightness.value <= Brightness().value <= brightness.value + 2
      ensures !(brightness.Some? && device.dimmable) ==>
                device.calls == old(device.calls) + [Switch(true)] &&
                state.switch && IsOn() &&
                state.dimmvalue == old(state.dimmvalue)
    {
      if brightness.Some? && device.dimmable {
        var br := ToDevice(brightness.value);
        device.calls := device.calls + [Dimm(br)];
        state.dimmvalue := Some(br);
        updates := updates + 1;
        if 0 <= brightness.value <= 255 {
          ToDeviceBounds(brightness.value);
          HostRoundTrip(brightness.value);
        }
        return;
      }
      device.calls := device.calls + [Switch(true)];
      state.switch := true;
      updates := updates + 1;
    }

    /** Turn off: switch the device off and clear the state's switch. */
    method TurnOff()
      requires state != null
      modifies state, device`calls, this`updates
      ensures updates == old(updates) + 1
      ensures device.calls == old(device.calls) + [Switch(false)]
      ensures !state.switch && !IsOn()
      ensures state.dimmvalue == old(state.dimmvalue)
    {
      device.calls := device.calls + [Switch(false)];
      state.switch := false;
      updates := updates + 1;
    }
  }

  // ---------------------------------------------------------------------
  // Setup
  // ---------------------------------------------------------------------

  /** The lights among the hub's devices, in hub order. */
  function Lights(devices: seq<Device>): (r: seq<Device>)
    ensures |r| <= |devices|
  {
    if devices == [] then []
    else Lights(devices[..|devices| - 1])
         + (if devices[|devices| - 1].isLight then [devices[|devices| - 1]] else [])
  }

  /** A device is selected exactly when it is among the devices and a light. */
  lemma {:induction false} LightsMembers(devices: seq<Device>)
    ensures forall d :: d in Lights(devices) <==> d in devices && d.isLight
  {
    if devices != [] {
      var init := devices[..|devices| - 1];
      LightsMembers(init);
      assert devices == init + [devices[|devices| - 1]];
    }
  }

  /** Selection keeps hub order: it distributes over concatenation. */
  lemma {:induction false} LightsAppend(a: seq<Device>, b: seq<Device>)
    ensures Lights(a + b) == Lights(a) + Lights(b)
  {
    if b == [] {
      assert a + b == a;
    } else {
      var init := b[..|b| - 1];
      LightsAppend(a, init);
      assert (a + b)[..|a + b| - 1] == a + init;
    }
  }

  /** Setup wraps each light of the hub in a new entity, in hub order. */
  method SetupEntry(devices: seq<Device>) returns (lights: seq<XComfortLight>)
    ensures |lights| == |Lights(devices)|
    ensures forall i :: 0 <= i < |lights| ==>
              lights[i].device == Lights(devices)[i] && fresh(lights[i]) &&
              lights[i].state == null && lights[i].updates == 0
  {
    lights := [];
    for i := 0 to |devices|
      invariant |lights| == |Lights(devices[..i])|
      invariant forall j :: 0 <= j < |lights| ==>
                  lights[j].device == Lights(devices[..i])[j] && fresh(lights[j]) &&
                  lights[j].state == null && lights[j].updates == 0
    {
      assert devices[..i + 1][..i] == devices[..i];
      if devices[i].isLight {
        var light := new XComfortLight(devices[i]);
        lights := lights + [light];
      }
    }
    assert devices[..|devices|] == devices;
  }
}
