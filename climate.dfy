/**
 * The RC Touch climate entity: the table between host preset names and
 * heating modes, the clamping of a requested setpoint to the current mode's
 * allowed range, the push handler, and the commands that forward to the
 * room and its bridge.
 */
module Climate {
  import opened Wrappers

  /** The heating modes of an RC Touch controller (the vendor's `RctMode`). */
  datatype Mode = Cool | Eco | Comfort

  /** The allowed setpoint range of one mode, as the bridge reports it. */
  datatype Range = Range(Min: real, Max: real)

  /**
   * A pushed room state. `raw` holds the message's mode keys, already
   * decoded to modes; `rctstate` is the numeric value of the vendor's
   * controller-state enum.
   */
  datatype RoomState = RoomState(
    temperature: real,
    setpoint: Option<real>,
    power: real,
    rctstate: int,
    raw: map<string, Mode>)

  datatype MessageType = SetHeatingState

  /** The body of a heating-state message. */
  datatype Payload = Payload(roomId: int, mode: Mode, state: int, setpoint: real, confirmed: bool)

  /** A call the entity makes on its room. */
  datatype RoomCall = SetMode(mode: Mode)

  /** A message the entity sends through the bridge. */
  datatype Message = Message(kind: MessageType, payload: Payload)

  datatype HvacAction = Heating | Idle

  /** The host platform's names for the eco and comfort presets. */
  const PresetEco: string := "eco"
  const PresetComfort: string := "comfort"
  const PresetCool: string := "Cool"

  /** The presets the entity offers, in the order it lists them. */
  const PresetModes: seq<string> := [PresetCool, PresetEco, PresetComfort]

  /** The limits reported before any state has been pushed. */
  const DefaultMinTemp: real := 5.0
  const DefaultMaxTemp: real := 40.0

  // ---------------------------------------------------------------------
  // Preset table
  // ---------------------------------------------------------------------

  /** The mode a preset name selects; only the offered presets select one. */
  function ModeOfPreset(name: string): (r: Option<Mode>)
    ensures r.Some? <==> name in PresetModes
  {
    if name == PresetCool then Some(Cool)
    else if name == PresetEco then Some(Eco)
    else if name == PresetComfort then Some(Comfort)
    else None
  }

  /** The preset name a mode is reported as; it selects that mode again. */
  function PresetName(m: Mode): (r: string)
    ensures r in PresetModes
    ensures ModeOfPreset(r) == Some(m)
  {
    match m
    case Cool => PresetCool
    case Eco => PresetEco
    case Comfort => PresetComfort
  }

  /**
   * The offered presets are three distinct names, each selecting a
   * different mode, and every mode is reported under one of them.
   */
  lemma PresetModesOffered()
    ensures |PresetModes| == 3
    ensures forall i, j :: 0 <= i < j < |PresetModes| ==>
              ModeOfPreset(PresetModes[i]).Some? &&
              ModeOfPreset(PresetModes[i]) != ModeOfPreset(PresetModes[j])
    ensures forall m: Mode :: PresetName(m) in PresetModes
  {
    assert ModeOfPreset(PresetModes[0]) == Some(Cool);
    assert ModeOfPreset(PresetModes[1]) == Some(Eco);
    assert ModeOfPreset(PresetModes[2]) == Some(Comfort);
  }

  /** The two directions of the table are inverse to each other. */
  lemma PresetTableInverse(name: string, m: Mode)
    ensures ModeOfPreset(name) == Some(m) <==> name == PresetName(m)
  {
  }

  // ---------------------------------------------------------------------
  // Setpoint clamping
  // ---------------------------------------------------------------------

  /**
   * The requested setpoint brought into the range: first lowered to `Max`,
   * then raised to `Min`, so `Min` wins for a range with `Min > Max`.
   */
  function Clamp(setpoint: real, range: Range): (r: real)
    ensures range.Min <= range.Max ==> range.Min <= r <= range.Max
    ensures range.Min <= setpoint <= range.Max ==> r == setpoint
    ensures range.Min <= range.Max && setpoint > range.Max ==> r == range.Max
    ensures setpoint < range.Min ==> r == range.Min
    ensures range.Min > range.Max ==> r == range.Min
  {
    var lowered := if setpoint > range.Max then range.Max else setpoint;
    if lowered < range.Min then range.Min else lowered
  }

  /** Clamping twice is clamping once. */
  lemma ClampIdempotent(setpoint: real, range: Range)
    ensures Clamp(Clamp(setpoint, range), range) == Clamp(setpoint, range)
  {
  }

  // ---------------------------------------------------------------------
  // Vendor objects
  // ---------------------------------------------------------------------

  /**
   * The bridge connection, shared by every room of the hub: it holds the
   * allowed setpoint range per mode and carries the messages sent to it.
   */
  class Bridge {
    /** The allowed setpoint range per mode (`rctsetpointallowedvalues`). */
    const allowedValues: map<Mode, Range>
    /** The messages sent through this bridge, oldest first. */
    ghost var messages: seq<Message>

    constructor (allowedValues: map<Mode, Range>)
      ensures this.allowedValues == allowedValues && messages == []
    {
      this.allowedValues := allowedValues;
      messages := [];
    }
  }

  /** A room as the hub reports it, reached through its bridge. */
  class Room {
    const roomId: int
    const bridge: Bridge
    /** The current value of the room's state stream. */
    var state: Option<RoomState>
    /** The room's per-mode setpoint cache. */
    var modesetpoints: map<Mode, real>
    /** The calls made on this room, oldest first. */
    ghost var calls: seq<RoomCall>

    constructor (roomId: int, bridge: Bridge, state: Option<RoomState>,
                 modesetpoints: map<Mode, real>)
      ensures this.roomId == roomId && this.bridge == bridge
      ensures this.state == state && this.modesetpoints == modesetpoints && calls == []
    {
      this.roomId := roomId;
      this.bridge := bridge;
      this.state := state;
      this.modesetpoints := modesetpoints;
      calls := [];
    }
  }

  // ---------------------------------------------------------------------
  // The climate entity
  // ---------------------------------------------------------------------

  class RcTouch {
    const room: Room
    /** The last pushed state; `None` until the first push. */
    var state: Option<RoomState>
    var rctpreset: Mode
    var temperature: real
    var currentsetpoint: Option<real>
    /** How many times a host state update has been scheduled. */
    ghost var updates: nat

    /** The fields as a new entity holds them. */
    ghost predicate Initial()
      reads this
    {
      state == None && rctpreset == Comfort && temperature == 20.0 &&
      currentsetpoint == Some(20.0) && updates == 0
    }

    constructor (room: Room)
      ensures this.room == room && Initial()
      ensures MinTemp() == DefaultMinTemp && MaxTemp() == DefaultMaxTemp
    {
      this.room := room;
      state := None;
      rctpreset := Comfort;
      temperature := 20.0;
      currentsetpoint := Some(20.0);
      updates := 0;
    }

    /**
     * The push handler. A present state sets the preset from its "mode"
     * key, else from its "currentMode" key, else keeps it, and copies the
     * temperature and setpoint; only a present state schedules an update.
     */
    method StateChange(s: Option<RoomState>)
      modifies this
      ensures state == s
      ensures s.None? ==>
                rctpreset == old(rctpreset) && temperature == old(temperature) &&
                currentsetpoint == old(currentsetpoint) && updates == old(updates)
      ensures s.Some? ==>
                rctpreset == (if "mode" in s.value.raw then s.value.raw["mode"]
                              else if "currentMode" in s.value.raw then s.value.raw["currentMode"]
                              else old(rctpreset)) &&
                temperature == s.value.temperature &&
                currentsetpoint == s.value.setpoint &&
                TargetTemperature() == s.value.setpoint &&
                updates == old(updates) + 1
    {
      state := s;
      if state.Some? {
        var st := state.value;
        if "currentMode" in st.raw {
          rctpreset := st.raw["currentMode"];
        }
        if "mode" in st.raw {
          rctpreset := st.raw["mode"];
        }
        temperature := st.temperature;
        currentsetpoint := st.setpoint;
        updates := updates + 1;
      }
    }

    /**
     * Select a preset by name. An unknown name, or one naming the current
     * mode, changes nothing and calls nothing; otherwise the room is told
     * the new mode once and the preset follows. Afterwards an offered name
     * is always the reported preset.
     */
    method SetPresetMode(name: string)
      modifies this`rctpreset, this`updates, room`calls
      ensures ModeOfPreset(name).Some? && ModeOfPreset(name).value != old(rctpreset) ==>
                rctpreset == ModeOfPreset(name).value &&
                room.calls == old(room.calls) + [SetMode(rctpreset)] &&
                updates == old(updates) + 1
      ensures !(ModeOfPreset(name).Some? && ModeOfPreset(name).value != old(rctpreset)) ==>
                rctpreset == old(rctpreset) && room.calls == old(room.calls) &&
                updates == old(updates)
      ensures name in PresetModes ==> PresetMode() == name
    {
      var mode := ModeOfPreset(name);
      if mode.Some? && rctpreset != mode.value {
        room.calls := room.calls + [SetMode(mode.value)];
        rctpreset := mode.value;
        updates := updates + 1;
      }
      if name in PresetModes {
        PresetTableInverse(name, rctpreset);
      }
    }

    /**
     * Set the target temperature: clamp the request to the current mode's
     * range, send one heating-state message carrying the clamped value, and
     * store it as the room's setpoint for that mode and as the entity's
     * setpoint. The mode's range must exist and the room's state must be
     * present (the source indexes and dereferences both unguarded).
     */
    method SetTemperature(requested: real)
      requires rctpreset in room.bridge.allowedValues
      requires room.state.Some?
      modifies this`currentsetpoint, room`modesetpoints, room.bridge`messages
      ensures currentsetpoint == Some(Clamp(requested, room.bridge.allowedValues[rctpreset]))
      ensures room.modesetpoints == old(room.modesetpoints)[rctpreset := currentsetpoint.value]
      ensures room.bridge.messages == old(room.bridge.messages) +
                [Message(SetHeatingState,
                         Payload(room.roomId, rctpreset, room.state.value.rctstate,
                                 currentsetpoint.value, false))]
      ensures state.Some? && MinTemp() <= MaxTemp() ==>
                MinTemp() <= TargetTemperature().value <= MaxTemp()
    {
      var setpoint := requested;
      var setpointrange := room.bridge.allowedValues[rctpreset];
      if setpoint > setpointrange.Max {
        setpoint := setpointrange.Max;
      }
      if setpoint < setpointrange.Min {
        setpoint := setpointrange.Min;
      }
      var payload := Payload(room.roomId, rctpreset, room.state.value.rctstate, setpoint, false);
      room.bridge.messages := room.bridge.messages + [Message(SetHeatingState, payload)];
      room.modesetpoints := room.modesetpoints[rctpreset := setpoint];
      currentsetpoint := Some(setpoint);
    }

    /** The reported target temperature. */
    function TargetTemperature(): (r: Option<real>)
      reads this
      ensures r == currentsetpoint
    {
      currentsetpoint
    }

    /** The reported preset: the name that selects the current mode. */
    function PresetMode(): (r: string)
      reads this
      ensures ModeOfPreset(r) == Some(rctpreset)
    {
      PresetName(rctpreset)
    }

    /** The lowest settable temperature: the default until a push, then the mode's `Min`. */
    function MinTemp(): (r: real)
      reads this
      requires state.Some? ==> rctpreset in room.bridge.allowedValues
      ensures state.None? ==> r == DefaultMinTemp
      ensures state.Some? ==> r == room.bridge.allowedValues[rctpreset].Min
    {
      if state.None? then DefaultMinTemp else room.bridge.allowedValues[rctpreset].Min
    }

    /** The highest settable temperature: the default until a push, then the mode's `Max`. */
    function MaxTemp(): (r: real)
      reads this
      requires state.Some? ==> rctpreset in room.bridge.allowedValues
      ensures state.None? ==> r == DefaultMaxTemp
      ensures state.Some? ==> r == room.bridge.allowedValues[rctpreset].Max
    {
      if state.None? then DefaultMaxTemp else room.bridge.allowedValues[rctpreset].Max
    }

    /** Heating exactly while the pushed state reports positive power. */
    function Action(): (r: HvacAction)
      reads this
      requires state.Some?
      ensures r == Heating <==> state.value.power > 0.0
    {
      if state.value.power > 0.0 then Heating else Idle
    }
  }

  // ---------------------------------------------------------------------
  // Setup
  // ---------------------------------------------------------------------

  /** A room is wrapped when its state is present and carries a setpoint. */
  predicate Wrappable(r: Room)
    reads r
  {
    r.state.Some? && r.state.value.setpoint.Some?
  }

  /** The wrappable rooms among the hub's rooms, in hub order. */
  function SelectedRooms(rooms: seq<Room>): (r: seq<Room>)
    reads rooms
    ensures |r| <= |rooms|
  {
    if rooms == [] then []
    else SelectedRooms(rooms[..|rooms| - 1])
         + (if Wrappable(rooms[|rooms| - 1]) then [rooms[|rooms| - 1]] else [])
  }

  /** A room is selected exactly when it is among the rooms and wrappable. */
  lemma {:induction false} SelectedRoomsMembers(rooms: seq<Room>)
    ensures forall r :: r in SelectedRooms(rooms) <==> r in rooms && Wrappable(r)
  {
    if rooms != [] {
      var init := rooms[..|rooms| - 1];
      SelectedRoomsMembers(init);
      assert rooms == init + [rooms[|rooms| - 1]];
    }
  }

  /** Selection keeps hub order: it distributes over concatenation. */
  lemma {:induction false} SelectedRoomsAppend(a: seq<Room>, b: seq<Room>)
    ensures SelectedRooms(a + b) == SelectedRooms(a) + SelectedRooms(b)
  {
    if b == [] {
      assert a + b == a;
    } else {
      var init := b[..|b| - 1];
      SelectedRoomsAppend(a, init);
      assert (a + b)[..|a + b| - 1] == a + init;
    }
  }

  /** Setup wraps each wrappable room of the hub in a new entity, in hub order. */
  method SetupEntry(rooms: seq<Room>) returns (rcts: seq<RcTouch>)
    ensures |rcts| == |SelectedRooms(rooms)|
    ensures forall i :: 0 <= i < |rcts| ==>
              rcts[i].room == SelectedRooms(rooms)[i] && fresh(rcts[i]) && rcts[i].Initial()
  {
    rcts := [];
    for i := 0 to |rooms|
      invariant |rcts| == |SelectedRooms(rooms[..i])|
      invariant forall j :: 0 <= j < |rcts| ==>
                  rcts[j].room == SelectedRooms(rooms[..i])[j] && fresh(rcts[j]) && rcts[j].Initial()
    {
      assert rooms[..i + 1][..i] == rooms[..i];
      if Wrappable(rooms[i]) {
        var rct := new RcTouch(rooms[i]);
        rcts := rcts + [rct];
      }
    }
    assert rooms[..|rooms|] == rooms;
  }
}
