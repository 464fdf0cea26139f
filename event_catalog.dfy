/**
 * The event properties: the closed set of event instances, the rule that
 * decides whether a state supports each one, the ordered list of events each
 * one advertises, and the tables that turn a raw state or action token into
 * one of those events.
 */
module EventCatalog {
  import opened Wrappers
  import opened EventState

  /** The event instances, one per event property class. */
  datatype EventInstance =
    | Open | Motion | Gas | Smoke | BatteryLevel | WaterLevel | WaterLeak | Button | Vibration
  {
    /**
     * The instance name, as reported in `parameters()["instance"]`: a
     * non-empty identifier of lower-case letters and underscores.
     */
    function Name(): (r: string)
      ensures r != [] && r[0] != '_'
      ensures forall k :: 0 <= k < |r| ==> r[k] == '_' || 'a' <= r[k] <= 'z'
    {
      match this
      case Open => "open"
      case Motion => "motion"
      case Gas => "gas"
      case Smoke => "smoke"
      case BatteryLevel => "battery_level"
      case WaterLevel => "water_level"
      case WaterLeak => "water_leak"
      case Button => "button"
      case Vibration => "vibration"
    }

    /** Button and vibration are read from an action token; the others from the on/off state. */
    predicate ActionBased()
    {
      this == Button || this == Vibration
    }
  }

  /** The instance a name stands for: the inverse of `Name`. */
  function InstanceNamed(name: string): (r: Option<EventInstance>)
    ensures r.Some? ==> r.value.Name() == name
    ensures forall inst: EventInstance :: inst.Name() == name ==> r == Some(inst)
  {
    if name == "open" then Some(Open)
    else if name == "motion" then Some(Motion)
    else if name == "gas" then Some(Gas)
    else if name == "smoke" then Some(Smoke)
    else if name == "battery_level" then Some(BatteryLevel)
    else if name == "water_level" then Some(WaterLevel)
    else if name == "water_leak" then Some(WaterLeak)
    else if name == "button" then Some(Button)
    else if name == "vibration" then Some(Vibration)
    else None
  }

  /** The events an instance can report, in the order it advertises them. */
  function Vocabulary(inst: EventInstance): (r: seq<string>)
    ensures 2 <= |r| <= 3
    ensures forall i, j :: 0 <= i < j < |r| ==> r[i] != r[j]
  {
    match inst
    case Open => ["opened", "closed"]
    case Motion => ["detected", "not_detected"]
    case Gas => ["detected", "not_detected", "high"]
    case Smoke => ["detected", "not_detected", "high"]
    case BatteryLevel => ["low", "normal"]
    case WaterLevel => ["low", "normal"]
    case WaterLeak => ["leak", "dry"]
    case Button => ["click", "double_click", "long_press"]
    case Vibration => ["vibration", "tilt", "fall"]
  }

  /** A state is a steady value only for the instances read from the on/off state. */
  function Retrievable(inst: EventInstance): (r: bool)
    ensures r <==> inst != Button && inst != Vibration
    ensures r <==> ActionTable(inst) == []
    ensures r <==> DeviceClasses(inst) != {}
  {
    !inst.ActionBased()
  }

  /** One entry of `parameters()["events"]`. */
  datatype Event = Event(value: string)

  /** The record `parameters()` returns. */
  datatype Parameters = Parameters(instance: string, events: seq<Event>)

  /** The `{value: v}` entries for a list of event values, in the same order. */
  function Events(values: seq<string>): (r: seq<Event>)
    ensures |r| == |values|
    ensures forall i :: 0 <= i < |values| ==> r[i].value == values[i]
  {
    if values == [] then [] else [Event(values[0])] + Events(values[1..])
  }

  /** `parameters()`: the instance name and its events in vocabulary order. */
  function ParametersOf(inst: EventInstance): (r: Parameters)
    ensures InstanceNamed(r.instance) == Some(inst)
    ensures |r.events| == |Vocabulary(inst)|
    ensures forall i :: 0 <= i < |r.events| ==> r.events[i].value == Vocabulary(inst)[i]
  {
    Parameters(inst.Name(), Events(Vocabulary(inst)))
  }

  /** The device classes that give an instance read from the on/off state. */
  function DeviceClasses(inst: EventInstance): (r: set<string>)
    ensures r == {} <==> inst.ActionBased()
    ensures "button" !in r && "vibration" !in r
  {
    match inst
    case Open => {"door", "garage_door", "window", "opening"}
    case Motion => {"motion", "occupancy", "presence"}
    case Gas => {"gas"}
    case Smoke => {"smoke"}
    case BatteryLevel => {"battery"}
    case WaterLevel => {"water_level"}
    case WaterLeak => {"moisture"}
    case Button => {}
    case Vibration => {}
  }

  /** A translation table from raw tokens to events; the first matching entry wins. */
  type Table = seq<(string, string)>

  /**
   * How the on/off state (or, for a button, its raw state) reads as an event.
   * No token is repeated, and the events are the instance's vocabulary in
   * order: all of it for a retrievable instance, its first event for vibration.
   */
  function StateTable(inst: EventInstance): (r: Table)
    ensures DistinctKeys(r)
    ensures |r| <= |Vocabulary(inst)|
    ensures forall i :: 0 <= i < |r| ==> r[i].1 == Vocabulary(inst)[i]
    ensures inst != Vibration ==> |r| == |Vocabulary(inst)|
    ensures !inst.ActionBased() ==> r[0].0 == STATE_ON && r[1].0 == STATE_OFF
  {
    match inst
    case Open => [(STATE_ON, "opened"), (STATE_OFF, "closed")]
    case Motion => [(STATE_ON, "detected"), (STATE_OFF, "not_detected")]
    case Gas => [(STATE_ON, "detected"), (STATE_OFF, "not_detected"), ("high", "high")]
    case Smoke => [(STATE_ON, "detected"), (STATE_OFF, "not_detected"), ("high", "high")]
    case BatteryLevel => [(STATE_ON, "low"), (STATE_OFF, "normal")]
    case WaterLevel => [(STATE_ON, "low"), (STATE_OFF, "normal")]
    case WaterLeak => [(STATE_ON, "leak"), (STATE_OFF, "dry")]
    // A button with no action attribute reports its event as its state.
    case Button => [("click", "click"), ("double_click", "double_click"), ("long_press", "long_press")]
    // A vibration sensor matched by its device class vibrates while it is on.
    case Vibration => [(STATE_ON, "vibration")]
  }

  /**
   * How an action token reads as an event. Only button and vibration have
   * one; it repeats no token and gives the instance's vocabulary in order.
   */
  function ActionTable(inst: EventInstance): (r: Table)
    ensures DistinctKeys(r)
    ensures r == [] <==> !inst.ActionBased()
    ensures r != [] ==> |r| == |Vocabulary(inst)|
    ensures forall i :: 0 <= i < |r| ==> r[i].1 == Vocabulary(inst)[i]
  {
    match inst
    case Button => [("single", "click"), ("double", "double_click"), ("hold", "long_press")]
    case Vibration => [("vibrate", "vibration"), ("flip90", "tilt"), ("free_fall", "fall")]
    case _ => []
  }

  /** The event the first entry for `key` gives, or None when no entry has that key. */
  function Lookup(table: Table, key: string): (r: Option<string>)
    ensures r.Some? ==> exists i :: 0 <= i < |table| && table[i] == (key, r.value)
    ensures r.Some? ==> exists i :: 0 <= i < |table| && table[i] == (key, r.value) &&
                          forall j :: 0 <= j < i ==> table[j].0 != key
    ensures r.None? <==> forall i :: 0 <= i < |table| ==> table[i].0 != key
  {
    if table == [] then None
    else if table[0].0 == key then Some(table[0].1)
    else Lookup(table[1..], key)
  }

  /** No two entries of a table share a raw token. */
  predicate DistinctKeys(table: Table)
  {
    forall i, j :: 0 <= i < j < |table| ==> table[i].0 != table[j].0
  }

  /** In a table without repeated tokens every entry is the one its token finds. */
  lemma {:induction false} LookupEntry(table: Table, i: nat)
    requires DistinctKeys(table) && i < |table|
    ensures Lookup(table, table[i].0) == Some(table[i].1)
  {
    if i > 0 {
      assert table[0].0 != table[i].0;
      assert DistinctKeys(table[1..]) by {
        forall j, k | 0 <= j < k < |table[1..]| ensures table[1..][j].0 != table[1..][k].0 {
          assert table[1..][j] == table[j + 1] && table[1..][k] == table[k + 1];
        }
      }
      LookupEntry(table[1..], i - 1);
      assert table[1..][i - 1] == table[i];
    }
  }

  /**
   * Whether the state has what the instance needs, the beta flag aside. When
   * the domain's action attribute is present, its token must be one the
   * instance translates; otherwise a button needs an input_text with device
   * class `button`, a vibration sensor a binary sensor with device class
   * `vibration`, and every other instance a binary sensor with one of its
   * device classes.
   */
  predicate Applies(inst: EventInstance, s: State)
    ensures Applies(inst, s) ==> DeviceClass(s).Some? || Action(s).Some?
    ensures Applies(inst, s) && !inst.ActionBased() ==> s.domain == BINARY_SENSOR
    ensures inst.ActionBased() && Action(s).Some? ==> (Applies(inst, s) <==> Value(inst, s).Some?)
    ensures inst.ActionBased() && Action(s).None? ==> (Applies(inst, s) ==> DeviceClass(s) == Some(inst.Name()))
  {
    if inst.ActionBased() then
      match Action(s)
      case Some(a) => Lookup(ActionTable(inst), a).Some?
      case None =>
        if inst == Button then s.domain == INPUT_TEXT && DeviceClass(s) == Some("button")
        else s.domain == BINARY_SENSOR && DeviceClass(s) == Some("vibration")
    else
      s.domain == BINARY_SENSOR && DeviceClass(s).Some? && DeviceClass(s).value in DeviceClasses(inst)
  }

  /** `supported()`: every event property is withheld unless beta features are on. */
  predicate Supported(beta: bool, inst: EventInstance, s: State)
    ensures Supported(beta, inst, s) ==> beta
  {
    beta && Applies(inst, s)
  }

  /**
   * `get_value()`: the event the current state reads as, or None. Button and
   * vibration translate the action token when there is one; otherwise, and for
   * every other instance, the state string is translated.
   */
  function Value(inst: EventInstance, s: State): (r: Option<string>)
    ensures r.Some? ==> r.value in Vocabulary(inst)
  {
    if inst.ActionBased() && Action(s).Some? then Lookup(ActionTable(inst), Action(s).value)
    else Lookup(StateTable(inst), s.state)
  }

  /** Button and vibration never claim the same state. */
  lemma ButtonVibrationExclusive(beta: bool, s: State)
    ensures !(Supported(beta, Button, s) && Supported(beta, Vibration, s))
  {
    if Action(s).Some? {
      var a := Action(s).value;
      if Lookup(ActionTable(Button), a).Some? {
        assert a in {"single", "double", "hold"};
      }
    }
  }

  /** Two different instances read from the on/off state never claim the same state. */
  lemma DeviceClassesExclusive(beta: bool, x: EventInstance, y: EventInstance, s: State)
    requires !x.ActionBased() && !y.ActionBased() && x != y
    ensures !(Supported(beta, x, s) && Supported(beta, y, s))
  {
    assert DeviceClasses(x) * DeviceClasses(y) == {};
  }

  /**
   * The order of the advertised events follows the state: `on` reads as the
   * first event, `off` as the second, and `high` as the third of gas and smoke.
   */
  lemma StateFollowsEventOrder(inst: EventInstance, s: State)
    requires Retrievable(inst)
    ensures Value(inst, s.(state := STATE_ON)) == Some(Vocabulary(inst)[0])
    ensures Value(inst, s.(state := STATE_OFF)) == Some(Vocabulary(inst)[1])
    ensures |Vocabulary(inst)| == 3 ==> Value(inst, s.(state := "high")) == Some(Vocabulary(inst)[2])
    ensures |Vocabulary(inst)| == 3 <==> inst == Gas || inst == Smoke
  {
    var table := StateTable(inst);
    LookupEntry(table, 0);
    LookupEntry(table, 1);
    if |table| == 3 {
      LookupEntry(table, 2);
    }
  }

  /** An action token listed in the table of button or vibration reads as its event. */
  lemma ActionEntryReads(inst: EventInstance, s: State, i: nat)
    requires inst.ActionBased() && i < |ActionTable(inst)| && Action(s) == Some(ActionTable(inst)[i].0)
    ensures Value(inst, s) == Some(ActionTable(inst)[i].1)
  {
    LookupEntry(ActionTable(inst), i);
  }

  /**
   * A retrievable instance reads only the state string, whatever the
   * attributes say; a non-retrievable one does not: two states with the same
   * string can read differently.
   */
  lemma RetrievableReadsOnlyState(inst: EventInstance)
    ensures Retrievable(inst) ==> forall s: State, t: State :: s.state == t.state ==> Value(inst, s) == Value(inst, t)
    ensures !Retrievable(inst) ==> exists s: State, t: State :: s.state == t.state && Value(inst, s) != Value(inst, t)
  {
    if !Retrievable(inst) {
      var s := State(BINARY_SENSOR, STATE_ON, map[ATTR_LAST_ACTION := ActionTable(inst)[1].0]);
      var t := State(BINARY_SENSOR, STATE_ON, map[]);
      assert Value(inst, s) == Some(ActionTable(inst)[1].1);
      assert Value(inst, t) != Value(inst, s);
    }
  }

  /** Every advertised event is reported by some supported state. */
  lemma EveryEventReachable(inst: EventInstance, event: string)
    requires event in Vocabulary(inst)
    ensures exists s: State :: Supported(true, inst, s) && Value(inst, s) == Some(event)
  {
    var i :| 0 <= i < |Vocabulary(inst)| && Vocabulary(inst)[i] == event;
    if inst.ActionBased() {
      var s := State(BINARY_SENSOR, STATE_ON, map[ATTR_LAST_ACTION := ActionTable(inst)[i].0]);
      ActionOfOnlyAttribute(BINARY_SENSOR, STATE_ON, ActionTable(inst)[i].0);
      ActionEntryReads(inst, s, i);
      assert Supported(true, inst, s) && Value(inst, s) == Some(event);
    } else {
      var dc :| dc in DeviceClasses(inst);
      var raw := if i == 0 then STATE_ON else if i == 1 then STATE_OFF else "high";
      var s := State(BINARY_SENSOR, raw, map[ATTR_DEVICE_CLASS := dc]);
      StateFollowsEventOrder(inst, s);
      assert s.(state := raw) == s;
      assert Supported(true, inst, s) by {
        assert DeviceClass(s) == Some(dc);
      }
    }
  }
}
