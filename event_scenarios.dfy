/**
 * The interactions the test suite has with event properties, written against
 * the model: each method builds the states the suite builds, asks what the
 * suite asks, and states in its postcondition what the suite asserts.
 */
module EventScenarios {
  import opened Wrappers
  import opened EventState
  import opened EventCatalog
  import opened EventMatcher
  import opened EventProperty

  /** The base event property, forced to be supported, fails to give a value. */
  method BaseValueFails() returns (r: Result<Option<string>, SmartHomeError>)
    ensures r.Failure?
    ensures r.error.code == ERR_NOT_SUPPORTED_IN_CURRENT_MODE && "Failed to get" <= r.error.message
  {
    var p := new Property(true, ForcedBase, State("state", STATE_ON, map[]));
    r := p.GetValue();
  }

  /** With beta features off, no registered event property supports an open door. */
  method NoBetaUnsupported(inst: EventInstance) returns (supported: bool)
    ensures !supported
  {
    var door := State(BINARY_SENSOR, STATE_ON, map[ATTR_DEVICE_CLASS := "door"]);
    var p := new Property(false, Concrete(inst), door);
    supported := p.IsSupported();
  }

  /** The state of the device-class tests: a binary sensor that is on, with device class `dc`. */
  function DeviceClassState(dc: string): State
  {
    State(BINARY_SENSOR, STATE_ON, map[ATTR_DEVICE_CLASS := dc])
  }

  /**
   * A binary sensor that is on, with device class `dc`, looked up under an
   * instance read from the on/off state: found exactly when the device class
   * is one of the instance's, and never as a float property.
   */
  lemma DeviceClassLookup(inst: EventInstance, dc: string)
    requires !inst.ActionBased()
    ensures Matches(true, DeviceClassState(dc), EventType, inst.Name()) == if dc in DeviceClasses(inst) then [inst] else []
    ensures Matches(true, DeviceClassState(dc), FloatType, inst.Name()) == []
  {
    var s := DeviceClassState(dc);
    assert InstanceNamed(inst.Name()) == Some(inst);
    assert DeviceClass(s) == Some(dc);
  }

  /**
   * The device-class rows of the contact test: a binary sensor that is on,
   * with the given device class, is found as exactly the open property, or as
   * none.
   */
  lemma SuiteOpenRows()
    ensures Matches(true, DeviceClassState("door"), EventType, "open") == [Open]
    ensures Matches(true, DeviceClassState("garage_door"), EventType, "open") == [Open]
    ensures Matches(true, DeviceClassState("window"), EventType, "open") == [Open]
    ensures Matches(true, DeviceClassState("opening"), EventType, "open") == [Open]
    ensures Matches(true, DeviceClassState("battery"), EventType, "open") == []
  {
    DeviceClassLookup(Open, "door");
    DeviceClassLookup(Open, "garage_door");
    DeviceClassLookup(Open, "window");
    DeviceClassLookup(Open, "opening");
    // `battery` and `opening` have the same length; their first letters tell them apart.
    assert "battery" !in DeviceClasses(Open) by {
      assert "battery"[0] != "opening"[0];
    }
    DeviceClassLookup(Open, "battery");
  }

  /**
   * The device-class rows of the motion test: a binary sensor that is on, with
   * the given device class, is found as exactly the motion property.
   */
  lemma SuiteMotionRows()
    ensures Matches(true, DeviceClassState("motion"), EventType, "motion") == [Motion]
    ensures Matches(true, DeviceClassState("occupancy"), EventType, "motion") == [Motion]
    ensures Matches(true, DeviceClassState("presence"), EventType, "motion") == [Motion]
  {
    DeviceClassLookup(Motion, "motion");
    DeviceClassLookup(Motion, "occupancy");
    DeviceClassLookup(Motion, "presence");
  }

  /**
   * The device-class rows of the gas and smoke tests: a binary sensor that is
   * on, with the given device class, is found as exactly the named event
   * property, or as none.
   */
  lemma SuiteGasSmokeRows()
    ensures Matches(true, DeviceClassState("gas"), EventType, "gas") == [Gas]
    ensures Matches(true, DeviceClassState("battery"), EventType, "gas") == []
    ensures Matches(true, DeviceClassState("smoke"), EventType, "smoke") == [Smoke]
    ensures Matches(true, DeviceClassState("battery"), EventType, "smoke") == []
  {
    DeviceClassLookup(Gas, "gas");
    DeviceClassLookup(Gas, "battery");
    DeviceClassLookup(Smoke, "smoke");
    DeviceClassLookup(Smoke, "battery");
  }

  /**
   * The device-class rows of the battery, water level and water leak tests:
   * a binary sensor that is on, with the given device class, is found as
   * exactly the named event property, or as none.
   */
  lemma SuiteBatteryWaterRows()
    ensures Matches(true, DeviceClassState("battery"), EventType, "battery_level") == [BatteryLevel]
    ensures Matches(true, DeviceClassState("smoke"), EventType, "battery_level") == []
    ensures Matches(true, DeviceClassState("water_level"), EventType, "water_level") == [WaterLevel]
    ensures Matches(true, DeviceClassState("smoke"), EventType, "water_level") == []
    ensures Matches(true, DeviceClassState("moisture"), EventType, "water_leak") == [WaterLeak]
    ensures Matches(true, DeviceClassState("smoke"), EventType, "water_leak") == []
  {
    DeviceClassLookup(BatteryLevel, "battery");
    DeviceClassLookup(BatteryLevel, "smoke");
    DeviceClassLookup(WaterLevel, "water_level");
    DeviceClassLookup(WaterLevel, "smoke");
    DeviceClassLookup(WaterLeak, "moisture");
    DeviceClassLookup(WaterLeak, "smoke");
  }

  /**
   * `retrievable` and `parameters()` of every event property the suite
   * inspects, with the event lists it expects, in its order.
   */
  lemma SuiteDescriptions()
    ensures forall inst: EventInstance :: Retrievable(inst) <==> inst != Button && inst != Vibration
    ensures ParametersOf(Open) == Parameters("open", [Event("opened"), Event("closed")])
    ensures ParametersOf(Motion) == Parameters("motion", [Event("detected"), Event("not_detected")])
    ensures ParametersOf(Gas) == Parameters("gas", [Event("detected"), Event("not_detected"), Event("high")])
    ensures ParametersOf(Smoke) == Parameters("smoke", [Event("detected"), Event("not_detected"), Event("high")])
    ensures ParametersOf(BatteryLevel) == Parameters("battery_level", [Event("low"), Event("normal")])
    ensures ParametersOf(WaterLevel) == Parameters("water_level", [Event("low"), Event("normal")])
    ensures ParametersOf(WaterLeak) == Parameters("water_leak", [Event("leak"), Event("dry")])
    ensures ParametersOf(Button) == Parameters("button", [Event("click"), Event("double_click"), Event("long_press")])
    ensures ParametersOf(Vibration) == Parameters("vibration", [Event("vibration"), Event("tilt"), Event("fall")])
  {
  }

  /**
   * The property found for such a sensor reads `on` as the first event of its
   * vocabulary and, after its state string is set to `off`, `off` as the
   * second; gas and smoke, set to `high`, read `high`.
   */
  method DeviceClassReads(inst: EventInstance, dc: string) returns (observed: seq<Option<string>>)
    requires !inst.ActionBased() && dc in DeviceClasses(inst)
    ensures inst == Gas || inst == Smoke ==> observed == [Some(Vocabulary(inst)[0]), Some(Vocabulary(inst)[1]), Some("high")]
    ensures inst != Gas && inst != Smoke ==> observed == [Some(Vocabulary(inst)[0]), Some(Vocabulary(inst)[1])]
  {
    var s := State(BINARY_SENSOR, STATE_ON, map[ATTR_DEVICE_CLASS := dc]);
    StateFollowsEventOrder(inst, s);
    assert s.(state := STATE_ON) == s;
    var p := new Property(true, Concrete(inst), s);
    var on := p.GetValue();
    p.SetStateValue(STATE_OFF);
    var off := p.GetValue();
    observed := [on.value, off.value];
    if inst == Gas || inst == Smoke {
      p.SetStateValue("high");
      assert p.state == s.(state := "high");
      var high := p.GetValue();
      observed := observed + [high.value];
    }
  }

  /** A state holding only its domain's action attribute reads as the action table says. */
  lemma ActionStateReads(inst: EventInstance, domain: string, token: string)
    requires inst.ActionBased() && (domain == BINARY_SENSOR || domain == SENSOR)
    ensures Value(inst, State(domain, STATE_ON, map[ActionAttribute(domain).value := token])) == Lookup(ActionTable(inst), token)
  {
    ActionOfOnlyAttribute(domain, STATE_ON, token);
  }

  /** The action tokens the suite sends to a button, read through its table. */
  lemma ButtonSuiteTokens()
    ensures Lookup(ActionTable(Button), "single") == Some("click")
    ensures Lookup(ActionTable(Button), "double") == Some("double_click")
    ensures Lookup(ActionTable(Button), "hold") == Some("long_press")
    ensures Lookup(ActionTable(Button), "invalid") == None
  {
    LookupEntry(ActionTable(Button), 1);
    LookupEntry(ActionTable(Button), 2);
  }

  /** The action tokens the suite sends to a vibration sensor, read through its table. */
  lemma VibrationSuiteTokens()
    ensures Lookup(ActionTable(Vibration), "vibrate") == Some("vibration")
    ensures Lookup(ActionTable(Vibration), "flip90") == Some("tilt")
    ensures Lookup(ActionTable(Vibration), "free_fall") == Some("fall")
    ensures Lookup(ActionTable(Vibration), "invalid") == None
  {
    LookupEntry(ActionTable(Vibration), 1);
    LookupEntry(ActionTable(Vibration), 2);
  }

  /** The state the button scenarios start from: on, with `attribute` set to `single`. */
  function ButtonScenarioState(domain: string, attribute: string, deviceClass: Option<string>): State
  {
    var attrs := map[attribute := "single"];
    State(domain, STATE_ON, if deviceClass.Some? then attrs[ATTR_DEVICE_CLASS := deviceClass.value] else attrs)
  }

  /**
   * Such a state is never found as a vibration sensor, and is found as a
   * button unless the attribute is unrelated to the domain.
   */
  lemma ButtonLookup(domain: string, attribute: string, deviceClass: Option<string>)
    requires (domain, attribute, deviceClass) in
      {(BINARY_SENSOR, ATTR_LAST_ACTION, None), (SENSOR, ATTR_ACTION, None),
       (INPUT_TEXT, "bar", Some("button")), (BINARY_SENSOR, "bar", None)}
    ensures Matches(true, ButtonScenarioState(domain, attribute, deviceClass), EventType, "vibration") == []
    ensures Matches(true, ButtonScenarioState(domain, attribute, deviceClass), EventType, "button")
            == if domain == BINARY_SENSOR && attribute == "bar" then [] else [Button]
  {
    var s := ButtonScenarioState(domain, attribute, deviceClass);
    assert InstanceNamed("vibration") == Some(Vibration) && InstanceNamed("button") == Some(Button);
    if attribute == "bar" {
      assert Action(s) == None;
      assert DeviceClass(s) == deviceClass;
      assert Applies(Button, s) <==> domain == INPUT_TEXT;
      assert !Applies(Vibration, s);
    } else {
      ActionOfOnlyAttribute(domain, STATE_ON, "single");
      assert Action(s) == Some("single");
      assert Applies(Button, s);
      assert !Applies(Vibration, s);
    }
  }

  /**
   * A button found by the action attribute of its domain reads `single`,
   * `double`, `hold` and `invalid` as click, double_click, long_press and
   * nothing.
   */
  method ButtonActionReads(domain: string)
    returns (observed: seq<Option<string>>)
    requires domain == BINARY_SENSOR || domain == SENSOR
    ensures observed == [Some("click"), Some("double_click"), Some("long_press"), None]
  {
    var attribute := ActionAttribute(domain).value;
    ButtonSuiteTokens();
    ActionStateReads(Button, domain, "single");
    ActionStateReads(Button, domain, "double");
    ActionStateReads(Button, domain, "hold");
    ActionStateReads(Button, domain, "invalid");

    var p := new Property(true, Concrete(Button), State(domain, STATE_ON, map[attribute := "single"]));
    var single := p.GetValue();
    p.SetState(State(domain, STATE_ON, map[attribute := "double"]));
    var double := p.GetValue();
    p.SetState(State(domain, STATE_ON, map[attribute := "hold"]));
    var hold := p.GetValue();
    p.SetState(State(domain, STATE_ON, map[attribute := "invalid"]));
    var invalid := p.GetValue();
    observed := [single.value, double.value, hold.value, invalid.value];
  }

  /** Whichever way a button was found, a state `click` with no attributes reads as click. */
  method ButtonRawClick(domain: string, attribute: string, deviceClass: Option<string>)
    returns (observed: Option<string>)
    requires (domain, attribute, deviceClass) in
      {(BINARY_SENSOR, ATTR_LAST_ACTION, None), (SENSOR, ATTR_ACTION, None), (INPUT_TEXT, "bar", Some("button"))}
    ensures observed == Some("click")
  {
    var p := new Property(true, Concrete(Button), ButtonScenarioState(domain, attribute, deviceClass));
    p.SetState(State(domain, "click", map[]));
    var v := p.GetValue();
    observed := v.value;
  }

  /** The state the vibration scenarios start from: on, with `attribute` set to `vibrate`. */
  function VibrationScenarioState(domain: string, attribute: Option<string>, deviceClass: Option<string>): State
  {
    var attrs: map<string, string> := if attribute.Some? then map[attribute.value := "vibrate"] else map[];
    State(domain, STATE_ON, if deviceClass.Some? then attrs[ATTR_DEVICE_CLASS := deviceClass.value] else attrs)
  }

  /**
   * Such a state is never found as a button, and is found as a vibration
   * sensor unless the attribute is unrelated to the domain.
   */
  lemma VibrationLookup(domain: string, attribute: Option<string>, deviceClass: Option<string>)
    requires (domain, attribute, deviceClass) in
      {(BINARY_SENSOR, Some(ATTR_LAST_ACTION), None), (SENSOR, Some(ATTR_ACTION), None),
       (BINARY_SENSOR, None, Some("vibration")), (BINARY_SENSOR, Some("bar"), None)}
    ensures Matches(true, VibrationScenarioState(domain, attribute, deviceClass), EventType, "button") == []
    ensures Matches(true, VibrationScenarioState(domain, attribute, deviceClass), EventType, "vibration")
            == if attribute == Some("bar") then [] else [Vibration]
  {
    var s := VibrationScenarioState(domain, attribute, deviceClass);
    assert InstanceNamed("vibration") == Some(Vibration) && InstanceNamed("button") == Some(Button);
    if attribute == Some("bar") || attribute.None? {
      assert Action(s) == None;
      assert DeviceClass(s) == deviceClass;
      assert Applies(Vibration, s) <==> attribute.None?;
      assert !Applies(Button, s);
    } else {
      ActionOfOnlyAttribute(domain, STATE_ON, "vibrate");
      assert Action(s) == Some("vibrate");
      assert Applies(Vibration, s);
      assert !Applies(Button, s);
    }
  }

  /**
   * A vibration sensor found by the action attribute of its domain reads
   * `vibrate`, `flip90`, `free_fall` and `invalid` as vibration, tilt, fall
   * and nothing.
   */
  method VibrationActionReads(domain: string)
    returns (observed: seq<Option<string>>)
    requires domain == BINARY_SENSOR || domain == SENSOR
    ensures observed == [Some("vibration"), Some("tilt"), Some("fall"), None]
  {
    var attribute := ActionAttribute(domain).value;
    VibrationSuiteTokens();
    ActionStateReads(Vibration, domain, "vibrate");
    ActionStateReads(Vibration, domain, "flip90");
    ActionStateReads(Vibration, domain, "free_fall");
    ActionStateReads(Vibration, domain, "invalid");

    var p := new Property(true, Concrete(Vibration), State(domain, STATE_ON, map[attribute := "vibrate"]));
    var vibrate := p.GetValue();
    p.SetState(State(domain, STATE_ON, map[attribute := "flip90"]));
    var flip := p.GetValue();
    p.SetState(State(domain, STATE_ON, map[attribute := "free_fall"]));
    var fall := p.GetValue();
    p.SetState(State(domain, STATE_ON, map[attribute := "invalid"]));
    var invalid := p.GetValue();
    observed := [vibrate.value, flip.value, fall.value, invalid.value];
  }

  /**
   * A vibration sensor found by its device class alone reads vibration while
   * it is on and nothing once it is off.
   */
  method VibrationDeviceClassReads() returns (observed: seq<Option<string>>)
    ensures observed == [Some("vibration"), None]
  {
    var p := new Property(true, Concrete(Vibration), VibrationScenarioState(BINARY_SENSOR, None, Some("vibration")));
    var on := p.GetValue();
    p.SetState(State(BINARY_SENSOR, STATE_OFF, map[ATTR_DEVICE_CLASS := "vibration"]));
    var off := p.GetValue();
    observed := [on.value, off.value];
  }
}
