/**
 * The entity state an event property reads: the entity's domain, its state
 * string and its attributes, with the constants of the platform the rules
 * compare against.
 */
module EventState {
  import opened Wrappers

  // Entity domains.
  const BINARY_SENSOR: string := "binary_sensor"
  const SENSOR: string := "sensor"
  const INPUT_TEXT: string := "input_text"

  // State strings of a binary sensor.
  const STATE_ON: string := "on"
  const STATE_OFF: string := "off"

  // Attribute names.
  const ATTR_DEVICE_CLASS: string := "device_class"
  const ATTR_LAST_ACTION: string := "last_action"
  const ATTR_ACTION: string := "action"

  /**
   * One observation of an entity. The object id of the entity id is opaque to
   * every rule and is left out; an attribute whose value is `None` is absent
   * from `attributes`.
   */
  datatype State = State(domain: string, state: string, attributes: map<string, string>)

  /** The value of the attribute `name`, or None when the state lacks it. */
  function Attribute(s: State, name: string): Option<string>
  {
    if name in s.attributes then Some(s.attributes[name]) else None
  }

  /** The device class attribute of the state. */
  function DeviceClass(s: State): Option<string>
  {
    Attribute(s, ATTR_DEVICE_CLASS)
  }

  /**
   * The attribute that carries the last action of a remote or switch: a binary
   * sensor reports it in `last_action`, a sensor in `action`; other domains
   * have none.
   */
  function ActionAttribute(domain: string): (r: Option<string>)
    ensures r.Some? <==> domain == BINARY_SENSOR || domain == SENSOR
    ensures domain == BINARY_SENSOR ==> r == Some(ATTR_LAST_ACTION)
    ensures domain == SENSOR ==> r == Some(ATTR_ACTION)
  {
    if domain == BINARY_SENSOR then Some(ATTR_LAST_ACTION)
    else if domain == SENSOR then Some(ATTR_ACTION)
    else None
  }

  /** The action token of the state, when its domain's action attribute is present. */
  function Action(s: State): (r: Option<string>)
    ensures r.Some? <==> ActionAttribute(s.domain).Some? && ActionAttribute(s.domain).value in s.attributes
    ensures r.Some? ==> r.value == s.attributes[ActionAttribute(s.domain).value]
  {
    match ActionAttribute(s.domain)
    case None => None
    case Some(name) => Attribute(s, name)
  }

  /** A state whose only attribute is its domain's action attribute has that attribute's token as its action. */
  lemma ActionOfOnlyAttribute(domain: string, state: string, token: string)
    requires ActionAttribute(domain).Some?
    ensures Action(State(domain, state, map[ActionAttribute(domain).value := token])) == Some(token)
  {
  }
}
