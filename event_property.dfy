/**
 * An event property object: a property bound to its configuration and to the
 * entity state it reads. The state is a field that callers reassign, or whose
 * state string they change, before asking for the value again.
 */
module EventProperty {
  import opened Wrappers
  import opened EventState
  import opened EventCatalog

  /** The error code for a request the current mode cannot serve. */
  const ERR_NOT_SUPPORTED_IN_CURRENT_MODE: string := "NOT_SUPPORTED_IN_CURRENT_MODE"

  /** The message of the error the base property raises when asked for a value. */
  const FAILED_TO_GET: string := "Failed to get value"

  /** The error raised to the caller: an error code and a message. */
  datatype SmartHomeError = SmartHomeError(code: string, message: string)

  /**
   * Which event property an object is: the base event property, with its
   * `supported()` forced to true (it has no instance of its own), or one of
   * the registered instances.
   */
  datatype PropertyKind = ForcedBase | Concrete(instance: EventInstance)

  /** What `get_value()` gives: the base property fails, every instance reads its state. */
  function ValueOf(kind: PropertyKind, s: State): (r: Result<Option<string>, SmartHomeError>)
    ensures r.Failure? <==> kind.ForcedBase?
    ensures r.Failure? ==> r.error.code == ERR_NOT_SUPPORTED_IN_CURRENT_MODE && "Failed to get" <= r.error.message
    ensures r.Success? && r.value.Some? ==> r.value.value in Vocabulary(kind.instance)
  {
    match kind
    case ForcedBase => Failure(SmartHomeError(ERR_NOT_SUPPORTED_IN_CURRENT_MODE, FAILED_TO_GET))
    case Concrete(inst) => Success(Value(inst, s))
  }

  class Property {
    /** Whether beta features are enabled in the configuration. */
    const beta: bool
    const kind: PropertyKind
    var state: State

    constructor (beta: bool, kind: PropertyKind, state: State)
      ensures this.beta == beta && this.kind == kind && this.state == state
    {
      this.beta := beta;
      this.kind := kind;
      this.state := state;
    }

    /** `supported()`, on the current state. */
    predicate IsSupported()
      reads this
      ensures IsSupported() ==> beta || kind.ForcedBase?
      ensures kind.ForcedBase? ==> IsSupported()
      ensures kind.Concrete? ==> (IsSupported() <==> Supported(beta, kind.instance, state))
    {
      match kind
      case ForcedBase => true
      case Concrete(inst) => Supported(beta, inst, state)
    }

    /**
     * `retrievable`: false for button and vibration only, and true exactly
     * when the value depends on the state string alone.
     */
    function IsRetrievable(): (r: bool)
      requires kind.Concrete?
      ensures r <==> kind.instance != Button && kind.instance != Vibration
      ensures r ==> forall s: State, t: State :: s.state == t.state ==> Value(kind.instance, s) == Value(kind.instance, t)
    {
      RetrievableReadsOnlyState(kind.instance);
      Retrievable(kind.instance)
    }

    /** `parameters()`: the instance's name and its events in order. */
    function Describe(): (r: Parameters)
      requires kind.Concrete?
      ensures InstanceNamed(r.instance) == Some(kind.instance)
      ensures |r.events| == |Vocabulary(kind.instance)|
      ensures forall i :: 0 <= i < |r.events| ==> r.events[i].value == Vocabulary(kind.instance)[i]
    {
      ParametersOf(kind.instance)
    }

    /** `get_value()`: reads the state as it is now; nothing is cached between calls. */
    method GetValue() returns (r: Result<Option<string>, SmartHomeError>)
      ensures r == ValueOf(kind, state)
    {
      r := ValueOf(kind, state);
    }

    /** `prop.state = s`: replace the whole state. */
    method SetState(s: State)
      modifies this
      ensures state == s
    {
      state := s;
    }

    /** `prop.state.state = v`: change the state string, keeping domain and attributes. */
    method SetStateValue(v: string)
      modifies this
      ensures state == old(state).(state := v)
    {
      state := state.(state := v);
    }
  }
}
