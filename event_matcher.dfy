/**
 * The registry of properties and the lookup the tests make through it: the
 * properties of one type and one instance name that a state supports.
 */
module EventMatcher {
  import opened Wrappers
  import opened EventState
  import opened EventCatalog

  /** The two property types of the registry; only event properties belong to this model. */
  datatype PropertyType = EventType | FloatType

  /** The registered event properties, in registration order. */
  const Catalog: seq<EventInstance> :=
    [Open, Motion, Gas, Smoke, BatteryLevel, WaterLevel, WaterLeak, Button, Vibration]

  /** No two entries of a list of instances share a name. */
  predicate DistinctNames(entries: seq<EventInstance>)
  {
    forall i, j :: 0 <= i < j < |entries| ==> entries[i].Name() != entries[j].Name()
  }

  /** The catalog registers every instance, each under its own name. */
  lemma CatalogWellFormed()
    ensures DistinctNames(Catalog)
    ensures forall inst: EventInstance :: inst in Catalog
  {
    forall inst: EventInstance ensures inst in Catalog {
      var k := match inst
        case Open => 0 case Motion => 1 case Gas => 2 case Smoke => 3 case BatteryLevel => 4
        case WaterLevel => 5 case WaterLeak => 6 case Button => 7 case Vibration => 8;
      assert Catalog[k] == inst;
    }
  }

  /** The entries named `name` that support the state, in the order of `entries`. */
  function Select(entries: seq<EventInstance>, beta: bool, s: State, name: string): (r: seq<EventInstance>)
    ensures forall i :: 0 <= i < |r| ==> r[i] in entries && r[i].Name() == name && Supported(beta, r[i], s)
    ensures forall e :: e in entries && e.Name() == name && Supported(beta, e, s) ==> e in r
  {
    if entries == [] then []
    else
      var rest := Select(entries[1..], beta, s, name);
      if entries[0].Name() == name && Supported(beta, entries[0], s) then [entries[0]] + rest else rest
  }

  /** Over entries with distinct names, at most the instance itself is selected under its name. */
  lemma {:induction false} SelectByName(entries: seq<EventInstance>, beta: bool, s: State, inst: EventInstance)
    requires DistinctNames(entries)
    ensures Select(entries, beta, s, inst.Name()) == if inst in entries && Supported(beta, inst, s) then [inst] else []
  {
    if entries != [] {
      assert DistinctNames(entries[1..]) by {
        forall i, j | 0 <= i < j < |entries[1..]| ensures entries[1..][i].Name() != entries[1..][j].Name() {
          assert entries[1..][i] == entries[i + 1] && entries[1..][j] == entries[j + 1];
        }
      }
      SelectByName(entries[1..], beta, s, inst);
      if entries[0] == inst {
        forall k | 0 <= k < |entries[1..]| ensures entries[1..][k] != inst {
          assert entries[1..][k] == entries[k + 1];
        }
      } else {
        assert InstanceNamed(entries[0].Name()) == Some(entries[0]);
      }
    }
  }

  /** A name that no entry carries selects nothing. */
  lemma SelectUnknownName(entries: seq<EventInstance>, beta: bool, s: State, name: string)
    requires forall e :: e in entries ==> e.Name() != name
    ensures Select(entries, beta, s, name) == []
  {
  }

  /**
   * The properties of type `t` and instance name `name` that the state
   * supports: exactly the named instance when it is an event instance the
   * state supports, and nothing otherwise.
   */
  function Matches(beta: bool, s: State, t: PropertyType, name: string): (r: seq<EventInstance>)
    ensures r == if t == EventType && InstanceNamed(name).Some? && Supported(beta, InstanceNamed(name).value, s)
                 then [InstanceNamed(name).value] else []
  {
    CatalogWellFormed();
    if t == FloatType then []
    else
      match InstanceNamed(name)
      case Some(inst) =>
        assert inst.Name() == name && inst in Catalog;
        SelectByName(Catalog, beta, s, inst);
        assert t == EventType;
        assert InstanceNamed(name) == Some(inst);
        assert Select(Catalog, beta, s, name) == if Supported(beta, inst, s) then [inst] else [];
        Select(Catalog, beta, s, name)
      case None => SelectUnknownName(Catalog, beta, s, name); Select(Catalog, beta, s, name)
  }

  /** An event instance's lookup gives it exactly once when supported and nothing otherwise. */
  lemma ExactlyOneOrNone(beta: bool, s: State, inst: EventInstance)
    ensures Supported(beta, inst, s) <==> Matches(beta, s, EventType, inst.Name()) == [inst]
    ensures !Supported(beta, inst, s) <==> Matches(beta, s, EventType, inst.Name()) == []
  {
  }

  /** With beta features off no lookup finds a property. */
  lemma NoBetaNoProperties(s: State, t: PropertyType, name: string)
    ensures Matches(false, s, t, name) == []
  {
  }

  /** `water_level` is an event instance only: no float property of that name is found. */
  lemma WaterLevelIsNotFloat(beta: bool, s: State)
    ensures Matches(beta, s, FloatType, WaterLevel.Name()) == []
    ensures Matches(beta, s, EventType, WaterLevel.Name()) == if Supported(beta, WaterLevel, s) then [WaterLevel] else []
  {
  }
}
