/** The agency registry: one shared name-to-agency table, kept in registration
    order, with its two text renderings. */
module Registry {
  import opened Wrappers
  import opened Strings

  /** An agency object; only its identity matters here. */
  datatype Agency = Agency(id: nat)

  /** `AgencyInfo(agency, description)`. */
  datatype AgencyInfo = AgencyInfo(agency: Agency, description: string)

  /** `"name: description"` for one entry. */
  function Line(name: string, info: AgencyInfo): string {
    name + ": " + info.description
  }

  /** No name occurs twice. */
  predicate Distinct(names: seq<string>) {
    forall i, j :: 0 <= i < j < |names| ==> names[i] != names[j]
  }

  /** `names` lists the keys of `table`, each once. */
  ghost predicate Ordered(names: seq<string>, table: map<string, AgencyInfo>) {
    Distinct(names) &&
    (forall i :: 0 <= i < |names| ==> names[i] in table) &&
    (forall n :: n in table ==> n in names)
  }

  /** The `"name: description"` lines of a table, in key order. */
  function LinesOf(names: seq<string>, table: map<string, AgencyInfo>): (r: seq<string>)
    requires forall i :: 0 <= i < |names| ==> names[i] in table
    ensures |r| == |names|
    ensures forall i :: 0 <= i < |names| ==> r[i] == Line(names[i], table[names[i]])
  {
    seq(|names|, i requires 0 <= i < |names| => Line(names[i], table[names[i]]))
  }

  /** A new key adds one line at the end. */
  lemma AppendLine(names: seq<string>, table: map<string, AgencyInfo>, name: string, info: AgencyInfo)
    requires Ordered(names, table) && name !in table
    ensures Ordered(names + [name], table[name := info])
    ensures LinesOf(names + [name], table[name := info]) == LinesOf(names, table) + [Line(name, info)]
  {
    var names' := names + [name];
    assert forall i :: 0 <= i < |names| ==> names'[i] == names[i];
    assert forall i :: 0 <= i < |names| ==> names[i] != name;
  }

  /** Re-registering a key keeps the order and changes that key's line only. */
  lemma UpdateLine(names: seq<string>, table: map<string, AgencyInfo>, name: string, info: AgencyInfo)
    requires Ordered(names, table) && name in table
    ensures Ordered(names, table[name := info])
  {
  }

  /** One registry instance. A Python dict keeps insertion order, so the table is
      the pair of `names` (the key order) and `table` (the entries). */
  class AgenciesRegistry {
    var initialized: bool
    var names: seq<string>
    var table: map<string, AgencyInfo>

    ghost predicate Valid()
      reads this
    {
      initialized && Ordered(names, table)
    }

    /** The object `object.__new__` returns, before `__init__`. */
    constructor ()
      ensures !initialized && names == [] && table == map[]
    {
      initialized := false;
      names := [];
      table := map[];
    }

    /** `__init__`: the table is created only the first time. */
    method Init()
      modifies this
      ensures old(initialized) ==> initialized == old(initialized) && names == old(names) && table == old(table)
      ensures !old(initialized) ==> initialized && names == [] && table == map[]
      ensures !old(initialized) ==> Valid()
    {
      if !initialized {
        names := [];
        table := map[];
        initialized := true;
      }
    }

    /** `register(name, agency, description)`: the entry for `name` is set, a new
        name goes to the end of the order, a known one keeps its place. */
    method Register(name: string, agency: Agency, description: string := "")
      requires Valid()
      modifies this
      ensures Valid()
      ensures table == old(table)[name := AgencyInfo(agency, description)]
      ensures names == if name in old(names) then old(names) else old(names) + [name]
      ensures GetAgency(name) == Some(agency)
      ensures forall n :: n != name ==> GetAgency(n) == old(GetAgency(n))
      ensures name !in old(names) ==>
                GetAvailableAgencies() ==
                  if old(names) == [] then name else old(GetAvailableAgencies()) + ", " + name
      ensures name !in old(names) ==>
                AgenciesString() ==
                  if old(names) == [] then Line(name, AgencyInfo(agency, description))
                  else old(AgenciesString()) + "\n" + Line(name, AgencyInfo(agency, description))
    {
      var info := AgencyInfo(agency, description);
      if name !in table {
        AppendLine(names, table, name, info);
        JoinAppend(names, name, ", ");
        JoinAppend(LinesOf(names, table), Line(name, info), "\n");
        names := names + [name];
      } else {
        UpdateLine(names, table, name, info);
      }
      table := table[name := info];
    }

    /** `get_agency(name)`. */
    function GetAgency(name: string): (r: Option<Agency>)
      reads this
      ensures r.Some? <==> name in table
      ensures r.Some? ==> r.value == table[name].agency
    {
      if name in table then Some(table[name].agency) else None
    }

    /** The `agencies` property: exactly the registered names, each mapped to its agency. */
    function Agencies(): (r: map<string, Agency>)
      reads this
      ensures r.Keys == table.Keys
      ensures forall n :: n in r ==> r[n] == table[n].agency
    {
      map n | n in table :: table[n].agency
    }

    /** One `"name: description"` line per entry, in registration order. */
    function Lines(): (r: seq<string>)
      requires Valid()
      reads this
      ensures |r| == |names|
      ensures forall i :: 0 <= i < |names| ==> r[i] == Line(names[i], table[names[i]])
    {
      LinesOf(names, table)
    }

    /** The `agencies_string` property. */
    function AgenciesString(): string
      requires Valid()
      reads this
    {
      Join(Lines(), "\n")
    }

    /** `get_available_agencies()`: the names in registration order, comma-separated. */
    function GetAvailableAgencies(): string
      reads this
    {
      Join(names, ", ")
    }
  }

  /** The class object: `_instance`, shared by every construction. */
  class AgenciesRegistryClass {
    var instance: Option<AgenciesRegistry>

    constructor ()
      ensures instance == None
    {
      instance := None;
    }

    /** `__new__`: the first call creates the instance, uninitialised; every call
        returns that same instance. */
    method New() returns (r: AgenciesRegistry)
      modifies this
      ensures old(instance).Some? ==> r == old(instance).value && instance == old(instance)
      ensures old(instance).None? ==> fresh(r) && !r.initialized && r.names == [] && instance == Some(r)
    {
      if instance.None? {
        var created := new AgenciesRegistry();
        instance := Some(created);
      }
      r := instance.value;
    }

    /** `AgenciesRegistry()`: `__new__` then `__init__`. A later construction returns
        the same registry with every registration kept. */
    method Construct() returns (r: AgenciesRegistry)
      requires instance.Some? ==> instance.value.Valid()
      modifies this, if instance.Some? then {instance.value} else {}
      ensures instance == Some(r) && r.Valid()
      ensures old(instance).Some? ==> r == old(instance).value &&
                                      r.names == old(r.names) && r.table == old(r.table)
      ensures old(instance).None? ==> fresh(r) && r.names == [] && r.table == map[]
    {
      r := New();
      r.Init();
    }
  }

  /** A registry's text, line by line: splitting `agencies_string` at newlines gives
      back one `"name: description"` line per entry, when no name or description
      holds a newline. */
  lemma AgenciesStringLines(reg: AgenciesRegistry)
    requires reg.Valid() && reg.names != []
    requires forall i :: 0 <= i < |reg.names| ==> '\n' !in Line(reg.names[i], reg.table[reg.names[i]])
    ensures Split(reg.AgenciesString(), '\n') == reg.Lines()
  {
    SplitJoin(reg.Lines(), '\n');
  }

  /** Two constructions in a row, with a registration between them: the second
      returns the first instance, and the registration is still there. */
  method RegistrationsSurvive(name: string, agency: Agency, description: string)
      returns (first: AgenciesRegistry, second: AgenciesRegistry)
    ensures first == second
    ensures second.GetAgency(name) == Some(agency)
    ensures second.GetAvailableAgencies() == name
  {
    var cls := new AgenciesRegistryClass();
    first := cls.Construct();
    first.Register(name, agency, description);
    second := cls.Construct();
  }
}
