// The process-wide name -> Type table (Type::sGlobalTypes) with its two
// static operations. Here it is an explicit object rather than static state.
// The console messages both operations print are left out.
module Registry {
  import opened Collections
  import opened Reflection

  /** The table after registering `t` under `name`: the first registration
      of a name wins and no existing entry ever changes. */
  function Added(m: map<string, Type?>, name: string, t: Type?): (r: map<string, Type?>)
    ensures r.Keys == m.Keys + {name}
    ensures r[name] == if name in m then m[name] else t
    ensures forall n :: n in m ==> r[n] == m[n]
  {
    if name in m then m else m[name := t]
  }

  /** What a lookup of `name` yields: the registered type, or null. */
  function Lookup(m: map<string, Type?>, name: string): Type?
  {
    if name in m then m[name] else null
  }

  /** The table after a sequence of registrations, applied in order. */
  function RegisterAll(m: map<string, Type?>, registrations: seq<(string, Type?)>): map<string, Type?>
    decreases |registrations|
  {
    if registrations == [] then m
    else RegisterAll(Added(m, registrations[0].0, registrations[0].1), registrations[1..])
  }

  /** After any sequence of registrations, a name keeps what it already had;
      otherwise it finds the type of its first registration, or null if it was never registered. */
  lemma {:induction false} RegisterAllFirstWins(m: map<string, Type?>, registrations: seq<(string, Type?)>, name: string)
    ensures Lookup(RegisterAll(m, registrations), name) ==
      if name in m then m[name]
      else match FindFirst(registrations, name)
        case Some(i) => registrations[i].1
        case None => null
    decreases |registrations|
  {
    if registrations != [] {
      var m' := Added(m, registrations[0].0, registrations[0].1);
      RegisterAllFirstWins(m', registrations[1..], name);
      if name !in m && registrations[0].0 != name {
        match FindFirst(registrations[1..], name)
        case Some(i) =>
          assert FindFirst(registrations, name) == Some(i + 1);
        case None =>
          assert FindFirst(registrations, name) == None;
      }
    }
  }

  class GlobalTypes {
    var types: map<string, Type?>

    constructor ()
      ensures types == map[]
    {
      types := map[];
    }

    method AddGlobalType(name: string, t: Type?)
      modifies this`types
      ensures types == Added(old(types), name, t)
      ensures name in old(types) ==> types == old(types)
    {
      if name in types {
        return;
      }
      types := types[name := t];
    }

    method GetGlobalType(name: string) returns (r: Type?)
      ensures r == Lookup(types, name)
    {
      r := null;
      if name in types {
        r := types[name];
      }
    }
  }
}
