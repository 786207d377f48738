/**
 * The package-level registry of integrations: a name-to-integration map
 * that integrations add themselves to at start-up, and that the handlers
 * list in ascending name order.
 */
module Registry {
  import opened Wrappers
  import opened Strings
  import opened Sorting
  import opened Integration

  /** The panic message for registering a nil integration. */
  const NilPanic := "integration: Register integration is nil"

  /** The panic message for registering a name twice. */
  function DuplicatePanic(name: string): string
  {
    "sql: Register called twice for integration " + name
  }

  /** Names that removal accepts without an error log. */
  const TestOnlyPrefix := "test-only-integration-"

  class Registry {
    var entries: map<string, Integration>

    constructor ()
      ensures entries == map[]
    {
      entries := map[];
    }

    /**
     * Adds `integration` under `name`. A nil integration (None) and a name
     * already present are refused with a panic (returned here), and the map
     * is left as it was.
     */
    method Register(name: string, integration: Option<Integration>) returns (panic: Option<string>)
      modifies this
      ensures integration.None? ==> panic == Some(NilPanic) && entries == old(entries)
      ensures integration.Some? && name in old(entries) ==>
        panic == Some(DuplicatePanic(name)) && entries == old(entries)
      ensures integration.Some? && name !in old(entries) ==>
        panic == None && entries == old(entries)[name := integration.value]
    {
      if integration.None? {
        return Some(NilPanic);
      }
      if name in entries {
        return Some(DuplicatePanic(name));
      }
      entries := entries[name := integration.value];
      panic := None;
    }

    /** The integration registered under `name`, or nil (None). */
    method Get(name: string) returns (integration: Option<Integration>)
      ensures integration.Some? <==> name in entries
      ensures integration.Some? ==> integration.value == entries[name]
    {
      if name in entries {
        integration := Some(entries[name]);
      } else {
        integration := None;
      }
    }

    /** Every registered name exactly once, in ascending byte order. */
    method List() returns (names: seq<string>)
      ensures names == SortedKeys(entries.Keys)
      ensures StrictlySorted(names)
      ensures forall k :: k in names <==> k in entries
    {
      var list: seq<string> := [];
      var rest := entries.Keys;
      while rest != {}
        invariant rest <= entries.Keys
        invariant forall k :: k in list <==> k in entries && k !in rest
        invariant Distinct(list)
        decreases rest
      {
        var name :| name in rest;
        list := list + [name];
        rest := rest - {name};
      }
      names := SortStrings(list);
      DistinctPermutation(list, names);
      SortedDistinctIsStrict(names);
      assert forall k :: k in names <==> k in multiset(list);
      SortedKeysOfListing(names, entries.Keys);
    }

    /**
     * Deletes `name` (nothing happens when it is absent). A name without the
     * test-only prefix is still removed, after an error log.
     */
    method Remove(name: string) returns (logged: bool)
      modifies this
      ensures logged <==> !HasPrefix(name, TestOnlyPrefix)
      ensures entries == old(entries) - {name}
    {
      logged := !HasPrefix(name, TestOnlyPrefix);
      entries := entries - {name};
    }
  }
}
