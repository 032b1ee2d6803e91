/** Role exclusivity in the browser store: signing in under one role removes
    the records of the other two. */
module RoleUtils {
  const RoleKeys: seq<string> := ["userData", "vendorData", "adminData"]

  /** The store without the role keys other than `current`. */
  function WithoutOtherRoles(store: map<string, string>, current: string): (r: map<string, string>)
    ensures forall k :: k in RoleKeys && k != current ==> k !in r
    ensures current in store ==> current in r && r[current] == store[current]
    ensures forall k :: k !in RoleKeys ==> (k in r <==> k in store)
    ensures forall k :: k in r ==> k in store && r[k] == store[k]
    ensures current !in RoleKeys ==> forall k :: k in RoleKeys ==> k !in r
  {
    store - (set k | k in RoleKeys && k != current)
  }

  /** Clearing twice is clearing once. */
  lemma ClearIdempotent(store: map<string, string>, current: string)
    ensures WithoutOtherRoles(WithoutOtherRoles(store, current), current) == WithoutOtherRoles(store, current)
  {
  }

  class RoleStore {
    var entries: map<string, string>

    constructor (entries: map<string, string>)
      ensures this.entries == entries
    {
      this.entries := entries;
    }

    /** `localStorage.setItem`. */
    method SetItem(key: string, value: string)
      modifies this
      ensures entries == old(entries)[key := value]
    {
      entries := entries[key := value];
    }

    /** `clearOtherRoles`: remove each role key other than `currentRole`, one
        role at a time. */
    method ClearOtherRoles(currentRole: string)
      modifies this
      ensures entries == WithoutOtherRoles(old(entries), currentRole)
    {
      var i := 0;
      while i < |RoleKeys|
        invariant 0 <= i <= |RoleKeys|
        invariant entries == old(entries) - (set k | k in RoleKeys[..i] && k != currentRole)
      {
        assert RoleKeys[..i + 1] == RoleKeys[..i] + [RoleKeys[i]];
        if RoleKeys[i] != currentRole {
          entries := entries - {RoleKeys[i]};
        }
        i := i + 1;
      }
      assert RoleKeys[..i] == RoleKeys;
    }
  }
}
