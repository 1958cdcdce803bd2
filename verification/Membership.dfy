/** Which group memberships a user should have, and when the server must be told
    (syncGroupMemberships in internal/controller/pocketiduser_controller.go). */
module Membership {
  import opened Basics

  function Elements(s: seq<Id>): set<Id> {
    set x | x in s
  }

  /** The ids of the groups that could be fetched and have been synced. */
  function Desired(fetched: seq<Id>): set<Id> {
    Elements(fetched) - {""}
  }

  ghost predicate NoRepeat(s: seq<Id>) {
    forall i, j :: 0 <= i < j < |s| ==> s[i] != s[j]
  }

  /** The keys of a Go map in some order: whichever one the iteration takes. */
  method Keys(m: set<Id>) returns (keys: seq<Id>)
    ensures NoRepeat(keys) && Elements(keys) == m
  {
    keys := [];
    var rest := m;
    while rest != {}
      invariant rest <= m && NoRepeat(keys) && Elements(keys) == m - rest
      decreases rest
    {
      var gid :| gid in rest;
      assert gid !in Elements(keys);
      assert Elements(keys + [gid]) == Elements(keys) + {gid};
      keys := keys + [gid];
      rest := rest - {gid};
    }
  }

  /** Whether some key of `a` is missing from `b`, found by iterating until the first one. */
  method SomeMissing(a: set<Id>, b: set<Id>) returns (missing: bool)
    ensures missing <==> !(a <= b)
  {
    var rest := a;
    while rest != {}
      invariant rest <= a && a - rest <= b
      decreases rest
    {
      var gid :| gid in rest;
      if gid !in b { return true; }
      rest := rest - {gid};
    }
    return false;
  }

  /** The request to send, if any: sent exactly when the wanted and the current groups differ as sets,
      and then naming each wanted group once, whatever the iteration order. */
  method Request(desiredGroupIDs: set<Id>, currentGroupIDs: set<Id>) returns (request: Option<seq<Id>>)
    ensures request.Some? <==> desiredGroupIDs != currentGroupIDs
    ensures request.Some? ==> NoRepeat(request.value) && Elements(request.value) == desiredGroupIDs
  {
    var needsUpdate := SomeMissing(desiredGroupIDs, currentGroupIDs);
    if !needsUpdate {
      needsUpdate := SomeMissing(currentGroupIDs, desiredGroupIDs);
    }
    if !needsUpdate { return None; }
    var groupIDs := Keys(desiredGroupIDs);
    return Some(groupIDs);
  }

  /** The same from the lists at hand: repetitions among the references, groups not yet synced and the
      order at the server make no difference. */
  method Plan(fetched: seq<Id>, current: seq<Id>) returns (request: Option<seq<Id>>)
    ensures request.Some? <==> Desired(fetched) != Elements(current)
    ensures request.Some? ==> NoRepeat(request.value) && Elements(request.value) == Desired(fetched)
  {
    var desiredGroupIDs: set<Id> := {};
    for i := 0 to |fetched|
      invariant desiredGroupIDs == Desired(fetched[..i])
    {
      if fetched[i] != "" {
        desiredGroupIDs := desiredGroupIDs + {fetched[i]};
      }
      assert fetched[..i + 1] == fetched[..i] + [fetched[i]];
    }
    assert fetched[..|fetched|] == fetched;
    var currentGroupIDs: set<Id> := {};
    for i := 0 to |current|
      invariant currentGroupIDs == Elements(current[..i])
    {
      currentGroupIDs := currentGroupIDs + {current[i]};
      assert current[..i + 1] == current[..i] + [current[i]];
    }
    assert current[..|current|] == current;
    request := Request(desiredGroupIDs, currentGroupIDs);
  }
}
