/** What a failed read of a group reference does to a user's memberships (syncGroupMemberships in
    internal/controller/pocketiduser_controller.go): the group is skipped, and so dropped. */
module UserFetches {
  import opened Basics
  import opened Lifecycle
  import opened User
  import opened UserRecovery

  /** The groups whose reference could be read, and that have been synced; ts[i + k] answers the read of
      reference k. */
  function Got(refs: seq<string>, groups: Outer, ts: seq<Tick>, i: nat): set<Id>
    requires i + |refs| <= |ts|
  {
    set k | 0 <= k < |refs| && ts[i + k].outcome.Ok? && refs[k] in groups && groups[refs[k]] != "" :: groups[refs[k]]
  }

  /** Reference k names this group, and could be read. */
  ghost predicate Gives(refs: seq<string>, groups: Outer, ts: seq<Tick>, i: nat, k: int, gid: Id)
    requires i + |refs| <= |ts|
  {
    0 <= k < |refs| && ts[i + k].outcome.Ok? && refs[k] in groups && groups[refs[k]] == gid && gid != ""
  }

  /** Never a group that no reference names; and all of those, exactly if each could be read at least once. */
  lemma GotExact(refs: seq<string>, groups: Outer, ts: seq<Tick>, i: nat)
    requires i + |refs| <= |ts|
    ensures Got(refs, groups, ts, i) <= Wanted(refs, groups)
    ensures Got(refs, groups, ts, i) == Wanted(refs, groups)
       <==> forall gid :: gid in Wanted(refs, groups) ==> exists k :: Gives(refs, groups, ts, i, k, gid)
  {
    var got, wanted := Got(refs, groups, ts, i), Wanted(refs, groups);
    forall gid ensures gid in got <==> exists k :: Gives(refs, groups, ts, i, k, gid) {
      if gid in got {
        var k :| 0 <= k < |refs| && ts[i + k].outcome.Ok? && refs[k] in groups && groups[refs[k]] != "" && groups[refs[k]] == gid;
        assert Gives(refs, groups, ts, i, k, gid);
      }
    }
  }

  lemma GotOne(refs: seq<string>, next: nat, groups: Outer, ts: seq<Tick>, i: nat)
    requires next < |refs| && i + |refs| <= |ts|
    ensures var ref := refs[next];
      Got(refs[..next + 1], groups, ts, i)
      == if ts[i + next].outcome.Ok? && ref in groups && groups[ref] != "" then Got(refs[..next], groups, ts, i) + {groups[ref]}
         else Got(refs[..next], groups, ts, i)
  {
    assert forall k :: 0 <= k < next ==> refs[..next + 1][k] == refs[..next][k];
  }

  lemma {:induction false} FetchDrive(w: UserWorld, h: Hold, current: set<Id>, next: nat, ts: seq<Tick>, i: nat)
    requires next <= |h.g.spec.groupRefs| && i + |h.g.spec.groupRefs| <= |ts|
    ensures var refs := h.g.spec.groupRefs;
      Drive(Machine(w, NextGroup(h, current, Got(refs[..next], w.outer, ts, i), next), Failure), ts, i + next)
      == Drive(Machine(w, NextGroup(h, current, Got(refs, w.outer, ts, i), |refs|), Failure), ts, i + |refs|)
    decreases |h.g.spec.groupRefs| - next
  {
    var refs := h.g.spec.groupRefs;
    if next == |refs| {
      assert refs[..next] == refs;
    } else {
      var k := FetchGroup(h, current, Got(refs[..next], w.outer, ts, i), next);
      GotOne(refs, next, w.outer, ts, i);
      assert FetchStep(w, k, ts[i + next]) == NextGroup(h, current, Got(refs[..next + 1], w.outer, ts, i), next + 1);
      FetchDrive(w, h, current, next + 1, ts, i);
    }
  }

  lemma FetchAll(w: UserWorld, h: Hold, current: set<Id>, ts: seq<Tick>, i: nat)
    requires i + |h.g.spec.groupRefs| <= |ts|
    ensures var refs := h.g.spec.groupRefs;
      Drive(Machine(w, NextGroup(h, current, {}, 0), Failure), ts, i)
      == Drive(Machine(w, NextGroup(h, current, Got(refs, w.outer, ts, i), |refs|), Failure), ts, i + |refs|)
  {
    assert h.g.spec.groupRefs[..0] == [] && Got([], w.outer, ts, i) == {};
    FetchDrive(w, h, current, 0, ts, i);
  }

  /** The membership step, exactly, whatever becomes of the reads of the references: if all other calls
      succeed the run succeeds and the user's groups are those whose reference could be read. */
  lemma MembershipExact(w: UserWorld, h: Hold, ts: seq<Tick>, i: nat)
    requires Quiet(w, h) && Fine(ts, i + |h.g.spec.groupRefs|, 6)
    ensures Ends(w, Drive(Machine(w, NextGroup(h, w.live[h.id].body.groups, {}, 0), Failure), ts, i), h,
                 Got(h.g.spec.groupRefs, w.outer, ts, i))
  {
    var refs := h.g.spec.groupRefs;
    FetchAll(w, h, w.live[h.id].body.groups, ts, i);
    SetDrive(w, h, Got(refs, w.outer, ts, i), ts, i + |refs|);
  }

  /** So one failed read takes a settled user out of a group that only that reference names, in a run that
      reports success. */
  lemma FailedReadDrops(w: UserWorld, h: Hold, ts: seq<Tick>, i: nat, k: nat)
    requires Settled(w) && h == Hold(w.store.cr.value, h.inst, w.store.cr.value.status.id, w.store.cr.value.status)
    requires var refs := h.g.spec.groupRefs;
      && Fine(ts, i + |refs|, 6) && k < |refs| && !ts[i + k].outcome.Ok? && refs[k] in w.outer && w.outer[refs[k]] != ""
      && forall j :: 0 <= j < |refs| && j != k && refs[j] in w.outer ==> w.outer[refs[j]] != w.outer[refs[k]]
    ensures var n := Drive(Machine(w, NextGroup(h, w.live[h.id].body.groups, {}, 0), Failure), ts, i);
      && n.last.Success? && n.w.store.cr.Some? && n.w.store.cr.value.status.ready
      && w.outer[h.g.spec.groupRefs[k]] in w.live[h.id].body.groups
      && h.id in n.w.live && w.outer[h.g.spec.groupRefs[k]] !in n.w.live[h.id].body.groups
  {
    MembershipExact(w, h, ts, i);
    assert h.g.spec.groupRefs[k] in h.g.spec.groupRefs;
  }
}
