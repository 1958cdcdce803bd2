/** What a failed call does to the rest of its run: but for the few failures that the code tolerates, the
    run can no longer report success, whatever else happens. */
module Failures {
  import opened Lifecycle
  import UserGroup
  import User
  import OIDCClient
  import Installation

  /** A run that has failed, or is about to say so. */
  ghost predicate Doomed<S, M, O, X, Y, K>(m: Machine<S, M, O, X, Y, K>) {
    (m.pc.Idle? && m.last.Failure?) || (m.pc.Report? && m.pc.verdict.Failure?)
  }

  lemma SharedFails<S, M, O, X, Y, K>(m: Machine<S, M, O, X, Y, K>, t: Tick)
    requires !m.pc.Start? && !m.pc.Work? && !m.pc.Idle? && !t.outcome.Ok?
    ensures Doomed(SharedStep(m, t))
  {
  }

  /** No failure either: a resource that is gone, or is being deleted and no longer guarded, is left alone. */
  lemma LeftAlone<S, M, O, X, Y, K>(m: Machine<S, M, O, X, Y, K>, t: Tick, u: Tick)
    requires m.pc.Read? && t.outcome.Ok? && u.outcome.Ok? && u.gate.Granted?
    requires m.w.store.cr.Some? ==> m.w.store.cr.value.deleting && !m.w.store.cr.value.finalizer
    ensures var n := SharedStep(m, t);
      var end := if n.pc.Idle? then n else SharedStep(n, u);
      end.pc.Idle? && end.last.Success? && end.w == m.w && (m.w.store.cr.None? ==> n.pc.Idle?)
  {
  }

  // ---------------------------------------------------------------- user groups

  /** No failed call of a user group's run is tolerated. */
  lemma {:induction false} GroupSpoilt(m: UserGroup.GroupMachine, es: seq<UserGroup.GroupEvent>, i: nat)
    requires i < |es| && (forall j :: 0 <= j < |es| ==> !es[j].Wake?)
    requires es[i].Call? && !es[i].t.outcome.Ok?
    requires !UserGroup.Run(m, es[..i]).pc.Idle?
    ensures Doomed(UserGroup.Run(m, es))
    decreases i
  {
    var n := UserGroup.Apply(m, es[0]);
    if i == 0 {
      if !m.pc.Start? && !m.pc.Work? { SharedFails(m, es[0].t); }
      GroupDoomed(n, es[1..]);
    } else {
      assert es[..i][1..] == es[1..][..i - 1];
      GroupSpoilt(n, es[1..], i - 1);
    }
  }

  lemma {:induction false} GroupDoomed(m: UserGroup.GroupMachine, es: seq<UserGroup.GroupEvent>)
    requires Doomed(m) && forall j :: 0 <= j < |es| ==> !es[j].Wake?
    ensures Doomed(UserGroup.Run(m, es))
    decreases |es|
  {
    if es != [] { GroupDoomed(UserGroup.Apply(m, es[0]), es[1..]); }
  }

  // ---------------------------------------------------------------- users

  /** A group reference that cannot be read is skipped, and onboarding is best effort. */
  predicate UserTolerates(pc: User.UserPc) {
    pc.Work? && (pc.k.FetchGroup? || pc.k.IssueToken? || pc.k.ReadLink? || pc.k.WriteLink?)
  }

  lemma {:induction false} UserSpoilt(m: User.UserMachine, es: seq<User.UserEvent>, i: nat)
    requires i < |es| && (forall j :: 0 <= j < |es| ==> !es[j].Wake?)
    requires es[i].Call? && !es[i].t.outcome.Ok?
    requires var pc := User.Run(m, es[..i]).pc; !pc.Idle? && !UserTolerates(pc)
    ensures Doomed(User.Run(m, es))
    decreases i
  {
    var n := User.Apply(m, es[0]);
    if i == 0 {
      if !m.pc.Start? && !m.pc.Work? { SharedFails(m, es[0].t); }
      UserDoomed(n, es[1..]);
    } else {
      assert es[..i][1..] == es[1..][..i - 1];
      UserSpoilt(n, es[1..], i - 1);
    }
  }

  lemma {:induction false} UserDoomed(m: User.UserMachine, es: seq<User.UserEvent>)
    requires Doomed(m) && forall j :: 0 <= j < |es| ==> !es[j].Wake?
    ensures Doomed(User.Run(m, es))
    decreases |es|
  {
    if es != [] { UserDoomed(User.Apply(m, es[0]), es[1..]); }
  }

  /** What becomes of a tolerated failure: the reference is passed over; a token or a link that could not be
      had leaves the flags as they were; a Secret that could not be read counts as absent. */
  lemma UserGoesOn(m: User.UserMachine, t: Tick)
    requires UserTolerates(m.pc) && !t.outcome.Ok?
    ensures var k, n := m.pc.k, User.Step(m, t);
      && (k.FetchGroup? && k.next + 1 < |k.h.g.spec.groupRefs| ==> n.pc == Work(k.(next := k.next + 1)))
      && (k.FetchGroup? && k.next + 1 == |k.h.g.spec.groupRefs| && k.desired != k.current ==>
            n.pc == Work(User.SetGroups(k.h, k.desired)))
      && (k.IssueToken? || k.WriteLink? ==> n.pc == Work(User.Refetch(k.h, k.h.mem.more)))
      && (k.ReadLink? ==> n.pc == Work(User.WriteLink(k.h, k.token, false)))
      && n.w.live == m.w.live && n.w.store == m.w.store
      && (t.outcome.Lost? || k.FetchGroup? || k.ReadLink? ==> n.w.own == m.w.own)
  {
  }

  // ---------------------------------------------------------------- OIDC clients

  /** Where a run is about to look up a reference, there is one, and its group was listed. */
  predicate Pending(pc: OIDCClient.ClientPc) {
    pc.Work? && pc.k.Admit? ==>
      |pc.k.members| < |pc.k.g.spec.groupRefs| && pc.k.g.spec.groupRefs[|pc.k.members|] in pc.k.groups
  }

  lemma PendingStays(m: OIDCClient.ClientMachine, ev: OIDCClient.ClientEvent)
    requires Pending(m.pc)
    ensures Pending(OIDCClient.Apply(m, ev).pc)
  {
  }

  /** Only a policy that is to be removed and cannot be read is passed over. */
  lemma {:induction false} ClientSpoilt(m: OIDCClient.ClientMachine, es: seq<OIDCClient.ClientEvent>, i: nat)
    requires i < |es| && (forall j :: 0 <= j < |es| ==> !es[j].Wake?)
    requires es[i].Call? && !es[i].t.outcome.Ok?
    requires Pending(m.pc)
    requires var pc := OIDCClient.Run(m, es[..i]).pc; !pc.Idle? && !(pc.Work? && pc.k.ReadOldPolicy?)
    ensures Doomed(OIDCClient.Run(m, es))
    decreases i
  {
    var n := OIDCClient.Apply(m, es[0]);
    if i == 0 {
      ClientFails(m, es[0].t);
      ClientDoomed(n, es[1..]);
    } else {
      PendingStays(m, es[0]);
      assert es[..i][1..] == es[1..][..i - 1];
      ClientSpoilt(n, es[1..], i - 1);
    }
  }

  lemma ClientFails(m: OIDCClient.ClientMachine, t: Tick)
    requires Pending(m.pc) && !m.pc.Idle? && !(m.pc.Work? && m.pc.k.ReadOldPolicy?) && !t.outcome.Ok?
    ensures Doomed(OIDCClient.Step(m, t))
  {
    if !m.pc.Start? && !m.pc.Work? { SharedFails(m, t); }
  }

  lemma {:induction false} ClientDoomed(m: OIDCClient.ClientMachine, es: seq<OIDCClient.ClientEvent>)
    requires Doomed(m) && forall j :: 0 <= j < |es| ==> !es[j].Wake?
    ensures Doomed(OIDCClient.Run(m, es))
    decreases |es|
  {
    if es != [] { ClientDoomed(OIDCClient.Apply(m, es[0]), es[1..]); }
  }

  // ---------------------------------------------------------------- instances

  ghost predicate InstallationDoomed(m: Installation.Machine) {
    (m.pc.Idle? && m.last.Failure?) || (m.pc.Report? && m.pc.verdict.Failure?)
  }

  /** A StatefulSet that cannot be read ends the run without a status and without an error. */
  lemma {:induction false} InstallationSpoilt(m: Installation.Machine, es: seq<Installation.Event>, i: nat)
    requires i < |es| && (forall j :: 0 <= j < |es| ==> !es[j].Wake?)
    requires es[i].Call? && !es[i].t.outcome.Ok?
    requires var pc := Installation.Run(m, es[..i]).pc; !pc.Idle? && !pc.ReadReplicas?
    ensures InstallationDoomed(Installation.Run(m, es))
    decreases i
  {
    var n := Installation.Apply(m, es[0]);
    if i == 0 {
      InstallationFails(m, es[0].t);
      InstallationStays(n, es[1..]);
    } else {
      assert es[..i][1..] == es[1..][..i - 1];
      InstallationSpoilt(n, es[1..], i - 1);
    }
  }

  lemma InstallationFails(m: Installation.Machine, t: Installation.Tick)
    requires !m.pc.Idle? && !m.pc.ReadReplicas? && !t.outcome.Ok?
    ensures InstallationDoomed(Installation.Step(m, t))
  {
  }

  lemma {:induction false} InstallationStays(m: Installation.Machine, es: seq<Installation.Event>)
    requires InstallationDoomed(m) && forall j :: 0 <= j < |es| ==> !es[j].Wake?
    ensures InstallationDoomed(Installation.Run(m, es))
    decreases |es|
  {
    if es != [] { InstallationStays(Installation.Apply(m, es[0]), es[1..]); }
  }
}
