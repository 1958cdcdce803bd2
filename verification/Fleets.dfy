/** The three controllers at a shared server: user groups, users and OIDC clients, any number of each.
    Every joint run is a run of each member alone, so the theorems about single runs hold jointly. */
module Fleets {
  import opened Basics
  import opened Lifecycle
  import opened Invariants
  import opened Fleet
  import UserGroup
  import User
  import OIDCClient

  lemma SharedOwnName<S, M, O, X, Y, K>(m: Machine<S, M, O, X, Y, K>, t: Tick)
    requires !m.pc.Start? && !m.pc.Work?
    requires Inv(m.w) && Knows(m.w, m.pc) && m.w.setup.sheltered
    ensures OwnNameOnly(m.w, SharedStep(m, t).w)
  {
  }

  lemma MakeOwnName<S, M, O, X, Y>(w: World<S, M, O, X, Y>, spec: S, body: O, want: Id, t: Tick)
    ensures OwnNameOnly(w, Make(w, spec, body, want, t).0)
  {
  }

  lemma ChangeOwnName<S, M, O, X, Y>(w: World<S, M, O, X, Y>, g: Copy<S, M>, id: Id, spec: S, body: O, o: Outcome)
    requires Chosen(w, g, id) && w.setup.sheltered
    ensures OwnNameOnly(w, Change(w, id, spec, body, o).0)
  {
  }

  lemma {:induction false} Nobody<S(!new), M(!new), O(!new), X(!new), Y(!new), K(!new)>(
    apply: (Machine<S, M, O, X, Y, K>, Event<S, M, O, X, Y>) -> Machine<S, M, O, X, Y, K>, fes: seq<FleetEvent<S, M, O, X, Y>>)
    ensures FleetRun(apply, [], fes) == []
    decreases |fes|
  {
    if fes != [] { Nobody(apply, fes[1..]); }
  }

  // ---------------------------------------------------------------- user groups

  lemma GroupOwnName(m: UserGroup.GroupMachine, t: Tick)
    requires UserGroup.MachineInv(m) && m.w.setup.sheltered
    ensures OwnNameOnly(m.w, UserGroup.Step(m, t).w)
  {
    match m.pc
    case Start(_, _) =>
    case Work(Create(g)) => MakeOwnName(m.w, g.spec, g.spec.friendlyName, "", t);
    case Work(Amend(g, id)) => ChangeOwnName(m.w, g, id, g.spec, g.spec.friendlyName, t.outcome);
    case Work(Refetch(_, _)) =>
    case _ => SharedOwnName(m, t);
  }

  lemma GroupCitizen()
    ensures Citizen(UserGroup.Apply, UserGroup.MachineInv)
  {
    forall m, ev | UserGroup.MachineInv(m)
      ensures UserGroup.MachineInv(UserGroup.Apply(m, ev)) && UserGroup.Apply(m, ev).w.setup == m.w.setup
      ensures m.w.setup.sheltered && !ev.Elsewhere? ==> OwnNameOnly(m.w, UserGroup.Apply(m, ev).w)
    {
      if ev.Call? {
        UserGroup.StepKeeps(m, ev.t);
        if m.w.setup.sheltered { GroupOwnName(m, ev.t); }
      } else {
        UserGroup.DisturbKeeps(m, ev);
      }
    }
  }

  lemma {:induction false} GroupRun(m: UserGroup.GroupMachine, es: seq<UserGroup.GroupEvent>)
    ensures RunOf(UserGroup.Apply, m, es) == UserGroup.Run(m, es)
    decreases |es|
  {
    if es != [] { GroupRun(UserGroup.Apply(m, es[0]), es[1..]); }
  }

  /** Any number of user groups at one server. */
  lemma GroupFleet(ms: seq<UserGroup.GroupMachine>, fes: seq<FleetEvent<UserGroup.Spec, UserGroup.Nothing, string, UserGroup.Nothing, UserGroup.Nothing>>, j: nat)
    requires Company(UserGroup.MachineInv, ms) && j < |ms|
    ensures var ns := FleetRun(UserGroup.Apply, ms, fes);
      && Company(UserGroup.MachineInv, ns) && |ns| == |ms|
      && ns[j] == UserGroup.Run(ms[j], View(UserGroup.Apply, ms, fes, j))
  {
    GroupCitizen();
    AsIfAlone(UserGroup.Apply, UserGroup.MachineInv, ms, fes, j);
    GroupRun(ms[j], View(UserGroup.Apply, ms, fes, j));
  }

  /** Safety of all user groups at once, from a fresh start. */
  lemma GroupsTogether(ms: seq<UserGroup.GroupMachine>, fes: seq<FleetEvent<UserGroup.Spec, UserGroup.Nothing, string, UserGroup.Nothing, UserGroup.Nothing>>)
    requires Fresh(ms)
    ensures AllSound(FleetRun(UserGroup.Apply, ms, fes)) && |FleetRun(UserGroup.Apply, ms, fes)| == |ms|
  {
    if ms == [] {
      Nobody(UserGroup.Apply, fes);
    } else {
      GroupFleet(ms, fes, 0);
      CompanySound(UserGroup.MachineInv, FleetRun(UserGroup.Apply, ms, fes));
    }
  }

  // ---------------------------------------------------------------- users

  lemma UserLive(w: User.UserWorld, k: User.Task, t: Tick)
    requires !k.Create? && !k.Amend? && !k.SetGroups?
    ensures User.TaskStep(w, k, t).w.live == w.live && User.TaskStep(w, k, t).w.setup == w.setup
  {
  }

  lemma UserOwnName(m: User.UserMachine, t: Tick)
    requires User.MachineInv(m) && m.w.setup.sheltered
    ensures OwnNameOnly(m.w, User.Step(m, t).w)
  {
    match m.pc
    case Start(_, _) =>
    case Work(Create(g, _)) => MakeOwnName(m.w, g.spec, User.Body(User.ProfileOf(g.spec), {}), "", t);
    case Work(Amend(g, _, id)) => ChangeOwnName(m.w, g, id, g.spec, User.Amended(m.w, g, id), t.outcome);
    case Work(SetGroups(_, _)) =>
    case Work(k) => UserLive(m.w, k, t);
    case _ => SharedOwnName(m, t);
  }

  lemma UserCitizen()
    ensures Citizen(User.Apply, User.MachineInv)
  {
    forall m, ev | User.MachineInv(m)
      ensures User.MachineInv(User.Apply(m, ev)) && User.Apply(m, ev).w.setup == m.w.setup
      ensures m.w.setup.sheltered && !ev.Elsewhere? ==> OwnNameOnly(m.w, User.Apply(m, ev).w)
    {
      if ev.Call? {
        User.StepKeeps(m, ev.t);
        if m.w.setup.sheltered { UserOwnName(m, ev.t); }
      } else {
        User.DisturbKeeps(m, ev);
      }
    }
  }

  lemma {:induction false} UserRun(m: User.UserMachine, es: seq<User.UserEvent>)
    ensures RunOf(User.Apply, m, es) == User.Run(m, es)
    decreases |es|
  {
    if es != [] { UserRun(User.Apply(m, es[0]), es[1..]); }
  }

  /** Any number of users at one server. */
  lemma UserFleet(ms: seq<User.UserMachine>, fes: seq<FleetEvent<User.Spec, User.Onboarding, User.Body, User.Own, User.Outer>>, j: nat)
    requires Company(User.MachineInv, ms) && j < |ms|
    ensures var ns := FleetRun(User.Apply, ms, fes);
      && Company(User.MachineInv, ns) && |ns| == |ms|
      && ns[j] == User.Run(ms[j], View(User.Apply, ms, fes, j))
  {
    UserCitizen();
    AsIfAlone(User.Apply, User.MachineInv, ms, fes, j);
    UserRun(ms[j], View(User.Apply, ms, fes, j));
  }

  /** Safety of all users at once, from a fresh start. */
  lemma UsersTogether(ms: seq<User.UserMachine>, fes: seq<FleetEvent<User.Spec, User.Onboarding, User.Body, User.Own, User.Outer>>)
    requires Fresh(ms)
    ensures AllSound(FleetRun(User.Apply, ms, fes)) && |FleetRun(User.Apply, ms, fes)| == |ms|
  {
    if ms == [] {
      Nobody(User.Apply, fes);
    } else {
      UserFleet(ms, fes, 0);
      CompanySound(User.MachineInv, FleetRun(User.Apply, ms, fes));
    }
  }

  // ---------------------------------------------------------------- OIDC clients

  lemma ClientLive(w: OIDCClient.ClientWorld, k: OIDCClient.Task, t: Tick)
    requires !k.Create? && !k.Amend?
    ensures OIDCClient.TaskStep(w, k, t).w.live == w.live && OIDCClient.TaskStep(w, k, t).w.setup == w.setup
  {
  }

  lemma ClientOwnName(m: OIDCClient.ClientMachine, t: Tick)
    requires OIDCClient.MachineInv(m) && m.w.setup.sheltered
    ensures OwnNameOnly(m.w, OIDCClient.Step(m, t).w)
  {
    match m.pc
    case Start(_, _) =>
    case Work(Create(g, _, members)) => MakeOwnName(m.w, g.spec, OIDCClient.Target(g.spec, members), g.spec.wantedId, t);
    case Work(Amend(g, _, id, members)) => ChangeOwnName(m.w, g, id, g.spec, OIDCClient.Target(g.spec, members), t.outcome);
    case Work(k) => ClientLive(m.w, k, t);
    case _ => SharedOwnName(m, t);
  }

  lemma ClientCitizen()
    ensures Citizen(OIDCClient.Apply, OIDCClient.MachineInv)
  {
    forall m, ev | OIDCClient.MachineInv(m)
      ensures OIDCClient.MachineInv(OIDCClient.Apply(m, ev)) && OIDCClient.Apply(m, ev).w.setup == m.w.setup
      ensures m.w.setup.sheltered && !ev.Elsewhere? ==> OwnNameOnly(m.w, OIDCClient.Apply(m, ev).w)
    {
      if ev.Call? {
        OIDCClient.StepKeeps(m, ev.t);
        if m.w.setup.sheltered { ClientOwnName(m, ev.t); }
      } else {
        OIDCClient.DisturbKeeps(m, ev);
      }
    }
  }

  lemma {:induction false} ClientRun(m: OIDCClient.ClientMachine, es: seq<OIDCClient.ClientEvent>)
    ensures RunOf(OIDCClient.Apply, m, es) == OIDCClient.Run(m, es)
    decreases |es|
  {
    if es != [] { ClientRun(OIDCClient.Apply(m, es[0]), es[1..]); }
  }

  /** Any number of OIDC clients at one server. */
  lemma ClientFleet(ms: seq<OIDCClient.ClientMachine>, fes: seq<FleetEvent<OIDCClient.Spec, OIDCClient.More, OIDCClient.Body, OIDCClient.Own, OIDCClient.Outer>>, j: nat)
    requires Company(OIDCClient.MachineInv, ms) && j < |ms|
    ensures var ns := FleetRun(OIDCClient.Apply, ms, fes);
      && Company(OIDCClient.MachineInv, ns) && |ns| == |ms|
      && ns[j] == OIDCClient.Run(ms[j], View(OIDCClient.Apply, ms, fes, j))
  {
    ClientCitizen();
    AsIfAlone(OIDCClient.Apply, OIDCClient.MachineInv, ms, fes, j);
    ClientRun(ms[j], View(OIDCClient.Apply, ms, fes, j));
  }

  /** Safety of all OIDC clients at once, from a fresh start. */
  lemma ClientsTogether(ms: seq<OIDCClient.ClientMachine>, fes: seq<FleetEvent<OIDCClient.Spec, OIDCClient.More, OIDCClient.Body, OIDCClient.Own, OIDCClient.Outer>>)
    requires Fresh(ms)
    ensures AllSound(FleetRun(OIDCClient.Apply, ms, fes)) && |FleetRun(OIDCClient.Apply, ms, fes)| == |ms|
  {
    if ms == [] {
      Nobody(OIDCClient.Apply, fes);
    } else {
      ClientFleet(ms, fes, 0);
      CompanySound(OIDCClient.MachineInv, FleetRun(OIDCClient.Apply, ms, fes));
    }
  }
}
