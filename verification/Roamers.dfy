/** The three controllers at several servers: safe as long as no reference changes with an id on record,
    and a run that shows what is lost when one does. */
module Roamers {
  import opened Basics
  import opened Kube
  import opened GroupRefs
  import opened Lifecycle
  import opened Invariants
  import opened Roaming
  import UserGroup
  import User
  import OIDCClient

  lemma GroupNomad()
    ensures Nomad(UserGroup.Apply, UserGroup.MachineInv)
  {
    forall m, ev | UserGroup.MachineInv(m)
      ensures UserGroup.MachineInv(UserGroup.Apply(m, ev)) && UserGroup.Apply(m, ev).w.setup == m.w.setup
    {
      if ev.Call? { UserGroup.StepKeeps(m, ev.t); } else { UserGroup.DisturbKeeps(m, ev); }
    }
  }

  lemma UserNomad()
    ensures Nomad(User.Apply, User.MachineInv)
  {
    forall m, ev | User.MachineInv(m) ensures User.MachineInv(User.Apply(m, ev)) && User.Apply(m, ev).w.setup == m.w.setup {
      if ev.Call? { User.StepKeeps(m, ev.t); } else { User.DisturbKeeps(m, ev); }
    }
  }

  lemma ClientNomad()
    ensures Nomad(OIDCClient.Apply, OIDCClient.MachineInv)
  {
    forall m, ev | OIDCClient.MachineInv(m)
      ensures OIDCClient.MachineInv(OIDCClient.Apply(m, ev)) && OIDCClient.Apply(m, ev).w.setup == m.w.setup
    {
      if ev.Call? { OIDCClient.StepKeeps(m, ev.t); } else { OIDCClient.DisturbKeeps(m, ev); }
    }
  }

  /** Where a resource starts: nothing on record at any server, at most one object of its name at each. */
  ghost predicate Fresh<S(!new), M(!new), O(!new), X(!new), Y(!new), K(!new)>(r: Roamer<S, M, O, X, Y, K>) {
    && r.m == Machine(r.m.w, Idle, Failure) && Initial(r.m.w) && r.at !in r.away
    && forall h :: h in r.away ==> SiteOk(r.away[h], r.m.w.setup.key)
  }

  lemma GroupsRoam(r: Roamer<UserGroup.Spec, UserGroup.Nothing, string, UserGroup.Nothing, UserGroup.Nothing, UserGroup.Task>,
                   es: seq<RoamEvent<UserGroup.Spec, UserGroup.Nothing, string, UserGroup.Nothing, UserGroup.Nothing>>)
    requires Fresh(r) && Settles(UserGroup.Apply, r, es)
    ensures var v := RoamRun(UserGroup.Apply, r, es); RoamInv(UserGroup.MachineInv, v) && Accounted(v)
  {
    GroupNomad();
    RoamSafe(UserGroup.Apply, UserGroup.MachineInv, r, es);
  }

  lemma UsersRoam(r: Roamer<User.Spec, User.Onboarding, User.Body, User.Own, User.Outer, User.Task>,
                  es: seq<RoamEvent<User.Spec, User.Onboarding, User.Body, User.Own, User.Outer>>)
    requires Fresh(r) && Settles(User.Apply, r, es)
    ensures var v := RoamRun(User.Apply, r, es); RoamInv(User.MachineInv, v) && Accounted(v)
  {
    UserNomad();
    RoamSafe(User.Apply, User.MachineInv, r, es);
  }

  lemma ClientsRoam(r: Roamer<OIDCClient.Spec, OIDCClient.More, OIDCClient.Body, OIDCClient.Own, OIDCClient.Outer, OIDCClient.Task>,
                    es: seq<RoamEvent<OIDCClient.Spec, OIDCClient.More, OIDCClient.Body, OIDCClient.Own, OIDCClient.Outer>>)
    requires Fresh(r) && Settles(OIDCClient.Apply, r, es)
    ensures var v := RoamRun(OIDCClient.Apply, r, es); RoamInv(OIDCClient.MachineInv, v) && Accounted(v)
  {
    ClientNomad();
    RoamSafe(OIDCClient.Apply, OIDCClient.MachineInv, r, es);
  }

  // ---------------------------------------------------------------- a reference changed with an id on record

  type GroupRoamer = Roamer<UserGroup.Spec, UserGroup.Nothing, string, UserGroup.Nothing, UserGroup.Nothing, UserGroup.Task>
  type GroupRoamEvent = RoamEvent<UserGroup.Spec, UserGroup.Nothing, string, UserGroup.Nothing, UserGroup.Nothing>

  /** Deleting a resource that has come to refer to another instance: undisturbed, the resource goes if and
      only if that instance has an object of the same id or accepts deletes of missing ones. Its own
      object stays where it is either way. */
  lemma DeletionAway(r: GroupRoamer, to: InstanceKey, ts: seq<Tick>)
    requires Moves(r, to) && r.m.w.store.cr == Some(r.m.pc.g)
    requires r.m.pc.g.deleting && r.m.pc.g.finalizer && r.m.pc.g.status.id != ""
    requires |ts| >= 3 && forall i :: 0 <= i < |ts| ==> ts[i].outcome.Ok? && ts[i].gate.Granted?
    ensures var v, id := Attach(r, to), r.m.pc.g.status.id;
      var n := UserGroup.Drive(v.m, ts, 0);
      && n.pc.Idle?
      && (n.w.store.cr.None? <==> id in r.away[to].live || r.m.w.setup.tolerant)
      && (n.w.store.cr.None? <==> n.last.Success?)
      && r.at in v.away && v.away[r.at] == Site(r.m.w.live, r.m.w.recorded)
  {
    var m := Attach(r, to).m;
    var m1 := UserGroup.Step(m, ts[0]);
    assert m1 == Machine(m.w, Discard(m.pc.g), Failure);
    Closing(m1, ts[1]);
    var m2 := UserGroup.Step(m1, ts[1]);
    assert UserGroup.Drive(m, ts, 0) == UserGroup.Drive(m1, ts, 1) == UserGroup.Drive(m2, ts, 2);
    if m2.pc.Unfinalize? { Closing(m2, ts[2]); }
    assert UserGroup.Drive(m2, ts, 2) == UserGroup.Drive(UserGroup.Step(m2, ts[2]), ts, 3);
  }

  /** No crash, no failed call and no refusal. */
  ghost predicate Faultless(es: seq<GroupRoamEvent>) {
    forall i :: 0 <= i < |es| && es[i].Stay? ==>
      !es[i].ev.Crash? && (es[i].ev.Call? ==> es[i].ev.t.outcome.Ok? && es[i].ev.t.gate.Granted?)
  }

  lemma {:induction false} CallsFaultless(ts: seq<Tick>, i: nat)
    requires forall j :: i <= j < |ts| ==> ts[j].outcome.Ok? && ts[j].gate.Granted?
    ensures Faultless(Calls(ts, i))
    decreases |ts| - i
  {
    if i < |ts| { CallsFaultless(ts, i + 1); }
  }

  function Calls(ts: seq<Tick>, i: nat): seq<GroupRoamEvent>
    decreases |ts| - i
  {
    if i >= |ts| then [] else [Stay(Call(ts[i]))] + Calls(ts, i + 1)
  }

  lemma {:induction false} CallsDrive(r: GroupRoamer, ts: seq<Tick>, i: nat)
    ensures RoamRun(UserGroup.Apply, r, Calls(ts, i)) == r.(m := UserGroup.Drive(r.m, ts, i))
    decreases |ts| - i
  {
    if i < |ts| {
      var es := Calls(ts, i);
      assert es[0] == Stay(Call(ts[i])) && es[1..] == Calls(ts, i + 1);
      CallsDrive(r.(m := UserGroup.Step(r.m, ts[i])), ts, i + 1);
      assert r.m.pc.Idle? ==> UserGroup.Drive(r.m, ts, i + 1) == r.m;
    }
  }

  lemma {:induction false} RoamAppend(r: GroupRoamer, es: seq<GroupRoamEvent>, fs: seq<GroupRoamEvent>)
    ensures RoamRun(UserGroup.Apply, r, es + fs) == RoamRun(UserGroup.Apply, RoamRun(UserGroup.Apply, r, es), fs)
    decreases |es|
  {
    if es == [] {
      assert es + fs == fs;
    } else {
      assert (es + fs)[0] == es[0] && (es + fs)[1..] == es[1..] + fs;
      RoamAppend(RoamApply(UserGroup.Apply, r, es[0]), es[1..], fs);
    }
  }

  /** A group is made and synced at the present server, which is empty. */
  lemma Synced(r: GroupRoamer, inst: Instance) returns (es: seq<GroupRoamEvent>)
    requires Fresh(r) && r.m.w.live == map[]
    ensures Faultless(es)
    ensures var v := RoamRun(UserGroup.Apply, r, es);
      && v == r.(m := v.m) && UserGroup.MachineInv(v.m) && v.m.pc.Idle? && v.m.w.setup == r.m.w.setup
      && UserGroup.Settled(v.m.w)
  {
    var w := r.m.w;
    var c := Resource(w.store.clock + 1, w.setup.key, UserGroup.Spec("Team"), 1, Blank(w.setup.blank), false, false, w.store.clock + 1);
    var born := Elsewhere(Outside(Store(Some(c), w.store.clock + 1), w.live, w.own, w.outer));
    assert Rely(w, born.e);
    var m1 := UserGroup.Apply(r.m, born);
    var t := Tick(Ok, "group", 0, Granted(inst), []);
    var ts := seq(7, _ => t);
    assert Good(m1.w.live, t);
    var m2 := Machine(m1.w, Read, Failure);
    CallsFaultless(ts, 0);
    es := [Stay(born), Stay(Wake)] + Calls(ts, 0);
    assert es[0] == Stay(born) && es[1..][0] == Stay(Wake) && es[1..][1..] == Calls(ts, 0);
    assert RoamRun(UserGroup.Apply, r, es) == RoamRun(UserGroup.Apply, r.(m := m2), Calls(ts, 0));
    CallsDrive(r.(m := m2), ts, 0);
    UserGroup.Recovery(m1.w, ts);
    UserGroup.DisturbKeeps(r.m, born);
    UserGroup.DriveKeeps(m2, ts, 0);
    DriveSetup(m2, ts, 0);
  }

  lemma {:induction false} DriveSetup(m: UserGroup.GroupMachine, ts: seq<Tick>, i: nat)
    requires UserGroup.MachineInv(m)
    ensures UserGroup.Drive(m, ts, i).w.setup == m.w.setup
    decreases |ts| - i
  {
    if i < |ts| && !m.pc.Idle? {
      UserGroup.StepKeeps(m, ts[i]);
      DriveSetup(UserGroup.Step(m, ts[i]), ts, i + 1);
    }
  }

  /** Its deletion begins, and the run that is to carry it out finds the reference changed. */
  lemma Departed(r: GroupRoamer, to: InstanceKey) returns (es: seq<GroupRoamEvent>)
    requires UserGroup.MachineInv(r.m) && r.m.pc.Idle? && UserGroup.Settled(r.m.w) && r.at !in r.away && to in r.away
    ensures Faultless(es)
    ensures var v, c := RoamRun(UserGroup.Apply, r, es), r.m.w.store.cr.value;
      && v.away == r.away && v.at == r.at && Moves(v, to) && v.m.w.live == r.m.w.live && v.m.w.recorded == r.m.w.recorded
      && v.m.w.setup == r.m.w.setup && v.m.w.store.cr == Some(v.m.pc.g)
      && v.m.pc.g.deleting && v.m.pc.g.finalizer && v.m.pc.g.status == c.status
  {
    var w := r.m.w;
    var c := w.store.cr.value.(deleting := true, version := w.store.clock + 1);
    var marked := Elsewhere(Outside(Store(Some(c), w.store.clock + 1), w.live, w.own, w.outer));
    assert Rely(w, marked.e);
    var read := Call(Tick(Ok, "", 0, Granted(Instance(to.name, to.namespace, "")), []));
    es := [Stay(marked), Stay(Wake), Stay(read)];
    var r1 := r.(m := r.m.(w := After(w, marked.e)));
    var r2 := r1.(m := r1.m.(pc := Read));
    var r3 := r2.(m := Machine(r2.m.w, Gate(c), Failure));
    assert UserGroup.Apply(r.m, marked) == r1.m && UserGroup.Apply(r1.m, Wake) == r2.m && UserGroup.Apply(r2.m, read) == r3.m;
    assert es[1..] == [Stay(Wake), Stay(read)] && es[1..][1..] == [Stay(read)] && es[1..][1..][1..] == [];
    assert RoamRun(UserGroup.Apply, r2, [Stay(read)]) == r3;
    assert RoamRun(UserGroup.Apply, r1, es[1..]) == r3;
  }

  /** Sync at one instance, refer to another, delete: with no failed call and no crash, the resource is gone
      and its object stays live at the first server, on record and unguarded. */
  lemma OrphanRun() returns (r: GroupRoamer, es: seq<GroupRoamEvent>, id: Id)
    ensures Fresh(r) && Faultless(es)
    ensures var v := RoamRun(UserGroup.Apply, r, es);
      && v.m.w.store.cr.None? && r.at in v.away && id in v.away[r.at].live && id in v.away[r.at].recorded && !Accounted(v)
  {
    var here, there := InstanceKey("ns", "one"), InstanceKey("ns", "two");
    var inst := Instance("one", "ns", "https://one.example.com");
    var w := World(Setup("team", UserGroup.Nothing, UserGroup.Nothing, true, true, true, "DeleteGroupFailed"), Store(None, 0),
                   map[], UserGroup.Nothing, UserGroup.Nothing, [], {});
    r := Roamer(Machine(w, Idle, Failure), here, map[there := Site(map[], {})]);
    var synced := Synced(r, inst);
    var r1 := RoamRun(UserGroup.Apply, r, synced);
    id := r1.m.w.store.cr.value.status.id;
    assert ResourceInv(r1.m.w, r1.m.w.store.cr.value);
    var departed := Departed(r1, there);
    var r2 := RoamRun(UserGroup.Apply, r1, departed);
    var ts := seq(3, _ => Tick(Ok, "", 0, Granted(inst), []));
    DeletionAway(r2, there, ts);
    CallsFaultless(ts, 0);
    var last := [Move(there)] + Calls(ts, 0);
    assert last[0] == Move(there) && last[1..] == Calls(ts, 0);
    CallsDrive(Attach(r2, there), ts, 0);
    es := synced + departed + last;
    RoamAppend(r, synced, departed);
    RoamAppend(r, synced + departed, last);
  }
}
