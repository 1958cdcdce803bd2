/** A credentials Secret that outlives its client: ensureCredentialsSecret
    (internal/controller/pocketidoidcclient_controller.go) takes a Secret that holds a client secret as
    it is, whichever client that belongs to. Exactly when the Secret is right, and how it goes wrong. */
module OIDCLeftovers {
  import opened Basics
  import opened Kube
  import opened Lifecycle
  import opened Invariants
  import opened OIDCClient
  import opened OIDCCredentials
  import opened OIDCRecovery

  // ---------------------------------------------------------------- a wrong Secret stays wrong

  lemma TaskStale(w: ClientWorld, k: Task, t: Tick, name: string)
    requires CredentialInv(Machine(w, Work(k), Failure), name, false) && w.setup.sheltered
    requires Filled(w.own, name) && !Genuine(w, name)
    ensures var v := TaskStep(w, k, t).w; Filled(v.own, name) && !Genuine(v, name)
  {
    TaskStays(w, k, t, name);
  }

  lemma StepStale(m: ClientMachine, t: Tick, name: string)
    requires CredentialInv(m, name, false) && m.w.setup.sheltered
    requires Filled(m.w.own, name) && !Genuine(m.w, name)
    ensures var v := Step(m, t).w; Filled(v.own, name) && !Genuine(v, name)
  {
    match m.pc
    case Start(g, inst) => FirstCalm(m.w, g, inst, t, name);
    case Work(k) => TaskStale(m.w, k, t, name);
    case _ =>
  }

  /** While one guarded resource exists and is not being deleted, a filled Secret stays as genuine, or
      as wrong, as it is. */
  ghost predicate SameVerdict(w: ClientWorld, v: ClientWorld, name: string) {
    w.store.cr.Some? && w.store.cr.value.finalizer && v.store.cr.Some? && v.store.cr.value.uid == w.store.cr.value.uid ==>
      && v.store.cr.value.finalizer && (w.store.cr.value.deleting ==> v.store.cr.value.deleting)
      && (Filled(w.own, name) ==>
            && Filled(v.own, name)
            && (!v.store.cr.value.deleting ==> (Genuine(v, name) <==> Genuine(w, name))))
  }

  lemma StepDeleting(m: ClientMachine, t: Tick)
    requires MachineInv(m)
    ensures var v := Step(m, t).w;
      v.store.cr.Some? && m.w.store.cr.Some? && m.w.store.cr.value.deleting ==> v.store.cr.value.deleting
  {
  }

  lemma StepVerdict(m: ClientMachine, t: Tick, name: string)
    requires CredentialInv(m, name, false) && m.w.setup.sheltered
    ensures SameVerdict(m.w, Step(m, t).w, name)
  {
    StepStays(m, t, name);
    StepDeleting(m, t);
    if Filled(m.w.own, name) {
      if Genuine(m.w, name) { StepTruth(m, t, name, true); } else { StepStale(m, t, name); }
    }
  }

  lemma DisturbVerdict(m: ClientMachine, ev: ClientEvent, name: string)
    requires CredentialInv(m, name, false) && m.w.setup.sheltered
    ensures SameVerdict(m.w, Disturb(m, ev).w, name)
  {
  }

  lemma {:induction false} RunVerdict(m: ClientMachine, es: seq<ClientEvent>, name: string)
    requires CredentialInv(m, name, false) && m.w.setup.sheltered && AllSteady(es, name)
    ensures SameVerdict(m.w, Run(m, es).w, name) && Kept(m.w, Run(m, es).w)
    decreases |es|
  {
    if es != [] {
      var n := Apply(m, es[0]);
      if es[0].Call? {
        StepVerdict(m, es[0].t, name);
        StepTruth(m, es[0].t, name, false);
        StepKeeps(m, es[0].t);
      } else {
        DisturbVerdict(m, es[0], name);
        DisturbTruth(m, es[0], name, false);
        DisturbKeeps(m, es[0]);
      }
      RunVerdict(n, es[1..], name);
      KeptTransitive(m.w, n.w, Run(n, es[1..]).w);
    }
  }

  /** Between any two points of any history in a sheltered world. */
  lemma VerdictStays(w: ClientWorld, before: seq<ClientEvent>, after: seq<ClientEvent>, name: string)
    requires Initial(w) && !Filled(w.setup.clean, name) && w.setup.sheltered
    requires AllSteady(before, name) && AllSteady(after, name)
    ensures var m := Run(Machine(w, Idle, Failure), before);
      SameVerdict(m.w, Run(m, after).w, name)
  {
    CredentialStart(w, before, name);
    RunVerdict(Run(Machine(w, Idle, Failure), before), after, name);
  }

  // ---------------------------------------------------------------- one undisturbed reconcile

  lemma {:induction false} DriveTruth(m: ClientMachine, ts: seq<Tick>, i: nat, name: string, trusted: bool)
    requires CredentialInv(m, name, trusted)
    ensures CredentialInv(Drive(m, ts, i), name, trusted) && Drive(m, ts, i).w.setup == m.w.setup
    decreases |ts| - i
  {
    if i < |ts| && !m.pc.Idle? {
      StepTruth(m, ts[i], name, trusted);
      DriveTruth(Step(m, ts[i]), ts, i + 1, name, trusted);
    }
  }

  lemma {:induction false} DriveStale(m: ClientMachine, ts: seq<Tick>, i: nat, name: string)
    requires CredentialInv(m, name, false) && m.w.setup.sheltered
    requires Filled(m.w.own, name) && !Genuine(m.w, name)
    ensures var v := Drive(m, ts, i).w; Filled(v.own, name) && !Genuine(v, name)
    decreases |ts| - i
  {
    if i < |ts| && !m.pc.Idle? {
      StepStale(m, ts[i], name);
      StepTruth(m, ts[i], name, false);
      DriveStale(Step(m, ts[i]), ts, i + 1, name);
    }
  }

  lemma {:induction false} DriveSpec(m: ClientMachine, ts: seq<Tick>, i: nat)
    requires MachineInv(m)
    ensures var v := Drive(m, ts, i).w; v.store.cr.Some? ==> m.w.store.cr.Some? && v.store.cr.value.spec == m.w.store.cr.value.spec
    decreases |ts| - i
  {
    if i < |ts| && !m.pc.Idle? {
      StepSpec(m, ts[i]);
      StepKeeps(m, ts[i]);
      DriveSpec(Step(m, ts[i]), ts, i + 1);
    }
  }

  /** What a Settled resource may claim of its Secret, exactly: after any history in a sheltered world,
      an undisturbed reconcile that succeeds leaves a genuine Secret if and only if it found the Secret
      without a client secret, or genuine already. */
  lemma SecretAfter(w: ClientWorld, inst: Instance, ts: seq<Tick>, name: string)
    requires CredentialInv(Machine(w, Idle, Failure), name, false) && w.setup.sheltered
    requires w.store.cr.Some? && !w.store.cr.value.deleting
    requires WantsSecret(w.store.cr.value.spec) && w.store.cr.value.spec.secretRef == Some(name)
    requires |ts| >= |w.store.cr.value.spec.groupRefs| + 14 && FaultFree(w.live, ts) && ts[1].gate == Granted(inst)
    requires Recoverable(w, inst)
    ensures var v := Reconcile(w, ts).w;
      Settled(v, inst) && Filled(v.own, name) && (Genuine(v, name) <==> !Filled(w.own, name) || Genuine(w, name))
  {
    var m := Machine(w, Read, Failure);
    Recovery(w, inst, ts);
    DriveSpec(m, ts, 0);
    DriveTruth(m, ts, 0, name, false);
    if !Filled(w.own, name) || Genuine(w, name) {
      DriveTruth(m, ts, 0, name, true);
    } else {
      DriveStale(m, ts, 0, name);
    }
  }

  // ---------------------------------------------------------------- how a Secret goes wrong

  /** The same calls as events. */
  function Calls(ts: seq<Tick>, i: nat): seq<ClientEvent>
    decreases |ts| - i
  {
    if i >= |ts| then [] else [Call(ts[i])] + Calls(ts, i + 1)
  }

  lemma {:induction false} DriveRuns(m: ClientMachine, ts: seq<Tick>, i: nat)
    ensures Run(m, Calls(ts, i)) == Drive(m, ts, i)
    decreases |ts| - i
  {
    if i < |ts| {
      var es := Calls(ts, i);
      assert es[0] == Call(ts[i]) && es[1..] == Calls(ts, i + 1);
      DriveRuns(Step(m, ts[i]), ts, i + 1);
      if m.pc.Idle? { IdleDrive(m, ts, i + 1); }
    }
  }

  lemma IdleDrive(m: ClientMachine, ts: seq<Tick>, i: nat)
    requires m.pc.Idle?
    ensures Drive(m, ts, i) == m
  {
  }

  lemma {:induction false} RunAppend(m: ClientMachine, es: seq<ClientEvent>, fs: seq<ClientEvent>)
    ensures Run(m, es + fs) == Run(Run(m, es), fs)
    decreases |es|
  {
    if es == [] {
      assert es + fs == fs;
    } else {
      assert (es + fs)[0] == es[0] && (es + fs)[1..] == es[1..] + fs;
      RunAppend(Apply(m, es[0]), es[1..], fs);
    }
  }

  lemma {:induction false} Enumeration(live: map<Id, Remote<Body>>) returns (order: seq<Id>)
    ensures Enumerates(order, live)
    decreases |live|
  {
    order := [];
    if live != map[] {
      var id :| id in live;
      assert |live - {id}| < |live| by { assert live.Keys == (live - {id}).Keys + {id}; }
      var rest := Enumeration(live - {id});
      order := rest + [id];
    }
  }

  lemma {:induction false} LongerThanAll(ids: set<Id>) returns (x: Id)
    ensures x != "" && forall id :: id in ids ==> |id| < |x|
    decreases ids
  {
    x := "x";
    if ids != {} {
      var id :| id in ids;
      var y := LongerThanAll(ids - {id});
      x := y + id;
      assert forall i :: i in ids ==> i == id || i in ids - {id};
    }
  }

  lemma FaultFreeTicks(live: map<Id, Remote<Body>>, inst: Instance, n: nat) returns (ts: seq<Tick>)
    ensures |ts| == n && FaultFree(live, ts) && forall i :: 0 <= i < n ==> ts[i].gate == Granted(inst)
  {
    var order := Enumeration(live);
    var minted := LongerThanAll(live.Keys);
    assert minted !in live;
    var t := Tick(Ok, minted, 0, Granted(inst), order);
    assert Good(live, t);
    ts := seq(n, _ => t);
  }

  /** A resource that asks for nothing but a Secret. */
  function Plain(clock: nat): Client {
    Resource(clock, "app", Spec("app", "ns", "", false, false, [], [], Some("app-credentials"), None), 1,
             Blank(More("", "")), false, false, clock)
  }

  /** Everyone else stores `cr` and leaves the rest as it is. */
  function Stored(w: ClientWorld, cr: Client): ClientEvent {
    Elsewhere(Outside(Store(Some(cr), w.store.clock + 1), w.live, w.own, w.outer))
  }

  /** An undisturbed reconcile of a resource of this kind, as events. */
  lemma Reconciled(m: ClientMachine, inst: Instance, name: string) returns (es: seq<ClientEvent>)
    requires CredentialInv(m, name, false) && m.pc.Idle? && m.w.setup.sheltered
    requires m.w.store.cr.Some? && !m.w.store.cr.value.deleting && m.w.store.cr.value.spec == Plain(1).spec && name == "app-credentials"
    requires m.w.store.cr.value.status.id == ""
    ensures AllSteady(es, name) && Faultless(es)
    ensures var n := Run(m, es);
      && n.pc.Idle? && CredentialInv(n, name, false) && n.w.setup == m.w.setup && Settled(n.w, inst)
      && n.w.store.cr.value.spec == Plain(1).spec
      && Filled(n.w.own, name) && (Genuine(n.w, name) <==> !Filled(m.w.own, name) || Genuine(m.w, name))
  {
    var ts := FaultFreeTicks(m.w.live, inst, 14);
    var r := Machine(m.w, Read, m.last);
    es := [Wake] + Calls(ts, 0);
    assert forall i :: 0 <= i < |ts| ==> Good(m.w.live, ts[i]);
    FaultlessCalls(ts, 0);
    assert es[0] == Wake && es[1..] == Calls(ts, 0);
    assert Run(m, es) == Run(r, Calls(ts, 0));
    DriveRuns(r, ts, 0);
    LastIdle(m.w, m.last, ts);
    SecretAfter(m.w, inst, ts, name);
    Recovery(m.w, inst, ts);
    RunTruth(m, es, name, false);
    DriveSpec(Machine(m.w, Read, Failure), ts, 0);
  }

  /** No crash, no failed call and no refusal. */
  ghost predicate Faultless(es: seq<ClientEvent>) {
    forall i :: 0 <= i < |es| ==> !es[i].Crash? && (es[i].Call? ==> es[i].t.outcome.Ok? && es[i].t.gate.Granted?)
  }

  lemma {:induction false} FaultlessCalls(ts: seq<Tick>, i: nat)
    requires forall j :: i <= j < |ts| ==> ts[j].outcome.Ok? && ts[j].gate.Granted?
    ensures Faultless(Calls(ts, i))
    ensures forall j :: 0 <= j < |Calls(ts, i)| ==> Calls(ts, i)[j].Call?
    decreases |ts| - i
  {
    if i < |ts| { FaultlessCalls(ts, i + 1); }
  }

  /** What a machine reported last has no bearing on its next run. */
  lemma LastIdle(w: ClientWorld, last: Verdict, ts: seq<Tick>)
    requires |ts| > 0
    ensures Drive(Machine(w, Read, last), ts, 0) == Drive(Machine(w, Read, Failure), ts, 0)
  {
    assert Step(Machine(w, Read, last), ts[0]) == Step(Machine(w, Read, Failure), ts[0]);
  }

  /** The undisturbed deletion of a settled resource, as events; its Secret stays, its client goes. */
  lemma Removed(m: ClientMachine, inst: Instance, name: string) returns (es: seq<ClientEvent>)
    requires CredentialInv(m, name, false) && m.pc.Idle? && Settled(m.w, inst) && m.w.store.cr.value.spec == Plain(1).spec
    requires name == "app-credentials"
    ensures AllSteady(es, name) && Faultless(es)
    ensures var n := Run(m, es);
      && n.pc.Idle? && CredentialInv(n, name, false) && n.w.setup == m.w.setup && n.w.store.cr.None?
      && n.w.own == m.w.own && n.w.live == m.w.live - {m.w.store.cr.value.status.id}
  {
    var c := m.w.store.cr.value;
    var ev := Stored(m.w, c.(deleting := true, version := m.w.store.clock + 1));
    assert Rely(m.w, ev.e);
    var m1 := Apply(m, ev);
    var ts := FaultFreeTicks(m.w.live, inst, 4);
    var r := Machine(m1.w, Read, m.last);
    es := [ev, Wake] + Calls(ts, 0);
    assert forall i :: 0 <= i < |ts| ==> Good(m.w.live, ts[i]);
    FaultlessCalls(ts, 0);
    assert es[0] == ev && es[1..][0] == Wake && es[1..][1..] == Calls(ts, 0);
    assert Run(m, es) == Run(r, Calls(ts, 0));
    DriveRuns(r, ts, 0);
    LastIdle(m1.w, m.last, ts);
    Deletion(m1.w, ts);
    DriveOwn(Machine(m1.w, Read, Failure), ts);
    RunTruth(m, es, name, false);
  }

  /** A deletion leaves what the controller wrote besides. */
  lemma DriveOwn(m: ClientMachine, ts: seq<Tick>)
    requires m.pc == Read && m.w.store.cr.Some? && m.w.store.cr.value.deleting && m.w.store.cr.value.finalizer
    requires |ts| >= 4 && FaultFree(m.w.live, ts)
    ensures Drive(m, ts, 0).w.own == m.w.own
  {
    assert Good(m.w.live, ts[0]) && Good(m.w.live, ts[1]) && Good(m.w.live, ts[2]) && Good(m.w.live, ts[3]);
    var m1 := Step(m, ts[0]);
    var m2 := Step(m1, ts[1]);
    var m3 := Step(m2, ts[2]);
    assert Drive(m, ts, 0) == Drive(m1, ts, 1) == Drive(m2, ts, 2) == Drive(m3, ts, 3);
    assert m3.w.own == m.w.own;
    if !m3.pc.Idle? { assert Drive(m3, ts, 3) == Drive(Step(m3, ts[3]), ts, 4); }
  }

  /** A new resource of the same name, while the old one's Secret is still there. */
  lemma Recreated(m: ClientMachine, name: string)
    requires CredentialInv(m, name, false) && m.pc.Idle? && m.w.store.cr.None? && name == "app-credentials"
    requires m.w.setup.key == "app" && m.w.setup.blank == More("", "") && !m.w.setup.tidy
    ensures var ev := Stored(m.w, Plain(m.w.store.clock + 1));
      var n := Run(m, [ev]);
      && AllSteady([ev], name) && CredentialInv(n, name, false) && n == m.(w := After(m.w, ev.e))
  {
    var ev := Stored(m.w, Plain(m.w.store.clock + 1));
    assert Rely(m.w, ev.e);
    DisturbTruth(m, ev, name, false);
    assert [ev][0] == ev && [ev][1..] == [];
  }

  /** A resource is created and synced. */
  lemma Lived(m: ClientMachine, inst: Instance, name: string) returns (es: seq<ClientEvent>)
    requires CredentialInv(m, name, false) && m.pc.Idle? && m.w.store.cr.None? && name == "app-credentials"
    requires m.w.setup.key == "app" && m.w.setup.blank == More("", "") && !m.w.setup.tidy && m.w.setup.sheltered
    ensures AllSteady(es, name) && Faultless(es)
    ensures var n := Run(m, es);
      && n.pc.Idle? && CredentialInv(n, name, false) && n.w.setup == m.w.setup && Settled(n.w, inst)
      && n.w.store.cr.value.spec == Plain(1).spec
      && Filled(n.w.own, name) && (Genuine(n.w, name) <==> !Filled(m.w.own, name) || Genuine(m.w, name))
  {
    Recreated(m, name);
    var born := [Stored(m.w, Plain(m.w.store.clock + 1))];
    var synced := Reconciled(Run(m, born), inst, name);
    es := born + synced;
    RunAppend(m, born, synced);
  }

  /** Create, sync, delete, create again, sync again, with no failed call and no crash: the resource is
      settled and reports ready, and its Secret names a client that is gone. */
  lemma LeftoverRun() returns (w: ClientWorld, inst: Instance, es: seq<ClientEvent>)
    ensures Initial(w) && w.setup.sheltered && !Filled(w.setup.clean, "app-credentials") && AllSteady(es, "app-credentials") && Faultless(es)
    ensures var v := Run(Machine(w, Idle, Failure), es).w;
      && Settled(v, inst) && v.store.cr.value.status.ready
      && Filled(v.own, "app-credentials") && !Genuine(v, "app-credentials")
  {
    var name, clean := "app-credentials", Own(map[], map[], None);
    inst := Instance("pocket-id", "ns", "https://id.example.com");
    w := World(Setup("app", More("", ""), clean, true, false, false, "DeleteOIDCClientFailed"), Store(None, 0), map[],
               clean, Outer(map[], {Key(inst)}, map[]), [], {});
    var m0 := Machine(w, Idle, Failure);
    var first := Lived(m0, inst, name);
    var m1 := Run(m0, first);
    var removed := Removed(m1, inst, name);
    var m2 := Run(m1, removed);
    assert !Genuine(m2.w, name);
    var second := Lived(m2, inst, name);
    es := first + removed + second;
    RunAppend(m0, first, removed);
    RunAppend(m0, first + removed, second);
  }
}
