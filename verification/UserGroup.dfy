/** The user group controller (internal/controller/pocketidusergroup_controller.go). */
module UserGroup {
  import opened Basics
  import opened Conditions
  import opened Kube
  import opened Lifecycle
  import opened Invariants

  /** The spec fields sent to the server besides the name. */
  datatype Spec = Spec(friendlyName: string)
  datatype Nothing = Nothing

  datatype Task =
    | Create(g: Group)
    | Amend(g: Group, id: Id)
    | Refetch(g: Group, id: Id)

  type Group = Copy<Spec, Nothing>
  type GroupWorld = World<Spec, Nothing, string, Nothing, Nothing>
  type GroupMachine = Machine<Spec, Nothing, string, Nothing, Nothing, Task>
  type GroupEvent = Event<Spec, Nothing, string, Nothing, Nothing>

  // ---------------------------------------------------------------- the machine

  predicate NeedsUpdate(found: Entry<string>, g: Group) {
    found.name != g.name || found.body != g.spec.friendlyName
  }

  /** Create, update or leave alone, once the lookup is done. */
  function Decide(g: Group, found: Option<Entry<string>>): Pc<Spec, Nothing, Task> {
    match found
    case None => Work(Create(g))
    case Some(e) => if NeedsUpdate(e, g) then Work(Amend(g, e.id)) else Work(Refetch(g, e.id))
  }

  /** The first call once the finalizer is in place: get by recorded id, or list. */
  function Begin(w: GroupWorld, g: Group, t: Tick): Pc<Spec, Nothing, Task> {
    if g.status.id != "" then
      var found := Lookup(w, g.status.id, t.outcome);
      if found.None? then Fail(g, g.status, "GetGroupFailed") else Decide(g, found)
    else
      var rows := List(w, t);
      if rows.None? then Fail(g, g.status, "ListGroupFailed") else Decide(g, FindByName(rows.value, g.name))
  }

  function Step(m: GroupMachine, t: Tick): GroupMachine {
    var w := m.w;
    match m.pc
    case Start(g, _) => Machine(w, Begin(w, g, t), Failure)
    case Work(Create(g)) =>
      var (w, made) := Make(w, g.spec, g.spec.friendlyName, "", t);
      Machine(w, if made.Some? then Work(Refetch(g, made.value.id)) else Fail(g, g.status, "CreateGroupFailed"), Failure)
    case Work(Amend(g, id)) =>
      var (w, changed) := Change(w, id, g.spec, g.spec.friendlyName, t.outcome);
      Machine(w, if changed.Some? then Work(Refetch(g, id)) else Fail(g, g.status, "UpdateGroupFailed"), Failure)
    case Work(Refetch(_, id)) =>
      if !t.outcome.Ok? || w.store.cr.None? then Machine(w, Idle, Failure) else
        var c := w.store.cr.value;
        Machine(w, Report(c, Synced(c.status, c.generation, id, t.now, true, c.status.more), Success), Failure)
    case _ => SharedStep(m, t)
  }

  function Apply(m: GroupMachine, ev: GroupEvent): GroupMachine {
    if ev.Call? then Step(m, ev.t) else Disturb(m, ev)
  }

  /** Any number of reconciles, interleaved with anything others do, each cut short anywhere. */
  function Run(m: GroupMachine, es: seq<GroupEvent>): GroupMachine
    decreases |es|
  {
    if es == [] then m else Run(Apply(m, es[0]), es[1..])
  }

  /** One run until it ends, or until the script of what happens to it ends: then it has died. */
  function Play(m: GroupMachine, script: seq<GroupEvent>): (GroupMachine, seq<GroupEvent>)
    decreases |script|
  {
    if m.pc.Idle? then (m, script)
    else if script == [] then (Machine(m.w, Idle, Failure), [])
    else Play(Apply(m, script[0]), script[1..])
  }

  // ---------------------------------------------------------------- safety over all runs

  ghost predicate TaskKnows(w: GroupWorld, k: Task) {
    match k
    case Create(g) => Seen(w, g) && g.finalizer && g.status.id == "" && NoneNamed(w)
    case Amend(g, id) => Chosen(w, g, id)
    case Refetch(g, id) => Chosen(w, g, id)
  }

  /** What the run knows at a step, its own tasks included. */
  ghost predicate Informed(w: GroupWorld, pc: Pc<Spec, Nothing, Task>) {
    Knows(w, pc) && (pc.Work? ==> TaskKnows(w, pc.k))
  }

  /** Every payload sent carries the friendly name of its spec. */
  ghost predicate Faithful(w: GroupWorld) {
    forall c :: c in w.calls ==>
      (c.SentCreate? ==> c.body == c.spec.friendlyName) && (c.SentUpdate? ==> c.body == c.spec.friendlyName)
  }

  ghost predicate MachineInv(m: GroupMachine) {
    Inv(m.w) && Informed(m.w, m.pc) && Faithful(m.w)
  }

  lemma DecideKnows(w: GroupWorld, g: Group, found: Option<Entry<string>>)
    requires Seen(w, g) && g.finalizer
    requires if found.None? then g.status.id == "" && NoneNamed(w) else Chosen(w, g, found.value.id)
    ensures Informed(w, Decide(g, found))
  {
  }

  lemma BeginKnows(w: GroupWorld, g: Group, t: Tick)
    requires Inv(w) && Seen(w, g) && g.finalizer && !g.deleting
    ensures Informed(w, Begin(w, g, t))
  {
    if g.status.id != "" {
      var found := Lookup(w, g.status.id, t.outcome);
      if found.None? { FailedCoherent(g.status, g.generation, "GetGroupFailed"); } else { DecideKnows(w, g, found); }
    } else if List(w, t).None? {
      FailedCoherent(g.status, g.generation, "ListGroupFailed");
    } else {
      ListDecides(w, g, t);
      DecideKnows(w, g, FindByName(List(w, t).value, g.name));
    }
  }

  lemma TaskKeeps(m: GroupMachine, t: Tick)
    requires MachineInv(m) && m.pc.Work?
    ensures MachineInv(Step(m, t)) && Kept(m.w, Step(m, t).w)
  {
    match m.pc.k
    case Create(g) =>
      MakeKeeps(m.w, g, g.spec, g.spec.friendlyName, "", t);
      FailedCoherent(g.status, g.generation, "CreateGroupFailed");
    case Amend(g, id) =>
      ChangeKeeps(m.w, g, id, g.spec, g.spec.friendlyName, t.outcome);
      FailedCoherent(g.status, g.generation, "UpdateGroupFailed");
    case Refetch(g, id) =>
      ReadChosen(m.w, g, id);
      var c := m.w.store.cr.value;
      SyncedCoherent(c.status, c.generation, id, t.now, true, c.status.more);
  }

  /** The shared steps send deletes at most. */
  lemma SharedFaithful(m: GroupMachine, t: Tick)
    requires !m.pc.Start? && !m.pc.Work? && Faithful(m.w)
    ensures Faithful(SharedStep(m, t).w)
  {
  }

  lemma StepKeeps(m: GroupMachine, t: Tick)
    requires MachineInv(m)
    ensures MachineInv(Step(m, t)) && Kept(m.w, Step(m, t).w)
  {
    match m.pc
    case Start(g, _) => BeginKnows(m.w, g, t);
    case Work(_) => TaskKeeps(m, t);
    case _ => SharedKeeps(m, t); SharedFaithful(m, t);
  }

  lemma TaskStable(w: GroupWorld, e: Outside<Spec, Nothing, string, Nothing, Nothing>, k: Task)
    requires Rely(w, e) && TaskKnows(w, k)
    ensures TaskKnows(After(w, e), k)
  {
    match k
    case Create(g) => OutsideSeen(w, e, g);
    case Amend(g, id) => OutsideChosen(w, e, g, id);
    case Refetch(g, id) => OutsideChosen(w, e, g, id);
  }

  lemma DisturbKeeps(m: GroupMachine, ev: GroupEvent)
    requires MachineInv(m)
    ensures MachineInv(Disturb(m, ev)) && Kept(m.w, Disturb(m, ev).w)
  {
    if ev.Elsewhere? && Rely(m.w, ev.e) {
      OutsideKeeps(m.w, ev.e);
      OutsideKnows(m.w, ev.e, m.pc);
      if m.pc.Work? { TaskStable(m.w, ev.e, m.pc.k); }
    }
  }

  lemma {:induction false} RunKeeps(m: GroupMachine, es: seq<GroupEvent>)
    requires MachineInv(m)
    ensures MachineInv(Run(m, es)) && Kept(m.w, Run(m, es).w)
    decreases |es|
  {
    if es != [] {
      var n := Apply(m, es[0]);
      if es[0].Call? { StepKeeps(m, es[0].t); } else { DisturbKeeps(m, es[0]); }
      RunKeeps(n, es[1..]);
      KeptTransitive(m.w, n.w, Run(n, es[1..]).w);
    }
  }

  /** From a fresh start, whatever fails, crashes or happens elsewhere: never a second group of our
      name, never a create without the finalizer, never a recorded group that the stored
      resource does not still name and guard, a status whose flags agree, and no payload
      sent that differs from its spec. */
  lemma Safety(w: GroupWorld, es: seq<GroupEvent>)
    requires Initial(w)
    ensures var v := Run(Machine(w, Idle, Failure), es).w;
      && AtMostOne(v)
      && (forall c :: c in v.calls && c.SentCreate? ==> c.guarded)
      && (forall id :: id in v.live && id in v.recorded ==> OwnedBy(v, id))
      && (v.store.cr.Some? ==> Coherent(v.store.cr.value.status))
      && Faithful(v)
  {
    RunKeeps(Machine(w, Idle, Failure), es);
  }

  /** A recorded group id is never changed or cleared while its resource exists. */
  lemma WriteOnce(w: GroupWorld, before: seq<GroupEvent>, after: seq<GroupEvent>)
    requires Initial(w)
    ensures var m := Run(Machine(w, Idle, Failure), before);
      var v := Run(m, after).w;
      m.w.store.cr.Some? && v.store.cr.Some? && m.w.store.cr.value.uid == v.store.cr.value.uid
      && m.w.store.cr.value.status.id != ""
      ==> v.store.cr.value.status.id == m.w.store.cr.value.status.id
  {
    RunKeeps(Machine(w, Idle, Failure), before);
    RunKeeps(Run(Machine(w, Idle, Failure), before), after);
  }

  // ---------------------------------------------------------------- recovery and fixpoint

  /** A run of API calls only, answered by ts[i], ts[i + 1], ... */
  function Drive(m: GroupMachine, ts: seq<Tick>, i: nat): GroupMachine
    decreases |ts| - i
  {
    if i >= |ts| || m.pc.Idle? then m else Drive(Step(m, ts[i]), ts, i + 1)
  }

  function Reconcile(w: GroupWorld, ts: seq<Tick>): GroupMachine {
    Drive(Machine(w, Read, Failure), ts, 0)
  }

  /** The resource is guarded, its recorded group is what the spec asks for, and the status says so. */
  ghost predicate Settled(w: GroupWorld) {
    && w.store.cr.Some?
    && var c := w.store.cr.value;
    && c.finalizer && !c.deleting && c.name == w.setup.key
    && c.status.id != "" && c.status.id in w.live
    && w.live[c.status.id] == Remote(w.setup.key, c.spec.friendlyName)
    && c.status.ready && c.status.synced && c.status.observed == c.generation
    && Find(c.status.conditions, "Ready") == Some(Condition("Ready", true, "Synced", c.generation))
  }

  /** The success status written over the resource as it now stands. */
  function Noted(w: GroupWorld, id: Id, now: nat): GroupWorld
    requires w.store.cr.Some?
  {
    var c := w.store.cr.value;
    WriteStatus(w, c.(status := Synced(c.status, c.generation, id, now, true, c.status.more)), Ok).0
  }

  lemma RefetchDrive(m: GroupMachine, ts: seq<Tick>, i: nat)
    requires m.pc.Work? && m.pc.k.Refetch? && m.w.store.cr.Some?
    requires i + 2 <= |ts| && ts[i].outcome.Ok? && ts[i + 1].outcome.Ok?
    ensures Drive(m, ts, i) == Machine(Noted(m.w, m.pc.k.id, ts[i].now), Idle, Success)
  {
    var c := m.w.store.cr.value;
    var n := Step(m, ts[i]);
    assert n.pc == Report(c, Synced(c.status, c.generation, m.pc.k.id, ts[i].now, true, c.status.more), Success);
    assert Step(n, ts[i + 1]) == Machine(Noted(m.w, m.pc.k.id, ts[i].now), Idle, Success);
    assert Drive(Step(n, ts[i + 1]), ts, i + 2) == Step(n, ts[i + 1]);
  }

  lemma NotedSettled(w: GroupWorld, id: Id, now: nat)
    requires w.store.cr.Some? && w.store.cr.value.finalizer && !w.store.cr.value.deleting
    requires w.store.cr.value.name == w.setup.key && id != "" && id in w.live
    requires w.live[id] == Remote(w.setup.key, w.store.cr.value.spec.friendlyName)
    ensures Settled(Noted(w, id, now))
  {
    var c := w.store.cr.value;
    SetFind(c.status.conditions, Condition("Ready", true, "Synced", c.generation), "Ready");
  }

  /** What an undisturbed run makes of a lookup that succeeded. */
  lemma DecideDrive(w: GroupWorld, found: Option<Entry<string>>, ts: seq<Tick>, i: nat)
    requires i + 3 <= |ts| && FaultFree(w.live, ts) && "" !in w.live
    requires w.store.cr.Some? && w.store.cr.value.finalizer && !w.store.cr.value.deleting && w.store.cr.value.name == w.setup.key
    requires found.Some? ==> found.value.id in w.live && w.live[found.value.id] == Remote(found.value.name, found.value.body)
    ensures var n := Drive(Machine(w, Decide(w.store.cr.value, found), Failure), ts, i);
      n.pc.Idle? && n.last.Success? && Settled(n.w)
  {
    var g := w.store.cr.value;
    var m := Machine(w, Decide(g, found), Failure);
    assert Good(w.live, ts[i]) && Good(w.live, ts[i + 1]) && Good(w.live, ts[i + 2]);
    if m.pc.k.Refetch? {
      RefetchDrive(m, ts, i);
      NotedSettled(w, found.value.id, ts[i].now);
    } else {
      var n := Step(m, ts[i]);
      assert n.pc.k.Refetch? && n.w.store == w.store && n.w.setup == w.setup;
      assert n.w.live == w.live[n.pc.k.id := Remote(w.setup.key, g.spec.friendlyName)];
      RefetchDrive(n, ts, i + 1);
      NotedSettled(n.w, n.pc.k.id, ts[i + 1].now);
    }
  }

  lemma BeginDrive(w: GroupWorld, inst: Instance, ts: seq<Tick>, i: nat)
    requires i + 4 <= |ts| && FaultFree(w.live, ts) && "" !in w.live
    requires w.store.cr.Some? && w.store.cr.value.finalizer && !w.store.cr.value.deleting && w.store.cr.value.name == w.setup.key
    ensures var id := w.store.cr.value.status.id;
      var n := Drive(Machine(w, Start(w.store.cr.value, inst), Failure), ts, i);
      && n.pc.Idle? && (n.last.Success? <==> id == "" || id in w.live)
      && (n.last.Success? ==> Settled(n.w))
      && (n.last.Failure? ==> n.w.live == w.live && n.w.calls == w.calls && n.w.store.cr.Some? && !n.w.store.cr.value.status.ready)
  {
    var g := w.store.cr.value;
    var m := Machine(w, Start(g, inst), Failure);
    assert Good(w.live, ts[i]) && Good(w.live, ts[i + 1]);
    if g.status.id == "" {
      FindSound(ts[i].order, w.live, g.name);
      DecideDrive(w, FindByName(List(w, ts[i]).value, g.name), ts, i + 1);
    } else if g.status.id in w.live {
      DecideDrive(w, Lookup(w, g.status.id, Ok), ts, i + 1);
    } else {
      var n := Step(m, ts[i]);
      assert n == Machine(w, Fail(g, g.status, "GetGroupFailed"), Failure);
      assert Drive(Step(n, ts[i + 1]), ts, i + 2) == Step(n, ts[i + 1]);
    }
  }

  lemma OpeningDrive(w: GroupWorld, ts: seq<Tick>)
    requires w.store.cr.Some? && !w.store.cr.value.deleting
    requires |ts| >= 3 && FaultFree(w.live, ts)
    ensures Reconcile(w, ts) ==
      Drive(Machine(Guarded(w), Start(Guarded(w).store.cr.value, ts[1].gate.inst), Failure), ts, if w.store.cr.value.finalizer then 2 else 3)
  {
    var m := Machine(w, Read, Failure);
    assert Good(w.live, ts[0]) && Good(w.live, ts[1]) && Good(w.live, ts[2]);
    Opening(m, ts[0], ts[1], ts[2]);
    assert Drive(m, ts, 0) == Drive(Step(m, ts[0]), ts, 1) == Drive(Step(Step(m, ts[0]), ts[1]), ts, 2);
  }

  /** Recovery, exactly: an undisturbed reconcile of a resource that is not being deleted succeeds if
      and only if its recorded group, when there is one, still exists; it then leaves the group
      equal to the spec. Otherwise it sends nothing and reports that it is not ready. */
  lemma Recovery(w: GroupWorld, ts: seq<Tick>)
    requires "" !in w.live
    requires w.store.cr.Some? && !w.store.cr.value.deleting && w.store.cr.value.name == w.setup.key
    requires |ts| >= 7 && FaultFree(w.live, ts)
    ensures var n := Reconcile(w, ts);
      && n.pc.Idle?
      && (n.last.Success? <==> w.store.cr.value.status.id == "" || w.store.cr.value.status.id in w.live)
      && (n.last.Success? ==> Settled(n.w))
      && (n.last.Failure? ==> n.w.live == w.live && n.w.calls == w.calls && n.w.store.cr.Some? && !n.w.store.cr.value.status.ready)
  {
    OpeningDrive(w, ts);
    BeginDrive(Guarded(w), ts[1].gate.inst, ts, if w.store.cr.value.finalizer then 2 else 3);
  }

  /** With the group sheltered from others, every history, however many crashes and failed calls it
      holds, ends in a state from which the next undisturbed reconcile succeeds. */
  lemma RecoveryAfterAnyRun(w: GroupWorld, es: seq<GroupEvent>, ts: seq<Tick>)
    requires Initial(w) && w.setup.sheltered
    requires var v := Run(Machine(w, Idle, Failure), es).w;
      v.store.cr.Some? && !v.store.cr.value.deleting && |ts| >= 7 && FaultFree(v.live, ts)
    ensures var n := Reconcile(Run(Machine(w, Idle, Failure), es).w, ts);
      n.pc.Idle? && n.last.Success? && Settled(n.w) && AtMostOne(n.w)
  {
    RunKeeps(Machine(w, Idle, Failure), es);
    var v := Run(Machine(w, Idle, Failure), es).w;
    Recovery(v, ts);
    DriveKeeps(Machine(v, Read, Failure), ts, 0);
  }

  lemma {:induction false} DriveKeeps(m: GroupMachine, ts: seq<Tick>, i: nat)
    requires MachineInv(m)
    ensures MachineInv(Drive(m, ts, i))
    decreases |ts| - i
  {
    if i < |ts| && !m.pc.Idle? {
      StepKeeps(m, ts[i]);
      DriveKeeps(Step(m, ts[i]), ts, i + 1);
    }
  }

  /** Fixpoint: once settled, another undisturbed reconcile sends no mutating request and changes
      nothing but the time of the last sync and the resource version. */
  lemma Fixpoint(w: GroupWorld, ts: seq<Tick>)
    requires Settled(w) && |ts| >= 7 && FaultFree(w.live, ts)
    ensures var n := Reconcile(w, ts);
      var c := w.store.cr.value;
      && n.pc.Idle? && n.last.Success? && Settled(n.w)
      && n.w.calls == w.calls && n.w.live == w.live
      && n.w.store == Store(Some(c.(status := c.status.(lastSync := Some(ts[3].now)), version := w.store.clock + 1)), w.store.clock + 1)
  {
    var g := w.store.cr.value;
    OpeningDrive(w, ts);
    var m := Machine(w, Start(g, ts[1].gate.inst), Failure);
    assert Good(w.live, ts[2]) && Good(w.live, ts[3]) && Good(w.live, ts[4]);
    assert Step(m, ts[2]) == Machine(w, Work(Refetch(g, g.status.id)), Failure);
    RefetchDrive(Step(m, ts[2]), ts, 3);
    NotedSettled(w, g.status.id, ts[3].now);
    SetSame(g.status.conditions, Condition("Ready", true, "Synced", g.generation));
  }

  // ---------------------------------------------------------------- deletion

  /** Deletion, exactly: an undisturbed reconcile of a guarded resource marked for deletion lets it
      go if and only if nothing is recorded, the recorded group still exists, or the server accepts
      deletes of missing groups; the recorded group is then gone as well. */
  lemma Deletion(w: GroupWorld, ts: seq<Tick>)
    requires "" !in w.live
    requires w.store.cr.Some? && w.store.cr.value.deleting && w.store.cr.value.finalizer
    requires |ts| >= 4 && FaultFree(w.live, ts)
    ensures var n := Reconcile(w, ts);
      var id := w.store.cr.value.status.id;
      && n.pc.Idle? && n.w.live == w.live - {id}
      && (n.w.store.cr.None? <==> id == "" || id in w.live || w.setup.tolerant)
      && (n.w.store.cr.None? <==> n.last.Success?)
  {
    var g := w.store.cr.value;
    assert Good(w.live, ts[0]) && Good(w.live, ts[1]) && Good(w.live, ts[2]) && Good(w.live, ts[3]);
    var m := Machine(w, Read, Failure);
    var m2 := Step(Step(m, ts[0]), ts[1]);
    assert Drive(m, ts, 0) == Drive(Step(m, ts[0]), ts, 1) == Drive(m2, ts, 2);
    Closing(m2, ts[2]);
    var m3 := Step(m2, ts[2]);
    assert Drive(m2, ts, 2) == Drive(m3, ts, 3);
    if g.status.id == "" {
      assert w.live - {""} == w.live;
    } else {
      if m3.pc.Unfinalize? { Closing(m3, ts[3]); }
      assert Drive(Step(m3, ts[3]), ts, 4) == Step(m3, ts[3]);
    }
  }

  /** A delete that took effect but was reported as failed leaves, at a server that refuses to
      delete what is missing, a resource that no later run can ever let go. */
  lemma {:induction false} DeletionStuck(m: GroupMachine, es: seq<GroupEvent>, id: Id)
    requires StuckAt(m, id)
    ensures StuckAt(Run(m, es), id)
    decreases |es|
  {
    if es != [] {
      if es[0].Call? { StuckStep(m, es[0].t, id); } else { StuckDisturb(m, es[0], id); }
      DeletionStuck(Apply(m, es[0]), es[1..], id);
    }
  }

  // ---------------------------------------------------------------- the controller's code

  /** The controller in its own form. `w` is the cluster and the server it talks to; `script` is
      what will happen while it runs: the answers to its calls and what others do in between. */
  class Controller {
    var w: GroupWorld
    var script: seq<GroupEvent>

    constructor (w: GroupWorld, script: seq<GroupEvent>)
      ensures this.w == w && this.script == script
    {
      this.w := w;
      this.script := script;
    }

    /** Waits for the answer to the next call while others act; None if the process dies first.
        `n` is the machine after that call. */
    method Await(ghost m: GroupMachine) returns (t: Option<Tick>, ghost n: GroupMachine)
      requires m.w == w && !m.pc.Idle?
      modifies this
      ensures t.None? ==> Play(m, old(script)) == (Machine(w, Idle, Failure), script)
      ensures t.Some? ==> n == Step(m.(w := w), t.value) && Play(m, old(script)) == Play(n, script)
    {
      ghost var all := script;
      n := m;
      while script != []
        invariant n == m.(w := w)
        invariant Play(m, all) == Play(n, script)
        decreases |script|
      {
        var ev := script[0];
        script := script[1..];
        if ev.Call? { return Some(ev.t), Step(n, ev.t); }
        if ev.Crash? { return None, n; }
        if ev.Elsewhere? && Rely(w, ev.e) { w := After(w, ev.e); }
        n := m.(w := w);
      }
      return None, n;
    }

    /** updateErrorStatus */
    method UpdateErrorStatus(group: Group, reason: string, ghost m: GroupMachine) returns (v: Verdict)
      requires m.w == w && m.pc == Fail(group, group.status, reason)
      modifies this
      ensures (Machine(w, Idle, v), script) == Play(m, old(script))
    {
      var conditions := new ConditionList(group.status.conditions);
      conditions.SetError(group.generation, reason);
      var status := group.status.(ready := false, synced := false, conditions := conditions.items);
      var t, n := Await(m);
      if t.Some? {
        var written := WriteStatus(w, group.(status := status), t.value.outcome);
        w := written.0;
      }
      return Failure;
    }

    /** Reconcile */
    method Reconcile() returns (v: Verdict)
      modifies this
      ensures (Machine(w, Idle, v), script) == Play(Machine(old(w), Read, Failure), old(script))
    {
      var t, m := Await(Machine(w, Read, Failure));
      if t.None? || !t.value.outcome.Ok? { return Failure; }
      if w.store.cr.None? { return Success; }
      var group := w.store.cr.value;

      t, m := Await(m);
      if t.None? { return Failure; }
      if !t.value.outcome.Ok? { v := UpdateErrorStatus(group, "InstanceNotFound", m); return; }
      if t.value.gate.Refused? { v := UpdateErrorStatus(group, t.value.gate.reason, m); return; }

      if group.deleting { v := HandleDeletion(group, m); return; }

      if !group.finalizer {
        group := group.(finalizer := true);
        t, m := Await(m);
        if t.None? { return Failure; }
        var updated := WriteMeta(w, group, t.value.outcome);
        w := updated.0;
        if updated.1.None? { return Failure; }
        group := updated.1.value;
      }
      v := Sync(group, m);
    }

    /** The deletion branch of Reconcile */
    method HandleDeletion(group: Group, ghost m: GroupMachine) returns (v: Verdict)
      requires group.deleting && m.w == w
      requires m.pc == if !group.finalizer then Idle else if group.status.id != "" then Discard(group) else Unfinalize(group)
      requires m.last == if group.finalizer then Failure else Success
      modifies this
      ensures (Machine(w, Idle, v), script) == Play(m, old(script))
    {
      var t, n := None, m;
      if group.finalizer {
        if group.status.id != "" {
          t, n := Await(n);
          if t.None? { return Failure; }
          var dropped := Drop(w, group.status.id, t.value.outcome);
          w := dropped.0;
          if !dropped.1 { v := UpdateErrorStatus(group, w.setup.deleteFailed, n); return; }
        }
        t, n := Await(n);
        if t.None? { return Failure; }
        var updated := WriteMeta(w, group.(finalizer := false), t.value.outcome);
        w := updated.0;
        if updated.1.None? { return Failure; }
      }
      return Success;
    }

    /** The sync part of Reconcile: get by id, or find by name. */
    method Sync(group: Group, ghost m: GroupMachine) returns (v: Verdict)
      requires m.w == w && m.pc.Start? && m.pc.g == group
      modifies this
      ensures (Machine(w, Idle, v), script) == Play(m, old(script))
    {
      var t, n := Await(m);
      if t.None? { return Failure; }
      if group.status.id != "" {
        var found := Lookup(w, group.status.id, t.value.outcome);
        if found.None? { v := UpdateErrorStatus(group, "GetGroupFailed", n); return; }
        v := Converge(group, found, n);
      } else {
        var rows := List(w, t.value);
        if rows.None? { v := UpdateErrorStatus(group, "ListGroupFailed", n); return; }
        var found := FindEntry(rows.value, group.name);
        v := Converge(group, found, n);
      }
    }

    /** The sync part of Reconcile: create, update or leave alone, then record. */
    method Converge(group: Group, found: Option<Entry<string>>, ghost m: GroupMachine) returns (v: Verdict)
      requires m.w == w && m.pc == Decide(group, found)
      modifies this
      ensures (Machine(w, Idle, v), script) == Play(m, old(script))
    {
      var t, n := None, m;
      var id: Id;
      if found.None? {
        t, n := Await(n);
        if t.None? { return Failure; }
        var made := Make(w, group.spec, group.spec.friendlyName, "", t.value);
        w := made.0;
        if made.1.None? { v := UpdateErrorStatus(group, "CreateGroupFailed", n); return; }
        id := made.1.value.id;
      } else {
        id := found.value.id;
        if NeedsUpdate(found.value, group) {
          t, n := Await(n);
          if t.None? { return Failure; }
          var changed := Change(w, id, group.spec, group.spec.friendlyName, t.value.outcome);
          w := changed.0;
          if changed.1.None? { v := UpdateErrorStatus(group, "UpdateGroupFailed", n); return; }
        }
      }
      v := Record(group, id, n);
    }

    /** The end of Reconcile: re-read the resource and write the success status over it. */
    method Record(group: Group, id: Id, ghost m: GroupMachine) returns (v: Verdict)
      requires m.w == w && m.pc == Work(Refetch(group, id))
      modifies this
      ensures (Machine(w, Idle, v), script) == Play(m, old(script))
    {
      var t, n := Await(m);
      if t.None? || !t.value.outcome.Ok? || w.store.cr.None? { return Failure; }
      var fetched := w.store.cr.value;
      var conditions := new ConditionList(fetched.status.conditions);
      conditions.SetSynced(fetched.generation);
      var status := fetched.status.(id := id, ready := true, synced := true, lastSync := Some(t.value.now),
                                    observed := fetched.generation, conditions := conditions.items);
      t, n := Await(n);
      if t.None? { return Failure; }
      var written := WriteStatus(w, fetched.(status := status), t.value.outcome);
      w := written.0;
      return if written.1 then Success else Failure;
    }
  }
}
