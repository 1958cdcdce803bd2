/** What one run of the OIDC client controller carries from step to step, whatever others do in between
    (internal/controller/pocketidoidcclient_controller.go): the groups it has listed, and the id of a
    client it has made. */
module OIDCPassage {
  import opened Basics
  import opened Kube
  import opened Lifecycle
  import opened GroupRefs
  import opened OIDCClient

  /** Events within one run: its own calls, and what others do. A run that has ended stays ended. */
  ghost predicate OneRun(es: seq<ClientEvent>) {
    forall i :: 0 <= i < |es| ==> es[i].Call? || es[i].Elsewhere?
  }

  // ---------------------------------------------------------------- the groups of a payload

  /** Member i is the listed group that reference i names, synced, of this very instance. */
  ghost predicate AsListed(refs: seq<string>, inst: InstanceKey, listed: map<string, GroupInfo>, members: seq<Member>) {
    && |members| <= |refs|
    && forall i :: 0 <= i < |members| ==>
         && refs[i] in listed
         && var group := listed[refs[i]];
         group.instance == inst && group.id != "" && members[i] == Member(group.id, group.name, group.friendlyName)
  }

  ghost predicate AllListed(g: Client, inst: Instance, listed: map<string, GroupInfo>, members: seq<Member>) {
    |members| == |g.spec.groupRefs| && AsListed(g.spec.groupRefs, InstanceKey(inst.namespace, inst.name), listed, members)
  }

  ghost predicate Resolving(pc: ClientPc, g: Client, inst: Instance, listed: map<string, GroupInfo>) {
    match pc
    case Idle => true
    case Report(_, _, _) => true
    case Work(Admit(g1, inst1, groups, members)) =>
      g1 == g && inst1 == inst && groups == listed && AsListed(g.spec.groupRefs, Key(inst), listed, members)
    case Work(Locate(g1, _, members)) => g1 == g && AllListed(g, inst, listed, members)
    case Work(Create(g1, _, members)) => g1 == g && AllListed(g, inst, listed, members)
    case Work(Amend(g1, _, _, members)) => g1 == g && AllListed(g, inst, listed, members)
    case Work(_) => true
    case _ => false
  }

  lemma StepResolving(m: ClientMachine, t: Tick, g: Client, inst: Instance, listed: map<string, GroupInfo>)
    requires Resolving(m.pc, g, inst, listed)
    ensures Resolving(Step(m, t).pc, g, inst, listed)
  {
    if m.pc.Work? && m.pc.k.Admit? { AdmitResolving(m.w, m.pc.k, t, g, inst, listed); }
    if m.pc.Work? && m.pc.k.Locate? { LocateResolving(m.w, m.pc.k.g, m.pc.k.inst, m.pc.k.members, t, inst, listed); }
  }

  lemma LocateResolving(w: ClientWorld, g: Client, inst: Instance, members: seq<Member>, t: Tick, home: Instance, listed: map<string, GroupInfo>)
    requires AllListed(g, home, listed, members)
    ensures Resolving(LocateStep(w, g, inst, members, t).pc, g, home, listed)
  {
  }

  lemma AdmitResolving(w: ClientWorld, k: Task, t: Tick, g: Client, inst: Instance, listed: map<string, GroupInfo>)
    requires k.Admit? && Resolving(Work(k), g, inst, listed)
    ensures Resolving(AdmitStep(w, k, t), g, inst, listed)
  {
  }

  lemma {:induction false} RunResolving(m: ClientMachine, es: seq<ClientEvent>, g: Client, inst: Instance, listed: map<string, GroupInfo>)
    requires Resolving(m.pc, g, inst, listed) && OneRun(es)
    ensures Resolving(Run(m, es).pc, g, inst, listed)
    decreases |es|
  {
    if es != [] {
      if es[0].Call? { StepResolving(m, es[0].t, g, inst, listed); }
      RunResolving(Apply(m, es[0]), es[1..], g, inst, listed);
    }
  }

  /** Fail closed, to the last field: in every create or update that a run sends, however the cluster
      changes meanwhile, the groups are those the references name, one for each and in order, as the
      run's own list showed them, and all of the client's own instance. */
  lemma SentAsListed(m: ClientMachine, first: Tick, es: seq<ClientEvent>, t: Tick)
    requires m.pc.Start? && OneRun(es)
    ensures var n := Run(Step(m, first), es);
      forall c :: Step(n, t).w.calls == n.w.calls + [c] && (c.SentCreate? || c.SentUpdate?) ==>
        c.spec == m.pc.g.spec && AllListed(m.pc.g, m.pc.inst, m.w.outer.groups, c.body.groups)
  {
    var g, inst, listed := m.pc.g, m.pc.inst, m.w.outer.groups;
    FirstResolving(m, first);
    RunResolving(Step(m, first), es, g, inst, listed);
    SendsMembers(Run(Step(m, first), es), t, g, inst, listed);
  }

  lemma FirstResolving(m: ClientMachine, first: Tick)
    requires m.pc.Start?
    ensures Resolving(Step(m, first).pc, m.pc.g, m.pc.inst, m.w.outer.groups)
  {
    if m.pc.g.spec.groupRefs == [] { LocateResolving(m.w, m.pc.g, m.pc.inst, [], first, m.pc.inst, m.w.outer.groups); }
  }

  lemma SendsMembers(n: ClientMachine, t: Tick, g: Client, inst: Instance, listed: map<string, GroupInfo>)
    requires Resolving(n.pc, g, inst, listed)
    ensures forall c :: Step(n, t).w.calls == n.w.calls + [c] && (c.SentCreate? || c.SentUpdate?) ==>
      c.spec == g.spec && AllListed(g, inst, listed, c.body.groups)
  {
    forall c | Step(n, t).w.calls == n.w.calls + [c] && (c.SentCreate? || c.SentUpdate?)
      ensures c.spec == g.spec && AllListed(g, inst, listed, c.body.groups)
    {
      assert c == Step(n, t).w.calls[|n.w.calls|];
    }
  }

  // ---------------------------------------------------------------- the id of a new client

  /** A run that has made the client `id`: every status it may still write carries that id. */
  ghost predicate Carries(pc: ClientPc, id: Id) {
    match pc
    case Idle => true
    case Work(k) => !k.Admit? && !AboutClient(k) && k.h.id == id && k.h.mem.id == id
    case Report(_, s, verdict) => s.id == id && (verdict.Failure? ==> !s.ready)
    case _ => false
  }

  lemma StepCarries(m: ClientMachine, t: Tick, id: Id)
    requires Carries(m.pc, id)
    ensures Carries(Step(m, t).pc, id)
  {
  }

  lemma {:induction false} RunCarries(m: ClientMachine, es: seq<ClientEvent>, id: Id)
    requires Carries(m.pc, id) && OneRun(es)
    ensures Carries(Run(m, es).pc, id)
    decreases |es|
  {
    if es != [] {
      if es[0].Call? { StepCarries(m, es[0].t, id); }
      RunCarries(Apply(m, es[0]), es[1..], id);
    }
  }

  /** The id of a client just made reaches the cluster with whatever status the same run comes to write,
      be it success or the failure of any later step, and whatever others do in between: if that write
      takes effect, reported so or not, the id is recorded. */
  lemma CreatedRecords(m: ClientMachine, t: Tick, es: seq<ClientEvent>, r: Tick)
    requires m.pc.Work? && m.pc.k.Create? && OneRun(es)
    requires Make(m.w, m.pc.k.g.spec, Target(m.pc.k.g.spec, m.pc.k.members), m.pc.k.g.spec.wantedId, t).1.Some?
    ensures var made := Make(m.w, m.pc.k.g.spec, Target(m.pc.k.g.spec, m.pc.k.members), m.pc.k.g.spec.wantedId, t).1;
      var n := Run(Step(m, t), es);
      n.pc.Report? && Accepts(n.w.store, n.pc.g.(status := n.pc.s), r.outcome) ==>
        var v := Step(n, r).w;
        && v.store.cr.Some? && v.store.cr.value.status.id == made.value.id
        && (n.pc.verdict.Failure? ==> !v.store.cr.value.status.ready)
  {
    var k := m.pc.k;
    var made := Make(m.w, k.g.spec, Target(k.g.spec, k.members), k.g.spec.wantedId, t).1;
    RunCarries(Step(m, t), es, made.value.id);
  }
}
