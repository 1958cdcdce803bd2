/** A security policy that outlives its record (ensureSecurityPolicy in
    internal/controller/securitypolicy.go): with Envoy off only a policy whose name the status holds is
    looked for, and the name goes even if the look fails. */
module OIDCPolicies {
  import opened Basics
  import opened Lifecycle
  import opened Invariants
  import opened OIDCClient
  import opened OIDCRecovery

  /** Exactly when an undisturbed reconcile with Envoy off leaves no policy. */
  lemma PolicyAfter(w: ClientWorld, inst: Instance, ts: seq<Tick>)
    requires "" !in w.live
    requires w.store.cr.Some? && !w.store.cr.value.deleting && w.store.cr.value.name == w.setup.key
    requires |ts| >= |w.store.cr.value.spec.groupRefs| + 14 && FaultFree(w.live, ts) && ts[1].gate == Granted(inst)
    requires Recoverable(w, inst) && !EnvoyOn(w.store.cr.value.spec)
    ensures var n := Reconcile(w, ts);
      && n.last.Success? && Settled(n.w, inst)
      && (n.w.own.policy.None? <==> w.own.policy.None? || w.store.cr.value.status.more.policyName != "")
  {
    Recovery(w, inst, ts);
  }

  // ---------------------------------------------------------------- two ways to lose the record

  /** A policy that is there but could not be read: the run forgets its name and goes on to report success. */
  lemma FailedReadForgets(w: ClientWorld, h: Hold, t: Tick)
    requires !t.outcome.Ok? && w.own.policy.Some?
    ensures Step(Machine(w, Work(ReadOldPolicy(h)), Failure), t) == Machine(w, Unpoliced(h), Failure)
  {
  }

  /** A policy that was written in a run that died before it could report is on no record. */
  lemma CrashForgets(m: ClientMachine, t: Tick)
    requires m.pc.Work? && m.pc.k.PutPolicy? && !t.outcome.Lost?
    ensures var n := Apply(Step(m, t), Crash);
      n.pc.Idle? && n.w.own.policy == Some(m.pc.k.desired) && n.w.store == m.w.store
  {
  }

  // ---------------------------------------------------------------- a lost policy stays

  /** The resource is kept with Envoy off, and has a policy that is not on record. */
  ghost predicate Leaked(w: ClientWorld) {
    && w.own.policy.Some? && w.store.cr.Some?
    && var c := w.store.cr.value;
    c.finalizer && !c.deleting && !EnvoyOn(c.spec) && c.status.more.policyName == ""
  }

  predicate Unaware(g: Client) {
    g.finalizer && !g.deleting && !EnvoyOn(g.spec) && g.status.more.policyName == ""
  }

  predicate UnawareTask(k: Task) {
    match k
    case Admit(g, _, _, _) => Unaware(g)
    case Locate(g, _, _) => Unaware(g)
    case Create(g, _, _) => Unaware(g)
    case Amend(g, _, _, _) => Unaware(g)
    case _ => (AboutSecret(k) || k.Refetch?) && !EnvoyOn(k.h.g.spec) && k.h.mem.more.policyName == ""
  }

  predicate UnawarePc(pc: ClientPc) {
    match pc
    case Idle => true
    case Read => true
    case Gate(g) => Unaware(g)
    case Start(g, _) => Unaware(g)
    case Work(k) => UnawareTask(k)
    case Report(_, s, _) => s.more.policyName == ""
    case _ => false
  }

  ghost predicate LeakedAt(m: ClientMachine) {
    Leaked(m.w) && UnawarePc(m.pc)
  }

  lemma HoldUnaware(h: Hold)
    requires !EnvoyOn(h.g.spec) && h.mem.more.policyName == ""
    ensures UnawarePc(ToPolicy(h)) && UnawarePc(ToSecret(h))
  {
  }

  lemma LocateUnaware(w: ClientWorld, g: Client, inst: Instance, members: seq<GroupRefs.Member>, t: Tick)
    requires Unaware(g)
    ensures UnawarePc(LocateStep(w, g, inst, members, t).pc)
  {
    var found := Located(w, g, t);
    if found.Some? && found.value.Some? { HoldUnaware(Hold(g, inst, found.value.value.id, g.status)); }
  }

  lemma CreateLeaked(w: ClientWorld, k: Task, t: Tick)
    requires k.Create? && Leaked(w) && UnawareTask(k)
    ensures LeakedAt(SyncStep(w, k, t))
  {
    var made := Make(w, k.g.spec, Target(k.g.spec, k.members), k.g.spec.wantedId, t).1;
    if made.Some? { HoldUnaware(Hold(k.g, k.inst, made.value.id, k.g.status.(id := made.value.id))); }
  }

  lemma TaskLeaked(w: ClientWorld, k: Task, t: Tick)
    requires Leaked(w) && UnawareTask(k)
    ensures LeakedAt(TaskStep(w, k, t))
  {
    if k.Locate? {
      LocateUnaware(w, k.g, k.inst, k.members, t);
    } else if k.Create? {
      CreateLeaked(w, k, t);
    } else if k.Amend? {
      HoldUnaware(Hold(k.g, k.inst, k.id, k.g.status));
    }
  }

  lemma StepLeaked(m: ClientMachine, t: Tick)
    requires LeakedAt(m)
    ensures LeakedAt(Step(m, t))
  {
    match m.pc
    case Start(g, inst) => if g.spec.groupRefs == [] { LocateUnaware(m.w, g, inst, [], t); }
    case Work(k) => TaskLeaked(m.w, k, t);
    case _ =>
  }

  /** Others may edit the resource, as long as they neither delete it nor turn Envoy on. */
  ghost predicate KeepsOff(ev: ClientEvent) {
    ev.Elsewhere? && ev.e.store.cr.Some? ==> !ev.e.store.cr.value.deleting && !EnvoyOn(ev.e.store.cr.value.spec)
  }

  /** While the resource is kept with Envoy off, no number of runs, successful or not, removes a policy
      that is not on record. */
  lemma {:induction false} LeakStays(m: ClientMachine, es: seq<ClientEvent>)
    requires LeakedAt(m)
    requires forall i :: 0 <= i < |es| ==> KeepsOff(es[i])
    ensures LeakedAt(Run(m, es))
    decreases |es|
  {
    if es != [] {
      if es[0].Call? { StepLeaked(m, es[0].t); }
      LeakStays(Apply(m, es[0]), es[1..]);
    }
  }
}
