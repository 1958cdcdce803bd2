/** What the Envoy branch costs in recovery: two states from which no run ever succeeds again until
    somebody intervenes (ensureSecurityPolicy in internal/controller/securitypolicy.go, against the
    places that set the in-memory client id and Secret name). */
module OIDCEnvoy {
  import opened Basics
  import opened Lifecycle
  import opened Invariants
  import opened OIDCClient
  import opened OIDCRecovery

  /** The client exists at the server but its id was never recorded: it will be adopted by name, and
      adoption does not tell the policy step the id. */
  ghost predicate IdBlocked(w: ClientWorld) {
    w.store.cr.Some? && w.store.cr.value.status.id == "" && !NoneNamed(w)
  }

  /** The Secret is not this run's to fill, but its name was never recorded: it is left alone, and
      the policy step is not told the name. */
  ghost predicate SecretBlocked(w: ClientWorld) {
    w.store.cr.Some? && var c := w.store.cr.value;
    c.status.more.secretName == "" && (WantsSecret(c.spec) ==> Filled(w.own, c.spec.secretRef.value))
  }

  /** `byId` tells the two kinds of block apart. */
  ghost predicate Blocked(w: ClientWorld, byId: bool) {
    && w.store.cr.Some? && w.store.cr.value.finalizer && !w.store.cr.value.deleting && EnvoyOn(w.store.cr.value.spec)
    && if byId then IdBlocked(w) else SecretBlocked(w)
  }

  /** The run works from the stored spec, and what it knows does not lift the block. */
  ghost predicate Stale(w: ClientWorld, g: Client, s: SyncStatus<More>, byId: bool)
    requires w.store.cr.Some?
  {
    g.finalizer && !g.deleting && g.spec == w.store.cr.value.spec
    && if byId then s.id == "" else s.more.secretName == ""
  }

  ghost predicate BlockedTask(w: ClientWorld, k: Task, byId: bool)
    requires w.store.cr.Some?
  {
    match k
    case Admit(g, _, _, _) => Stale(w, g, g.status, byId)
    case Locate(g, _, _) => Stale(w, g, g.status, byId)
    case Create(g, _, _) => Stale(w, g, g.status, byId) && !byId
    case Amend(g, _, _, _) => Stale(w, g, g.status, byId)
    case ReadSecret(h) => Stale(w, h.g, h.mem, byId) && WantsSecret(h.g.spec)
    case Generate(h, _) => Stale(w, h.g, h.mem, byId) && byId
    case WriteSecret(h, _, _) => Stale(w, h.g, h.mem, byId) && byId
    case _ => false
  }

  ghost predicate BlockedPc(w: ClientWorld, pc: ClientPc, byId: bool)
    requires w.store.cr.Some?
  {
    match pc
    case Idle => true
    case Read => true
    case Gate(g) => Stale(w, g, g.status, byId)
    case Start(g, _) => Stale(w, g, g.status, byId)
    case Work(k) => BlockedTask(w, k, byId)
    case Report(g, s, verdict) => Stale(w, g, s, byId) && verdict.Failure? && !s.ready
    case _ => false
  }

  ghost predicate BlockedAt(m: ClientMachine, byId: bool) {
    MachineInv(m) && Blocked(m.w, byId) && BlockedPc(m.w, m.pc, byId)
  }

  /** No step of a blocked machine, whatever its outcome, reports success. */
  ghost predicate StillBlocked(n: ClientMachine, byId: bool) {
    n.w.store.cr.Some? && Blocked(n.w, byId) && BlockedPc(n.w, n.pc, byId) && n.last.Failure?
  }

  lemma SecretPc(w: ClientWorld, h: Hold, byId: bool)
    requires w.store.cr.Some? && EnvoyOn(h.g.spec) && Stale(w, h.g, h.mem, byId)
    ensures BlockedPc(w, ToPolicy(h), byId) && BlockedPc(w, ToSecret(h), byId)
  {
  }

  lemma DecideBlocked(w: ClientWorld, g: Client, inst: Instance, members: seq<GroupRefs.Member>, found: Option<Entry<Body>>, byId: bool)
    requires Blocked(w, byId) && Stale(w, g, g.status, byId) && (byId ==> found.Some?)
    ensures BlockedPc(w, Decide(g, inst, members, found), byId)
  {
    if found.Some? { SecretPc(w, Hold(g, inst, found.value.id, g.status), byId); }
  }

  lemma LocateBlocked(w: ClientWorld, g: Client, inst: Instance, members: seq<GroupRefs.Member>, t: Tick, byId: bool)
    requires Blocked(w, byId) && Stale(w, g, g.status, byId) && g.name == w.setup.key
    ensures StillBlocked(LocateStep(w, g, inst, members, t), byId)
  {
    if g.status.id == "" && List(w, t).Some? {
      FindSound(t.order, w.live, g.name);
    }
    var found := Located(w, g, t);
    if found.Some? { DecideBlocked(w, g, inst, members, found.value, byId); }
  }

  lemma SyncBlocked(w: ClientWorld, k: Task, t: Tick, byId: bool)
    requires BlockedAt(Machine(w, Work(k), Failure), byId) && AboutClient(k)
    ensures StillBlocked(SyncStep(w, k, t), byId)
  {
    var n := SyncStep(w, k, t);
    match k
    case Locate(g, inst, members) => LocateBlocked(w, g, inst, members, t, byId);
    case Create(g, inst, members) =>
      var made := Make(w, g.spec, Target(g.spec, members), g.spec.wantedId, t).1;
      if made.Some? { SecretPc(n.w, Hold(g, inst, made.value.id, g.status.(id := made.value.id)), byId); }
    case Amend(g, inst, id, members) =>
      if byId { var j :| j in w.live && w.live[j].name == w.setup.key; assert n.w.live[j].name == w.setup.key; }
      SecretPc(n.w, Hold(g, inst, id, g.status), byId);
  }

  lemma SecretBlockedStep(w: ClientWorld, k: Task, t: Tick, byId: bool)
    requires BlockedAt(Machine(w, Work(k), Failure), byId) && AboutSecret(k)
    ensures StillBlocked(SecretStep(w, k, t), byId)
  {
    var n := SecretStep(w, k, t);
    assert n.w.live == w.live && n.w.store == w.store && n.w.setup == w.setup;
    if k.ReadSecret? {
      SecretPc(n.w, k.h, byId);
    } else if k.WriteSecret? {
      SecretPc(n.w, k.h.(mem := k.h.mem.(more := k.h.mem.more.(secretName := SecretOf(k.h.g.spec)))), byId);
    }
  }

  lemma SharedBlocked(m: ClientMachine, t: Tick, byId: bool)
    requires BlockedAt(m, byId) && !m.pc.Start? && !m.pc.Work? && !m.pc.Idle?
    ensures StillBlocked(SharedStep(m, t), byId)
  {
  }

  lemma TaskBlocked(w: ClientWorld, k: Task, t: Tick, byId: bool)
    requires BlockedAt(Machine(w, Work(k), Failure), byId)
    ensures StillBlocked(TaskStep(w, k, t), byId)
  {
    if AboutClient(k) { SyncBlocked(w, k, t, byId); }
    else if AboutSecret(k) { SecretBlockedStep(w, k, t, byId); }
  }

  lemma FirstBlocked(w: ClientWorld, g: Client, inst: Instance, t: Tick, byId: bool)
    requires BlockedAt(Machine(w, Start(g, inst), Failure), byId)
    ensures StillBlocked(FirstStep(w, g, inst, t), byId)
  {
    if g.spec.groupRefs == [] { LocateBlocked(w, g, inst, [], t, byId); }
  }

  lemma StepBlocked(m: ClientMachine, t: Tick, byId: bool)
    requires BlockedAt(m, byId) && !m.pc.Idle?
    ensures BlockedAt(Step(m, t), byId) && Step(m, t).last.Failure?
  {
    StepKeeps(m, t);
    match m.pc
    case Start(g, inst) => FirstBlocked(m.w, g, inst, t, byId);
    case Work(k) => TaskBlocked(m.w, k, t, byId);
    case _ => SharedBlocked(m, t, byId);
  }

  /** What others may do without lifting a block: anything at the server and in the cluster, as long as
      the resource keeps its spec and is not deleted, and, for a block by id, the client is left alone. */
  ghost predicate Unhelpful(ev: ClientEvent, spec: Spec, sheltered: bool, byId: bool) {
    ev.Elsewhere? ==>
      && (byId ==> sheltered)
      && ev.e.store.cr.Some? && ev.e.store.cr.value.spec == spec && !ev.e.store.cr.value.deleting
  }

  lemma DisturbBlocked(m: ClientMachine, ev: ClientEvent, byId: bool)
    requires BlockedAt(m, byId) && !ev.Call? && Unhelpful(ev, m.w.store.cr.value.spec, m.w.setup.sheltered, byId)
    ensures BlockedAt(Disturb(m, ev), byId)
    ensures var n := Disturb(m, ev); n.w.store.cr.value.spec == m.w.store.cr.value.spec && n.w.setup == m.w.setup
  {
    DisturbKeeps(m, ev);
    if ev.Elsewhere? && Rely(m.w, ev.e) && byId {
      var j :| j in m.w.live && m.w.live[j].name == m.w.setup.key;
      assert j in ev.e.live && ev.e.live[j].name == m.w.setup.key;
    }
  }

  /** Once blocked, always blocked: until somebody edits the spec, deletes the resource or, for a block by
      id, takes the client away, no number of reconciles, with whatever outcomes and crashes, ever
      succeeds. */
  lemma {:induction false} NeverUnblocked(m: ClientMachine, es: seq<ClientEvent>, byId: bool)
    requires BlockedAt(m, byId) && m.last.Failure?
    requires forall i :: 0 <= i < |es| ==> Unhelpful(es[i], m.w.store.cr.value.spec, m.w.setup.sheltered, byId)
    ensures BlockedAt(Run(m, es), byId) && Run(m, es).last.Failure?
    decreases |es|
  {
    if es != [] {
      var n := Apply(m, es[0]);
      if !es[0].Call? { DisturbBlocked(m, es[0], byId); }
      else if !m.pc.Idle? {
        StepBlocked(m, es[0].t, byId);
        StepSpec(m, es[0].t);
        StepKeeps(m, es[0].t);
      }
      NeverUnblocked(n, es[1..], byId);
    }
  }

  /** And such a state is one crash away: a client whose create took effect but whose run dies before
      it can report is blocked by its id. */
  lemma CrashBlocks(m: ClientMachine, t: Tick)
    requires MachineInv(m) && m.pc.Work? && m.pc.k.Create?
    requires !t.outcome.Lost? && Obtainable(m.w, m.pc.k.g, None) && t.minted != "" && t.minted !in m.w.live
    requires m.w.store.cr.Some? && !m.w.store.cr.value.deleting && EnvoyOn(m.w.store.cr.value.spec)
    ensures BlockedAt(Apply(Step(m, t), Crash), true)
  {
    var n := Step(m, t);
    StepKeeps(m, t);
    var id := if m.pc.k.g.spec.wantedId != "" then m.pc.k.g.spec.wantedId else t.minted;
    assert id in n.w.live && n.w.live[id].name == n.w.setup.key;
  }

  /** The other block is as close: a Secret whose write took effect in a run that dies before it can
      report. */
  lemma SecretCrashBlocks(m: ClientMachine, t: Tick)
    requires MachineInv(m) && m.pc.Work? && m.pc.k.WriteSecret?
    requires !t.outcome.Lost? && (SecretOf(m.pc.k.h.g.spec) in m.w.own.secrets) == m.pc.k.present
    requires m.w.store.cr.Some? && !m.w.store.cr.value.deleting && m.w.store.cr.value.spec == m.pc.k.h.g.spec
    requires EnvoyOn(m.pc.k.h.g.spec) && WantsSecret(m.pc.k.h.g.spec) && m.w.store.cr.value.status.more.secretName == ""
    ensures BlockedAt(Apply(Step(m, t), Crash), false)
  {
    StepKeeps(m, t);
  }
}
