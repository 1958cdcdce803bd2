/** The one-time client secret: what the Kubernetes Secret holds is what the server accepts
    (ensureCredentialsSecret in internal/controller/pocketidoidcclient_controller.go). */
module OIDCCredentials {
  import opened Basics
  import opened Lifecycle
  import opened Invariants
  import opened OIDCClient

  /** The Secret's values belong to one live client of our name, and its secret is the current one. */
  ghost predicate Genuine(w: ClientWorld, name: string)
    requires Filled(w.own, name)
  {
    var d := w.own.secrets[name];
    && d.clientId.Some? && d.alias == d.secret
    && d.clientId.value in w.live && w.live[d.clientId.value].name == w.setup.key
    && d.clientId.value in w.own.current && w.own.current[d.clientId.value] == d.secret.value
  }

  /** As far as the server still has a secret for the client that the Secret names, it is this one. */
  ghost predicate Loyal(own: Own, name: string)
    requires Filled(own, name)
  {
    var d := own.secrets[name];
    d.clientId.Some? && d.alias == d.secret && (d.clientId.value in own.current ==> own.current[d.clientId.value] == d.secret.value)
  }

  /** Whenever the Secret holds a client secret, it is loyal; and, where it may be trusted, it is
      genuine while the resource exists, is not being deleted, and nobody else takes its client away. */
  ghost predicate Truthful(w: ClientWorld, name: string, trusted: bool) {
    && (Filled(w.own, name) ==> Loyal(w.own, name))
    && (trusted && w.setup.sheltered && w.store.cr.Some? && !w.store.cr.value.deleting && Filled(w.own, name) ==> Genuine(w, name))
  }

  // ---------------------------------------------------------------- one fixed Secret

  predicate Refers(spec: Spec, name: string) {
    spec.secretRef.None? || spec.secretRef.value == name
  }

  ghost predicate TaskRefers(k: Task, name: string) {
    match k
    case Admit(g, _, _, _) => Refers(g.spec, name)
    case Locate(g, _, _) => Refers(g.spec, name)
    case Create(g, _, _) => Refers(g.spec, name)
    case Amend(g, _, _, _) => Refers(g.spec, name)
    case _ => Refers(k.h.g.spec, name) && (AboutSecret(k) ==> k.h.g.spec.secretRef.Some?)
  }

  ghost predicate PcRefers(pc: ClientPc, name: string) {
    match pc
    case Idle => true
    case Read => true
    case Work(k) => TaskRefers(k, name)
    case _ => Refers(pc.g.spec, name)
  }

  /** Others never point the resource at another Secret. */
  ghost predicate Steady(ev: ClientEvent, name: string) {
    ev.Elsewhere? && ev.e.store.cr.Some? ==> Refers(ev.e.store.cr.value.spec, name)
  }

  ghost predicate AllSteady(es: seq<ClientEvent>, name: string) {
    forall i :: 0 <= i < |es| ==> Steady(es[i], name)
  }

  /** From the moment the Secret is found empty until it is written, it stays empty, and the
      generated secret stays the current one. */
  ghost predicate Pending(w: ClientWorld, pc: ClientPc, name: string) {
    && (pc.Work? && (pc.k.Generate? || pc.k.WriteSecret?) ==> !Filled(w.own, name))
    && (pc.Work? && pc.k.WriteSecret? ==> pc.k.h.id in w.own.current && w.own.current[pc.k.h.id] == pc.k.value)
  }

  ghost predicate CredentialInv(m: ClientMachine, name: string, trusted: bool) {
    && MachineInv(m)
    && !Filled(m.w.setup.clean, name)
    && (m.w.store.cr.Some? ==> Refers(m.w.store.cr.value.spec, name))
    && PcRefers(m.pc, name)
    && Pending(m.w, m.pc, name)
    && Truthful(m.w, name, trusted)
  }

  /** A step that still refers to the one Secret and is not about to write it. */
  ghost predicate Calm(pc: ClientPc, name: string) {
    PcRefers(pc, name) && !(pc.Work? && (pc.k.Generate? || pc.k.WriteSecret?))
  }

  lemma LocateCalm(w: ClientWorld, g: Client, inst: Instance, members: seq<GroupRefs.Member>, t: Tick, name: string)
    requires Refers(g.spec, name)
    ensures Calm(LocateStep(w, g, inst, members, t).pc, name) && LocateStep(w, g, inst, members, t).w == w
  {
  }

  lemma FirstCalm(w: ClientWorld, g: Client, inst: Instance, t: Tick, name: string)
    requires Refers(g.spec, name)
    ensures Calm(FirstStep(w, g, inst, t).pc, name) && FirstStep(w, g, inst, t).w == w
  {
    if g.spec.groupRefs == [] { LocateCalm(w, g, inst, [], t, name); }
  }

  lemma SyncCalm(w: ClientWorld, k: Task, t: Tick, name: string)
    requires AboutClient(k) && TaskRefers(k, name)
    ensures Calm(SyncStep(w, k, t).pc, name)
  {
    if k.Locate? { LocateCalm(w, k.g, k.inst, k.members, t, name); }
  }

  lemma PolicyCalm(w: ClientWorld, k: Task, t: Tick, name: string)
    requires TaskRefers(k, name)
    requires k.ReadOldPolicy? || k.DropPolicy? || k.ReadRoute? || k.ReadPolicy? || k.PutPolicy?
    ensures Calm(PolicyStep(w, k, t).pc, name)
  {
  }

  /** Making or changing the client leaves what the Secret says true. */
  lemma SyncTruth(w: ClientWorld, k: Task, t: Tick, name: string, trusted: bool)
    requires AboutClient(k) && Truthful(w, name, trusted)
    ensures var v := SyncStep(w, k, t).w; v.store == w.store && v.setup == w.setup && Truthful(v, name, trusted)
  {
  }

  lemma SecretTruth(w: ClientWorld, k: Task, t: Tick, name: string, trusted: bool)
    requires AboutSecret(k) && TaskRefers(k, name) && Anchored(w, k.h.id)
    requires Truthful(w, name, trusted) && Pending(w, Work(k), name)
    ensures var n := SecretStep(w, k, t);
      n.w.store == w.store && n.w.setup == w.setup && PcRefers(n.pc, name) && Pending(n.w, n.pc, name) && Truthful(n.w, name, trusted)
  {
  }

  lemma AsideTruth(w: ClientWorld, k: Task, t: Tick, name: string, trusted: bool)
    requires !AboutClient(k) && !AboutSecret(k) && TaskRefers(k, name) && Truthful(w, name, trusted)
    requires w.store.cr.Some? ==> Refers(w.store.cr.value.spec, name)
    ensures var n := TaskStep(w, k, t);
      n.w.store == w.store && n.w.setup == w.setup && PcRefers(n.pc, name) && Pending(n.w, n.pc, name) && Truthful(n.w, name, trusted)
  {
    if k.Admit? { assert TaskStep(w, k, t).w == w; }
    else if k.Refetch? { assert TaskStep(w, k, t).w == w; }
    else { PolicyCalm(w, k, t, name); }
  }

  lemma TaskTruth(w: ClientWorld, k: Task, t: Tick, name: string, trusted: bool)
    requires CredentialInv(Machine(w, Work(k), Failure), name, trusted)
    ensures var n := TaskStep(w, k, t);
      n.w.store == w.store && n.w.setup == w.setup && PcRefers(n.pc, name) && Pending(n.w, n.pc, name) && Truthful(n.w, name, trusted)
  {
    if AboutClient(k) { SyncCalm(w, k, t, name); SyncTruth(w, k, t, name, trusted); }
    else if AboutSecret(k) { SecretTruth(w, k, t, name, trusted); }
    else { AsideTruth(w, k, t, name, trusted); }
  }

  lemma SharedTruth(m: ClientMachine, t: Tick, name: string, trusted: bool)
    requires CredentialInv(m, name, trusted) && !m.pc.Work? && !m.pc.Start?
    ensures var n := SharedStep(m, t);
      && (n.w.store.cr.Some? ==> Refers(n.w.store.cr.value.spec, name))
      && PcRefers(n.pc, name) && Truthful(n.w, name, trusted) && !n.pc.Work?
  {
    match m.pc
    case Finalize(_, _) =>
    case Report(_, _, _) =>
    case _ =>
  }

  lemma StepTruth(m: ClientMachine, t: Tick, name: string, trusted: bool)
    requires CredentialInv(m, name, trusted)
    ensures CredentialInv(Step(m, t), name, trusted) && Step(m, t).w.setup == m.w.setup
  {
    StepKeeps(m, t);
    match m.pc
    case Start(g, inst) => FirstCalm(m.w, g, inst, t, name);
    case Work(k) => TaskTruth(m.w, k, t, name, trusted);
    case _ => SharedTruth(m, t, name, trusted);
  }

  lemma DisturbTruth(m: ClientMachine, ev: ClientEvent, name: string, trusted: bool)
    requires CredentialInv(m, name, trusted) && Steady(ev, name) && (trusted ==> m.w.setup.tidy)
    ensures CredentialInv(Disturb(m, ev), name, trusted) && Disturb(m, ev).w.setup == m.w.setup
  {
    DisturbKeeps(m, ev);
  }

  lemma {:induction false} RunTruth(m: ClientMachine, es: seq<ClientEvent>, name: string, trusted: bool)
    requires CredentialInv(m, name, trusted) && (trusted ==> m.w.setup.tidy)
    requires AllSteady(es, name)
    ensures CredentialInv(Run(m, es), name, trusted) && Run(m, es).w.setup == m.w.setup
    decreases |es|
  {
    if es != [] {
      if es[0].Call? { StepTruth(m, es[0].t, name, trusted); } else { DisturbTruth(m, es[0], name, trusted); }
      RunTruth(Apply(m, es[0]), es[1..], name, trusted);
    }
  }

  lemma CredentialStart(w: ClientWorld, es: seq<ClientEvent>, name: string)
    requires Initial(w) && !Filled(w.setup.clean, name)
    requires AllSteady(es, name)
    ensures var n := Run(Machine(w, Idle, Failure), es);
      CredentialInv(n, name, w.setup.tidy) && n.w.setup == w.setup
  {
    var m := Machine(w, Idle, Failure);
    assert CredentialInv(m, name, w.setup.tidy);
    RunTruth(m, es, name, w.setup.tidy);
  }

  /** Credential coherence over every run: with one fixed Secret that nobody else writes and that
      holds no client secret at first, whatever calls fail, before or after taking effect, and
      wherever the process dies, a client secret found in the Secret is the last one generated for the
      client id beside it; and, unless others delete or rename the client or a Secret is left over
      from an earlier resource, that is the one client of our name, and the secret is its current
      one. */
  lemma CredentialCoherence(w: ClientWorld, es: seq<ClientEvent>, name: string)
    requires Initial(w) && !Filled(w.setup.clean, name)
    requires AllSteady(es, name)
    ensures var v := Run(Machine(w, Idle, Failure), es).w;
      && (Filled(v.own, name) ==> Loyal(v.own, name))
      && (w.setup.sheltered && w.setup.tidy && v.store.cr.Some? && !v.store.cr.value.deleting && Filled(v.own, name) ==> Genuine(v, name))
      && AtMostOne(v)
  {
    CredentialStart(w, es, name);
  }

  // ---------------------------------------------------------------- never rewritten

  /** While one and the same resource exists under its finalizer, what a filled Secret holds stays. */
  ghost predicate Stays(w: ClientWorld, v: ClientWorld, name: string) {
    Filled(w.own, name) && w.store.cr.Some? && w.store.cr.value.finalizer
    && v.store.cr.Some? && v.store.cr.value.uid == w.store.cr.value.uid
    ==> v.store.cr.value.finalizer && Filled(v.own, name) && v.own.secrets[name] == w.own.secrets[name]
  }

  lemma TaskStays(w: ClientWorld, k: Task, t: Tick, name: string)
    requires TaskRefers(k, name) && Pending(w, Work(k), name)
    ensures var v := TaskStep(w, k, t).w;
      v.store == w.store && (Filled(w.own, name) ==> Filled(v.own, name) && v.own.secrets[name] == w.own.secrets[name])
  {
    if AboutClient(k) {
      assert SyncStep(w, k, t).w.own.secrets == w.own.secrets;
    } else if k.WriteSecret? {
      assert !Filled(w.own, name);
    } else {
      assert TaskStep(w, k, t).w.own.secrets == w.own.secrets;
    }
  }

  lemma StepStays(m: ClientMachine, t: Tick, name: string)
    requires CredentialInv(m, name, false)
    ensures Stays(m.w, Step(m, t).w, name) && Kept(m.w, Step(m, t).w)
  {
    StepKeeps(m, t);
    match m.pc
    case Start(g, inst) => FirstCalm(m.w, g, inst, t, name);
    case Work(k) => TaskStays(m.w, k, t, name);
    case _ =>
  }

  lemma {:induction false} RunStays(m: ClientMachine, es: seq<ClientEvent>, name: string)
    requires CredentialInv(m, name, false)
    requires AllSteady(es, name)
    ensures Stays(m.w, Run(m, es).w, name) && Kept(m.w, Run(m, es).w)
    decreases |es|
  {
    if es != [] {
      var n := Apply(m, es[0]);
      if es[0].Call? {
        StepStays(m, es[0].t, name);
        StepTruth(m, es[0].t, name, false);
      } else {
        DisturbKeeps(m, es[0]);
        DisturbTruth(m, es[0], name, false);
      }
      RunStays(n, es[1..], name);
      KeptTransitive(m.w, n.w, Run(n, es[1..]).w);
    }
  }

  /** Between any two points of any history, a filled Secret is never written again, so the secret that
      was handed out is never invalidated by the operator. */
  lemma CredentialsStay(w: ClientWorld, before: seq<ClientEvent>, after: seq<ClientEvent>, name: string)
    requires Initial(w) && !Filled(w.setup.clean, name)
    requires AllSteady(before, name) && AllSteady(after, name)
    ensures var m := Run(Machine(w, Idle, Failure), before);
      Stays(m.w, Run(m, after).w, name)
  {
    CredentialStart(w, before, name);
    RunStays(Run(Machine(w, Idle, Failure), before), after, name);
  }
}
