/** Onboarding over all runs (internal/controller/onboarding.go): what the flags prove, and that a
    recorded link is the last. */
module UserOnboarding {
  import opened Basics
  import opened Kube
  import opened Lifecycle
  import opened Invariants
  import opened User

  /** A new resource has no flags set, and nothing has been issued or written for it. */
  predicate Plain(setup: Setup<Onboarding, Own>) {
    setup.blank == Onboarding(false, false, None) && setup.clean == Own(map[], [], [])
  }

  /** Every write stored the application's login link for a token that was issued to its user, and
      every onboarding Secret holds what such a write put there. */
  ghost predicate Traced(own: Own) {
    && (forall x :: x in own.writes ==> x.link == x.appUrl + "/login/" + x.token && Token(x.user, x.token) in own.tokens)
    && (forall name :: name in own.links ==> exists x :: x in own.writes && x.secret == name && x.link == own.links[name])
  }

  ghost predicate Stored(own: Own, id: Id) {
    exists x :: x in own.writes && x.user == id
  }

  /** What the flags of a user claim is true: mail implies link and a time, and link implies that a
      link for this very user was stored. */
  ghost predicate Backed(own: Own, id: Id, more: Onboarding) {
    && (more.emailSent ==> more.linkCreated && more.sentAt.Some?)
    && (more.linkCreated ==> id != "" && Stored(own, id))
  }

  /** Flags never go back, and the recorded time stays. */
  ghost predicate Grows(a: Onboarding, b: Onboarding) {
    && (a.linkCreated ==> b.linkCreated)
    && (a.emailSent ==> b.emailSent && b.sentAt == a.sentAt)
  }

  ghost predicate TaskBacked(w: UserWorld, k: Task) {
    match k
    case IssueToken(h) => !h.mem.more.linkCreated
    case ReadLink(h, token) => !h.mem.more.linkCreated && Token(h.id, token) in w.own.tokens
    case WriteLink(h, token, _) => !h.mem.more.linkCreated && Token(h.id, token) in w.own.tokens
    case Refetch(h, note) => Backed(w.own, h.id, note) && Grows(h.g.status.more, note)
    case _ => true
  }

  ghost predicate PcBacked(w: UserWorld, pc: UserPc) {
    match pc
    case Gate(g) => Backed(w.own, g.status.id, g.status.more)
    case Report(g, s, _) => Backed(w.own, s.id, s.more) && Grows(g.status.more, s.more)
    case Work(k) => TaskBacked(w, k)
    case _ => true
  }

  ghost predicate WorldBacked(w: UserWorld) {
    && Plain(w.setup) && Traced(w.own)
    && (w.store.cr.Some? ==> Backed(w.own, w.store.cr.value.status.id, w.store.cr.value.status.more))
  }

  ghost predicate Onboards(m: UserMachine) {
    MachineInv(m) && WorldBacked(m.w) && PcBacked(m.w, m.pc)
  }

  /** Across any stretch of time in which one resource exists: flags only grow, and once a link is
      recorded no token is issued and no onboarding Secret is written. */
  ghost predicate Steady(w: UserWorld, v: UserWorld) {
    w.store.cr.Some? && v.store.cr.Some? && v.store.cr.value.uid == w.store.cr.value.uid ==>
      && Grows(w.store.cr.value.status.more, v.store.cr.value.status.more)
      && (w.store.cr.value.status.more.linkCreated ==> v.own == w.own)
  }

  ghost predicate Next(w: UserWorld, n: UserMachine) {
    WorldBacked(n.w) && PcBacked(n.w, n.pc) && Steady(w, n.w)
  }

  // ---------------------------------------------------------------- the steps

  lemma BeginBacked(w: UserWorld, g: UserCopy, inst: Instance, t: Tick)
    requires Inv(w) && WorldBacked(w) && Seen(w, g) && g.finalizer && !g.deleting
    ensures PcBacked(w, Begin(w, g, inst, t))
  {
    if g.status.id == "" && List(w, t).Some? { ListDecides(w, g, t); }
  }

  lemma CreateBacked(w: UserWorld, k: Task, t: Tick)
    requires k.Create? && Inv(w) && WorldBacked(w) && TaskKnows(w, k)
    ensures Next(w, SyncStep(w, k, t))
  {
    MakeKeeps(w, k.g, k.g.spec, Body(ProfileOf(k.g.spec), {}), "", t);
  }

  lemma AmendBacked(w: UserWorld, k: Task, t: Tick)
    requires k.Amend? && Inv(w) && WorldBacked(w) && TaskKnows(w, k)
    ensures Next(w, SyncStep(w, k, t))
  {
    ChangeKeeps(w, k.g, k.id, k.g.spec, Amended(w, k.g, k.id), t.outcome);
  }

  lemma FetchBacked(w: UserWorld, k: Task, t: Tick)
    requires k.FetchGroup? && WorldBacked(w) && TaskKnows(w, k)
    ensures PcBacked(w, FetchStep(w, k, t))
  {
  }

  lemma SetGroupsBacked(w: UserWorld, k: Task, t: Tick)
    requires k.SetGroups? && WorldBacked(w) && TaskKnows(w, k)
    ensures Next(w, SetGroupsStep(w, k, t))
  {
  }

  lemma IssueBacked(w: UserWorld, k: Task, t: Tick)
    requires k.IssueToken? || k.ReadLink?
    requires WorldBacked(w) && TaskKnows(w, k) && TaskBacked(w, k)
    ensures Next(w, OnboardStep(w, k, t))
  {
  }

  /** The step that stores a link is the only one that raises a flag. */
  lemma WriteBacked(w: UserWorld, k: Task, t: Tick)
    requires k.WriteLink?
    requires WorldBacked(w) && TaskKnows(w, k) && TaskBacked(w, k)
    ensures Next(w, OnboardStep(w, k, t))
  {
    var n := OnboardStep(w, k, t);
    if n.w != w {
      var name := SecretName(k.h.g.spec);
      var x := LinkWrite(name, k.h.id, k.token, k.h.inst.appUrl, Link(k.h.inst.appUrl, k.token));
      assert n.w.own.writes == w.own.writes + [x];
      assert x in n.w.own.writes;
      forall y | y in n.w.own.links ensures exists z :: z in n.w.own.writes && z.secret == y && z.link == n.w.own.links[y] {
        if y == name { assert x.secret == y; } else {
          var z :| z in w.own.writes && z.secret == y && z.link == w.own.links[y];
          assert z in n.w.own.writes;
        }
      }
    }
  }

  lemma RefetchBacked(w: UserWorld, k: Task, t: Tick)
    requires k.Refetch? && Inv(w) && WorldBacked(w) && TaskKnows(w, k) && TaskBacked(w, k)
    ensures Next(w, RefetchStep(w, k, t))
  {
    ReadChosen(w, k.h.g, k.h.id);
  }

  lemma TaskNext(w: UserWorld, k: Task, t: Tick)
    requires Inv(w) && WorldBacked(w) && TaskKnows(w, k) && TaskBacked(w, k)
    ensures Next(w, TaskStep(w, k, t))
  {
    if k.Create? { CreateBacked(w, k, t); }
    else if k.Amend? { AmendBacked(w, k, t); }
    else if k.FetchGroup? { FetchBacked(w, k, t); }
    else if k.SetGroups? { SetGroupsBacked(w, k, t); }
    else if k.WriteLink? { WriteBacked(w, k, t); }
    else if AboutLink(k) { IssueBacked(w, k, t); }
    else { RefetchBacked(w, k, t); }
  }

  lemma ReportNext(m: UserMachine, t: Tick)
    requires Onboards(m) && m.pc.Report?
    ensures Next(m.w, SharedStep(m, t))
  {
  }

  lemma ReadNext(m: UserMachine, t: Tick)
    requires Onboards(m) && (m.pc.Idle? || m.pc.Read? || m.pc.Gate?)
    ensures Next(m.w, SharedStep(m, t))
  {
  }

  lemma MetaNext(m: UserMachine, t: Tick)
    requires Onboards(m) && (m.pc.Finalize? || m.pc.Unfinalize?)
    ensures Next(m.w, SharedStep(m, t))
  {
  }

  lemma DiscardNext(m: UserMachine, t: Tick)
    requires Onboards(m) && m.pc.Discard?
    ensures Next(m.w, SharedStep(m, t))
  {
  }

  lemma StepNext(m: UserMachine, t: Tick)
    requires Onboards(m)
    ensures Onboards(Step(m, t)) && Steady(m.w, Step(m, t).w) && Kept(m.w, Step(m, t).w)
  {
    StepKeeps(m, t);
    match m.pc
    case Start(g, inst) => BeginBacked(m.w, g, inst, t);
    case Work(k) => TaskNext(m.w, k, t);
    case Report(_, _, _) => ReportNext(m, t);
    case Discard(_) => DiscardNext(m, t);
    case Finalize(_, _) => MetaNext(m, t);
    case Unfinalize(_) => MetaNext(m, t);
    case _ => ReadNext(m, t);
  }

  lemma OutsideBacked(m: UserMachine, e: Outside<Spec, Onboarding, Body, Own, Outer>)
    requires Onboards(m) && Rely(m.w, e)
    ensures WorldBacked(After(m.w, e)) && PcBacked(After(m.w, e), m.pc) && Steady(m.w, After(m.w, e))
  {
    if m.w.store.cr.Some? { assert ResourceInv(m.w, m.w.store.cr.value); }
  }

  lemma DisturbNext(m: UserMachine, ev: UserEvent)
    requires Onboards(m)
    ensures var n := Disturb(m, ev); Onboards(n) && Steady(m.w, n.w) && Kept(m.w, n.w)
  {
    DisturbKeeps(m, ev);
    if ev.Elsewhere? && Rely(m.w, ev.e) { OutsideBacked(m, ev.e); }
  }

  lemma {:induction false} RunOnboards(m: UserMachine, es: seq<UserEvent>)
    requires Onboards(m)
    ensures Onboards(Run(m, es)) && Steady(m.w, Run(m, es).w) && Kept(m.w, Run(m, es).w)
    decreases |es|
  {
    if es != [] {
      var n := Apply(m, es[0]);
      if es[0].Call? { StepNext(m, es[0].t); } else { DisturbNext(m, es[0]); }
      RunOnboards(n, es[1..]);
      KeptTransitive(m.w, n.w, Run(n, es[1..]).w);
    }
  }

  /** Whatever fails, crashes or happens elsewhere: a recorded mail implies a recorded link and a time,
      a recorded link implies that a link for this user was stored, and every stored link is the
      application's login link for a token issued to its user. */
  lemma FlagsBacked(w: UserWorld, es: seq<UserEvent>)
    requires Initial(w) && Plain(w.setup)
    ensures var v := Run(Machine(w, Idle, Failure), es).w;
      && Traced(v.own)
      && (v.store.cr.Some? ==> Backed(v.own, v.store.cr.value.status.id, v.store.cr.value.status.more))
  {
    RunOnboards(Machine(w, Idle, Failure), es);
  }

  /** And while the resource exists its flags never go back; once the link is recorded no further
      token is issued and no onboarding Secret is touched, in any later run. */
  lemma OnboardedOnce(w: UserWorld, before: seq<UserEvent>, after: seq<UserEvent>)
    requires Initial(w) && Plain(w.setup)
    ensures var m := Run(Machine(w, Idle, Failure), before);
      Steady(m.w, Run(m, after).w)
  {
    RunOnboards(Machine(w, Idle, Failure), before);
    RunOnboards(Run(Machine(w, Idle, Failure), before), after);
  }

  // ---------------------------------------------------------------- who asked for mail

  /** A run from copy `g`: what it is about to record of the mail is what `g` says, unless its spec asks for
      mail and the flag was not set. */
  ghost predicate SameMail(more: Onboarding, g: UserCopy) {
    more.emailSent == g.status.more.emailSent && more.sentAt == g.status.more.sentAt
  }

  ghost predicate Asked(more: Onboarding, g: UserCopy) {
    SameMail(more, g) || (g.spec.sendEmail && !g.status.more.emailSent && more.emailSent && more.sentAt.Some?)
  }

  ghost predicate PcAsked(pc: UserPc, g: UserCopy) {
    match pc
    case Idle => true
    case Start(g1, _) => g1 == g
    case Work(Create(g1, _)) => g1 == g
    case Work(Amend(g1, _, _)) => g1 == g
    case Work(Refetch(h, note)) => h.g == g && Asked(note, g)
    case Work(k) => k.h.g == g
    case Report(_, s, _) => Asked(s.more, g)
    case _ => false
  }

  lemma BeginAsked(w: UserWorld, g: UserCopy, inst: Instance, t: Tick)
    ensures PcAsked(Begin(w, g, inst, t), g)
  {
  }

  lemma UserAsked(w: UserWorld, k: Task, t: Tick, g: UserCopy)
    requires (k.Create? || k.Amend?) && k.g == g
    ensures PcAsked(SyncStep(w, k, t).pc, g)
  {
  }

  lemma GroupsAsked(w: UserWorld, k: Task, t: Tick, g: UserCopy)
    requires k.FetchGroup? || k.SetGroups?
    requires k.h.g == g && k.h.mem.more == g.status.more
    ensures PcAsked(TaskStep(w, k, t).pc, g)
  {
  }

  lemma LinkAsked(w: UserWorld, k: Task, t: Tick, g: UserCopy)
    requires AboutLink(k) && k.h.g == g && k.h.mem.more == g.status.more
    ensures PcAsked(OnboardStep(w, k, t).pc, g)
  {
  }

  lemma RefetchAsked(w: UserWorld, k: Task, t: Tick, g: UserCopy)
    requires k.Refetch? && k.h.g == g && Asked(k.note, g) && Inv(w) && HoldOk(w, k.h)
    ensures PcAsked(RefetchStep(w, k, t).pc, g)
  {
    ReadChosen(w, k.h.g, k.h.id);
  }

  lemma StepAsked(m: UserMachine, t: Tick, g: UserCopy)
    requires MachineInv(m) && PcAsked(m.pc, g)
    ensures PcAsked(Step(m, t).pc, g)
  {
    if m.pc.Start? { BeginAsked(m.w, g, m.pc.inst, t); }
    else if m.pc.Work? {
      var k := m.pc.k;
      if k.Create? || k.Amend? { UserAsked(m.w, k, t, g); }
      else if k.FetchGroup? || k.SetGroups? { GroupsAsked(m.w, k, t, g); }
      else if AboutLink(k) { LinkAsked(m.w, k, t, g); }
      else { RefetchAsked(m.w, k, t, g); }
    }
  }

  lemma {:induction false} RunAsked(m: UserMachine, es: seq<UserEvent>, g: UserCopy)
    requires MachineInv(m) && PcAsked(m.pc, g) && OneRun(es)
    ensures PcAsked(Run(m, es).pc, g) && MachineInv(Run(m, es))
    decreases |es|
  {
    if es != [] {
      if es[0].Call? { StepAsked(m, es[0].t, g); StepKeeps(m, es[0].t); } else { DisturbKeeps(m, es[0]); }
      RunAsked(Apply(m, es[0]), es[1..], g);
    }
  }

  /** Mail is noted only by a run whose spec asks for it, with a time, and only if it was not noted before;
      any other run that writes a status leaves mail and time as they were. */
  lemma MailOnlyIfAsked(m: UserMachine, es: seq<UserEvent>, r: Tick)
    requires MachineInv(m) && m.pc.Start? && OneRun(es)
    ensures var g, n := m.pc.g, Run(m, es);
      n.pc.Report? && Accepts(n.w.store, n.pc.g.(status := n.pc.s), r.outcome) ==>
        var v := Step(n, r).w;
        v.store.cr.Some? && Asked(v.store.cr.value.status.more, g)
  {
    RunAsked(m, es, m.pc.g);
  }

  /** The success status forgets nothing: a flag is set exactly if the resource, as it is by then, has it or
      the run has raised it, and the time is the run's if it has one. */
  lemma SuccessJoins(w: UserWorld, k: Task, t: Tick)
    requires k.Refetch?
    ensures var n := TaskStep(w, k, t);
      n.pc.Report? ==>
        && w.store.cr == Some(n.pc.g) && n.pc.verdict.Success? && n.pc.s.ready && n.pc.s.id == k.h.id
        && var before, after := n.pc.g.status.more, n.pc.s.more;
        && (after.linkCreated <==> before.linkCreated || k.note.linkCreated)
        && (after.emailSent <==> before.emailSent || k.note.emailSent)
        && after.sentAt == if k.note.sentAt.Some? then k.note.sentAt else before.sentAt
  {
  }
}
