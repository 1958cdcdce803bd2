/** The user controller as a machine (internal/controller/pocketiduser_controller.go and
    internal/controller/onboarding.go), and its safety over all runs. */
module User {
  import opened Basics
  import opened Kube
  import opened Lifecycle
  import opened Invariants

  // ---------------------------------------------------------------- state

  datatype Spec = Spec(
    objectName: string, email: Option<string>, firstName: string, lastName: string, displayName: string,
    isAdmin: bool, disabled: bool, locale: string, groupRefs: seq<string>, sendEmail: bool,
    accessSecret: Option<string>)

  /** A user's profile as the API carries it; absent fields are None. */
  datatype Profile = Profile(
    email: Option<string>, firstName: string, lastName: Option<string>, displayName: string,
    isAdmin: bool, disabled: bool, locale: Option<string>)

  datatype Body = Body(profile: Profile, groups: set<Id>)

  datatype Onboarding = Onboarding(linkCreated: bool, emailSent: bool, sentAt: Option<nat>)

  /** A one-time access token the server has issued. */
  datatype Token = Token(user: Id, token: string)

  /** A write of an onboarding Secret that took effect. */
  datatype LinkWrite = LinkWrite(secret: string, user: Id, token: string, appUrl: string, link: string)

  /** `links` are the onboarding Secrets; `tokens` and `writes` are histories. */
  datatype Own = Own(links: map<string, string>, tokens: seq<Token>, writes: seq<LinkWrite>)

  /** The user group resources of the namespace: name to recorded group id. */
  type Outer = map<string, Id>

  type UserCopy = Copy<Spec, Onboarding>
  type UserWorld = World<Spec, Onboarding, Body, Own, Outer>
  type UserMachine = Machine<Spec, Onboarding, Body, Own, Outer, Task>
  type UserEvent = Event<Spec, Onboarding, Body, Own, Outer>
  type UserPc = Pc<Spec, Onboarding, Task>

  /** What a run holds once its user is found or made; `mem` is the status changed in memory. */
  datatype Hold = Hold(g: UserCopy, inst: Instance, id: Id, mem: SyncStatus<Onboarding>)

  datatype Task =
    | Create(g: UserCopy, inst: Instance)
    | Amend(g: UserCopy, inst: Instance, id: Id)
    | FetchGroup(h: Hold, current: set<Id>, desired: set<Id>, next: nat)
    | SetGroups(h: Hold, desired: set<Id>)
    | IssueToken(h: Hold)
    | ReadLink(h: Hold, token: string)
    | WriteLink(h: Hold, token: string, present: bool)
    | Refetch(h: Hold, note: Onboarding)

  function Optional(s: string): Option<string> {
    if s != "" then Some(s) else None
  }

  function ProfileOf(spec: Spec): Profile {
    Profile(spec.email, spec.firstName, Optional(spec.lastName), spec.displayName, spec.isAdmin, spec.disabled, Optional(spec.locale))
  }

  /** needsUserUpdate: the user name and every profile field. */
  predicate NeedsUpdate(found: Entry<Body>, g: UserCopy) {
    found.name != g.name || found.body.profile != ProfileOf(g.spec)
  }

  /** resolveOnboardingSecretName: an empty name turns the link off. */
  function SecretName(spec: Spec): string {
    if spec.accessSecret.Some? then spec.accessSecret.value else spec.objectName + "-onboarding"
  }

  function Link(appUrl: string, token: string): string {
    appUrl + "/login/" + token
  }

  // ---------------------------------------------------------------- the machine

  /** Without a recorded id the profile is compared and repaired; with one it is taken as it is. */
  function Decide(g: UserCopy, inst: Instance, found: Option<Entry<Body>>): UserPc {
    match found
    case None => Work(Create(g, inst))
    case Some(e) =>
      if g.status.id == "" && NeedsUpdate(e, g) then Work(Amend(g, inst, e.id))
      else NextGroup(Hold(g, inst, e.id, g.status), e.body.groups, {}, 0)
  }

  function NextGroup(h: Hold, current: set<Id>, desired: set<Id>, next: nat): UserPc {
    if next < |h.g.spec.groupRefs| then Work(FetchGroup(h, current, desired, next))
    else if desired != current then Work(SetGroups(h, desired))
    else ToOnboarding(h)
  }

  /** reconcileOnboarding: one link per user, unless turned off. */
  function ToOnboarding(h: Hold): UserPc {
    if SecretName(h.g.spec) == "" || h.mem.more.linkCreated then Work(Refetch(h, h.mem.more)) else Work(IssueToken(h))
  }

  function Begin(w: UserWorld, g: UserCopy, inst: Instance, t: Tick): UserPc {
    if g.status.id != "" then
      var found := Lookup(w, g.status.id, t.outcome);
      if found.None? then Fail(g, g.status, "UserSyncFailed") else Decide(g, inst, found)
    else
      var rows := List(w, t);
      if rows.None? then Fail(g, g.status, "UserSyncFailed") else Decide(g, inst, FindByName(rows.value, g.name))
  }

  /** A profile update leaves the memberships as they are. */
  function Amended(w: UserWorld, g: UserCopy, id: Id): Body {
    Body(ProfileOf(g.spec), if id in w.live then w.live[id].body.groups else {})
  }

  function SyncStep(w: UserWorld, k: Task, t: Tick): UserMachine
    requires k.Create? || k.Amend?
  {
    match k
    case Create(g, inst) =>
      var (v, made) := Make(w, g.spec, Body(ProfileOf(g.spec), {}), "", t);
      Machine(v, if made.None? then Fail(g, g.status, "UserSyncFailed")
                 else NextGroup(Hold(g, inst, made.value.id, g.status.(id := made.value.id)), made.value.body.groups, {}, 0), Failure)
    case Amend(g, inst, id) =>
      var (v, changed) := Change(w, id, g.spec, Amended(w, g, id), t.outcome);
      Machine(v, if changed.None? then Fail(g, g.status, "UserSyncFailed")
                 else NextGroup(Hold(g, inst, id, g.status), changed.value.body.groups, {}, 0), Failure)
  }

  /** A group that cannot be fetched is skipped, as is one that has not been synced. */
  function FetchStep(w: UserWorld, k: Task, t: Tick): UserPc
    requires k.FetchGroup?
  {
    if k.next >= |k.h.g.spec.groupRefs| then NextGroup(k.h, k.current, k.desired, k.next) else
    var ref := k.h.g.spec.groupRefs[k.next];
    var desired := if t.outcome.Ok? && ref in w.outer && w.outer[ref] != "" then k.desired + {w.outer[ref]} else k.desired;
    NextGroup(k.h, k.current, desired, k.next + 1)
  }

  function SetGroupsStep(w: UserWorld, k: Task, t: Tick): UserMachine
    requires k.SetGroups?
  {
    var failed := Fail(k.h.g, k.h.mem, "GroupSyncFailed");
    var v := w.(calls := w.calls + [SentOther(k.h.id)]);
    if t.outcome.Lost? || k.h.id !in w.live then Machine(v, failed, Failure) else
      Machine(v.(live := w.live[k.h.id := w.live[k.h.id].(body := w.live[k.h.id].body.(groups := k.desired))]),
              if t.outcome.Ok? then ToOnboarding(k.h) else failed, Failure)
  }

  /** The note a run takes when its link is stored. */
  function Noted(h: Hold, now: nat): Onboarding {
    var sends := h.g.spec.sendEmail && !h.mem.more.emailSent;
    Onboarding(true, h.mem.more.emailSent || sends, if sends then Some(now) else h.mem.more.sentAt)
  }

  function OnboardStep(w: UserWorld, k: Task, t: Tick): UserMachine
    requires k.IssueToken? || k.ReadLink? || k.WriteLink?
  {
    var givenUp := Work(Refetch(k.h, k.h.mem.more));
    match k
    case IssueToken(h) =>
      var v := w.(calls := w.calls + [SentOther(h.id)]);
      if t.outcome.Lost? || h.id !in w.live then Machine(v, givenUp, Failure) else
        Machine(v.(own := w.own.(tokens := w.own.tokens + [Token(h.id, t.minted)])),
                if t.outcome.Ok? then Work(ReadLink(h, t.minted)) else givenUp, Failure)
    case ReadLink(h, token) =>
      Machine(w, Work(WriteLink(h, token, t.outcome.Ok? && SecretName(h.g.spec) in w.own.links)), Failure)
    case WriteLink(h, token, present) =>
      var name, link := SecretName(h.g.spec), Link(h.inst.appUrl, token);
      if t.outcome.Lost? || (name in w.own.links) != present then Machine(w, givenUp, Failure) else
        Machine(w.(own := w.own.(links := w.own.links[name := link],
                                 writes := w.own.writes + [LinkWrite(name, h.id, token, h.inst.appUrl, link)])),
                if t.outcome.Ok? then Work(Refetch(h, Noted(h, t.now))) else givenUp, Failure)
  }

  /** The flags of the run and of the re-read resource, joined. */
  function Joined(fetched: Onboarding, note: Onboarding): Onboarding {
    Onboarding(fetched.linkCreated || note.linkCreated, fetched.emailSent || note.emailSent,
               if note.sentAt.Some? then note.sentAt else fetched.sentAt)
  }

  function RefetchStep(w: UserWorld, k: Task, t: Tick): UserMachine
    requires k.Refetch?
  {
    if !t.outcome.Ok? || w.store.cr.None? then Machine(w, Idle, Failure) else
      var c := w.store.cr.value;
      Machine(w, Report(c, Synced(c.status, c.generation, k.h.id, t.now, true, Joined(c.status.more, k.note)), Success), Failure)
  }

  predicate AboutLink(k: Task) {
    k.IssueToken? || k.ReadLink? || k.WriteLink?
  }

  function TaskStep(w: UserWorld, k: Task, t: Tick): UserMachine {
    if k.Create? || k.Amend? then SyncStep(w, k, t)
    else if k.FetchGroup? then Machine(w, FetchStep(w, k, t), Failure)
    else if k.SetGroups? then SetGroupsStep(w, k, t)
    else if AboutLink(k) then OnboardStep(w, k, t)
    else RefetchStep(w, k, t)
  }

  function Step(m: UserMachine, t: Tick): UserMachine {
    match m.pc
    case Start(g, inst) => Machine(m.w, Begin(m.w, g, inst, t), Failure)
    case Work(k) => TaskStep(m.w, k, t)
    case _ => SharedStep(m, t)
  }

  function Apply(m: UserMachine, ev: UserEvent): UserMachine {
    if ev.Call? then Step(m, ev.t) else Disturb(m, ev)
  }

  /** Any number of reconciles, interleaved with anything others do, each cut short anywhere. */
  function Run(m: UserMachine, es: seq<UserEvent>): UserMachine
    decreases |es|
  {
    if es == [] then m else Run(Apply(m, es[0]), es[1..])
  }

  /** One run until it ends, or until the script of what happens to it ends: then it has died. */
  function Play(m: UserMachine, script: seq<UserEvent>): (UserMachine, seq<UserEvent>)
    decreases |script|
  {
    if m.pc.Idle? then (m, script)
    else if script == [] then (Machine(m.w, Idle, Failure), [])
    else Play(Apply(m, script[0]), script[1..])
  }

  // ---------------------------------------------------------------- safety over all runs

  /** The in-memory status differs from the copy's only by the id of a user just made. */
  ghost predicate HoldOk(w: UserWorld, h: Hold) {
    && Chosen(w, h.g, h.id)
    && h.mem == h.g.status.(id := h.mem.id)
    && (h.mem.id == h.g.status.id || h.mem.id == h.id)
  }

  ghost predicate TaskKnows(w: UserWorld, k: Task) {
    match k
    case Create(g, _) => Seen(w, g) && g.finalizer && g.status.id == "" && NoneNamed(w)
    case Amend(g, _, id) => Chosen(w, g, id)
    case _ => HoldOk(w, k.h)
  }

  ghost predicate Informed(w: UserWorld, pc: UserPc) {
    Knows(w, pc) && (pc.Work? ==> TaskKnows(w, pc.k))
  }

  /** An optional field is sent exactly when the spec gives it. */
  ghost predicate Given(sent: Option<string>, field: string) {
    if field == "" then sent == None else sent == Some(field)
  }

  ghost predicate Describes(p: Profile, spec: Spec) {
    && p.email == spec.email && p.firstName == spec.firstName && p.displayName == spec.displayName
    && p.isAdmin == spec.isAdmin && p.disabled == spec.disabled
    && Given(p.lastName, spec.lastName) && Given(p.locale, spec.locale)
  }

  /** Every profile sent describes its spec. */
  ghost predicate Faithful(w: UserWorld) {
    forall c :: c in w.calls ==>
      (c.SentCreate? ==> Describes(c.body.profile, c.spec)) && (c.SentUpdate? ==> Describes(c.body.profile, c.spec))
  }

  ghost predicate MachineInv(m: UserMachine) {
    Inv(m.w) && Informed(m.w, m.pc) && Faithful(m.w)
  }

  ghost predicate Follows(w: UserWorld, n: UserMachine) {
    MachineInv(n) && Kept(w, n.w)
  }

  lemma GroupKnows(w: UserWorld, h: Hold, current: set<Id>, desired: set<Id>, next: nat)
    requires HoldOk(w, h)
    ensures Informed(w, NextGroup(h, current, desired, next))
  {
  }

  lemma BeginKnows(w: UserWorld, g: UserCopy, inst: Instance, t: Tick)
    requires Inv(w) && Seen(w, g) && g.finalizer && !g.deleting
    ensures Informed(w, Begin(w, g, inst, t))
  {
    FailedCoherent(g.status, g.generation, "UserSyncFailed");
    if g.status.id != "" {
      var found := Lookup(w, g.status.id, t.outcome);
      if found.Some? { GroupKnows(w, Hold(g, inst, g.status.id, g.status), found.value.body.groups, {}, 0); }
    } else if List(w, t).Some? {
      ListDecides(w, g, t);
      var found := FindByName(List(w, t).value, g.name);
      if found.Some? { GroupKnows(w, Hold(g, inst, found.value.id, g.status), found.value.body.groups, {}, 0); }
    }
  }

  lemma CreateKeeps(w: UserWorld, k: Task, t: Tick)
    requires k.Create? && Inv(w) && Faithful(w) && TaskKnows(w, k)
    ensures Follows(w, SyncStep(w, k, t))
  {
    var g := k.g;
    var (v, made) := Make(w, g.spec, Body(ProfileOf(g.spec), {}), "", t);
    MakeKeeps(w, g, g.spec, Body(ProfileOf(g.spec), {}), "", t);
    assert Faithful(v);
    if made.Some? { GroupKnows(v, Hold(g, k.inst, made.value.id, g.status.(id := made.value.id)), {}, {}, 0); }
    else { FailedCoherent(g.status, g.generation, "UserSyncFailed"); }
  }

  lemma AmendKeeps(w: UserWorld, k: Task, t: Tick)
    requires k.Amend? && Inv(w) && Faithful(w) && TaskKnows(w, k)
    ensures Follows(w, SyncStep(w, k, t))
  {
    var g := k.g;
    var (v, changed) := Change(w, k.id, g.spec, Amended(w, g, k.id), t.outcome);
    ChangeKeeps(w, g, k.id, g.spec, Amended(w, g, k.id), t.outcome);
    assert Faithful(v);
    if changed.Some? { GroupKnows(v, Hold(g, k.inst, k.id, g.status), changed.value.body.groups, {}, 0); }
    else { FailedCoherent(g.status, g.generation, "UserSyncFailed"); }
  }

  /** A new body under the same name changes nothing that the protocol rests on. */
  lemma BodyKeeps(w: UserWorld, v: UserWorld, h: Hold, body: Body)
    requires Inv(w) && HoldOk(w, h) && h.id in w.live
    requires v == w.(live := w.live[h.id := w.live[h.id].(body := body)])
    ensures Inv(v) && Kept(w, v) && HoldOk(v, h)
  {
    assert forall i :: i in w.live && i in w.recorded ==> OwnedBy(w, i);
  }

  lemma SetGroupsKeeps(w: UserWorld, k: Task, t: Tick)
    requires k.SetGroups? && Inv(w) && Faithful(w) && HoldOk(w, k.h)
    ensures Follows(w, SetGroupsStep(w, k, t))
  {
    FailedCoherent(k.h.mem, k.h.g.generation, "GroupSyncFailed");
    var v := w.(calls := w.calls + [SentOther(k.h.id)]);
    AsideKeeps(w, v, k.h.g, k.h.id);
    if !t.outcome.Lost? && k.h.id in w.live {
      BodyKeeps(v, SetGroupsStep(w, k, t).w, k.h, w.live[k.h.id].body.(groups := k.desired));
    }
  }

  /** Onboarding changes its own state and sends no create or update. */
  lemma OnboardAside(w: UserWorld, k: Task, t: Tick)
    requires AboutLink(k) && Faithful(w)
    ensures var n := OnboardStep(w, k, t);
      && n.w == w.(own := n.w.own, calls := n.w.calls) && Faithful(n.w)
      && (forall c :: c in n.w.calls ==> c in w.calls || !c.SentCreate?)
      && n.pc.Work? && !n.pc.k.Create? && !n.pc.k.Amend? && n.pc.k.h == k.h
  {
  }

  lemma OnboardKeeps(w: UserWorld, k: Task, t: Tick)
    requires Inv(w) && Faithful(w) && AboutLink(k) && HoldOk(w, k.h)
    ensures Follows(w, OnboardStep(w, k, t))
  {
    OnboardAside(w, k, t);
    AsideKeeps(w, OnboardStep(w, k, t).w, k.h.g, k.h.id);
  }

  lemma RefetchKeeps(w: UserWorld, k: Task, t: Tick)
    requires Inv(w) && Faithful(w) && k.Refetch? && HoldOk(w, k.h)
    ensures Follows(w, RefetchStep(w, k, t))
  {
    ReadChosen(w, k.h.g, k.h.id);
    var c := w.store.cr.value;
    SyncedCoherent(c.status, c.generation, k.h.id, t.now, true, Joined(c.status.more, k.note));
  }

  lemma TaskKeeps(w: UserWorld, k: Task, t: Tick)
    requires Inv(w) && Faithful(w) && TaskKnows(w, k)
    ensures Follows(w, TaskStep(w, k, t))
  {
    if k.Create? { CreateKeeps(w, k, t); }
    else if k.Amend? { AmendKeeps(w, k, t); }
    else if k.FetchGroup? { assert TaskStep(w, k, t).w == w; }
    else if k.SetGroups? { SetGroupsKeeps(w, k, t); }
    else if AboutLink(k) { OnboardKeeps(w, k, t); }
    else { RefetchKeeps(w, k, t); }
  }

  /** The shared steps send deletes at most. */
  lemma SharedFaithful(m: UserMachine, t: Tick)
    requires !m.pc.Start? && !m.pc.Work? && Faithful(m.w)
    ensures Faithful(SharedStep(m, t).w)
  {
  }

  lemma StepKeeps(m: UserMachine, t: Tick)
    requires MachineInv(m)
    ensures Follows(m.w, Step(m, t))
  {
    match m.pc
    case Start(g, inst) => BeginKnows(m.w, g, inst, t);
    case Work(k) => TaskKeeps(m.w, k, t);
    case _ => SharedKeeps(m, t); SharedFaithful(m, t);
  }

  lemma TaskStable(w: UserWorld, e: Outside<Spec, Onboarding, Body, Own, Outer>, k: Task)
    requires Rely(w, e) && TaskKnows(w, k)
    ensures TaskKnows(After(w, e), k)
  {
    match k
    case Create(g, _) => OutsideSeen(w, e, g);
    case Amend(g, _, id) => OutsideChosen(w, e, g, id);
    case _ => OutsideChosen(w, e, k.h.g, k.h.id);
  }

  lemma DisturbKeeps(m: UserMachine, ev: UserEvent)
    requires MachineInv(m)
    ensures Follows(m.w, Disturb(m, ev))
  {
    if ev.Elsewhere? && Rely(m.w, ev.e) {
      OutsideKeeps(m.w, ev.e);
      OutsideKnows(m.w, ev.e, m.pc);
      if m.pc.Work? { TaskStable(m.w, ev.e, m.pc.k); }
    }
  }

  lemma {:induction false} RunKeeps(m: UserMachine, es: seq<UserEvent>)
    requires MachineInv(m)
    ensures Follows(m.w, Run(m, es))
    decreases |es|
  {
    if es != [] {
      var n := Apply(m, es[0]);
      if es[0].Call? { StepKeeps(m, es[0].t); } else { DisturbKeeps(m, es[0]); }
      RunKeeps(n, es[1..]);
      KeptTransitive(m.w, n.w, Run(n, es[1..]).w);
    }
  }

  /** From a fresh start, whatever fails, crashes or happens elsewhere: never a second user of our
      name, never a create without the finalizer, never a recorded user that the stored
      resource does not still name and guard, a status whose flags agree, and no profile sent that
      differs from its spec. */
  lemma Safety(w: UserWorld, es: seq<UserEvent>)
    requires Initial(w)
    ensures var v := Run(Machine(w, Idle, Failure), es).w;
      && AtMostOne(v)
      && (forall c :: c in v.calls && c.SentCreate? ==> c.guarded)
      && (forall id :: id in v.live && id in v.recorded ==> OwnedBy(v, id))
      && (v.store.cr.Some? ==> Coherent(v.store.cr.value.status))
      && Faithful(v)
  {
    RunKeeps(Machine(w, Idle, Failure), es);
  }

  /** A recorded user id is never changed or cleared while its resource exists. */
  lemma WriteOnce(w: UserWorld, before: seq<UserEvent>, after: seq<UserEvent>)
    requires Initial(w)
    ensures var m := Run(Machine(w, Idle, Failure), before);
      var v := Run(m, after).w;
      m.w.store.cr.Some? && v.store.cr.Some? && m.w.store.cr.value.uid == v.store.cr.value.uid
      && m.w.store.cr.value.status.id != ""
      ==> v.store.cr.value.status.id == m.w.store.cr.value.status.id
  {
    RunKeeps(Machine(w, Idle, Failure), before);
    RunKeeps(Run(Machine(w, Idle, Failure), before), after);
  }

  /** Events within one run: its own calls, and what others do. A run that has ended stays ended. */
  ghost predicate OneRun(es: seq<UserEvent>) {
    forall i :: 0 <= i < |es| ==> es[i].Call? || es[i].Elsewhere?
  }

  /** A run that has made the user `id`: every status it may still write carries that id. */
  ghost predicate Carries(pc: UserPc, id: Id) {
    match pc
    case Idle => true
    case Work(k) => !k.Create? && !k.Amend? && k.h.id == id && k.h.mem.id == id
    case Report(_, s, verdict) => s.id == id && (verdict.Failure? ==> !s.ready)
    case _ => false
  }

  lemma StepCarries(m: UserMachine, t: Tick, id: Id)
    requires Carries(m.pc, id)
    ensures Carries(Step(m, t).pc, id)
  {
  }

  lemma {:induction false} RunCarries(m: UserMachine, es: seq<UserEvent>, id: Id)
    requires Carries(m.pc, id) && OneRun(es)
    ensures Carries(Run(m, es).pc, id)
    decreases |es|
  {
    if es != [] {
      if es[0].Call? { StepCarries(m, es[0].t, id); }
      RunCarries(Apply(m, es[0]), es[1..], id);
    }
  }

  /** The id of a user just made reaches the cluster with whatever status the same run comes to write,
      be it success or the failure of the membership step, and whatever others do in between: if that
      write takes effect, reported so or not, the id is recorded. */
  lemma CreatedRecords(m: UserMachine, t: Tick, es: seq<UserEvent>, r: Tick)
    requires m.pc.Work? && m.pc.k.Create? && OneRun(es)
    requires Make(m.w, m.pc.k.g.spec, Body(ProfileOf(m.pc.k.g.spec), {}), "", t).1.Some?
    ensures var made := Make(m.w, m.pc.k.g.spec, Body(ProfileOf(m.pc.k.g.spec), {}), "", t).1;
      var n := Run(Step(m, t), es);
      n.pc.Report? && Accepts(n.w.store, n.pc.g.(status := n.pc.s), r.outcome) ==>
        var v := Step(n, r).w;
        && v.store.cr.Some? && v.store.cr.value.status.id == made.value.id
        && (n.pc.verdict.Failure? ==> !v.store.cr.value.status.ready)
  {
    var made := Make(m.w, m.pc.k.g.spec, Body(ProfileOf(m.pc.k.g.spec), {}), "", t).1;
    RunCarries(Step(m, t), es, made.value.id);
  }
}
