/** What one undisturbed reconcile of a user comes to: exactly when it succeeds, what it then leaves
    behind, and that a second one changes nothing. */
module UserRecovery {
  import opened Basics
  import opened Conditions
  import opened Lifecycle
  import opened Invariants
  import opened User

  /** A run of API calls only, answered by ts[i], ts[i + 1], ... */
  function Drive(m: UserMachine, ts: seq<Tick>, i: nat): UserMachine
    decreases |ts| - i
  {
    if i >= |ts| || m.pc.Idle? then m else Drive(Step(m, ts[i]), ts, i + 1)
  }

  function Reconcile(w: UserWorld, ts: seq<Tick>): UserMachine {
    Drive(Machine(w, Read, Failure), ts, 0)
  }

  /** A fault-free stretch, as far as it does not list or make anything at the server. */
  predicate Fine(ts: seq<Tick>, i: nat, n: nat) {
    i + n <= |ts| && forall j | i <= j < i + n :: ts[j].outcome.Ok?
  }

  /** The groups the references name, as far as they exist and have been synced. */
  function Wanted(refs: seq<string>, groups: Outer): set<Id> {
    set r | r in refs && r in groups && groups[r] != "" :: groups[r]
  }

  /** The Secret a link goes to: the one the spec names, or by default one named after the resource. */
  function LinkSecret(spec: Spec): string {
    match spec.accessSecret
    case Some(name) => name
    case None => spec.objectName + "-onboarding"
  }

  predicate NeedsLink(c: UserCopy) {
    LinkSecret(c.spec) != "" && !c.status.more.linkCreated
  }

  // ---------------------------------------------------------------- what a run leaves

  /** A hold that agrees with the stored resource: nobody has touched it. */
  ghost predicate Quiet(w: UserWorld, h: Hold) {
    && w.store.cr == Some(h.g) && h.g.finalizer && !h.g.deleting && h.g.name == w.setup.key
    && h.mem == h.g.status.(id := h.mem.id)
    && h.id != "" && h.id in w.live
  }

  /** The success status is written over the resource that `w` stores. */
  ghost predicate Concluded(w: UserWorld, v: UserWorld, id: Id) {
    && w.store.cr.Some? && v.store.cr.Some? && v.setup == w.setup && v.outer == w.outer
    && var c, d := w.store.cr.value, v.store.cr.value;
    && d.status.lastSync.Some?
    && d == c.(status := Synced(c.status, c.generation, id, d.status.lastSync.value, true, d.status.more), version := d.version)
  }

  /** A link that was due is there now; one that was not is left alone. */
  ghost predicate Linked(w: UserWorld, v: UserWorld, id: Id, appUrl: string)
    requires w.store.cr.Some? && v.store.cr.Some?
  {
    var c, more := w.store.cr.value, v.store.cr.value.status.more;
    if NeedsLink(c) then
      && more.linkCreated && LinkSecret(c.spec) in v.own.links
      && (exists x :: x in v.own.tokens && x.user == id && v.own.links[LinkSecret(c.spec)] == appUrl + "/login/" + x.token)
      && (more.emailSent <==> c.status.more.emailSent || c.spec.sendEmail)
      && (c.status.more.emailSent || !c.spec.sendEmail ==> more.sentAt == c.status.more.sentAt)
      && (!c.status.more.emailSent && c.spec.sendEmail ==> more.sentAt.Some?)
    else more == c.status.more && v.own == w.own
  }

  /** The users at the server: only the memberships of `id` may differ, and they are `groups`. */
  function Grouped(w: UserWorld, id: Id, groups: set<Id>): map<Id, Remote<Body>>
    requires id in w.live
  {
    w.live[id := w.live[id].(body := w.live[id].body.(groups := groups))]
  }

  ghost predicate Ends(w: UserWorld, n: UserMachine, h: Hold, groups: set<Id>)
    requires h.id in w.live
  {
    && n.pc.Idle? && n.last.Success? && Concluded(w, n.w, h.id)
    && n.w.live == Grouped(w, h.id, groups)
    && Linked(w, n.w, h.id, h.inst.appUrl)
    && (w.live[h.id].body.groups == groups && !NeedsLink(h.g) ==> n.w.calls == w.calls)
  }

  // ---------------------------------------------------------------- the steps, last first

  lemma RefetchDrive(w: UserWorld, h: Hold, note: Onboarding, ts: seq<Tick>, i: nat)
    requires Quiet(w, h) && Fine(ts, i, 2)
    ensures var n := Drive(Machine(w, Work(Refetch(h, note)), Failure), ts, i);
      && n.pc.Idle? && n.last.Success? && Concluded(w, n.w, h.id)
      && n.w.store.cr.value.status.more == Joined(h.g.status.more, note)
      && n.w.live == w.live && n.w.own == w.own && n.w.calls == w.calls
  {
    var m1 := Step(Machine(w, Work(Refetch(h, note)), Failure), ts[i]);
    var m2 := Step(m1, ts[i + 1]);
    assert Drive(m1, ts, i + 1) == Drive(m2, ts, i + 2) == m2;
  }

  /** The world after a link has been issued and stored. */
  function Issued(w: UserWorld, h: Hold, token: string): UserWorld {
    var name, link := SecretName(h.g.spec), Link(h.inst.appUrl, token);
    w.(calls := w.calls + [SentOther(h.id)],
       own := Own(w.own.links[name := link], w.own.tokens + [Token(h.id, token)],
                  w.own.writes + [LinkWrite(name, h.id, token, h.inst.appUrl, link)]))
  }

  lemma IssueDrive(w: UserWorld, h: Hold, ts: seq<Tick>, i: nat)
    requires Quiet(w, h) && Fine(ts, i, 3)
    ensures Drive(Machine(w, Work(IssueToken(h)), Failure), ts, i)
      == Drive(Machine(Issued(w, h, ts[i].minted), Work(Refetch(h, User.Noted(h, ts[i + 2].now))), Failure), ts, i + 3)
  {
    var m1 := Step(Machine(w, Work(IssueToken(h)), Failure), ts[i]);
    var m2 := Step(m1, ts[i + 1]);
    var m3 := Step(m2, ts[i + 2]);
    assert m1.pc == Work(ReadLink(h, ts[i].minted));
    assert m2.pc == Work(WriteLink(h, ts[i].minted, SecretName(h.g.spec) in w.own.links));
    assert m3 == Machine(Issued(w, h, ts[i].minted), Work(Refetch(h, User.Noted(h, ts[i + 2].now))), Failure);
    assert Drive(m1, ts, i + 1) == Drive(m2, ts, i + 2) == Drive(m3, ts, i + 3);
  }

  lemma OnboardDrive(w: UserWorld, h: Hold, ts: seq<Tick>, i: nat)
    requires Quiet(w, h) && Fine(ts, i, 5)
    ensures Ends(w, Drive(Machine(w, ToOnboarding(h), Failure), ts, i), h, w.live[h.id].body.groups)
  {
    assert Grouped(w, h.id, w.live[h.id].body.groups) == w.live;
    if NeedsLink(h.g) {
      IssueDrive(w, h, ts, i);
      var v := Issued(w, h, ts[i].minted);
      RefetchDrive(v, h, User.Noted(h, ts[i + 2].now), ts, i + 3);
      assert Token(h.id, ts[i].minted) in v.own.tokens;
    } else {
      RefetchDrive(w, h, h.mem.more, ts, i);
    }
  }

  /** The membership step, once every reference has been read. */
  lemma SetDrive(w: UserWorld, h: Hold, desired: set<Id>, ts: seq<Tick>, i: nat)
    requires Quiet(w, h) && Fine(ts, i, 6)
    ensures Ends(w, Drive(Machine(w, NextGroup(h, w.live[h.id].body.groups, desired, |h.g.spec.groupRefs|), Failure), ts, i), h, desired)
  {
    var current := w.live[h.id].body.groups;
    if desired == current {
      OnboardDrive(w, h, ts, i);
    } else {
      var m := Machine(w, Work(SetGroups(h, desired)), Failure);
      var m1 := Step(m, ts[i]);
      assert m1 == Machine(w.(live := Grouped(w, h.id, desired), calls := w.calls + [SentOther(h.id)]), ToOnboarding(h), Failure);
      OnboardDrive(m1.w, h, ts, i + 1);
      assert Grouped(m1.w, h.id, desired) == Grouped(w, h.id, desired);
    }
  }

  lemma WantedOne(refs: seq<string>, ref: string, groups: Outer)
    ensures Wanted(refs + [ref], groups)
      == if ref in groups && groups[ref] != "" then Wanted(refs, groups) + {groups[ref]} else Wanted(refs, groups)
  {
    if ref in groups && groups[ref] != "" { assert ref in refs + [ref]; }
  }

  lemma {:induction false} GroupsDrive(w: UserWorld, h: Hold, next: nat, ts: seq<Tick>, i: nat)
    requires Quiet(w, h) && next <= |h.g.spec.groupRefs| && Fine(ts, i, |h.g.spec.groupRefs| - next + 6)
    ensures var m := Machine(w, NextGroup(h, w.live[h.id].body.groups, Wanted(h.g.spec.groupRefs[..next], w.outer), next), Failure);
      Ends(w, Drive(m, ts, i), h, Wanted(h.g.spec.groupRefs, w.outer))
    decreases |h.g.spec.groupRefs| - next
  {
    var refs, current := h.g.spec.groupRefs, w.live[h.id].body.groups;
    if next == |refs| {
      assert refs[..next] == refs;
      SetDrive(w, h, Wanted(refs, w.outer), ts, i);
    } else {
      assert refs[..next + 1] == refs[..next] + [refs[next]];
      var k := FetchGroup(h, current, Wanted(refs[..next], w.outer), next);
      WantedOne(refs[..next], refs[next], w.outer);
      assert FetchStep(w, k, ts[i]) == NextGroup(h, current, Wanted(refs[..next + 1], w.outer), next + 1);
      GroupsDrive(w, h, next + 1, ts, i + 1);
    }
  }

  /** From a user at hand to the end. */
  lemma HoldDrive(w: UserWorld, h: Hold, ts: seq<Tick>, i: nat)
    requires Quiet(w, h) && Fine(ts, i, |h.g.spec.groupRefs| + 6)
    ensures Ends(w, Drive(Machine(w, NextGroup(h, w.live[h.id].body.groups, {}, 0), Failure), ts, i), h, Wanted(h.g.spec.groupRefs, w.outer))
  {
    assert h.g.spec.groupRefs[..0] == [];
    assert Wanted([], w.outer) == {};
    GroupsDrive(w, h, 0, ts, i);
  }

  // ---------------------------------------------------------------- the result of a run

  /** Everything the user controller maintains is in place, and the status says so. */
  ghost predicate Settled(w: UserWorld) {
    && w.store.cr.Some?
    && var c := w.store.cr.value;
    && c.finalizer && !c.deleting && c.name == w.setup.key
    && c.status.id != "" && c.status.id in w.live
    && w.live[c.status.id].body.groups == Wanted(c.spec.groupRefs, w.outer)
    && !NeedsLink(c)
    && c.status.ready && c.status.synced && c.status.observed == c.generation && c.status.lastSync.Some?
    && Find(c.status.conditions, "Ready") == Some(Condition("Ready", true, "Synced", c.generation))
  }

  lemma EndsSettled(w: UserWorld, n: UserMachine, h: Hold)
    requires Quiet(w, h) && Ends(w, n, h, Wanted(h.g.spec.groupRefs, w.outer))
    ensures Settled(n.w) && n.w.store.cr.value.status.id == h.id
  {
    SetFind(h.g.status.conditions, Condition("Ready", true, "Synced", h.g.generation), "Ready");
  }

  /** What a run that looked its user up leaves at the server: with an id on record the profile is
      left as found, without one it is what the spec says, under the user's own name. */
  ghost predicate InLine(w: UserWorld, v: UserWorld, g: UserCopy) {
    && v.store.cr.Some?
    && var id, groups := v.store.cr.value.status.id, Wanted(g.spec.groupRefs, w.outer);
    && (g.status.id != "" ==> id == g.status.id && id in w.live && v.live == Grouped(w, id, groups))
    && (g.status.id == "" ==> v.live == w.live[id := Remote(g.name, Body(ProfileOf(g.spec), groups))])
  }

  ghost predicate AtWork(w: UserWorld, g: UserCopy) {
    w.store.cr == Some(g) && g.finalizer && !g.deleting && g.name == w.setup.key && "" !in w.live
  }

  ghost predicate Succeeds(w: UserWorld, n: UserMachine, g: UserCopy, inst: Instance) {
    && n.pc.Idle? && n.last.Success? && Settled(n.w)
    && Concluded(w, n.w, n.w.store.cr.value.status.id)
    && InLine(w, n.w, g) && Linked(w, n.w, n.w.store.cr.value.status.id, inst.appUrl)
  }

  /** The world after a create. */
  function Made(w: UserWorld, g: UserCopy, id: Id): UserWorld {
    w.(live := w.live[id := Remote(w.setup.key, Body(ProfileOf(g.spec), {}))], recorded := w.recorded - {id},
       calls := w.calls + [SentCreate(g.spec, Body(ProfileOf(g.spec), {}), !Unprotected(w))])
  }

  lemma CreateStep(w: UserWorld, g: UserCopy, inst: Instance, t: Tick)
    requires Good(w.live, t)
    ensures var id := t.minted;
      Step(Machine(w, Work(Create(g, inst)), Failure), t)
      == Machine(Made(w, g, id), NextGroup(Hold(g, inst, id, g.status.(id := id)), {}, {}, 0), Failure)
  {
  }

  /** A run that starts from a new user ends as if the user had been there. */
  lemma MadeSucceeds(w: UserWorld, n: UserMachine, g: UserCopy, h: Hold)
    requires w.store.cr == Some(g) && g.status.id == "" && h.g == g && g.name == w.setup.key && h.id != ""
    requires var v := Made(w, g, h.id); Quiet(v, h) && Ends(v, n, h, Wanted(g.spec.groupRefs, w.outer))
    ensures Succeeds(w, n, g, h.inst)
  {
    EndsSettled(Made(w, g, h.id), n, h);
  }

  lemma CreateDrive(w: UserWorld, g: UserCopy, inst: Instance, ts: seq<Tick>, i: nat)
    requires AtWork(w, g) && g.status.id == "" && Fine(ts, i, |g.spec.groupRefs| + 7) && Good(w.live, ts[i])
    ensures Succeeds(w, Drive(Machine(w, Work(Create(g, inst)), Failure), ts, i), g, inst)
  {
    var id := ts[i].minted;
    var h := Hold(g, inst, id, g.status.(id := id));
    var v := Made(w, g, id);
    CreateStep(w, g, inst, ts[i]);
    HoldDrive(v, h, ts, i + 1);
    MadeSucceeds(w, Drive(Machine(v, NextGroup(h, {}, {}, 0), Failure), ts, i + 1), g, h);
  }

  lemma AmendDrive(w: UserWorld, g: UserCopy, inst: Instance, id: Id, ts: seq<Tick>, i: nat)
    requires AtWork(w, g) && g.status.id == "" && id in w.live && Fine(ts, i, |g.spec.groupRefs| + 7)
    ensures Succeeds(w, Drive(Machine(w, Work(Amend(g, inst, id)), Failure), ts, i), g, inst)
  {
    var m1 := Step(Machine(w, Work(Amend(g, inst, id)), Failure), ts[i]);
    var h := Hold(g, inst, id, g.status);
    assert m1.w.live[id] == Remote(w.setup.key, Amended(w, g, id));
    HoldDrive(m1.w, h, ts, i + 1);
    EndsSettled(m1.w, Drive(m1, ts, i + 1), h);
  }

  lemma KeepDrive(w: UserWorld, h: Hold, ts: seq<Tick>, i: nat)
    requires Quiet(w, h) && Fine(ts, i, |h.g.spec.groupRefs| + 6)
    requires h.g.status.id == h.id || (h.g.status.id == "" && !NeedsUpdate(Entry(h.id, w.live[h.id].name, w.live[h.id].body), h.g))
    ensures Succeeds(w, Drive(Machine(w, NextGroup(h, w.live[h.id].body.groups, {}, 0), Failure), ts, i), h.g, h.inst)
  {
    HoldDrive(w, h, ts, i);
    EndsSettled(w, Drive(Machine(w, NextGroup(h, w.live[h.id].body.groups, {}, 0), Failure), ts, i), h);
  }

  lemma DecideDrive(w: UserWorld, g: UserCopy, inst: Instance, found: Option<Entry<Body>>, ts: seq<Tick>, i: nat)
    requires AtWork(w, g) && Fine(ts, i, |g.spec.groupRefs| + 7) && Good(w.live, ts[i])
    requires found.None? ==> g.status.id == ""
    requires found.Some? ==> found.value.id in w.live && w.live[found.value.id] == Remote(found.value.name, found.value.body)
                             && (g.status.id == "" || g.status.id == found.value.id)
    ensures Succeeds(w, Drive(Machine(w, Decide(g, inst, found), Failure), ts, i), g, inst)
  {
    if found.None? {
      CreateDrive(w, g, inst, ts, i);
    } else if g.status.id == "" && NeedsUpdate(found.value, g) {
      AmendDrive(w, g, inst, found.value.id, ts, i);
    } else {
      KeepDrive(w, Hold(g, inst, found.value.id, g.status), ts, i);
    }
  }

  /** A run that gives up: nothing at the server has changed, and the status says not ready. */
  ghost predicate GivesUp(w: UserWorld, n: UserMachine) {
    && n.pc.Idle? && n.last.Failure? && n.w.live == w.live && n.w.calls == w.calls && n.w.own == w.own
    && n.w.store.cr.Some? && !n.w.store.cr.value.status.ready
  }

  lemma BeginDrive(w: UserWorld, g: UserCopy, inst: Instance, ts: seq<Tick>, i: nat)
    requires AtWork(w, g) && Fine(ts, i, |g.spec.groupRefs| + 8) && Good(w.live, ts[i]) && Good(w.live, ts[i + 1])
    ensures var n := Drive(Machine(w, Start(g, inst), Failure), ts, i);
      if g.status.id == "" || g.status.id in w.live then Succeeds(w, n, g, inst) else GivesUp(w, n)
  {
    var m := Machine(w, Start(g, inst), Failure);
    if g.status.id == "" {
      FindSound(ts[i].order, w.live, g.name);
      DecideDrive(w, g, inst, FindByName(List(w, ts[i]).value, g.name), ts, i + 1);
    } else if g.status.id in w.live {
      DecideDrive(w, g, inst, Lookup(w, g.status.id, Ok), ts, i + 1);
    } else {
      var n := Step(m, ts[i]);
      assert n == Machine(w, Fail(g, g.status, "UserSyncFailed"), Failure);
      assert Drive(Step(n, ts[i + 1]), ts, i + 2) == Step(n, ts[i + 1]);
    }
  }

  lemma OpeningDrive(w: UserWorld, ts: seq<Tick>)
    requires w.store.cr.Some? && !w.store.cr.value.deleting
    requires |ts| >= 3 && FaultFree(w.live, ts)
    ensures Reconcile(w, ts) ==
      Drive(Machine(Guarded(w), Start(Guarded(w).store.cr.value, ts[1].gate.inst), Failure), ts, if w.store.cr.value.finalizer then 2 else 3)
  {
    var m := Machine(w, Read, Failure);
    assert Good(w.live, ts[0]) && Good(w.live, ts[1]) && Good(w.live, ts[2]);
    Opening(m, ts[0], ts[1], ts[2]);
    assert Drive(m, ts, 0) == Drive(Step(m, ts[0]), ts, 1) == Drive(Step(Step(m, ts[0]), ts[1]), ts, 2);
  }

  /** Recovery, exactly: an undisturbed reconcile of a user that is not being deleted succeeds if and
      only if its recorded user, when there is one, still exists. It then has exactly the memberships
      the references resolve to, a link if one was due, and, if no id was on record, the profile of
      the spec. Otherwise nothing is sent. */
  lemma Recovery(w: UserWorld, ts: seq<Tick>)
    requires "" !in w.live
    requires w.store.cr.Some? && !w.store.cr.value.deleting && w.store.cr.value.name == w.setup.key
    requires |ts| >= |w.store.cr.value.spec.groupRefs| + 11 && FaultFree(w.live, ts)
    ensures var n := Reconcile(w, ts);
      var g := w.store.cr.value;
      && n.pc.Idle?
      && (n.last.Success? <==> g.status.id == "" || g.status.id in w.live)
      && (n.last.Success? ==> Settled(n.w) && InLine(w, n.w, g) && Linked(w, n.w, n.w.store.cr.value.status.id, ts[1].gate.inst.appUrl))
      && (n.last.Failure? ==> GivesUp(w, n))
  {
    OpeningDrive(w, ts);
    var v, i := Guarded(w), if w.store.cr.value.finalizer then 2 else 3;
    forall j | 0 <= j < |ts| ensures ts[j].outcome.Ok? && Good(v.live, ts[j]) {
      assert Good(w.live, ts[j]);
    }
    BeginDrive(v, v.store.cr.value, ts[1].gate.inst, ts, i);
  }

  /** With the user sheltered from others, every history, however many crashes and failed calls it
      holds, ends in a state from which the next undisturbed reconcile succeeds. */
  lemma RecoveryAfterAnyRun(w: UserWorld, es: seq<UserEvent>, ts: seq<Tick>)
    requires Initial(w) && w.setup.sheltered
    requires var v := Run(Machine(w, Idle, Failure), es).w;
      v.store.cr.Some? && !v.store.cr.value.deleting && |ts| >= |v.store.cr.value.spec.groupRefs| + 11 && FaultFree(v.live, ts)
    ensures var n := Reconcile(Run(Machine(w, Idle, Failure), es).w, ts);
      n.pc.Idle? && n.last.Success? && Settled(n.w)
  {
    RunKeeps(Machine(w, Idle, Failure), es);
    Recovery(Run(Machine(w, Idle, Failure), es).w, ts);
  }

  /** Fixpoint: once settled, with the link recorded or turned off, another undisturbed reconcile
      succeeds, sends no mutating request, touches no Secret, and changes nothing in the resource but
      the time of the last sync and the version. */
  lemma Fixpoint(w: UserWorld, ts: seq<Tick>)
    requires Settled(w)
    requires |ts| >= |w.store.cr.value.spec.groupRefs| + 11 && FaultFree(w.live, ts)
    ensures var n := Reconcile(w, ts);
      && n.pc.Idle? && n.last.Success? && Settled(n.w)
      && n.w.calls == w.calls && n.w.live == w.live && n.w.own == w.own
      && var c, d := w.store.cr.value, n.w.store.cr.value;
      d == c.(status := c.status.(lastSync := d.status.lastSync), version := d.version)
  {
    var c := w.store.cr.value;
    var h := Hold(c, ts[1].gate.inst, c.status.id, c.status);
    forall j | 0 <= j < |ts| ensures ts[j].outcome.Ok? { assert Good(w.live, ts[j]); }
    OpeningDrive(w, ts);
    var m := Machine(w, Start(c, h.inst), Failure);
    assert Step(m, ts[2]) == Machine(w, NextGroup(h, w.live[h.id].body.groups, {}, 0), Failure);
    HoldDrive(w, h, ts, 3);
    EndsSettled(w, Drive(Step(m, ts[2]), ts, 3), h);
    SetSame(c.status.conditions, Condition("Ready", true, "Synced", c.generation));
  }

  // ---------------------------------------------------------------- deletion

  /** Deletion, exactly: an undisturbed reconcile of a guarded resource marked for deletion lets it
      go if and only if nothing is recorded, the recorded user still exists, or the server accepts
      deletes of missing users; the recorded user is then gone as well. */
  lemma Deletion(w: UserWorld, ts: seq<Tick>)
    requires "" !in w.live
    requires w.store.cr.Some? && w.store.cr.value.deleting && w.store.cr.value.finalizer
    requires |ts| >= 4 && FaultFree(w.live, ts)
    ensures var n := Reconcile(w, ts);
      var id := w.store.cr.value.status.id;
      && n.pc.Idle? && n.w.live == w.live - {id}
      && (n.w.store.cr.None? <==> id == "" || id in w.live || w.setup.tolerant)
      && (n.w.store.cr.None? <==> n.last.Success?)
  {
    var g := w.store.cr.value;
    assert Good(w.live, ts[0]) && Good(w.live, ts[1]) && Good(w.live, ts[2]) && Good(w.live, ts[3]);
    var m := Machine(w, Read, Failure);
    var m2 := Step(Step(m, ts[0]), ts[1]);
    assert Drive(m, ts, 0) == Drive(Step(m, ts[0]), ts, 1) == Drive(m2, ts, 2);
    Closing(m2, ts[2]);
    var m3 := Step(m2, ts[2]);
    assert Drive(m2, ts, 2) == Drive(m3, ts, 3);
    if g.status.id == "" {
      assert w.live - {""} == w.live;
    } else {
      if m3.pc.Unfinalize? { Closing(m3, ts[3]); }
      assert Drive(Step(m3, ts[3]), ts, 4) == Step(m3, ts[3]);
    }
  }

  /** A delete that took effect but was reported as failed leaves, at a server that refuses to
      delete what is missing, a resource that no later run can ever let go. */
  lemma {:induction false} DeletionStuck(m: UserMachine, es: seq<UserEvent>, id: Id)
    requires StuckAt(m, id)
    ensures StuckAt(Run(m, es), id)
    decreases |es|
  {
    if es != [] {
      if es[0].Call? { StuckStep(m, es[0].t, id); } else { StuckDisturb(m, es[0], id); }
      DeletionStuck(Apply(m, es[0]), es[1..], id);
    }
  }
}
