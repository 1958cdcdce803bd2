/** The user controller in its own form: code that changes the resource in memory step by step, and is
    a run of the machine whatever happens while it runs. */
module UserController {
  import opened Basics
  import opened Conditions
  import opened Lifecycle
  import opened User
  import Membership

  /** The resource in memory, shared by the steps of one run: `g` as the server last returned it, and
      the status as the run has changed it since. */
  class Loaded {
    var g: UserCopy
    var status: SyncStatus<Onboarding>

    constructor (g: UserCopy)
      ensures this.g == g && status == g.status
    {
      this.g := g;
      status := g.status;
    }
  }

  /** stringPtrEqual */
  predicate StringPtrEqual(a: Option<string>, b: Option<string>) {
    if a.None? && b.None? then true
    else if a.None? || b.None? then false
    else a.value == b.value
  }

  /** needsUserUpdate: true exactly when the name or some profile field differs, absent fields being
      equal to absent fields only. */
  method NeedsUserUpdate(current: Entry<Body>, name: string, target: Profile) returns (needed: bool)
    ensures needed <==> current.name != name || current.body.profile != target
  {
    var profile := current.body.profile;
    if current.name != name { return true; }
    if !StringPtrEqual(profile.email, target.email) { return true; }
    if profile.firstName != target.firstName { return true; }
    if !StringPtrEqual(profile.lastName, target.lastName) { return true; }
    if profile.displayName != target.displayName { return true; }
    if profile.isAdmin != target.isAdmin { return true; }
    if profile.disabled != target.disabled { return true; }
    if !StringPtrEqual(profile.locale, target.locale) { return true; }
    return false;
  }

  class Controller {
    var w: UserWorld
    var script: seq<UserEvent>

    constructor (w: UserWorld, script: seq<UserEvent>)
      ensures this.w == w && this.script == script
    {
      this.w := w;
      this.script := script;
    }

    /** Waits for the answer to the next call while others act; None if the process dies first.
        `n` is the machine after that call. */
    method Await(ghost m: UserMachine) returns (t: Option<Tick>, ghost n: UserMachine)
      requires m.w == w && !m.pc.Idle?
      modifies this
      ensures t.None? ==> Play(m, old(script)) == (Machine(w, Idle, Failure), script)
      ensures t.Some? ==> n == Step(m.(w := w), t.value) && Play(m, old(script)) == Play(n, script)
    {
      ghost var all := script;
      n := m;
      while script != []
        invariant n == m.(w := w)
        invariant Play(m, all) == Play(n, script)
        decreases |script|
      {
        var ev := script[0];
        script := script[1..];
        if ev.Call? { return Some(ev.t), Step(n, ev.t); }
        if ev.Crash? { return None, n; }
        if ev.Elsewhere? && Rely(w, ev.e) { w := After(w, ev.e); }
        n := m.(w := w);
      }
      return None, n;
    }

    /** updateErrorStatus */
    method UpdateErrorStatus(o: Loaded, reason: string, ghost m: UserMachine) returns (v: Verdict)
      requires m.w == w && m.pc == Fail(o.g, o.status, reason)
      modifies this, o
      ensures (Machine(w, Idle, v), script) == Play(m, old(script))
    {
      var conditions := new ConditionList(o.status.conditions);
      conditions.SetError(o.g.generation, reason);
      o.status := o.status.(ready := false, synced := false, conditions := conditions.items);
      var t, n := Await(m);
      if t.Some? {
        var written := WriteStatus(w, o.g.(status := o.status), t.value.outcome);
        w := written.0;
      }
      return Failure;
    }

    /** Reconcile */
    method Reconcile() returns (v: Verdict)
      modifies this
      ensures (Machine(w, Idle, v), script) == Play(Machine(old(w), Read, Failure), old(script))
    {
      var t, m := Await(Machine(w, Read, Failure));
      if t.None? || !t.value.outcome.Ok? { return Failure; }
      if w.store.cr.None? { return Success; }
      var o := new Loaded(w.store.cr.value);

      t, m := Await(m);
      if t.None? { return Failure; }
      if !t.value.outcome.Ok? { v := UpdateErrorStatus(o, "InstanceNotFound", m); return; }
      if t.value.gate.Refused? { v := UpdateErrorStatus(o, t.value.gate.reason, m); return; }
      var inst := t.value.gate.inst;

      if o.g.deleting { v := HandleDeletion(o, m); return; }

      if !o.g.finalizer {
        t, m := Await(m);
        if t.None? { return Failure; }
        var updated := WriteMeta(w, o.g.(finalizer := true), t.value.outcome);
        w := updated.0;
        if updated.1.None? { return Failure; }
        o.g := updated.1.value;
        o.status := o.g.status;
      }
      v := Sync(o, inst, m);
    }

    /** handleDeletion */
    method HandleDeletion(o: Loaded, ghost m: UserMachine) returns (v: Verdict)
      requires o.g.deleting && o.status == o.g.status && m.w == w
      requires m.pc == if !o.g.finalizer then Idle else if o.g.status.id != "" then Discard(o.g) else Unfinalize(o.g)
      requires m.last == if o.g.finalizer then Failure else Success
      modifies this, o
      ensures (Machine(w, Idle, v), script) == Play(m, old(script))
    {
      var t, n := None, m;
      if o.g.finalizer {
        if o.status.id != "" {
          t, n := Await(n);
          if t.None? { return Failure; }
          var dropped := Drop(w, o.status.id, t.value.outcome);
          w := dropped.0;
          if !dropped.1 { v := UpdateErrorStatus(o, w.setup.deleteFailed, n); return; }
        }
        t, n := Await(n);
        if t.None? { return Failure; }
        var updated := WriteMeta(w, o.g.(finalizer := false), t.value.outcome);
        w := updated.0;
        if updated.1.None? { return Failure; }
      }
      return Success;
    }

    /** Reconcile, from the user on */
    method Sync(o: Loaded, inst: Instance, ghost m: UserMachine) returns (v: Verdict)
      requires m.w == w && m.pc == Start(o.g, inst) && o.status == o.g.status
      modifies this, o
      ensures (Machine(w, Idle, v), script) == Play(m, old(script))
    {
      var user, n := ResolveOrCreateUser(o, inst, m);
      match user
      case Died => return Failure;
      case Broke(reason) => v := UpdateErrorStatus(o, reason, n);
      case Done(found) =>
        var memberships, n1 := SyncGroupMemberships(o, inst, found, n);
        match memberships
        case Died => return Failure;
        case Broke(reason) => v := UpdateErrorStatus(o, reason, n1);
        case Done(_) =>
          var onboarding, n2 := ReconcileOnboarding(o, inst, found.id, n1);
          if onboarding.None? { return Failure; }
          v := Record(o, inst, found.id, onboarding.value, n2);
    }

    /** resolveOrCreateUser: a recorded user is taken as it is. */
    method ResolveOrCreateUser(o: Loaded, inst: Instance, ghost m: UserMachine)
      returns (r: Progress<Entry<Body>>, ghost n: UserMachine)
      requires m.w == w && m.pc == Start(o.g, inst) && o.status == o.g.status
      modifies this, o`status
      ensures r.Died? ==> Play(m, old(script)) == (Machine(w, Idle, Failure), script)
      ensures !r.Died? ==> n.w == w && Play(m, old(script)) == Play(n, script)
      ensures r.Broke? ==> n.pc == Fail(o.g, o.status, r.reason)
      ensures r.Done? ==> n.pc == NextGroup(Hold(o.g, inst, r.value.id, o.status), r.value.body.groups, {}, 0)
    {
      var t: Option<Tick>;
      t, n := Await(m);
      if t.None? { return Died, n; }
      if o.status.id != "" {
        var recorded := Lookup(w, o.status.id, t.value.outcome);
        if recorded.None? { return Broke("UserSyncFailed"), n; }
        return Done(recorded.value), n;
      }
      var rows := List(w, t.value);
      if rows.None? { return Broke("UserSyncFailed"), n; }
      var found := FindEntry(rows.value, o.g.name);
      r, n := CreateOrUpdate(o, inst, found, n);
    }

    method CreateOrUpdate(o: Loaded, inst: Instance, found: Option<Entry<Body>>, ghost m: UserMachine)
      returns (r: Progress<Entry<Body>>, ghost n: UserMachine)
      requires m.w == w && o.status == o.g.status && o.g.status.id == "" && m.pc == Decide(o.g, inst, found)
      modifies this, o`status
      ensures r.Died? ==> Play(m, old(script)) == (Machine(w, Idle, Failure), script)
      ensures !r.Died? ==> n.w == w && Play(m, old(script)) == Play(n, script)
      ensures r.Broke? ==> n.pc == Fail(o.g, o.status, r.reason)
      ensures r.Done? ==> n.pc == NextGroup(Hold(o.g, inst, r.value.id, o.status), r.value.body.groups, {}, 0)
    {
      var t: Option<Tick>;
      n := m;
      if found.None? {
        t, n := Await(n);
        if t.None? { return Died, n; }
        var made := Make(w, o.g.spec, Body(ProfileOf(o.g.spec), {}), "", t.value);
        w := made.0;
        if made.1.None? { return Broke("UserSyncFailed"), n; }
        o.status := o.status.(id := made.1.value.id);
        return Done(made.1.value), n;
      }
      var needed := NeedsUserUpdate(found.value, o.g.name, ProfileOf(o.g.spec));
      if needed {
        t, n := Await(n);
        if t.None? { return Died, n; }
        var changed := Change(w, found.value.id, o.g.spec, Amended(w, o.g, found.value.id), t.value.outcome);
        w := changed.0;
        if changed.1.None? { return Broke("UserSyncFailed"), n; }
        return Done(changed.1.value), n;
      }
      return Done(found.value), n;
    }

    /** syncGroupMemberships: a group that cannot be fetched, or has no id yet, is skipped. */
    method SyncGroupMemberships(o: Loaded, inst: Instance, user: Entry<Body>, ghost m: UserMachine)
      returns (r: Progress<()>, ghost n: UserMachine)
      requires m.w == w && m.pc == NextGroup(Hold(o.g, inst, user.id, o.status), user.body.groups, {}, 0)
      modifies this
      ensures r.Died? ==> Play(m, old(script)) == (Machine(w, Idle, Failure), script)
      ensures !r.Died? ==> n.w == w && Play(m, old(script)) == Play(n, script)
      ensures r.Broke? ==> n.pc == Fail(o.g, o.status, r.reason)
      ensures r.Done? ==> n.pc == ToOnboarding(Hold(o.g, inst, user.id, o.status))
    {
      ghost var all, h := script, Hold(o.g, inst, user.id, o.status);
      var refs := o.g.spec.groupRefs;
      var desiredGroupIDs: set<Id> := {};
      var t: Option<Tick>;
      var next := 0;
      n := m;
      while next < |refs|
        invariant 0 <= next <= |refs| && n.w == w
        invariant n.pc == NextGroup(h, user.body.groups, desiredGroupIDs, next)
        invariant Play(m, all) == Play(n, script)
      {
        t, n := Await(n);
        if t.None? { return Died, n; }
        if t.value.outcome.Ok? && refs[next] in w.outer && w.outer[refs[next]] != "" {
          desiredGroupIDs := desiredGroupIDs + {w.outer[refs[next]]};
        }
        next := next + 1;
      }
      var request := Membership.Request(desiredGroupIDs, user.body.groups);
      if request.None? { return Done(()), n; }
      t, n := Await(n);
      if t.None? { return Died, n; }
      w := w.(calls := w.calls + [SentOther(user.id)]);
      if t.value.outcome.Lost? || user.id !in w.live { return Broke("GroupSyncFailed"), n; }
      var member := w.live[user.id];
      w := w.(live := w.live[user.id := member.(body := member.body.(groups := Membership.Elements(request.value)))]);
      if t.value.outcome.Late? { return Broke("GroupSyncFailed"), n; }
      return Done(()), n;
    }

    /** reconcileOnboarding: errors are logged and leave the flags as they were; None if the process
        dies. */
    method ReconcileOnboarding(o: Loaded, inst: Instance, id: Id, ghost m: UserMachine)
      returns (r: Option<Onboarding>, ghost n: UserMachine)
      requires m.w == w && m.pc == ToOnboarding(Hold(o.g, inst, id, o.status))
      modifies this
      ensures r.None? ==> Play(m, old(script)) == (Machine(w, Idle, Failure), script)
      ensures r.Some? ==> n.w == w && Play(m, old(script)) == Play(n, script)
      ensures r.Some? ==> n.pc == Work(Refetch(Hold(o.g, inst, id, o.status), r.value))
    {
      var result := o.status.more;
      var secretName := SecretName(o.g.spec);
      n := m;
      if secretName == "" || result.linkCreated { return Some(result), n; }
      var t: Option<Tick>;
      t, n := Await(n);
      if t.None? { return None, n; }
      w := w.(calls := w.calls + [SentOther(id)]);
      if t.value.outcome.Lost? || id !in w.live { return Some(result), n; }
      w := w.(own := w.own.(tokens := w.own.tokens + [Token(id, t.value.minted)]));
      if t.value.outcome.Late? { return Some(result), n; }
      var stored, now: nat;
      stored, now, n := StoreOneTimeAccessLink(o, inst, id, secretName, t.value.minted, n);
      if stored.None? { return None, n; }
      if !stored.value { return Some(result), n; }
      result := result.(linkCreated := true);
      if o.g.spec.sendEmail && !result.emailSent {
        result := result.(emailSent := true, sentAt := Some(now));
      }
      return Some(result), n;
    }

    /** storeOneTimeAccessLink: a failed read counts as absent; a create fails if the Secret exists,
        an update if it does not. `now` is the clock after the write. */
    method StoreOneTimeAccessLink(o: Loaded, inst: Instance, id: Id, secretName: string, token: string, ghost m: UserMachine)
      returns (stored: Option<bool>, now: nat, ghost n: UserMachine)
      requires m.w == w && m.pc == Work(ReadLink(Hold(o.g, inst, id, o.status), token)) && secretName == SecretName(o.g.spec)
      modifies this
      ensures stored.None? ==> Play(m, old(script)) == (Machine(w, Idle, Failure), script)
      ensures stored.Some? ==> n.w == w && Play(m, old(script)) == Play(n, script)
      ensures var h := Hold(o.g, inst, id, o.status);
        stored.Some? ==> n.pc == Work(Refetch(h, if stored.value then Noted(h, now) else o.status.more))
    {
      var t: Option<Tick>;
      now := 0;
      var link := inst.appUrl + "/login/" + token;
      t, n := Await(m);
      if t.None? { return None, now, n; }
      var present := t.value.outcome.Ok? && secretName in w.own.links;
      t, n := Await(n);
      if t.None? { return None, now, n; }
      now := t.value.now;
      if t.value.outcome.Lost? || (secretName in w.own.links) != present { return Some(false), now, n; }
      w := w.(own := w.own.(links := w.own.links[secretName := link],
                            writes := w.own.writes + [LinkWrite(secretName, id, token, inst.appUrl, link)]));
      return Some(t.value.outcome.Ok?), now, n;
    }

    /** The end of Reconcile: re-read the resource and write what the run has learnt over it. */
    method Record(o: Loaded, inst: Instance, id: Id, onboarding: Onboarding, ghost m: UserMachine) returns (v: Verdict)
      requires m.w == w && m.pc == Work(Refetch(Hold(o.g, inst, id, o.status), onboarding))
      modifies this, o
      ensures (Machine(w, Idle, v), script) == Play(m, old(script))
    {
      var t, n := Await(m);
      if t.None? || !t.value.outcome.Ok? || w.store.cr.None? { return Failure; }
      o.g := w.store.cr.value;
      o.status := o.g.status;
      NoteSuccess(o, id, onboarding, t.value.now);
      assert n.pc == Report(o.g, o.status, Success);
      t, n := Await(n);
      if t.None? { return Failure; }
      var written := WriteStatus(w, o.g.(status := o.status), t.value.outcome);
      w := written.0;
      return if written.1 then Success else Failure;
    }

    /** The in-memory status of a successful run. */
    method NoteSuccess(o: Loaded, id: Id, onboarding: Onboarding, now: nat)
      requires o.status == o.g.status
      modifies o`status
      ensures o.status == Synced(o.g.status, o.g.generation, id, now, true, Joined(o.g.status.more, onboarding))
    {
      o.status := o.status.(id := id, ready := true, synced := true, lastSync := Some(now), observed := o.g.generation);
      var more := o.status.more;
      more := more.(linkCreated := more.linkCreated || onboarding.linkCreated, emailSent := more.emailSent || onboarding.emailSent);
      if onboarding.sentAt.Some? { more := more.(sentAt := onboarding.sentAt); }
      o.status := o.status.(more := more);
      var conditions := new ConditionList(o.status.conditions);
      conditions.SetSynced(o.g.generation);
      o.status := o.status.(conditions := conditions.items);
    }
  }
}
