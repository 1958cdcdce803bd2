/** The OIDC client controller in its own form: code that changes the resource in memory step by step,
    and is a run of the machine whatever happens while it runs. */
module OIDCController {
  import opened Basics
  import opened Conditions
  import opened Lifecycle
  import opened GroupRefs
  import opened SecurityPolicy
  import opened OIDCClient
  import EqualStrings

  /** The resource in memory, shared by the steps of one run: `g` as the server last returned it, and
      the status as the run has changed it since. */
  class Loaded {
    var g: Client
    var status: SyncStatus<More>

    constructor (g: Client)
      ensures this.g == g && status == g.status
    {
      this.g := g;
      status := g.status;
    }
  }

  /** needsOIDCClientUpdate: true exactly when some compared field differs, lists up to order. */
  method NeedsOIDCClientUpdate(current: Entry<Body>, name: string, target: Body) returns (needed: bool)
    ensures !needed <==>
      (&& current.name == name && current.body.isPublic == target.isPublic && current.body.pkce == target.pkce
       && current.body.restricted == target.restricted
       && multiset(current.body.callbackUrls) == multiset(target.callbackUrls)
       && multiset(Ids(current.body.groups)) == multiset(Ids(target.groups)))
    ensures needed == NeedsUpdate(current.name, current.body, name, target)
  {
    if current.name != name || current.body.isPublic != target.isPublic || current.body.pkce != target.pkce
       || current.body.restricted != target.restricted { return true; }
    var urls := Slice(current.body.callbackUrls);
    var wanted := Slice(target.callbackUrls);
    var sameUrls := EqualStrings.EqualStrings(urls, wanted);
    if !sameUrls { return true; }
    var sameGroups := EqualStrings.EqualUserGroupIDs(current.body.groups, target.groups);
    return !sameGroups;
  }

  method Slice(s: seq<string>) returns (a: array<string>)
    ensures fresh(a) && a[..] == s
  {
    a := new string[|s|](i requires 0 <= i < |s| => s[i]);
  }

  class Controller {
    var w: ClientWorld
    var script: seq<ClientEvent>

    constructor (w: ClientWorld, script: seq<ClientEvent>)
      ensures this.w == w && this.script == script
    {
      this.w := w;
      this.script := script;
    }

    /** Waits for the answer to the next call while others act; None if the process dies first.
        `n` is the machine after that call. */
    method Await(ghost m: ClientMachine) returns (t: Option<Tick>, ghost n: ClientMachine)
      requires m.w == w && !m.pc.Idle?
      modifies this
      ensures t.None? ==> Play(m, old(script)) == (Machine(w, Idle, Failure), script)
      ensures t.Some? ==> n == Step(m.(w := w), t.value) && Play(m, old(script)) == Play(n, script)
    {
      ghost var all := script;
      n := m;
      while script != []
        invariant n == m.(w := w)
        invariant Play(m, all) == Play(n, script)
        decreases |script|
      {
        var ev := script[0];
        script := script[1..];
        if ev.Call? { return Some(ev.t), Step(n, ev.t); }
        if ev.Crash? { return None, n; }
        if ev.Elsewhere? && Rely(w, ev.e) { w := After(w, ev.e); }
        n := m.(w := w);
      }
      return None, n;
    }

    /** updateErrorStatus */
    method UpdateErrorStatus(o: Loaded, reason: string, ghost m: ClientMachine) returns (v: Verdict)
      requires m.w == w && m.pc == Fail(o.g, o.status, reason)
      modifies this, o
      ensures (Machine(w, Idle, v), script) == Play(m, old(script))
    {
      var conditions := new ConditionList(o.status.conditions);
      conditions.SetError(o.g.generation, reason);
      o.status := o.status.(ready := false, synced := false, conditions := conditions.items);
      var t, n := Await(m);
      if t.Some? {
        var written := WriteStatus(w, o.g.(status := o.status), t.value.outcome);
        w := written.0;
      }
      return Failure;
    }

    /** Reconcile */
    method Reconcile() returns (v: Verdict)
      modifies this
      ensures (Machine(w, Idle, v), script) == Play(Machine(old(w), Read, Failure), old(script))
    {
      var t, m := Await(Machine(w, Read, Failure));
      if t.None? || !t.value.outcome.Ok? { return Failure; }
      if w.store.cr.None? { return Success; }
      var o := new Loaded(w.store.cr.value);

      t, m := Await(m);
      if t.None? { return Failure; }
      if !t.value.outcome.Ok? { v := UpdateErrorStatus(o, "InstanceNotFound", m); return; }
      if t.value.gate.Refused? { v := UpdateErrorStatus(o, t.value.gate.reason, m); return; }
      var inst := t.value.gate.inst;

      if o.g.deleting { v := HandleDeletion(o, m); return; }

      if !o.g.finalizer {
        t, m := Await(m);
        if t.None? { return Failure; }
        var updated := WriteMeta(w, o.g.(finalizer := true), t.value.outcome);
        w := updated.0;
        if updated.1.None? { return Failure; }
        o.g := updated.1.value;
        o.status := o.g.status;
      }
      v := Sync(o, inst, m);
    }

    /** handleDeletion */
    method HandleDeletion(o: Loaded, ghost m: ClientMachine) returns (v: Verdict)
      requires o.g.deleting && o.status == o.g.status && m.w == w
      requires m.pc == if !o.g.finalizer then Idle else if o.g.status.id != "" then Discard(o.g) else Unfinalize(o.g)
      requires m.last == if o.g.finalizer then Failure else Success
      modifies this, o
      ensures (Machine(w, Idle, v), script) == Play(m, old(script))
    {
      var t, n := None, m;
      if o.g.finalizer {
        if o.status.id != "" {
          t, n := Await(n);
          if t.None? { return Failure; }
          var dropped := Drop(w, o.status.id, t.value.outcome);
          w := dropped.0;
          if !dropped.1 { v := UpdateErrorStatus(o, w.setup.deleteFailed, n); return; }
        }
        t, n := Await(n);
        if t.None? { return Failure; }
        var updated := WriteMeta(w, o.g.(finalizer := false), t.value.outcome);
        w := updated.0;
        if updated.1.None? { return Failure; }
      }
      return Success;
    }

    /** Reconcile, from the group references on */
    method Sync(o: Loaded, inst: Instance, ghost m: ClientMachine) returns (v: Verdict)
      requires m.w == w && m.pc == Start(o.g, inst) && o.status == o.g.status
      modifies this, o
      ensures (Machine(w, Idle, v), script) == Play(m, old(script))
    {
      var members, n := ResolveAllowedUserGroups(o, inst, m);
      match members
      case Died => return Failure;
      case Broke(reason) => v := UpdateErrorStatus(o, reason, n);
      case Done(allowed) =>
        var id, n1 := ResolveOrCreateClient(o, inst, allowed, n);
        match id
        case Died => return Failure;
        case Broke(reason) => v := UpdateErrorStatus(o, reason, n1);
        case Done(clientId) => v := Finish(o, inst, clientId, n1);
    }

    /** resolveAllowedUserGroups: one list, then one instance lookup for each reference. */
    method ResolveAllowedUserGroups(o: Loaded, inst: Instance, ghost m: ClientMachine)
      returns (r: Progress<seq<Member>>, ghost n: ClientMachine)
      requires m.w == w && m.pc == Start(o.g, inst) && o.status == o.g.status
      modifies this
      ensures r.Died? ==> Play(m, old(script)) == (Machine(w, Idle, Failure), script)
      ensures !r.Died? ==> n.w == w && Play(m, old(script)) == Play(n, script)
      ensures r.Broke? ==> n.pc == Fail(o.g, o.status, r.reason)
      ensures r.Done? ==> n.pc == if o.g.spec.groupRefs == [] then Start(o.g, inst) else Work(Locate(o.g, inst, r.value))
      ensures r.Done? && o.g.spec.groupRefs == [] ==> r.value == []
    {
      var refs := o.g.spec.groupRefs;
      if refs == [] { return Done([]), m; }
      ghost var all := script;
      var t: Option<Tick>;
      t, n := Await(m);
      if t.None? { return Died, n; }
      if !t.value.outcome.Ok? { return Broke("UserGroupListFailed"), n; }
      var groupsByName := w.outer.groups;
      var allowed: seq<Member> := [];
      while |allowed| < |refs|
        invariant |allowed| <= |refs| && n.w == w
        invariant n.pc == NextRef(o.g, inst, groupsByName, allowed)
        invariant Play(m, all) == Play(n, script)
        decreases |refs| - |allowed|
      {
        if refs[|allowed|] !in groupsByName { return Broke("UserGroupNotFound"), n; }
        var group := groupsByName[refs[|allowed|]];
        t, n := Await(n);
        if t.None? { return Died, n; }
        if !t.value.outcome.Ok? { return Broke("UserGroupInstanceNotFound"), n; }
        var one := GroupRefs.Admit(group, w.outer.instances, Key(inst));
        if one.Denied? { return Broke(one.reason), n; }
        allowed := allowed + [one.value];
      }
      return Done(allowed), n;
    }

    /** resolveOrCreateClient: only a create notes the client's id in the in-memory status. */
    method ResolveOrCreateClient(o: Loaded, inst: Instance, members: seq<Member>, ghost m: ClientMachine)
      returns (r: Progress<Id>, ghost n: ClientMachine)
      requires m.w == w && o.status == o.g.status
      requires m.pc == if o.g.spec.groupRefs == [] then Start(o.g, inst) else Work(Locate(o.g, inst, members))
      requires o.g.spec.groupRefs == [] ==> members == []
      modifies this, o`status
      ensures r.Died? ==> Play(m, old(script)) == (Machine(w, Idle, Failure), script)
      ensures !r.Died? ==> n.w == w && Play(m, old(script)) == Play(n, script)
      ensures r.Broke? ==> n.pc == Fail(o.g, o.status, r.reason)
      ensures r.Done? ==> n.pc == ToSecret(Hold(o.g, inst, r.value, o.status))
    {
      var found: Option<Entry<Body>>;
      var t: Option<Tick>;
      t, n := Await(m);
      assert t.Some? ==> n == LocateStep(w, o.g, inst, members, t.value);
      if t.None? { return Died, n; }
      if o.status.id != "" {
        found := Lookup(w, o.status.id, t.value.outcome);
        if found.None? { return Broke("ClientSyncFailed"), n; }
      } else {
        var rows := List(w, t.value);
        if rows.None? { return Broke("ClientSyncFailed"), n; }
        found := FindEntry(rows.value, o.g.name);
      }
      r, n := CreateOrUpdate(o, inst, members, found, n);
    }

    method CreateOrUpdate(o: Loaded, inst: Instance, members: seq<Member>, found: Option<Entry<Body>>, ghost m: ClientMachine)
      returns (r: Progress<Id>, ghost n: ClientMachine)
      requires m.w == w && o.status == o.g.status && m.pc == Decide(o.g, inst, members, found)
      modifies this, o`status
      ensures r.Died? ==> Play(m, old(script)) == (Machine(w, Idle, Failure), script)
      ensures !r.Died? ==> n.w == w && Play(m, old(script)) == Play(n, script)
      ensures r.Broke? ==> n.pc == Fail(o.g, o.status, r.reason)
      ensures r.Done? ==> n.pc == ToSecret(Hold(o.g, inst, r.value, o.status))
    {
      var target := Target(o.g.spec, members);
      var t: Option<Tick>;
      n := m;
      if found.None? {
        t, n := Await(n);
        if t.None? { return Died, n; }
        var made := Make(w, o.g.spec, target, o.g.spec.wantedId, t.value);
        w := Unsecret(w, made.0);
        if made.1.None? { return Broke("ClientSyncFailed"), n; }
        o.status := o.status.(id := made.1.value.id);
        return Done(made.1.value.id), n;
      }
      var needed := NeedsOIDCClientUpdate(found.value, o.g.name, target);
      if needed {
        t, n := Await(n);
        if t.None? { return Died, n; }
        var changed := Change(w, found.value.id, o.g.spec, target, t.value.outcome);
        w := changed.0;
        if changed.1.None? { return Broke("ClientSyncFailed"), n; }
      }
      return Done(found.value.id), n;
    }

    /** Reconcile, from the credentials on */
    method Finish(o: Loaded, inst: Instance, id: Id, ghost m: ClientMachine) returns (v: Verdict)
      requires m.w == w && m.pc == ToSecret(Hold(o.g, inst, id, o.status))
      modifies this, o
      ensures (Machine(w, Idle, v), script) == Play(m, old(script))
    {
      var credentials, n := EnsureCredentialsSecret(o, inst, id, m);
      if !credentials.Done? { return Failure; }
      var policy, n1 := EnsureSecurityPolicy(o, inst, id, n);
      match policy
      case Died => return Failure;
      case Broke(reason) => v := UpdateErrorStatus(o, reason, n1);
      case Done(_) => v := Record(o, inst, id, n1);
    }

    /** ensureCredentialsSecret: an error here ends the run without a status write. */
    method EnsureCredentialsSecret(o: Loaded, inst: Instance, id: Id, ghost m: ClientMachine)
      returns (r: Progress<()>, ghost n: ClientMachine)
      requires m.w == w && m.pc == ToSecret(Hold(o.g, inst, id, o.status))
      modifies this, o`status
      ensures !r.Done? ==> Play(m, old(script)) == (Machine(w, Idle, Failure), script)
      ensures r.Done? ==> n.w == w && Play(m, old(script)) == Play(n, script)
      ensures r.Done? ==> n.pc == ToPolicy(Hold(o.g, inst, id, o.status))
    {
      n := m;
      if o.g.spec.isPublic || o.g.spec.secretRef.None? { return Done(()), n; }
      var secretName := o.g.spec.secretRef.value;
      var t: Option<Tick>;
      t, n := Await(n);
      if t.None? || !t.value.outcome.Ok? { return Died, n; }
      var secretNeedsCreate := secretName !in w.own.secrets;
      if !secretNeedsCreate && w.own.secrets[secretName].secret.Some? { return Done(()), n; }
      assert n.pc == Work(Generate(Hold(o.g, inst, id, o.status), !secretNeedsCreate));
      var clientSecret: Option<string>;
      clientSecret, n := GenerateClientSecret(o, inst, id, secretNeedsCreate, n);
      if clientSecret.None? { return Died, n; }
      r, n := StoreCredentials(o, inst, id, secretNeedsCreate, clientSecret.value, n);
    }

    /** The Secret's new values, written in one call, and its name noted in memory. */
    method StoreCredentials(o: Loaded, inst: Instance, id: Id, create: bool, clientSecret: string, ghost m: ClientMachine)
      returns (r: Progress<()>, ghost n: ClientMachine)
      requires m.w == w && o.g.spec.secretRef.Some? && m.pc == Work(WriteSecret(Hold(o.g, inst, id, o.status), !create, clientSecret))
      modifies this, o`status
      ensures !r.Done? ==> Play(m, old(script)) == (Machine(w, Idle, Failure), script)
      ensures r.Done? ==> n.w == w && Play(m, old(script)) == Play(n, script)
      ensures r.Done? ==> n.pc == ToPolicy(Hold(o.g, inst, id, o.status))
    {
      var secretName := o.g.spec.secretRef.value;
      var t: Option<Tick>;
      t, n := Await(m);
      if t.None? || t.value.outcome.Lost? || (secretName in w.own.secrets) == create { return Died, n; }
      var data := SecretData(Some(id), Some(clientSecret), Some(inst.appUrl), Some(clientSecret));
      w := w.(own := w.own.(secrets := w.own.secrets[secretName := data]));
      if t.value.outcome.Late? { return Died, n; }
      o.status := o.status.(more := o.status.more.(secretName := secretName));
      return Done(()), n;
    }

    /** The call that makes the server's current secret a new one; None if the run ends here. */
    method GenerateClientSecret(o: Loaded, inst: Instance, id: Id, create: bool, ghost m: ClientMachine)
      returns (value: Option<string>, ghost n: ClientMachine)
      requires m.w == w && o.g.spec.secretRef.Some? && m.pc == Work(Generate(Hold(o.g, inst, id, o.status), !create))
      modifies this
      ensures value.None? ==> Play(m, old(script)) == (Machine(w, Idle, Failure), script)
      ensures value.Some? ==> n.w == w && Play(m, old(script)) == Play(n, script)
      ensures value.Some? ==> n.pc == Work(WriteSecret(Hold(o.g, inst, id, o.status), !create, value.value))
    {
      var t: Option<Tick>;
      t, n := Await(m);
      if t.None? { return None, n; }
      w := w.(calls := w.calls + [SentOther(id)]);
      if t.value.outcome.Lost? || id !in w.live { return None, n; }
      w := w.(own := w.own.(current := w.own.current[id := t.value.minted]));
      if t.value.outcome.Late? { return None, n; }
      return Some(t.value.minted), n;
    }

    /** ensureSecurityPolicy */
    method EnsureSecurityPolicy(o: Loaded, inst: Instance, id: Id, ghost m: ClientMachine)
      returns (r: Progress<()>, ghost n: ClientMachine)
      requires m.w == w && m.pc == ToPolicy(Hold(o.g, inst, id, o.status))
      modifies this, o`status
      ensures r.Died? ==> Play(m, old(script)) == (Machine(w, Idle, Failure), script)
      ensures !r.Died? ==> n.w == w && Play(m, old(script)) == Play(n, script)
      ensures r.Broke? ==> n.pc == Fail(o.g, o.status, r.reason)
      ensures r.Done? ==> n.pc == Work(Refetch(Hold(o.g, inst, id, o.status)))
    {
      if !EnvoyOn(o.g.spec) {
        r, n := RemoveSecurityPolicy(o, inst, id, m);
        return;
      }
      n := m;
      var eg := o.g.spec.envoy.value;
      if o.status.id == "" || o.status.more.secretName == "" || eg.routeRef.None? { return Broke("SecurityPolicyFailed"), n; }
      var route := RouteOf(o.g.spec);
      var t: Option<Tick>;
      t, n := Await(n);
      if t.None? { return Died, n; }
      if !t.value.outcome.Ok? || route !in w.outer.routes { return Broke("SecurityPolicyFailed"), n; }
      var desired := Build(o.g.spec.objectName, o.g.spec.namespace, eg, o.status.id, o.status.more.secretName,
                           inst.appUrl, route.name, w.outer.routes[route]);
      if desired.None? { return Broke("SecurityPolicyFailed"), n; }
      r, n := ApplyPolicy(o, inst, id, desired.value, n);
    }

    /** ensureSecurityPolicy, with the policy at hand: read what is there, then create or overwrite. */
    method ApplyPolicy(o: Loaded, inst: Instance, id: Id, desired: Policy, ghost m: ClientMachine)
      returns (r: Progress<()>, ghost n: ClientMachine)
      requires m.w == w && m.pc == Work(ReadPolicy(Hold(o.g, inst, id, o.status), desired))
      modifies this, o`status
      ensures r.Died? ==> Play(m, old(script)) == (Machine(w, Idle, Failure), script)
      ensures !r.Died? ==> n.w == w && Play(m, old(script)) == Play(n, script)
      ensures r.Broke? ==> n.pc == Fail(o.g, o.status, r.reason)
      ensures r.Done? ==> n.pc == Work(Refetch(Hold(o.g, inst, id, o.status)))
    {
      var t: Option<Tick>;
      t, n := Await(m);
      if t.None? { return Died, n; }
      if !t.value.outcome.Ok? { return Broke("SecurityPolicyFailed"), n; }
      t, n := Await(n);
      if t.None? { return Died, n; }
      if t.value.outcome.Lost? { return Broke("SecurityPolicyFailed"), n; }
      w := w.(own := w.own.(policy := Some(desired)));
      if t.value.outcome.Late? { return Broke("SecurityPolicyFailed"), n; }
      o.status := o.status.(more := o.status.more.(policyName := o.g.spec.objectName));
      return Done(()), n;
    }

    /** ensureSecurityPolicy, with Envoy off: the recorded name goes even if the policy was not found
        or could not be read. */
    method RemoveSecurityPolicy(o: Loaded, inst: Instance, id: Id, ghost m: ClientMachine)
      returns (r: Progress<()>, ghost n: ClientMachine)
      requires m.w == w && m.pc == ToPolicy(Hold(o.g, inst, id, o.status)) && !EnvoyOn(o.g.spec)
      modifies this, o`status
      ensures r.Died? ==> Play(m, old(script)) == (Machine(w, Idle, Failure), script)
      ensures !r.Died? ==> n.w == w && Play(m, old(script)) == Play(n, script)
      ensures r.Broke? ==> n.pc == Fail(o.g, o.status, r.reason)
      ensures r.Done? ==> n.pc == Work(Refetch(Hold(o.g, inst, id, o.status)))
    {
      n := m;
      if o.status.more.policyName != "" {
        var t: Option<Tick>;
        t, n := Await(n);
        if t.None? { return Died, n; }
        if t.value.outcome.Ok? && w.own.policy.Some? {
          t, n := Await(n);
          if t.None? { return Died, n; }
          if t.value.outcome.Lost? || w.own.policy.None? { return Broke("SecurityPolicyFailed"), n; }
          w := w.(own := w.own.(policy := None));
          if t.value.outcome.Late? { return Broke("SecurityPolicyFailed"), n; }
        }
        o.status := o.status.(more := o.status.more.(policyName := ""));
      }
      return Done(()), n;
    }

    /** The end of Reconcile: re-read the resource and write what the run has learnt over it. */
    method Record(o: Loaded, inst: Instance, id: Id, ghost m: ClientMachine) returns (v: Verdict)
      requires m.w == w && m.pc == Work(Refetch(Hold(o.g, inst, id, o.status)))
      modifies this, o
      ensures (Machine(w, Idle, v), script) == Play(m, old(script))
    {
      var more := o.status.more;
      var t, n := Await(m);
      if t.None? || !t.value.outcome.Ok? || w.store.cr.None? { return Failure; }
      o.g := w.store.cr.value;
      var conditions := new ConditionList(o.g.status.conditions);
      conditions.SetSynced(o.g.generation);
      o.status := o.g.status.(id := id, more := more, ready := true, synced := true,
                              lastSync := Some(t.value.now), conditions := conditions.items);
      t, n := Await(n);
      if t.None? { return Failure; }
      var written := WriteStatus(w, o.g.(status := o.status), t.value.outcome);
      w := written.0;
      return if written.1 then Success else Failure;
    }
  }
}
