/** The instance controller in its own form: code that changes the instance in memory step by step, and
    is a run of the machine whatever happens while it runs. */
module InstallationController {
  import opened Basics
  import opened Conditions
  import opened Kube
  import opened Installation

  /** The resource in memory: `g` as read, and the status as the run has changed it since, its
      condition list behind a pointer. */
  class Loaded {
    const g: Copy
    var ready: bool
    const conditions: ConditionList
    var observed: nat
    var internalUrl: string
    var apiKeyName: string

    constructor (g: Copy)
      ensures this.g == g && Now() == g.status && fresh(conditions)
    {
      this.g := g;
      ready, observed, internalUrl, apiKeyName := g.status.ready, g.status.observed, g.status.internalUrl, g.status.apiKeyName;
      conditions := new ConditionList(g.status.conditions);
    }

    function Now(): Status
      reads this, conditions
    {
      Status(ready, conditions.items, observed, internalUrl, apiKeyName)
    }
  }

  class Controller {
    var w: World
    var script: seq<Event>

    constructor (w: World, script: seq<Event>)
      ensures this.w == w && this.script == script
    {
      this.w := w;
      this.script := script;
    }

    /** Waits for the answer to the next call while others act; None if the process dies first.
        `n` is the machine after that call. */
    method Await(ghost m: Machine) returns (t: Option<Tick>, ghost n: Machine)
      requires m.w == w && !m.pc.Idle?
      modifies this
      ensures t.None? ==> Play(m, old(script)) == (Machine(w, Idle, Failure), script)
      ensures t.Some? ==> n == Step(m.(w := w), t.value) && Play(m, old(script)) == Play(n, script)
      ensures w.name == old(w).name && w.namespace == old(w).namespace
    {
      ghost var all := script;
      n := m;
      while script != []
        invariant n == m.(w := w)
        invariant Play(m, all) == Play(n, script)
        invariant w.name == m.w.name && w.namespace == m.w.namespace
        decreases |script|
      {
        var ev := script[0];
        script := script[1..];
        if ev.Call? { return Some(ev.t), Step(n, ev.t); }
        if ev.Crash? { return None, n; }
        if ev.Elsewhere? && Rely(w, ev.e) { w := After(w, ev.e); }
        n := m.(w := w);
      }
      return None, n;
    }

    /** setDegradedCondition */
    method SetDegradedCondition(o: Loaded, reason: string, ghost m: Machine) returns (v: Verdict)
      requires m.w == w && m.pc == Degraded(o.g, o.Now(), reason)
      modifies this, o, o.conditions
      ensures (Machine(w, Idle, v), script) == Play(m, old(script))
    {
      o.ready := false;
      o.conditions.SetStatusCondition(Condition("Degraded", true, reason, o.g.generation));
      v := Write(o, Failure, m);
    }

    /** Status().Update, as the last call of a run; a failed write makes the run fail. */
    method Write(o: Loaded, verdict: Verdict, ghost m: Machine) returns (v: Verdict)
      requires m.w == w && m.pc == Report(o.g, o.Now(), verdict)
      modifies this
      ensures (Machine(w, Idle, v), script) == Play(m, old(script))
    {
      var t, n := Await(m);
      if t.None? { return Failure; }
      var written := PutStatus(w.store, o.g.(status := o.Now()), t.value.outcome);
      w := w.(store := written.0);
      return if written.1 then verdict else Failure;
    }

    /** Reconcile */
    method Reconcile() returns (v: Verdict)
      modifies this
      ensures (Machine(w, Idle, v), script) == Play(Machine(old(w), Read, Failure), old(script))
    {
      var t, m := Await(Machine(w, Read, Failure));
      if t.None? || !t.value.outcome.Ok? { return Failure; }
      if w.store.cr.None? { return Success; }
      var o := new Loaded(w.store.cr.value);

      if o.g.deleting { v := HandleDeletion(o, m); return; }

      if !o.g.finalizer {
        t, m := Await(m);
        if t.None? { return Failure; }
        var updated := PutMeta(w.store, o.g.(finalizer := true), t.value.outcome);
        w := w.(store := updated.0);
        return if updated.1.Some? then Success else Failure;
      }

      v := Sync(o, m);
    }

    /** Reconcile, from the Secrets on */
    method Sync(o: Loaded, ghost m: Machine) returns (v: Verdict)
      requires m.w == w && o.Now() == o.g.status && o.g.finalizer && !o.g.deleting && m.pc == AfterRead(o.g)
      modifies this, o, o.conditions
      ensures (Machine(w, Idle, v), script) == Play(m, old(script))
    {
      var secrets, n := ReconcileSecrets(o, m);
      if secrets.Died? { return Failure; }
      if secrets.Broke? { v := SetDegradedCondition(o, secrets.reason, n); return; }
      var deployed: Progress<()>;
      deployed, n := Deployments(o, n);
      if deployed.Died? { return Failure; }
      if deployed.Broke? { v := SetDegradedCondition(o, deployed.reason, n); return; }
      var initialized: Progress<()>;
      initialized, n := InitializeInstance(o, n);
      if initialized.Died? { return Failure; }
      if initialized.Broke? {
        o.ready := false;
        v := SetDegradedCondition(o, initialized.reason, n);
        return;
      }
      v := UpdateStatus(o, n);
    }

    /** handleDeletion: nothing to clean up but the finalizer. */
    method HandleDeletion(o: Loaded, ghost m: Machine) returns (v: Verdict)
      requires m.w == w && o.g.deleting && m.pc == AfterRead(o.g) && m.last == if o.g.finalizer then Failure else Success
      modifies this
      ensures (Machine(w, Idle, v), script) == Play(m, old(script))
    {
      if o.g.finalizer {
        var t, n := Await(m);
        if t.None? { return Failure; }
        var updated := PutMeta(w.store, o.g.(finalizer := false), t.value.outcome);
        w := w.(store := updated.0);
        if updated.1.None? { return Failure; }
      }
      return Success;
    }

    /** reconcileSecrets: each generated Secret is created if it is absent, and never written again. */
    method ReconcileSecrets(o: Loaded, ghost m: Machine) returns (r: Progress<()>, ghost n: Machine)
      requires m.w == w && o.Now() == o.g.status && o.g.finalizer && !o.g.deleting && m.pc == AfterRead(o.g)
      modifies this, o`apiKeyName
      ensures r.Died? ==> Play(m, old(script)) == (Machine(w, Idle, Failure), script)
      ensures !r.Died? ==> n.w == w && Play(m, old(script)) == Play(n, script)
      ensures r.Broke? ==> n.pc == Degraded(o.g, o.Now(), r.reason)
      ensures r.Done? ==> n.pc == Deploy(o.g, o.Now(), ConfigMap)
    {
      n := m;
      if o.g.spec.encryptionRef.None? {
        r, n := EnsureKey(o, true, n);
        if !r.Done? { return; }
      }
      if o.g.spec.apiKeyRef.None? {
        r, n := EnsureKey(o, false, n);
        if !r.Done? { return; }
        o.apiKeyName := ApiKeyName(w);
      } else {
        o.apiKeyName := o.g.spec.apiKeyRef.value;
      }
      return Done(()), n;
    }

    /** One half of reconcileSecrets: get, and create if not found. */
    method EnsureKey(o: Loaded, encryption: bool, ghost m: Machine) returns (r: Progress<()>, ghost n: Machine)
      requires m.w == w && m.pc == if encryption then ReadEncryptionKey(o.g, o.Now()) else ReadApiKey(o.g, o.Now())
      modifies this
      ensures r.Died? ==> Play(m, old(script)) == (Machine(w, Idle, Failure), script)
      ensures !r.Died? ==> n.w == w && Play(m, old(script)) == Play(n, script)
      ensures r.Broke? ==> n.pc == Degraded(o.g, o.Now(), r.reason)
      ensures r.Done? ==> n.pc == if encryption then ToApiKey(o.g, o.Now()) else Deploy(o.g, o.Now().(apiKeyName := ApiKeyName(w)), ConfigMap)
    {
      var name := if encryption then EncryptionKeyName(w) else ApiKeyName(w);
      var t: Option<Tick>;
      t, n := Await(m);
      if t.None? { return Died, n; }
      if !t.value.outcome.Ok? { return Broke("SecretsReconcileFailed"), n; }
      if name in w.secrets { return Done(()), n; }
      t, n := Await(n);
      if t.None? { return Died, n; }
      if t.value.outcome.Lost? || name in w.secrets { return Broke("SecretsReconcileFailed"), n; }
      w := w.(secrets := w.secrets[name := Minted(encryption, t.value.minted)]);
      if t.value.outcome.Late? { return Broke("SecretsReconcileFailed"), n; }
      return Done(()), n;
    }

    /** reconcileConfigMap, reconcileService and reconcileStatefulSet, by whether they succeed. */
    method Deployments(o: Loaded, ghost m: Machine) returns (r: Progress<()>, ghost n: Machine)
      requires m.w == w && m.pc == Deploy(o.g, o.Now(), ConfigMap)
      modifies this
      ensures r.Died? ==> Play(m, old(script)) == (Machine(w, Idle, Failure), script)
      ensures !r.Died? ==> n.w == w && Play(m, old(script)) == Play(n, script)
      ensures r.Broke? ==> n.pc == Degraded(o.g, o.Now(), r.reason)
      ensures r.Done? ==> n.pc == ToInitialize(o.g, o.Now())
    {
      var t: Option<Tick>;
      t, n := Await(m);
      if t.None? { return Died, n; }
      if !t.value.outcome.Ok? { return Broke("ConfigMapReconcileFailed"), n; }
      t, n := Await(n);
      if t.None? { return Died, n; }
      if !t.value.outcome.Ok? { return Broke("ServiceReconcileFailed"), n; }
      t, n := Await(n);
      if t.None? { return Died, n; }
      if !t.value.outcome.Lost? { w := w.(replicas := Some(Rolled(w.replicas, o.g.spec))); }
      if !t.value.outcome.Ok? { return Broke("StatefulSetReconcileFailed"), n; }
      return Done(()), n;
    }

    /** initializeInstance */
    method InitializeInstance(o: Loaded, ghost m: Machine) returns (r: Progress<()>, ghost n: Machine)
      requires m.w == w && m.pc == ToInitialize(o.g, o.Now())
      modifies this, o.conditions
      ensures r.Died? ==> Play(m, old(script)) == (Machine(w, Idle, Failure), script)
      ensures !r.Died? ==> n.w == w && Play(m, old(script)) == Play(n, script)
      ensures r.Broke? ==> n.pc == Degraded(o.g, o.Now(), r.reason)
      ensures r.Done? ==> n.pc == Refetch(o.g, o.Now())
    {
      n := m;
      if o.g.spec.initialAdmin.None? || IsTrue(o.conditions.items, "Initialized") || !o.ready { return Done(()), n; }
      var admin := o.g.spec.initialAdmin.value;
      var t: Option<Tick>;
      t, n := Await(n);
      if t.None? { return Died, n; }
      if !t.value.outcome.Ok? || !Connects(w, o.g.spec) { return Broke("InitializationFailed"), n; }
      t, n := Await(n);
      if t.None? { return Died, n; }
      if !t.value.outcome.Ok? { return Broke("InitializationFailed"), n; }
      if |w.users| == 0 {
        assert w.users == map[];
        t, n := Await(n);
        if t.None? { return Died, n; }
        var id := t.value.minted;
        if t.value.outcome.Lost? || id == "" || id in w.users || exists i :: i in w.users && w.users[i].username == admin.username {
          return Broke("InitializationFailed"), n;
        }
        w := w.(users := w.users[id := Account(admin.username, true)], admins := w.admins + 1, populated := true);
        if t.value.outcome.Late? { return Broke("InitializationFailed"), n; }
      }
      o.conditions.SetStatusCondition(Condition("Initialized", true, "AdminCreated", o.g.generation));
      return Done(()), n;
    }

    /** updateStatus: the run's findings are merged into the instance as it is now. */
    method UpdateStatus(o: Loaded, ghost m: Machine) returns (v: Verdict)
      requires m.w == w && m.pc == Refetch(o.g, o.Now())
      modifies this
      ensures (Machine(w, Idle, v), script) == Play(m, old(script))
    {
      var t, n := Await(m);
      if t.None? || !t.value.outcome.Ok? || w.store.cr.None? { return Failure; }
      var latest := new Loaded(w.store.cr.value);
      t, n := Await(n);
      if t.None? { return Failure; }
      if !t.value.outcome.Ok? || w.replicas.None? { return Success; }
      Merge(latest, o, w.replicas.value, InternalUrl(w));
      assert n.pc == Report(latest.g, latest.Now(), Success);
      v := Write(latest, Success, n);
    }

    /** The changes of updateStatus to the re-read instance, in the order the code makes them. */
    method Merge(latest: Loaded, o: Loaded, r: Replicas, url: string)
      requires latest != o && latest.conditions != o.conditions && latest.Now() == latest.g.status
      modifies latest, latest.conditions
      ensures latest.Now() == Status(Up(r), Merged(latest.g.status.conditions, o.Now().conditions, r, latest.g.generation),
                                     latest.g.generation, url, o.Now().apiKeyName)
      ensures latest.ready <==> 0 < r.ready == r.wanted
    {
      var generation := latest.g.generation;
      latest.observed := generation;
      latest.internalUrl := url;
      latest.apiKeyName := o.apiKeyName;
      if r.ready == r.wanted && r.ready > 0 {
        latest.ready := true;
        latest.conditions.SetStatusCondition(Condition("Available", true, "AllReplicasReady", generation));
      } else {
        latest.ready := false;
        latest.conditions.SetStatusCondition(Condition("Available", false, "ReplicasNotReady", generation));
      }
      latest.conditions.SetStatusCondition(Condition("Configured", true, "ConfigurationValid", generation));
      var initialized := Find(o.conditions.items, "Initialized");
      if initialized.Some? {
        latest.conditions.SetStatusCondition(initialized.value);
      }
      latest.conditions.RemoveStatusCondition("Degraded");
    }
  }
}
