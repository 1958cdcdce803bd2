/** What one undisturbed reconcile of an instance comes to: exactly when it succeeds, what it then
    leaves behind, and that a further one changes nothing. */
module InstallationRecovery {
  import opened Basics
  import opened Conditions
  import opened Kube
  import opened Installation

  /** A run of API calls only, answered by ts[i], ts[i + 1], ... */
  function Drive(m: Machine, ts: seq<Tick>, i: nat): Machine
    decreases |ts| - i
  {
    if i >= |ts| || m.pc.Idle? then m else Drive(Step(m, ts[i]), ts, i + 1)
  }

  function Reconcile(w: World, ts: seq<Tick>): Machine {
    Drive(Machine(w, Read, Failure), ts, 0)
  }

  /** A fault-free stretch; made-up values are not empty and not in use. */
  ghost predicate Fine(users: map<Id, Account>, ts: seq<Tick>, i: nat, n: nat) {
    i + n <= |ts| && forall j :: i <= j < i + n ==> ts[j].outcome.Ok? && ts[j].minted != "" && ts[j].minted !in users
  }

  /** Guarded, not being deleted, and untouched while the run lasts. */
  ghost predicate AtWork(w: World, g: Copy) {
    w.store.cr == Some(g) && g.finalizer && !g.deleting
  }

  /** Whether this run will try to initialize the server. */
  predicate Attempts(g: Copy) {
    g.spec.initialAdmin.Some? && !Initialized(g.status) && g.status.ready
  }

  // ---------------------------------------------------------------- the generated Secrets

  /** `v` is `w` with the missing generated Secrets added. */
  ghost predicate Keyed(w: World, v: World, spec: Spec) {
    && v == w.(secrets := v.secrets, replicas := v.replicas)
    && (forall name :: name in w.secrets ==> name in v.secrets && v.secrets[name] == w.secrets[name])
    && (forall name :: name in v.secrets && name !in w.secrets ==>
          if name == w.name + "-api-key" then
            spec.apiKeyRef.None? && v.secrets[name].apiKey != "" && v.secrets[name].encryptionKey == ""
          else name == w.name + "-encryption-key" && v.secrets[name].apiKey == "" && v.secrets[name].encryptionKey != "")
    && HasKeys(v, spec)
  }

  predicate HasKeys(w: World, spec: Spec) {
    && (spec.encryptionRef.None? ==> w.name + "-encryption-key" in w.secrets)
    && (spec.apiKeyRef.None? ==> w.name + "-api-key" in w.secrets)
  }

  function MemAfter(w: World, g: Copy): Status {
    g.status.(apiKeyName := ApiKeyRef(w, g.spec))
  }

  function MissingKeys(w: World, g: Copy): nat {
    (if g.spec.encryptionRef.Some? then 0 else if EncryptionKeyName(w) in w.secrets then 1 else 2)
    + ApiKeyTicks(w, g)
  }

  function ApiKeyTicks(w: World, g: Copy): nat {
    if g.spec.apiKeyRef.Some? then 0 else if ApiKeyName(w) in w.secrets then 1 else 2
  }

  lemma NamesDiffer(w: World)
    ensures EncryptionKeyName(w) != ApiKeyName(w)
  {
    assert |EncryptionKeyName(w)| == |w.name| + 15 && |ApiKeyName(w)| == |w.name| + 8;
  }

  function WithApiKey(w: World, g: Copy, value: string): World {
    if g.spec.apiKeyRef.Some? || ApiKeyName(w) in w.secrets then w else w.(secrets := w.secrets[ApiKeyName(w) := Minted(false, value)])
  }

  function WithEncryptionKey(w: World, g: Copy, value: string): World {
    if g.spec.encryptionRef.Some? || EncryptionKeyName(w) in w.secrets then w else w.(secrets := w.secrets[EncryptionKeyName(w) := Minted(true, value)])
  }

  lemma ApiKeyDrive(w: World, g: Copy, ts: seq<Tick>, i: nat)
    requires AtWork(w, g) && Fine(w.users, ts, i, 2)
    ensures var v := WithApiKey(w, g, ts[i + 1].minted);
      Drive(Machine(w, ToApiKey(g, g.status), Failure), ts, i)
      == Drive(Machine(v, Deploy(g, MemAfter(w, g), ConfigMap), Failure), ts, i + ApiKeyTicks(w, g))
  {
    var m := Machine(w, ToApiKey(g, g.status), Failure);
    if g.spec.apiKeyRef.None? {
      var m1 := Step(m, ts[i]);
      if ApiKeyName(w) !in w.secrets {
        assert m1 == Machine(w, CreateApiKey(g, g.status), Failure);
        assert Drive(m1, ts, i + 1) == Drive(Step(m1, ts[i + 1]), ts, i + 2);
      }
    }
  }

  lemma EncryptionKeyDrive(w: World, g: Copy, ts: seq<Tick>, i: nat)
    requires AtWork(w, g) && Fine(w.users, ts, i, 2)
    ensures var v := WithEncryptionKey(w, g, ts[i + 1].minted);
      Drive(Machine(w, AfterRead(g), Failure), ts, i)
      == Drive(Machine(v, ToApiKey(g, g.status), Failure), ts, i + MissingKeys(w, g) - ApiKeyTicks(w, g))
  {
    var m := Machine(w, AfterRead(g), Failure);
    if g.spec.encryptionRef.None? {
      var m1 := Step(m, ts[i]);
      if EncryptionKeyName(w) !in w.secrets {
        assert m1 == Machine(w, CreateEncryptionKey(g, g.status), Failure);
        assert Drive(m1, ts, i + 1) == Drive(Step(m1, ts[i + 1]), ts, i + 2);
      }
    }
  }

  lemma BothKeys(w: World, g: Copy, one: string, two: string)
    requires one != "" && two != ""
    ensures var v := WithApiKey(WithEncryptionKey(w, g, one), g, two);
      Keyed(w, v, g.spec) && (HasKeys(w, g.spec) ==> v == w)
  {
    NamesDiffer(w);
  }

  lemma SecondKey(w: World, g: Copy, one: string)
    ensures var u := WithEncryptionKey(w, g, one);
      ApiKeyTicks(u, g) == ApiKeyTicks(w, g) && u.store == w.store && u.users == w.users && MemAfter(u, g) == MemAfter(w, g)
  {
    NamesDiffer(w);
  }

  lemma EncryptionHalf(w: World, g: Copy, ts: seq<Tick>, i: nat)
    requires AtWork(w, g) && Fine(w.users, ts, i, 2)
    ensures var u := WithEncryptionKey(w, g, ts[i + 1].minted);
      && AtWork(u, g) && u.users == w.users && MemAfter(u, g) == MemAfter(w, g)
      && Drive(Machine(w, AfterRead(g), Failure), ts, i)
         == Drive(Machine(u, ToApiKey(g, g.status), Failure), ts, i + MissingKeys(w, g) - ApiKeyTicks(u, g))
  {
    EncryptionKeyDrive(w, g, ts, i);
    SecondKey(w, g, ts[i + 1].minted);
  }

  /** When the API key's turn comes. */
  function SecondTick(w: World, g: Copy, i: nat): nat {
    i + if g.spec.encryptionRef.Some? then 0 else if EncryptionKeyName(w) in w.secrets then 1 else 2
  }

  function BothMade(w: World, g: Copy, ts: seq<Tick>, i: nat): World
    requires i + 4 <= |ts|
  {
    WithApiKey(WithEncryptionKey(w, g, ts[i + 1].minted), g, ts[SecondTick(w, g, i) + 1].minted)
  }

  lemma KeysLead(w: World, g: Copy, ts: seq<Tick>, i: nat)
    requires AtWork(w, g) && Fine(w.users, ts, i, 4)
    ensures Drive(Machine(w, AfterRead(g), Failure), ts, i)
      == Drive(Machine(BothMade(w, g, ts, i), Deploy(g, MemAfter(w, g), ConfigMap), Failure), ts, i + MissingKeys(w, g))
  {
    var u, j := WithEncryptionKey(w, g, ts[i + 1].minted), SecondTick(w, g, i);
    EncryptionHalf(w, g, ts, i);
    SecondKey(w, g, ts[i + 1].minted);
    assert j == i + MissingKeys(w, g) - ApiKeyTicks(u, g);
    ApiKeyDrive(u, g, ts, j);
  }

  lemma KeysDrive(w: World, g: Copy, ts: seq<Tick>, i: nat) returns (v: World)
    requires AtWork(w, g) && Fine(w.users, ts, i, 4)
    ensures Keyed(w, v, g.spec) && v.replicas == w.replicas
    ensures HasKeys(w, g.spec) ==> v == w
    ensures Drive(Machine(w, AfterRead(g), Failure), ts, i)
      == Drive(Machine(v, Deploy(g, MemAfter(w, g), ConfigMap), Failure), ts, i + MissingKeys(w, g))
  {
    v := BothMade(w, g, ts, i);
    KeysLead(w, g, ts, i);
    BothKeys(w, g, ts[i + 1].minted, ts[SecondTick(w, g, i) + 1].minted);
  }

  // ---------------------------------------------------------------- the end of a run

  /** The status update of a run that got this far, when the StatefulSet can be read. */
  ghost predicate Ends(w: World, n: Machine, g: Copy, s: Status) {
    && n.pc.Idle? && n.last.Success?
    && n.w == w.(store := n.w.store)
    && n.w.store == if w.replicas.None? then w.store else
         Store(Some(g.(status := Updated(w, g, s, w.replicas.value), version := w.store.clock + 1)), w.store.clock + 1)
  }

  lemma TailDrive(w: World, g: Copy, s: Status, ts: seq<Tick>, i: nat)
    requires AtWork(w, g) && i + 3 <= |ts| && forall j :: i <= j < i + 3 ==> ts[j].outcome.Ok?
    ensures Ends(w, Drive(Machine(w, Refetch(g, s), Failure), ts, i), g, s)
  {
    var m1 := Step(Machine(w, Refetch(g, s), Failure), ts[i]);
    var m2 := Step(m1, ts[i + 1]);
    var m3 := Step(m2, ts[i + 2]);
    assert m1 == Machine(w, ReadReplicas(g, s), Failure);
    assert Drive(m1, ts, i + 1) == Drive(m2, ts, i + 2) == Drive(m3, ts, i + 3);
  }

  /** The world with an administrator, if the server had no user. */
  function Peopled(w: World, admin: Admin, id: Id): World {
    if w.users != map[] then w
    else w.(users := map[id := Account(admin.username, true)], admins := w.admins + 1, populated := true)
  }

  function InitializedMem(g: Copy, s: Status): Status {
    s.(conditions := Set(s.conditions, Condition("Initialized", true, "AdminCreated", g.generation)))
  }

  ghost predicate FailsDegraded(w: World, n: Machine) {
    && n.pc.Idle? && n.last.Failure? && n.w == w.(store := n.w.store)
    && n.w.store.cr.Some? && !n.w.store.cr.value.status.ready && IsTrue(n.w.store.cr.value.status.conditions, "Degraded")
  }

  /** The initializer, once it has reached the server. */
  lemma ListDrive(w: World, g: Copy, s: Status, admin: Admin, ts: seq<Tick>, i: nat)
    requires AtWork(w, g) && Fine(w.users, ts, i, 5)
    ensures Ends(Peopled(w, admin, ts[i + 1].minted), Drive(Machine(w, ListUsers(g, s, admin), Failure), ts, i), g, InitializedMem(g, s))
  {
    var m1 := Step(Machine(w, ListUsers(g, s, admin), Failure), ts[i]);
    if w.users != map[] {
      assert m1 == Machine(w, Refetch(g, InitializedMem(g, s)), Failure);
      TailDrive(w, g, InitializedMem(g, s), ts, i + 1);
    } else {
      assert m1 == Machine(w, CreateAdmin(g, s, admin), Failure);
      var v := Peopled(w, admin, ts[i + 1].minted);
      assert Step(m1, ts[i + 1]) == Machine(v, Refetch(g, InitializedMem(g, s)), Failure);
      TailDrive(v, g, InitializedMem(g, s), ts, i + 2);
    }
  }

  lemma ConnectDrive(w: World, g: Copy, s: Status, admin: Admin, ts: seq<Tick>, i: nat)
    requires AtWork(w, g) && Fine(w.users, ts, i, 6)
    ensures var n := Drive(Machine(w, Connect(g, s, admin), Failure), ts, i);
      if Connects(w, g.spec) then Ends(Peopled(w, admin, ts[i + 2].minted), n, g, InitializedMem(g, s)) else FailsDegraded(w, n)
  {
    var m1 := Step(Machine(w, Connect(g, s, admin), Failure), ts[i]);
    if Connects(w, g.spec) {
      assert m1 == Machine(w, ListUsers(g, s, admin), Failure);
      ListDrive(w, g, s, admin, ts, i + 1);
    } else {
      SetFind(s.conditions, Condition("Degraded", true, "InitializationFailed", g.generation), "Degraded");
      assert m1 == Machine(w, Degraded(g, s, "InitializationFailed"), Failure);
      assert Drive(m1, ts, i + 1) == Step(m1, ts[i + 1]);
    }
  }

  function RolledOut(w: World, spec: Spec): World {
    w.(replicas := Some(Rolled(w.replicas, spec)))
  }

  lemma DeployDrive(w: World, g: Copy, s: Status, ts: seq<Tick>, i: nat)
    requires i + 3 <= |ts| && forall j :: i <= j < i + 3 ==> ts[j].outcome.Ok?
    ensures Drive(Machine(w, Deploy(g, s, ConfigMap), Failure), ts, i)
      == Drive(Machine(RolledOut(w, g.spec), ToInitialize(g, s), Failure), ts, i + 3)
  {
    var m := Machine(w, Deploy(g, s, ConfigMap), Failure);
    var m1 := Step(m, ts[i]);
    var m2 := Step(m1, ts[i + 1]);
    assert m1 == Machine(w, Deploy(g, s, Service), Failure) && m2 == Machine(w, Deploy(g, s, StatefulSet), Failure);
    assert Drive(m, ts, i) == Drive(m1, ts, i + 1) == Drive(m2, ts, i + 2) == Drive(Step(m2, ts[i + 2]), ts, i + 3);
  }

  // ---------------------------------------------------------------- the result of a run

  /** The generated Secrets exist and the status tells how the StatefulSet is doing. */
  ghost predicate Settled(w: World) {
    && w.store.cr.Some? && w.replicas.Some?
    && var c := w.store.cr.value;
    && c.finalizer && !c.deleting
    && HasKeys(w, c.spec)
    && var r := w.replicas.value;
    && r.wanted == (if c.spec.replicas.Some? then c.spec.replicas.value else 1)
    && (c.status.ready <==> 0 < r.ready == r.wanted) && c.status.observed == c.generation
    && c.status.internalUrl == "http://" + w.name + "-svc." + w.namespace + ".svc.cluster.local"
    && c.status.apiKeyName == (if c.spec.apiKeyRef.Some? then c.spec.apiKeyRef.value else w.name + "-api-key")
    && Find(c.status.conditions, "Available")
       == Some(if 0 < r.ready == r.wanted then Condition("Available", true, "AllReplicasReady", c.generation)
               else Condition("Available", false, "ReplicasNotReady", c.generation))
    && Find(c.status.conditions, "Configured") == Some(Condition("Configured", true, "ConfigurationValid", c.generation))
    && Find(c.status.conditions, "Degraded").None?
  }

  /** The server can be reached with the API key: the named Secret has one, or it is generated now. */
  predicate Reachable(w: World, spec: Spec) {
    var name := if spec.apiKeyRef.Some? then spec.apiKeyRef.value else w.name + "-api-key";
    if name in w.secrets then w.secrets[name].apiKey != "" else spec.apiKeyRef.None?
  }

  lemma EndsSettled(w: World, v: World, n: Machine, g: Copy, s: Status)
    requires AtWork(w, g) && Unique(g.status.conditions) && Keyed(w, v, g.spec) && n.w.store.cr.Some?
    requires Ends(v, n, g, s) || (n.w.secrets == v.secrets && Ends(v.(users := n.w.users, admins := n.w.admins, populated := n.w.populated), n, g, s))
    requires s.apiKeyName == ApiKeyRef(w, g.spec) && v.replicas == Some(Rolled(w.replicas, g.spec))
    ensures Settled(n.w)
    ensures Find(s.conditions, "Initialized").Some? ==> Find(n.w.store.cr.value.status.conditions, "Initialized") == Find(s.conditions, "Initialized")
    ensures Find(s.conditions, "Initialized").None? ==> Find(n.w.store.cr.value.status.conditions, "Initialized") == Find(g.status.conditions, "Initialized")
  {
    MergedHonest(g.status.conditions, s.conditions, v.replicas.value, g.generation);
  }

  /** What a run from `w` owes, and no more. */
  ghost predicate Delivers(w: World, n: Machine, g: Copy) {
    && n.pc.Idle?
    && (n.last.Success? <==> (Attempts(g) ==> Reachable(w, g.spec)))
    && (n.last.Success? ==>
          && n.w.admins == w.admins + (if Attempts(g) && w.users == map[] then 1 else 0)
          && (Attempts(g) ==> n.w.users != map[])
          && (w.users != map[] || !Attempts(g) ==> n.w.users == w.users)
          && (Attempts(g) && w.users == map[] ==>
                exists id :: n.w.users == map[id := Account(g.spec.initialAdmin.value.username, true)])
          && n.w.replicas == Some(Replicas(if w.replicas.Some? then w.replicas.value.ready else 0,
                                           if g.spec.replicas.Some? then g.spec.replicas.value else 1))
          && Keyed(w, n.w.(store := w.store, users := w.users, admins := w.admins, populated := w.populated), g.spec)
          && Settled(n.w) && (g.status.ready ==> !Attempts(n.w.store.cr.value)))
    && (n.last.Failure? ==> n.w.users == w.users && n.w.admins == w.admins && n.w.store.cr.Some? && !n.w.store.cr.value.status.ready)
  }

  lemma RestDelivers(w: World, v: World, g: Copy, ts: seq<Tick>, i: nat)
    requires AtWork(w, g) && Unique(g.status.conditions) && !Attempts(g) && Keyed(w, v, g.spec) && Fine(w.users, ts, i, 6)
    requires v.replicas == Some(Rolled(w.replicas, g.spec))
    ensures Delivers(w, Drive(Machine(v, Refetch(g, MemAfter(w, g)), Failure), ts, i), g)
  {
    TailDrive(v, g, MemAfter(w, g), ts, i);
    EndsSettled(w, v, Drive(Machine(v, Refetch(g, MemAfter(w, g)), Failure), ts, i), g, MemAfter(w, g));
  }

  lemma AttemptSucceeds(w: World, v: World, n: Machine, g: Copy, id: Id)
    requires AtWork(w, g) && Unique(g.status.conditions) && Attempts(g) && Keyed(w, v, g.spec) && Reachable(w, g.spec)
    requires v.replicas == Some(Rolled(w.replicas, g.spec))
    requires Ends(Peopled(v, g.spec.initialAdmin.value, id), n, g, InitializedMem(g, MemAfter(w, g)))
    ensures Delivers(w, n, g)
  {
    var s := MemAfter(w, g);
    SetFind(s.conditions, Condition("Initialized", true, "AdminCreated", g.generation), "Initialized");
    EndsSettled(w, v, n, g, InitializedMem(g, s));
    if w.users == map[] {
      assert n.w.users == map[id := Account(g.spec.initialAdmin.value.username, true)];
      assert id in n.w.users;
    }
  }

  lemma AttemptDelivers(w: World, v: World, g: Copy, ts: seq<Tick>, i: nat)
    requires AtWork(w, g) && Unique(g.status.conditions) && Attempts(g) && Keyed(w, v, g.spec) && Fine(w.users, ts, i, 6)
    requires v.replicas == Some(Rolled(w.replicas, g.spec))
    ensures Delivers(w, Drive(Machine(v, Connect(g, MemAfter(w, g), g.spec.initialAdmin.value), Failure), ts, i), g)
  {
    var s, admin := MemAfter(w, g), g.spec.initialAdmin.value;
    var n := Drive(Machine(v, Connect(g, s, admin), Failure), ts, i);
    ConnectDrive(v, g, s, admin, ts, i);
    assert Connects(v, g.spec) <==> Reachable(w, g.spec);
    if Connects(v, g.spec) { AttemptSucceeds(w, v, n, g, ts[i + 2].minted); }
  }

  /** A run that adds the finalizer ends there; the next one follows at once. */
  ghost predicate Guards(w: World, n: Machine, g: Copy) {
    && n.pc.Idle? && n.last.Success?
    && n.w == w.(store := Store(Some(g.(finalizer := true, version := w.store.clock + 1)), w.store.clock + 1))
  }

  /** Recovery, exactly: an undisturbed reconcile of an instance without its finalizer adds that and
      changes nothing else. With it, the reconcile succeeds if and only if it need not initialize the
      server, or can reach it. It then has made the first administrator if and only if that was due and
      the server had no user, and the StatefulSet, made if it was missing, is truthfully reported;
      initialization can then be due only because the instance has just become ready. */
  lemma Recovery(w: World, ts: seq<Tick>)
    requires w.store.cr.Some? && !w.store.cr.value.deleting
    requires Unique(w.store.cr.value.status.conditions)
    requires |ts| >= 14 && Fine(w.users, ts, 0, |ts|)
    ensures var g := w.store.cr.value;
      if g.finalizer then Delivers(w, Reconcile(w, ts), g) else Guards(w, Reconcile(w, ts), g)
  {
    var g := w.store.cr.value;
    var m1 := Step(Machine(w, Read, Failure), ts[0]);
    assert m1 == Machine(w, AfterRead(g), Failure);
    if !g.finalizer {
      assert Drive(m1, ts, 1) == Step(m1, ts[1]);
    } else {
      var v := KeysDrive(w, g, ts, 1);
      var i := 1 + MissingKeys(w, g);
      DeployDrive(v, g, MemAfter(w, g), ts, i);
      v := RolledOut(v, g.spec);
      if Attempts(g) { AttemptDelivers(w, v, g, ts, i + 3); } else { RestDelivers(w, v, g, ts, i + 3); }
    }
  }

  lemma {:induction false} RemoveSame(cs: seq<Condition>, kind: string)
    requires Find(cs, kind).None?
    ensures Remove(cs, kind) == cs
  {
    if cs != [] { RemoveSame(cs[1..], kind); }
  }

  lemma MergedSame(cs: seq<Condition>, r: Replicas, generation: nat)
    requires Find(cs, "Available") == Some(Available(r, generation)) && Find(cs, "Configured") == Some(Configured(generation))
    requires Find(cs, "Degraded").None?
    ensures Merged(cs, cs, r, generation) == cs
  {
    SetSame(cs, Available(r, generation));
    SetSame(cs, Configured(generation));
    FindKind(cs, "Initialized");
    if Find(cs, "Initialized").Some? { SetSame(cs, Find(cs, "Initialized").value); }
    RemoveSame(cs, "Degraded");
  }

  /** Fixpoint: once settled, with no initialization due, a further undisturbed reconcile changes
      nothing but the resource version. */
  lemma Fixpoint(w: World, ts: seq<Tick>)
    requires Settled(w) && !Attempts(w.store.cr.value)
    requires |ts| >= 14 && Fine(w.users, ts, 0, |ts|)
    ensures var n := Reconcile(w, ts);
      && n.pc.Idle? && n.last.Success?
      && n.w == w.(store := Store(Some(w.store.cr.value.(version := w.store.clock + 1)), w.store.clock + 1))
  {
    var g, r := w.store.cr.value, w.replicas.value;
    var m1 := Step(Machine(w, Read, Failure), ts[0]);
    assert m1 == Machine(w, AfterRead(g), Failure);
    var v := KeysDrive(w, g, ts, 1);
    var s, i := MemAfter(w, g), 1 + MissingKeys(w, g);
    DeployDrive(w, g, s, ts, i);
    TailDrive(w, g, s, ts, i + 3);
    MergedSame(g.status.conditions, r, g.generation);
  }

  // ---------------------------------------------------------------- deletion

  /** An undisturbed reconcile of an instance marked for deletion removes the finalizer, and with it the
      instance; it touches neither the server nor the Secrets. An instance that is gone is left alone. */
  lemma Deletion(w: World, ts: seq<Tick>)
    requires w.store.cr.Some? ==> w.store.cr.value.deleting
    requires |ts| >= 2 && Fine(w.users, ts, 0, 2)
    ensures var n := Reconcile(w, ts);
      && n.pc.Idle? && n.last.Success? && n.w == w.(store := n.w.store)
      && if w.store.cr.Some? && w.store.cr.value.finalizer then n.w.store.cr.None? else n.w == w
  {
    var m1 := Step(Machine(w, Read, Failure), ts[0]);
    assert Drive(Machine(w, Read, Failure), ts, 0) == Drive(m1, ts, 1);
    if w.store.cr.Some? {
      assert m1.w == w && m1.pc == AfterRead(w.store.cr.value);
      if w.store.cr.value.finalizer { assert Drive(m1, ts, 1) == Drive(Step(m1, ts[1]), ts, 2) == Step(m1, ts[1]); }
    }
  }
}
