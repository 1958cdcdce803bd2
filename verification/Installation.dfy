/** The instance controller as a machine (internal/controller/pocketidinstance_controller.go): the
    generated Secrets, the first administrator, and two writers of one status; and what holds over
    all its runs. */
module Installation {
  import opened Basics
  import opened Conditions
  import opened Kube

  // ---------------------------------------------------------------- state

  datatype Admin = Admin(username: string, email: string, firstName: string, displayName: string)
  datatype Spec = Spec(initialAdmin: Option<Admin>, encryptionRef: Option<string>, apiKeyRef: Option<string>, replicas: Option<int>)
  datatype Status = Status(ready: bool, conditions: seq<Condition>, observed: nat, internalUrl: string, apiKeyName: string)
  type Copy = Resource<Spec, Status>

  /** A user at the server, whoever made it. */
  datatype Account = Account(username: string, isAdmin: bool)

  /** What the StatefulSet reports and wants. */
  datatype Replicas = Replicas(ready: int, wanted: int)

  /** A Secret, by the two keys this controller reads or writes; an absent key reads as empty. */
  datatype KeyData = KeyData(encryptionKey: string, apiKey: string)

  /** `secrets` holds the Secrets of the namespace by name. History: `admins` counts the creates of an administrator that took effect,
      `emptied` how often the server has lost its last user, `populated` whether it ever had one. */
  datatype World = World(
    name: string, namespace: string, store: Store<Spec, Status>, secrets: map<string, KeyData>,
    users: map<Id, Account>, replicas: Option<Replicas>, admins: nat, emptied: nat, populated: bool)

  datatype Outside = Outside(
    store: Store<Spec, Status>, secrets: map<string, KeyData>, users: map<Id, Account>, replicas: Option<Replicas>)

  const BLANK := Status(false, [], 0, "", "")

  function EncryptionKeyName(w: World): string {
    w.name + "-encryption-key"
  }

  function ApiKeyName(w: World): string {
    w.name + "-api-key"
  }

  predicate Generated(w: World, name: string) {
    name == EncryptionKeyName(w) || name == ApiKeyName(w)
  }

  predicate Protected(w: World) {
    w.store.cr.Some? && w.store.cr.value.finalizer
  }

  /** Everyone else: anything at the server, any Secret but the generated ones. */
  predicate Rely(w: World, e: Outside) {
    && Drift(w.store, e.store, w.name, BLANK)
    && (Protected(w) ==> forall name | name in w.secrets :: Generated(w, name) ==>
          name in e.secrets && e.secrets[name] == w.secrets[name])
  }

  function After(w: World, e: Outside): World {
    w.(store := e.store, secrets := e.secrets, users := e.users, replicas := e.replicas,
       emptied := if w.users != map[] && e.users == map[] then w.emptied + 1 else w.emptied,
       populated := w.populated || e.users != map[])
  }

  // ---------------------------------------------------------------- the machine

  datatype Tick = Tick(outcome: Outcome, minted: string)

  datatype Stage = ConfigMap | Service | StatefulSet

  /** Where a run stands. `g` is the resource as read, `s` the status as the run has changed it in
      memory; Report writes `s` over the version of `g`. */
  datatype Pc =
    | Idle
    | Read
    | Finalize(g: Copy)
    | Unfinalize(g: Copy)
    | ReadEncryptionKey(g: Copy, s: Status)
    | CreateEncryptionKey(g: Copy, s: Status)
    | ReadApiKey(g: Copy, s: Status)
    | CreateApiKey(g: Copy, s: Status)
    | Deploy(g: Copy, s: Status, stage: Stage)
    | Connect(g: Copy, s: Status, admin: Admin)
    | ListUsers(g: Copy, s: Status, admin: Admin)
    | CreateAdmin(g: Copy, s: Status, admin: Admin)
    | Refetch(g: Copy, s: Status)
    | ReadReplicas(g: Copy, s: Status)
    | Report(g: Copy, s: Status, verdict: Verdict)

  datatype Machine = Machine(w: World, pc: Pc, last: Verdict)

  datatype Event = Wake | Call(t: Tick) | Elsewhere(e: Outside) | Crash

  predicate AboutKeys(pc: Pc) {
    pc.ReadEncryptionKey? || pc.CreateEncryptionKey? || pc.ReadApiKey? || pc.CreateApiKey?
  }

  predicate AboutUsers(pc: Pc) {
    pc.Connect? || pc.ListUsers? || pc.CreateAdmin?
  }

  predicate AboutStatus(pc: Pc) {
    pc.Refetch? || pc.ReadReplicas? || pc.Report?
  }

  predicate Initialized(s: Status) {
    IsTrue(s.conditions, "Initialized")
  }

  /** setDegradedCondition, on the run's own copy. */
  function Degraded(g: Copy, s: Status, reason: string): Pc {
    Report(g, s.(ready := false, conditions := Set(s.conditions, Condition("Degraded", true, reason, g.generation))), Failure)
  }

  function AfterRead(g: Copy): Pc {
    if g.deleting then (if g.finalizer then Unfinalize(g) else Idle)
    else if !g.finalizer then Finalize(g)
    else if g.spec.encryptionRef.None? then ReadEncryptionKey(g, g.status)
    else ToApiKey(g, g.status)
  }

  function ToApiKey(g: Copy, s: Status): Pc {
    if g.spec.apiKeyRef.None? then ReadApiKey(g, s) else Deploy(g, s.(apiKeyName := g.spec.apiKeyRef.value), ConfigMap)
  }

  function Minted(encryption: bool, value: string): KeyData {
    if encryption then KeyData(value, "") else KeyData("", value)
  }

  /** Get: found, not found, or failed. Create: refused if the Secret exists. */
  function KeyStep(w: World, pc: Pc, t: Tick): Machine
    requires AboutKeys(pc)
  {
    var g, s := pc.g, pc.s;
    var failed := Degraded(g, s, "SecretsReconcileFailed");
    var encryption := pc.ReadEncryptionKey? || pc.CreateEncryptionKey?;
    var name := if encryption then EncryptionKeyName(w) else ApiKeyName(w);
    var done := if encryption then ToApiKey(g, s) else Deploy(g, s.(apiKeyName := name), ConfigMap);
    if pc.ReadEncryptionKey? || pc.ReadApiKey? then
      Machine(w, if !t.outcome.Ok? then failed
                 else if name in w.secrets then done
                 else if encryption then CreateEncryptionKey(g, s) else CreateApiKey(g, s), Failure)
    else if t.outcome.Lost? || name in w.secrets then Machine(w, failed, Failure)
    else Machine(w.(secrets := w.secrets[name := Minted(encryption, t.minted)]), if t.outcome.Ok? then done else failed, Failure)
  }

  /** The StatefulSet after it has been created or patched: new ones have no replica ready yet. */
  function Rolled(r: Option<Replicas>, spec: Spec): Replicas {
    Replicas(if r.Some? then r.value.ready else 0, if spec.replicas.Some? then spec.replicas.value else 1)
  }

  function DeployStep(w: World, pc: Pc, t: Tick): Machine
    requires pc.Deploy?
  {
    var w := if pc.stage.StatefulSet? && !t.outcome.Lost? then w.(replicas := Some(Rolled(w.replicas, pc.g.spec))) else w;
    var reason := match pc.stage
      case ConfigMap => "ConfigMapReconcileFailed"
      case Service => "ServiceReconcileFailed"
      case StatefulSet => "StatefulSetReconcileFailed";
    Machine(w, if !t.outcome.Ok? then Degraded(pc.g, pc.s, reason) else
               match pc.stage
               case ConfigMap => pc.(stage := Service)
               case Service => pc.(stage := StatefulSet)
               case StatefulSet => ToInitialize(pc.g, pc.s), Failure)
  }

  /** initializeInstance: only with an administrator to make, not yet initialized, and ready. */
  function ToInitialize(g: Copy, s: Status): Pc {
    if g.spec.initialAdmin.None? || Initialized(s) || !s.ready then Refetch(g, s)
    else Connect(g, s, g.spec.initialAdmin.value)
  }

  function Initialize(g: Copy, s: Status): Pc {
    Refetch(g, s.(conditions := Set(s.conditions, Condition("Initialized", true, "AdminCreated", g.generation))))
  }

  function ApiKeyRef(w: World, spec: Spec): string {
    if spec.apiKeyRef.Some? then spec.apiKeyRef.value else ApiKeyName(w)
  }

  predicate Connects(w: World, spec: Spec) {
    ApiKeyRef(w, spec) in w.secrets && w.secrets[ApiKeyRef(w, spec)].apiKey != ""
  }

  function InitializeStep(w: World, pc: Pc, t: Tick): Machine
    requires AboutUsers(pc)
  {
    var g, s := pc.g, pc.s;
    var failed := Degraded(g, s, "InitializationFailed");
    match pc
    case Connect(_, _, admin) =>
      Machine(w, if t.outcome.Ok? && Connects(w, g.spec) then ListUsers(g, s, admin) else failed, Failure)
    case ListUsers(_, _, admin) =>
      Machine(w, if !t.outcome.Ok? then failed
                 else if w.users == map[] then CreateAdmin(g, s, admin)
                 else Initialize(g, s), Failure)
    case CreateAdmin(_, _, admin) =>
      var taken := t.minted == "" || t.minted in w.users || exists id :: id in w.users && w.users[id].username == admin.username;
      if t.outcome.Lost? || taken then Machine(w, failed, Failure) else
        Machine(w.(users := w.users[t.minted := Account(admin.username, true)], admins := w.admins + 1, populated := true),
                if t.outcome.Ok? then Initialize(g, s) else failed, Failure)
  }

  predicate Up(r: Replicas) {
    r.ready == r.wanted && r.ready > 0
  }

  function Available(r: Replicas, generation: nat): Condition {
    Condition("Available", Up(r), if Up(r) then "AllReplicasReady" else "ReplicasNotReady", generation)
  }

  function Configured(generation: nat): Condition {
    Condition("Configured", true, "ConfigurationValid", generation)
  }

  function InternalUrl(w: World): string {
    "http://" + w.name + "-svc." + w.namespace + ".svc.cluster.local"
  }

  /** The conditions of updateStatus: the run's "Initialized" is carried over, "Degraded" goes. */
  function Merged(latest: seq<Condition>, mine: seq<Condition>, r: Replicas, generation: nat): seq<Condition> {
    var set1 := Set(Set(latest, Available(r, generation)), Configured(generation));
    var set2 := match Find(mine, "Initialized") case None => set1 case Some(c) => Set(set1, c);
    Remove(set2, "Degraded")
  }

  function Updated(w: World, g: Copy, s: Status, r: Replicas): Status {
    Status(Up(r), Merged(g.status.conditions, s.conditions, r, g.generation), g.generation, InternalUrl(w), s.apiKeyName)
  }

  function StatusStep(w: World, pc: Pc, t: Tick): Machine
    requires AboutStatus(pc)
  {
    match pc
    case Refetch(_, s) =>
      if !t.outcome.Ok? || w.store.cr.None? then Machine(w, Idle, Failure) else Machine(w, ReadReplicas(w.store.cr.value, s), Failure)
    case ReadReplicas(g, s) =>
      if !t.outcome.Ok? || w.replicas.None? then Machine(w, Idle, Success)
      else Machine(w, Report(g, Updated(w, g, s, w.replicas.value), Success), Failure)
    case Report(g, s, verdict) =>
      var (st, ok) := PutStatus(w.store, g.(status := s), t.outcome);
      Machine(w.(store := st), Idle, if ok then verdict else Failure)
  }

  /** A new finalizer ends the run; the next one starts at once. */
  function MetaStep(w: World, pc: Pc, t: Tick, last: Verdict): Machine
    requires pc.Idle? || pc.Read? || pc.Finalize? || pc.Unfinalize?
  {
    match pc
    case Idle => Machine(w, Idle, last)
    case Read =>
      if !t.outcome.Ok? then Machine(w, Idle, Failure)
      else if w.store.cr.None? then Machine(w, Idle, Success)
      else Machine(w, AfterRead(w.store.cr.value), if AfterRead(w.store.cr.value).Idle? then Success else Failure)
    case Finalize(g) =>
      var (st, now) := PutMeta(w.store, g.(finalizer := true), t.outcome);
      Machine(w.(store := st), Idle, if now.Some? then Success else Failure)
    case Unfinalize(g) =>
      var (st, now) := PutMeta(w.store, g.(finalizer := false), t.outcome);
      Machine(w.(store := st), Idle, if now.Some? then Success else Failure)
  }

  function Step(m: Machine, t: Tick): Machine {
    if AboutKeys(m.pc) then KeyStep(m.w, m.pc, t)
    else if m.pc.Deploy? then DeployStep(m.w, m.pc, t)
    else if AboutUsers(m.pc) then InitializeStep(m.w, m.pc, t)
    else if AboutStatus(m.pc) then StatusStep(m.w, m.pc, t)
    else MetaStep(m.w, m.pc, t, m.last)
  }

  function Apply(m: Machine, ev: Event): Machine {
    match ev
    case Wake => if m.pc.Idle? then m.(pc := Read) else m
    case Call(t) => Step(m, t)
    case Elsewhere(e) => if Rely(m.w, e) then m.(w := After(m.w, e)) else m
    case Crash => Machine(m.w, Idle, Failure)
  }

  /** Any number of reconciles, interleaved with anything others do, each cut short anywhere. */
  function Run(m: Machine, es: seq<Event>): Machine
    decreases |es|
  {
    if es == [] then m else Run(Apply(m, es[0]), es[1..])
  }

  /** One run until it ends, or until the script of what happens to it ends: then it has died. */
  function Play(m: Machine, script: seq<Event>): (Machine, seq<Event>)
    decreases |script|
  {
    if m.pc.Idle? then (m, script)
    else if script == [] then (Machine(m.w, Idle, Failure), [])
    else Play(Apply(m, script[0]), script[1..])
  }

  // ---------------------------------------------------------------- the invariant

  /** What readers of the status rely on: one condition per type, and ready only when available,
      configured and not degraded. "Initialized", once there, is true. */
  ghost predicate Honest(s: Status) {
    && Unique(s.conditions)
    && (s.ready ==> IsTrue(s.conditions, "Available") && IsTrue(s.conditions, "Configured") && Find(s.conditions, "Degraded").None?)
    && Lasting(s)
  }

  ghost predicate Lasting(s: Status) {
    Find(s.conditions, "Initialized").Some? ==> Initialized(s)
  }

  /** Holds at every point of every run. */
  ghost predicate Inv(w: World) {
    && Sound(w.store)
    && (w.users != map[] ==> w.populated)
    && w.admins <= w.emptied + (if w.users != map[] then 1 else 0)
    && (w.store.cr.Some? ==> Honest(w.store.cr.value.status) && (Initialized(w.store.cr.value.status) ==> w.populated))
  }

  /** A copy read from the cluster. */
  ghost predicate Seen(w: World, g: Copy) {
    && g.uid <= g.version <= w.store.clock && Honest(g.status)
    && (w.store.cr.Some? && w.store.cr.value.version == g.version ==> w.store.cr.value == g)
  }

  /** A status in memory: not "Initialized" without reason, and no less so than the copy. */
  ghost predicate Held(w: World, g: Copy, s: Status) {
    && Seen(w, g) && Unique(s.conditions) && Lasting(s)
    && (Initialized(s) ==> w.populated)
    && (Initialized(g.status) ==> Initialized(s))
  }

  /** The status held for the re-read resource need not know its conditions. */
  ghost predicate Carried(w: World, s: Status) {
    Unique(s.conditions) && Lasting(s) && (Initialized(s) ==> w.populated)
  }

  ghost predicate Knows(w: World, pc: Pc) {
    match pc
    case Idle => true
    case Read => true
    case Finalize(g) => Seen(w, g) && !g.deleting
    case Unfinalize(g) => Seen(w, g) && g.deleting
    case CreateAdmin(g, s, _) => Held(w, g, s) && w.admins <= w.emptied
    case ReadReplicas(g, s) => Seen(w, g) && Carried(w, s) && (Initialized(g.status) ==> w.populated)
    case Report(g, s, _) => Held(w, g, s) && Honest(s)
    case _ => Held(w, pc.g, pc.s)
  }

  ghost predicate MachineInv(m: Machine) {
    Inv(m.w) && Knows(m.w, m.pc)
  }

  /** Across any stretch of time: while one and the same resource exists it stays initialized, and
      under its finalizer no generated Secret is rewritten or lost. */
  ghost predicate Lasts(w: World, v: World) {
    && v.name == w.name && w.store.clock <= v.store.clock && w.emptied <= v.emptied && w.admins <= v.admins
    && (v.store.cr.Some? ==>
          || v.store.cr.value.uid > w.store.clock
          || (w.store.cr.Some? && Same(w, w.store.cr.value, v, v.store.cr.value)))
  }

  ghost predicate Same(w: World, c: Copy, v: World, d: Copy) {
    && c.uid == d.uid
    && (Initialized(c.status) ==> Initialized(d.status))
    && (c.finalizer ==> d.finalizer && KeepsSecret(w, v, w.name + "-encryption-key") && KeepsSecret(w, v, w.name + "-api-key"))
  }

  ghost predicate KeepsSecret(w: World, v: World, name: string) {
    name in w.secrets ==> name in v.secrets && v.secrets[name] == w.secrets[name]
  }

  lemma LastsTransitive(a: World, b: World, c: World)
    requires Inv(a) && Lasts(a, b) && Lasts(b, c)
    ensures Lasts(a, c)
  {
  }

  ghost predicate Follows(w: World, n: Machine) {
    MachineInv(n) && Lasts(w, n.w)
  }

  // ---------------------------------------------------------------- the steps keep it

  /** Writing a condition of one type says nothing about another. */
  lemma SetHeld(w: World, g: Copy, s: Status, c: Condition, ready: bool)
    requires Held(w, g, s) && (c.kind == "Initialized" ==> c.holds && w.populated)
    ensures Held(w, g, s.(ready := ready, conditions := Set(s.conditions, c)))
  {
    SetFind(s.conditions, c, "Initialized");
    SetUnique(s.conditions, c);
  }

  lemma DegradedKnows(w: World, g: Copy, s: Status, reason: string)
    requires Held(w, g, s)
    ensures Knows(w, Degraded(g, s, reason))
  {
    SetHeld(w, g, s, Condition("Degraded", true, reason, g.generation), false);
  }

  lemma MergedHonest(latest: seq<Condition>, mine: seq<Condition>, r: Replicas, generation: nat)
    requires Unique(latest)
    ensures var cs := Merged(latest, mine, r, generation);
      && Unique(cs) && Find(cs, "Degraded").None?
      && Find(cs, "Available") == Some(if 0 < r.ready == r.wanted then Condition("Available", true, "AllReplicasReady", generation)
                                       else Condition("Available", false, "ReplicasNotReady", generation))
      && Find(cs, "Configured") == Some(Condition("Configured", true, "ConfigurationValid", generation))
      && Find(cs, "Initialized") == if Find(mine, "Initialized").Some? then Find(mine, "Initialized") else Find(latest, "Initialized")
  {
    var a, b := Available(r, generation), Configured(generation);
    var set1 := Set(latest, a);
    var set2 := Set(set1, b);
    SetUnique(latest, a);
    SetUnique(set1, b);
    FindKind(mine, "Initialized");
    var c := Find(mine, "Initialized");
    if c.Some? { SetUnique(set2, c.value); }
    var set3 := if c.Some? then Set(set2, c.value) else set2;
    RemoveUnique(set3, "Degraded");
    forall kind | kind in {"Available", "Configured", "Initialized", "Degraded"}
      ensures Find(Merged(latest, mine, r, generation), kind)
        == if kind == "Degraded" then None
           else if kind == "Initialized" && c.Some? then c
           else if kind == "Configured" then Some(b)
           else if kind == "Available" then Some(a) else Find(latest, kind)
    {
      SetFind(latest, a, kind);
      SetFind(set1, b, kind);
      if c.Some? { SetFind(set2, c.value, kind); }
      RemoveFind(set3, "Degraded", kind);
    }
  }

  lemma {:induction false} FindKind(cs: seq<Condition>, kind: string)
    ensures Find(cs, kind).Some? ==> Find(cs, kind).value.kind == kind
  {
    if cs != [] { FindKind(cs[1..], kind); }
  }

  lemma UpdatedKnows(w: World, g: Copy, s: Status, r: Replicas)
    requires Knows(w, ReadReplicas(g, s))
    ensures Knows(w, Report(g, Updated(w, g, s, r), Success))
  {
    MergedHonest(g.status.conditions, s.conditions, r, g.generation);
  }

  lemma KeyReadKeeps(m: Machine, t: Tick)
    requires m.pc.ReadEncryptionKey? || m.pc.ReadApiKey?
    requires MachineInv(m)
    ensures Follows(m.w, KeyStep(m.w, m.pc, t))
  {
    DegradedKnows(m.w, m.pc.g, m.pc.s, "SecretsReconcileFailed");
  }

  lemma NewSecretKeeps(w: World, name: string, value: KeyData, g: Copy, s: Status)
    requires Inv(w) && Held(w, g, s) && name !in w.secrets
    ensures var v := w.(secrets := w.secrets[name := value]); Inv(v) && Lasts(w, v) && Held(v, g, s)
  {
  }

  lemma KeyCreateKeeps(m: Machine, t: Tick)
    requires m.pc.CreateEncryptionKey? || m.pc.CreateApiKey?
    requires MachineInv(m)
    ensures Follows(m.w, KeyStep(m.w, m.pc, t))
  {
    var w, g, s := m.w, m.pc.g, m.pc.s;
    var name := if m.pc.CreateEncryptionKey? then EncryptionKeyName(w) else ApiKeyName(w);
    if name !in w.secrets { NewSecretKeeps(w, name, Minted(m.pc.CreateEncryptionKey?, t.minted), g, s); }
    DegradedKnows(KeyStep(w, m.pc, t).w, g, s, "SecretsReconcileFailed");
  }

  lemma DeployKeeps(m: Machine, t: Tick)
    requires MachineInv(m) && m.pc.Deploy?
    ensures Follows(m.w, DeployStep(m.w, m.pc, t))
  {
    DegradedKnows(DeployStep(m.w, m.pc, t).w, m.pc.g, m.pc.s, match m.pc.stage
      case ConfigMap => "ConfigMapReconcileFailed"
      case Service => "ServiceReconcileFailed"
      case StatefulSet => "StatefulSetReconcileFailed");
  }

  /** An administrator is made only after the users were seen to be gone, so each one but the first
      is paid for by an emptying of the server. */
  lemma InitializeKeeps(m: Machine, t: Tick)
    requires MachineInv(m) && AboutUsers(m.pc)
    ensures Follows(m.w, InitializeStep(m.w, m.pc, t))
  {
    var g, s := m.pc.g, m.pc.s;
    var v := InitializeStep(m.w, m.pc, t).w;
    DegradedKnows(v, g, s, "InitializationFailed");
    if v.populated {
      SetHeld(v, g, s, Condition("Initialized", true, "AdminCreated", g.generation), s.ready);
    }
  }

  lemma StatusKeeps(m: Machine, t: Tick)
    requires MachineInv(m) && AboutStatus(m.pc)
    ensures Follows(m.w, StatusStep(m.w, m.pc, t))
  {
    if m.pc.ReadReplicas? && m.w.replicas.Some? {
      UpdatedKnows(m.w, m.pc.g, m.pc.s, m.w.replicas.value);
    }
  }

  lemma MetaKeeps(m: Machine, t: Tick)
    requires MachineInv(m) && (m.pc.Idle? || m.pc.Read? || m.pc.Finalize? || m.pc.Unfinalize?)
    ensures Follows(m.w, MetaStep(m.w, m.pc, t, m.last))
  {
  }

  lemma StepKeeps(m: Machine, t: Tick)
    requires MachineInv(m)
    ensures Follows(m.w, Step(m, t))
  {
    if AboutKeys(m.pc) {
      if m.pc.ReadEncryptionKey? || m.pc.ReadApiKey? { KeyReadKeeps(m, t); } else { KeyCreateKeeps(m, t); }
    }
    else if m.pc.Deploy? { DeployKeeps(m, t); }
    else if AboutUsers(m.pc) { InitializeKeeps(m, t); }
    else if AboutStatus(m.pc) { StatusKeeps(m, t); }
    else { MetaKeeps(m, t); }
  }

  lemma OutsideKeeps(m: Machine, e: Outside)
    requires MachineInv(m) && Rely(m.w, e)
    ensures Follows(m.w, m.(w := After(m.w, e)))
  {
  }

  lemma {:induction false} RunKeeps(m: Machine, es: seq<Event>)
    requires MachineInv(m)
    ensures Follows(m.w, Run(m, es))
    decreases |es|
  {
    if es != [] {
      var n := Apply(m, es[0]);
      if es[0].Call? { StepKeeps(m, es[0].t); }
      else if es[0].Elsewhere? && Rely(m.w, es[0].e) { OutsideKeeps(m, es[0].e); }
      RunKeeps(n, es[1..]);
      LastsTransitive(m.w, n.w, Run(n, es[1..]).w);
    }
  }

  // ---------------------------------------------------------------- theorems over all runs

  /** A name nobody has used for an instance yet. */
  ghost predicate Initial(w: World) {
    w.store.cr.None? && w.admins == 0 && w.emptied == 0 && (w.users != map[] ==> w.populated)
  }

  /** Whatever fails, crashes or happens elsewhere: no more administrators are made than one and one for
      each time the server lost all its users, so at most one if it never did; the stored status is
      honest; and "Initialized" is never claimed of a server that never had a user. */
  lemma Safety(w: World, es: seq<Event>)
    requires Initial(w)
    ensures var v := Run(Machine(w, Idle, Failure), es).w;
      && v.admins <= v.emptied + 1
      && (v.store.cr.Some? ==>
            Honest(v.store.cr.value.status) && (Initialized(v.store.cr.value.status) ==> v.populated))
  {
    RunKeeps(Machine(w, Idle, Failure), es);
  }

  /** Between any two points of any history: a resource once initialized stays so, through the ready
      and the degraded writer alike, and a generated key is never replaced. */
  lemma NothingLost(w: World, before: seq<Event>, after: seq<Event>)
    requires Initial(w)
    ensures var m := Run(Machine(w, Idle, Failure), before);
      Lasts(m.w, Run(m, after).w)
  {
    RunKeeps(Machine(w, Idle, Failure), before);
    RunKeeps(Run(Machine(w, Idle, Failure), before), after);
  }
}
