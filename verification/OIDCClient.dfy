/** The OIDC client controller as a machine (internal/controller/pocketidoidcclient_controller.go and
    internal/controller/securitypolicy.go), and its safety over all runs. */
module OIDCClient {
  import opened Basics
  import opened Lifecycle
  import opened Invariants
  import opened GroupRefs
  import opened SecurityPolicy

  // ---------------------------------------------------------------- state

  datatype Spec = Spec(
    objectName: string, namespace: string, wantedId: Id, isPublic: bool, pkce: bool,
    callbackUrls: seq<string>, groupRefs: seq<string>, secretRef: Option<string>, envoy: Option<Envoy>)

  datatype More = More(secretName: string, policyName: string)

  datatype Body = Body(isPublic: bool, pkce: bool, callbackUrls: seq<string>, restricted: bool, groups: seq<Member>)

  /** A Kubernetes Secret, by the keys this controller writes; None is an absent key. `alias` is the
      copy under "client-secret". */
  datatype SecretData = SecretData(clientId: Option<string>, secret: Option<string>, issuer: Option<string>, alias: Option<string>)

  /** `current` is the server's side: the one valid secret of each client. */
  datatype Own = Own(secrets: map<string, SecretData>, current: map<Id, string>, policy: Option<Policy>)

  /** User groups of the namespace, instances of the cluster, hostnames of routes. */
  datatype Outer = Outer(groups: map<string, GroupInfo>, instances: set<InstanceKey>, routes: map<RouteRef, seq<string>>)

  type Client = Copy<Spec, More>
  type ClientWorld = World<Spec, More, Body, Own, Outer>
  type ClientMachine = Machine<Spec, More, Body, Own, Outer, Task>
  type ClientEvent = Event<Spec, More, Body, Own, Outer>
  type ClientPc = Pc<Spec, More, Task>

  /** What a run holds once its client is found or made: the copy it read, the client's id, and the
      status as changed in memory so far. */
  datatype Hold = Hold(g: Client, inst: Instance, id: Id, mem: SyncStatus<More>)

  datatype Task =
    | Admit(g: Client, inst: Instance, groups: map<string, GroupInfo>, members: seq<Member>)
    | Locate(g: Client, inst: Instance, members: seq<Member>)
    | Create(g: Client, inst: Instance, members: seq<Member>)
    | Amend(g: Client, inst: Instance, id: Id, members: seq<Member>)
    | ReadSecret(h: Hold)
    | Generate(h: Hold, present: bool)
    | WriteSecret(h: Hold, present: bool, value: string)
    | ReadOldPolicy(h: Hold)
    | DropPolicy(h: Hold)
    | ReadRoute(h: Hold)
    | ReadPolicy(h: Hold, desired: Policy)
    | PutPolicy(h: Hold, desired: Policy)
    | Refetch(h: Hold)

  function Key(inst: Instance): InstanceKey {
    InstanceKey(inst.namespace, inst.name)
  }

  function Target(spec: Spec, members: seq<Member>): Body {
    Body(spec.isPublic, spec.pkce, spec.callbackUrls, |members| > 0, members)
  }

  /** needsOIDCClientUpdate: name, flags, and the two lists up to order. */
  predicate NeedsUpdate(name: string, body: Body, wantedName: string, target: Body) {
    || name != wantedName
    || body.isPublic != target.isPublic
    || body.pkce != target.pkce
    || body.restricted != target.restricted
    || multiset(body.callbackUrls) != multiset(target.callbackUrls)
    || multiset(Ids(body.groups)) != multiset(Ids(target.groups))
  }

  predicate EnvoyOn(spec: Spec) {
    spec.envoy.Some? && spec.envoy.value.enabled
  }

  predicate Filled(own: Own, name: string) {
    name in own.secrets && own.secrets[name].secret.Some?
  }

  // ---------------------------------------------------------------- the machine

  /** The next reference, or the lookup of the client once all are admitted. */
  function NextRef(g: Client, inst: Instance, groups: map<string, GroupInfo>, members: seq<Member>): ClientPc {
    if |members| >= |g.spec.groupRefs| then Work(Locate(g, inst, members))
    else if g.spec.groupRefs[|members|] !in groups then Fail(g, g.status, "UserGroupNotFound")
    else Work(Task.Admit(g, inst, groups, members))
  }

  function Located(w: ClientWorld, g: Client, t: Tick): Option<Option<Entry<Body>>> {
    if g.status.id != "" then
      var found := Lookup(w, g.status.id, t.outcome);
      if found.None? then None else Some(found)
    else
      var rows := List(w, t);
      if rows.None? then None else Some(FindByName(rows.value, g.name))
  }

  function Decide(g: Client, inst: Instance, members: seq<Member>, found: Option<Entry<Body>>): ClientPc {
    match found
    case None => Work(Create(g, inst, members))
    case Some(e) =>
      if NeedsUpdate(e.name, e.body, g.name, Target(g.spec, members)) then Work(Amend(g, inst, e.id, members))
      else ToSecret(Hold(g, inst, e.id, g.status))
  }

  /** ensureCredentialsSecret starts with a read, if the client wants a secret at all. */
  function ToSecret(h: Hold): ClientPc {
    if h.g.spec.isPublic || h.g.spec.secretRef.None? then ToPolicy(h) else Work(ReadSecret(h))
  }

  /** ensureSecurityPolicy: remove, refuse, or build. */
  function ToPolicy(h: Hold): ClientPc {
    if !EnvoyOn(h.g.spec) then
      if h.mem.more.policyName != "" then Work(ReadOldPolicy(h)) else Work(Refetch(h))
    else if h.mem.id == "" || h.mem.more.secretName == "" || h.g.spec.envoy.value.routeRef.None? then
      Fail(h.g, h.mem, "SecurityPolicyFailed")
    else Work(ReadRoute(h))
  }

  function Unpoliced(h: Hold): ClientPc {
    Work(Refetch(h.(mem := h.mem.(more := h.mem.more.(policyName := "")))))
  }

  /** The referenced route, by default of the client's own namespace. */
  function RouteOf(spec: Spec): RouteRef {
    if spec.envoy.None? || spec.envoy.value.routeRef.None? then RouteRef("", spec.namespace)
    else
      var ref := spec.envoy.value.routeRef.value;
      if ref.namespace != "" then ref else RouteRef(ref.name, spec.namespace)
  }

  function Desired(h: Hold, outer: Outer): Option<Policy> {
    var ref := RouteOf(h.g.spec);
    if h.g.spec.envoy.None? || ref !in outer.routes then None else
      Build(h.g.spec.objectName, h.g.spec.namespace, h.g.spec.envoy.value, h.mem.id, h.mem.more.secretName,
            h.inst.appUrl, ref.name, outer.routes[ref])
  }

  /** The name of the credentials Secret; the empty one if there is none. */
  function SecretOf(spec: Spec): string {
    if spec.secretRef.Some? then spec.secretRef.value else ""
  }

  function FirstStep(w: ClientWorld, g: Client, inst: Instance, t: Tick): ClientMachine {
    if g.spec.groupRefs == [] then LocateStep(w, g, inst, [], t)
    else if !t.outcome.Ok? then Machine(w, Fail(g, g.status, "UserGroupListFailed"), Failure)
    else Machine(w, NextRef(g, inst, w.outer.groups, []), Failure)
  }

  function LocateStep(w: ClientWorld, g: Client, inst: Instance, members: seq<Member>, t: Tick): ClientMachine {
    var found := Located(w, g, t);
    Machine(w, if found.None? then Fail(g, g.status, "ClientSyncFailed") else Decide(g, inst, members, found.value), Failure)
  }

  /** One reference: the group is known from the list, its instance is looked up now. */
  function AdmitStep(w: ClientWorld, k: Task, t: Tick): ClientPc
    requires k.Admit?
  {
    var refs, next := k.g.spec.groupRefs, |k.members|;
    if next >= |refs| || refs[next] !in k.groups then NextRef(k.g, k.inst, k.groups, k.members)
    else if !t.outcome.Ok? then Fail(k.g, k.g.status, "UserGroupInstanceNotFound")
    else
      match GroupRefs.Admit(k.groups[refs[next]], w.outer.instances, Key(k.inst))
      case Denied(reason) => Fail(k.g, k.g.status, reason)
      case Allowed(member) => NextRef(k.g, k.inst, k.groups, k.members + [member])
  }

  /** GenerateClientSecret: a fresh secret that replaces the client's current one. */
  function GenerateStep(w: ClientWorld, k: Task, t: Tick): ClientMachine
    requires k.Generate?
  {
    var w := w.(calls := w.calls + [SentOther(k.h.id)]);
    if t.outcome.Lost? || k.h.id !in w.live then Machine(w, Idle, Failure) else
      Machine(w.(own := w.own.(current := w.own.current[k.h.id := t.minted])),
              if t.outcome.Ok? then Work(WriteSecret(k.h, k.present, t.minted)) else Idle, Failure)
  }

  function Credentials(h: Hold, value: string): SecretData {
    SecretData(Some(h.id), Some(value), Some(h.inst.appUrl), Some(value))
  }

  /** Create or Update of the Secret; a create fails if the Secret exists, an update if not. */
  function WriteSecretStep(w: ClientWorld, k: Task, t: Tick): ClientMachine
    requires k.WriteSecret?
  {
    var name := SecretOf(k.h.g.spec);
    if t.outcome.Lost? || (name in w.own.secrets) != k.present then Machine(w, Idle, Failure) else
      Machine(w.(own := w.own.(secrets := w.own.secrets[name := Credentials(k.h, k.value)])),
              if t.outcome.Ok? then ToPolicy(k.h.(mem := k.h.mem.(more := k.h.mem.more.(secretName := name)))) else Idle, Failure)
  }

  function SecretStep(w: ClientWorld, k: Task, t: Tick): ClientMachine
    requires AboutSecret(k)
  {
    match k
    case ReadSecret(h) =>
      var name := SecretOf(h.g.spec);
      Machine(w, if !t.outcome.Ok? then Idle else if Filled(w.own, name) then ToPolicy(h)
                 else Work(Generate(h, name in w.own.secrets)), Failure)
    case Generate(_, _) => GenerateStep(w, k, t)
    case WriteSecret(_, _, _) => WriteSecretStep(w, k, t)
  }

  function PolicyStep(w: ClientWorld, k: Task, t: Tick): ClientMachine
    requires k.ReadOldPolicy? || k.DropPolicy? || k.ReadRoute? || k.ReadPolicy? || k.PutPolicy?
  {
    var failed := Fail(k.h.g, k.h.mem, "SecurityPolicyFailed");
    match k
    case ReadOldPolicy(h) =>
      Machine(w, if t.outcome.Ok? && w.own.policy.Some? then Work(DropPolicy(h)) else Unpoliced(h), Failure)
    case DropPolicy(h) =>
      if t.outcome.Lost? || w.own.policy.None? then Machine(w, failed, Failure) else
        Machine(w.(own := w.own.(policy := None)), if t.outcome.Ok? then Unpoliced(h) else failed, Failure)
    case ReadRoute(h) =>
      var desired := Desired(h, w.outer);
      Machine(w, if !t.outcome.Ok? || desired.None? then failed else Work(ReadPolicy(h, desired.value)), Failure)
    case ReadPolicy(h, desired) =>
      Machine(w, if t.outcome.Ok? then Work(PutPolicy(h, desired)) else failed, Failure)
    case PutPolicy(h, desired) =>
      if t.outcome.Lost? then Machine(w, failed, Failure) else
        Machine(w.(own := w.own.(policy := Some(desired))),
                if t.outcome.Ok? then Work(Refetch(h.(mem := h.mem.(more := h.mem.more.(policyName := h.g.spec.objectName))))) else failed,
                Failure)
  }

  function RefetchStep(w: ClientWorld, h: Hold, t: Tick): ClientMachine {
    if !t.outcome.Ok? || w.store.cr.None? then Machine(w, Idle, Failure) else
      var c := w.store.cr.value;
      Machine(w, Report(c, Synced(c.status, c.generation, h.id, t.now, false, h.mem.more), Success), Failure)
  }

  /** A client that has just been made has no secret yet, whoever had its id before. */
  function Unsecret(w: ClientWorld, v: ClientWorld): ClientWorld {
    v.(own := v.own.(current := map id | id in v.own.current && (id in w.live || id !in v.live) :: v.own.current[id]))
  }

  function SyncStep(w: ClientWorld, k: Task, t: Tick): ClientMachine
    requires AboutClient(k)
  {
    match k
    case Locate(g, inst, members) => LocateStep(w, g, inst, members, t)
    case Create(g, inst, members) =>
      var (v, made) := Make(w, g.spec, Target(g.spec, members), g.spec.wantedId, t);
      Machine(Unsecret(w, v), if made.None? then Fail(g, g.status, "ClientSyncFailed")
                 else ToSecret(Hold(g, inst, made.value.id, g.status.(id := made.value.id))), Failure)
    case Amend(g, inst, id, members) =>
      var (w, changed) := Change(w, id, g.spec, Target(g.spec, members), t.outcome);
      Machine(w, if changed.None? then Fail(g, g.status, "ClientSyncFailed") else ToSecret(Hold(g, inst, id, g.status)), Failure)
  }

  predicate AboutSecret(k: Task) {
    k.ReadSecret? || k.Generate? || k.WriteSecret?
  }

  predicate AboutClient(k: Task) {
    k.Locate? || k.Create? || k.Amend?
  }

  function TaskStep(w: ClientWorld, k: Task, t: Tick): ClientMachine {
    if k.Admit? then Machine(w, AdmitStep(w, k, t), Failure)
    else if AboutClient(k) then SyncStep(w, k, t)
    else if AboutSecret(k) then SecretStep(w, k, t)
    else if k.Refetch? then RefetchStep(w, k.h, t)
    else PolicyStep(w, k, t)
  }

  function Step(m: ClientMachine, t: Tick): ClientMachine {
    match m.pc
    case Start(g, inst) => FirstStep(m.w, g, inst, t)
    case Work(k) => TaskStep(m.w, k, t)
    case _ => SharedStep(m, t)
  }

  function Apply(m: ClientMachine, ev: ClientEvent): ClientMachine {
    if ev.Call? then Step(m, ev.t) else Disturb(m, ev)
  }

  /** Any number of reconciles, interleaved with anything others do, each cut short anywhere. */
  function Run(m: ClientMachine, es: seq<ClientEvent>): ClientMachine
    decreases |es|
  {
    if es == [] then m else Run(Apply(m, es[0]), es[1..])
  }

  /** One run until it ends, or until the script of what happens to it ends: then it has died. */
  function Play(m: ClientMachine, script: seq<ClientEvent>): (ClientMachine, seq<ClientEvent>)
    decreases |script|
  {
    if m.pc.Idle? then (m, script)
    else if script == [] then (Machine(m.w, Idle, Failure), [])
    else Play(Apply(m, script[0]), script[1..])
  }

  // ---------------------------------------------------------------- safety over all runs

  /** Fail closed, as sent: the payload is restricted exactly when the spec lists references, and
      then names one synced group for each of them; the other fields are the spec's. */
  ghost predicate Restricted(spec: Spec, body: Body) {
    && (body.restricted <==> spec.groupRefs != [])
    && |body.groups| == |spec.groupRefs|
    && (forall i :: 0 <= i < |body.groups| ==> body.groups[i].id != "")
    && body.isPublic == spec.isPublic && body.pkce == spec.pkce && body.callbackUrls == spec.callbackUrls
  }

  ghost predicate FailClosed(w: ClientWorld) {
    forall c :: c in w.calls ==>
      (c.SentCreate? ==> Restricted(c.spec, c.body)) && (c.SentUpdate? ==> Restricted(c.spec, c.body))
  }

  ghost predicate MembersOk(g: Client, members: seq<Member>) {
    |members| <= |g.spec.groupRefs| && forall i :: 0 <= i < |members| ==> members[i].id != ""
  }

  ghost predicate Full(g: Client, members: seq<Member>) {
    MembersOk(g, members) && |members| == |g.spec.groupRefs|
  }

  /** Every member admitted so far is the group its reference names, of this very instance. */
  ghost predicate Admitted(g: Client, inst: Instance, groups: map<string, GroupInfo>, members: seq<Member>) {
    MembersOk(g, members) &&
    forall i :: 0 <= i < |members| ==>
      && g.spec.groupRefs[i] in groups && groups[g.spec.groupRefs[i]].instance == Key(inst)
      && members[i].id == groups[g.spec.groupRefs[i]].id
  }

  /** The in-memory status differs from the copy's only in what the run has learnt. */
  ghost predicate HoldOk(w: ClientWorld, h: Hold) {
    && Chosen(w, h.g, h.id)
    && h.mem == h.g.status.(id := h.mem.id, more := h.mem.more)
    && (h.mem.id == h.g.status.id || h.mem.id == h.id)
  }

  ghost predicate TaskKnows(w: ClientWorld, k: Task) {
    match k
    case Admit(g, inst, groups, members) => Seen(w, g) && g.finalizer && !g.deleting && Admitted(g, inst, groups, members)
    case Locate(g, _, members) => Seen(w, g) && g.finalizer && !g.deleting && Full(g, members)
    case Create(g, _, members) => Seen(w, g) && g.finalizer && g.status.id == "" && NoneNamed(w) && Full(g, members)
    case Amend(g, _, id, members) => Chosen(w, g, id) && Full(g, members)
    case _ => HoldOk(w, k.h)
  }

  ghost predicate Informed(w: ClientWorld, pc: ClientPc) {
    Knows(w, pc) && (pc.Work? ==> TaskKnows(w, pc.k))
  }

  ghost predicate MachineInv(m: ClientMachine) {
    Inv(m.w) && FailClosed(m.w) && Informed(m.w, m.pc)
  }

  lemma MemFailed(w: ClientWorld, h: Hold, reason: string)
    requires HoldOk(w, h)
    ensures Reportable(w, h.g, Failed(h.mem, h.g.generation, reason))
  {
    FailedCoherent(h.mem, h.g.generation, reason);
  }

  lemma PolicyKnows(w: ClientWorld, h: Hold)
    requires HoldOk(w, h)
    ensures Informed(w, ToPolicy(h)) && Informed(w, ToSecret(h)) && Informed(w, Unpoliced(h))
  {
    MemFailed(w, h, "SecurityPolicyFailed");
  }

  lemma NextRefKnows(w: ClientWorld, g: Client, inst: Instance, groups: map<string, GroupInfo>, members: seq<Member>)
    requires Seen(w, g) && g.finalizer && !g.deleting && Admitted(g, inst, groups, members)
    ensures Informed(w, NextRef(g, inst, groups, members))
  {
    FailedCoherent(g.status, g.generation, "UserGroupNotFound");
  }

  lemma AdmitKnows(w: ClientWorld, k: Task, t: Tick)
    requires k.Admit? && TaskKnows(w, k)
    ensures Informed(w, AdmitStep(w, k, t))
  {
    var refs, next := k.g.spec.groupRefs, |k.members|;
    if next >= |refs| || refs[next] !in k.groups {
      NextRefKnows(w, k.g, k.inst, k.groups, k.members);
      return;
    }
    var one := GroupRefs.Admit(k.groups[refs[next]], w.outer.instances, Key(k.inst));
    FailedCoherent(k.g.status, k.g.generation, "UserGroupInstanceNotFound");
    if one.Denied? {
      FailedCoherent(k.g.status, k.g.generation, one.reason);
    } else {
      NextRefKnows(w, k.g, k.inst, k.groups, k.members + [one.value]);
    }
  }

  lemma LocateKnows(w: ClientWorld, g: Client, inst: Instance, members: seq<Member>, t: Tick)
    requires Inv(w) && Seen(w, g) && g.finalizer && !g.deleting && Full(g, members)
    ensures Informed(w, LocateStep(w, g, inst, members, t).pc)
  {
    var found := Located(w, g, t);
    if found.None? {
      FailedCoherent(g.status, g.generation, "ClientSyncFailed");
    } else {
      if g.status.id == "" { ListDecides(w, g, t); }
      if found.value.Some? { PolicyKnows(w, Hold(g, inst, found.value.value.id, g.status)); }
    }
  }

  /** `n` follows `w` and keeps everything. */
  ghost predicate Follows(w: ClientWorld, n: ClientMachine) {
    MachineInv(n) && Kept(w, n.w)
  }

  lemma FirstKeeps(w: ClientWorld, g: Client, inst: Instance, t: Tick)
    requires Inv(w) && FailClosed(w) && Seen(w, g) && g.finalizer && !g.deleting
    ensures Follows(w, FirstStep(w, g, inst, t))
  {
    if g.spec.groupRefs == [] { LocateKnows(w, g, inst, [], t); }
    else if t.outcome.Ok? { NextRefKnows(w, g, inst, w.outer.groups, []); }
    else { FailedCoherent(g.status, g.generation, "UserGroupListFailed"); }
  }

  lemma CreateKeeps(w: ClientWorld, k: Task, t: Tick)
    requires Inv(w) && FailClosed(w) && TaskKnows(w, k) && k.Create?
    ensures Follows(w, SyncStep(w, k, t))
  {
    var body := Target(k.g.spec, k.members);
    MakeKeeps(w, k.g, k.g.spec, body, k.g.spec.wantedId, t);
    var (u, made) := Make(w, k.g.spec, body, k.g.spec.wantedId, t);
    var v := Unsecret(w, u);
    OwnKeeps(u, v, k.g);
    assert FailClosed(v);
    if made.Some? { PolicyKnows(v, Hold(k.g, k.inst, made.value.id, k.g.status.(id := made.value.id))); }
    else { FailedCoherent(k.g.status, k.g.generation, "ClientSyncFailed"); }
  }

  lemma AmendKeeps(w: ClientWorld, k: Task, t: Tick)
    requires Inv(w) && FailClosed(w) && TaskKnows(w, k) && k.Amend?
    ensures Follows(w, SyncStep(w, k, t))
  {
    var body := Target(k.g.spec, k.members);
    ChangeKeeps(w, k.g, k.id, k.g.spec, body, t.outcome);
    var (v, changed) := Change(w, k.id, k.g.spec, body, t.outcome);
    assert FailClosed(v);
    if changed.Some? { PolicyKnows(v, Hold(k.g, k.inst, k.id, k.g.status)); }
    else { FailedCoherent(k.g.status, k.g.generation, "ClientSyncFailed"); }
  }

  lemma SecretKeeps(w: ClientWorld, k: Task, t: Tick)
    requires AboutSecret(k)
    requires Inv(w) && FailClosed(w) && TaskKnows(w, k)
    ensures Follows(w, SecretStep(w, k, t))
  {
    var h, n := k.h, SecretStep(w, k, t);
    SecretAside(w, k, t);
    AsideKeeps(w, n.w, h.g, h.id);
    if k.WriteSecret? {
      PolicyKnows(n.w, h.(mem := h.mem.(more := h.mem.more.(secretName := SecretOf(h.g.spec)))));
    } else if k.ReadSecret? {
      PolicyKnows(n.w, h);
    }
  }

  /** The credentials step changes its own state and sends no create or update. */
  lemma SecretAside(w: ClientWorld, k: Task, t: Tick)
    requires AboutSecret(k)
    requires FailClosed(w)
    ensures var v := SecretStep(w, k, t).w;
      v == w.(own := v.own, calls := v.calls) && FailClosed(v) && forall c :: c in v.calls ==> c in w.calls || !c.SentCreate?
  {
  }

  lemma PolicyReadKeeps(w: ClientWorld, k: Task, t: Tick)
    requires k.ReadOldPolicy? || k.ReadRoute? || k.ReadPolicy?
    requires Inv(w) && FailClosed(w) && TaskKnows(w, k)
    ensures Follows(w, PolicyStep(w, k, t))
  {
    MemFailed(w, k.h, "SecurityPolicyFailed");
  }

  lemma PolicyAside(w: ClientWorld, k: Task, t: Tick)
    requires k.DropPolicy? || k.PutPolicy?
    ensures var n := PolicyStep(w, k, t);
      && n.w == w.(own := n.w.own)
      && (n.pc == Fail(k.h.g, k.h.mem, "SecurityPolicyFailed") || n.pc == Unpoliced(k.h)
          || n.pc == Work(Refetch(k.h.(mem := k.h.mem.(more := k.h.mem.more.(policyName := k.h.g.spec.objectName))))))
  {
  }

  lemma PolicyWriteKeeps(w: ClientWorld, k: Task, t: Tick)
    requires k.DropPolicy? || k.PutPolicy?
    requires Inv(w) && FailClosed(w) && TaskKnows(w, k)
    ensures Follows(w, PolicyStep(w, k, t))
  {
    var v := PolicyStep(w, k, t).w;
    PolicyAside(w, k, t);
    OwnKeeps(w, v, k.h.g);
    assert HoldOk(v, k.h);
    MemFailed(v, k.h, "SecurityPolicyFailed");
  }

  lemma RefetchKeeps(w: ClientWorld, h: Hold, t: Tick)
    requires Inv(w) && FailClosed(w) && HoldOk(w, h)
    ensures Follows(w, RefetchStep(w, h, t))
  {
    ReadChosen(w, h.g, h.id);
    var c := w.store.cr.value;
    SyncedCoherent(c.status, c.generation, h.id, t.now, false, h.mem.more);
  }

  lemma TaskKeeps(w: ClientWorld, k: Task, t: Tick)
    requires Inv(w) && FailClosed(w) && TaskKnows(w, k)
    ensures Follows(w, TaskStep(w, k, t))
  {
    if k.Admit? { AdmitKnows(w, k, t); }
    else if k.Locate? { LocateKnows(w, k.g, k.inst, k.members, t); }
    else if k.Create? { CreateKeeps(w, k, t); }
    else if k.Amend? { AmendKeeps(w, k, t); }
    else if k.Refetch? { RefetchKeeps(w, k.h, t); }
    else if AboutSecret(k) { SecretKeeps(w, k, t); }
    else if k.DropPolicy? || k.PutPolicy? { PolicyWriteKeeps(w, k, t); }
    else { PolicyReadKeeps(w, k, t); }
  }

  /** The shared steps send deletes at most. */
  lemma SharedFailClosed(m: ClientMachine, t: Tick)
    requires !m.pc.Start? && !m.pc.Work? && FailClosed(m.w)
    ensures FailClosed(SharedStep(m, t).w)
  {
  }

  lemma StepKeeps(m: ClientMachine, t: Tick)
    requires MachineInv(m)
    ensures Follows(m.w, Step(m, t))
  {
    match m.pc
    case Start(g, inst) => FirstKeeps(m.w, g, inst, t);
    case Work(k) => TaskKeeps(m.w, k, t);
    case _ => SharedKeeps(m, t); SharedFailClosed(m, t);
  }

  /** No call of the controller changes the spec. */
  lemma StepSpec(m: ClientMachine, t: Tick)
    requires MachineInv(m)
    ensures var v := Step(m, t).w; v.store.cr.Some? ==> m.w.store.cr.Some? && v.store.cr.value.spec == m.w.store.cr.value.spec
  {
  }

  lemma DisturbKeeps(m: ClientMachine, ev: ClientEvent)
    requires MachineInv(m)
    ensures Follows(m.w, Disturb(m, ev))
  {
    if ev.Elsewhere? && Rely(m.w, ev.e) {
      OutsideKeeps(m.w, ev.e);
      OutsideKnows(m.w, ev.e, m.pc);
      if m.pc.Work? { TaskStable(m.w, ev.e, m.pc.k); }
    }
  }

  lemma TaskStable(w: ClientWorld, e: Outside<Spec, More, Body, Own, Outer>, k: Task)
    requires Rely(w, e) && TaskKnows(w, k)
    ensures TaskKnows(After(w, e), k)
  {
    match k
    case Admit(g, _, _, _) => OutsideSeen(w, e, g);
    case Locate(g, _, _) => OutsideSeen(w, e, g);
    case Create(g, _, _) => OutsideSeen(w, e, g);
    case Amend(g, _, id, _) => OutsideChosen(w, e, g, id);
    case _ => OutsideChosen(w, e, k.h.g, k.h.id);
  }

  lemma {:induction false} RunKeeps(m: ClientMachine, es: seq<ClientEvent>)
    requires MachineInv(m)
    ensures Follows(m.w, Run(m, es))
    decreases |es|
  {
    if es != [] {
      var n := Apply(m, es[0]);
      if es[0].Call? { StepKeeps(m, es[0].t); } else { DisturbKeeps(m, es[0]); }
      RunKeeps(n, es[1..]);
      KeptTransitive(m.w, n.w, Run(n, es[1..]).w);
    }
  }

  /** From a fresh start, whatever fails, crashes or happens elsewhere: never a second client of our
      name, never a create without the finalizer, never a recorded client that the stored
      resource does not still name and guard, a status whose flags agree, and no payload sent that is
      less restricted than its spec, names a group that was not synced, or differs from the spec
      otherwise. */
  lemma Safety(w: ClientWorld, es: seq<ClientEvent>)
    requires Initial(w)
    ensures var v := Run(Machine(w, Idle, Failure), es).w;
      && AtMostOne(v)
      && (forall c :: c in v.calls && c.SentCreate? ==> c.guarded)
      && (forall id :: id in v.live && id in v.recorded ==> OwnedBy(v, id))
      && (v.store.cr.Some? ==> Coherent(v.store.cr.value.status))
      && FailClosed(v)
  {
    RunKeeps(Machine(w, Idle, Failure), es);
  }

  /** A recorded client id is never changed or cleared while its resource exists. */
  lemma WriteOnce(w: ClientWorld, before: seq<ClientEvent>, after: seq<ClientEvent>)
    requires Initial(w)
    ensures var m := Run(Machine(w, Idle, Failure), before);
      var v := Run(m, after).w;
      m.w.store.cr.Some? && v.store.cr.Some? && m.w.store.cr.value.uid == v.store.cr.value.uid
      && m.w.store.cr.value.status.id != ""
      ==> v.store.cr.value.status.id == m.w.store.cr.value.status.id
  {
    RunKeeps(Machine(w, Idle, Failure), before);
    RunKeeps(Run(Machine(w, Idle, Failure), before), after);
  }
}
