/** What one undisturbed reconcile of an OIDC client comes to: exactly when it succeeds, what it then
    leaves behind, and that a second one changes nothing. */
module OIDCRecovery {
  import opened Basics
  import opened Conditions
  import opened Lifecycle
  import opened Invariants
  import opened GroupRefs
  import opened SecurityPolicy
  import opened OIDCClient

  /** A run of API calls only, answered by ts[i], ts[i + 1], ... */
  function Drive(m: ClientMachine, ts: seq<Tick>, i: nat): ClientMachine
    decreases |ts| - i
  {
    if i >= |ts| || m.pc.Idle? then m else Drive(Step(m, ts[i]), ts, i + 1)
  }

  function Reconcile(w: ClientWorld, ts: seq<Tick>): ClientMachine {
    Drive(Machine(w, Read, Failure), ts, 0)
  }

  /** A fault-free call, as far as it does not list or make anything at the server. */
  predicate Fine(ts: seq<Tick>, i: nat, n: nat) {
    i + n <= |ts| && forall j | i <= j < i + n :: ts[j].outcome.Ok?
  }

  // ---------------------------------------------------------------- exact conditions

  predicate WantsSecret(spec: Spec) {
    !spec.isPublic && spec.secretRef.Some?
  }

  /** Whether the policy step can succeed, given what the run knows by then. */
  predicate PolicyPossible(spec: Spec, outer: Outer, id: Id, secretName: string) {
    spec.envoy.Some? && spec.envoy.value.enabled ==>
      && id != "" && secretName != "" && spec.envoy.value.routeRef.Some?
      && NamedRoute(spec) in outer.routes && outer.routes[NamedRoute(spec)] != []
  }

  /** The route the spec names; without a namespace, in the client's own. */
  function NamedRoute(spec: Spec): RouteRef
    requires spec.envoy.Some? && spec.envoy.value.routeRef.Some?
  {
    var ref := spec.envoy.value.routeRef.value;
    RouteRef(ref.name, if ref.namespace == "" then spec.namespace else ref.namespace)
  }

  /** The Secret name in memory once the credentials step is done. */
  function SecretNameAfter(own: Own, spec: Spec, before: string): string {
    if WantsSecret(spec) && !Filled(own, spec.secretRef.value) then spec.secretRef.value else before
  }

  function Resolved(w: ClientWorld, inst: Instance): Resolution<seq<Member>>
    requires w.store.cr.Some?
  {
    Resolve(w.store.cr.value.spec.groupRefs, w.outer.groups, w.outer.instances, InstanceKey(inst.namespace, inst.name))
  }

  /** The condition for one undisturbed reconcile to succeed, in terms of what a caller could look up
      before it: the references resolve; a recorded client still exists, and a client still to be
      made is not refused for its wanted id; and, with Envoy on, the client's id is recorded or the
      client does not exist yet, and the Secret's name is recorded or the Secret not yet filled. */
  ghost predicate Recoverable(w: ClientWorld, inst: Instance)
    requires w.store.cr.Some?
  {
    var c := w.store.cr.value;
    && Resolved(w, inst).Allowed?
    && (c.status.id != "" ==> c.status.id in w.live)
    && (c.status.id == "" && NoneNamed(w) && c.spec.wantedId != "" ==> c.spec.wantedId !in w.live)
    && (EnvoyOn(c.spec) ==> c.status.id != "" || NoneNamed(w))
    && PolicyPossible(c.spec, w.outer, "known", SecretNameAfter(w.own, c.spec, c.status.more.secretName))
  }

  // ---------------------------------------------------------------- the end of a run

  /** A hold that agrees with the stored resource: nobody has touched it. */
  ghost predicate Quiet(w: ClientWorld, h: Hold) {
    && w.store.cr == Some(h.g) && h.g.finalizer && !h.g.deleting && h.g.name == w.setup.key
    && h.mem == h.g.status.(id := h.mem.id, more := h.mem.more)
    && (h.mem.id == h.g.status.id || h.mem.id == h.id)
    && h.id != "" && h.id in w.live && (h.g.status.id == "" || h.g.status.id == h.id)
  }

  /** `v` is `w` with the success status of `h` written over its resource. */
  ghost predicate Concluded(w: ClientWorld, v: ClientWorld, h: Hold, policyName: string) {
    && w.store.cr.Some? && v.store.cr.Some? && v.store.cr.value.status.lastSync.Some?
    && v.store.clock == w.store.clock + 1
    && v.store.cr.value == w.store.cr.value.(
         status := Synced(h.g.status, h.g.generation, h.id, v.store.cr.value.status.lastSync.value, false,
                          h.mem.more.(policyName := policyName)),
         version := w.store.clock + 1)
  }

  ghost predicate SameServer(w: ClientWorld, v: ClientWorld) {
    v.setup == w.setup && v.live == w.live && v.outer == w.outer && v.calls == w.calls
    && v.own.secrets == w.own.secrets && v.own.current == w.own.current
  }

  ghost predicate Unready(v: ClientWorld) {
    v.store.cr.Some? && !v.store.cr.value.status.ready
  }

  lemma RefetchDrive(w: ClientWorld, h: Hold, ts: seq<Tick>, i: nat)
    requires Quiet(w, h) && Fine(ts, i, 2)
    ensures var n := Drive(Machine(w, Work(Refetch(h)), Failure), ts, i);
      && n.pc.Idle? && n.last.Success? && Concluded(w, n.w, h, h.mem.more.policyName)
      && SameServer(w, n.w) && n.w.own == w.own
  {
    var m1 := Step(Machine(w, Work(Refetch(h)), Failure), ts[i]);
    var m2 := Step(m1, ts[i + 1]);
    assert Drive(m1, ts, i + 1) == Drive(m2, ts, i + 2) == m2;
  }

  lemma FailDrive(w: ClientWorld, h: Hold, ts: seq<Tick>, i: nat)
    requires Quiet(w, h) && Fine(ts, i, 1)
    ensures var n := Drive(Machine(w, Fail(h.g, h.mem, "SecurityPolicyFailed"), Failure), ts, i);
      n.pc.Idle? && n.last.Failure? && Unready(n.w) && SameServer(w, n.w)
  {
    var m1 := Step(Machine(w, Fail(h.g, h.mem, "SecurityPolicyFailed"), Failure), ts[i]);
    assert Drive(m1, ts, i + 1) == m1;
  }

  function PolicyNameAfter(spec: Spec): string {
    if EnvoyOn(spec) then spec.objectName else ""
  }

  /** What a successful run with Envoy off does to the policy: it goes if its name was on record, and is
      otherwise left, whether or not there is one. */
  ghost predicate Cleared(w: ClientWorld, v: ClientWorld, spec: Spec, policyName: string) {
    !(spec.envoy.Some? && spec.envoy.value.enabled) ==> v.own.policy == if policyName != "" then None else w.own.policy
  }

  /** What a run that had to fill the Secret `name` put there: the id and the current secret of its client,
      the application's URL as it stands, and the secret once more under its second key. */
  ghost predicate Filling(v: ClientWorld, name: string, id: Id, appUrl: string) {
    && name in v.own.secrets && id in v.own.current
    && var d := v.own.secrets[name];
    && d.clientId == Some(id) && d.secret == Some(v.own.current[id]) && d.alias == d.secret && d.issuer == Some(appUrl)
  }

  /** What a successful run from `w` does besides settling its resource. */
  ghost predicate Provides(w: ClientWorld, v: ClientWorld, inst: Instance, c: Client) {
    && Cleared(w, v, c.spec, c.status.more.policyName)
    && v.store.cr.Some?
    && (!c.spec.isPublic && c.spec.secretRef.Some? && !Filled(w.own, c.spec.secretRef.value) ==>
          Filling(v, c.spec.secretRef.value, v.store.cr.value.status.id, inst.appUrl))
  }

  /** A client made on the way has the id that the spec asks for, if it asks for one. */
  ghost predicate Obliges(w: ClientWorld, v: ClientWorld, c: Client) {
    c.status.id == "" && NoneNamed(w) && c.spec.wantedId != "" ==> v.store.cr.Some? && v.store.cr.value.status.id == c.spec.wantedId
  }

  /** The policy that a successful run leaves. */
  ghost predicate PolicyInPlace(v: ClientWorld, h: Hold) {
    EnvoyOn(h.g.spec) ==>
      && h.g.spec.envoy.value.routeRef.Some?
      && Desired(h, v.outer).Some? && v.own.policy == Desired(h, v.outer)
  }

  lemma UnpolicedDrive(w: ClientWorld, h: Hold, ts: seq<Tick>, i: nat)
    requires Quiet(w, h) && Fine(ts, i, 4) && !EnvoyOn(h.g.spec)
    ensures var n := Drive(Machine(w, ToPolicy(h), Failure), ts, i);
      && n.pc.Idle? && n.last.Success? && Concluded(w, n.w, h, "") && SameServer(w, n.w)
      && (h.mem.more.policyName == "" ==> n.w.own == w.own)
      && (h.mem.more.policyName != "" ==> n.w.own.policy.None?)
  {
    var m := Machine(w, ToPolicy(h), Failure);
    if h.mem.more.policyName == "" {
      RefetchDrive(w, h, ts, i);
    } else {
      var h' := h.(mem := h.mem.(more := h.mem.more.(policyName := "")));
      var m1 := Step(m, ts[i]);
      if w.own.policy.None? {
        assert m1 == Machine(w, Work(Refetch(h')), Failure);
        RefetchDrive(w, h', ts, i + 1);
      } else {
        var m2 := Step(m1, ts[i + 1]);
        assert Drive(m1, ts, i + 1) == Drive(m2, ts, i + 2);
        RefetchDrive(m2.w, h', ts, i + 2);
      }
    }
  }

  /** From the route to the policy in place. */
  lemma RouteDrive(w: ClientWorld, h: Hold, desired: Policy, ts: seq<Tick>, i: nat)
    requires Fine(ts, i, 3) && Desired(h, w.outer) == Some(desired)
    ensures var v := w.(own := w.own.(policy := Some(desired)));
      Drive(Machine(w, Work(ReadRoute(h)), Failure), ts, i) == Drive(Machine(v, Work(Refetch(Policed(h))), Failure), ts, i + 3)
  {
    var m1 := Step(Machine(w, Work(ReadRoute(h)), Failure), ts[i]);
    assert m1 == Machine(w, Work(ReadPolicy(h, desired)), Failure);
    var m2 := Step(m1, ts[i + 1]);
    assert m2 == Machine(w, Work(PutPolicy(h, desired)), Failure);
    assert Drive(m1, ts, i + 1) == Drive(m2, ts, i + 2) == Drive(Step(m2, ts[i + 2]), ts, i + 3);
  }

  function Policed(h: Hold): Hold {
    h.(mem := h.mem.(more := h.mem.more.(policyName := h.g.spec.objectName)))
  }

  lemma PolicedDrive(w: ClientWorld, h: Hold, ts: seq<Tick>, i: nat)
    requires Quiet(w, h) && Fine(ts, i, 5) && EnvoyOn(h.g.spec)
    requires h.mem.id != "" && h.mem.more.secretName != "" && h.g.spec.envoy.value.routeRef.Some?
    ensures var n := Drive(Machine(w, ToPolicy(h), Failure), ts, i);
      && n.pc.Idle? && (n.last.Success? <==> Desired(h, w.outer).Some?) && SameServer(w, n.w)
      && (n.last.Success? ==> Concluded(w, n.w, h, h.g.spec.objectName) && n.w.own == w.own.(policy := Desired(h, w.outer)))
      && (n.last.Failure? ==> Unready(n.w))
  {
    if Desired(h, w.outer).None? {
      assert Step(Machine(w, Work(ReadRoute(h)), Failure), ts[i]) == Machine(w, Fail(h.g, h.mem, "SecurityPolicyFailed"), Failure);
      FailDrive(w, h, ts, i + 1);
    } else {
      var desired := Desired(h, w.outer).value;
      RouteDrive(w, h, desired, ts, i);
      RefetchDrive(w.(own := w.own.(policy := Some(desired))), Policed(h), ts, i + 3);
    }
  }

  lemma PolicyDrive(w: ClientWorld, h: Hold, ts: seq<Tick>, i: nat)
    requires Quiet(w, h) && Fine(ts, i, 5)
    ensures var n := Drive(Machine(w, ToPolicy(h), Failure), ts, i);
      && n.pc.Idle? && SameServer(w, n.w)
      && (n.last.Success? <==> PolicyPossible(h.g.spec, w.outer, h.mem.id, h.mem.more.secretName))
      && (n.last.Success? ==> Concluded(w, n.w, h, PolicyNameAfter(h.g.spec)) && PolicyInPlace(n.w, h))
      && (n.last.Failure? ==> Unready(n.w))
      && Cleared(w, n.w, h.g.spec, h.mem.more.policyName)
  {
    if !EnvoyOn(h.g.spec) {
      UnpolicedDrive(w, h, ts, i);
    } else if h.mem.id == "" || h.mem.more.secretName == "" || h.g.spec.envoy.value.routeRef.None? {
      FailDrive(w, h, ts, i);
    } else {
      PolicedDrive(w, h, ts, i);
    }
  }

  // ---------------------------------------------------------------- the credentials step

  /** A run that generates a secret: the world and the hold it goes on with. */
  function Minted(w: ClientWorld, h: Hold, value: string): ClientWorld
    requires h.g.spec.secretRef.Some?
  {
    w.(calls := w.calls + [SentOther(h.id)],
       own := w.own.(current := w.own.current[h.id := value],
                     secrets := w.own.secrets[h.g.spec.secretRef.value := Credentials(h, value)]))
  }

  predicate Mints(own: Own, spec: Spec) {
    WantsSecret(spec) && !Filled(own, spec.secretRef.value)
  }

  function Named(h: Hold): Hold
    requires h.g.spec.secretRef.Some?
  {
    h.(mem := h.mem.(more := h.mem.more.(secretName := h.g.spec.secretRef.value)))
  }

  lemma MintDrive(w: ClientWorld, h: Hold, ts: seq<Tick>, i: nat)
    requires Quiet(w, h) && Fine(ts, i, 3) && WantsSecret(h.g.spec) && !Filled(w.own, h.g.spec.secretRef.value)
    ensures Drive(Machine(w, ToSecret(h), Failure), ts, i)
      == Drive(Machine(Minted(w, h, ts[i + 1].minted), ToPolicy(Named(h)), Failure), ts, i + 3)
  {
    var name := h.g.spec.secretRef.value;
    var m1 := Step(Machine(w, Work(ReadSecret(h)), Failure), ts[i]);
    var m2 := Step(m1, ts[i + 1]);
    var m3 := Step(m2, ts[i + 2]);
    assert m1 == Machine(w, Work(Generate(h, name in w.own.secrets)), Failure);
    assert m2.pc == Work(WriteSecret(h, name in w.own.secrets, ts[i + 1].minted));
    assert m3 == Machine(Minted(w, h, ts[i + 1].minted), ToPolicy(Named(h)), Failure);
    assert Drive(m1, ts, i + 1) == Drive(m2, ts, i + 2) == Drive(m3, ts, i + 3);
  }

  /** From the credentials step to the end. */
  lemma SecretDrive(w: ClientWorld, h: Hold, ts: seq<Tick>, i: nat)
    requires Quiet(w, h) && Fine(ts, i, 8)
    ensures var n := Drive(Machine(w, ToSecret(h), Failure), ts, i);
      var secretName := SecretNameAfter(w.own, h.g.spec, h.mem.more.secretName);
      && n.pc.Idle? && n.w.live == w.live && n.w.outer == w.outer && n.w.setup == w.setup
      && (n.last.Success? <==> PolicyPossible(h.g.spec, w.outer, h.mem.id, secretName))
      && (n.last.Success? ==>
            && var k := h.(mem := h.mem.(more := h.mem.more.(secretName := secretName)));
            && Concluded(w, n.w, k, PolicyNameAfter(h.g.spec)) && PolicyInPlace(n.w, k)
            && (WantsSecret(h.g.spec) ==> Filled(n.w.own, h.g.spec.secretRef.value)))
      && (n.last.Failure? ==> Unready(n.w))
      && (secretName == h.mem.more.secretName || Mints(w.own, h.g.spec))
      && Cleared(w, n.w, h.g.spec, h.mem.more.policyName)
      && (!Mints(w.own, h.g.spec) ==> SameServer(w, n.w))
      && (Mints(w.own, h.g.spec) ==> SameServer(Minted(w, h, ts[i + 1].minted), n.w))
  {
    if !WantsSecret(h.g.spec) {
      PolicyDrive(w, h, ts, i);
    } else if Filled(w.own, h.g.spec.secretRef.value) {
      assert Step(Machine(w, Work(ReadSecret(h)), Failure), ts[i]) == Machine(w, ToPolicy(h), Failure);
      PolicyDrive(w, h, ts, i + 1);
    } else {
      MintDrive(w, h, ts, i);
      var v := Minted(w, h, ts[i + 1].minted);
      PolicyDrive(v, Named(h), ts, i + 3);
    }
  }

  // ---------------------------------------------------------------- the result of a run

  /** Everything the controller looks after is in place, and the status says so. Of the Secret it only
      sees that it holds a client secret; OIDCLeftovers says when that is the right one. */
  ghost predicate Settled(v: ClientWorld, inst: Instance) {
    && v.store.cr.Some?
    && var c := v.store.cr.value;
    && c.finalizer && !c.deleting && c.name == v.setup.key
    && c.status.id != "" && c.status.id in v.live
    && AsAsked(v.live[c.status.id], v.setup.key, c.spec, v.outer, inst)
    && (WantsSecret(c.spec) ==> Filled(v.own, c.spec.secretRef.value))
    && c.status.ready && c.status.synced && c.status.lastSync.Some?
    && Find(c.status.conditions, "Ready") == Some(Condition("Ready", true, "Synced", c.generation))
    && c.status.more.policyName == PolicyNameAfter(c.spec)
    && PolicyPossible(c.spec, v.outer, c.status.id, c.status.more.secretName)
    && PolicyInPlace(v, Hold(c, inst, c.status.id, c.status))
    && (c.spec.envoy.Some? && c.spec.envoy.value.enabled ==> v.own.policy.Some? && PolicyAsAsked(v.own.policy.value, c, v.outer, inst))
  }

  /** The policy, field by field. */
  ghost predicate PolicyAsAsked(p: Policy, c: Client, outer: Outer, inst: Instance) {
    && c.spec.envoy.Some? && c.spec.envoy.value.routeRef.Some? && NamedRoute(c.spec) in outer.routes && outer.routes[NamedRoute(c.spec)] != []
    && var eg, host := c.spec.envoy.value, outer.routes[NamedRoute(c.spec)][0];
    && p.name == c.spec.objectName && p.namespace == c.spec.namespace && p.route == eg.routeRef.value.name
    && p.clientId == c.status.id && p.secretName == c.status.more.secretName
    && p.issuer <= inst.appUrl && (forall i :: |p.issuer| <= i < |inst.appUrl| ==> inst.appUrl[i] == '/')
    && (p.issuer == "" || p.issuer[|p.issuer| - 1] != '/')
    && p.authorizationEndpoint == p.issuer + "/authorize" && p.tokenEndpoint == p.issuer + "/api/oidc/token"
    && p.redirectUrl == "https://" + host + (if eg.callbackPath != "" then eg.callbackPath else "/oauth2/callback")
    && p.logoutPath == if eg.logoutPath != "" then eg.logoutPath else "/logout"
  }

  lemma DesiredAsAsked(h: Hold, c: Client, outer: Outer)
    requires Desired(h, outer).Some? && h.g.spec.envoy.value.routeRef.Some?
    requires c.spec == h.g.spec && c.status.id == h.mem.id && c.status.more.secretName == h.mem.more.secretName
    ensures PolicyAsAsked(Desired(h, outer).value, c, outer, h.inst)
  {
    var eg, ref := h.g.spec.envoy.value, NamedRoute(h.g.spec);
    assert RouteOf(h.g.spec) == ref;
    BuildExact(h.g.spec.objectName, h.g.spec.namespace, eg, h.mem.id, h.mem.more.secretName, h.inst.appUrl, ref.name, outer.routes[ref]);
  }

  /** The ids of the groups that the references name. */
  function NamedGroups(refs: seq<string>, groups: map<string, GroupInfo>): seq<Id> {
    seq(|refs|, i requires 0 <= i < |refs| => if refs[i] in groups then groups[refs[i]].id else "")
  }

  /** The client at the server, field by field, the two lists up to order. */
  ghost predicate AsAsked(r: Remote<Body>, key: string, spec: Spec, outer: Outer, inst: Instance) {
    && r.name == key && r.body.isPublic == spec.isPublic && r.body.pkce == spec.pkce
    && multiset(r.body.callbackUrls) == multiset(spec.callbackUrls)
    && (r.body.restricted <==> spec.groupRefs != [])
    && (forall i :: 0 <= i < |spec.groupRefs| ==>
          Admissible(spec.groupRefs[i], outer.groups, outer.instances, InstanceKey(inst.namespace, inst.name)))
    && multiset(Ids(r.body.groups)) == multiset(NamedGroups(spec.groupRefs, outer.groups))
  }

  /** needsOIDCClientUpdate is false exactly when nothing differs from what the spec asks. */
  lemma NeedsUpdateExact(r: Remote<Body>, key: string, spec: Spec, members: seq<Member>, outer: Outer, inst: Instance)
    requires Resolve(spec.groupRefs, outer.groups, outer.instances, InstanceKey(inst.namespace, inst.name)) == Allowed(members)
    ensures !NeedsUpdate(r.name, r.body, key, Target(spec, members)) <==> AsAsked(r, key, spec, outer, inst)
  {
    ResolveExact(spec.groupRefs, outer.groups, outer.instances, InstanceKey(inst.namespace, inst.name));
    assert Ids(members) == NamedGroups(spec.groupRefs, outer.groups);
  }

  lemma ConcludedSettled(w: ClientWorld, v: ClientWorld, h: Hold, members: seq<Member>)
    requires Quiet(w, h) && Concluded(w, v, h, PolicyNameAfter(h.g.spec)) && PolicyInPlace(v, h)
    requires v.live == w.live && v.outer == w.outer && v.setup == w.setup
    requires Resolved(w, h.inst) == Allowed(members)
    requires !NeedsUpdate(w.live[h.id].name, w.live[h.id].body, w.setup.key, Target(h.g.spec, members))
    requires PolicyPossible(h.g.spec, w.outer, h.mem.id, h.mem.more.secretName)
    requires WantsSecret(h.g.spec) ==> Filled(v.own, h.g.spec.secretRef.value)
    requires h.mem.id == h.id || !EnvoyOn(h.g.spec)
    ensures Settled(v, h.inst)
  {
    var c := v.store.cr.value;
    NeedsUpdateExact(w.live[h.id], w.setup.key, h.g.spec, members, w.outer, h.inst);
    if EnvoyOn(h.g.spec) {
      DesiredAsAsked(h, c, v.outer);
      DesiredAsAsked(Hold(c, h.inst, c.status.id, c.status), c, v.outer);
    }
    SetFind(h.g.status.conditions, Condition("Ready", true, "Synced", h.g.generation), "Ready");
  }

  /** From the credentials step to a settled resource. */
  lemma SettleDrive(w: ClientWorld, h: Hold, members: seq<Member>, ts: seq<Tick>, i: nat)
    requires Quiet(w, h) && Fine(ts, i, 8)
    requires Resolved(w, h.inst) == Allowed(members)
    requires !NeedsUpdate(w.live[h.id].name, w.live[h.id].body, w.setup.key, Target(h.g.spec, members))
    ensures var n := Drive(Machine(w, ToSecret(h), Failure), ts, i);
      && n.pc.Idle?
      && (n.last.Success? <==> PolicyPossible(h.g.spec, w.outer, h.mem.id, SecretNameAfter(w.own, h.g.spec, h.mem.more.secretName)))
      && (n.last.Success? ==> Settled(n.w, h.inst) && n.w.store.cr.value.status.id == h.id
                              && (h.mem.more == h.g.status.more ==> Provides(w, n.w, h.inst, h.g)))
      && (n.last.Failure? ==> Unready(n.w))
  {
    SecretDrive(w, h, ts, i);
    var n := Drive(Machine(w, ToSecret(h), Failure), ts, i);
    if n.last.Success? {
      var k := h.(mem := h.mem.(more := h.mem.more.(secretName := SecretNameAfter(w.own, h.g.spec, h.mem.more.secretName))));
      ConcludedSettled(w, n.w, k, members);
    }
  }

  lemma NoUpdateAfter(name: string, body: Body)
    ensures !NeedsUpdate(name, body, name, body)
  {
  }

  /** Whether the client, found or not, can be brought in line. */
  predicate Obtainable(w: ClientWorld, g: Client, found: Option<Entry<Body>>) {
    found.None? && g.spec.wantedId != "" ==> g.spec.wantedId !in w.live
  }

  ghost predicate AtWork(w: ClientWorld, g: Client) {
    w.store.cr == Some(g) && g.finalizer && !g.deleting && g.name == w.setup.key && "" !in w.live
  }

  /** The world after a create that the server accepted. */
  lemma CreateStep(w: ClientWorld, g: Client, inst: Instance, members: seq<Member>, t: Tick)
    requires AtWork(w, g) && g.status.id == "" && Good(w.live, t)
    ensures var n := Step(Machine(w, Work(Create(g, inst, members)), Failure), t);
      && n.w.store == w.store && n.w.setup == w.setup && n.w.outer == w.outer && n.w.own.secrets == w.own.secrets && n.w.own.policy == w.own.policy
      && (!Obtainable(w, g, None) ==> n.pc == Fail(g, g.status, "ClientSyncFailed") && n.last.Failure?)
      && (Obtainable(w, g, None) ==>
            && n.last.Failure? && exists id :: id != "" && id in n.w.live && n.w.live[id] == Remote(w.setup.key, Target(g.spec, members))
                                    && (g.spec.wantedId != "" ==> id == g.spec.wantedId)
                                    && n.pc == ToSecret(Hold(g, inst, id, g.status.(id := id))))
  {
    var made := Make(w, g.spec, Target(g.spec, members), g.spec.wantedId, t).1;
    if made.Some? {
      var id := made.value.id;
      assert Step(Machine(w, Work(Create(g, inst, members)), Failure), t).pc == ToSecret(Hold(g, inst, id, g.status.(id := id)));
    }
  }

  lemma CreateDrive(w: ClientWorld, g: Client, inst: Instance, members: seq<Member>, ts: seq<Tick>, i: nat)
    requires AtWork(w, g) && g.status.id == "" && Fine(ts, i, 9) && Good(w.live, ts[i])
    requires Resolved(w, inst) == Allowed(members)
    ensures var n := Drive(Machine(w, Work(Create(g, inst, members)), Failure), ts, i);
      && n.pc.Idle?
      && (n.last.Success? <==>
            (Obtainable(w, g, None) && PolicyPossible(g.spec, w.outer, "known", SecretNameAfter(w.own, g.spec, g.status.more.secretName))))
      && (n.last.Success? ==> Settled(n.w, inst) && Provides(w, n.w, inst, g) && Obliges(w, n.w, g))
      && (n.last.Failure? ==> Unready(n.w))
  {
    CreateStep(w, g, inst, members, ts[i]);
    var m1 := Step(Machine(w, Work(Create(g, inst, members)), Failure), ts[i]);
    if !Obtainable(w, g, None) {
      assert Drive(m1, ts, i + 1) == Step(m1, ts[i + 1]);
    } else {
      var id :| id != "" && id in m1.w.live && m1.w.live[id] == Remote(w.setup.key, Target(g.spec, members))
                && (g.spec.wantedId != "" ==> id == g.spec.wantedId)
                && m1.pc == ToSecret(Hold(g, inst, id, g.status.(id := id)));
      NoUpdateAfter(w.setup.key, Target(g.spec, members));
      SettleDrive(m1.w, Hold(g, inst, id, g.status.(id := id)), members, ts, i + 1);
    }
  }

  lemma AmendDrive(w: ClientWorld, g: Client, inst: Instance, id: Id, members: seq<Member>, ts: seq<Tick>, i: nat)
    requires AtWork(w, g) && id in w.live && (g.status.id == "" || g.status.id == id) && Fine(ts, i, 9)
    requires Resolved(w, inst) == Allowed(members)
    ensures var n := Drive(Machine(w, Work(Amend(g, inst, id, members)), Failure), ts, i);
      && n.pc.Idle?
      && (n.last.Success? <==> PolicyPossible(g.spec, w.outer, g.status.id, SecretNameAfter(w.own, g.spec, g.status.more.secretName)))
      && (n.last.Success? ==> Settled(n.w, inst) && Provides(w, n.w, inst, g))
      && (n.last.Failure? ==> Unready(n.w))
  {
    var body := Target(g.spec, members);
    var v := Change(w, id, g.spec, body, Ok).0;
    var m1 := Step(Machine(w, Work(Amend(g, inst, id, members)), Failure), ts[i]);
    var h := Hold(g, inst, id, g.status);
    assert m1 == Machine(v, ToSecret(h), Failure);
    NoUpdateAfter(w.setup.key, body);
    SettleDrive(v, h, members, ts, i + 1);
  }

  /** What a run makes of a lookup. */
  lemma DecideDrive(w: ClientWorld, g: Client, inst: Instance, members: seq<Member>, found: Option<Entry<Body>>, ts: seq<Tick>, i: nat)
    requires AtWork(w, g) && Fine(ts, i, 9) && Good(w.live, ts[i])
    requires Resolved(w, inst) == Allowed(members)
    requires found.None? ==> g.status.id == ""
    requires found.Some? ==> found.value.id in w.live && w.live[found.value.id] == Remote(found.value.name, found.value.body)
                             && (if g.status.id == "" then found.value.name == g.name else g.status.id == found.value.id)
    ensures var n := Drive(Machine(w, Decide(g, inst, members, found), Failure), ts, i);
      && n.pc.Idle?
      && (n.last.Success? <==>
            (Obtainable(w, g, found) &&
             PolicyPossible(g.spec, w.outer, if found.None? then "known" else g.status.id, SecretNameAfter(w.own, g.spec, g.status.more.secretName))))
      && (n.last.Success? ==> Settled(n.w, inst) && Provides(w, n.w, inst, g) && Obliges(w, n.w, g))
      && (n.last.Failure? ==> Unready(n.w))
  {
    if found.None? {
      CreateDrive(w, g, inst, members, ts, i);
    } else if NeedsUpdate(found.value.name, found.value.body, g.name, Target(g.spec, members)) {
      AmendDrive(w, g, inst, found.value.id, members, ts, i);
    } else {
      SettleDrive(w, Hold(g, inst, found.value.id, g.status), members, ts, i);
    }
  }

  // ---------------------------------------------------------------- references and lookup

  lemma LocateDrive(w: ClientWorld, g: Client, inst: Instance, members: seq<Member>, m: ClientMachine, ts: seq<Tick>, i: nat)
    requires AtWork(w, g) && Fine(ts, i, 10) && Good(w.live, ts[i]) && Good(w.live, ts[i + 1])
    requires Resolved(w, inst) == Allowed(members)
    requires !m.pc.Idle? && Step(m, ts[i]) == LocateStep(w, g, inst, members, ts[i])
    ensures var n := Drive(m, ts, i);
      && n.pc.Idle? && (n.last.Success? <==> Recoverable(w, inst))
      && (n.last.Success? ==> Settled(n.w, inst) && Provides(w, n.w, inst, g) && Obliges(w, n.w, g))
      && (n.last.Failure? ==> Unready(n.w))
  {
    var found := Located(w, g, ts[i]);
    if found.None? {
      var m1 := Step(m, ts[i]);
      assert Drive(m1, ts, i + 1) == Step(m1, ts[i + 1]);
    } else {
      if g.status.id == "" { FindSound(ts[i].order, w.live, g.name); }
      assert found.value.None? <==> g.status.id == "" && NoneNamed(w);
      DecideDrive(w, g, inst, members, found.value, ts, i + 1);
    }
  }

  /** One more reference. */
  lemma AdmitOne(w: ClientWorld, g: Client, inst: Instance, members: seq<Member>, ts: seq<Tick>, i: nat)
    requires |members| < |g.spec.groupRefs| && Fine(ts, i, 2)
    requires Resolve(g.spec.groupRefs[..|members|], w.outer.groups, w.outer.instances, Key(inst)) == Allowed(members)
    requires w.store.cr == Some(g)
    ensures var one := ResolveOne(g.spec.groupRefs[|members|], w.outer.groups, w.outer.instances, Key(inst));
      var m := Machine(w, NextRef(g, inst, w.outer.groups, members), Failure);
      && (one.Denied? ==> Resolved(w, inst).Denied? && var n := Drive(m, ts, i); n.pc.Idle? && n.last.Failure? && Unready(n.w))
      && (one.Allowed? ==>
            && Drive(m, ts, i) == Drive(Machine(w, NextRef(g, inst, w.outer.groups, members + [one.value]), Failure), ts, i + 1)
            && Resolve(g.spec.groupRefs[..|members| + 1], w.outer.groups, w.outer.instances, Key(inst)) == Allowed(members + [one.value]))
  {
    var refs, k := g.spec.groupRefs, |members|;
    ResolveSplit(refs, k, w.outer.groups, w.outer.instances, Key(inst));
    var one := ResolveOne(refs[k], w.outer.groups, w.outer.instances, Key(inst));
    var m := Machine(w, NextRef(g, inst, w.outer.groups, members), Failure);
    var m1 := Step(m, ts[i]);
    if refs[k] !in w.outer.groups {
      assert Drive(m1, ts, i + 1) == m1;
    } else if one.Denied? {
      assert Drive(m1, ts, i + 1) == Step(m1, ts[i + 1]);
    } else {
      assert m1 == Machine(w, NextRef(g, inst, w.outer.groups, members + [one.value]), Failure);
    }
  }

  /** What resolving the whole list says about a run on its way through it. */
  lemma {:induction false} AdmitDrive(w: ClientWorld, g: Client, inst: Instance, members: seq<Member>, ts: seq<Tick>, i: nat)
    requires AtWork(w, g) && |members| <= |g.spec.groupRefs|
    requires Fine(ts, i, |g.spec.groupRefs| - |members| + 10)
    requires forall j :: i <= j < i + |g.spec.groupRefs| - |members| + 2 ==> Good(w.live, ts[j])
    requires Resolve(g.spec.groupRefs[..|members|], w.outer.groups, w.outer.instances, Key(inst)) == Allowed(members)
    ensures var n := Drive(Machine(w, NextRef(g, inst, w.outer.groups, members), Failure), ts, i);
      && n.pc.Idle? && (n.last.Success? <==> Recoverable(w, inst))
      && (n.last.Success? ==> Settled(n.w, inst) && Provides(w, n.w, inst, g) && Obliges(w, n.w, g))
      && (n.last.Failure? ==> Unready(n.w))
    decreases |g.spec.groupRefs| - |members|
  {
    var refs, k := g.spec.groupRefs, |members|;
    if k == |refs| {
      assert refs[..k] == refs;
      LocateDrive(w, g, inst, members, Machine(w, NextRef(g, inst, w.outer.groups, members), Failure), ts, i);
    } else {
      AdmitOne(w, g, inst, members, ts, i);
      var one := ResolveOne(refs[k], w.outer.groups, w.outer.instances, Key(inst));
      if one.Allowed? { AdmitDrive(w, g, inst, members + [one.value], ts, i + 1); }
    }
  }

  lemma StartDrive(w: ClientWorld, g: Client, inst: Instance, ts: seq<Tick>, i: nat)
    requires AtWork(w, g) && Fine(ts, i, |g.spec.groupRefs| + 11)
    requires forall j :: i <= j < i + |g.spec.groupRefs| + 3 ==> Good(w.live, ts[j])
    ensures var n := Drive(Machine(w, Start(g, inst), Failure), ts, i);
      && n.pc.Idle? && (n.last.Success? <==> Recoverable(w, inst))
      && (n.last.Success? ==> Settled(n.w, inst) && Provides(w, n.w, inst, g) && Obliges(w, n.w, g))
      && (n.last.Failure? ==> Unready(n.w))
  {
    var m := Machine(w, Start(g, inst), Failure);
    if g.spec.groupRefs == [] {
      LocateDrive(w, g, inst, [], m, ts, i);
    } else {
      assert g.spec.groupRefs[..0] == [];
      AdmitDrive(w, g, inst, [], ts, i + 1);
    }
  }

  /** Recovery, exactly: an undisturbed reconcile of a client that is not being deleted succeeds if
      and only if it is Recoverable; it then leaves client, Secret and, with Envoy on, the policy as the
      spec asks, callback URLs and groups up to order; with Envoy off there is no policy afterwards if
      and only if there was none or its name was on record. Otherwise it reports that the client is not
      ready. */
  lemma Recovery(w: ClientWorld, inst: Instance, ts: seq<Tick>)
    requires "" !in w.live
    requires w.store.cr.Some? && !w.store.cr.value.deleting && w.store.cr.value.name == w.setup.key
    requires |ts| >= |w.store.cr.value.spec.groupRefs| + 14 && FaultFree(w.live, ts) && ts[1].gate == Granted(inst)
    ensures var n := Reconcile(w, ts);
      && n.pc.Idle?
      && (n.last.Success? <==> Recoverable(w, inst))
      && (n.last.Success? ==> Settled(n.w, inst) && Provides(w, n.w, inst, w.store.cr.value) && Obliges(w, n.w, w.store.cr.value))
      && (n.last.Failure? ==> Unready(n.w))
  {
    OpeningDrive(w, ts);
    var v, i := Guarded(w), if w.store.cr.value.finalizer then 2 else 3;
    forall j | 0 <= j < |ts| ensures ts[j].outcome.Ok? && Good(v.live, ts[j]) {
      assert Good(w.live, ts[j]);
    }
    StartDrive(v, v.store.cr.value, inst, ts, i);
  }

  lemma OpeningDrive(w: ClientWorld, ts: seq<Tick>)
    requires w.store.cr.Some? && !w.store.cr.value.deleting
    requires |ts| >= 3 && FaultFree(w.live, ts)
    ensures Reconcile(w, ts) ==
      Drive(Machine(Guarded(w), Start(Guarded(w).store.cr.value, ts[1].gate.inst), Failure), ts, if w.store.cr.value.finalizer then 2 else 3)
  {
    var m := Machine(w, Read, Failure);
    assert Good(w.live, ts[0]) && Good(w.live, ts[1]) && Good(w.live, ts[2]);
    Opening(m, ts[0], ts[1], ts[2]);
    assert Drive(m, ts, 0) == Drive(Step(m, ts[0]), ts, 1) == Drive(Step(Step(m, ts[0]), ts[1]), ts, 2);
  }

  /** With the client sheltered from others, Envoy off and the references resolvable, every history,
      however many crashes and failed calls it holds, ends in a state from which the next undisturbed
      reconcile succeeds, unless the wanted id is taken by a stranger. */
  lemma RecoveryAfterAnyRun(w: ClientWorld, es: seq<ClientEvent>, inst: Instance, ts: seq<Tick>)
    requires Initial(w) && w.setup.sheltered
    requires var v := Run(Machine(w, Idle, Failure), es).w;
      && v.store.cr.Some? && !v.store.cr.value.deleting && !EnvoyOn(v.store.cr.value.spec)
      && Resolved(v, inst).Allowed?
      && (v.store.cr.value.spec.wantedId != "" && NoneNamed(v) ==> v.store.cr.value.spec.wantedId !in v.live)
      && |ts| >= |v.store.cr.value.spec.groupRefs| + 14 && FaultFree(v.live, ts) && ts[1].gate == Granted(inst)
    ensures var n := Reconcile(Run(Machine(w, Idle, Failure), es).w, ts);
      n.pc.Idle? && n.last.Success? && Settled(n.w, inst)
  {
    RunKeeps(Machine(w, Idle, Failure), es);
    Recovery(Run(Machine(w, Idle, Failure), es).w, inst, ts);
  }

  // ---------------------------------------------------------------- fixpoint

  /** References that all resolve lead straight to the lookup. */
  lemma {:induction false} AdmitAll(w: ClientWorld, g: Client, inst: Instance, members: seq<Member>, all: seq<Member>, ts: seq<Tick>, i: nat)
    requires |members| <= |g.spec.groupRefs| && w.store.cr == Some(g)
    requires Fine(ts, i, |g.spec.groupRefs| - |members| + 1)
    requires Resolve(g.spec.groupRefs[..|members|], w.outer.groups, w.outer.instances, Key(inst)) == Allowed(members)
    requires Resolved(w, inst) == Allowed(all)
    ensures Drive(Machine(w, NextRef(g, inst, w.outer.groups, members), Failure), ts, i)
      == Drive(Machine(w, Work(Locate(g, inst, all)), Failure), ts, i + |g.spec.groupRefs| - |members|)
    decreases |g.spec.groupRefs| - |members|
  {
    var refs, k := g.spec.groupRefs, |members|;
    if k == |refs| {
      assert refs[..k] == refs;
      assert NextRef(g, inst, w.outer.groups, members) == Work(Locate(g, inst, all));
    } else {
      AdmitOne(w, g, inst, members, ts, i);
      var one := ResolveOne(refs[k], w.outer.groups, w.outer.instances, Key(inst));
      var rest := members + [one.value];
      assert |rest| == k + 1;
      AdmitAll(w, g, inst, rest, all, ts, i + 1);
    }
  }

  lemma NothingToDo(w: ClientWorld, inst: Instance, all: seq<Member>, t: Tick)
    requires Settled(w, inst) && Resolved(w, inst) == Allowed(all) && t.outcome.Ok?
    ensures var g := w.store.cr.value;
      LocateStep(w, g, inst, all, t) == Machine(w, ToSecret(Hold(g, inst, g.status.id, g.status)), Failure)
  {
    var g := w.store.cr.value;
    NeedsUpdateExact(w.live[g.status.id], w.setup.key, g.spec, all, w.outer, inst);
  }

  lemma SettledResolves(w: ClientWorld, inst: Instance)
    requires Settled(w, inst)
    ensures Resolved(w, inst).Allowed?
  {
    ResolveExact(w.store.cr.value.spec.groupRefs, w.outer.groups, w.outer.instances, InstanceKey(inst.namespace, inst.name));
  }

  /** The lookup of a settled client finds nothing to do. */
  lemma SettledLocate(w: ClientWorld, inst: Instance, all: seq<Member>, m: ClientMachine, ts: seq<Tick>, i: nat)
    requires Settled(w, inst) && Resolved(w, inst) == Allowed(all) && Fine(ts, i, 9)
    requires !m.pc.Idle? && Step(m, ts[i]) == LocateStep(w, w.store.cr.value, inst, all, ts[i])
    ensures var n := Drive(m, ts, i);
      n.pc.Idle? && n.last.Success? && Unchanged(w, n.w)
  {
    var g := w.store.cr.value;
    var h := Hold(g, inst, g.status.id, g.status);
    NothingToDo(w, inst, all, ts[i]);
    SecretDrive(w, h, ts, i + 1);
    SetSame(g.status.conditions, Condition("Ready", true, "Synced", g.generation));
  }

  /** Nothing but the time of the last sync and the resource version differ. */
  ghost predicate Unchanged(w: ClientWorld, v: ClientWorld) {
    && w.store.cr.Some? && v.store.cr.Some?
    && v.calls == w.calls && v.live == w.live && v.own == w.own && v.outer == w.outer && v.setup == w.setup
    && var c, d := w.store.cr.value, v.store.cr.value;
    d == c.(status := c.status.(lastSync := d.status.lastSync), version := d.version)
  }

  lemma SettledFirst(w: ClientWorld, inst: Instance, all: seq<Member>, ts: seq<Tick>)
    requires w.store.cr.Some? && w.store.cr.value.spec.groupRefs != [] && Resolved(w, inst) == Allowed(all)
    requires Fine(ts, 2, |w.store.cr.value.spec.groupRefs| + 2)
    ensures var g := w.store.cr.value;
      Drive(Machine(w, Start(g, inst), Failure), ts, 2)
      == Drive(Machine(w, Work(Locate(g, inst, all)), Failure), ts, 3 + |g.spec.groupRefs|)
  {
    var g := w.store.cr.value;
    assert g.spec.groupRefs[..0] == [];
    assert Step(Machine(w, Start(g, inst), Failure), ts[2]) == Machine(w, NextRef(g, inst, w.outer.groups, []), Failure);
    AdmitAll(w, g, inst, [], all, ts, 3);
  }

  lemma SettledStart(w: ClientWorld, inst: Instance, ts: seq<Tick>)
    requires Settled(w, inst) && Fine(ts, 2, |w.store.cr.value.spec.groupRefs| + 11)
    ensures var n := Drive(Machine(w, Start(w.store.cr.value, inst), Failure), ts, 2);
      n.pc.Idle? && n.last.Success? && Unchanged(w, n.w)
  {
    var g := w.store.cr.value;
    var m := Machine(w, Start(g, inst), Failure);
    SettledResolves(w, inst);
    var all := Resolved(w, inst).value;
    if g.spec.groupRefs == [] {
      SettledLocate(w, inst, all, m, ts, 2);
    } else {
      SettledFirst(w, inst, all, ts);
      SettledLocate(w, inst, all, Machine(w, Work(Locate(g, inst, all)), Failure), ts, 3 + |g.spec.groupRefs|);
    }
  }

  /** Fixpoint, with or without Envoy: once settled, another undisturbed reconcile succeeds, sends no
      mutating request to the server, leaves Secret and policy alone, and changes nothing in the
      resource but the time of the last sync and the version. */
  lemma Fixpoint(w: ClientWorld, inst: Instance, ts: seq<Tick>)
    requires Settled(w, inst)
    requires |ts| >= |w.store.cr.value.spec.groupRefs| + 14 && FaultFree(w.live, ts) && ts[1].gate == Granted(inst)
    ensures var n := Reconcile(w, ts);
      n.pc.Idle? && n.last.Success? && Unchanged(w, n.w)
  {
    forall j | 0 <= j < |ts| ensures ts[j].outcome.Ok? { assert Good(w.live, ts[j]); }
    OpeningDrive(w, ts);
    SettledStart(w, inst, ts);
  }

  // ---------------------------------------------------------------- deletion

  /** Deletion, exactly: an undisturbed reconcile of a guarded resource marked for deletion lets it
      go if and only if nothing is recorded, the recorded client still exists, or the server accepts
      deletes of missing clients; the recorded client is then gone as well. */
  lemma Deletion(w: ClientWorld, ts: seq<Tick>)
    requires "" !in w.live
    requires w.store.cr.Some? && w.store.cr.value.deleting && w.store.cr.value.finalizer
    requires |ts| >= 4 && FaultFree(w.live, ts)
    ensures var n := Reconcile(w, ts);
      var id := w.store.cr.value.status.id;
      && n.pc.Idle? && n.w.live == w.live - {id}
      && (n.w.store.cr.None? <==> id == "" || id in w.live || w.setup.tolerant)
      && (n.w.store.cr.None? <==> n.last.Success?)
  {
    var g := w.store.cr.value;
    assert Good(w.live, ts[0]) && Good(w.live, ts[1]) && Good(w.live, ts[2]) && Good(w.live, ts[3]);
    var m := Machine(w, Read, Failure);
    var m2 := Step(Step(m, ts[0]), ts[1]);
    assert Drive(m, ts, 0) == Drive(Step(m, ts[0]), ts, 1) == Drive(m2, ts, 2);
    Closing(m2, ts[2]);
    var m3 := Step(m2, ts[2]);
    assert Drive(m2, ts, 2) == Drive(m3, ts, 3);
    if g.status.id == "" {
      assert w.live - {""} == w.live;
    } else {
      if m3.pc.Unfinalize? { Closing(m3, ts[3]); }
      assert Drive(Step(m3, ts[3]), ts, 4) == Step(m3, ts[3]);
    }
  }

  /** A delete that took effect but was reported as failed leaves, at a server that refuses to
      delete what is missing, a resource that no later run can ever let go. */
  lemma {:induction false} DeletionStuck(m: ClientMachine, es: seq<ClientEvent>, id: Id)
    requires StuckAt(m, id)
    ensures StuckAt(Run(m, es), id)
    decreases |es|
  {
    if es != [] {
      if es[0].Call? { StuckStep(m, es[0].t, id); } else { StuckDisturb(m, es[0], id); }
      DeletionStuck(Apply(m, es[0]), es[1..], id);
    }
  }
}
