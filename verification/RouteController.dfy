/** The HTTPRoute controller in its own form: one annotated route becomes, or overwrites the managed
    part of, one OIDC client resource. */
module RouteController {
  import opened Basics
  import opened SecurityPolicy
  import opened HTTPRoute
  import opened Reference
  import opened GroupRefs

  datatype Route = Route(name: string, namespace: string, hostnames: seq<string>, annotations: map<string, string>)

  datatype ClientSpec = ClientSpec(
    name: string, inst: InstanceRef, callbackUrls: seq<string>, groupRefs: seq<string>, isPublic: bool, pkce: bool,
    wantedId: Id, envoy: Option<Envoy>, secretRef: Option<string>)

  /** A missing annotation reads as the empty string. */
  function Annotation(route: Route, key: string): string {
    if key in route.annotations then route.annotations[key] else ""
  }

  // ---------------------------------------------------------------- the instance annotation

  /** strings.SplitN(s, "/", 2): what stands before and after the first slash, if there is one. */
  function CutSlash(s: string): Option<(string, string)> {
    if s == "" then None
    else if s[0] == '/' then Some(("", s[1..]))
    else match CutSlash(s[1..])
      case None => None
      case Some(cut) => Some(([s[0]] + cut.0, cut.1))
  }

  lemma {:induction false} CutSlashExact(s: string)
    ensures CutSlash(s).None? <==> '/' !in s
    ensures CutSlash(s).Some? ==> s == CutSlash(s).value.0 + "/" + CutSlash(s).value.1 && '/' !in CutSlash(s).value.0
  {
    if s != "" {
      CutSlashExact(s[1..]);
      assert s == [s[0]] + s[1..];
    }
  }

  datatype Choice = Chosen(ref: InstanceRef) | Wait | Ambiguous

  /** Without an annotation, the only instance of the namespace. */
  function ChooseInstance(annotation: string, local: seq<string>): Choice {
    if annotation == "" then
      if |local| == 1 then Chosen(InstanceRef(local[0], None)) else if local == [] then Wait else Ambiguous
    else match CutSlash(annotation)
      case None => Chosen(InstanceRef(annotation, None))
      case Some(cut) => Chosen(InstanceRef(cut.1, Some(cut.0)))
  }

  /** Writing a chosen reference back gives the annotation it came from. */
  lemma ChooseExact(annotation: string, local: seq<string>)
    ensures var c := ChooseInstance(annotation, local);
      && (annotation != "" ==> c.Chosen? && annotation == (if c.ref.namespace.Some? then c.ref.namespace.value + "/" + c.ref.name else c.ref.name))
      && (annotation == "" ==> (c.Chosen? <==> |local| == 1) && (c.Chosen? ==> c.ref == InstanceRef(local[0], None)) && (c.Wait? <==> local == []))
      && (c.Chosen? && c.ref.namespace.Some? ==> '/' !in c.ref.namespace.value)
  {
    CutSlashExact(annotation);
  }

  // ---------------------------------------------------------------- the desired client

  function ClientName(route: Route): string {
    var named := Annotation(route, "pocketid.tobiash.github.io/client-name");
    if named != "" then named else route.name + "-oidc"
  }

  predicate WantsPolicy(route: Route) {
    Annotation(route, "pocketid.tobiash.github.io/envoy-gateway") == "true"
  }

  function Desired(route: Route, ref: InstanceRef): ClientSpec {
    ClientSpec(ClientName(route), ref,
               Uris(route.hostnames, Paths(Annotation(route, "pocketid.tobiash.github.io/redirect-paths"))),
               Parse(Annotation(route, "pocketid.tobiash.github.io/allowed-groups")), false, false, "",
               if WantsPolicy(route) then Some(Envoy(true, Some(RouteRef(route.name, route.namespace)), "", "")) else None,
               if WantsPolicy(route) then Some(ClientName(route) + "-credentials") else None)
  }

  /** The fields this controller manages are overwritten, the others kept. */
  function Overlay(clients: map<string, ClientSpec>, desired: ClientSpec): ClientSpec {
    if desired.name !in clients then desired else
      clients[desired.name].(callbackUrls := desired.callbackUrls, inst := desired.inst, groupRefs := desired.groupRefs,
                             envoy := desired.envoy, secretRef := desired.secretRef)
  }

  predicate Enabled(route: Route) {
    Annotation(route, "pocketid.tobiash.github.io/oidc-enabled") == "true"
  }

  /** What the cluster answers while the controller runs. */
  datatype Answers = Answers(
    route: Outcome, list: Outcome, local: seq<string>, resolve: Outcome, instances: map<InstanceKey, InstanceSpec>,
    selection: Selection, client: Outcome, write: Outcome)

  /** The instance the reference names is there and open to the route's namespace. */
  predicate Passes(ref: InstanceRef, home: string, a: Answers) {
    var key := InstanceKey(if ref.namespace.Some? then ref.namespace.value else home, ref.name);
    a.resolve.Ok? && key in a.instances && (key.namespace == home || Opened(a.instances[key], a.selection))
  }

  /** The client spec a run is going to write, if it gets as far as that. */
  function Intent(route: Route, a: Answers): Option<ClientSpec> {
    var annotation := Annotation(route, "pocketid.tobiash.github.io/instance");
    if !a.route.Ok? || !Enabled(route) || (annotation == "" && !a.list.Ok?) then None else
      match ChooseInstance(annotation, a.local)
      case Wait => None
      case Ambiguous => None
      case Chosen(ref) =>
        if !Passes(ref, route.namespace, a) || route.hostnames == [] || !a.client.Ok? then None
        else Some(Desired(route, ref))
  }

  /** The client resources of the namespace after a run. */
  function Written(clients: map<string, ClientSpec>, route: Route, a: Answers): map<string, ClientSpec> {
    var intent := Intent(route, a);
    if intent.None? || a.write.Lost? then clients else clients[intent.value.name := Overlay(clients, intent.value)]
  }

  /** The refusals that leave nothing to retry: the route does not ask for a client, its namespace has no
      instance yet, the reference is forbidden, or there are no hostnames. All others are failures. */
  predicate Rests(route: Route, a: Answers) {
    var annotation := Annotation(route, "pocketid.tobiash.github.io/instance");
    || Annotation(route, "pocketid.tobiash.github.io/oidc-enabled") != "true"
    || ((annotation == "" ==> a.list.Ok?) &&
        match ChooseInstance(annotation, a.local)
        case Wait => true
        case Ambiguous => false
        case Chosen(ref) =>
          var key := InstanceKey(if ref.namespace.Some? then ref.namespace.value else route.namespace, ref.name);
          a.resolve.Ok? && key in a.instances &&
            if Passes(ref, route.namespace, a) then route.hostnames == []
            else !(a.instances[key].allowed == Some(Namespaces(Some("Selector"), true)) && a.selection.Unknown?))
  }

  class Controller {
    var clients: map<string, ClientSpec>

    constructor (clients: map<string, ClientSpec>)
      ensures this.clients == clients
    {
      this.clients := clients;
    }

    /** Reconcile: nothing is written unless every check before the write has passed. A route that is gone
        is no failure. */
    method Reconcile(found: Option<Route>, a: Answers) returns (v: Verdict)
      modifies this
      ensures clients == if found.None? then old(clients) else Written(old(clients), found.value, a)
      ensures v.Success? <==>
        (a.route.Ok? && (found.None? || Rests(found.value, a) || (Intent(found.value, a).Some? && a.write.Ok?)))
    {
      if !a.route.Ok? { return Failure; }
      if found.None? { return Success; }
      var route := found.value;
      if Annotation(route, "pocketid.tobiash.github.io/oidc-enabled") != "true" { return Success; }

      var instanceName := Annotation(route, "pocketid.tobiash.github.io/instance");
      var instanceNamespace: Option<string> := None;
      if instanceName == "" {
        if !a.list.Ok? { return Failure; }
        if |a.local| == 1 {
          instanceName := a.local[0];
        } else {
          return if |a.local| == 0 then Success else Failure;
        }
      } else {
        var cut := CutSlash(instanceName);
        if cut.Some? { instanceNamespace, instanceName := Some(cut.value.0), cut.value.1; }
      }
      var instanceRef := InstanceRef(instanceName, instanceNamespace);
      assert ChooseInstance(Annotation(route, "pocketid.tobiash.github.io/instance"), a.local) == Chosen(instanceRef);

      var key := Target(instanceRef, route.namespace);
      if key in a.instances { ValidateExact(key, a.instances[key], route.namespace, a.selection); }
      if !a.resolve.Ok? || key !in a.instances { return Failure; }
      var allowed := Validate(key, a.instances[key], route.namespace, a.selection);
      if !allowed.Permitted? { return if allowed.Undecided? then Failure else Success; }

      var desired := DesiredClient(route, instanceRef);
      if desired.None? { return Success; }
      if !a.client.Ok? { return Failure; }
      v := CreateOrUpdate(desired.value, a.write);
    }

    /** Reconcile, from the client's name to its spec; a route without hostnames has none. */
    method DesiredClient(route: Route, instanceRef: InstanceRef) returns (desired: Option<ClientSpec>)
      ensures desired == if route.hostnames == [] then None else Some(Desired(route, instanceRef))
    {
      var clientName := Annotation(route, "pocketid.tobiash.github.io/client-name");
      if clientName == "" { clientName := route.name + "-oidc"; }
      var paths := Annotation(route, "pocketid.tobiash.github.io/redirect-paths");
      var redirectURIs := RedirectUris(route.hostnames, paths);
      UrisSize(route.hostnames, Paths(paths));
      if |redirectURIs| == 0 { return None; }
      var allowedUserGroupRefs := ParseAllowedGroupRefs(Annotation(route, "pocketid.tobiash.github.io/allowed-groups"));
      var spec := ClientSpec(clientName, instanceRef, redirectURIs, allowedUserGroupRefs, false, false, "", None, None);
      if Annotation(route, "pocketid.tobiash.github.io/envoy-gateway") == "true" {
        spec := spec.(envoy := Some(Envoy(true, Some(RouteRef(route.name, route.namespace)), "", "")));
        spec := spec.(secretRef := Some(clientName + "-credentials"));
      }
      return Some(spec);
    }

    /** Create, or overwrite the managed fields one by one and update. */
    method CreateOrUpdate(desired: ClientSpec, write: Outcome) returns (v: Verdict)
      modifies this
      ensures clients == if write.Lost? then old(clients) else old(clients)[desired.name := Overlay(old(clients), desired)]
      ensures v.Success? <==> write.Ok?
    {
      if write.Lost? { return Failure; }
      if desired.name !in clients {
        clients := clients[desired.name := desired];
      } else {
        var existing := clients[desired.name];
        existing := existing.(callbackUrls := desired.callbackUrls);
        existing := existing.(inst := desired.inst);
        existing := existing.(groupRefs := desired.groupRefs);
        existing := existing.(envoy := desired.envoy);
        existing := existing.(secretRef := desired.secretRef);
        clients := clients[desired.name := existing];
      }
      return if write.Ok? then Success else Failure;
    }
  }

  // ---------------------------------------------------------------- what a run leaves

  /** The client that a route asks for, field by field. */
  lemma DesiredExact(route: Route, ref: InstanceRef)
    ensures var d := Desired(route, ref);
      var named := Annotation(route, "pocketid.tobiash.github.io/client-name");
      var gated := Annotation(route, "pocketid.tobiash.github.io/envoy-gateway") == "true";
      && d.name == (if named != "" then named else route.name + "-oidc")
      && d.inst == ref && !d.isPublic && !d.pkce && d.wantedId == ""
      && d.callbackUrls == Uris(route.hostnames, Paths(Annotation(route, "pocketid.tobiash.github.io/redirect-paths")))
      && d.groupRefs == Parse(Annotation(route, "pocketid.tobiash.github.io/allowed-groups"))
      && (d.envoy.Some? <==> gated) && (d.secretRef.Some? <==> gated)
      && (gated ==>
            && d.envoy.value.enabled && d.envoy.value.routeRef == Some(RouteRef(route.name, route.namespace))
            && d.envoy.value.callbackPath == "" && d.envoy.value.logoutPath == ""
            && d.secretRef.value == d.name + "-credentials")
  {
  }

  /** Exactly when a run gets as far as writing, and what it then wants to write. */
  lemma IntentExact(route: Route, a: Answers)
    ensures var annotation := Annotation(route, "pocketid.tobiash.github.io/instance");
      var choice := ChooseInstance(annotation, a.local);
      && (Intent(route, a).Some? <==>
            (&& a.route.Ok? && Annotation(route, "pocketid.tobiash.github.io/oidc-enabled") == "true"
             && (annotation == "" ==> a.list.Ok?) && choice.Chosen? && Passes(choice.ref, route.namespace, a)
             && route.hostnames != [] && a.client.Ok?))
      && (Intent(route, a).Some? ==> choice.Chosen? && Intent(route, a).value == Desired(route, choice.ref))
  {
  }

  /** What a run that writes makes of the client, field by field: what the route asks for is written, what
      somebody else has set stays, and no other client is touched. */
  lemma WrittenExact(clients: map<string, ClientSpec>, route: Route, a: Answers)
    requires Intent(route, a).Some? && !a.write.Lost?
    ensures var after, name := Written(clients, route, a), ClientName(route);
      var choice := ChooseInstance(Annotation(route, "pocketid.tobiash.github.io/instance"), a.local);
      && choice.Chosen? && name in after && after.Keys == clients.Keys + {name}
      && (forall other :: other in clients && other != name ==> after[other] == clients[other])
      && var c, d := after[name], Desired(route, choice.ref);
      && c.callbackUrls == d.callbackUrls && c.inst == d.inst && c.groupRefs == d.groupRefs
      && c.envoy == d.envoy && c.secretRef == d.secretRef
      && (name in clients ==>
            && c.name == clients[name].name && c.isPublic == clients[name].isPublic
            && c.pkce == clients[name].pkce && c.wantedId == clients[name].wantedId)
      && (name !in clients ==> c == d)
  {
  }

  /** Any number of runs on the same route, with whatever answers. */
  function Runs(clients: map<string, ClientSpec>, route: Route, answers: seq<Answers>): map<string, ClientSpec>
    decreases |answers|
  {
    if answers == [] then clients else Runs(Written(clients, route, answers[0]), route, answers[1..])
  }

  /** What the last run that wrote wanted to write. */
  function LastWritten(route: Route, answers: seq<Answers>): Option<ClientSpec>
    decreases |answers|
  {
    if answers == [] then None else
      var n := |answers| - 1;
      var intent := Intent(route, answers[n]);
      if intent.Some? && !answers[n].write.Lost? then intent else LastWritten(route, answers[..n])
  }

  lemma {:induction false} RunsSplit(clients: map<string, ClientSpec>, route: Route, answers: seq<Answers>)
    requires answers != []
    ensures var n := |answers| - 1;
      Runs(clients, route, answers) == Written(Runs(clients, route, answers[..n]), route, answers[n])
    decreases |answers|
  {
    var n := |answers| - 1;
    if n > 0 {
      var next := Written(clients, route, answers[0]);
      assert answers[1..][..n - 1] == answers[..n][1..] && answers[..n][0] == answers[0];
      RunsSplit(next, route, answers[1..]);
    }
  }

  /** History does not matter: however many runs came before, failed or not, the clients are what the last
      run that wrote makes of the original ones. Other clients, and of its own client what somebody
      else has set, stay as they were. */
  lemma {:induction false} RunsExact(clients: map<string, ClientSpec>, route: Route, answers: seq<Answers>)
    ensures var last := LastWritten(route, answers);
      Runs(clients, route, answers) ==
        if last.None? then clients else clients[ClientName(route) := Overlay(clients, last.value)]
    decreases |answers|
  {
    if answers != [] {
      var n := |answers| - 1;
      RunsExact(clients, route, answers[..n]);
      RunsSplit(clients, route, answers);
      LastDesired(route, answers[..n]);
    }
  }

  lemma {:induction false} LastDesired(route: Route, answers: seq<Answers>)
    ensures var last := LastWritten(route, answers);
      last.Some? ==> last.value == Desired(route, last.value.inst)
    decreases |answers|
  {
    if answers != [] { LastDesired(route, answers[..|answers| - 1]); }
  }

  /** Agreement, end to end: whatever client was there before, once a run has written it for a route
      that asks for a policy, the policy generated from client and route redirects to a registered
      URL if and only if the paths annotation is empty or lists /oauth2/callback, for slash-free
      hostnames and paths that start with a slash. */
  lemma PolicyRegistered(clients: map<string, ClientSpec>, route: Route, a: Answers, clientId: Id, secretName: string, appUrl: string)
    requires Intent(route, a).Some? && !a.write.Lost? && WantsPolicy(route)
    requires forall i :: 0 <= i < |route.hostnames| ==> '/' !in route.hostnames[i]
    requires var paths := Paths(Annotation(route, "pocketid.tobiash.github.io/redirect-paths"));
      forall i :: 0 <= i < |paths| ==> paths[i] != "" && paths[i][0] == '/'
    ensures var c := Written(clients, route, a)[ClientName(route)];
      var annotation := Annotation(route, "pocketid.tobiash.github.io/redirect-paths");
      && c.envoy.Some?
      && var policy := Build(ClientName(route), route.namespace, c.envoy.value, clientId, secretName, appUrl, route.name, route.hostnames);
      && policy.Some?
      && (policy.value.redirectUrl in c.callbackUrls <==> annotation == "" || "/oauth2/callback" in Paths(annotation))
  {
    RedirectAgreement(route.hostnames, Annotation(route, "pocketid.tobiash.github.io/redirect-paths"));
  }
}
