/** Which instances a resource may refer to (internal/controller/reference_validation.go): the gate in
    front of every run. */
module Reference {
  import opened Basics
  import opened Conditions
  import opened GroupRefs
  import opened Lifecycle

  /** An instance reference; without a namespace it means the referrer's own. */
  datatype InstanceRef = InstanceRef(name: string, namespace: Option<string>)

  /** `from` is the mode as written in the spec, `selects` whether a selector is given with it. */
  datatype Namespaces = Namespaces(from: Option<string>, selects: bool)

  datatype InstanceSpec = InstanceSpec(appUrl: string, allowed: Option<Namespaces>)

  /** What looking up the referrer's namespace and matching its labels comes to. */
  datatype Selection = Selected | Unselected | Unknown

  datatype Decision = Permitted | Forbidden(reason: string) | Undecided

  function Target(ref: InstanceRef, home: string): InstanceKey {
    InstanceKey(if ref.namespace.Some? then ref.namespace.value else home, ref.name)
  }

  /** ValidateCrossNamespaceReference */
  function Validate(key: InstanceKey, spec: InstanceSpec, home: string, selection: Selection): Decision {
    if key.namespace == home then Permitted
    else if spec.allowed.None? then Forbidden("does not allow cross-namespace references")
    else
      var from := if spec.allowed.value.from.Some? then spec.allowed.value.from.value else "Same";
      if from == "All" then Permitted
      else if from == "Same" then Forbidden("only allows same-namespace references")
      else if from == "Selector" then
        if !spec.allowed.value.selects then Forbidden("has Selector mode but no selector defined")
        else match selection
          case Unknown => Undecided
          case Selected => Permitted
          case Unselected => Forbidden("namespace does not match selector")
      else Forbidden("unknown namespace selection mode")
  }

  /** The reads before any remote call: resolve, validate, and find the API key. */
  function Gate(ref: InstanceRef, home: string, instances: map<InstanceKey, InstanceSpec>, selection: Selection, keyed: bool): Gateway {
    var key := Target(ref, home);
    if key !in instances then Refused("InstanceNotFound") else
      match Validate(key, instances[key], home, selection)
      case Undecided => Refused("CrossNamespaceValidationFailed")
      case Forbidden(_) => Refused("CrossNamespaceDenied")
      case Permitted => if keyed then Granted(Instance(key.name, key.namespace, instances[key].appUrl)) else Refused("APIClientCreationFailed")
  }

  /** The instance's owner has opened it to this namespace. */
  predicate Opened(spec: InstanceSpec, selection: Selection) {
    spec.allowed.Some? && (spec.allowed.value.from == Some("All")
                           || (spec.allowed.value == Namespaces(Some("Selector"), true) && selection.Selected?))
  }

  /** Permitted at home, or where the owner has opened the instance; undecided only if it depends on labels
      that could not be looked up; forbidden otherwise. */
  lemma ValidateExact(key: InstanceKey, spec: InstanceSpec, home: string, selection: Selection)
    ensures var d := Validate(key, spec, home, selection);
      && (d.Permitted? <==> key.namespace == home || Opened(spec, selection))
      && (d.Undecided? <==> key.namespace != home && spec.allowed == Some(Namespaces(Some("Selector"), true)) && selection.Unknown?)
  {
  }

  /** A run gets past the gate if and only if the instance it names, by default in its own namespace,
      exists, is at home or opened to it, and can be addressed; and then it works with that very instance. */
  lemma GateExact(ref: InstanceRef, home: string, instances: map<InstanceKey, InstanceSpec>, selection: Selection, keyed: bool)
    ensures var gate := Gate(ref, home, instances, selection, keyed);
      var key := InstanceKey(if ref.namespace.Some? then ref.namespace.value else home, ref.name);
      && (gate.Granted? <==> key in instances && keyed && (key.namespace == home || Opened(instances[key], selection)))
      && (gate.Granted? ==>
            && gate.inst.name == ref.name && gate.inst.namespace == (if ref.namespace.Some? then ref.namespace.value else home)
            && gate.inst.appUrl == instances[key].appUrl)
      && (gate.Refused? ==>
            gate.reason == if key !in instances then "InstanceNotFound"
                           else if Validate(key, instances[key], home, selection).Undecided? then "CrossNamespaceValidationFailed"
                           else if key.namespace == home || Opened(instances[key], selection) then "APIClientCreationFailed"
                           else "CrossNamespaceDenied")
  {
  }

  /** The same, as a run meets it: at its gate a machine goes on, with that very instance, if and only if
      those conditions hold and the reads succeed; otherwise it has sent nothing and reports why. */
  lemma GateRuns<S, M, O, X, Y, K>(m: Machine<S, M, O, X, Y, K>, t: Tick, ref: InstanceRef, home: string,
                                   instances: map<InstanceKey, InstanceSpec>, selection: Selection, keyed: bool)
    requires m.pc.Gate? && t.gate == Gate(ref, home, instances, selection, keyed)
    ensures var n, g := SharedStep(m, t), m.pc.g;
      var key := InstanceKey(if ref.namespace.Some? then ref.namespace.value else home, ref.name);
      var passes := t.outcome.Ok? && key in instances && keyed && (key.namespace == home || Opened(instances[key], selection));
      && n.w == m.w
      && (passes ==> n.pc == if g.deleting then (if !g.finalizer then Idle else if g.status.id != "" then Discard(g) else Unfinalize(g))
                             else if !g.finalizer then Finalize(g, t.gate.inst) else Start(g, t.gate.inst))
      && (passes ==> t.gate.Granted? && InstanceKey(t.gate.inst.namespace, t.gate.inst.name) == key)
      && (!passes ==>
            && n.pc.Report? && n.pc.g == g && n.pc.verdict.Failure? && !n.pc.s.ready && !n.pc.s.synced && n.pc.s.id == g.status.id
            && (var reason := if t.outcome.Ok? && t.gate.Refused? then t.gate.reason else "InstanceNotFound";
                Find(n.pc.s.conditions, "Ready") == Some(Condition("Ready", false, reason, g.generation))))
  {
    GateExact(ref, home, instances, selection, keyed);
    var reason := if t.outcome.Ok? && t.gate.Refused? then t.gate.reason else "InstanceNotFound";
    SetFind(m.pc.g.status.conditions, Condition("Ready", false, reason, m.pc.g.generation), "Ready");
  }
}
