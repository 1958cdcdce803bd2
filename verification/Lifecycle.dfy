/** The part of the reconcile protocol that the user, user group and OIDC client controllers share.

    One custom resource and the objects at the PocketID server form a World. A reconcile is a
    sequence of steps, one API call each; between any two calls the process may die and anyone else
    may act within Rely. S, M and O are the controller's spec, extra status fields and remote
    payload; X is cluster or server state that only this controller writes, Y state that it only
    reads. */
module Lifecycle {
  import opened Basics
  import opened Conditions
  import opened Kube

  // ---------------------------------------------------------------- state

  datatype SyncStatus<M> = SyncStatus(
    id: Id, ready: bool, synced: bool, conditions: seq<Condition>,
    lastSync: Option<nat>, observed: nat, more: M)

  /** An object at the PocketID server. */
  datatype Remote<O> = Remote(name: string, body: O)

  /** An object as an API reply shows it. */
  datatype Entry<O> = Entry(id: Id, name: string, body: O)

  /** A mutating request to the PocketID server, with the spec the run was working from. `guarded`
      records whether the stored resource carried its finalizer when the request was sent. */
  datatype Request<S, O> =
    | SentCreate(spec: S, body: O, guarded: bool)
    | SentUpdate(id: Id, spec: S, body: O)
    | SentDelete(id: Id)
    | SentOther(id: Id)

  /** `sheltered` says that nobody else deletes or renames the object of our name; `tolerant` that
      the server answers a delete of a missing object with success rather than with an error.
      `tidy` says that what a resource leaves behind is collected before another of its name is
      created. `deleteFailed` is the reason this kind of resource gives for a failed delete. */
  datatype Setup<M, X> = Setup(
    key: string, blank: M, clean: X, sheltered: bool, tolerant: bool, tidy: bool, deleteFailed: string)

  /** `recorded` is a history variable: the ids that a status write has carried to the cluster
      since the object of that id was made. */
  datatype World<S, M, O, X, Y> = World(
    setup: Setup<M, X>, store: Store<S, SyncStatus<M>>, live: map<Id, Remote<O>>,
    own: X, outer: Y, calls: seq<Request<S, O>>, recorded: set<Id>)

  /** The part of a World that others may change. */
  datatype Outside<S, M, O, X, Y> = Outside(
    store: Store<S, SyncStatus<M>>, live: map<Id, Remote<O>>, own: X, outer: Y)

  type Copy<S, M> = Resource<S, SyncStatus<M>>

  function Blank<M>(more: M): SyncStatus<M> {
    SyncStatus("", false, false, [], None, 0, more)
  }

  predicate Unprotected<S, M, O, X, Y>(w: World<S, M, O, X, Y>) {
    w.store.cr.None? || !w.store.cr.value.finalizer
  }

  /** One or more steps of everyone else: users and the garbage collector in the cluster, other
      controllers and administrators at the server. The natural key belongs to this resource. */
  predicate Rely<S(==), M(==), O, X(==), Y>(w: World<S, M, O, X, Y>, e: Outside<S, M, O, X, Y>) {
    && Drift(w.store, e.store, w.setup.key, Blank(w.setup.blank))
    && "" !in e.live
    && (forall id | id in e.live :: e.live[id].name == w.setup.key ==>
          id in w.live && w.live[id].name == w.setup.key)
    && (forall id | id in e.live :: id in w.live || id !in w.recorded)
    && (w.setup.sheltered ==>
          forall id | id in w.live :: w.live[id].name == w.setup.key ==>
            id in e.live && e.live[id].name == w.setup.key)
    && (e.own == w.own || (e.own == w.setup.clean && Unprotected(w)))
    && (w.setup.tidy && Born(w.store, e.store) ==> e.own == w.setup.clean)
  }

  function After<S, M, O, X, Y>(w: World<S, M, O, X, Y>, e: Outside<S, M, O, X, Y>): World<S, M, O, X, Y> {
    w.(store := e.store, live := e.live, own := e.own, outer := e.outer)
  }

  // ---------------------------------------------------------------- API calls

  /** The instance a resource refers to. */
  datatype Instance = Instance(name: string, namespace: string, appUrl: string)

  /** What the reads before any remote call come to: instance lookup, cross-namespace check and
      API key lookup. */
  datatype Gateway = Granted(inst: Instance) | Refused(reason: string)

  /** Everything about one call that the run cannot choose: its outcome, the value the server
      makes up (an id, a secret, a token), the clock, the gate's decision, the order of a list. */
  datatype Tick = Tick(outcome: Outcome, minted: string, now: nat, gate: Gateway, order: seq<Id>)

  function WriteStatus<S, M, O, X, Y>(w: World<S, M, O, X, Y>, obj: Copy<S, M>, o: Outcome)
    : (World<S, M, O, X, Y>, bool)
  {
    var (st, ok) := PutStatus(w.store, obj, o);
    (w.(store := st,
        recorded := if Accepts(w.store, obj, o) then w.recorded + {obj.status.id} else w.recorded), ok)
  }

  function WriteMeta<S, M, O, X, Y>(w: World<S, M, O, X, Y>, obj: Copy<S, M>, o: Outcome)
    : (World<S, M, O, X, Y>, Option<Copy<S, M>>)
  {
    var (st, now) := PutMeta(w.store, obj, o);
    (w.(store := st), now)
  }

  function Lookup<S, M, O, X, Y>(w: World<S, M, O, X, Y>, id: Id, o: Outcome): Option<Entry<O>> {
    if o.Ok? && id in w.live then Some(Entry(id, w.live[id].name, w.live[id].body)) else None
  }

  /** `order` lists every live object once. */
  predicate Enumerates<O>(order: seq<Id>, live: map<Id, Remote<O>>) {
    && (forall i | 0 <= i < |order| :: order[i] in live)
    && (forall i | 0 <= i < |order| :: forall j | 0 <= j < i :: order[i] != order[j])
    && (forall id | id in live :: id in order)
  }

  function Rows<O>(order: seq<Id>, live: map<Id, Remote<O>>): (rows: seq<Entry<O>>)
    requires forall i | 0 <= i < |order| :: order[i] in live
    ensures |rows| == |order|
    ensures forall i :: 0 <= i < |order| ==> rows[i] == Entry(order[i], live[order[i]].name, live[order[i]].body)
  {
    if order == [] then [] else
      [Entry(order[0], live[order[0]].name, live[order[0]].body)] + Rows(order[1..], live)
  }

  /** The complete list of objects, in whatever order the server keeps. */
  function List<S, M, O, X, Y>(w: World<S, M, O, X, Y>, t: Tick): Option<seq<Entry<O>>> {
    if t.outcome.Ok? && Enumerates(t.order, w.live) then Some(Rows(t.order, w.live)) else None
  }

  /** The first list entry of a name. */
  function FindByName<O>(rows: seq<Entry<O>>, name: string): Option<Entry<O>> {
    if rows == [] then None
    else if rows[0].name == name then Some(rows[0])
    else FindByName(rows[1..], name)
  }

  /** The search loop of every controller: the first listed object of a name. */
  method FindEntry<O>(rows: seq<Entry<O>>, name: string) returns (found: Option<Entry<O>>)
    ensures found == FindByName(rows, name)
  {
    found := None;
    var i := 0;
    while i < |rows|
      invariant 0 <= i <= |rows| && found.None?
      invariant FindByName(rows, name) == FindByName(rows[i..], name)
    {
      if rows[i].name == name {
        found := Some(rows[i]);
        break;
      }
      i := i + 1;
    }
  }

  /** Create: the server takes the wanted id, or makes one up, and refuses an id in use. */
  function Make<S, M, O, X, Y>(w: World<S, M, O, X, Y>, spec: S, body: O, want: Id, t: Tick)
    : (World<S, M, O, X, Y>, Option<Entry<O>>)
  {
    var id := if want != "" then want else t.minted;
    var w := w.(calls := w.calls + [SentCreate(spec, body, !Unprotected(w))]);
    if t.outcome.Lost? || id == "" || id in w.live then (w, None) else
      (w.(live := w.live[id := Remote(w.setup.key, body)], recorded := w.recorded - {id}),
       if t.outcome.Ok? then Some(Entry(id, w.setup.key, body)) else None)
  }

  function Change<S, M, O, X, Y>(w: World<S, M, O, X, Y>, id: Id, spec: S, body: O, o: Outcome)
    : (World<S, M, O, X, Y>, Option<Entry<O>>)
  {
    var w := w.(calls := w.calls + [SentUpdate(id, spec, body)]);
    if o.Lost? || id !in w.live then (w, None) else
      (w.(live := w.live[id := Remote(w.setup.key, body)]),
       if o.Ok? then Some(Entry(id, w.setup.key, body)) else None)
  }

  function Drop<S, M, O, X, Y>(w: World<S, M, O, X, Y>, id: Id, o: Outcome): (World<S, M, O, X, Y>, bool) {
    var w := w.(calls := w.calls + [SentDelete(id)]);
    if o.Lost? then (w, false)
    else if id !in w.live then (w, o.Ok? && w.setup.tolerant)
    else (w.(live := w.live - {id}), o.Ok?)
  }

  // ---------------------------------------------------------------- the shared steps

  /** Where a run stands: the API call it is about to make and the values it holds in memory.
      `g` is the run's copy of the resource as last read or returned by the server. */
  datatype Pc<S, M, K> =
    | Idle
    | Read
    | Gate(g: Copy<S, M>)
    | Finalize(g: Copy<S, M>, inst: Instance)
    | Discard(g: Copy<S, M>)
    | Unfinalize(g: Copy<S, M>)
    | Start(g: Copy<S, M>, inst: Instance)
    | Work(k: K)
    | Report(g: Copy<S, M>, s: SyncStatus<M>, verdict: Verdict)

  datatype Machine<S, M, O, X, Y, K> = Machine(w: World<S, M, O, X, Y>, pc: Pc<S, M, K>, last: Verdict)

  /** Wake starts a run, Call lets it make its next API call, Crash ends it anywhere. */
  datatype Event<S, M, O, X, Y> = Wake | Call(t: Tick) | Elsewhere(e: Outside<S, M, O, X, Y>) | Crash

  /** updateErrorStatus: what a failed step leaves in the status. */
  function Failed<M>(s: SyncStatus<M>, generation: nat, reason: string): SyncStatus<M> {
    s.(ready := false, synced := false,
       conditions := Set(s.conditions, Condition("Ready", false, reason, generation)))
  }

  /** The status of a successful run, written over the status it re-read. */
  function Synced<M>(s: SyncStatus<M>, generation: nat, id: Id, now: nat, observe: bool, more: M): SyncStatus<M> {
    s.(id := id, ready := true, synced := true, lastSync := Some(now),
       observed := if observe then generation else s.observed, more := more,
       conditions := Set(s.conditions, Condition("Ready", true, "Synced", generation)))
  }

  function Fail<S, M, K>(g: Copy<S, M>, s: SyncStatus<M>, reason: string): Pc<S, M, K> {
    Report(g, Failed(s, g.generation, reason), Failure)
  }

  function AfterGate<S, M, K>(g: Copy<S, M>, t: Tick): Pc<S, M, K> {
    if !t.outcome.Ok? then Fail(g, g.status, "InstanceNotFound")
    else match t.gate
      case Refused(reason) => Fail(g, g.status, reason)
      case Granted(inst) =>
        if g.deleting then
          if !g.finalizer then Idle
          else if g.status.id != "" then Discard(g) else Unfinalize(g)
        else if !g.finalizer then Finalize(g, inst) else Start(g, inst)
  }

  /** One API call of the steps that do not depend on the kind of resource. */
  function SharedStep<S, M, O, X, Y, K>(m: Machine<S, M, O, X, Y, K>, t: Tick): Machine<S, M, O, X, Y, K>
    requires !m.pc.Start? && !m.pc.Work?
  {
    var w := m.w;
    match m.pc
    case Idle => m
    case Read =>
      if !t.outcome.Ok? then Machine(w, Idle, Failure)
      else if w.store.cr.None? then Machine(w, Idle, Success)
      else Machine(w, Gate(w.store.cr.value), Failure)
    case Gate(g) => Machine(w, AfterGate(g, t), if t.outcome.Ok? && t.gate.Granted? && g.deleting && !g.finalizer then Success else Failure)
    case Finalize(g, inst) =>
      var (w, now) := WriteMeta(w, g.(finalizer := true), t.outcome);
      Machine(w, if now.Some? then Start(now.value, inst) else Idle, Failure)
    case Discard(g) =>
      var (w, ok) := Drop(w, g.status.id, t.outcome);
      Machine(w, if ok then Unfinalize(g) else Fail(g, g.status, w.setup.deleteFailed), Failure)
    case Unfinalize(g) =>
      var (w, now) := WriteMeta(w, g.(finalizer := false), t.outcome);
      Machine(w, Idle, if now.Some? then Success else Failure)
    case Report(g, s, verdict) =>
      var (w, ok) := WriteStatus(w, g.(status := s), t.outcome);
      Machine(w, Idle, if ok then verdict else Failure)
  }

  /** Everything that happens to a machine other than its own API calls. */
  function Disturb<S(==), M(==), O, X(==), Y, K>(m: Machine<S, M, O, X, Y, K>, ev: Event<S, M, O, X, Y>)
    : Machine<S, M, O, X, Y, K>
  {
    match ev
    case Wake => if m.pc.Idle? then m.(pc := Read) else m
    case Call(_) => m
    case Elsewhere(e) => if Rely(m.w, e) then m.(w := After(m.w, e)) else m
    case Crash => Machine(m.w, Idle, Failure)
  }
}
