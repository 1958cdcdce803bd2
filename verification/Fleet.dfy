/** Many resources of one kind at one server. Each machine assumes of everyone else no more than Rely;
    here the machines of a fleet are shown to grant it to each other, so that whatever holds over all
    runs of one of them holds of each in the company of the others. */
module Fleet {
  import opened Basics
  import opened Kube
  import opened Lifecycle
  import opened Invariants

  /** From `w` to `v` only objects under this resource's own name have been made, changed or removed. */
  ghost predicate OwnNameOnly<S, M, O, X, Y>(w: World<S, M, O, X, Y>, v: World<S, M, O, X, Y>) {
    && v.setup == w.setup
    && (forall id :: id in v.live && v.live[id].name != w.setup.key ==> id in w.live && v.live[id] == w.live[id])
    && (forall id :: id in w.live && w.live[id].name != w.setup.key ==> id in v.live && v.live[id] == w.live[id])
  }

  /** What a neighbour sees of a change at the server. */
  function Seen<S, M, O, X, Y>(b: World<S, M, O, X, Y>, live: map<Id, Remote<O>>): Outside<S, M, O, X, Y> {
    Outside(b.store, live, b.own, b.outer)
  }

  /** No id that is new at the server is one that `b` has on record. */
  ghost predicate NewTo<S, M, O, X, Y>(b: World<S, M, O, X, Y>, live: map<Id, Remote<O>>) {
    forall id :: id in live && id !in b.live ==> id !in b.recorded
  }

  lemma GrantsRely<S, M, O, X, Y>(w: World<S, M, O, X, Y>, v: World<S, M, O, X, Y>, b: World<S, M, O, X, Y>)
    requires OwnNameOnly(w, v) && "" !in v.live
    requires b.live == w.live && b.setup.key != w.setup.key && NewTo(b, v.live) && Sound(b.store)
    ensures Rely(b, Seen(b, v.live))
  {
  }

  // ---------------------------------------------------------------- joint runs

  /** One member of the fleet acts, or somebody else acts on one member's resource and the server. */
  datatype FleetEvent<S, M, O, X, Y> = Act(i: nat, ev: Event<S, M, O, X, Y>)

  type Members<S, M, O, X, Y, K> = seq<Machine<S, M, O, X, Y, K>>

  /** Every member sees the new state of the server; member i is the one that has moved. */
  function Tell<S, M, O, X, Y, K>(ms: Members<S, M, O, X, Y, K>, i: nat, n: Machine<S, M, O, X, Y, K>): Members<S, M, O, X, Y, K> {
    seq(|ms|, j requires 0 <= j < |ms| => if j == i then n else ms[j].(w := After(ms[j].w, Seen(ms[j].w, n.w.live))))
  }

  /** An event that the others can live with: ids made up by the server are new to all of them, and what
      outsiders do keeps to what each of them relies on. */
  ghost predicate Welcome<S(!new), M(!new), O(!new), X(!new), Y(!new), K(!new)>(
    ms: Members<S, M, O, X, Y, K>, i: nat, ev: Event<S, M, O, X, Y>, n: Machine<S, M, O, X, Y, K>)
  {
    forall j :: 0 <= j < |ms| && j != i ==>
      && NewTo(ms[j].w, n.w.live)
      && (ev.Elsewhere? ==> Rely(ms[j].w, Seen(ms[j].w, n.w.live)))
  }

  ghost function FleetApply<S(!new), M(!new), O(!new), X(!new), Y(!new), K(!new)>(
    apply: (Machine<S, M, O, X, Y, K>, Event<S, M, O, X, Y>) -> Machine<S, M, O, X, Y, K>,
    ms: Members<S, M, O, X, Y, K>, fe: FleetEvent<S, M, O, X, Y>): Members<S, M, O, X, Y, K>
  {
    if fe.i < |ms| && Welcome(ms, fe.i, fe.ev, apply(ms[fe.i], fe.ev)) then Tell(ms, fe.i, apply(ms[fe.i], fe.ev)) else ms
  }

  ghost function FleetRun<S(!new), M(!new), O(!new), X(!new), Y(!new), K(!new)>(
    apply: (Machine<S, M, O, X, Y, K>, Event<S, M, O, X, Y>) -> Machine<S, M, O, X, Y, K>,
    ms: Members<S, M, O, X, Y, K>, fes: seq<FleetEvent<S, M, O, X, Y>>): Members<S, M, O, X, Y, K>
    decreases |fes|
  {
    if fes == [] then ms else FleetRun(apply, FleetApply(apply, ms, fes[0]), fes[1..])
  }

  /** The same joint run as member j sees it: its own events, and everyone else's doings in between. */
  ghost function View<S(!new), M(!new), O(!new), X(!new), Y(!new), K(!new)>(
    apply: (Machine<S, M, O, X, Y, K>, Event<S, M, O, X, Y>) -> Machine<S, M, O, X, Y, K>,
    ms: Members<S, M, O, X, Y, K>, fes: seq<FleetEvent<S, M, O, X, Y>>, j: nat): seq<Event<S, M, O, X, Y>>
    requires j < |ms|
    decreases |fes|
  {
    if fes == [] then [] else
      var fe, next := fes[0], FleetApply(apply, ms, fes[0]);
      var rest := View(apply, next, fes[1..], j);
      if next == ms then rest
      else if fe.i == j then [fe.ev] + rest
      else [Elsewhere(Seen(ms[j].w, next[j].w.live))] + rest
  }

  /** Distinct names, one server, and nobody outside takes their objects. */
  ghost predicate Company<S(!new), M(!new), O(!new), X(!new), Y(!new), K(!new)>(
    inv: Machine<S, M, O, X, Y, K> -> bool, ms: Members<S, M, O, X, Y, K>)
  {
    && (forall i :: 0 <= i < |ms| ==> inv(ms[i]) && ms[i].w.setup.sheltered)
    && (forall i, j :: 0 <= i < |ms| && 0 <= j < |ms| ==> ms[i].w.live == ms[j].w.live)
    && (forall i, j :: 0 <= i < |ms| && 0 <= j < |ms| && i != j ==> ms[i].w.setup.key != ms[j].w.setup.key)
  }

  /** What a controller's machine must bring along. */
  ghost predicate Citizen<S(!new), M(!new), O(!new), X(!new), Y(!new), K(!new)>(
    apply: (Machine<S, M, O, X, Y, K>, Event<S, M, O, X, Y>) -> Machine<S, M, O, X, Y, K>,
    inv: Machine<S, M, O, X, Y, K> -> bool)
  {
    && (forall m :: inv(m) ==> Sound(m.w.store) && "" !in m.w.live)
    && (forall m, ev: Event<S, M, O, X, Y> :: inv(m) ==> inv(apply(m, ev)) && apply(m, ev).w.setup == m.w.setup)
    && (forall m, ev: Event<S, M, O, X, Y> :: inv(m) && m.w.setup.sheltered && !ev.Elsewhere? ==> OwnNameOnly(m.w, apply(m, ev).w))
    && (forall m, ev: Event<S, M, O, X, Y> :: inv(m) && ev.Elsewhere? ==> apply(m, ev) == Disturb(m, ev))
  }

  // ---------------------------------------------------------------- each member runs as if alone

  function RunOf<S, M, O, X, Y, K>(
    apply: (Machine<S, M, O, X, Y, K>, Event<S, M, O, X, Y>) -> Machine<S, M, O, X, Y, K>,
    m: Machine<S, M, O, X, Y, K>, es: seq<Event<S, M, O, X, Y>>): Machine<S, M, O, X, Y, K>
    decreases |es|
  {
    if es == [] then m else RunOf(apply, apply(m, es[0]), es[1..])
  }

  /** How one event of the fleet looks to member j. */
  ghost function Appears<S(!new), M(!new), O(!new), X(!new), Y(!new), K(!new)>(
    ms: Members<S, M, O, X, Y, K>, fe: FleetEvent<S, M, O, X, Y>, next: Members<S, M, O, X, Y, K>, j: nat): Event<S, M, O, X, Y>
    requires j < |ms| == |next|
  {
    if fe.i == j then fe.ev else Elsewhere(Seen(ms[j].w, next[j].w.live))
  }

  lemma MemberApplies<S(!new), M(!new), O(!new), X(!new), Y(!new), K(!new)>(
    apply: (Machine<S, M, O, X, Y, K>, Event<S, M, O, X, Y>) -> Machine<S, M, O, X, Y, K>, inv: Machine<S, M, O, X, Y, K> -> bool,
    ms: Members<S, M, O, X, Y, K>, fe: FleetEvent<S, M, O, X, Y>, j: nat)
    requires Citizen(apply, inv) && Company(inv, ms) && j < |ms|
    ensures var next := FleetApply(apply, ms, fe);
      next == ms || (|next| == |ms| && next[j] == apply(ms[j], Appears(ms, fe, next, j)) && inv(next[j])
                     && fe.i < |ms| && next[j].w.live == next[fe.i].w.live)
  {
    var next := FleetApply(apply, ms, fe);
    if next != ms && j != fe.i {
      var n := apply(ms[fe.i], fe.ev);
      assert inv(n) && inv(ms[j]);
      if !fe.ev.Elsewhere? { GrantsRely(ms[fe.i].w, n.w, ms[j].w); }
      var ev := Elsewhere(Seen(ms[j].w, n.w.live));
      assert apply(ms[j], ev) == Disturb(ms[j], ev);
    }
  }

  lemma CompanyStays<S(!new), M(!new), O(!new), X(!new), Y(!new), K(!new)>(
    apply: (Machine<S, M, O, X, Y, K>, Event<S, M, O, X, Y>) -> Machine<S, M, O, X, Y, K>, inv: Machine<S, M, O, X, Y, K> -> bool,
    ms: Members<S, M, O, X, Y, K>, fe: FleetEvent<S, M, O, X, Y>)
    requires Citizen(apply, inv) && Company(inv, ms)
    ensures Company(inv, FleetApply(apply, ms, fe)) && |FleetApply(apply, ms, fe)| == |ms|
  {
    var next := FleetApply(apply, ms, fe);
    if next != ms {
      forall j | 0 <= j < |ms|
        ensures inv(next[j]) && next[j].w.live == next[fe.i].w.live && next[j].w.setup == ms[j].w.setup
      {
        MemberApplies(apply, inv, ms, fe, j);
        assert inv(ms[j]);
      }
    }
  }

  /** Every joint run of a fleet is, for each of its members, one of the runs of that member alone: all
      theorems about single runs hold of each member, whatever the others do. */
  lemma {:induction false} AsIfAlone<S(!new), M(!new), O(!new), X(!new), Y(!new), K(!new)>(
    apply: (Machine<S, M, O, X, Y, K>, Event<S, M, O, X, Y>) -> Machine<S, M, O, X, Y, K>, inv: Machine<S, M, O, X, Y, K> -> bool,
    ms: Members<S, M, O, X, Y, K>, fes: seq<FleetEvent<S, M, O, X, Y>>, j: nat)
    requires Citizen(apply, inv) && Company(inv, ms) && j < |ms|
    ensures var ns := FleetRun(apply, ms, fes);
      Company(inv, ns) && |ns| == |ms| && ns[j] == RunOf(apply, ms[j], View(apply, ms, fes, j))
    decreases |fes|
  {
    if fes != [] {
      var next := FleetApply(apply, ms, fes[0]);
      CompanyStays(apply, inv, ms, fes[0]);
      MemberApplies(apply, inv, ms, fes[0], j);
      AsIfAlone(apply, inv, next, fes[1..], j);
      var es, rest := View(apply, ms, fes, j), View(apply, next, fes[1..], j);
      if next != ms { assert es[0] == Appears(ms, fes[0], next, j) && es[1..] == rest; }
    }
  }

  // ---------------------------------------------------------------- what holds of all at once

  /** Each resource has at most one object and has made it under its finalizer, each live object on record
      is still named and guarded, each status is coherent; and no two resources have the same live
      object on record. */
  ghost predicate AllSound<S, M, O, X, Y, K>(ms: Members<S, M, O, X, Y, K>) {
    && (forall i :: 0 <= i < |ms| ==>
          && AtMostOne(ms[i].w)
          && (forall c :: c in ms[i].w.calls && c.SentCreate? ==> c.guarded)
          && (forall id :: id in ms[i].w.live && id in ms[i].w.recorded ==> OwnedBy(ms[i].w, id))
          && (ms[i].w.store.cr.Some? ==> Coherent(ms[i].w.store.cr.value.status)))
    && (forall i, j :: 0 <= i < |ms| && 0 <= j < |ms| && i != j ==> Apart(ms[i].w, ms[j].w))
  }

  /** No live object is on record with both. */
  ghost predicate Apart<S, M, O, X, Y>(a: World<S, M, O, X, Y>, b: World<S, M, O, X, Y>) {
    a.store.cr.Some? && b.store.cr.Some? && a.store.cr.value.status.id in a.live
    ==> a.store.cr.value.status.id != b.store.cr.value.status.id
  }

  lemma CompanySound<S(!new), M(!new), O(!new), X(!new), Y(!new), K(!new)>(
    inv: Machine<S, M, O, X, Y, K> -> bool, ms: Members<S, M, O, X, Y, K>)
    requires Company(inv, ms) && forall i :: 0 <= i < |ms| ==> Inv(ms[i].w)
    ensures AllSound(ms)
  {
    forall i, j | 0 <= i < |ms| && 0 <= j < |ms| && i != j ensures Apart(ms[i].w, ms[j].w) {
      assert ms[i].w.setup.key != ms[j].w.setup.key && ms[i].w.live == ms[j].w.live;
      assert Inv(ms[i].w) && Inv(ms[j].w);
    }
  }

  /** Where a fleet starts: names nobody has used for a resource yet, one server. */
  ghost predicate Fresh<S(!new), M(!new), O(!new), X(!new), Y(!new), K(!new)>(ms: Members<S, M, O, X, Y, K>) {
    && (forall i :: 0 <= i < |ms| ==> ms[i] == Machine(ms[i].w, Idle, Failure) && Initial(ms[i].w) && ms[i].w.setup.sheltered)
    && (forall i, j :: 0 <= i < |ms| && 0 <= j < |ms| ==> ms[i].w.live == ms[j].w.live)
    && (forall i, j :: 0 <= i < |ms| && 0 <= j < |ms| && i != j ==> ms[i].w.setup.key != ms[j].w.setup.key)
  }
}
