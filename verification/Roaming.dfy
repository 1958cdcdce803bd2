/** Several servers. A run works with the server of the instance that its resource refers to when the run
    passes the gate; an edit of that reference takes the next run elsewhere. The machines of the other
    modules see one server at a time; here is what becomes of the objects at the others. */
module Roaming {
  import opened Basics
  import opened GroupRefs
  import opened Lifecycle
  import opened Invariants

  /** One server as this resource is concerned: what it holds, and which ids of it were ever recorded. */
  datatype Site<O> = Site(live: map<Id, Remote<O>>, recorded: set<Id>)

  /** A machine, the instance its current or last run works with, and the servers of the others. The
      machine's world shows the server of `at`. */
  datatype Roamer<S, M, O, X, Y, K> = Roamer(m: Machine<S, M, O, X, Y, K>, at: InstanceKey, away: map<InstanceKey, Site<O>>)

  /** Stay: an event at the present server. Move: the run that is about to pass the gate finds that its
      resource refers to another instance. Abroad: others act at the other servers. */
  datatype RoamEvent<S, M, O, X, Y> = Stay(ev: Event<S, M, O, X, Y>) | Move(to: InstanceKey) | Abroad(away: map<InstanceKey, Site<O>>)

  function At<S, M, O, X, Y, K>(m: Machine<S, M, O, X, Y, K>, site: Site<O>): Machine<S, M, O, X, Y, K> {
    m.(w := m.w.(live := site.live, recorded := site.recorded))
  }

  predicate Moves<S, M, O, X, Y, K>(r: Roamer<S, M, O, X, Y, K>, to: InstanceKey) {
    r.m.pc.Gate? && to != r.at && to in r.away
  }

  function Attach<S, M, O, X, Y, K>(r: Roamer<S, M, O, X, Y, K>, to: InstanceKey): Roamer<S, M, O, X, Y, K>
    requires to in r.away
  {
    Roamer(At(r.m, r.away[to]), to, (r.away - {to})[r.at := Site(r.m.w.live, r.m.w.recorded)])
  }

  /** Elsewhere, too, the natural key belongs to this resource, and ids on record are not given out. */
  ghost predicate Foreign<O>(site: Site<O>, later: Site<O>, key: string) {
    && later.recorded == site.recorded && "" !in later.live
    && (forall id :: id in later.live && later.live[id].name == key ==> id in site.live && site.live[id].name == key)
    && (forall id :: id in later.live ==> id in site.live || id !in site.recorded)
  }

  ghost function RoamApply<S(!new), M(!new), O(!new), X(!new), Y(!new), K(!new)>(
    apply: (Machine<S, M, O, X, Y, K>, Event<S, M, O, X, Y>) -> Machine<S, M, O, X, Y, K>,
    r: Roamer<S, M, O, X, Y, K>, e: RoamEvent<S, M, O, X, Y>): Roamer<S, M, O, X, Y, K>
  {
    match e
    case Stay(ev) => r.(m := apply(r.m, ev))
    case Move(to) => if Moves(r, to) then Attach(r, to) else r
    case Abroad(away) =>
      if away.Keys == r.away.Keys && forall h :: h in away ==> Foreign(r.away[h], away[h], r.m.w.setup.key) then r.(away := away) else r
  }

  ghost function RoamRun<S(!new), M(!new), O(!new), X(!new), Y(!new), K(!new)>(
    apply: (Machine<S, M, O, X, Y, K>, Event<S, M, O, X, Y>) -> Machine<S, M, O, X, Y, K>,
    r: Roamer<S, M, O, X, Y, K>, es: seq<RoamEvent<S, M, O, X, Y>>): Roamer<S, M, O, X, Y, K>
    decreases |es|
  {
    if es == [] then r else RoamRun(apply, RoamApply(apply, r, es[0]), es[1..])
  }

  // ---------------------------------------------------------------- accounting at all servers

  /** Every live object on record, at whatever server, is the one that the stored resource names and
      guards, and is at the server that its runs work with. */
  ghost predicate Accounted<S, M, O, X, Y, K>(r: Roamer<S, M, O, X, Y, K>) {
    && (forall id :: id in r.m.w.live && id in r.m.w.recorded ==> OwnedBy(r.m.w, id))
    && (forall h :: h in r.away ==> Unclaimed(r.away[h]))
  }

  ghost predicate Unclaimed<O>(site: Site<O>) {
    forall id :: id in site.live ==> id !in site.recorded
  }

  /** At most one object of our name, at each server. */
  ghost predicate Single<O>(live: map<Id, Remote<O>>, key: string) {
    forall i, j :: i in live && j in live && live[i].name == key && live[j].name == key ==> i == j
  }

  ghost predicate SiteOk<O>(site: Site<O>, key: string) {
    "" !in site.live && Single(site.live, key) && Unclaimed(site)
  }

  ghost predicate RoamInv<S(!new), M(!new), O(!new), X(!new), Y(!new), K(!new)>(
    inv: Machine<S, M, O, X, Y, K> -> bool, r: Roamer<S, M, O, X, Y, K>)
  {
    inv(r.m) && Inv(r.m.w) && r.at !in r.away && forall h :: h in r.away ==> SiteOk(r.away[h], r.m.w.setup.key)
  }

  ghost predicate NoneOnRecord<S, M, O, X, Y, K>(m: Machine<S, M, O, X, Y, K>) {
    m.pc.Gate? && m.pc.g.status.id == "" && (m.w.store.cr.Some? ==> m.w.store.cr.value.status.id == "")
  }

  /** What a controller's machine must bring along. */
  ghost predicate Nomad<S(!new), M(!new), O(!new), X(!new), Y(!new), K(!new)>(
    apply: (Machine<S, M, O, X, Y, K>, Event<S, M, O, X, Y>) -> Machine<S, M, O, X, Y, K>, inv: Machine<S, M, O, X, Y, K> -> bool)
  {
    && (forall m, ev: Event<S, M, O, X, Y> :: inv(m) ==> inv(apply(m, ev)) && apply(m, ev).w.setup == m.w.setup)
    && (forall m :: inv(m) ==> Inv(m.w))
    && (forall m, site :: inv(m) && NoneOnRecord(m) && SiteOk(site, m.w.setup.key) ==> inv(At(m, site)))
  }

  /** No run passes the gate to another server while an id is on record. */
  ghost predicate Settles<S(!new), M(!new), O(!new), X(!new), Y(!new), K(!new)>(
    apply: (Machine<S, M, O, X, Y, K>, Event<S, M, O, X, Y>) -> Machine<S, M, O, X, Y, K>,
    r: Roamer<S, M, O, X, Y, K>, es: seq<RoamEvent<S, M, O, X, Y>>)
    decreases |es|
  {
    es != [] ==>
      && (es[0].Move? && Moves(r, es[0].to) ==> NoneOnRecord(r.m))
      && Settles(apply, RoamApply(apply, r, es[0]), es[1..])
  }

  lemma MoveKeeps<S(!new), M(!new), O(!new), X(!new), Y(!new), K(!new)>(
    apply: (Machine<S, M, O, X, Y, K>, Event<S, M, O, X, Y>) -> Machine<S, M, O, X, Y, K>, inv: Machine<S, M, O, X, Y, K> -> bool,
    r: Roamer<S, M, O, X, Y, K>, to: InstanceKey)
    requires Nomad(apply, inv) && RoamInv(inv, r) && Moves(r, to) && NoneOnRecord(r.m)
    ensures RoamInv(inv, Attach(r, to))
  {
    assert inv(At(r.m, r.away[to]));
    assert SiteOk(Site(r.m.w.live, r.m.w.recorded), r.m.w.setup.key);
  }

  lemma RoamStep<S(!new), M(!new), O(!new), X(!new), Y(!new), K(!new)>(
    apply: (Machine<S, M, O, X, Y, K>, Event<S, M, O, X, Y>) -> Machine<S, M, O, X, Y, K>, inv: Machine<S, M, O, X, Y, K> -> bool,
    r: Roamer<S, M, O, X, Y, K>, e: RoamEvent<S, M, O, X, Y>)
    requires Nomad(apply, inv) && RoamInv(inv, r)
    requires e.Move? && Moves(r, e.to) ==> NoneOnRecord(r.m)
    ensures RoamInv(inv, RoamApply(apply, r, e))
  {
    if e.Move? && Moves(r, e.to) { MoveKeeps(apply, inv, r, e.to); }
    if e.Stay? { assert inv(apply(r.m, e.ev)); }
  }

  /** As long as the reference does not take a run elsewhere with an id on record, everything that holds at
      one server holds at all of them: never a second object of the name at any, and every live object on
      record named and guarded by the stored resource. */
  lemma {:induction false} RoamSafe<S(!new), M(!new), O(!new), X(!new), Y(!new), K(!new)>(
    apply: (Machine<S, M, O, X, Y, K>, Event<S, M, O, X, Y>) -> Machine<S, M, O, X, Y, K>, inv: Machine<S, M, O, X, Y, K> -> bool,
    r: Roamer<S, M, O, X, Y, K>, es: seq<RoamEvent<S, M, O, X, Y>>)
    requires Nomad(apply, inv) && RoamInv(inv, r) && Settles(apply, r, es)
    ensures RoamInv(inv, RoamRun(apply, r, es)) && Accounted(RoamRun(apply, r, es))
    decreases |es|
  {
    if es != [] {
      RoamStep(apply, inv, r, es[0]);
      RoamSafe(apply, inv, RoamApply(apply, r, es[0]), es[1..]);
    }
  }

  /** And only so long: the move that takes a run elsewhere keeps the accounts if and only if the resource
      has no live object on record where it comes from. */
  lemma MoveExact<S(!new), M(!new), O(!new), X(!new), Y(!new), K(!new)>(
    inv: Machine<S, M, O, X, Y, K> -> bool, r: Roamer<S, M, O, X, Y, K>, to: InstanceKey)
    requires RoamInv(inv, r) && Moves(r, to)
    ensures Accounted(Attach(r, to)) <==> r.m.w.store.cr.None? || r.m.w.store.cr.value.status.id !in r.m.w.live
  {
    var v := Attach(r, to);
    assert v.away[r.at] == Site(r.m.w.live, r.m.w.recorded);
    if r.m.w.store.cr.Some? && r.m.w.store.cr.value.status.id in r.m.w.live {
      assert ResourceInv(r.m.w, r.m.w.store.cr.value);
      assert !Unclaimed(v.away[r.at]);
    } else {
      assert forall h :: h in v.away ==> Unclaimed(v.away[h]);
      assert SiteOk(r.away[to], r.m.w.setup.key);
    }
  }
}
