/** What every step of the shared protocol keeps, whoever takes it. */
module Invariants {
  import opened Basics
  import opened Conditions
  import opened Kube
  import opened Lifecycle

  // ---------------------------------------------------------------- the invariant

  /** Ready, Synced and the truth of the "Ready" condition agree. */
  ghost predicate Coherent<M>(s: SyncStatus<M>) {
    Unique(s.conditions) && s.ready == s.synced == IsTrue(s.conditions, "Ready")
  }

  /** No live object other than `id` has our name. */
  ghost predicate Claimed<S, M, O, X, Y>(w: World<S, M, O, X, Y>, id: Id) {
    forall j :: j in w.live && w.live[j].name == w.setup.key ==> j == id
  }

  ghost predicate NoneNamed<S, M, O, X, Y>(w: World<S, M, O, X, Y>) {
    forall j :: j in w.live ==> w.live[j].name != w.setup.key
  }

  /** At most one live object has our name. */
  ghost predicate AtMostOne<S, M, O, X, Y>(w: World<S, M, O, X, Y>) {
    forall i, j :: i in w.live && j in w.live && w.live[i].name == w.setup.key && w.live[j].name == w.setup.key
              ==> i == j
  }

  /** In a sheltered world `id` is live under our name. */
  ghost predicate Anchored<S, M, O, X, Y>(w: World<S, M, O, X, Y>, id: Id) {
    w.setup.sheltered ==> id in w.live && w.live[id].name == w.setup.key
  }

  /** The stored resource still knows, and still guards, this object. */
  ghost predicate OwnedBy<S, M, O, X, Y>(w: World<S, M, O, X, Y>, id: Id) {
    w.store.cr.Some? && w.store.cr.value.status.id == id && w.store.cr.value.finalizer
  }

  ghost predicate ResourceInv<S, M, O, X, Y>(w: World<S, M, O, X, Y>, c: Copy<S, M>) {
    && c.name == w.setup.key
    && Coherent(c.status)
    && (c.deleting ==> c.finalizer)
    && (!c.finalizer ==> (w.setup.tidy ==> w.own == w.setup.clean) && c.status.id == "")
    && (c.status.id != "" ==>
          && c.status.id in w.recorded
          && Claimed(w, c.status.id)
          && (!c.deleting ==> Anchored(w, c.status.id))
          && (w.setup.sheltered && c.status.id in w.live ==> w.live[c.status.id].name == w.setup.key))
  }

  /** Holds at every point of every run. */
  ghost predicate Inv<S, M, O, X, Y>(w: World<S, M, O, X, Y>) {
    && Sound(w.store)
    && "" !in w.live
    && AtMostOne(w)
    && (forall c :: c in w.calls && c.SentCreate? ==> c.guarded)
    && (forall id :: id in w.live && id in w.recorded ==> OwnedBy(w, id))
    && (w.store.cr.Some? ==> ResourceInv(w, w.store.cr.value))
  }

  /** Across any stretch of time: while one and the same resource exists, a recorded id stays. */
  ghost predicate Kept<S, M, O, X, Y>(w: World<S, M, O, X, Y>, v: World<S, M, O, X, Y>) {
    && v.setup == w.setup
    && w.store.clock <= v.store.clock
    && (v.store.cr.Some? ==>
          || v.store.cr.value.uid > w.store.clock
          || (w.store.cr.Some? && SameId(w.store.cr.value, v.store.cr.value)))
  }

  ghost predicate SameId<S, M>(c: Copy<S, M>, d: Copy<S, M>) {
    c.uid == d.uid && (c.status.id != "" ==> d.status.id == c.status.id)
  }

  lemma KeptTransitive<S, M, O, X, Y>(a: World<S, M, O, X, Y>, b: World<S, M, O, X, Y>, c: World<S, M, O, X, Y>)
    requires Inv(a) && Kept(a, b) && Kept(b, c)
    ensures Kept(a, c)
  {
  }

  // ---------------------------------------------------------------- what a run knows

  /** A copy read from the cluster: still exact if its version is still the stored one, and, once
      it shows the finalizer, still the resource whose status and finalizer are stored. */
  ghost predicate Seen<S, M, O, X, Y>(w: World<S, M, O, X, Y>, g: Copy<S, M>) {
    && g.uid <= g.version <= w.store.clock
    && g.name == w.setup.key
    && Coherent(g.status)
    && (g.status.id != "" ==>
          && g.finalizer
          && g.status.id in w.recorded
          && Claimed(w, g.status.id)
          && (!g.deleting ==> Anchored(w, g.status.id)))
    && (w.store.cr.Some? && w.store.cr.value.version == g.version ==> w.store.cr.value == g)
    && (g.finalizer ==> w.store.cr.Some? && Mirrors(w.store.cr.value, g))
  }

  ghost predicate Mirrors<S, M>(c: Copy<S, M>, g: Copy<S, M>) {
    c.uid == g.uid && c.finalizer && c.status == g.status && (g.deleting ==> c.deleting)
  }

  /** The run may record `id`: it is the only object of our name. */
  ghost predicate Chosen<S, M, O, X, Y>(w: World<S, M, O, X, Y>, g: Copy<S, M>, id: Id) {
    && Seen(w, g) && g.finalizer
    && id != "" && (g.status.id == "" || g.status.id == id)
    && Claimed(w, id) && Anchored(w, id)
  }

  /** The run may write status `s` over its copy `g`. */
  ghost predicate Reportable<S, M, O, X, Y>(w: World<S, M, O, X, Y>, g: Copy<S, M>, s: SyncStatus<M>) {
    Seen(w, g) && Coherent(s) && (s.id == g.status.id || Chosen(w, g, s.id))
  }

  ghost predicate Gone<S, M, O, X, Y>(w: World<S, M, O, X, Y>, g: Copy<S, M>) {
    g.status.id == "" || g.status.id !in w.live
  }

  ghost predicate Knows<S, M, O, X, Y, K>(w: World<S, M, O, X, Y>, pc: Pc<S, M, K>) {
    match pc
    case Idle => true
    case Read => true
    case Gate(g) => Seen(w, g)
    case Finalize(g, _) => Seen(w, g) && !g.finalizer && !g.deleting
    case Discard(g) => Seen(w, g) && g.finalizer && g.deleting
    case Unfinalize(g) => Seen(w, g) && g.finalizer && g.deleting && Gone(w, g)
    case Start(g, _) => Seen(w, g) && g.finalizer && !g.deleting
    case Work(_) => true
    case Report(g, s, _) => Reportable(w, g, s)
  }

  // ---------------------------------------------------------------- everyone else's steps

  lemma OutsideKeeps<S, M, O, X, Y>(w: World<S, M, O, X, Y>, e: Outside<S, M, O, X, Y>)
    requires Inv(w) && Rely(w, e)
    ensures Inv(After(w, e)) && Kept(w, After(w, e))
  {
    var v := After(w, e);
    if v.store.cr.Some? && Edited(w.store, v.store.cr.value) {
      assert ResourceInv(w, w.store.cr.value);
    }
    forall id | id in v.live && id in v.recorded ensures OwnedBy(v, id) {
      assert OwnedBy(w, id);
    }
  }

  lemma OutsideSeen<S, M, O, X, Y>(w: World<S, M, O, X, Y>, e: Outside<S, M, O, X, Y>, g: Copy<S, M>)
    requires Rely(w, e) && Seen(w, g)
    ensures Seen(After(w, e), g)
  {
  }

  lemma OutsideChosen<S, M, O, X, Y>(w: World<S, M, O, X, Y>, e: Outside<S, M, O, X, Y>, g: Copy<S, M>, id: Id)
    requires Rely(w, e) && Chosen(w, g, id)
    ensures Chosen(After(w, e), g, id)
  {
    OutsideSeen(w, e, g);
  }

  lemma OutsideKnows<S, M, O, X, Y, K>(w: World<S, M, O, X, Y>, e: Outside<S, M, O, X, Y>, pc: Pc<S, M, K>)
    requires Rely(w, e) && Knows(w, pc)
    ensures Knows(After(w, e), pc)
  {
    match pc
    case Idle =>
    case Read =>
    case Work(_) =>
    case Gate(g) => OutsideSeen(w, e, g);
    case Finalize(g, _) => OutsideSeen(w, e, g);
    case Discard(g) => OutsideSeen(w, e, g);
    case Unfinalize(g) => OutsideSeen(w, e, g);
    case Start(g, _) => OutsideSeen(w, e, g);
    case Report(g, s, _) =>
      OutsideSeen(w, e, g);
      if s.id != g.status.id { OutsideChosen(w, e, g, s.id); }
  }

  // ---------------------------------------------------------------- the run's own calls

  /** Re-reading the resource keeps what the run knows about its object. */
  lemma ReadChosen<S, M, O, X, Y>(w: World<S, M, O, X, Y>, g: Copy<S, M>, id: Id)
    requires Inv(w) && Chosen(w, g, id)
    ensures w.store.cr.Some? && Chosen(w, w.store.cr.value, id)
    ensures w.store.cr.value.uid == g.uid && w.store.cr.value.status == g.status
  {
  }

  lemma FailedCoherent<M>(s: SyncStatus<M>, generation: nat, reason: string)
    requires Coherent(s)
    ensures Coherent(Failed(s, generation, reason))
  {
    var c := Condition("Ready", false, reason, generation);
    SetFind(s.conditions, c, "Ready");
    SetUnique(s.conditions, c);
  }

  lemma SyncedCoherent<M>(s: SyncStatus<M>, generation: nat, id: Id, now: nat, observe: bool, more: M)
    requires Coherent(s)
    ensures Coherent(Synced(s, generation, id, now, observe, more))
  {
    var c := Condition("Ready", true, "Synced", generation);
    SetFind(s.conditions, c, "Ready");
    SetUnique(s.conditions, c);
  }

  lemma StatusKeeps<S, M, O, X, Y>(w: World<S, M, O, X, Y>, g: Copy<S, M>, s: SyncStatus<M>, o: Outcome)
    requires Inv(w) && Reportable(w, g, s)
    ensures var v := WriteStatus(w, g.(status := s), o).0; Inv(v) && Kept(w, v)
  {
    var v := WriteStatus(w, g.(status := s), o).0;
    if v != w {
      assert w.store.cr.value == g;
      assert ResourceInv(w, g);
      forall id | id in v.live && id in v.recorded ensures OwnedBy(v, id) {
        if id in w.recorded { assert OwnedBy(w, id); }
      }
      assert ResourceInv(v, v.store.cr.value);
    }
  }

  lemma FinalizeKeeps<S, M, O, X, Y>(w: World<S, M, O, X, Y>, g: Copy<S, M>, o: Outcome)
    requires Inv(w) && Seen(w, g) && !g.finalizer && !g.deleting
    ensures var (v, now) := WriteMeta(w, g.(finalizer := true), o);
      && Inv(v) && Kept(w, v)
      && (now.Some? ==> Seen(v, now.value) && now.value.finalizer && !now.value.deleting)
  {
    var (v, now) := WriteMeta(w, g.(finalizer := true), o);
    if v != w {
      assert w.store.cr.value == g;
      assert forall id :: id in w.live && id in w.recorded ==> OwnedBy(w, id);
    }
  }

  /** The finalizer goes only when no recorded object is left. */
  lemma UnfinalizeKeeps<S, M, O, X, Y>(w: World<S, M, O, X, Y>, g: Copy<S, M>, o: Outcome)
    requires Inv(w) && Seen(w, g) && g.finalizer && g.deleting && Gone(w, g)
    ensures var v := WriteMeta(w, g.(finalizer := false), o).0; Inv(v) && Kept(w, v)
  {
    var v := WriteMeta(w, g.(finalizer := false), o).0;
    if v != w {
      assert w.store.cr.value == g;
      assert forall id :: id in w.live && id in w.recorded ==> OwnedBy(w, id);
    }
  }

  lemma DropKeeps<S, M, O, X, Y>(w: World<S, M, O, X, Y>, g: Copy<S, M>, o: Outcome)
    requires Inv(w) && Seen(w, g) && g.finalizer && g.deleting
    ensures var (v, ok) := Drop(w, g.status.id, o);
      Inv(v) && Kept(w, v) && Seen(v, g) && (ok ==> Gone(v, g))
  {
    var (v, ok) := Drop(w, g.status.id, o);
    forall id | id in v.live && id in v.recorded ensures OwnedBy(v, id) {
      assert OwnedBy(w, id);
    }
  }

  lemma MakeKeeps<S, M, O, X, Y>(w: World<S, M, O, X, Y>, g: Copy<S, M>, spec: S, body: O, want: Id, t: Tick)
    requires Inv(w) && Seen(w, g) && g.finalizer && g.status.id == "" && NoneNamed(w)
    ensures var (v, e) := Make(w, spec, body, want, t);
      Inv(v) && Kept(w, v) && Seen(v, g) && (e.Some? ==> Chosen(v, g, e.value.id))
  {
    var (v, e) := Make(w, spec, body, want, t);
    forall id | id in v.live && id in v.recorded ensures OwnedBy(v, id) {
      assert OwnedBy(w, id);
    }
  }

  lemma ChangeKeeps<S, M, O, X, Y>(w: World<S, M, O, X, Y>, g: Copy<S, M>, id: Id, spec: S, body: O, o: Outcome)
    requires Inv(w) && Chosen(w, g, id)
    ensures var v := Change(w, id, spec, body, o).0; Inv(v) && Kept(w, v) && Chosen(v, g, id)
  {
    var v := Change(w, id, spec, body, o).0;
    forall id' | id' in v.live && id' in v.recorded ensures OwnedBy(v, id') {
      assert OwnedBy(w, id');
    }
  }

  /** Writing what only this controller writes, while the finalizer is in place. */
  lemma OwnKeeps<S, M, O, X, Y>(w: World<S, M, O, X, Y>, v: World<S, M, O, X, Y>, g: Copy<S, M>)
    requires Inv(w) && Seen(w, g) && g.finalizer
    requires v == w.(own := v.own)
    ensures Inv(v) && Kept(w, v) && Seen(v, g)
  {
    assert forall i :: i in v.live && i in v.recorded ==> OwnedBy(w, i);
  }

  /** The same, together with any request that is not a create. */
  lemma AsideKeeps<S, M, O, X, Y>(w: World<S, M, O, X, Y>, v: World<S, M, O, X, Y>, g: Copy<S, M>, id: Id)
    requires Inv(w) && Chosen(w, g, id)
    requires v == w.(own := v.own, calls := v.calls)
    requires forall c :: c in v.calls ==> c in w.calls || !c.SentCreate?
    ensures Inv(v) && Kept(w, v) && Chosen(v, g, id)
  {
    assert forall i :: i in v.live && i in v.recorded ==> OwnedBy(w, i);
  }

  lemma {:induction false} FindSound<O>(order: seq<Id>, live: map<Id, Remote<O>>, name: string)
    requires forall i | 0 <= i < |order| :: order[i] in live
    ensures var found := FindByName(Rows(order, live), name);
      && (found.Some? ==> found.value.id in live && live[found.value.id] == Remote(name, found.value.body)
                          && found.value.name == name)
      && (found.None? ==> forall id :: id in order ==> live[id].name != name)
  {
    if order != [] {
      FindSound(order[1..], live, name);
      assert Rows(order, live)[1..] == Rows(order[1..], live);
    }
  }

  /** Adoption: a complete list either shows the one object of our name or proves there is none. */
  lemma ListDecides<S, M, O, X, Y>(w: World<S, M, O, X, Y>, g: Copy<S, M>, t: Tick)
    requires Inv(w) && Seen(w, g) && g.finalizer && g.status.id == "" && List(w, t).Some?
    ensures var found := FindByName(List(w, t).value, w.setup.key);
      && (found.None? ==> NoneNamed(w))
      && (found.Some? ==> Chosen(w, g, found.value.id) && found.value.id in w.live
                          && w.live[found.value.id] == Remote(w.setup.key, found.value.body))
  {
    FindSound(t.order, w.live, w.setup.key);
  }

  /** The steps that all controllers share keep the invariant and their own knowledge. */
  lemma SharedKeeps<S, M, O, X, Y, K>(m: Machine<S, M, O, X, Y, K>, t: Tick)
    requires !m.pc.Start? && !m.pc.Work?
    requires Inv(m.w) && Knows(m.w, m.pc)
    ensures var n := SharedStep(m, t); Inv(n.w) && Knows(n.w, n.pc) && Kept(m.w, n.w) && !n.pc.Work?
  {
    match m.pc
    case Idle =>
    case Read =>
    case Gate(g) => FailedCoherent(g.status, g.generation, if t.outcome.Ok? && t.gate.Refused? then t.gate.reason else "InstanceNotFound");
    case Finalize(g, _) => FinalizeKeeps(m.w, g, t.outcome);
    case Discard(g) => DropKeeps(m.w, g, t.outcome); FailedCoherent(g.status, g.generation, m.w.setup.deleteFailed);
    case Unfinalize(g) => UnfinalizeKeeps(m.w, g, t.outcome);
    case Report(g, s, _) => StatusKeeps(m.w, g, s, t.outcome);
  }

  // ---------------------------------------------------------------- where runs start

  /** A name nobody has used for a resource yet; the server may already hold one object of it. */
  ghost predicate Initial<S, M, O, X, Y>(w: World<S, M, O, X, Y>) {
    w.store.cr.None? && "" !in w.live && AtMostOne(w) && w.own == w.setup.clean && w.calls == [] && w.recorded == {}
  }

  /** Ticks of a run that no fault, nobody else and no refusal disturbs. `live` is what the server
      holds before it: made-up ids are new, and a list shows everything. */
  ghost predicate FaultFree<O>(live: map<Id, Remote<O>>, ts: seq<Tick>) {
    forall i :: 0 <= i < |ts| ==> Good(live, ts[i])
  }

  ghost predicate Good<O>(live: map<Id, Remote<O>>, t: Tick) {
    t.outcome.Ok? && t.gate.Granted? && t.minted != "" && t.minted !in live && Enumerates(t.order, live)
  }

  /** The world once the finalizer is in place. */
  function Guarded<S, M, O, X, Y>(w: World<S, M, O, X, Y>): World<S, M, O, X, Y> {
    if w.store.cr.None? || w.store.cr.value.finalizer then w
    else WriteMeta(w, w.store.cr.value.(finalizer := true), Ok).0
  }

  /** The undisturbed opening of a run that syncs: read, gate, finalizer. */
  lemma Opening<S, M, O, X, Y, K>(m: Machine<S, M, O, X, Y, K>, t0: Tick, t1: Tick, t2: Tick)
    requires m.pc == Read && m.w.store.cr.Some? && !m.w.store.cr.value.deleting
    requires t0.outcome.Ok? && t1.outcome.Ok? && t2.outcome.Ok? && t1.gate.Granted?
    ensures SharedStep(m, t0) == Machine(m.w, Gate(m.w.store.cr.value), Failure)
    ensures var g := m.w.store.cr.value;
      var m2 := SharedStep(SharedStep(m, t0), t1);
      && m2 == Machine(m.w, if g.finalizer then Start(g, t1.gate.inst) else Finalize(g, t1.gate.inst), Failure)
      && (!g.finalizer ==>
            SharedStep(m2, t2) == Machine(Guarded(m.w), Start(Guarded(m.w).store.cr.value, t1.gate.inst), Failure))
  {
  }

  /** The undisturbed ways through a deletion. */
  lemma Closing<S, M, O, X, Y, K>(m: Machine<S, M, O, X, Y, K>, t: Tick)
    requires m.w.store.cr.Some? && m.w.store.cr.value.deleting && m.w.store.cr.value.finalizer
    requires t.outcome.Ok?
    requires m.pc == Discard(m.w.store.cr.value) || m.pc == Unfinalize(m.w.store.cr.value)
    ensures m.pc.Unfinalize? ==>
      (SharedStep(m, t) == Machine(m.w.(store := Store(None, m.w.store.clock + 1)), Idle, Success))
    ensures m.pc.Discard? ==>
      var id := m.w.store.cr.value.status.id;
      var n := SharedStep(m, t);
      && n.w == m.w.(calls := m.w.calls + [SentDelete(id)], live := m.w.live - {id})
      && if id in m.w.live || m.w.setup.tolerant then n.pc == Unfinalize(m.w.store.cr.value) else n.pc.Report? && n.pc.verdict.Failure? && n.pc.g == m.w.store.cr.value
  {
    var id := m.w.store.cr.value.status.id;
    if m.pc.Discard? && id !in m.w.live {
      assert m.w.live - {id} == m.w.live;
    }
  }

  // ---------------------------------------------------------------- deletion

  /** A deletion that can no longer finish: the server has lost the recorded object and answers
      its delete with an error. */
  ghost predicate Stuck<S, M, O, X, Y>(w: World<S, M, O, X, Y>, id: Id) {
    && !w.setup.tolerant && id != "" && id !in w.live && id in w.recorded
    && w.store.cr.Some? && w.store.cr.value.deleting && w.store.cr.value.finalizer
    && w.store.cr.value.status.id == id
  }

  ghost predicate StuckAt<S, M, O, X, Y, K>(m: Machine<S, M, O, X, Y, K>, id: Id) {
    && Inv(m.w) && Knows(m.w, m.pc) && Stuck(m.w, id)
    && match m.pc
       case Idle => true
       case Read => true
       case Gate(g) => g.deleting && g.finalizer && g.status.id == id
       case Discard(g) => g.status.id == id
       case Report(g, s, verdict) => s.id == id && verdict.Failure?
       case _ => false
  }

  /** The way there: a delete that took effect, whether it was reported as failed or the process died
      before the finalizer was removed. */
  lemma DropSticks<S, M, O, X, Y, K>(m: Machine<S, M, O, X, Y, K>, t: Tick)
    requires Inv(m.w) && Knows(m.w, m.pc) && m.pc.Discard? && m.pc.g.status.id != "" && !m.w.setup.tolerant
    requires !t.outcome.Lost?
    ensures t.outcome.Late? ==> StuckAt(SharedStep(m, t), m.pc.g.status.id)
    ensures StuckAt(Disturb(SharedStep(m, t), Crash), m.pc.g.status.id)
  {
    SharedKeeps(m, t);
  }

  lemma StuckStep<S, M, O, X, Y, K>(m: Machine<S, M, O, X, Y, K>, t: Tick, id: Id)
    requires StuckAt(m, id)
    ensures StuckAt(SharedStep(m, t), id)
  {
    SharedKeeps(m, t);
  }

  lemma StuckDisturb<S, M, O, X, Y, K>(m: Machine<S, M, O, X, Y, K>, ev: Event<S, M, O, X, Y>, id: Id)
    requires StuckAt(m, id)
    ensures StuckAt(Disturb(m, ev), id)
  {
    if ev.Elsewhere? && Rely(m.w, ev.e) {
      OutsideKeeps(m.w, ev.e);
      OutsideKnows(m.w, ev.e, m.pc);
    }
  }
}
