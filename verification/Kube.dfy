/** The cluster's API server as one custom resource sees it: versioned objects, a status
    subresource, finalizers and a deletion mark. */
module Kube {
  import opened Basics

  /** A custom resource. `uid` tells successive resources of one name apart; `name` is the natural
      key that also names the object at PocketID; `version` is the resourceVersion. */
  datatype Resource<S, T> = Resource(
    uid: nat, name: string, spec: S, generation: nat, status: T,
    finalizer: bool, deleting: bool, version: nat)

  /** The stored resource, if any, and the last resourceVersion handed out. */
  datatype Store<S, T> = Store(cr: Option<Resource<S, T>>, clock: nat)

  ghost predicate Sound<S, T>(st: Store<S, T>) {
    st.cr.Some? ==> st.cr.value.uid <= st.cr.value.version <= st.clock
  }

  /** A write is accepted only from a copy that carries the stored version. */
  predicate Accepts<S, T>(st: Store<S, T>, obj: Resource<S, T>, o: Outcome) {
    !o.Lost? && st.cr.Some? && st.cr.value.version == obj.version
  }

  /** Update: writes spec and finalizer, leaves the stored status alone. A resource marked for
      deletion disappears with its finalizer. The caller's copy becomes the server's answer. */
  function PutMeta<S, T>(st: Store<S, T>, obj: Resource<S, T>, o: Outcome)
    : (r: (Store<S, T>, Option<Resource<S, T>>))
  {
    if !Accepts(st, obj, o) then (st, None) else
      var now := st.cr.value.(spec := obj.spec, finalizer := obj.finalizer, version := st.clock + 1);
      var kept := if now.deleting && !now.finalizer then None else Some(now);
      (Store(kept, st.clock + 1), if o.Ok? then Some(now) else None)
  }

  /** Status().Update: writes the status and nothing else. */
  function PutStatus<S, T>(st: Store<S, T>, obj: Resource<S, T>, o: Outcome): (r: (Store<S, T>, bool)) {
    if !Accepts(st, obj, o) then (st, false) else
      (Store(Some(st.cr.value.(status := obj.status, version := st.clock + 1)), st.clock + 1), o.Ok?)
  }

  /** `b` has a resource that did not exist at `a`. */
  predicate Born<S, T>(a: Store<S, T>, b: Store<S, T>) {
    b.cr.Some? && b.cr.value.uid > a.clock
  }

  /** What anyone but the resource's own controller may do to it: edit its spec, mark it for
      deletion, remove it while no finalizer guards it, and create it afresh. Status and
      finalizer belong to the controller; every change takes a new version. */
  predicate Drift<S(==), T(==)>(a: Store<S, T>, b: Store<S, T>, key: string, blank: T) {
    && a.clock <= b.clock
    && (b.cr == a.cr
        || (b.cr.None? && !a.cr.value.finalizer)
        || (b.cr.Some? && a.clock < b.cr.value.version <= b.clock && b.cr.value.name == key
            && (b.cr.value.deleting ==> b.cr.value.finalizer)
            && (Edited(a, b.cr.value) || Fresh(a, b.cr.value, blank))))
  }

  predicate Edited<S, T(==)>(a: Store<S, T>, c: Resource<S, T>) {
    a.cr.Some? && c.uid == a.cr.value.uid && c.status == a.cr.value.status
    && c.finalizer == a.cr.value.finalizer && (a.cr.value.deleting ==> c.deleting)
  }

  predicate Fresh<S, T(==)>(a: Store<S, T>, c: Resource<S, T>, blank: T) {
    (a.cr.None? || !a.cr.value.finalizer) && a.clock < c.uid <= c.version
    && c.status == blank && !c.finalizer
  }
}
