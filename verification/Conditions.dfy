/** Status condition lists (internal/controller/status.go) and the library helpers they rest on. */
module Conditions {
  import opened Basics

  datatype Condition = Condition(kind: string, holds: bool, reason: string, observed: nat)

  /** The condition of a given type, if the list has one (meta.FindStatusCondition). */
  function Find(cs: seq<Condition>, kind: string): Option<Condition> {
    if cs == [] then None
    else if cs[0].kind == kind then Some(cs[0])
    else Find(cs[1..], kind)
  }

  predicate IsTrue(cs: seq<Condition>, kind: string) {
    Find(cs, kind).Some? && Find(cs, kind).value.holds
  }

  /** Overwrites the condition of the same type, or appends (meta.SetStatusCondition). */
  function Set(cs: seq<Condition>, c: Condition): seq<Condition> {
    if cs == [] then [c]
    else if cs[0].kind == c.kind then [c] + cs[1..]
    else [cs[0]] + Set(cs[1..], c)
  }

  /** Drops every condition of the given type (meta.RemoveStatusCondition). */
  function Remove(cs: seq<Condition>, kind: string): seq<Condition> {
    if cs == [] then []
    else if cs[0].kind == kind then Remove(cs[1..], kind)
    else [cs[0]] + Remove(cs[1..], kind)
  }

  /** No two entries have the same type: the list is a map keyed by type. */
  ghost predicate Unique(cs: seq<Condition>) {
    forall i, j :: 0 <= i < j < |cs| ==> cs[i].kind != cs[j].kind
  }

  /** After a write the list answers with the new entry, and every other type is untouched. */
  lemma {:induction false} SetFind(cs: seq<Condition>, c: Condition, kind: string)
    ensures Find(Set(cs, c), kind) == if kind == c.kind then Some(c) else Find(cs, kind)
  {
    if cs != [] && cs[0].kind != c.kind {
      SetFind(cs[1..], c, kind);
    }
  }

  lemma {:induction false} SetUnique(cs: seq<Condition>, c: Condition)
    requires Unique(cs)
    ensures Unique(Set(cs, c))
    ensures forall x :: x in Set(cs, c) ==> x == c || x in cs
  {
    if cs != [] && cs[0].kind != c.kind {
      var rest := Set(cs[1..], c);
      SetUnique(cs[1..], c);
      forall i | 0 <= i < |rest| ensures rest[i].kind != cs[0].kind {
        assert rest[i] == c || rest[i] in cs[1..];
      }
    }
  }

  /** The write lands on the first entry of its type, or behind the last entry. */
  lemma {:induction false} SetAt(cs: seq<Condition>, c: Condition, i: nat)
    requires i <= |cs| && forall j :: 0 <= j < i ==> cs[j].kind != c.kind
    requires i < |cs| ==> cs[i].kind == c.kind
    ensures Set(cs, c) == if i < |cs| then cs[i := c] else cs + [c]
  {
    if i > 0 {
      SetAt(cs[1..], c, i - 1);
    }
  }

  /** Writing what is already there changes nothing. */
  lemma {:induction false} SetSame(cs: seq<Condition>, c: Condition)
    requires Find(cs, c.kind) == Some(c)
    ensures Set(cs, c) == cs
  {
    if cs != [] && cs[0].kind != c.kind {
      SetSame(cs[1..], c);
    }
  }

  lemma {:induction false} RemoveFind(cs: seq<Condition>, kind: string, other: string)
    ensures Find(Remove(cs, kind), other) == if other == kind then None else Find(cs, other)
  {
    if cs != [] {
      RemoveFind(cs[1..], kind, other);
    }
  }

  lemma {:induction false} RemoveUnique(cs: seq<Condition>, kind: string)
    requires Unique(cs)
    ensures Unique(Remove(cs, kind))
    ensures forall c :: c in Remove(cs, kind) ==> c in cs
  {
    if cs != [] {
      var rest := Remove(cs[1..], kind);
      RemoveUnique(cs[1..], kind);
      forall i | 0 <= i < |rest| ensures rest[i].kind != cs[0].kind {
        assert rest[i] in cs[1..];
      }
    }
  }

  /** A status object's condition slice, written through a pointer. */
  class ConditionList {
    var items: seq<Condition>

    constructor (start: seq<Condition>)
      ensures items == start
    {
      items := start;
    }

    /** The library walk: find the entry of this type, overwrite it in place, else append. */
    method SetStatusCondition(c: Condition)
      modifies this
      ensures items == Set(old(items), c)
    {
      var i := 0;
      while i < |items| && items[i].kind != c.kind
        invariant 0 <= i <= |items|
        invariant items == old(items)
        invariant forall j :: 0 <= j < i ==> items[j].kind != c.kind
      {
        i := i + 1;
      }
      SetAt(items, c, i);
      if i < |items| {
        items := items[i := c];
      } else {
        items := items + [c];
      }
    }

    /** The library's filter: everything but the entries of this type, in order. */
    method RemoveStatusCondition(kind: string)
      modifies this
      ensures items == Remove(old(items), kind)
    {
      var kept: seq<Condition> := [];
      var i := 0;
      while i < |items|
        invariant 0 <= i <= |items| && items == old(items)
        invariant Remove(items, kind) == kept + Remove(items[i..], kind)
      {
        assert items[i..][1..] == items[i + 1..];
        if items[i].kind != kind {
          kept := kept + [items[i]];
        }
        i := i + 1;
      }
      assert items[i..] == [];
      items := kept;
    }

    /** setSyncedCondition: the Ready condition becomes true. */
    method SetSynced(generation: nat)
      modifies this
      ensures items == Set(old(items), Condition("Ready", true, "Synced", generation))
    {
      SetStatusCondition(Condition("Ready", true, "Synced", generation));
    }

    /** setErrorCondition: the Ready condition becomes false, with the failing step as its reason. */
    method SetError(generation: nat, reason: string)
      modifies this
      ensures items == Set(old(items), Condition("Ready", false, reason, generation))
    {
      SetStatusCondition(Condition("Ready", false, reason, generation));
    }
  }
}
