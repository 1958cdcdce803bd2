/** Which user groups an OIDC client admits, and which clients a changed group concerns
    (resolveAllowedUserGroups and oidcClientsReferencingUserGroup in
    internal/controller/pocketidoidcclient_controller.go). */
module GroupRefs {
  import opened Basics

  datatype InstanceKey = InstanceKey(namespace: string, name: string)

  /** What a client needs to know of a user group resource. */
  datatype GroupInfo = GroupInfo(id: Id, name: string, friendlyName: string, instance: InstanceKey)

  /** A group as an OIDC client payload carries it. */
  datatype Member = Member(id: Id, name: string, friendlyName: string)

  function Ids(members: seq<Member>): seq<Id> {
    seq(|members|, i requires 0 <= i < |members| => members[i].id)
  }

  datatype Resolution<+T> = Allowed(value: T) | Denied(reason: string)

  /** One reference, whose group was found: it must belong to an existing instance, to the client's
      own instance, and have been synced. */
  function Admit(group: GroupInfo, instances: set<InstanceKey>, inst: InstanceKey): Resolution<Member> {
    if group.instance !in instances then Denied("UserGroupInstanceNotFound")
    else if group.instance != inst then Denied("UserGroupInstanceMismatch")
    else if group.id == "" then Denied("UserGroupNotReady")
    else Allowed(Member(group.id, group.name, group.friendlyName))
  }

  function ResolveOne(ref: string, groups: map<string, GroupInfo>, instances: set<InstanceKey>, inst: InstanceKey)
    : Resolution<Member>
  {
    if ref !in groups then Denied("UserGroupNotFound") else Admit(groups[ref], instances, inst)
  }

  /** All references in order, or the first refusal. */
  function Resolve(refs: seq<string>, groups: map<string, GroupInfo>, instances: set<InstanceKey>, inst: InstanceKey)
    : Resolution<seq<Member>>
  {
    if refs == [] then Allowed([]) else
      match ResolveOne(refs[0], groups, instances, inst)
      case Denied(reason) => Denied(reason)
      case Allowed(member) =>
        match Resolve(refs[1..], groups, instances, inst)
        case Denied(reason) => Denied(reason)
        case Allowed(rest) => Allowed([member] + rest)
  }

  /** When one group is admitted, and with what reason it is not. */
  lemma AdmitExact(group: GroupInfo, instances: set<InstanceKey>, inst: InstanceKey)
    ensures var r := Admit(group, instances, inst);
      && (r.Allowed? <==> group.instance in instances && group.instance == inst && group.id != "")
      && (r.Allowed? ==> r.value == Member(group.id, group.name, group.friendlyName))
      && (group.instance !in instances ==> r == Denied("UserGroupInstanceNotFound"))
      && (group.instance in instances && group.instance != inst ==> r == Denied("UserGroupInstanceMismatch"))
      && (group.instance in instances && group.instance == inst && group.id == "" ==> r == Denied("UserGroupNotReady"))
  {
  }

  /** A reference that names a synced group of this very instance. */
  predicate Admissible(ref: string, groups: map<string, GroupInfo>, instances: set<InstanceKey>, inst: InstanceKey) {
    ref in groups && groups[ref].instance == inst && inst in instances && groups[ref].id != ""
  }

  /** Fail closed, exactly: there is a result if and only if every reference names a synced group of this
      instance, and it is then those groups, in order; otherwise the first bad reference decides. */
  lemma {:induction false} ResolveExact(refs: seq<string>, groups: map<string, GroupInfo>, instances: set<InstanceKey>, inst: InstanceKey)
    ensures var r := Resolve(refs, groups, instances, inst);
      && (r.Allowed? <==> forall i :: 0 <= i < |refs| ==> Admissible(refs[i], groups, instances, inst))
      && (r.Allowed? ==>
            && |r.value| == |refs|
            && forall i :: 0 <= i < |refs| ==>
                 && Admissible(refs[i], groups, instances, inst)
                 && r.value[i] == Member(groups[refs[i]].id, groups[refs[i]].name, groups[refs[i]].friendlyName))
      && (r.Denied? ==>
            exists i :: 0 <= i < |refs| && ResolveOne(refs[i], groups, instances, inst) == Denied(r.reason)
                        && !Admissible(refs[i], groups, instances, inst)
                        && forall j :: 0 <= j < i ==> Admissible(refs[j], groups, instances, inst))
  {
    if refs != [] {
      ResolveExact(refs[1..], groups, instances, inst);
      if refs[0] in groups { AdmitExact(groups[refs[0]], instances, inst); }
      var r := Resolve(refs, groups, instances, inst);
      var rest := Resolve(refs[1..], groups, instances, inst);
      assert forall i :: 0 < i < |refs| ==> refs[i] == refs[1..][i - 1];
      if ResolveOne(refs[0], groups, instances, inst).Denied? {
        assert !Admissible(refs[0], groups, instances, inst);
      } else if rest.Denied? {
        var i :| 0 <= i < |refs[1..]| && ResolveOne(refs[1..][i], groups, instances, inst) == Denied(rest.reason)
                 && !Admissible(refs[1..][i], groups, instances, inst)
                 && forall j :: 0 <= j < i ==> Admissible(refs[1..][j], groups, instances, inst);
        assert ResolveOne(refs[i + 1], groups, instances, inst) == Denied(r.reason) && !Admissible(refs[i + 1], groups, instances, inst);
        assert forall j :: 0 <= j < i + 1 ==> Admissible(refs[j], groups, instances, inst);
      }
    }
  }

  /** A group resource as the cluster lists it. */
  datatype GroupItem = GroupItem(name: string, info: GroupInfo)

  /** The groups of a list by name; a later entry of the same name wins. */
  function ByName(items: seq<GroupItem>): map<string, GroupInfo> {
    if items == [] then map[]
    else var last := items[|items| - 1]; ByName(items[..|items| - 1])[last.name := last.info]
  }

  /** Entry `i` is the last one of its name. */
  ghost predicate Stands(items: seq<GroupItem>, i: int, name: string) {
    0 <= i < |items| && items[i].name == name && forall j :: i < j < |items| ==> items[j].name != name
  }

  lemma StandsMore(items: seq<GroupItem>, i: int, name: string)
    requires items != [] && Stands(items[..|items| - 1], i, name) && items[|items| - 1].name != name
    ensures Stands(items, i, name)
  {
    assert forall j :: 0 <= j < |items| - 1 ==> items[j] == items[..|items| - 1][j];
  }

  /** Each name of the list stands for the last group that bears it, and no other name for any. */
  lemma {:induction false} ByNameExact(items: seq<GroupItem>, name: string)
    ensures if name in ByName(items) then exists i :: Stands(items, i, name) && ByName(items)[name] == items[i].info
            else forall i :: 0 <= i < |items| ==> items[i].name != name
  {
    if items != [] {
      var n := |items| - 1;
      var before := items[..n];
      ByNameExact(before, name);
      if items[n].name == name {
        assert Stands(items, n, name);
      } else if name in ByName(before) {
        var i :| Stands(before, i, name) && ByName(before)[name] == before[i].info;
        StandsMore(items, i, name);
      } else {
        assert forall i :: 0 <= i < n ==> items[i] == before[i];
      }
    }
  }

  lemma {:induction false} ResolveSplit(refs: seq<string>, i: nat, groups: map<string, GroupInfo>, instances: set<InstanceKey>, inst: InstanceKey)
    requires i < |refs|
    requires Resolve(refs[..i], groups, instances, inst).Allowed?
    ensures var one := ResolveOne(refs[i], groups, instances, inst);
      && (one.Denied? ==> Resolve(refs, groups, instances, inst) == Denied(one.reason))
      && (one.Allowed? ==>
            Resolve(refs[..i + 1], groups, instances, inst)
            == Allowed(Resolve(refs[..i], groups, instances, inst).value + [one.value]))
  {
    if i > 0 {
      assert refs[..i][1..] == refs[1..][..i - 1];
      assert refs[..i + 1][1..] == refs[1..][..i];
      assert refs[..i][0] == refs[..i + 1][0] == refs[0];
      ResolveSplit(refs[1..], i - 1, groups, instances, inst);
      var one := ResolveOne(refs[i], groups, instances, inst);
      if one.Allowed? {
        var first, rest := ResolveOne(refs[0], groups, instances, inst).value, Resolve(refs[1..][..i - 1], groups, instances, inst).value;
        assert [first] + (rest + [one.value]) == ([first] + rest) + [one.value];
      }
    } else {
      var one := ResolveOne(refs[0], groups, instances, inst);
      assert refs[..1][0] == refs[0] && refs[..1][1..] == [] && refs[..0] == [];
      assert one.Allowed? ==> [one.value] + [] == [] + [one.value];
    }
  }

  /** resolveAllowedUserGroups, over one consistent state of the cluster. */
  method ResolveAllowedUserGroups(refs: seq<string>, items: seq<GroupItem>, instances: set<InstanceKey>, inst: InstanceKey)
    returns (r: Resolution<seq<Member>>)
    ensures r == Resolve(refs, ByName(items), instances, inst)
  {
    if |refs| == 0 { return Allowed([]); }
    var groupsByName: map<string, GroupInfo> := map[];
    for i := 0 to |items|
      invariant groupsByName == ByName(items[..i])
    {
      assert items[..i + 1][..i] == items[..i];
      groupsByName := groupsByName[items[i].name := items[i].info];
    }
    assert items[..|items|] == items;
    var allowed: seq<Member> := [];
    for i := 0 to |refs|
      invariant Resolve(refs[..i], groupsByName, instances, inst) == Allowed(allowed)
    {
      ResolveSplit(refs, i, groupsByName, instances, inst);
      if refs[i] !in groupsByName { return Denied("UserGroupNotFound"); }
      var one := Admit(groupsByName[refs[i]], instances, inst);
      if one.Denied? { return Denied(one.reason); }
      allowed := allowed + [one.value];
    }
    assert refs[..|refs|] == refs;
    return Allowed(allowed);
  }

  // ---------------------------------------------------------------- the watch

  /** An OIDC client resource as the watch sees it. */
  datatype ClientItem = ClientItem(namespace: string, name: string, refs: seq<string>, inst: InstanceKey)

  datatype Request = Request(namespace: string, name: string)

  function Requests(clients: seq<ClientItem>, namespace: string, group: string): seq<Request> {
    if clients == [] then []
    else
      var c := clients[|clients| - 1];
      var before := Requests(clients[..|clients| - 1], namespace, group);
      if c.namespace == namespace && group in c.refs then before + [Request(c.namespace, c.name)] else before
  }

  /** oidcClientsReferencingUserGroup: the clients to reconcile when a group changes. */
  method OidcClientsReferencingUserGroup(clients: seq<ClientItem>, namespace: string, group: string)
    returns (requests: seq<Request>)
    ensures requests == Requests(clients, namespace, group)
  {
    requests := [];
    for i := 0 to |clients|
      invariant requests == Requests(clients[..i], namespace, group)
    {
      assert clients[..i + 1][..i] == clients[..i];
      var c := clients[i];
      if c.namespace == namespace {
        var k := 0;
        while k < |c.refs|
          invariant 0 <= k <= |c.refs| && forall j :: 0 <= j < k ==> c.refs[j] != group
          invariant requests == Requests(clients[..i], namespace, group)
        {
          if c.refs[k] == group { break; }
          k := k + 1;
        }
        if k < |c.refs| {
          requests := requests + [Request(c.namespace, c.name)];
        }
      }
    }
    assert clients[..|clients|] == clients;
  }

  /** Clients are told apart by namespace and name. */
  ghost predicate Distinct(clients: seq<ClientItem>) {
    forall i, j :: 0 <= i < j < |clients| ==> clients[i].namespace != clients[j].namespace || clients[i].name != clients[j].name
  }

  ghost predicate Names(clients: seq<ClientItem>, i: int, namespace: string, group: string, q: Request) {
    0 <= i < |clients| && q == Request(clients[i].namespace, clients[i].name)
    && clients[i].namespace == namespace && group in clients[i].refs
  }

  /** Exactly the clients of the group's namespace that name it. */
  lemma {:induction false} RequestsExact(clients: seq<ClientItem>, namespace: string, group: string)
    ensures forall q :: q in Requests(clients, namespace, group) <==> exists i :: Names(clients, i, namespace, group, q)
  {
    if clients != [] {
      var n := |clients| - 1;
      var before := clients[..n];
      RequestsExact(before, namespace, group);
      forall q ensures q in Requests(clients, namespace, group) <==> exists i :: Names(clients, i, namespace, group, q) {
        if q in Requests(before, namespace, group) {
          var i :| Names(before, i, namespace, group, q);
          assert Names(clients, i, namespace, group, q);
        } else if q in Requests(clients, namespace, group) {
          assert Names(clients, n, namespace, group, q);
        }
        if i :| Names(clients, i, namespace, group, q) {
          if i < n { assert Names(before, i, namespace, group, q); }
        }
      }
    }
  }

  ghost predicate NoRepeat(rs: seq<Request>) {
    forall a, b :: 0 <= a < b < |rs| ==> rs[a] != rs[b]
  }

  /** Each of them once. */
  lemma {:induction false} RequestsOnce(clients: seq<ClientItem>, namespace: string, group: string)
    requires Distinct(clients)
    ensures NoRepeat(Requests(clients, namespace, group))
  {
    if clients != [] {
      var n := |clients| - 1;
      var before := clients[..n];
      var some := Requests(before, namespace, group);
      RequestsOnce(before, namespace, group);
      RequestsExact(before, namespace, group);
      forall a | 0 <= a < |some| ensures some[a] != Request(clients[n].namespace, clients[n].name) {
        assert some[a] in some;
        var i :| Names(before, i, namespace, group, some[a]);
        assert clients[i] == before[i];
      }
    }
  }

  lemma {:induction false} ResolveIgnores(refs: seq<string>, one: map<string, GroupInfo>, two: map<string, GroupInfo>,
                                          group: string, instances: set<InstanceKey>, inst: InstanceKey)
    requires one - {group} == two - {group}
    requires group !in refs
    ensures Resolve(refs, one, instances, inst) == Resolve(refs, two, instances, inst)
  {
    if refs != [] {
      assert refs[0] in one <==> refs[0] in one - {group};
      assert refs[0] in two <==> refs[0] in two - {group};
      assert refs[0] in one ==> one[refs[0]] == (one - {group})[refs[0]];
      assert refs[0] in two ==> two[refs[0]] == (two - {group})[refs[0]];
      ResolveIgnores(refs[1..], one, two, group, instances, inst);
    }
  }

  /** The groups of all namespaces. */
  type Groups = map<string, map<string, GroupInfo>>

  function In(groups: Groups, namespace: string): map<string, GroupInfo> {
    if namespace in groups then groups[namespace] else map[]
  }

  /** Watch completeness: if two states of the cluster differ in one group only, its absence
      included, every client whose resolution differs is asked to reconcile. */
  lemma WatchComplete(clients: seq<ClientItem>, i: nat, one: Groups, two: Groups,
                      namespace: string, group: string, instances: set<InstanceKey>)
    requires i < |clients|
    requires forall ns :: ns != namespace ==> In(one, ns) == In(two, ns)
    requires In(one, namespace) - {group} == In(two, namespace) - {group}
    requires var c := clients[i];
      Resolve(c.refs, In(one, c.namespace), instances, c.inst) != Resolve(c.refs, In(two, c.namespace), instances, c.inst)
    ensures Request(clients[i].namespace, clients[i].name) in Requests(clients, namespace, group)
  {
    var c := clients[i];
    if c.namespace == namespace && group !in c.refs {
      ResolveIgnores(c.refs, In(one, namespace), In(two, namespace), group, instances, c.inst);
    }
    RequestsExact(clients, namespace, group);
    assert Names(clients, i, namespace, group, Request(c.namespace, c.name));
  }
}
