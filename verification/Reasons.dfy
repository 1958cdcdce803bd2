/** What a failed step tells the reader of the status: for every step of every controller, the reason that
    its error condition carries. */
module Reasons {
  import opened Basics
  import opened Conditions
  import opened Lifecycle
  import UserGroup
  import User
  import OIDCClient
  import GroupRefs
  import Installation

  /** A status that reports failure with this reason. */
  ghost predicate Tells<M>(s: SyncStatus<M>, generation: nat, reason: string) {
    !s.ready && !s.synced && Find(s.conditions, "Ready") == Some(Condition("Ready", false, reason, generation))
  }

  lemma FailTells<M>(s: SyncStatus<M>, generation: nat, reason: string)
    ensures Tells(Failed(s, generation, reason), generation, reason)
  {
    SetFind(s.conditions, Condition("Ready", false, reason, generation), "Ready");
  }

  /** A step whose call fails goes on to report it, and a step that goes on to report a failure tells why. */
  ghost predicate FailsWith<S, M, O, X, Y, K>(t: Tick, n: Machine<S, M, O, X, Y, K>, reason: string) {
    && (!t.outcome.Ok? ==> n.pc.Report? && n.pc.verdict.Failure?)
    && (n.pc.Report? && n.pc.verdict.Failure? ==> Tells(n.pc.s, n.pc.g.generation, reason))
  }

  lemma SharedReason<S, M, O, X, Y, K>(m: Machine<S, M, O, X, Y, K>, t: Tick)
    requires m.pc.Gate? || m.pc.Discard?
    ensures FailsWith(t, SharedStep(m, t), if m.pc.Discard? then m.w.setup.deleteFailed
                                        else if t.outcome.Ok? && t.gate.Refused? then t.gate.reason else "InstanceNotFound")
  {
    var g := m.pc.g;
    FailTells(g.status, g.generation, if m.pc.Discard? then m.w.setup.deleteFailed
                                      else if t.outcome.Ok? && t.gate.Refused? then t.gate.reason else "InstanceNotFound");
  }

  lemma GroupReason(m: UserGroup.GroupMachine, t: Tick)
    requires m.pc.Start? || (m.pc.Work? && !m.pc.k.Refetch?)
    ensures FailsWith(t, UserGroup.Step(m, t),
              if m.pc.Start? then (if m.pc.g.status.id != "" then "GetGroupFailed" else "ListGroupFailed")
              else if m.pc.k.Create? then "CreateGroupFailed" else "UpdateGroupFailed")
  {
    var g := if m.pc.Start? then m.pc.g else m.pc.k.g;
    FailTells(g.status, g.generation, "GetGroupFailed");
    FailTells(g.status, g.generation, "ListGroupFailed");
    FailTells(g.status, g.generation, "CreateGroupFailed");
    FailTells(g.status, g.generation, "UpdateGroupFailed");
  }

  lemma UserReason(m: User.UserMachine, t: Tick)
    requires m.pc.Start? || (m.pc.Work? && (m.pc.k.Create? || m.pc.k.Amend? || m.pc.k.SetGroups?))
    ensures FailsWith(t, User.Step(m, t), if m.pc.Work? && m.pc.k.SetGroups? then "GroupSyncFailed" else "UserSyncFailed")
  {
    if m.pc.Start? || m.pc.k.Create? || m.pc.k.Amend? {
      var g := if m.pc.Start? then m.pc.g else m.pc.k.g;
      FailTells(g.status, g.generation, "UserSyncFailed");
    } else {
      FailTells(m.pc.k.h.mem, m.pc.k.h.g.generation, "GroupSyncFailed");
    }
  }

  // ---------------------------------------------------------------- OIDC clients

  /** The reason of a refused reference. */
  function RefReason(refs: seq<string>, next: nat, groups: map<string, GroupRefs.GroupInfo>, instances: set<GroupRefs.InstanceKey>,
                     inst: GroupRefs.InstanceKey): string
    requires next < |refs|
  {
    if refs[next] !in groups then "UserGroupNotFound"
    else if groups[refs[next]].instance !in instances then "UserGroupInstanceNotFound"
    else if groups[refs[next]].instance != inst then "UserGroupInstanceMismatch"
    else "UserGroupNotReady"
  }

  /** From the list of groups, or the first missing one. */
  lemma ListReason(m: OIDCClient.ClientMachine, t: Tick)
    requires m.pc.Start? && m.pc.g.spec.groupRefs != []
    ensures FailsWith(t, OIDCClient.Step(m, t), if !t.outcome.Ok? then "UserGroupListFailed" else "UserGroupNotFound")
  {
    FailTells(m.pc.g.status, m.pc.g.generation, "UserGroupListFailed");
    FailTells(m.pc.g.status, m.pc.g.generation, "UserGroupNotFound");
  }

  /** A reference that is refused: its instance cannot be read or is not there, is another one, or the
      group has no id yet; or the next reference names no group. */
  lemma AdmitReason(m: OIDCClient.ClientMachine, t: Tick)
    requires m.pc.Work? && m.pc.k.Admit? && |m.pc.k.members| < |m.pc.k.g.spec.groupRefs|
    requires m.pc.k.g.spec.groupRefs[|m.pc.k.members|] in m.pc.k.groups
    ensures var k := m.pc.k;
      var inst := GroupRefs.InstanceKey(k.inst.namespace, k.inst.name);
      var refs, next := k.g.spec.groupRefs, |k.members|;
      FailsWith(t, OIDCClient.Step(m, t),
        if !t.outcome.Ok? then "UserGroupInstanceNotFound"
        else if GroupRefs.Admissible(refs[next], k.groups, m.w.outer.instances, inst) then "UserGroupNotFound"
        else RefReason(refs, next, k.groups, m.w.outer.instances, inst))
  {
    var k := m.pc.k;
    var inst := GroupRefs.InstanceKey(k.inst.namespace, k.inst.name);
    var refs, next := k.g.spec.groupRefs, |k.members|;
    GroupRefs.AdmitExact(k.groups[refs[next]], m.w.outer.instances, inst);
    FailTells(k.g.status, k.g.generation, "UserGroupInstanceNotFound");
    FailTells(k.g.status, k.g.generation, "UserGroupNotFound");
    FailTells(k.g.status, k.g.generation, RefReason(refs, next, k.groups, m.w.outer.instances, inst));
  }

  /** A policy step that refuses at once. */
  lemma PolicyRefuses(h: OIDCClient.Hold)
    ensures OIDCClient.ToPolicy(h).Report? ==>
      OIDCClient.ToPolicy(h).g == h.g && Tells(OIDCClient.ToPolicy(h).s, h.g.generation, "SecurityPolicyFailed")
    ensures OIDCClient.ToSecret(h).Report? ==>
      OIDCClient.ToSecret(h).g == h.g && Tells(OIDCClient.ToSecret(h).s, h.g.generation, "SecurityPolicyFailed")
  {
    FailTells(h.mem, h.g.generation, "SecurityPolicyFailed");
  }

  /** From the lookup of the client: it cannot be had, or the policy step refuses at once. */
  lemma LocateReason(w: OIDCClient.ClientWorld, g: OIDCClient.Client, inst: Instance, members: seq<GroupRefs.Member>, t: Tick)
    ensures FailsWith(t, OIDCClient.LocateStep(w, g, inst, members, t),
                      if OIDCClient.Located(w, g, t).None? then "ClientSyncFailed" else "SecurityPolicyFailed")
  {
    var found := OIDCClient.Located(w, g, t);
    FailTells(g.status, g.generation, "ClientSyncFailed");
    if found.Some? && found.value.Some? { PolicyRefuses(OIDCClient.Hold(g, inst, found.value.value.id, g.status)); }
  }

  lemma ClientReason(w: OIDCClient.ClientWorld, k: OIDCClient.Task, t: Tick)
    requires k.Create? || k.Amend?
    ensures var body := OIDCClient.Target(k.g.spec, k.members);
      var reply := if k.Create? then Make(w, k.g.spec, body, k.g.spec.wantedId, t).1 else Change(w, k.id, k.g.spec, body, t.outcome).1;
      FailsWith(t, OIDCClient.SyncStep(w, k, t), if reply.None? then "ClientSyncFailed" else "SecurityPolicyFailed")
  {
    FailTells(k.g.status, k.g.generation, "ClientSyncFailed");
    if k.Create? {
      var made := Make(w, k.g.spec, OIDCClient.Target(k.g.spec, k.members), k.g.spec.wantedId, t).1;
      if made.Some? { PolicyRefuses(OIDCClient.Hold(k.g, k.inst, made.value.id, k.g.status.(id := made.value.id))); }
    } else {
      PolicyRefuses(OIDCClient.Hold(k.g, k.inst, k.id, k.g.status));
    }
  }

  /** From the credentials on, only the policy step reports failures; the credentials step ends its run
      without a report. */
  lemma LateReason(w: OIDCClient.ClientWorld, k: OIDCClient.Task, t: Tick)
    requires !k.Admit? && !OIDCClient.AboutClient(k)
    ensures var n := OIDCClient.TaskStep(w, k, t);
      && (k.DropPolicy? || k.ReadRoute? || k.ReadPolicy? || k.PutPolicy? ==> FailsWith(t, n, "SecurityPolicyFailed"))
      && (n.pc.Report? && n.pc.verdict.Failure? ==> Tells(n.pc.s, n.pc.g.generation, "SecurityPolicyFailed"))
      && (OIDCClient.AboutSecret(k) || k.Refetch? ==> (!t.outcome.Ok? ==> n.pc.Idle? && n.last.Failure?))
  {
    FailTells(k.h.mem, k.h.g.generation, "SecurityPolicyFailed");
    PolicyRefuses(k.h);
    if k.WriteSecret? { PolicyRefuses(k.h.(mem := k.h.mem.(more := k.h.mem.more.(secretName := OIDCClient.SecretOf(k.h.g.spec))))); }
  }

  // ---------------------------------------------------------------- instances

  lemma InstallationReason(m: Installation.Machine, t: Installation.Tick)
    requires Installation.AboutKeys(m.pc) || m.pc.Deploy? || Installation.AboutUsers(m.pc)
    ensures var n := Installation.Step(m, t);
      var reason := if Installation.AboutKeys(m.pc) then "SecretsReconcileFailed"
                    else if Installation.AboutUsers(m.pc) then "InitializationFailed"
                    else match m.pc.stage
                         case ConfigMap => "ConfigMapReconcileFailed"
                         case Service => "ServiceReconcileFailed"
                         case StatefulSet => "StatefulSetReconcileFailed";
      && (!t.outcome.Ok? ==> n.pc.Report?)
      && (n.pc.Report? ==>
            && n.pc.verdict.Failure? && !n.pc.s.ready
            && Find(n.pc.s.conditions, "Degraded") == Some(Condition("Degraded", true, reason, n.pc.g.generation)))
  {
    var reason := if Installation.AboutKeys(m.pc) then "SecretsReconcileFailed"
                  else if Installation.AboutUsers(m.pc) then "InitializationFailed"
                  else match m.pc.stage
                       case ConfigMap => "ConfigMapReconcileFailed"
                       case Service => "ServiceReconcileFailed"
                       case StatefulSet => "StatefulSetReconcileFailed";
    SetFind(m.pc.s.conditions, Condition("Degraded", true, reason, m.pc.g.generation), "Degraded");
  }
}
