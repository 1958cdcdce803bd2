/** How the states that OIDC clients do not recover from come about: runs from a fresh start, each with a
    single mishap. */
module OIDCMishaps {
  import opened Basics
  import opened Kube
  import opened Lifecycle
  import opened Invariants
  import opened SecurityPolicy
  import opened OIDCClient
  import opened OIDCCredentials
  import opened OIDCRecovery
  import opened OIDCLeftovers
  import opened OIDCEnvoy

  const INST := Instance("pocket-id", "ns", "https://id.example.com")
  const GOOD := Tick(Ok, "minted", 0, Granted(INST), [])

  /** An empty server and a name nobody has used. */
  function Empty(): ClientWorld {
    var clean := Own(map[], map[], None);
    World(Setup("app", More("", ""), clean, true, false, false, "DeleteOIDCClientFailed"), Store(None, 0), map[],
          clean, Outer(map[], {Key(INST)}, map[]), [], {})
  }

  /** A client behind an Envoy gateway. */
  function Gated(): Client {
    Plain(1).(spec := Plain(1).spec.(envoy := Some(Envoy(true, Some(RouteRef("app", "ns")), "", ""))))
  }

  /** One more event. */
  lemma Then(m: ClientMachine, es: seq<ClientEvent>, ev: ClientEvent)
    ensures Run(m, es + [ev]) == Apply(Run(m, es), ev)
  {
    RunAppend(m, es, [ev]);
    assert [ev][0] == ev && [ev][1..] == [];
  }

  /** The world of a client just created in the cluster. */
  function Born(): ClientWorld {
    After(Empty(), Stored(Empty(), Gated()).e)
  }

  lemma ToGate() returns (es: seq<ClientEvent>)
    ensures Faultless(es) && Run(Machine(Empty(), Idle, Failure), es) == Machine(Born(), Gate(Gated()), Failure)
  {
    var m0 := Machine(Empty(), Idle, Failure);
    var born := Stored(m0.w, Gated());
    assert Rely(m0.w, born.e);
    Then(m0, [], born);
    es := [born];
    assert Run(m0, es) == Machine(Born(), Idle, Failure);
    Then(m0, es, Wake);
    es := es + [Wake];
    assert Run(m0, es) == Machine(Born(), Read, Failure);
    Then(m0, es, Call(GOOD));
    es := es + [Call(GOOD)];
  }

  /** Read, gate and finalizer. */
  lemma ToStart() returns (es: seq<ClientEvent>)
    ensures Faultless(es)
    ensures Run(Machine(Empty(), Idle, Failure), es) == Machine(Guarded(Born()), Start(Guarded(Born()).store.cr.value, INST), Failure)
  {
    var m0 := Machine(Empty(), Idle, Failure);
    es := ToGate();
    Then(m0, es, Call(GOOD));
    es := es + [Call(GOOD)];
    assert Run(m0, es) == Machine(Born(), Finalize(Gated(), INST), Failure);
    Then(m0, es, Call(GOOD));
    es := es + [Call(GOOD)];
  }

  function Fresh(): Client {
    Guarded(Born()).store.cr.value
  }

  /** Created in the cluster, and in its first run as far as the create at the server. */
  lemma ToCreate() returns (es: seq<ClientEvent>)
    ensures Faultless(es)
    ensures Run(Machine(Empty(), Idle, Failure), es) == Machine(Guarded(Born()), Work(Create(Fresh(), INST, [])), Failure)
    ensures MachineInv(Machine(Guarded(Born()), Work(Create(Fresh(), INST, [])), Failure))
  {
    var m0 := Machine(Empty(), Idle, Failure);
    es := ToStart();
    assert Enumerates(GOOD.order, Guarded(Born()).live);
    Then(m0, es, Call(GOOD));
    es := es + [Call(GOOD)];
    RunKeeps(m0, es);
  }

  /** One crash after the create: blocked by its id. */
  lemma IdBlockRun() returns (es: seq<ClientEvent>)
    ensures Initial(Empty()) && Faultless(es)
    ensures BlockedAt(Run(Machine(Empty(), Idle, Failure), es + [Crash]), true)
  {
    var m0 := Machine(Empty(), Idle, Failure);
    es := ToCreate();
    CrashBlocks(Run(m0, es), GOOD);
    Then(m0, es, Call(GOOD));
    es := es + [Call(GOOD)];
    Then(m0, es, Crash);
  }

  /** n calls that succeed. */
  function Goods(n: nat): seq<ClientEvent> {
    if n == 0 then [] else Goods(n - 1) + [Call(GOOD)]
  }

  lemma {:induction false} GoodsRun(m: ClientMachine, n: nat)
    ensures Faultless(Goods(n))
    ensures Run(m, Goods(n)) == if n == 0 then m else Step(Run(m, Goods(n - 1)), GOOD)
  {
    if n > 0 {
      GoodsRun(m, n - 1);
      Then(m, Goods(n - 1), Call(GOOD));
    }
  }

  /** The machine of ToCreate, one call later. */
  lemma ClientMade(m: ClientMachine)
    requires m == Machine(Guarded(Born()), Work(Create(Fresh(), INST, [])), Failure)
    ensures var n := Step(m, GOOD);
      && n.pc == Work(ReadSecret(Hold(Fresh(), INST, "minted", Fresh().status.(id := "minted"))))
      && n.last.Failure? && "minted" in n.w.live && n.w.own.secrets == map[] && n.w.store == m.w.store
  {
  }

  /** And three calls later: a secret has been generated. */
  lemma ThreeCalls(m: ClientMachine)
    requires m == Machine(Guarded(Born()), Work(Create(Fresh(), INST, [])), Failure)
    ensures var n := Run(m, Goods(3));
      && n.pc.Work? && n.pc.k.WriteSecret? && n.pc.k.h.g == Fresh() && !n.pc.k.present
      && n.w.own.secrets == map[] && n.w.store == m.w.store
  {
    GoodsRun(m, 1);
    GoodsRun(m, 2);
    GoodsRun(m, 3);
    ClientMade(m);
    SecretMade(Step(m, GOOD));
  }

  lemma SecretMade(m: ClientMachine)
    requires m.pc == Work(ReadSecret(Hold(Fresh(), INST, "minted", Fresh().status.(id := "minted"))))
    requires "minted" in m.w.live && m.w.own.secrets == map[] && m.last.Failure?
    ensures var n := Step(Step(m, GOOD), GOOD);
      && n.pc.Work? && n.pc.k.WriteSecret? && n.pc.k.h.g == Fresh() && !n.pc.k.present
      && n.w.own.secrets == map[] && n.w.store == m.w.store
  {
    assert Step(m, GOOD) == Machine(m.w, Work(Generate(m.pc.k.h, false)), Failure);
  }

  lemma SecretBlocks(m: ClientMachine)
    requires m == Machine(Guarded(Born()), Work(Create(Fresh(), INST, [])), Failure) && MachineInv(m)
    ensures BlockedAt(Apply(Step(Run(m, Goods(3)), GOOD), Crash), false)
  {
    ThreeCalls(m);
    RunKeeps(m, Goods(3));
    SecretCrashBlocks(Run(m, Goods(3)), GOOD);
  }

  /** One crash after the write of the Secret: blocked by the Secret. */
  lemma SecretBlockRun() returns (es: seq<ClientEvent>)
    ensures Initial(Empty()) && Faultless(es)
    ensures BlockedAt(Run(Machine(Empty(), Idle, Failure), es + [Crash]), false)
  {
    var m0 := Machine(Empty(), Idle, Failure);
    var first := ToCreate();
    var m := Run(m0, first);
    SecretBlocks(m);
    GoodsRun(m, 4);
    es := first + Goods(4);
    RunAppend(m0, first, Goods(4));
    Then(m0, es, Crash);
  }

  /** Marked for deletion, and woken. */
  lemma Marked(m: ClientMachine, c: Client) returns (es: seq<ClientEvent>)
    requires m.pc.Idle? && m.w.store.cr.Some? && Sound(m.w.store) && m.w.store.cr.value.finalizer && m.w.store.cr.value.name == m.w.setup.key
    requires "" !in m.w.live && c == m.w.store.cr.value.(deleting := true, version := m.w.store.clock + 1)
    ensures Faultless(es)
    ensures Run(m, es) == Machine(m.w.(store := Store(Some(c), m.w.store.clock + 1)), Read, m.last)
  {
    var marked := Stored(m.w, c);
    assert Rely(m.w, marked.e);
    Then(m, [], marked);
    Then(m, [] + [marked], Wake);
    es := [] + [marked] + [Wake];
  }

  /** The deletion of a synced client, up to the delete at the server. */
  lemma Doomed(m: ClientMachine) returns (es: seq<ClientEvent>)
    requires MachineInv(m) && m.pc.Idle? && Settled(m.w, INST)
    ensures Faultless(es)
    ensures var n := Run(m, es);
      n.pc.Discard? && n.pc.g.status.id != "" && n.w.setup == m.w.setup
  {
    var c := m.w.store.cr.value.(deleting := true, version := m.w.store.clock + 1);
    var marked := Marked(m, c);
    var m2 := Run(m, marked);
    GoodsRun(m2, 1);
    GoodsRun(m2, 2);
    assert Step(m2, GOOD) == Machine(m2.w, Gate(c), Failure);
    assert Step(Step(m2, GOOD), GOOD) == Machine(m2.w, Discard(c), Failure);
    es := marked + Goods(2);
    RunAppend(m, marked, Goods(2));
  }

  /** A delete that takes effect but is reported as failed: a deletion that no run can finish. */
  lemma StuckRun() returns (es: seq<ClientEvent>, id: Id)
    ensures Initial(Empty()) && Faultless(es)
    ensures StuckAt(Run(Machine(Empty(), Idle, Failure), es + [Call(GOOD.(outcome := Late))]), id)
  {
    var name, m0 := "app-credentials", Machine(Empty(), Idle, Failure);
    assert CredentialInv(m0, name, false);
    var lived := Lived(m0, INST, name);
    var doomed := Doomed(Run(m0, lived));
    es := lived + doomed;
    RunAppend(m0, lived, doomed);
    RunKeeps(m0, es);
    id := Run(m0, es).pc.g.status.id;
    DropSticks(Run(m0, es), GOOD.(outcome := Late));
    Then(m0, es, Call(GOOD.(outcome := Late)));
  }
}
