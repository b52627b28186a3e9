/** A small program with two registered agents, reached by a run, for the concrete examples. */
module Setting {
  import opened Types
  import opened AuthoritySpec
  import opened Machine

  const ALICE := Wallet(1)
  const BOB := Wallet(2)

  /** The mint of the examples. */
  const MINT: Bytes32 := 7

  function Beginning(b: WriteBack): World {
    World(None, map[], map[], map[], map[], map[], map[], map[], map[],
          map[Plain(1) := TokenAccount(ALICE, MINT, 100)][Plain(2) := TokenAccount(BOB, MINT, 100)], 0, b)
  }

  function Fresh(agent: Pubkey): Cri {
    Cri(agent, 0, 0, 0, 0, 0, 0, 0, 0, 0)
  }

  function Registered(b: WriteBack): World {
    Beginning(b).(
      config := Some(Config(Wallet(0), MINT, 0, 0, 0, 0, false)),
      identities := map[ALICE := AgentIdentity(ALICE, 0, true)][BOB := AgentIdentity(BOB, 0, true)],
      cris := map[ALICE := Fresh(ALICE)][BOB := Fresh(BOB)])
  }

  function Registrations(): seq<Instr> {
    [DoInitializeConfig(Wallet(0), MINT), DoRegisterAgent(ALICE), DoRegisterAgent(BOB)]
  }

  lemma RunOfTwo(w: World, a: Instr, b: Instr)
    ensures Run(w, [a, b]) == Step(Step(w, a), b)
  {
    hide Step;
    assert [a][..0] == [] && [a, b][..1] == [a];
    assert Run(w, [a]) == Step(w, a);
  }

  lemma RunOfThree(w: World, a: Instr, b: Instr, c: Instr)
    ensures Run(w, [a, b, c]) == Step(Step(Step(w, a), b), c)
  {
    hide Step;
    RunOfTwo(w, a, b);
    assert [a, b, c][..2] == [a, b];
  }

  /** It is the end of a run from a program without any account. */
  lemma Registering(b: WriteBack)
    ensures Init(Beginning(b)) && Run(Beginning(b), Registrations()) == Registered(b)
  {
    RunOfThree(Beginning(b), Registrations()[0], Registrations()[1], Registrations()[2]);
    hide Run;
  }

  // ---- one authority and its child ----

  function Delegations(): seq<Instr> {
    [DoIssue(IssueCall(ALICE, 1, 10, 10, 10, [], 0, None, 0, 0, false, None, None, None, false, false, true)),
     DoIssue(IssueCall(ALICE, 2, 10, 10, 10, [], 1, Some(1), 0, 0, false, None, None, None, false, false, true))]
  }

  function Rooted(b: WriteBack): World {
    var w := Registered(b);
    w.(config := Some(w.config.value.(authorityCounter := 1)),
       authorities := w.authorities[1 := Authority(1, ALICE, 0, 0, 10, 0, 10, 10, [], [], 0, 0, Active, 0)])
  }

  function Delegated(b: WriteBack): World {
    var w := Rooted(b);
    w.(config := Some(w.config.value.(authorityCounter := 2)),
       authorities := w.authorities[2 := Authority(2, ALICE, 1, 1, 10, 0, 10, 10, [], [], 0, 0, Active, 0)])
  }

  lemma Delegating(b: WriteBack)
    ensures Init(Beginning(b)) && Run(Run(Beginning(b), Registrations()), Delegations()) == Delegated(b)
  {
    Registering(b);
    RunOfTwo(Registered(b), Delegations()[0], Delegations()[1]);
    hide Run;
    IssuesRoot(b);
    IssuesChild(b);
  }

  lemma IssuesRoot(b: WriteBack)
    ensures Step(Registered(b), Delegations()[0]) == Rooted(b)
  {
  }

  lemma IssuesChild(b: WriteBack)
    ensures Step(Rooted(b), Delegations()[1]) == Delegated(b)
  {
  }
}
