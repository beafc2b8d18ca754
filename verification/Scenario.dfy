/** One concrete run: content is stored, registered, ages out and is renewed. */
module Scenario {
  import opened Types
  import opened Storage
  import opened Authorization
  import opened Renewal
  import opened Runs
  import opened Safety
  import opened Delivery

  /** One block of retention and one entry a block: the tightest chain there is. */
  const CFG := Config(1, 1, 100, 50, 1000, (h: ContentHash) => 8)
  const OWNER: AccountId := 1
  const CONTENT: ContentHash := 7
  const GRANTS: Grants := map[Account(OWNER) := Grant(0, 9, 0, 0, 90, 50)]

  const STEPS: seq<Step> :=
    [OnInitialize] + ([StoreData(CONTENT, NoQuota)] + ([OnFinalize] +
    ([OnInitialize] + ([SignedCall(OWNER, EnableAutoRenew(CONTENT))] + ([OnFinalize] + [])))))

  const STORED: Entry := Entry(CONTENT, 8, Store, 1)
  const INDEX: map<ContentHash, (BlockNumber, nat)> := map[CONTENT := (1, 0)]
  const REGISTERED := RenewalData(OWNER, true, true)

  /** After block 1 the content is sealed. */
  function Sealed(): State {
    Genesis(GRANTS).(chain := Chain(1, false, map[1 := [STORED]], [], INDEX))
  }

  /** After block 2 it is registered, its next cycle prepaid, and due in block 3. */
  function Prepared(): State {
    State(Chain(2, false, map[1 := [STORED]], [], INDEX),
          map[Account(OWNER) := Grant(1, 9, 0, 8, 90, 50)],
          map[CONTENT := REGISTERED], [], 8,
          [UsedUpdated(8), RenewalEnabled(CONTENT, OWNER, true)])
  }

  lemma BlockOne(rest: seq<Step>)
    ensures Run(CFG, Genesis(GRANTS), [OnInitialize] + ([StoreData(CONTENT, NoQuota)] + ([OnFinalize] + rest)))
         == Run(CFG, Sealed(), rest)
  {
    var s0 := Genesis(GRANTS);
    var s1 := s0.(chain := Chain(1, true, map[], [], map[]));
    var s2 := s0.(chain := Chain(1, true, map[], [STORED], INDEX));
    assert Apply(CFG, s0, OnInitialize) == s1 by {
      assert SweptItems(CFG, s0.chain) == [] && Entries([]) == [];
    }
    assert Apply(CFG, s1, StoreData(CONTENT, NoQuota)) == s2 by { assert NumChunks(8) == 1; }
    assert Apply(CFG, s2, OnFinalize) == Sealed();
    RunCons(CFG, s0, OnInitialize, [StoreData(CONTENT, NoQuota)] + ([OnFinalize] + rest));
    RunCons(CFG, s1, StoreData(CONTENT, NoQuota), [OnFinalize] + rest);
    RunCons(CFG, s2, OnFinalize, rest);
  }

  lemma BlockTwo(rest: seq<Step>)
    ensures Run(CFG, Sealed(), [OnInitialize] + ([SignedCall(OWNER, EnableAutoRenew(CONTENT))] + ([OnFinalize] + rest)))
         == Run(CFG, Prepared(), rest)
  {
    var s0, call := Sealed(), EnableAutoRenew(CONTENT);
    var s1 := s0.(chain := s0.chain.(now := 2, open := true));
    var s2 := Prepared().(chain := s1.chain);
    assert Apply(CFG, s0, OnInitialize) == s1 by {
      assert SweptItems(CFG, s0.chain) == [] && Entries([]) == [];
    }
    assert Apply(CFG, s1, SignedCall(OWNER, call)) == s2 by {
      assert Resolve(s1.chain, ByHash(CONTENT)) == Some(STORED);
      assert Threshold(CFG) == 800;
    }
    assert Apply(CFG, s2, OnFinalize) == Prepared();
    RunCons(CFG, s0, OnInitialize, [SignedCall(OWNER, call)] + ([OnFinalize] + rest));
    RunCons(CFG, s1, SignedCall(OWNER, call), [OnFinalize] + rest);
    RunCons(CFG, s2, OnFinalize, rest);
  }

  /** The run reaches a prepaid registration whose copy ages out next, and the next block renews it. */
  lemma PrepaidContentIsRenewed()
    ensures Run(CFG, Genesis(GRANTS), STEPS) == Prepared()
    ensures PointsAt(Prepared().chain.index, CONTENT, Obsolete(CFG, 3))
    ensures
      var s1 := Initialize(CFG, Prepared());
      CycleDelivered(CFG, s1, Drain(CFG, s1), CONTENT, REGISTERED)
  {
    BlockOne([OnInitialize] + ([SignedCall(OWNER, EnableAutoRenew(CONTENT))] + ([OnFinalize] + [])));
    BlockTwo([]);
    EveryRun(CFG, GRANTS, STEPS);
    DrainBeforeStorageHasRoom(CFG, Prepared(), []);
    PrepaidCycleIsDelivered(CFG, Prepared(), [], CONTENT);
  }
}
