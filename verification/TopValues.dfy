/** A run whose counter and quota both reach the largest `u64`, and the charge they then lose. */
module TopValues {
  import opened Types
  import opened Storage
  import opened Authorization
  import opened Renewal
  import opened Accounting
  import opened Runs
  import opened Admission
  import opened Safety
  import opened Quota

  /** The largest entries, the most entries a block can hold, and the largest cap. */
  ghost predicate Top(cfg: Config) {
    && cfg.retention == 2 && cfg.maxBlockTxs == cfg.maxSize == U32_MAX && cfg.cap == U64_MAX
    && cfg.sizeOf(CONTENT) == U32_MAX
  }

  const OWNER: AccountId := 1
  const CONTENT: ContentHash := 7
  const GRANTS: Grants := map[Account(OWNER) := Grant(0, 9, 0, 0, U64_MAX, 50)]
  const CALL := ForceRenew(Position(1, 0))
  const FORCE := SignedCall(OWNER, CALL)

  function Repeated(n: nat): seq<Step> {
    seq(n, _ => FORCE)
  }

  /** Block 1 stores the content, block 2 renews it as often as a block can hold, block 3 twice more. */
  const STORING: seq<Step> := [OnInitialize] + ([StoreData(CONTENT, NoQuota)] + ([OnFinalize] + [OnInitialize]))
  const STEPS: seq<Step> := STORING + (Repeated(U32_MAX) + (([OnFinalize] + [OnInitialize]) + Repeated(2)))

  /** The owner's grant after `n` charges. */
  ghost predicate Granted(gs: Grants, n: nat) {
    && Preimage(CONTENT) !in gs && Account(OWNER) in gs
    && gs[Account(OWNER)].bytesPermanent == n * U32_MAX
    && gs[Account(OWNER)].bytesAllowance == U64_MAX && gs[Account(OWNER)].expiration == 50
  }

  /** The content can be renewed in block `now`, which holds `k` entries, after `n` exact charges. */
  ghost predicate Ready(cfg: Config, s: State, now: BlockNumber, n: nat, k: nat) {
    && Inv(cfg, s) && Accounted(cfg, s) && Granted(s.grants, n) && s.used == n * U32_MAX
    && s.chain.now == now && s.chain.open && |s.chain.block| == k && s.pending == []
    && Resolve(s.chain, Position(1, 0)).Some?
    && Resolve(s.chain, Position(1, 0)).value.hash == CONTENT
    && Resolve(s.chain, Position(1, 0)).value.size == U32_MAX
  }

  /** The renewal is admitted and charged to the owner. */
  lemma ForceIsAdmitted(cfg: Config, s: State, now: BlockNumber, n: nat, k: nat)
    requires Top(cfg) && Ready(cfg, s, now, n, k) && now < 50 && k < U32_MAX && n * U32_MAX <= U64_MAX
    ensures CheckSigned(cfg, s, OWNER, CALL, true) == Ok((Account(OWNER), Charge(cfg, s, Account(OWNER), U32_MAX)))
  {
  }

  lemma ForceCharges(cfg: Config, s: State, now: BlockNumber, n: nat, k: nat)
    requires Top(cfg) && Ready(cfg, s, now, n, k) && now < 50 && k < U32_MAX && n * U32_MAX <= U64_MAX
    ensures
      var t := Apply(cfg, s, FORCE);
      && t.used == SatAdd(U64_MAX, s.used, U32_MAX) && t.grants == Charge(cfg, s, Account(OWNER), U32_MAX).grants
      && t.chain == PushRenew(cfg, s.chain, Resolve(s.chain, Position(1, 0)).value).value && t.pending == []
  {
    ForceIsAdmitted(cfg, s, now, n, k);
    AdmittedDispatches(cfg, s, OWNER, CALL);
  }

  lemma OneForce(cfg: Config, s: State, now: BlockNumber, n: nat, k: nat)
    requires Top(cfg) && Ready(cfg, s, now, n, k) && now < 50 && k < U32_MAX && (n + 1) * U32_MAX <= U64_MAX
    ensures Ready(cfg, Apply(cfg, s, FORCE), now, n + 1, k + 1)
  {
    ForceIsAdmitted(cfg, s, now, n, k);
    ForceCharges(cfg, s, now, n, k);
    SignedKeeps(cfg, s, OWNER, CALL);
  }

  lemma {:induction false} ManyForces(cfg: Config, s: State, now: BlockNumber, n: nat, k: nat, m: nat)
    requires Top(cfg) && Ready(cfg, s, now, n, k) && now < 50 && k + m <= U32_MAX && (n + m) * U32_MAX <= U64_MAX
    ensures Ready(cfg, Run(cfg, s, Repeated(m)), now, n + m, k + m)
    decreases m
  {
    if m == 0 {
      assert Run(cfg, s, []) == s;
    } else {
      var t, rest := Apply(cfg, s, FORCE), Repeated(m - 1);
      assert Run(cfg, s, Repeated(m)) == Run(cfg, t, rest) by {
        assert Repeated(m) == [FORCE] + rest;
        RunCons(cfg, s, FORCE, rest);
      }
      assert (n + 1) * U32_MAX <= (n + m) * U32_MAX;
      OneForce(cfg, s, now, n, k);
      ManyForces(cfg, t, now, n + 1, k + 1, m - 1);
    }
  }

  lemma NextBlock(cfg: Config, s: State, n: nat, k: nat)
    requires Top(cfg) && Ready(cfg, s, 2, n, k)
    ensures Ready(cfg, Run(cfg, s, [OnFinalize] + [OnInitialize]), 3, n, 0)
  {
    var s1 := Finalize(s);
    RunCons(cfg, s, OnFinalize, [OnInitialize]);
    RunCons(cfg, s1, OnInitialize, []);
    FinalizeKeeps(cfg, s);
    InitializeKeepsInv(cfg, s1);
    InitializeKeepsAccount(cfg, s1);
    InitializeFields(cfg, s1);
    assert SweptEntries(cfg, s1.chain) == [];
  }

  const STORED := Entry(CONTENT, U32_MAX, Store, 16777216)
  const INDEX: map<ContentHash, (BlockNumber, nat)> := map[CONTENT := (1, 0)]

  /** The states of block 1 and the opening of block 2. */
  function At(now: BlockNumber, open: bool, sealed: bool, block: seq<Entry>): State {
    Genesis(GRANTS).(chain := Chain(now, open, if sealed then map[1 := [STORED]] else map[], block,
                                    if sealed || block != [] then INDEX else map[]))
  }

  lemma StoringSteps(cfg: Config)
    requires Top(cfg)
    ensures Apply(cfg, Genesis(GRANTS), OnInitialize) == At(1, true, false, [])
    ensures Apply(cfg, At(1, true, false, []), StoreData(CONTENT, NoQuota)) == At(1, true, false, [STORED])
    ensures Apply(cfg, At(1, true, false, [STORED]), OnFinalize) == At(1, false, true, [])
  {
    assert SweptItems(cfg, Genesis(GRANTS).chain) == [] && Entries([]) == [];
    assert NumChunks(U32_MAX) == 16777216;
  }

  lemma OpensBlockTwo(cfg: Config)
    requires Top(cfg)
    ensures Apply(cfg, At(1, false, true, []), OnInitialize) == At(2, true, true, [])
  {
    assert SweptItems(cfg, At(1, false, true, []).chain) == [] && Entries([]) == [];
  }

  lemma StoringRun(cfg: Config)
    requires Top(cfg)
    ensures Run(cfg, Genesis(GRANTS), STORING) == At(2, true, true, [])
  {
    var store := StoreData(CONTENT, NoQuota);
    StoringSteps(cfg);
    OpensBlockTwo(cfg);
    RunCons(cfg, Genesis(GRANTS), OnInitialize, [store] + ([OnFinalize] + [OnInitialize]));
    RunCons(cfg, At(1, true, false, []), store, [OnFinalize] + [OnInitialize]);
    RunCons(cfg, At(1, true, false, [STORED]), OnFinalize, [OnInitialize]);
    RunCons(cfg, At(1, false, true, []), OnInitialize, []);
  }

  lemma Storing(cfg: Config)
    requires Top(cfg)
    ensures Ready(cfg, Run(cfg, Genesis(GRANTS), STORING), 2, 0, 0)
  {
    StoringRun(cfg);
    EveryRun(cfg, GRANTS, STORING);
    StoredIsFree(cfg, At(2, true, true, []), STORED);
  }

  lemma StoredIsFree(cfg: Config, s: State, e: Entry)
    requires s.chain.transactions == map[1 := [e]] && s.chain.block == [] && e.kind.Store?
    requires s.renewals == map[] && s.pending == []
    ensures Total(cfg, s) == 0
  {
    RenewTotalRemove(s.chain.transactions, 1);
    assert s.chain.transactions - {1} == map[] && [e][..0] == [];
    assert Prepaid(s) == {};
  }

  /** The run brings the counter and the owner's quota to the largest `u64`, each exactly. */
  lemma ReachesTheTop(cfg: Config)
    requires Top(cfg)
    ensures Ready(cfg, Run(cfg, Genesis(GRANTS), STEPS), 3, U32_MAX + 2, 2)
    ensures (U32_MAX + 2) * U32_MAX == U64_MAX
  {
    var a, b, c := STORING, Repeated(U32_MAX), [OnFinalize] + [OnInitialize];
    var s0 := Genesis(GRANTS);
    RunConcat(cfg, s0, a, b + (c + Repeated(2)));
    var s1 := Run(cfg, s0, a);
    RunConcat(cfg, s1, b, c + Repeated(2));
    var s2 := Run(cfg, s1, b);
    RunConcat(cfg, s2, c, Repeated(2));
    var s3 := Run(cfg, s2, c);
    Storing(cfg);
    ManyForces(cfg, s1, 2, 0, 0, U32_MAX);
    NextBlock(cfg, s2, U32_MAX, U32_MAX);
    ManyForces(cfg, s3, 3, U32_MAX, 0, 2);
  }

  /**
   A renewal that is admitted and stored while neither the counter nor the quota moves: the counter is
   no longer exact, and the account has been charged more than it was granted.
   */
  ghost predicate Loses(cfg: Config, s: State, t: State) {
    && Accounted(cfg, s) && s.used == Spent(s.grants, Account(OWNER)) == U64_MAX
    && |t.chain.block| == |s.chain.block| + 1 && t.used == s.used && !Accounted(cfg, t)
    && Spent(t.grants, Account(OWNER)) == U64_MAX
  }

  /** A charge past the top leaves the owner's quota where it is. */
  lemma ChargePastTop(cfg: Config, s: State, n: nat)
    requires Granted(s.grants, n) && s.grants[Account(OWNER)].bytesPermanent == U64_MAX
    ensures Spent(Charge(cfg, s, Account(OWNER), U32_MAX).grants, Account(OWNER)) == U64_MAX
  {
  }

  lemma ForceDrifts(cfg: Config, s: State)
    requires Top(cfg) && Inv(cfg, s) && Accounted(cfg, s) && s.chain.open && !SignedFits(cfg, s, OWNER, CALL)
    ensures !Accounted(cfg, Apply(cfg, s, FORCE))
  {
    SignedKeeps(cfg, s, OWNER, CALL);
  }

  lemma ForceLoses(cfg: Config, s: State, now: BlockNumber, n: nat, k: nat)
    requires Top(cfg) && Ready(cfg, s, now, n, k) && now < 50 && k < U32_MAX && n * U32_MAX == U64_MAX
    ensures Loses(cfg, s, Apply(cfg, s, FORCE))
  {
    assert !SignedFits(cfg, s, OWNER, CALL) by { ForceIsAdmitted(cfg, s, now, n, k); }
    ForceDrifts(cfg, s);
    ForceCharges(cfg, s, now, n, k);
    ChargePastTop(cfg, s, n);
  }

  lemma ForceDebits(cfg: Config, s: State, now: BlockNumber, n: nat, k: nat)
    requires Top(cfg) && Ready(cfg, s, now, n, k) && now < 50 && k < U32_MAX && n * U32_MAX == U64_MAX
    ensures !NeverLoses(cfg, s, [FORCE], Account(OWNER)) && !StepFits(cfg, s, FORCE)
  {
    ForceIsAdmitted(cfg, s, now, n, k);
    var d := Debit(Account(OWNER), CONTENT, Forced);
    assert StepDebits(cfg, s, FORCE) == [d] && [d][..0] == [];
    assert DebitBytes(cfg, [d], Account(OWNER)) == U32_MAX;
  }

  /** At the end of the run the next renewal is lost, and it is the step both exact conditions name. */
  lemma LostCharge(cfg: Config)
    requires Top(cfg)
    ensures
      var s := Run(cfg, Genesis(GRANTS), STEPS);
      && Loses(cfg, s, Apply(cfg, s, FORCE))
      && !StepFits(cfg, s, FORCE) && !NeverLoses(cfg, s, [FORCE], Account(OWNER))
  {
    ReachesTheTop(cfg);
    ForceLoses(cfg, Run(cfg, Genesis(GRANTS), STEPS), 3, U32_MAX + 2, 2);
    ForceDebits(cfg, Run(cfg, Genesis(GRANTS), STEPS), 3, U32_MAX + 2, 2);
  }
}
