/** What holds in every state of every run. */
module Safety {
  import opened Types
  import opened Storage
  import opened Authorization
  import opened Renewal
  import opened Accounting
  import opened Runs
  import opened Admission

  // ---------------------------------------------------------------- remaining steps

  lemma StoreKeeps(cfg: Config, s: State, h: ContentHash, payer: Payer)
    requires cfg.Valid() && Inv(cfg, s) && s.chain.open
    ensures
      var t := StoreExtrinsic(cfg, s, h, payer);
      Inv(cfg, t) && t.chain.open && (Accounted(cfg, s) ==> Accounted(cfg, t))
  {
    var t := StoreExtrinsic(cfg, s, h, payer);
    if t != s {
      var e := Entry(h, cfg.sizeOf(h), Store, 0);
      PushKeepsInv(cfg, s, e);
      var s1 := s.(chain := Push(cfg, s.chain, e).value);
      if !payer.NoQuota? { StoreSpendsOneScope(s, h, cfg.sizeOf(h), payer); }
      SameInv(cfg, s1, t);
      assert t.chain.block[..|t.chain.block| - 1] == s.chain.block;
    }
  }

  /** The invariant reads grants only through the account quota, and the counter's equality not at all. */
  lemma NewGrantsKeep(cfg: Config, s: State, gs: Grants)
    requires Inv(cfg, s) && QuotaOk(gs)
    ensures Inv(cfg, s.(grants := gs)) && (Accounted(cfg, s) ==> Accounted(cfg, s.(grants := gs)))
  {
    SameInv(cfg, s, s.(grants := gs));
  }

  lemma GrantsKeep(cfg: Config, s: State, step: Step)
    requires Inv(cfg, s) && s.chain.open && (step.GrantScope? || step.RefreshScope? || step.RemoveExpiredScope?)
    ensures
      var t := Apply(cfg, s, step);
      Inv(cfg, t) && t.chain.open && (Accounted(cfg, s) ==> Accounted(cfg, t))
  {
    assert QuotaOk(Apply(cfg, s, step).grants) by {
      match step
      case GrantScope(scope, txs, bytes, validUntil) =>
        if 0 < bytes <= U64_MAX {
          GrantsKeepQuota(s.grants, scope, txs, bytes, s.chain.now, Clamp(s.chain.now + cfg.authPeriod, validUntil));
        }
      case RefreshScope(scope, validUntil) =>
        GrantsKeepQuota(s.grants, scope, 0, 0, s.chain.now, Clamp(s.chain.now + cfg.authPeriod, validUntil));
      case RemoveExpiredScope(scope) =>
        GrantsKeepQuota(s.grants, scope, 0, 0, s.chain.now, 0);
    }
    NewGrantsKeep(cfg, s, Apply(cfg, s, step).grants);
  }

  lemma OpenBlockChunks(cfg: Config, c: Chain)
    requires ChainOk(cfg, c) && c.open
    ensures c.block == [] <==> TotalChunks(c.block) == 0
  {
    assert EntriesAt(c, c.now) == c.block;
    SealsNonEmptyBlocks(cfg, c.block);
  }

  lemma FinalizeKeepsTotal(cfg: Config, s: State)
    requires WindowOk(cfg, s.chain) && s.chain.open && (s.chain.block == [] <==> TotalChunks(s.chain.block) == 0)
    ensures Total(cfg, Finalize(s)) == Total(cfg, s)
  {
    if s.pending == [] {
      SealKeepsAccount(cfg, s.chain);
      assert Prepaid(Finalize(s)) == Prepaid(s);
    }
  }

  lemma FinalizeKeeps(cfg: Config, s: State)
    requires Inv(cfg, s) && s.chain.open
    ensures Inv(cfg, Finalize(s)) && (Accounted(cfg, s) ==> Accounted(cfg, Finalize(s)))
  {
    OpenBlockChunks(cfg, s.chain);
    FinalizeKeepsTotal(cfg, s);
    if s.pending == [] { SealKeepsChain(cfg, s.chain); }
  }

  // ---------------------------------------------------------------- Root overrides

  /** Root steps that move bytes without paying for them, or drop bytes already paid for. */
  ghost predicate Overrides(cfg: Config, s: State, call: Call) {
    match call
    case ForceRenew(entry) => Resolve(s.chain, entry).Some? && !BlockFull(cfg, s.chain)
    case DisableAutoRenew(h) => h in s.renewals && s.renewals[h].paid && h !in PendingHashes(s.pending)
    case _ => false
  }

  /** An uncharged `force_renew` by Root that goes through. */
  lemma RootForceRenews(cfg: Config, s: State, entry: TransactionRef)
    requires Resolve(s.chain, entry).Some? && DataSizeOk(cfg, Resolve(s.chain, entry).value.size)
    requires !BlockFull(cfg, s.chain)
    ensures
      var info := Resolve(s.chain, entry).value;
      RootExtrinsic(cfg, s, ForceRenew(entry))
        == Emit(s.(chain := PushRenew(cfg, s.chain, info).value), Renewed(|s.chain.block|, info.hash))
  {
  }

  lemma RootForceRenewDrifts(cfg: Config, s: State, entry: TransactionRef)
    requires cfg.Valid() && Inv(cfg, s) && s.chain.open && Overrides(cfg, s, ForceRenew(entry))
    ensures
      var t, size := RootExtrinsic(cfg, s, ForceRenew(entry)), Resolve(s.chain, entry).value.size;
      && Inv(cfg, t) && t.chain.open && t.used == s.used && 0 < size
      && Total(cfg, t) == Total(cfg, s) + size
  {
    ResolveFacts(cfg, s.chain, entry);
    var info := Resolve(s.chain, entry).value;
    PushRenewKeeps(cfg, s, info);
    var s1 := s.(chain := PushRenew(cfg, s.chain, info).value);
    EmitKeeps(cfg, s1, Renewed(|s.chain.block|, info.hash));
    RootForceRenews(cfg, s, entry);
  }

  lemma IndexedSizeIsPositive(cfg: Config, c: Chain, h: ContentHash)
    requires ChainOk(cfg, c) && h in c.index
    ensures 0 < cfg.sizeOf(h)
  {
    var es := EntriesAt(c, c.index[h].0);
    assert ListOk(cfg, es) && es[c.index[h].1].hash == h;
  }

  /** A Root call keeps the counter exact if and only if it is not an override. */
  lemma RootKeepsAccountIff(cfg: Config, s: State, call: Call)
    requires cfg.Valid() && Inv(cfg, s) && s.chain.open && Accounted(cfg, s)
    ensures Accounted(cfg, RootExtrinsic(cfg, s, call)) <==> !Overrides(cfg, s, call)
  {
    if call.ForceRenew? && Overrides(cfg, s, call) {
      RootForceRenewDrifts(cfg, s, call.entry);
    } else if call.DisableAutoRenew? && call.hash in s.renewals {
      UnregisterKeeps(cfg, s, call.hash);
      var s1 := s.(renewals := s.renewals - {call.hash});
      assert Prepaid(RootExtrinsic(cfg, s, call)) == Prepaid(s1);
      if Overrides(cfg, s, call) {
        SizeSumRemove(cfg, Prepaid(s), call.hash);
        IndexedSizeIsPositive(cfg, s.chain, call.hash);
      }
    }
  }

  lemma RootKeepsInv(cfg: Config, s: State, call: Call)
    requires cfg.Valid() && Inv(cfg, s) && s.chain.open
    ensures Inv(cfg, RootExtrinsic(cfg, s, call)) && RootExtrinsic(cfg, s, call).chain.open
  {
    if call.ForceRenew? && Overrides(cfg, s, call) {
      RootForceRenewDrifts(cfg, s, call.entry);
    } else if call.DisableAutoRenew? && call.hash in s.renewals {
      UnregisterKeeps(cfg, s, call.hash);
      var s1 := s.(renewals := s.renewals - {call.hash});
      EmitKeeps(cfg, s1, AutoRenewalDisabled(call.hash, s.renewals[call.hash].account));
    }
  }

  // ---------------------------------------------------------------- steps and runs

  lemma StepKeepsInv(cfg: Config, s: State, step: Step)
    requires cfg.Valid() && Inv(cfg, s)
    ensures Inv(cfg, Apply(cfg, s, step))
  {
    if step.OnInitialize? {
      if !s.chain.open { InitializeKeepsInv(cfg, s); }
    } else if s.chain.open {
      match step
      case OnFinalize => FinalizeKeeps(cfg, s);
      case Inherent => DrainKeepsInv(cfg, s);
      case SignedCall(who, call) => SignedKeeps(cfg, s, who, call);
      case UnsignedRenew(entry) => UnsignedKeeps(cfg, s, entry);
      case RootCall(call) => RootKeepsInv(cfg, s, call);
      case StoreData(h, payer) => StoreKeeps(cfg, s, h, payer);
      case _ => GrantsKeep(cfg, s, step);
    }
  }

  ghost predicate IsOverride(cfg: Config, s: State, step: Step) {
    step.RootCall? && s.chain.open && Overrides(cfg, s, step.call)
  }

  /** Every charge of the step is made in full. */
  ghost predicate StepFits(cfg: Config, s: State, step: Step) {
    s.chain.open ==>
      match step
      case Inherent => DrainFits(cfg, s)
      case SignedCall(who, call) => SignedFits(cfg, s, who, call)
      case UnsignedRenew(entry) => UnsignedFits(cfg, s, entry)
      case _ => true
  }

  /** The counter is exact after the step, and after every item if it is a drain. */
  ghost predicate StepExact(cfg: Config, s: State, step: Step) {
    Accounted(cfg, Apply(cfg, s, step)) && (step.Inherent? && s.chain.open ==> DrainExact(cfg, s))
  }

  /** A step keeps the counter exact if and only if it is no Root override and its charges are made in full. */
  lemma StepKeepsAccountIff(cfg: Config, s: State, step: Step)
    requires cfg.Valid() && Inv(cfg, s) && Accounted(cfg, s)
    ensures StepExact(cfg, s, step) <==> !IsOverride(cfg, s, step) && StepFits(cfg, s, step)
  {
    if step.OnInitialize? {
      if !s.chain.open { InitializeKeepsAccount(cfg, s); }
    } else if s.chain.open {
      match step
      case OnFinalize => FinalizeKeeps(cfg, s);
      case Inherent => DrainKeepsInv(cfg, s); DrainExactIff(cfg, s);
      case SignedCall(who, call) => SignedKeeps(cfg, s, who, call);
      case UnsignedRenew(entry) => UnsignedKeeps(cfg, s, entry);
      case RootCall(call) => RootKeepsAccountIff(cfg, s, call);
      case StoreData(h, payer) => StoreKeeps(cfg, s, h, payer);
      case _ => GrantsKeep(cfg, s, step);
    }
  }

  /** Below the largest `u64`, the cap refuses every charge that would pass it. */
  lemma LowCapStepFits(cfg: Config, s: State, step: Step)
    requires cfg.Valid() && cfg.cap < U64_MAX && s.used <= cfg.cap
    ensures StepFits(cfg, s, step)
  {
    if s.chain.open {
      match step
      case Inherent => LowCapFits(cfg, s);
      case SignedCall(who, call) => ValidationPredictsPreDispatch(cfg, s, who, call);
      case UnsignedRenew(entry) => AdmittedUnsignedDispatches(cfg, s, entry);
      case _ =>
    }
  }

  lemma {:induction false} RunKeepsInv(cfg: Config, s: State, steps: seq<Step>)
    requires cfg.Valid() && Inv(cfg, s)
    ensures Inv(cfg, Run(cfg, s, steps))
    decreases |steps|
  {
    if steps != [] {
      StepKeepsInv(cfg, s, steps[0]);
      RunKeepsInv(cfg, Apply(cfg, s, steps[0]), steps[1..]);
    }
  }

  lemma GenesisOk(cfg: Config, gs: Grants)
    requires Unspent(gs)
    ensures Inv(cfg, Genesis(gs)) && Accounted(cfg, Genesis(gs))
  {
    assert Prepaid(Genesis(gs)) == {};
  }

  /** Every state of every run, Root included, satisfies the invariant; the counter stays within the cap. */
  lemma EveryRun(cfg: Config, gs: Grants, steps: seq<Step>)
    requires cfg.Valid() && Unspent(gs)
    ensures Inv(cfg, Run(cfg, Genesis(gs), steps)) && Run(cfg, Genesis(gs), steps).used <= cfg.cap
  {
    GenesisOk(cfg, gs);
    RunKeepsInv(cfg, Genesis(gs), steps);
  }

  /** No step of the run is a Root override. */
  ghost predicate NoOverrides(cfg: Config, s: State, steps: seq<Step>)
    decreases |steps|
  {
    steps == [] || (!IsOverride(cfg, s, steps[0]) && NoOverrides(cfg, Apply(cfg, s, steps[0]), steps[1..]))
  }

  /** Every charge of the run is made in full. */
  ghost predicate RunFits(cfg: Config, s: State, steps: seq<Step>)
    decreases |steps|
  {
    steps == [] || (StepFits(cfg, s, steps[0]) && RunFits(cfg, Apply(cfg, s, steps[0]), steps[1..]))
  }

  /** The counter is exact in every state of the run, those between the items of a drain included. */
  ghost predicate ExactThroughout(cfg: Config, s: State, steps: seq<Step>)
    decreases |steps|
  {
    && Accounted(cfg, s)
    && (steps != [] ==>
          StepExact(cfg, s, steps[0]) && ExactThroughout(cfg, Apply(cfg, s, steps[0]), steps[1..]))
  }

  lemma {:induction false} RunExactIff(cfg: Config, s: State, steps: seq<Step>)
    requires cfg.Valid() && Inv(cfg, s) && Accounted(cfg, s)
    ensures ExactThroughout(cfg, s, steps) <==> NoOverrides(cfg, s, steps) && RunFits(cfg, s, steps)
    decreases |steps|
  {
    if steps != [] {
      StepKeepsInv(cfg, s, steps[0]);
      StepKeepsAccountIff(cfg, s, steps[0]);
      if StepExact(cfg, s, steps[0]) { RunExactIff(cfg, Apply(cfg, s, steps[0]), steps[1..]); }
    }
  }

  lemma {:induction false} LowCapRunFits(cfg: Config, s: State, steps: seq<Step>)
    requires cfg.Valid() && cfg.cap < U64_MAX && Inv(cfg, s)
    ensures RunFits(cfg, s, steps)
    decreases |steps|
  {
    if steps != [] {
      LowCapStepFits(cfg, s, steps[0]);
      StepKeepsInv(cfg, s, steps[0]);
      LowCapRunFits(cfg, Apply(cfg, s, steps[0]), steps[1..]);
    }
  }

  lemma {:induction false} ExactAtTheEnd(cfg: Config, s: State, steps: seq<Step>)
    requires ExactThroughout(cfg, s, steps)
    ensures Accounted(cfg, Run(cfg, s, steps))
    decreases |steps|
  {
    if steps != [] { ExactAtTheEnd(cfg, Apply(cfg, s, steps[0]), steps[1..]); }
  }

  /**
   From genesis the counter is exact throughout a run if and only if the run has no Root override and
   no admitted charge passes the largest `u64`; the latter needs a cap of that very value.
   */
  lemma EveryRunIsExactIff(cfg: Config, gs: Grants, steps: seq<Step>)
    requires cfg.Valid() && Unspent(gs)
    ensures ExactThroughout(cfg, Genesis(gs), steps)
       <==> NoOverrides(cfg, Genesis(gs), steps) && RunFits(cfg, Genesis(gs), steps)
    ensures cfg.cap < U64_MAX ==> RunFits(cfg, Genesis(gs), steps)
  {
    GenesisOk(cfg, gs);
    RunExactIff(cfg, Genesis(gs), steps);
    if cfg.cap < U64_MAX { LowCapRunFits(cfg, Genesis(gs), steps); }
  }

  /** In every state of a run without Root overrides the counter is exact. */
  lemma EveryRunIsAccounted(cfg: Config, gs: Grants, steps: seq<Step>)
    requires cfg.Valid() && Unspent(gs) && NoOverrides(cfg, Genesis(gs), steps)
    requires cfg.cap < U64_MAX || RunFits(cfg, Genesis(gs), steps)
    ensures Accounted(cfg, Run(cfg, Genesis(gs), steps))
  {
    EveryRunIsExactIff(cfg, gs, steps);
    ExactAtTheEnd(cfg, Genesis(gs), steps);
  }

  // ---------------------------------------------------------------- retention

  /** Time does not go back, and sealed blocks still in their window are kept as they are. */
  ghost predicate Retains(cfg: Config, c: Chain, d: Chain) {
    && c.now <= d.now
    && forall b :: b in c.transactions && d.now <= b + cfg.retention ==>
         b in d.transactions && d.transactions[b] == c.transactions[b]
  }

  lemma RetainsTrans(cfg: Config, c: Chain, d: Chain, e: Chain)
    requires Retains(cfg, c, d) && Retains(cfg, d, e)
    ensures Retains(cfg, c, e)
  {
  }

  lemma HooksRetain(cfg: Config, c: Chain)
    requires WindowOk(cfg, c)
    ensures if c.open then Retains(cfg, c, Seal(c)) else Retains(cfg, c, Sweep(cfg, c))
  {
  }

  /** The sealed blocks and the block number, which no extrinsic touches. */
  ghost predicate SameSealed(s: State, t: State) {
    t.chain.transactions == s.chain.transactions && t.chain.now == s.chain.now
  }

  lemma {:induction false} DrainKeepsSealed(cfg: Config, s: State)
    ensures SameSealed(s, Drain(cfg, s))
    decreases |s.pending|
  {
    if s.pending != [] {
      assert SameSealed(s, DrainOne(cfg, s));
      DrainKeepsSealed(cfg, DrainOne(cfg, s));
    }
  }

  lemma SignedKeepsSealed(cfg: Config, s: State, who: AccountId, call: Call)
    ensures SameSealed(s, Extrinsic(cfg, s, who, call))
  {
    ValidationPredictsPreDispatch(cfg, s, who, call);
  }

  lemma UnsignedKeepsSealed(cfg: Config, s: State, entry: TransactionRef)
    ensures SameSealed(s, UnsignedExtrinsic(cfg, s, entry))
  {
  }

  lemma RootKeepsSealed(cfg: Config, s: State, call: Call)
    ensures SameSealed(s, RootExtrinsic(cfg, s, call))
  {
  }

  lemma StepRetains(cfg: Config, s: State, step: Step)
    requires WindowOk(cfg, s.chain)
    ensures Retains(cfg, s.chain, Apply(cfg, s, step).chain)
  {
    HooksRetain(cfg, s.chain);
    if s.chain.open {
      match step
      case Inherent => DrainKeepsSealed(cfg, s);
      case SignedCall(who, call) => SignedKeepsSealed(cfg, s, who, call);
      case UnsignedRenew(entry) => UnsignedKeepsSealed(cfg, s, entry);
      case RootCall(call) => RootKeepsSealed(cfg, s, call);
      case _ =>
    }
  }

  /** Sealed data stays where it is, unchanged, for the whole retention period, whatever the run does. */
  lemma {:induction false} StoredDataIsRetained(cfg: Config, s: State, steps: seq<Step>)
    requires cfg.Valid() && Inv(cfg, s)
    ensures Retains(cfg, s.chain, Run(cfg, s, steps).chain)
    decreases |steps|
  {
    if steps != [] {
      var s1 := Apply(cfg, s, steps[0]);
      StepKeepsInv(cfg, s, steps[0]);
      StepRetains(cfg, s, steps[0]);
      StoredDataIsRetained(cfg, s1, steps[1..]);
      RetainsTrans(cfg, s.chain, s1.chain, Run(cfg, s, steps).chain);
    }
  }

  /** Whatever a run does, a sealed entry resolves at its position until its block leaves the retention period. */
  lemma StaysResolvable(cfg: Config, s: State, steps: seq<Step>, b: BlockNumber, i: nat)
    requires cfg.Valid() && Inv(cfg, s) && b in s.chain.transactions && i < |s.chain.transactions[b]|
    ensures
      var c := Run(cfg, s, steps).chain;
      if c.now <= b + cfg.retention then Resolve(c, Position(b, i)) == Some(s.chain.transactions[b][i])
      else Resolve(c, Position(b, i)).None?
  {
    StoredDataIsRetained(cfg, s, steps);
    RunKeepsInv(cfg, s, steps);
    PositionResolvesIff(Run(cfg, s, steps).chain, b, i);
  }

  // ---------------------------------------------------------------- block ends

  /** At a block end every registration names content that a reference still resolves. */
  lemma RegisteredIsLive(cfg: Config, s: State, h: ContentHash)
    requires ChainOk(cfg, s.chain) && RegistrationsOk(s) && s.pending == [] && !s.chain.open && h in s.renewals
    ensures h in s.chain.index
    ensures Resolve(s.chain, ByHash(h)).Some? && Resolve(s.chain, ByHash(h)).value.hash == h
    ensures Resolve(s.chain, ByHash(h)).value.size == cfg.sizeOf(h)
  {
    IndexedResolves(s.chain, h);
    ResolveFacts(cfg, s.chain, ByHash(h));
  }

  /** Between blocks every index entry names a sealed entry. */
  lemma IndexedResolves(c: Chain, h: ContentHash)
    requires IndexSound(c) && !c.open && h in c.index
    ensures Resolve(c, ByHash(h)).Some?
  {
  }

  ghost function PaidRegistrations(s: State): set<ContentHash> {
    set h | h in s.renewals && s.renewals[h].paid
  }

  /** The renewed bytes on chain plus the bytes of paid registrations. */
  ghost function TryStateSum(cfg: Config, s: State): nat {
    RenewTotal(s.chain.transactions) + SizeSum(cfg, PaidRegistrations(s))
  }

  /** What `do_try_state` checks: paid targets exist, the counter is the saturated sum, and is capped. */
  ghost predicate TryState(cfg: Config, s: State) {
    && (forall h :: h in PaidRegistrations(s) ==> Resolve(s.chain, ByHash(h)).Some?)
    && s.used == Clip(TryStateSum(cfg, s))
    && s.used <= cfg.cap
  }

  /** Under a cap below the largest `u64` the saturating sums hide nothing. */
  lemma TryStateIsExact(cfg: Config, s: State)
    requires TryState(cfg, s) && cfg.cap < U64_MAX
    ensures s.used == TryStateSum(cfg, s)
  {
  }

  lemma BlockEndPasses(cfg: Config, s: State)
    requires ChainOk(cfg, s.chain) && RegistrationsOk(s) && s.pending == [] && !s.chain.open && s.chain.block == []
    requires Accounted(cfg, s) && s.used <= cfg.cap <= U64_MAX
    ensures TryState(cfg, s)
  {
    assert Prepaid(s) == PaidRegistrations(s);
    forall h | h in PaidRegistrations(s)
      ensures Resolve(s.chain, ByHash(h)).Some?
    {
      RegisteredIsLive(cfg, s, h);
    }
  }

  /** `try_state` passes at the end of every block of a run without Root overrides. */
  lemma TryStateHolds(cfg: Config, gs: Grants, steps: seq<Step>)
    requires cfg.Valid() && Unspent(gs) && NoOverrides(cfg, Genesis(gs), steps)
    requires cfg.cap < U64_MAX || RunFits(cfg, Genesis(gs), steps)
    requires !Run(cfg, Genesis(gs), steps).chain.open
    ensures TryState(cfg, Run(cfg, Genesis(gs), steps))
  {
    EveryRun(cfg, gs, steps);
    EveryRunIsAccounted(cfg, gs, steps);
    BlockEndPasses(cfg, Run(cfg, Genesis(gs), steps));
  }
}
