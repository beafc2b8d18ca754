/** What each scope's permanent quota holds: exactly what was charged to it, and within its allowance. */
module Quota {
  import opened Types
  import opened Storage
  import opened Authorization
  import opened Renewal
  import opened Accounting
  import opened Runs
  import opened Admission
  import opened Safety
  import opened LifeCycle
  import opened Ledger

  // ---------------------------------------------------------------- debits

  /** Why a scope was charged: a registration, a cycle of the drain, or `force_renew`. */
  datatype Cause = Registration | Cycle | Forced

  datatype Debit = Debit(scope: Scope, hash: ContentHash, cause: Cause)

  ghost function ItemDebits(cfg: Config, s: State): seq<Debit>
    requires s.pending != []
  {
    var p := s.pending[0];
    if p.data.paid || FateOf(cfg, s).Refused? then [] else [Debit(Account(p.data.account), p.hash, Cycle)]
  }

  ghost function DrainDebits(cfg: Config, s: State): seq<Debit>
    decreases |s.pending|
  {
    if s.pending == [] then [] else ItemDebits(cfg, s) + DrainDebits(cfg, DrainOne(cfg, s))
  }

  ghost function SignedDebits(cfg: Config, s: State, who: AccountId, call: Call): seq<Debit> {
    var v := CheckSigned(cfg, s, who, call, true);
    if v.Err? || Target(s, call).None? then []
    else [Debit(v.value.0, Target(s, call).value.hash, if call.ForceRenew? then Forced else Registration)]
  }

  ghost function UnsignedDebits(cfg: Config, s: State, entry: TransactionRef): seq<Debit> {
    if CheckUnsigned(cfg, s, entry, true).Err? then []
    else
      var h := Resolve(s.chain, entry).value.hash;
      [Debit(Preimage(h), h, Forced)]
  }

  /** The charges of one step, in order. */
  ghost function StepDebits(cfg: Config, s: State, step: Step): seq<Debit> {
    if !s.chain.open then []
    else
      match step
      case Inherent => DrainDebits(cfg, s)
      case SignedCall(who, call) => SignedDebits(cfg, s, who, call)
      case UnsignedRenew(entry) => UnsignedDebits(cfg, s, entry)
      case _ => []
  }

  ghost function RunDebits(cfg: Config, s: State, steps: seq<Step>): seq<Debit>
    decreases |steps|
  {
    if steps == [] then []
    else StepDebits(cfg, s, steps[0]) + RunDebits(cfg, Apply(cfg, s, steps[0]), steps[1..])
  }

  /** The bytes charged to a scope. */
  function DebitBytes(cfg: Config, ds: seq<Debit>, scope: Scope): nat {
    if ds == [] then 0
    else
      var d := ds[|ds| - 1];
      DebitBytes(cfg, ds[..|ds| - 1], scope) + if d.scope == scope then cfg.sizeOf(d.hash) else 0
  }

  lemma {:induction false} DebitBytesConcat(cfg: Config, a: seq<Debit>, b: seq<Debit>, scope: Scope)
    ensures DebitBytes(cfg, a + b, scope) == DebitBytes(cfg, a, scope) + DebitBytes(cfg, b, scope)
  {
    if b == [] {
      assert a + b == a;
    } else {
      var c, r := b[..|b| - 1], a + b;
      DebitBytesConcat(cfg, a, c, scope);
      assert r[..|r| - 1] == a + c && r[|r| - 1] == b[|b| - 1];
    }
  }

  /** How often a content was charged for a cause. */
  function Count(ds: seq<Debit>, h: ContentHash, cause: Cause): nat {
    if ds == [] then 0
    else Count(ds[..|ds| - 1], h, cause) + One(ds[|ds| - 1].hash == h && ds[|ds| - 1].cause == cause)
  }

  lemma {:induction false} CountConcat(a: seq<Debit>, b: seq<Debit>, h: ContentHash, cause: Cause)
    ensures Count(a + b, h, cause) == Count(a, h, cause) + Count(b, h, cause)
  {
    if b == [] {
      assert a + b == a;
    } else {
      var c, r := b[..|b| - 1], a + b;
      CountConcat(a, c, h, cause);
      assert r[..|r| - 1] == a + c && r[|r| - 1] == b[|b| - 1];
    }
  }

  lemma CountOne(d: Debit, h: ContentHash, cause: Cause)
    ensures Count([d], h, cause) == One(d.hash == h && d.cause == cause)
  {
    assert [d][..0] == [];
  }

  // ---------------------------------------------------------------- the books are the debits

  /** The charges a cycle book counts are debits. */
  ghost predicate Books(b: Book, ds: seq<Debit>, h: ContentHash) {
    b.registered == Count(ds, h, Registration) && b.drained == Count(ds, h, Cycle)
  }

  lemma ItemBooks(cfg: Config, s: State, h: ContentHash)
    requires s.pending != []
    ensures Books(ItemBook(cfg, s, h), ItemDebits(cfg, s), h)
  {
    var d := Debit(Account(s.pending[0].data.account), s.pending[0].hash, Cycle);
    CountOne(d, h, Registration);
    CountOne(d, h, Cycle);
  }

  lemma {:induction false} DrainBooks(cfg: Config, s: State, h: ContentHash)
    ensures Books(DrainBook(cfg, s, h), DrainDebits(cfg, s), h)
    decreases |s.pending|
  {
    if s.pending != [] {
      ItemBooks(cfg, s, h);
      DrainBooks(cfg, DrainOne(cfg, s), h);
      CountConcat(ItemDebits(cfg, s), DrainDebits(cfg, DrainOne(cfg, s)), h, Registration);
      CountConcat(ItemDebits(cfg, s), DrainDebits(cfg, DrainOne(cfg, s)), h, Cycle);
    }
  }

  /** The content a registering call names is the content it is charged for. */
  lemma TargetIsRegistered(cfg: Config, s: State, call: Call, h: ContentHash)
    requires ChainOk(cfg, s.chain) && Target(s, call).Some?
    ensures Registers(s, call, h) <==> !call.ForceRenew? && Target(s, call).value.hash == h
  {
    ResolveFacts(cfg, s.chain, if call.EnableAutoRenew? then ByHash(call.hash) else call.entry);
  }

  lemma SignedBooks(cfg: Config, s: State, who: AccountId, call: Call, h: ContentHash)
    requires ChainOk(cfg, s.chain) && s.chain.open
    ensures Books(StepBook(cfg, s, SignedCall(who, call), h), SignedDebits(cfg, s, who, call), h)
  {
    ValidationPredictsPreDispatch(cfg, s, who, call);
    var ds := SignedDebits(cfg, s, who, call);
    if ds != [] {
      TargetIsRegistered(cfg, s, call, h);
      CountOne(ds[0], h, Registration);
      CountOne(ds[0], h, Cycle);
    }
  }

  lemma StepBooks(cfg: Config, s: State, step: Step, h: ContentHash)
    requires ChainOk(cfg, s.chain)
    ensures Books(StepBook(cfg, s, step, h), StepDebits(cfg, s, step), h)
  {
    if s.chain.open {
      match step
      case Inherent => DrainBooks(cfg, s, h);
      case SignedCall(who, call) => SignedBooks(cfg, s, who, call, h);
      case UnsignedRenew(entry) =>
        var ds := UnsignedDebits(cfg, s, entry);
        if ds != [] {
          CountOne(ds[0], h, Registration);
          CountOne(ds[0], h, Cycle);
        }
      case _ =>
    }
  }

  /** On every run the registrations and drain charges in the books of a content are its debits. */
  lemma {:induction false} BooksAreDebits(cfg: Config, s: State, steps: seq<Step>, h: ContentHash)
    requires cfg.Valid() && Inv(cfg, s)
    ensures Books(RunBook(cfg, s, steps, h), RunDebits(cfg, s, steps), h)
    decreases |steps|
  {
    if steps != [] {
      var s1 := Apply(cfg, s, steps[0]);
      StepBooks(cfg, s, steps[0], h);
      StepKeepsInv(cfg, s, steps[0]);
      BooksAreDebits(cfg, s1, steps[1..], h);
      CountConcat(StepDebits(cfg, s, steps[0]), RunDebits(cfg, s1, steps[1..]), h, Registration);
      CountConcat(StepDebits(cfg, s, steps[0]), RunDebits(cfg, s1, steps[1..]), h, Cycle);
    }
  }

  // ---------------------------------------------------------------- the quota is the debits

  function Spent(gs: Grants, scope: Scope): nat {
    if scope in gs then gs[scope].bytesPermanent else 0
  }

  /** A scope's grant is still there or still missing, with the same allowance and expiry. */
  ghost predicate SameTerms(gs: Grants, gt: Grants, scope: Scope) {
    && (scope in gs <==> scope in gt)
    && (scope in gs ==> gt[scope].bytesAllowance == gs[scope].bytesAllowance)
    && (scope in gs ==> gt[scope].transactionsAllowance == gs[scope].transactionsAllowance)
    && (scope in gs ==> gt[scope].expiration == gs[scope].expiration)
  }

  /** Between `gs` and `gt` a scope spent exactly its debits, saturating, on unchanged terms and in bounds. */
  ghost predicate Moved(cfg: Config, gs: Grants, gt: Grants, ds: seq<Debit>, scope: Scope) {
    && Spent(gt, scope) == SatAdd(U64_MAX, Spent(gs, scope), DebitBytes(cfg, ds, scope))
    && SameTerms(gs, gt, scope)
    && (WithinQuota(gs, scope) ==> WithinQuota(gt, scope))
  }

  lemma MovedTrans(cfg: Config, g0: Grants, g1: Grants, g2: Grants, a: seq<Debit>, b: seq<Debit>, scope: Scope)
    requires Moved(cfg, g0, g1, a, scope) && Moved(cfg, g1, g2, b, scope)
    ensures Moved(cfg, g0, g2, a + b, scope)
  {
    DebitBytesConcat(cfg, a, b, scope);
  }

  lemma ChargeMoves(cfg: Config, s: State, d: Debit, scope: Scope)
    requires Refusal(cfg, s, d.scope, cfg.sizeOf(d.hash)).None? && Spent(s.grants, scope) <= U64_MAX
    ensures Moved(cfg, s.grants, Charge(cfg, s, d.scope, cfg.sizeOf(d.hash)).grants, [d], scope)
  {
    assert [d][..0] == [];
  }

  /** The grants after one drained item. */
  lemma ItemGrants(cfg: Config, s: State)
    requires s.pending != []
    ensures
      var p := s.pending[0];
      DrainOne(cfg, s).grants
        == if p.data.paid || FateOf(cfg, s).Refused? then s.grants
           else Charge(cfg, s, Account(p.data.account), p.info.size).grants
  {
  }

  lemma ItemMoves(cfg: Config, s: State, scope: Scope)
    requires s.pending != [] && ItemOk(cfg, s, s.pending[0]) && Spent(s.grants, scope) <= U64_MAX
    ensures Moved(cfg, s.grants, DrainOne(cfg, s).grants, ItemDebits(cfg, s), scope)
  {
    ItemGrants(cfg, s);
    if ItemDebits(cfg, s) != [] { ChargeMoves(cfg, s, ItemDebits(cfg, s)[0], scope); }
  }

  lemma {:induction false} DrainMoves(cfg: Config, s: State, scope: Scope)
    requires cfg.Valid() && Inv(cfg, s) && s.chain.open && Spent(s.grants, scope) <= U64_MAX
    ensures Moved(cfg, s.grants, Drain(cfg, s).grants, DrainDebits(cfg, s), scope)
    decreases |s.pending|
  {
    if s.pending != [] {
      var s1 := DrainOne(cfg, s);
      ItemMoves(cfg, s, scope);
      DrainOneKeepsInv(cfg, s);
      DrainMoves(cfg, s1, scope);
      MovedTrans(cfg, s.grants, s1.grants, Drain(cfg, s).grants, ItemDebits(cfg, s), DrainDebits(cfg, s1), scope);
    }
  }

  /** Dispatching anything but the drain leaves the grants alone. */
  lemma DispatchKeepsGrants(cfg: Config, s: State, caller: Caller, call: Call)
    requires !call.ProcessPending? && Dispatch(cfg, s, caller, call).Ok?
    ensures Dispatch(cfg, s, caller, call).value.grants == s.grants
  {
  }

  lemma SignedMoves(cfg: Config, s: State, who: AccountId, call: Call, scope: Scope)
    requires ChainOk(cfg, s.chain) && Spent(s.grants, scope) <= U64_MAX
    ensures Moved(cfg, s.grants, Extrinsic(cfg, s, who, call).grants, SignedDebits(cfg, s, who, call), scope)
  {
    var v := CheckSigned(cfg, s, who, call, true);
    ValidationPredictsPreDispatch(cfg, s, who, call);
    if v.Ok? {
      AdmittedDispatches(cfg, s, who, call);
      DispatchKeepsGrants(cfg, v.value.1, Signed(who), call);
      if Target(s, call).Some? {
        ResolveFacts(cfg, s.chain, if call.EnableAutoRenew? then ByHash(call.hash) else call.entry);
        ChargeMoves(cfg, s, SignedDebits(cfg, s, who, call)[0], scope);
      }
    }
  }

  lemma UnsignedMoves(cfg: Config, s: State, entry: TransactionRef, scope: Scope)
    requires ChainOk(cfg, s.chain) && Spent(s.grants, scope) <= U64_MAX
    ensures Moved(cfg, s.grants, UnsignedExtrinsic(cfg, s, entry).grants, UnsignedDebits(cfg, s, entry), scope)
  {
    var v := CheckUnsigned(cfg, s, entry, true);
    if v.Ok? {
      AdmittedUnsignedDispatches(cfg, s, entry);
      DispatchKeepsGrants(cfg, v.value, Unsigned, ForceRenew(entry));
      ResolveFacts(cfg, s.chain, entry);
      ChargeMoves(cfg, s, UnsignedDebits(cfg, s, entry)[0], scope);
    }
  }

  lemma RootKeepsGrants(cfg: Config, s: State, call: Call)
    ensures RootExtrinsic(cfg, s, call).grants == s.grants
  {
    if !call.ProcessPending? && Dispatch(cfg, s, Root, call).Ok? { DispatchKeepsGrants(cfg, s, Root, call); }
  }

  lemma StoreMoves(cfg: Config, s: State, h: ContentHash, payer: Payer, scope: Scope)
    requires Spent(s.grants, scope) <= U64_MAX
    ensures Moved(cfg, s.grants, StoreExtrinsic(cfg, s, h, payer).grants, [], scope)
  {
    if StoreGrants(s, h, cfg.sizeOf(h), payer).Some? && !payer.NoQuota? {
      StoreSpendsOneScope(s, h, cfg.sizeOf(h), payer);
    }
  }

  ghost predicate GrantStep(step: Step) {
    step.GrantScope? || step.RefreshScope? || step.RemoveExpiredScope?
  }

  lemma StepMoves(cfg: Config, s: State, step: Step, scope: Scope)
    requires cfg.Valid() && Inv(cfg, s) && Spent(s.grants, scope) <= U64_MAX && !GrantStep(step)
    ensures Moved(cfg, s.grants, Apply(cfg, s, step).grants, StepDebits(cfg, s, step), scope)
  {
    if s.chain.open {
      match step
      case Inherent => DrainMoves(cfg, s, scope);
      case SignedCall(who, call) => SignedMoves(cfg, s, who, call, scope);
      case UnsignedRenew(entry) => UnsignedMoves(cfg, s, entry, scope);
      case RootCall(call) => RootKeepsGrants(cfg, s, call);
      case StoreData(h, payer) => StoreMoves(cfg, s, h, payer, scope);
      case _ =>
    }
  }

  // ---------------------------------------------------------------- no charge after expiry

  /** Every debit is to a scope whose grant is there and expires after `now`. */
  ghost predicate Unlapsed(gs: Grants, now: BlockNumber, ds: seq<Debit>) {
    forall i :: 0 <= i < |ds| ==> ds[i].scope in gs && now < gs[ds[i].scope].expiration
  }

  lemma ItemIsUnlapsed(cfg: Config, s: State)
    requires s.pending != []
    ensures Unlapsed(s.grants, s.chain.now, ItemDebits(cfg, s)) && DrainOne(cfg, s).chain.now == s.chain.now
    ensures forall scope :: SameTerms(s.grants, DrainOne(cfg, s).grants, scope)
  {
    ItemGrants(cfg, s);
  }

  lemma UnlapsedOnSameTerms(gs: Grants, gt: Grants, now: BlockNumber, a: seq<Debit>, b: seq<Debit>)
    requires forall scope :: SameTerms(gs, gt, scope)
    requires Unlapsed(gs, now, a) && Unlapsed(gt, now, b)
    ensures Unlapsed(gs, now, a + b)
  {
    var ds := a + b;
    forall i | 0 <= i < |ds|
      ensures ds[i].scope in gs && now < gs[ds[i].scope].expiration
    {
      assert SameTerms(gs, gt, ds[i].scope);
    }
  }

  lemma {:induction false} DrainIsUnlapsed(cfg: Config, s: State)
    ensures Unlapsed(s.grants, s.chain.now, DrainDebits(cfg, s))
    decreases |s.pending|
  {
    if s.pending != [] {
      var s1 := DrainOne(cfg, s);
      ItemIsUnlapsed(cfg, s);
      DrainIsUnlapsed(cfg, s1);
      UnlapsedOnSameTerms(s.grants, s1.grants, s.chain.now, ItemDebits(cfg, s), DrainDebits(cfg, s1));
    }
  }

  lemma StepIsUnlapsed(cfg: Config, s: State, step: Step)
    requires cfg.Valid() && Inv(cfg, s)
    ensures Unlapsed(s.grants, s.chain.now, StepDebits(cfg, s, step))
  {
    if s.chain.open {
      match step
      case Inherent => DrainIsUnlapsed(cfg, s);
      case SignedCall(who, call) => ValidationPredictsPreDispatch(cfg, s, who, call);
      case UnsignedRenew(entry) => AdmittedUnsignedDispatches(cfg, s, entry);
      case _ =>
    }
  }

  /** No step of the run charges a scope at or after its expiration block. */
  ghost predicate NeverLapsed(cfg: Config, s: State, steps: seq<Step>)
    decreases |steps|
  {
    steps != [] ==>
      && Unlapsed(s.grants, s.chain.now, StepDebits(cfg, s, steps[0]))
      && NeverLapsed(cfg, Apply(cfg, s, steps[0]), steps[1..])
  }

  lemma {:induction false} NoChargeAfterExpiry(cfg: Config, s: State, steps: seq<Step>)
    requires cfg.Valid() && Inv(cfg, s)
    ensures NeverLapsed(cfg, s, steps)
    decreases |steps|
  {
    if steps != [] {
      StepIsUnlapsed(cfg, s, steps[0]);
      StepKeepsInv(cfg, s, steps[0]);
      NoChargeAfterExpiry(cfg, Apply(cfg, s, steps[0]), steps[1..]);
    }
  }

  // ---------------------------------------------------------------- terms of a grant

  /** A grant to the scope that is accepted. */
  ghost predicate Granting(s: State, step: Step, scope: Scope) {
    s.chain.open && step.GrantScope? && step.scope == scope && 0 < step.bytes <= U64_MAX
  }

  /** A grant appears only by granting and disappears only by removal at or after its expiration block. */
  lemma GrantPresence(cfg: Config, s: State, step: Step, scope: Scope)
    requires cfg.Valid() && Inv(cfg, s) && Spent(s.grants, scope) <= U64_MAX
    ensures scope in Apply(cfg, s, step).grants <==>
      || Granting(s, step, scope)
      || (&& scope in s.grants
          && !(s.chain.open && step == RemoveExpiredScope(scope) && s.grants[scope].expiration <= s.chain.now))
  {
    if !GrantStep(step) { StepMoves(cfg, s, step, scope); }
  }

  /** The expiry a grant or refresh sets: one period from now, or when its authorizer expires if that is sooner. */
  ghost predicate SetsExpiry(cfg: Config, now: BlockNumber, validUntil: Option<BlockNumber>, e: BlockNumber) {
    && e <= now + cfg.authPeriod && (validUntil.Some? ==> e <= validUntil.value)
    && (e == now + cfg.authPeriod || (validUntil.Some? && e == validUntil.value))
  }

  /** The step sets the scope's expiry: a refresh, or a grant to a scope that has none or a lapsed one. */
  ghost predicate Renews(s: State, step: Step, scope: Scope) {
    || (s.chain.open && step.RefreshScope? && step.scope == scope)
    || (Granting(s, step, scope) && (scope !in s.grants || s.grants[scope].expiration <= s.chain.now))
  }

  lemma GrantStepExpiry(cfg: Config, s: State, step: Step, scope: Scope)
    requires GrantStep(step) && scope in Apply(cfg, s, step).grants
    ensures
      var e := Apply(cfg, s, step).grants[scope].expiration;
      if Renews(s, step, scope) then SetsExpiry(cfg, s.chain.now, step.validUntil, e)
      else scope in s.grants && e == s.grants[scope].expiration
  {
  }

  /** Nothing else moves an expiry. */
  lemma ExpiryMoves(cfg: Config, s: State, step: Step, scope: Scope)
    requires cfg.Valid() && Inv(cfg, s) && Spent(s.grants, scope) <= U64_MAX && scope in Apply(cfg, s, step).grants
    ensures
      var e := Apply(cfg, s, step).grants[scope].expiration;
      if Renews(s, step, scope) then SetsExpiry(cfg, s.chain.now, step.validUntil, e)
      else scope in s.grants && e == s.grants[scope].expiration
  {
    if GrantStep(step) { GrantStepExpiry(cfg, s, step, scope); } else { StepMoves(cfg, s, step, scope); }
  }

  /**
   The allowance a step leaves: a fresh window has what was granted, an open account window what it had
   plus what was granted, an open preimage window what was granted; nothing but grants touches it.
   */
  ghost predicate LeavesAllowance(s: State, step: Step, scope: Scope, g: Grant) {
    if !Granting(s, step, scope) then
      && scope in s.grants && g.bytesAllowance == s.grants[scope].bytesAllowance
      && g.transactionsAllowance == s.grants[scope].transactionsAllowance
    else if scope.Preimage? || scope !in s.grants || s.grants[scope].expiration <= s.chain.now then
      g.bytesAllowance == step.bytes && g.transactionsAllowance == step.txs
    else
      && g.bytesAllowance == SatAdd(U64_MAX, s.grants[scope].bytesAllowance, step.bytes)
      && g.transactionsAllowance == SatAdd(U32_MAX, s.grants[scope].transactionsAllowance, step.txs)
  }

  lemma GrantStepAllowance(cfg: Config, s: State, step: Step, scope: Scope)
    requires GrantStep(step) && scope in Apply(cfg, s, step).grants
    ensures LeavesAllowance(s, step, scope, Apply(cfg, s, step).grants[scope])
  {
  }

  lemma AllowanceMoves(cfg: Config, s: State, step: Step, scope: Scope)
    requires cfg.Valid() && Inv(cfg, s) && Spent(s.grants, scope) <= U64_MAX && scope in Apply(cfg, s, step).grants
    ensures LeavesAllowance(s, step, scope, Apply(cfg, s, step).grants[scope])
  {
    if GrantStep(step) { GrantStepAllowance(cfg, s, step, scope); } else { StepMoves(cfg, s, step, scope); }
  }

  /** What was used: a fresh window starts from nothing, and no grant, refresh or removal touches an open one. */
  lemma CountersMove(cfg: Config, s: State, step: Step, scope: Scope)
    requires GrantStep(step) && scope in Apply(cfg, s, step).grants
    ensures
      var g := Apply(cfg, s, step).grants[scope];
      if Granting(s, step, scope) && (scope !in s.grants || s.grants[scope].expiration <= s.chain.now) then
        g.transactions == 0 && g.bytes == 0 && g.bytesPermanent == 0
      else
        && scope in s.grants && g.transactions == s.grants[scope].transactions
        && g.bytes == s.grants[scope].bytes && g.bytesPermanent == s.grants[scope].bytesPermanent
  {
  }

  // ---------------------------------------------------------------- one window

  /** The step ends an expired window of the scope: it removes it or grants a fresh one. */
  ghost predicate Restarts(s: State, step: Step, scope: Scope) {
    && s.chain.open && scope in s.grants && !Active(s.grants, scope, s.chain.now)
    && (|| (step.GrantScope? && step.scope == scope && 0 < step.bytes <= U64_MAX)
        || (step.RemoveExpiredScope? && step.scope == scope))
  }

  ghost predicate OneWindow(cfg: Config, s: State, steps: seq<Step>, scope: Scope)
    decreases |steps|
  {
    steps == [] || (!Restarts(s, steps[0], scope) && OneWindow(cfg, Apply(cfg, s, steps[0]), steps[1..], scope))
  }

  /** Granting moves no quota, except that a fresh window starts from zero. */
  lemma GrantStepSpends(cfg: Config, s: State, step: Step, scope: Scope)
    requires GrantStep(step)
    ensures Spent(Apply(cfg, s, step).grants, scope) == if Restarts(s, step, scope) then 0 else Spent(s.grants, scope)
  {
  }

  lemma StepSpends(cfg: Config, s: State, step: Step, scope: Scope)
    requires cfg.Valid() && Inv(cfg, s) && Spent(s.grants, scope) <= U64_MAX && !Restarts(s, step, scope)
    ensures Spent(Apply(cfg, s, step).grants, scope)
         == SatAdd(U64_MAX, Spent(s.grants, scope), DebitBytes(cfg, StepDebits(cfg, s, step), scope))
  {
    if GrantStep(step) { GrantStepSpends(cfg, s, step, scope); } else { StepMoves(cfg, s, step, scope); }
  }

  /**
   Within one window a scope's permanent quota grows by exactly the sizes of the registrations, drain
   cycles and forced renewals charged to it. Slot rejections, disables and Root give nothing back.
   */
  lemma {:induction false} QuotaIsWhatWasCharged(cfg: Config, s: State, steps: seq<Step>, scope: Scope)
    requires cfg.Valid() && Inv(cfg, s) && Spent(s.grants, scope) <= U64_MAX && OneWindow(cfg, s, steps, scope)
    ensures Spent(Run(cfg, s, steps).grants, scope)
         == SatAdd(U64_MAX, Spent(s.grants, scope), DebitBytes(cfg, RunDebits(cfg, s, steps), scope))
    decreases |steps|
  {
    if steps != [] {
      var s1 := Apply(cfg, s, steps[0]);
      StepSpends(cfg, s, steps[0], scope);
      StepKeepsInv(cfg, s, steps[0]);
      QuotaIsWhatWasCharged(cfg, s1, steps[1..], scope);
      DebitBytesConcat(cfg, StepDebits(cfg, s, steps[0]), RunDebits(cfg, s1, steps[1..]), scope);
    }
  }

  /** The bytes granted to a scope over a run. */
  ghost function GrantedBytes(cfg: Config, s: State, steps: seq<Step>, scope: Scope): nat
    decreases |steps|
  {
    if steps == [] then 0
    else
      (if Granting(s, steps[0], scope) then steps[0].bytes else 0)
      + GrantedBytes(cfg, Apply(cfg, s, steps[0]), steps[1..], scope)
  }

  /** Within one window an account's allowance is the saturating sum of all it was granted. */
  lemma {:induction false} AllowanceIsWhatWasGranted(cfg: Config, s: State, steps: seq<Step>, who: AccountId)
    requires cfg.Valid() && Inv(cfg, s) && Account(who) in s.grants && OneWindow(cfg, s, steps, Account(who))
    ensures Account(who) in Run(cfg, s, steps).grants
    ensures Run(cfg, s, steps).grants[Account(who)].bytesAllowance
         == SatAdd(U64_MAX, s.grants[Account(who)].bytesAllowance, GrantedBytes(cfg, s, steps, Account(who)))
    decreases |steps|
  {
    if steps != [] {
      GrantPresence(cfg, s, steps[0], Account(who));
      AllowanceMoves(cfg, s, steps[0], Account(who));
      StepKeepsInv(cfg, s, steps[0]);
      AllowanceIsWhatWasGranted(cfg, Apply(cfg, s, steps[0]), steps[1..], who);
    }
  }

  /** Granting an open window never moves its expiry: without a refresh it stays for the whole window. */
  lemma {:induction false} ExpiryStays(cfg: Config, s: State, steps: seq<Step>, who: AccountId)
    requires cfg.Valid() && Inv(cfg, s) && Account(who) in s.grants && OneWindow(cfg, s, steps, Account(who))
    requires forall i :: 0 <= i < |steps| ==> !(steps[i].RefreshScope? && steps[i].scope == Account(who))
    ensures Account(who) in Run(cfg, s, steps).grants
    ensures Run(cfg, s, steps).grants[Account(who)].expiration == s.grants[Account(who)].expiration
    decreases |steps|
  {
    if steps != [] {
      GrantPresence(cfg, s, steps[0], Account(who));
      ExpiryMoves(cfg, s, steps[0], Account(who));
      StepKeepsInv(cfg, s, steps[0]);
      ExpiryStays(cfg, Apply(cfg, s, steps[0]), steps[1..], who);
    }
  }

  /** No step charges the scope past the largest `u64`. */
  ghost predicate NeverLoses(cfg: Config, s: State, steps: seq<Step>, scope: Scope)
    decreases |steps|
  {
    steps != [] ==>
      && Spent(s.grants, scope) + DebitBytes(cfg, StepDebits(cfg, s, steps[0]), scope) <= U64_MAX
      && NeverLoses(cfg, Apply(cfg, s, steps[0]), steps[1..], scope)
  }

  lemma {:induction false} NeverLosesIff(cfg: Config, s: State, steps: seq<Step>, scope: Scope)
    requires cfg.Valid() && Inv(cfg, s) && Spent(s.grants, scope) <= U64_MAX && OneWindow(cfg, s, steps, scope)
    ensures NeverLoses(cfg, s, steps, scope) <==>
      Spent(s.grants, scope) + DebitBytes(cfg, RunDebits(cfg, s, steps), scope) <= U64_MAX
    decreases |steps|
  {
    if steps != [] {
      var s1 := Apply(cfg, s, steps[0]);
      StepSpends(cfg, s, steps[0], scope);
      StepKeepsInv(cfg, s, steps[0]);
      NeverLosesIff(cfg, s1, steps[1..], scope);
      DebitBytesConcat(cfg, StepDebits(cfg, s, steps[0]), RunDebits(cfg, s1, steps[1..]), scope);
    }
  }

  /**
   Within one window an account is charged at most what it was granted if and only if no single step
   charges it past the largest `u64`. An allowance below that value refuses every such step.
   */
  lemma NoAccountOverspendsIff(cfg: Config, s: State, steps: seq<Step>, who: AccountId)
    requires cfg.Valid() && Inv(cfg, s) && OneWindow(cfg, s, steps, Account(who))
    requires Account(who) in Run(cfg, s, steps).grants
    ensures
      var charged := Spent(s.grants, Account(who)) + DebitBytes(cfg, RunDebits(cfg, s, steps), Account(who));
      var allowance := Run(cfg, s, steps).grants[Account(who)].bytesAllowance;
      charged <= allowance <==> NeverLoses(cfg, s, steps, Account(who))
    ensures Run(cfg, s, steps).grants[Account(who)].bytesAllowance < U64_MAX ==>
      NeverLoses(cfg, s, steps, Account(who))
  {
    RunKeepsInv(cfg, s, steps);
    QuotaIsWhatWasCharged(cfg, s, steps, Account(who));
    NeverLosesIff(cfg, s, steps, Account(who));
  }

  // ---------------------------------------------------------------- the bound

  /** The step replaces an open preimage grant by less than was already spent of it. */
  ghost predicate Shrinks(s: State, step: Step, scope: Scope) {
    && s.chain.open && step.GrantScope? && step.scope == scope && 0 < step.bytes <= U64_MAX
    && scope.Preimage? && Active(s.grants, scope, s.chain.now) && step.bytes < s.grants[scope].bytesPermanent
  }

  lemma GrantStepKeepsQuotaIff(cfg: Config, s: State, step: Step, scope: Scope)
    requires GrantStep(step) && WithinQuota(s.grants, scope)
    ensures WithinQuota(Apply(cfg, s, step).grants, scope) <==> !Shrinks(s, step, scope)
  {
    if step.GrantScope? && 0 < step.bytes <= U64_MAX && step.scope == scope {
      GrantKeepsQuotaIff(s.grants, scope, step.txs, step.bytes, s.chain.now,
                         Clamp(s.chain.now + cfg.authPeriod, step.validUntil));
    }
  }

  lemma StepKeepsQuotaIff(cfg: Config, s: State, step: Step, scope: Scope)
    requires cfg.Valid() && Inv(cfg, s) && WithinQuota(s.grants, scope)
    ensures WithinQuota(Apply(cfg, s, step).grants, scope) <==> !Shrinks(s, step, scope)
  {
    if GrantStep(step) { GrantStepKeepsQuotaIff(cfg, s, step, scope); } else { StepMoves(cfg, s, step, scope); }
  }

  /** The bound holds in every state of the run. */
  ghost predicate AlwaysWithin(cfg: Config, s: State, steps: seq<Step>, scope: Scope)
    decreases |steps|
  {
    && WithinQuota(s.grants, scope)
    && (steps != [] ==> AlwaysWithin(cfg, Apply(cfg, s, steps[0]), steps[1..], scope))
  }

  ghost predicate NeverShrinks(cfg: Config, s: State, steps: seq<Step>, scope: Scope)
    decreases |steps|
  {
    steps == [] || (!Shrinks(s, steps[0], scope) && NeverShrinks(cfg, Apply(cfg, s, steps[0]), steps[1..], scope))
  }

  lemma {:induction false} RunKeepsQuotaIff(cfg: Config, s: State, steps: seq<Step>, scope: Scope)
    requires cfg.Valid() && Inv(cfg, s) && WithinQuota(s.grants, scope)
    ensures AlwaysWithin(cfg, s, steps, scope) <==> NeverShrinks(cfg, s, steps, scope)
    decreases |steps|
  {
    if steps != [] {
      var s1 := Apply(cfg, s, steps[0]);
      StepKeepsQuotaIff(cfg, s, steps[0], scope);
      StepKeepsInv(cfg, s, steps[0]);
      if WithinQuota(s1.grants, scope) { RunKeepsQuotaIff(cfg, s1, steps[1..], scope); }
    }
  }

  lemma {:induction false} AccountsNeverShrink(cfg: Config, s: State, steps: seq<Step>, who: AccountId)
    ensures NeverShrinks(cfg, s, steps, Account(who))
    decreases |steps|
  {
    if steps != [] { AccountsNeverShrink(cfg, Apply(cfg, s, steps[0]), steps[1..], who); }
  }

  /**
   From genesis, the permanent bytes of a scope stay within its allowance throughout a run if and only
   if no re-grant replaces its open preimage grant by less than was spent; for accounts, always.
   */
  lemma EveryRunKeepsQuotaIff(cfg: Config, gs: Grants, steps: seq<Step>, scope: Scope)
    requires cfg.Valid() && Unspent(gs)
    ensures AlwaysWithin(cfg, Genesis(gs), steps, scope) <==> NeverShrinks(cfg, Genesis(gs), steps, scope)
    ensures scope.Account? ==> AlwaysWithin(cfg, Genesis(gs), steps, scope)
  {
    GenesisOk(cfg, gs);
    RunKeepsQuotaIff(cfg, Genesis(gs), steps, scope);
    if scope.Account? { AccountsNeverShrink(cfg, Genesis(gs), steps, scope.who); }
  }
}
