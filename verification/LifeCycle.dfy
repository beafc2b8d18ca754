/** How a registration is born, changes and ends. */
module LifeCycle {
  import opened Types
  import opened Storage
  import opened Authorization
  import opened Renewal
  import opened Accounting
  import opened Runs
  import opened Admission
  import opened Safety

  /** The events a step appended. */
  ghost predicate Emitted(s: State, t: State, e: Event) {
    s.events <= t.events && e in t.events[|s.events|..]
  }

  ghost predicate RenewedFor(s: State, t: State, h: ContentHash, who: AccountId) {
    exists i :: Emitted(s, t, DataRenewed(i, h, who))
  }

  lemma EmittedTrans(s: State, t: State, u: State, e: Event)
    requires s.events <= t.events <= u.events
    requires Emitted(s, t, e) || Emitted(t, u, e)
    ensures Emitted(s, u, e)
  {
  }

  lemma RenewedForTrans(s: State, t: State, u: State, h: ContentHash, who: AccountId)
    requires s.events <= t.events <= u.events
    requires RenewedFor(s, t, h, who) || RenewedFor(t, u, h, who)
    ensures RenewedFor(s, u, h, who)
  {
  }

  /** What the drain may do to one registration. */
  ghost predicate DrainRelates(s: State, t: State, h: ContentHash) {
    && s.events <= t.events
    && (h !in s.renewals ==> h !in t.renewals)
    && (h in s.renewals && h in t.renewals ==>
          t.renewals[h] == s.renewals[h] ||
          (s.renewals[h].paid && t.renewals[h] == s.renewals[h].(paid := false)
           && RenewedFor(s, t, h, s.renewals[h].account)))
    && (h in s.renewals && h !in t.renewals ==>
          (!s.renewals[h].recurring && RenewedFor(s, t, h, s.renewals[h].account)) ||
          Emitted(s, t, RenewalFailed(h, s.renewals[h].account)))
  }

  lemma DrainOneEvents(cfg: Config, s: State)
    requires s.pending != []
    ensures
      var p, t := s.pending[0], DrainOne(cfg, s);
      && s.events <= t.events
      && (if FateOf(cfg, s).Fired? then Emitted(s, t, DataRenewed(|s.chain.block|, p.hash, p.data.account))
          else Emitted(s, t, RenewalFailed(p.hash, p.data.account)))
  {
    var t := DrainOne(cfg, s);
    assert t.events[|t.events| - 1] in t.events[|s.events|..];
  }

  lemma DrainOneRelates(cfg: Config, s: State, h: ContentHash)
    requires cfg.Valid() && Inv(cfg, s) && s.pending != []
    ensures DrainRelates(s, DrainOne(cfg, s), h)
  {
    DrainOneFields(cfg, s);
    DrainOneEvents(cfg, s);
    assert ItemOk(cfg, s, s.pending[0]);
  }

  lemma DrainRelatesTrans(s: State, t: State, u: State, h: ContentHash)
    requires DrainRelates(s, t, h) && DrainRelates(t, u, h)
    ensures DrainRelates(s, u, h)
  {
  }

  lemma {:induction false} DrainAllRelates(cfg: Config, s: State, h: ContentHash)
    requires cfg.Valid() && Inv(cfg, s) && s.chain.open
    ensures DrainRelates(s, Drain(cfg, s), h)
    decreases |s.pending|
  {
    if s.pending != [] {
      DrainOneKeepsInv(cfg, s);
      DrainOneRelates(cfg, s, h);
      DrainAllRelates(cfg, DrainOne(cfg, s), h);
      DrainRelatesTrans(s, DrainOne(cfg, s), Drain(cfg, s), h);
    }
  }

  // ---------------------------------------------------------------- theorems

  /** `call` registers content `h` for `who`. */
  ghost predicate Registers(s: State, call: Call, h: ContentHash) {
    match call
    case RenewOnce(entry) => Resolve(s.chain, entry).Some? && Resolve(s.chain, entry).value.hash == h
    case EnableAutoRenew(hash) => hash == h
    case _ => false
  }

  /** The registrations after a signed call. */
  lemma SignedRenewals(cfg: Config, s: State, who: AccountId, call: Call)
    ensures
      var r := Extrinsic(cfg, s, who, call).renewals;
      if CheckSigned(cfg, s, who, call, true).Err? || call.ForceRenew? then r == s.renewals
      else if call.DisableAutoRenew? then r == s.renewals - {call.hash}
      else exists h :: Registers(s, call, h) && h !in s.renewals
             && r == s.renewals[h := RenewalData(who, call.EnableAutoRenew?, true)]
  {
    if CheckSigned(cfg, s, who, call, true).Ok? {
      ValidationPredictsPreDispatch(cfg, s, who, call);
      AdmittedDispatches(cfg, s, who, call);
      if call.RenewOnce? {
        assert Registers(s, call, Resolve(s.chain, call.entry).value.hash);
      } else if call.EnableAutoRenew? {
        assert Registers(s, call, call.hash);
      }
    }
  }

  lemma SignedKeepsQueue(cfg: Config, s: State, who: AccountId, call: Call)
    ensures Extrinsic(cfg, s, who, call).pending == s.pending
  {
    ValidationPredictsPreDispatch(cfg, s, who, call);
  }

  lemma UnsignedRenewals(cfg: Config, s: State, entry: TransactionRef)
    ensures UnsignedExtrinsic(cfg, s, entry).renewals == s.renewals
  {
  }

  /** Steps other than the drain, signed calls and Root calls leave registrations alone. */
  lemma OtherStepsKeepRenewals(cfg: Config, s: State, step: Step)
    requires ChainOk(cfg, s.chain) && QueueOk(cfg, s)
    requires !(step.Inherent? || step.SignedCall? || step.RootCall?)
    ensures Apply(cfg, s, step).renewals == s.renewals
  {
    if step.OnInitialize? && !s.chain.open { InitializeFields(cfg, s); }
    if step.UnsignedRenew? { UnsignedRenewals(cfg, s, step.entry); }
  }

  lemma RootRenewals(cfg: Config, s: State, call: Call)
    ensures RootExtrinsic(cfg, s, call).renewals
         == if call.DisableAutoRenew? then s.renewals - {call.hash} else s.renewals
  {
  }

  /** How a step may treat an existing registration. */
  ghost predicate LifeStep(s: State, t: State, step: Step, h: ContentHash)
    requires h in s.renewals
  {
    var d := s.renewals[h];
    if h in t.renewals then
      || t.renewals[h] == d
      || (step.Inherent? && d.paid && t.renewals[h] == d.(paid := false) && RenewedFor(s, t, h, d.account))
    else
      || (step.Inherent? && !d.recurring && RenewedFor(s, t, h, d.account))
      || (step.Inherent? && Emitted(s, t, RenewalFailed(h, d.account)))
      || (&& Emitted(s, t, AutoRenewalDisabled(h, d.account))
          && (|| (step == SignedCall(d.account, DisableAutoRenew(h)) && d.recurring && !d.paid)
              || step == RootCall(DisableAutoRenew(h))))
  }

  /** A call that removes a registration announces it. */
  lemma DisableIsAnnounced(cfg: Config, s: State, caller: Caller, call: Call, h: ContentHash)
    requires !call.ProcessPending? && Dispatch(cfg, s, caller, call).Ok?
    requires h in s.renewals && h !in Dispatch(cfg, s, caller, call).value.renewals
    ensures Emitted(s, Dispatch(cfg, s, caller, call).value, AutoRenewalDisabled(h, s.renewals[h].account))
  {
    var t := Dispatch(cfg, s, caller, call).value;
    assert t.events[|t.events| - 1] in t.events[|s.events|..];
  }

  lemma SignedDisableIsAnnounced(cfg: Config, s: State, who: AccountId, call: Call, h: ContentHash)
    requires h in s.renewals && h !in Extrinsic(cfg, s, who, call).renewals
    ensures Emitted(s, Extrinsic(cfg, s, who, call), AutoRenewalDisabled(h, s.renewals[h].account))
  {
    SignedRenewals(cfg, s, who, call);
    ValidationPredictsPreDispatch(cfg, s, who, call);
    AdmittedDispatches(cfg, s, who, call);
    DisableIsAnnounced(cfg, s, Signed(who), call, h);
  }

  lemma RootDisableIsAnnounced(cfg: Config, s: State, call: Call, h: ContentHash)
    requires h in s.renewals && h !in RootExtrinsic(cfg, s, call).renewals
    ensures Emitted(s, RootExtrinsic(cfg, s, call), AutoRenewalDisabled(h, s.renewals[h].account))
  {
    RootRenewals(cfg, s, call);
    DisableIsAnnounced(cfg, s, Root, call, h);
  }

  lemma SignedLife(cfg: Config, s: State, who: AccountId, call: Call, h: ContentHash)
    requires RegistrationsOk(s) && h in s.renewals
    ensures LifeStep(s, Extrinsic(cfg, s, who, call), SignedCall(who, call), h)
  {
    SignedRenewals(cfg, s, who, call);
    if h !in Extrinsic(cfg, s, who, call).renewals { SignedDisableIsAnnounced(cfg, s, who, call, h); }
  }

  lemma RootLife(cfg: Config, s: State, call: Call, h: ContentHash)
    requires h in s.renewals
    ensures LifeStep(s, RootExtrinsic(cfg, s, call), RootCall(call), h)
  {
    RootRenewals(cfg, s, call);
    if h !in RootExtrinsic(cfg, s, call).renewals { RootDisableIsAnnounced(cfg, s, call, h); }
  }

  /**
   While a registration exists its account and kind never change and it is never overwritten; its
   prepayment is used up only by a drain that renews it. It ends only by one-shot delivery, by a
   failure, by its owner once no prepayment is outstanding, or by Root, and each is announced.
   */
  lemma RegistrationLife(cfg: Config, s: State, step: Step, h: ContentHash)
    requires cfg.Valid() && Inv(cfg, s) && h in s.renewals
    ensures LifeStep(s, Apply(cfg, s, step), step, h)
  {
    if !(step.Inherent? || step.SignedCall? || step.RootCall?) {
      OtherStepsKeepRenewals(cfg, s, step);
    } else if s.chain.open {
      match step
      case Inherent => DrainAllRelates(cfg, s, h);
      case SignedCall(who, call) => SignedLife(cfg, s, who, call, h);
      case RootCall(call) => RootLife(cfg, s, call, h);
    }
  }

  /** A registration is born only from an admitted signed call for retained content, prepaid by its caller. */
  lemma RegistrationBirth(cfg: Config, s: State, step: Step, h: ContentHash)
    requires cfg.Valid() && Inv(cfg, s) && h !in s.renewals && h in Apply(cfg, s, step).renewals
    ensures
      var t := Apply(cfg, s, step);
      && step.SignedCall? && Registers(s, step.call, h)
      && t.renewals[h] == RenewalData(step.who, step.call.EnableAutoRenew?, true)
      && t.used == SatAdd(U64_MAX, s.used, cfg.sizeOf(h)) && Retained(t.chain, h)
      && Emitted(s, t, RenewalEnabled(h, step.who, step.call.EnableAutoRenew?))
  {
    if !(step.Inherent? || step.SignedCall? || step.RootCall?) {
      OtherStepsKeepRenewals(cfg, s, step);
    } else if s.chain.open {
      match step
      case Inherent => DrainAllRelates(cfg, s, h);
      case SignedCall(who, call) =>
        SignedRenewals(cfg, s, who, call);
        BirthIsCharged(cfg, s, who, call, h);
        BirthIsAnnounced(cfg, s, who, call, h);
      case RootCall(call) => RootRenewals(cfg, s, call);
    }
  }

  lemma BirthIsAnnounced(cfg: Config, s: State, who: AccountId, call: Call, h: ContentHash)
    requires CheckSigned(cfg, s, who, call, true).Ok? && Registers(s, call, h)
    ensures Emitted(s, Extrinsic(cfg, s, who, call), RenewalEnabled(h, who, call.EnableAutoRenew?))
  {
    ValidationPredictsPreDispatch(cfg, s, who, call);
    AdmittedDispatches(cfg, s, who, call);
    var t := Extrinsic(cfg, s, who, call);
    assert t.events[|t.events| - 1] in t.events[|s.events|..];
  }

  lemma BirthIsCharged(cfg: Config, s: State, who: AccountId, call: Call, h: ContentHash)
    requires cfg.Valid() && Inv(cfg, s) && CheckSigned(cfg, s, who, call, true).Ok? && Registers(s, call, h)
    ensures Extrinsic(cfg, s, who, call).used == SatAdd(U64_MAX, s.used, cfg.sizeOf(h))
    ensures Retained(Extrinsic(cfg, s, who, call).chain, h)
  {
    ValidationPredictsPreDispatch(cfg, s, who, call);
    AdmittedDispatches(cfg, s, who, call);
    ResolveFacts(cfg, s.chain, if call.EnableAutoRenew? then ByHash(call.hash) else call.entry);
    ChargeFields(cfg, s, Account(who), Target(s, call).value.size);
  }

  // ---------------------------------------------------------------- whole runs

  lemma StepEventsGrow(cfg: Config, s: State, step: Step)
    requires cfg.Valid() && Inv(cfg, s)
    ensures s.events <= Apply(cfg, s, step).events
  {
    if s.chain.open {
      match step
      case Inherent => DrainAllRelates(cfg, s, 0);
      case SignedCall(who, call) => SignedEventsGrow(cfg, s, who, call);
      case UnsignedRenew(entry) =>
      case RootCall(call) =>
      case _ =>
    }
  }

  lemma SignedEventsGrow(cfg: Config, s: State, who: AccountId, call: Call)
    ensures s.events <= Extrinsic(cfg, s, who, call).events
  {
    ValidationPredictsPreDispatch(cfg, s, who, call);
  }

  lemma {:induction false} RunEventsGrow(cfg: Config, s: State, steps: seq<Step>)
    requires cfg.Valid() && Inv(cfg, s)
    ensures s.events <= Run(cfg, s, steps).events
    decreases |steps|
  {
    if steps != [] {
      StepKeepsInv(cfg, s, steps[0]);
      StepEventsGrow(cfg, s, steps[0]);
      RunEventsGrow(cfg, Apply(cfg, s, steps[0]), steps[1..]);
    }
  }

  /** Between `s` and `t` the end of registration `d` of `h` was announced: delivered, failed or disabled. */
  ghost predicate EndedOpenly(s: State, t: State, h: ContentHash, d: RenewalData) {
    || (!d.recurring && RenewedFor(s, t, h, d.account))
    || Emitted(s, t, RenewalFailed(h, d.account))
    || Emitted(s, t, AutoRenewalDisabled(h, d.account))
  }

  lemma EndedOpenlyTrans(s: State, s1: State, t: State, h: ContentHash, d: RenewalData)
    requires s.events <= s1.events <= t.events
    requires EndedOpenly(s, s1, h, d) || EndedOpenly(s1, t, h, d)
    ensures EndedOpenly(s, t, h, d)
  {
    if RenewedFor(s, s1, h, d.account) || RenewedFor(s1, t, h, d.account) {
      RenewedForTrans(s, s1, t, h, d.account);
    }
    var failed, disabled := RenewalFailed(h, d.account), AutoRenewalDisabled(h, d.account);
    if Emitted(s, s1, failed) || Emitted(s1, t, failed) { EmittedTrans(s, s1, t, failed); }
    if Emitted(s, s1, disabled) || Emitted(s1, t, disabled) { EmittedTrans(s, s1, t, disabled); }
  }

  /** `h` is registered in `s` with the account and kind of `d`. */
  ghost predicate HeldAs(s: State, h: ContentHash, d: RenewalData) {
    h in s.renewals && s.renewals[h].account == d.account && s.renewals[h].recurring == d.recurring
  }

  lemma StepHoldsOrEnds(cfg: Config, s: State, step: Step, h: ContentHash, d: RenewalData)
    requires cfg.Valid() && Inv(cfg, s) && HeldAs(s, h, d)
    ensures HeldAs(Apply(cfg, s, step), h, d) || EndedOpenly(s, Apply(cfg, s, step), h, d)
  {
    RegistrationLife(cfg, s, step, h);
  }

  /**
   Registered data never lapses silently: over any run, a registration is still there with the same
   owner and kind, or the log shows its one-shot delivery, its failure or its removal.
   */
  lemma {:induction false} NeverLapsesSilently(cfg: Config, s: State, steps: seq<Step>, h: ContentHash, d: RenewalData)
    requires cfg.Valid() && Inv(cfg, s) && HeldAs(s, h, d)
    ensures HeldAs(Run(cfg, s, steps), h, d) || EndedOpenly(s, Run(cfg, s, steps), h, d)
    decreases |steps|
  {
    if steps != [] {
      var s1, t := Apply(cfg, s, steps[0]), Run(cfg, s, steps);
      StepKeepsInv(cfg, s, steps[0]);
      StepEventsGrow(cfg, s, steps[0]);
      RunEventsGrow(cfg, s1, steps[1..]);
      StepHoldsOrEnds(cfg, s, steps[0], h, d);
      if HeldAs(s1, h, d) { NeverLapsesSilently(cfg, s1, steps[1..], h, d); }
      if EndedOpenly(s, s1, h, d) || EndedOpenly(s1, t, h, d) { EndedOpenlyTrans(s, s1, t, h, d); }
    }
  }
}
