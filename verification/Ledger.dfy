/** Every charge of a cycle is matched by exactly one delivery, rejection, forfeit or outstanding prepayment. */
module Ledger {
  import opened Types
  import opened Storage
  import opened Authorization
  import opened Renewal
  import opened Accounting
  import opened Runs
  import opened Admission
  import opened Safety
  import opened LifeCycle

  /** Cycle bookkeeping for one content hash. */
  datatype Book = Book(registered: nat, drained: nat, fired: nat, rejected: nat, refused: nat, forfeited: nat) {
    function Plus(b: Book): Book {
      Book(registered + b.registered, drained + b.drained, fired + b.fired,
           rejected + b.rejected, refused + b.refused, forfeited + b.forfeited)
    }
  }

  const BLANK := Book(0, 0, 0, 0, 0, 0)

  /** Charges and outcomes of one drained item. */
  ghost function ItemBook(cfg: Config, s: State, h: ContentHash): Book
    requires s.pending != []
  {
    var p, fate := s.pending[0], FateOf(cfg, s);
    if p.hash != h then BLANK
    else Book(0, One(!p.data.paid && !fate.Refused?), One(fate.Fired?), One(fate.SlotRejected?), One(fate.Refused?), 0)
  }

  ghost function DrainBook(cfg: Config, s: State, h: ContentHash): Book
    decreases |s.pending|
  {
    if s.pending == [] then BLANK
    else ItemBook(cfg, s, h).Plus(DrainBook(cfg, DrainOne(cfg, s), h))
  }

  /**
   Charges and outcomes of one step: `renew` and `enable_auto_renew` charge at registration, the
   drain charges unpaid cycles, and Root forfeits a prepayment it drops before it is queued.
   */
  ghost function StepBook(cfg: Config, s: State, step: Step, h: ContentHash): Book {
    if !s.chain.open then BLANK
    else
      match step
      case Inherent => DrainBook(cfg, s, h)
      case SignedCall(who, call) =>
        Book(One(Registers(s, call, h) && CheckSigned(cfg, s, who, call, true).Ok?), 0, 0, 0, 0, 0)
      case RootCall(DisableAutoRenew(hash)) =>
        Book(0, 0, 0, 0, 0, One(hash == h && Overrides(cfg, s, DisableAutoRenew(h))))
      case _ => BLANK
  }

  ghost function RunBook(cfg: Config, s: State, steps: seq<Step>, h: ContentHash): Book
    decreases |steps|
  {
    if steps == [] then BLANK
    else StepBook(cfg, s, steps[0], h).Plus(RunBook(cfg, Apply(cfg, s, steps[0]), steps[1..], h))
  }

  ghost function Outstanding(s: State, h: ContentHash): nat {
    One(h in Prepaid(s))
  }

  /** Charges in, plus what was outstanding before, equal outcomes plus what is outstanding after. */
  ghost predicate Balances(b: Book, s: State, t: State, h: ContentHash) {
    b.registered + b.drained + Outstanding(s, h)
      == b.fired + b.rejected + b.forfeited + Outstanding(t, h)
  }

  lemma ItemBalances(cfg: Config, s: State, h: ContentHash)
    requires cfg.Valid() && Inv(cfg, s) && s.pending != []
    ensures Balances(ItemBook(cfg, s, h), s, DrainOne(cfg, s), h)
  {
    PrepaidAfterDrainOne(cfg, s);
  }

  lemma {:induction false} DrainBalances(cfg: Config, s: State, h: ContentHash)
    requires cfg.Valid() && Inv(cfg, s) && s.chain.open
    ensures Balances(DrainBook(cfg, s, h), s, Drain(cfg, s), h)
    decreases |s.pending|
  {
    if s.pending != [] {
      DrainOneKeepsInv(cfg, s);
      ItemBalances(cfg, s, h);
      DrainBalances(cfg, DrainOne(cfg, s), h);
    }
  }

  lemma PrepaidReads(s: State, t: State)
    requires t.renewals == s.renewals && t.pending == s.pending
    ensures Prepaid(t) == Prepaid(s)
  {
  }

  lemma RegisteredTarget(cfg: Config, s: State, call: Call, x: ContentHash)
    requires ChainOk(cfg, s.chain) && Target(s, call).Some? && Registers(s, call, x)
    ensures Retained(s.chain, x) && x in s.chain.index
  {
    ResolveFacts(cfg, s.chain, if call.EnableAutoRenew? then ByHash(call.hash) else call.entry);
  }

  lemma RegistrationPrepays(cfg: Config, s: State, t: State, x: ContentHash, d: RenewalData)
    requires QueueOk(cfg, s) && RegistrationsOk(s) && Retained(s.chain, x) && x in s.chain.index
    requires x !in s.renewals && d.paid && t.pending == s.pending && t.renewals == s.renewals[x := d]
    ensures x !in Prepaid(s) && Prepaid(t) == Prepaid(s) + {x}
  {
  }

  /** A signed disable drops no prepayment. */
  lemma DisablePrepays(cfg: Config, s: State, t: State, x: ContentHash)
    requires QueueOk(cfg, s) && RegistrationsOk(s) && x in s.renewals && !s.renewals[x].paid
    requires t.pending == s.pending && t.renewals == s.renewals - {x}
    ensures Prepaid(t) == Prepaid(s)
  {
  }

  /** What a signed call did to queue and registrations; `ok` says it was admitted. */
  ghost predicate SignedEffect(s: State, t: State, who: AccountId, call: Call, ok: bool) {
    && t.pending == s.pending
    && (if !ok || call.ForceRenew? then t.renewals == s.renewals
        else if call.DisableAutoRenew? then
          call.hash in s.renewals && !s.renewals[call.hash].paid && t.renewals == s.renewals - {call.hash}
        else
          && Target(s, call).Some?
          && exists x :: Registers(s, call, x) && x !in s.renewals
               && t.renewals == s.renewals[x := RenewalData(who, call.EnableAutoRenew?, true)])
  }

  lemma SignedHasEffect(cfg: Config, s: State, who: AccountId, call: Call)
    ensures SignedEffect(s, Extrinsic(cfg, s, who, call), who, call, CheckSigned(cfg, s, who, call, true).Ok?)
  {
    SignedKeepsQueue(cfg, s, who, call);
    SignedRenewals(cfg, s, who, call);
    ValidationPredictsPreDispatch(cfg, s, who, call);
  }

  lemma EffectBalances(cfg: Config, s: State, t: State, who: AccountId, call: Call, ok: bool, h: ContentHash)
    requires ChainOk(cfg, s.chain) && QueueOk(cfg, s) && RegistrationsOk(s) && SignedEffect(s, t, who, call, ok)
    ensures Outstanding(t, h) == Outstanding(s, h) + One(ok && Registers(s, call, h))
  {
    if !ok || call.ForceRenew? {
      PrepaidReads(s, t);
    } else if call.DisableAutoRenew? {
      DisablePrepays(cfg, s, t, call.hash);
    } else {
      var d := RenewalData(who, call.EnableAutoRenew?, true);
      var x :| Registers(s, call, x) && x !in s.renewals && t.renewals == s.renewals[x := d];
      RegisteredTarget(cfg, s, call, x);
      RegistrationPrepays(cfg, s, t, x, d);
    }
  }

  lemma SignedBalances(cfg: Config, s: State, who: AccountId, call: Call, h: ContentHash)
    requires ChainOk(cfg, s.chain) && QueueOk(cfg, s) && RegistrationsOk(s) && s.chain.open
    ensures Balances(StepBook(cfg, s, SignedCall(who, call), h), s, Extrinsic(cfg, s, who, call), h)
  {
    SignedHasEffect(cfg, s, who, call);
    EffectBalances(cfg, s, Extrinsic(cfg, s, who, call), who, call, CheckSigned(cfg, s, who, call, true).Ok?, h);
  }

  lemma RootBalances(cfg: Config, s: State, call: Call, h: ContentHash)
    requires QueueOk(cfg, s) && RegistrationsOk(s) && s.chain.open
    ensures Balances(StepBook(cfg, s, RootCall(call), h), s, RootExtrinsic(cfg, s, call), h)
  {
    var t := RootExtrinsic(cfg, s, call);
    if call.DisableAutoRenew? && call.hash in s.renewals {
      UnregisterKeepsQueue(cfg, s, call.hash);
      PrepaidReads(s.(renewals := s.renewals - {call.hash}), t);
    } else {
      PrepaidReads(s, t);
    }
  }

  lemma StepBalances(cfg: Config, s: State, step: Step, h: ContentHash)
    requires cfg.Valid() && Inv(cfg, s)
    ensures Balances(StepBook(cfg, s, step, h), s, Apply(cfg, s, step), h)
  {
    if step.OnInitialize? {
      if !s.chain.open { InitializeKeepsQueue(cfg, s); }
    } else if s.chain.open {
      match step
      case Inherent => DrainBalances(cfg, s, h);
      case SignedCall(who, call) => SignedBalances(cfg, s, who, call, h);
      case RootCall(call) => RootBalances(cfg, s, call, h);
      case UnsignedRenew(entry) => PrepaidReads(s, Apply(cfg, s, step));
      case _ => PrepaidReads(s, Apply(cfg, s, step));
    }
  }

  lemma {:induction false} RunBalances(cfg: Config, s: State, steps: seq<Step>, h: ContentHash)
    requires cfg.Valid() && Inv(cfg, s)
    ensures Balances(RunBook(cfg, s, steps, h), s, Run(cfg, s, steps), h)
    decreases |steps|
  {
    if steps != [] {
      StepBalances(cfg, s, steps[0], h);
      StepKeepsInv(cfg, s, steps[0]);
      RunBalances(cfg, Apply(cfg, s, steps[0]), steps[1..], h);
    }
  }

  // ---------------------------------------------------------------- the books and the event log

  function EnabledEvents(log: seq<Event>, h: ContentHash): nat {
    if log == [] then 0
    else EnabledEvents(log[..|log| - 1], h) + One(log[|log| - 1].RenewalEnabled? && log[|log| - 1].hash == h)
  }

  function RenewedEvents(log: seq<Event>, h: ContentHash): nat {
    if log == [] then 0
    else RenewedEvents(log[..|log| - 1], h) + One(log[|log| - 1].DataRenewed? && log[|log| - 1].hash == h)
  }

  function FailedEvents(log: seq<Event>, h: ContentHash): nat {
    if log == [] then 0
    else FailedEvents(log[..|log| - 1], h) + One(log[|log| - 1].RenewalFailed? && log[|log| - 1].hash == h)
  }

  /** Between `s` and `t` the log gained the book's registrations, deliveries and failures of `h`. */
  ghost predicate Announces(b: Book, s: State, t: State, h: ContentHash) {
    && EnabledEvents(t.events, h) == EnabledEvents(s.events, h) + b.registered
    && RenewedEvents(t.events, h) == RenewedEvents(s.events, h) + b.fired
    && FailedEvents(t.events, h) == FailedEvents(s.events, h) + b.rejected + b.refused
  }

  lemma SnocAnnounces(log: seq<Event>, e: Event, h: ContentHash)
    ensures EnabledEvents(log + [e], h) == EnabledEvents(log, h) + One(e.RenewalEnabled? && e.hash == h)
    ensures RenewedEvents(log + [e], h) == RenewedEvents(log, h) + One(e.DataRenewed? && e.hash == h)
    ensures FailedEvents(log + [e], h) == FailedEvents(log, h) + One(e.RenewalFailed? && e.hash == h)
  {
  }

  lemma UpdateAnnounces(cfg: Config, s: State, used: nat, h: ContentHash)
    ensures Announces(BLANK, s, UpdateUsed(cfg, s, used), h)
  {
    var up, near := UsedUpdated(used), NearCap(used, cfg.cap);
    SnocAnnounces(s.events, up, h);
    SnocAnnounces(s.events + [up], near, h);
    assert s.events + ([up] + [near]) == s.events + [up] + [near];
    assert s.events + ([up] + []) == s.events + [up];
  }

  lemma ChargeAnnounces(cfg: Config, s: State, scope: Scope, size: nat, h: ContentHash)
    requires scope in s.grants
    ensures Announces(BLANK, s, Charge(cfg, s, scope, size), h)
  {
    UpdateAnnounces(cfg, s.(grants := s.grants[scope := ChargedGrant(s.grants[scope], size)]),
                    SatAdd(U64_MAX, s.used, size), h);
  }

  /** The state an item is delivered or rejected in: charged now, unless prepaid. */
  ghost function ChargedItem(cfg: Config, s: State): State
    requires s.pending != [] && !FateOf(cfg, s).Refused?
  {
    var p, s0 := s.pending[0], s.(pending := s.pending[1..]);
    if p.data.paid then s0 else Charge(cfg, s0, Account(p.data.account), p.info.size)
  }

  lemma ChargedItemAnnounces(cfg: Config, s: State, h: ContentHash)
    requires s.pending != [] && !FateOf(cfg, s).Refused?
    ensures Announces(BLANK, s, ChargedItem(cfg, s), h)
  {
    var p, s0 := s.pending[0], s.(pending := s.pending[1..]);
    if !p.data.paid { ChargeAnnounces(cfg, s0, Account(p.data.account), p.info.size, h); }
  }

  /** The events of one drained item. */
  lemma ItemEvents(cfg: Config, s: State)
    requires s.pending != []
    ensures
      var p, fate, t := s.pending[0], FateOf(cfg, s), DrainOne(cfg, s);
      var failed := RenewalFailed(p.hash, p.data.account);
      if fate.Refused? then t.events == s.events + [failed]
      else
        var s1 := ChargedItem(cfg, s);
        if fate.Fired? then t.events == s1.events + [DataRenewed(|s1.chain.block|, p.hash, p.data.account)]
        else t.events == UpdateUsed(cfg, s1, SatSub(s1.used, p.info.size)).events + [failed]
  {
  }

  lemma ItemAnnounces(cfg: Config, s: State, h: ContentHash)
    requires s.pending != []
    ensures Announces(ItemBook(cfg, s, h), s, DrainOne(cfg, s), h)
  {
    var p, fate := s.pending[0], FateOf(cfg, s);
    var failed := RenewalFailed(p.hash, p.data.account);
    ItemEvents(cfg, s);
    if fate.Refused? {
      SnocAnnounces(s.events, failed, h);
    } else {
      var s1 := ChargedItem(cfg, s);
      ChargedItemAnnounces(cfg, s, h);
      if fate.Fired? {
        SnocAnnounces(s1.events, DataRenewed(|s1.chain.block|, p.hash, p.data.account), h);
      } else {
        UpdateAnnounces(cfg, s1, SatSub(s1.used, p.info.size), h);
        SnocAnnounces(UpdateUsed(cfg, s1, SatSub(s1.used, p.info.size)).events, failed, h);
      }
    }
  }

  lemma {:induction false} DrainAnnounces(cfg: Config, s: State, h: ContentHash)
    ensures Announces(DrainBook(cfg, s, h), s, Drain(cfg, s), h)
    decreases |s.pending|
  {
    if s.pending != [] {
      ItemAnnounces(cfg, s, h);
      DrainAnnounces(cfg, DrainOne(cfg, s), h);
    }
  }

  /** The event of a dispatched call other than the drain. */
  function CallEvent(s: State, caller: Caller, call: Call): Event
    requires !call.ProcessPending? && (call.ForceRenew? || call.DisableAutoRenew? || caller.Signed?)
    requires call.RenewOnce? || call.ForceRenew? ==> Resolve(s.chain, call.entry).Some?
    requires call.DisableAutoRenew? ==> call.hash in s.renewals
  {
    match call
    case RenewOnce(entry) => RenewalEnabled(Resolve(s.chain, entry).value.hash, caller.who, false)
    case EnableAutoRenew(h) => RenewalEnabled(h, caller.who, true)
    case ForceRenew(entry) => Renewed(|s.chain.block|, Resolve(s.chain, entry).value.hash)
    case DisableAutoRenew(h) => AutoRenewalDisabled(h, s.renewals[h].account)
  }

  lemma SignedAnnounces(cfg: Config, s: State, who: AccountId, call: Call, h: ContentHash)
    requires s.chain.open
    ensures Announces(StepBook(cfg, s, SignedCall(who, call), h), s, Extrinsic(cfg, s, who, call), h)
  {
    var v := CheckSigned(cfg, s, who, call, true);
    if v.Ok? {
      ValidationPredictsPreDispatch(cfg, s, who, call);
      AdmittedDispatches(cfg, s, who, call);
      var s1 := v.value.1;
      if Target(s, call).Some? { ChargeAnnounces(cfg, s, v.value.0, Target(s, call).value.size, h); }
      SnocAnnounces(s1.events, CallEvent(s1, Signed(who), call), h);
    }
  }

  lemma UnsignedAnnounces(cfg: Config, s: State, entry: TransactionRef, h: ContentHash)
    ensures Announces(BLANK, s, UnsignedExtrinsic(cfg, s, entry), h)
  {
    var v := CheckUnsigned(cfg, s, entry, true);
    if v.Ok? {
      var info := Resolve(s.chain, entry).value;
      ChargeAnnounces(cfg, s, Preimage(info.hash), info.size, h);
      SnocAnnounces(v.value.events, CallEvent(v.value, Unsigned, ForceRenew(entry)), h);
    }
  }

  lemma RootAnnounces(cfg: Config, s: State, call: Call, h: ContentHash)
    requires s.chain.open
    ensures Announces(StepBook(cfg, s, RootCall(call), h), s, RootExtrinsic(cfg, s, call), h)
  {
  }

  lemma StepAnnounces(cfg: Config, s: State, step: Step, h: ContentHash)
    ensures Announces(StepBook(cfg, s, step, h), s, Apply(cfg, s, step), h)
  {
    if step.OnInitialize? {
      var s1 := s.(chain := Sweep(cfg, s.chain));
      UpdateAnnounces(cfg, s1, SatSub(s1.used, RenewBytes(Entries(SweptItems(cfg, s.chain)))), h);
    } else if s.chain.open {
      match step
      case Inherent => DrainAnnounces(cfg, s, h);
      case SignedCall(who, call) => SignedAnnounces(cfg, s, who, call, h);
      case RootCall(call) => RootAnnounces(cfg, s, call, h);
      case UnsignedRenew(entry) => UnsignedAnnounces(cfg, s, entry, h);
      case _ =>
    }
  }

  lemma {:induction false} RunAnnounces(cfg: Config, s: State, steps: seq<Step>, h: ContentHash)
    ensures Announces(RunBook(cfg, s, steps, h), s, Run(cfg, s, steps), h)
    decreases |steps|
  {
    if steps != [] {
      StepAnnounces(cfg, s, steps[0], h);
      RunAnnounces(cfg, Apply(cfg, s, steps[0]), steps[1..], h);
    }
  }

  /**
   Over any run from genesis, for any content: registrations announced plus cycles charged by the
   drain equal deliveries announced, plus charged cycles rejected for want of a slot, plus
   prepayments Root forfeited, plus the prepayment still outstanding. The failures announced are the
   rejected cycles and those refused before a charge.
   */
  lemma EveryCycleIsChargedOnce(cfg: Config, gs: Grants, steps: seq<Step>, h: ContentHash)
    requires cfg.Valid() && Unspent(gs)
    ensures
      var b, t := RunBook(cfg, Genesis(gs), steps, h), Run(cfg, Genesis(gs), steps);
      EnabledEvents(t.events, h) + b.drained
        == RenewedEvents(t.events, h) + b.rejected + b.forfeited + Outstanding(t, h)
    ensures
      var b, t := RunBook(cfg, Genesis(gs), steps, h), Run(cfg, Genesis(gs), steps);
      FailedEvents(t.events, h) == b.rejected + b.refused
  {
    GenesisOk(cfg, gs);
    assert Prepaid(Genesis(gs)) == {};
    RunBalances(cfg, Genesis(gs), steps, h);
    RunAnnounces(cfg, Genesis(gs), steps, h);
  }

  // ---------------------------------------------------------------- slot rejections

  lemma {:induction false} RoomyDrainRejectsNone(cfg: Config, s: State, h: ContentHash)
    requires cfg.Valid() && s.used <= cfg.cap && |s.chain.block| + |s.pending| <= cfg.maxBlockTxs
    ensures DrainBook(cfg, s, h).rejected == 0
    decreases |s.pending|
  {
    if s.pending != [] {
      DrainOneFields(cfg, s);
      RoomyDrainRejectsNone(cfg, DrainOne(cfg, s), h);
    }
  }

  /** Every drain of the run starts with room for its queue. */
  ghost predicate DrainsHaveRoom(cfg: Config, s: State, steps: seq<Step>)
    decreases |steps|
  {
    steps == [] ||
    (&& (steps[0].Inherent? && s.chain.open ==> |s.chain.block| + |s.pending| <= cfg.maxBlockTxs)
     && DrainsHaveRoom(cfg, Apply(cfg, s, steps[0]), steps[1..]))
  }

  lemma RoomyStepRejectsNone(cfg: Config, s: State, step: Step, h: ContentHash)
    requires cfg.Valid() && s.used <= cfg.cap
    requires step.Inherent? && s.chain.open ==> |s.chain.block| + |s.pending| <= cfg.maxBlockTxs
    ensures StepBook(cfg, s, step, h).rejected == 0
  {
    if step.Inherent? && s.chain.open { RoomyDrainRejectsNone(cfg, s, h); }
  }

  lemma {:induction false} RoomyRunsRejectNone(cfg: Config, s: State, steps: seq<Step>, h: ContentHash)
    requires cfg.Valid() && Inv(cfg, s) && DrainsHaveRoom(cfg, s, steps)
    ensures RunBook(cfg, s, steps, h).rejected == 0
    decreases |steps|
  {
    if steps != [] {
      RoomyStepRejectsNone(cfg, s, steps[0], h);
      StepKeepsInv(cfg, s, steps[0]);
      RoomyRunsRejectNone(cfg, Apply(cfg, s, steps[0]), steps[1..], h);
    }
  }
}
