/** Pool validation, pre-dispatch and dispatch of a renewal call agree with one another. */
module Admission {
  import opened Types
  import opened Storage
  import opened Authorization
  import opened Renewal
  import opened Accounting
  import opened Runs

  /** The stored entry a call acts on. */
  function Target(s: State, call: Call): Option<Entry> {
    match call
    case RenewOnce(entry) => Resolve(s.chain, entry)
    case ForceRenew(entry) => Resolve(s.chain, entry)
    case EnableAutoRenew(h) => Resolve(s.chain, ByHash(h))
    case DisableAutoRenew(_) => None
    case ProcessPending => None
  }

  /** The state in which an admitted call is dispatched: one scope charged, or nothing for a disable. */
  function Admitted(cfg: Config, s: State, call: Call, scope: Scope): State
    requires Target(s, call).Some? ==> scope in s.grants
  {
    match Target(s, call)
    case Some(info) => Charge(cfg, s, scope, info.size)
    case None => s
  }

  /**
   Validation changes nothing, and pre-dispatch in the same state gives the same verdict, the same
   error and the same scope. A successful pre-dispatch charges that one scope and nothing else.
   */
  lemma ValidationPredictsPreDispatch(cfg: Config, s: State, who: AccountId, call: Call)
    ensures
      var v, p := CheckSigned(cfg, s, who, call, false), CheckSigned(cfg, s, who, call, true);
      && (v.Ok? <==> p.Ok?)
      && (v.Err? ==> v == p)
      && (v.Ok? ==>
            && v.value.1 == s
            && p.value.0 == v.value.0
            && (p.value.0 == Account(who) || (call.ForceRenew? && p.value.0.Preimage?))
            && (call.DisableAutoRenew? <==> Target(s, call).None?)
            && (Target(s, call).Some? ==>
                  && p.value.0 in s.grants
                  && Refusal(cfg, s, p.value.0, Target(s, call).value.size).None?)
            && p.value.1 == Admitted(cfg, s, call, p.value.0))
  {
  }

  /** The dispatch after a successful pre-dispatch cannot fail. */
  lemma AdmittedDispatches(cfg: Config, s: State, who: AccountId, call: Call)
    requires CheckSigned(cfg, s, who, call, true).Ok?
    ensures Dispatch(cfg, CheckSigned(cfg, s, who, call, true).value.1, Signed(who), call).Ok?
  {
  }

  lemma AdmittedUnsignedDispatches(cfg: Config, s: State, entry: TransactionRef)
    ensures CheckUnsigned(cfg, s, entry, false).Ok? <==> CheckUnsigned(cfg, s, entry, true).Ok?
    ensures CheckUnsigned(cfg, s, entry, false).Ok? ==> CheckUnsigned(cfg, s, entry, false).value == s
    ensures CheckUnsigned(cfg, s, entry, true).Ok? ==>
      && Refusal(cfg, s, Preimage(Resolve(s.chain, entry).value.hash), Resolve(s.chain, entry).value.size).None?
      && Dispatch(cfg, CheckUnsigned(cfg, s, entry, true).value, Unsigned, ForceRenew(entry)).Ok?
  {
  }

  /** `can_renew` promises that `renew` would pass validation; it does exactly for unregistered content. */
  lemma CanRenewIffUnregistered(cfg: Config, s: State, who: AccountId, entry: TransactionRef)
    requires Inv(cfg, s)
    ensures CheckSigned(cfg, s, who, RenewOnce(entry), false).Ok? <==>
      CanRenew(cfg, s, who, entry) && Resolve(s.chain, entry).value.hash !in s.renewals
  {
    if Resolve(s.chain, entry).Some? {
      ResolveFacts(cfg, s.chain, entry);
    }
  }

  /** A registered content hash for which `can_renew` answers yes although `renew` is refused. */
  lemma CanRenewOverclaims()
    ensures
      var cfg := Config(10, 5, 100, 50, 1000, h => 8);
      var chain := Chain(2, true, map[1 := [Entry(7, 8, Store, 1)]], [], map[7 := (1, 0)]);
      var grants, renewals := map[Account(1) := Grant(1, 9, 8, 8, 90, 50)], map[7 := RenewalData(1, true, true)];
      var s := State(chain, grants, renewals, [], 8, []);
      CanRenew(cfg, s, 1, ByHash(7)) && CheckSigned(cfg, s, 1, RenewOnce(ByHash(7)), false) == Err(AlreadyEnabled)
  {
  }

  // ---------------------------------------------------------------- signed and unsigned steps

  /** The call, if it is admitted and charged, is charged in full. */
  predicate SignedFits(cfg: Config, s: State, who: AccountId, call: Call) {
    CheckSigned(cfg, s, who, call, true).Ok? && Target(s, call).Some? ==> ChargeFits(s, Target(s, call).value.size)
  }

  predicate UnsignedFits(cfg: Config, s: State, entry: TransactionRef) {
    CheckUnsigned(cfg, s, entry, true).Ok? ==> ChargeFits(s, Resolve(s.chain, entry).value.size)
  }

  /** Every signed call keeps the invariant; it keeps the counter exact if and only if it is charged in full. */
  lemma SignedKeeps(cfg: Config, s: State, who: AccountId, call: Call)
    requires cfg.Valid() && Inv(cfg, s) && s.chain.open
    ensures
      var t := Extrinsic(cfg, s, who, call);
      && Inv(cfg, t) && t.chain.open
      && (Accounted(cfg, s) ==> (Accounted(cfg, t) <==> SignedFits(cfg, s, who, call)))
  {
    var v := CheckSigned(cfg, s, who, call, true);
    if v.Ok? {
      ValidationPredictsPreDispatch(cfg, s, who, call);
      AdmittedDispatches(cfg, s, who, call);
      if call.DisableAutoRenew? {
        UnregisterKeeps(cfg, s, call.hash);
      } else {
        ChargedCallKeeps(cfg, s, who, call, v.value.0);
      }
    }
  }

  lemma ChargedCallKeeps(cfg: Config, s: State, who: AccountId, call: Call, scope: Scope)
    requires cfg.Valid() && Inv(cfg, s) && s.chain.open && Target(s, call).Some?
    requires CheckSigned(cfg, s, who, call, true).Ok? && CheckSigned(cfg, s, who, call, true).value.0 == scope
    ensures
      var t, size := Extrinsic(cfg, s, who, call), Target(s, call).value.size;
      && Inv(cfg, t) && t.chain.open && t.used == SatAdd(U64_MAX, s.used, size)
      && Total(cfg, t) == Total(cfg, s) + size
  {
    ValidationPredictsPreDispatch(cfg, s, who, call);
    AdmittedDispatches(cfg, s, who, call);
    var info := Target(s, call).value;
    ResolveFacts(cfg, s.chain, if call.EnableAutoRenew? then ByHash(call.hash) else call.entry);
    if call.ForceRenew? {
      ForceKeeps(cfg, s, info, scope);
      var s1 := Charge(cfg, s, scope, info.size);
      EmitKeeps(cfg, s1.(chain := PushRenew(cfg, s1.chain, info).value), Renewed(|s1.chain.block|, info.hash));
    } else {
      RegisterKeeps(cfg, s, info.hash, who, call.EnableAutoRenew?, info.size);
    }
  }

  lemma UnsignedKeeps(cfg: Config, s: State, entry: TransactionRef)
    requires cfg.Valid() && Inv(cfg, s) && s.chain.open
    ensures
      var t := UnsignedExtrinsic(cfg, s, entry);
      && Inv(cfg, t) && t.chain.open
      && (Accounted(cfg, s) ==> (Accounted(cfg, t) <==> UnsignedFits(cfg, s, entry)))
  {
    AdmittedUnsignedDispatches(cfg, s, entry);
    if CheckUnsigned(cfg, s, entry, true).Ok? {
      ResolveFacts(cfg, s.chain, entry);
      var info := Resolve(s.chain, entry).value;
      ForceKeeps(cfg, s, info, Preimage(info.hash));
      var s1 := Charge(cfg, s, Preimage(info.hash), info.size);
      EmitKeeps(cfg, s1.(chain := PushRenew(cfg, s1.chain, info).value), Renewed(|s1.chain.block|, info.hash));
    }
  }
}
