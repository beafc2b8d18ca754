/** Which renewal calls are admitted, with which error otherwise and at whose expense, over the stored fields alone. */
module Verdicts {
  import opened Types
  import opened Storage
  import opened Authorization
  import opened Renewal
  import opened Runs
  import opened Admission
  import opened LifeCycle

  // ---------------------------------------------------------------- one scope

  /** The scope holds a grant that has not expired. */
  ghost predicate Unexpired(s: State, scope: Scope) {
    scope in s.grants && s.chain.now < s.grants[scope].expiration
  }

  /** An unexpired grant whose bytes, and the chain's cap, have room for the size. */
  ghost predicate CanPay(cfg: Config, s: State, scope: Scope, size: nat) {
    && Unexpired(s, scope)
    && SatAdd(U64_MAX, s.grants[scope].bytesPermanent, size) <= s.grants[scope].bytesAllowance
    && SatAdd(U64_MAX, s.used, size) <= cfg.cap
  }

  /** Which of the three checks stops a charge: expiry first, then the scope's bytes, then the cap. */
  lemma CheckRenewVerdict(cfg: Config, s: State, scope: Scope, size: nat, consume: bool)
    ensures
      var r := CheckRenew(cfg, s, scope, size, consume);
      && (r.Ok? <==> CanPay(cfg, s, scope, size))
      && (r == Err(Payment) <==> scope !in s.grants || s.grants[scope].expiration <= s.chain.now)
      && (r == Err(AllowanceExceeded) <==>
            && scope in s.grants && s.chain.now < s.grants[scope].expiration
            && s.grants[scope].bytesAllowance < SatAdd(U64_MAX, s.grants[scope].bytesPermanent, size))
      && (r == Err(CapReached) <==>
            && scope in s.grants && s.chain.now < s.grants[scope].expiration
            && SatAdd(U64_MAX, s.grants[scope].bytesPermanent, size) <= s.grants[scope].bytesAllowance
            && cfg.cap < SatAdd(U64_MAX, s.used, size))
  {
  }

  /** Between `s` and `t` one scope paid: its quota and its transaction count grew, and nothing else of any grant. */
  ghost predicate Paid(s: State, t: State, scope: Scope, size: nat) {
    && scope in s.grants && t.grants.Keys == s.grants.Keys
    && t.grants[scope].bytesPermanent == SatAdd(U64_MAX, s.grants[scope].bytesPermanent, size)
    && t.grants[scope].transactions == SatAdd(U32_MAX, s.grants[scope].transactions, 1)
    && t.grants[scope].transactionsAllowance == s.grants[scope].transactionsAllowance
    && t.grants[scope].bytes == s.grants[scope].bytes
    && t.grants[scope].bytesAllowance == s.grants[scope].bytesAllowance
    && t.grants[scope].expiration == s.grants[scope].expiration
    && forall other :: other in s.grants && other != scope ==> t.grants[other] == s.grants[other]
  }

  lemma CheckRenewEffect(cfg: Config, s: State, scope: Scope, size: nat)
    requires CanPay(cfg, s, scope, size)
    ensures CheckRenew(cfg, s, scope, size, false) == Ok(s)
    ensures
      var r := CheckRenew(cfg, s, scope, size, true);
      && r.Ok? && Paid(s, r.value, scope, size) && r.value.used == SatAdd(U64_MAX, s.used, size)
      && r.value.chain == s.chain && r.value.renewals == s.renewals && r.value.pending == s.pending
  {
  }

  // ---------------------------------------------------------------- signed calls

  /** The block can take one more entry of that size. */
  ghost predicate CanAppend(cfg: Config, s: State, size: nat) {
    0 < size <= cfg.maxSize && |s.chain.block| < cfg.maxBlockTxs
  }

  /**
   `force_renew`: admitted if and only if the content is sealed, its entry can be appended, and its
   preimage grant or the caller can pay. The preimage grant pays whenever it can, and then no account
   does; if neither can, the error is the account's.
   */
  lemma ForceRenewVerdict(cfg: Config, s: State, who: AccountId, entry: TransactionRef)
    requires Resolve(s.chain, entry).Some?
    ensures
      var info := Resolve(s.chain, entry).value;
      var r := CheckSigned(cfg, s, who, ForceRenew(entry), true);
      var viaPreimage, viaAccount :=
        CanPay(cfg, s, Preimage(info.hash), info.size), CanPay(cfg, s, Account(who), info.size);
      && (r.Ok? <==> CanAppend(cfg, s, info.size) && (viaPreimage || viaAccount))
      && (r.Ok? ==>
            && r.value.0 == (if viaPreimage then Preimage(info.hash) else Account(who))
            && Paid(s, r.value.1, r.value.0, info.size))
      && (r.Ok? && viaPreimage && Account(who) in s.grants ==>
            r.value.1.grants[Account(who)] == s.grants[Account(who)])
      && (r == Err(BadDataSize) <==> !(0 < info.size <= cfg.maxSize))
      && (r == Err(ExhaustsResources) <==> 0 < info.size <= cfg.maxSize && |s.chain.block| >= cfg.maxBlockTxs)
      && (CanAppend(cfg, s, info.size) && r.Err? ==>
            Err(r.error) == CheckRenew(cfg, s, Account(who), info.size, true))
  {
    var info := Resolve(s.chain, entry).value;
    CheckRenewVerdict(cfg, s, Preimage(info.hash), info.size, true);
    CheckRenewVerdict(cfg, s, Account(who), info.size, true);
  }

  /** Content that no sealed block holds cannot be renewed, and that is the one reason for this error. */
  lemma ForceRenewNeedsContent(cfg: Config, s: State, who: AccountId, entry: TransactionRef)
    ensures CheckSigned(cfg, s, who, ForceRenew(entry), true) == Err(RenewedNotFound) <==>
      Resolve(s.chain, entry).None?
  {
  }

  /** `renew`: sealed and unregistered content, paid by the caller's account alone. */
  lemma RenewOnceVerdict(cfg: Config, s: State, who: AccountId, entry: TransactionRef)
    ensures
      var r, target := CheckSigned(cfg, s, who, RenewOnce(entry), true), Resolve(s.chain, entry);
      && (r == Err(RenewedNotFound) <==> target.None?)
      && (r == Err(AlreadyEnabled) <==> target.Some? && target.value.hash in s.renewals)
      && (target.Some? && target.value.hash !in s.renewals ==>
            && (r.Ok? <==> CanPay(cfg, s, Account(who), target.value.size))
            && (r.Ok? ==> r.value.0 == Account(who) && Paid(s, r.value.1, Account(who), target.value.size))
            && (r.Err? ==> Err(r.error) == CheckRenew(cfg, s, Account(who), target.value.size, true)))
  {
    if Resolve(s.chain, entry).Some? {
      CheckRenewVerdict(cfg, s, Account(who), Resolve(s.chain, entry).value.size, true);
    }
  }

  /** `enable_auto_renew`: the same by content hash, with the registration looked at first. */
  lemma EnableVerdict(cfg: Config, s: State, who: AccountId, h: ContentHash)
    ensures
      var r, target := CheckSigned(cfg, s, who, EnableAutoRenew(h), true), Resolve(s.chain, ByHash(h));
      && (r == Err(AlreadyEnabled) <==> h in s.renewals)
      && (r == Err(RenewedNotFound) <==> h !in s.renewals && target.None?)
      && (target.Some? && h !in s.renewals ==>
            && (r.Ok? <==> CanPay(cfg, s, Account(who), target.value.size))
            && (r.Ok? ==> r.value.0 == Account(who) && Paid(s, r.value.1, Account(who), target.value.size))
            && (r.Err? ==> Err(r.error) == CheckRenew(cfg, s, Account(who), target.value.size, true)))
  {
    if Resolve(s.chain, ByHash(h)).Some? {
      CheckRenewVerdict(cfg, s, Account(who), Resolve(s.chain, ByHash(h)).value.size, true);
    }
  }

  /** `disable_auto_renew`: the owner, once no prepayment is outstanding, at no cost. The drain is never signed. */
  lemma DisableVerdict(cfg: Config, s: State, who: AccountId, h: ContentHash)
    ensures
      var r := CheckSigned(cfg, s, who, DisableAutoRenew(h), true);
      && (r.Ok? <==> h in s.renewals && s.renewals[h].account == who && !s.renewals[h].paid)
      && (r.Ok? ==> r.value == (Account(who), s))
      && (r == Err(NotEnabled) <==> h !in s.renewals)
      && (r == Err(NotOwner) <==> h in s.renewals && s.renewals[h].account != who)
      && (r == Err(CannotDisablePrepaid) <==> h in s.renewals && s.renewals[h].account == who && s.renewals[h].paid)
    ensures CheckSigned(cfg, s, who, ProcessPending, true) == Err(BadCall)
  {
  }

  /** `can_renew`, which looks at no registration and at no preimage grant. */
  lemma CanRenewVerdict(cfg: Config, s: State, who: AccountId, entry: TransactionRef)
    ensures CanRenew(cfg, s, who, entry) <==>
      && Resolve(s.chain, entry).Some?
      && 0 < Resolve(s.chain, entry).value.size <= cfg.maxSize
      && CanPay(cfg, s, Account(who), Resolve(s.chain, entry).value.size)
  {
    if Resolve(s.chain, entry).Some? {
      CheckRenewVerdict(cfg, s, Account(who), Resolve(s.chain, entry).value.size, false);
    }
  }

  /** An unsigned `force_renew`: only the preimage grant can pay. */
  lemma UnsignedVerdict(cfg: Config, s: State, entry: TransactionRef)
    ensures
      var r, target := CheckUnsigned(cfg, s, entry, true), Resolve(s.chain, entry);
      && (r == Err(RenewedNotFound) <==> target.None?)
      && (target.Some? ==>
            var h, size := target.value.hash, target.value.size;
            && (r.Ok? <==> CanAppend(cfg, s, size) && CanPay(cfg, s, Preimage(h), size))
            && (r.Ok? ==> Paid(s, r.value, Preimage(h), size))
            && (r == Err(BadDataSize) <==> !(0 < size <= cfg.maxSize))
            && (r == Err(ExhaustsResources) <==> 0 < size <= cfg.maxSize && |s.chain.block| >= cfg.maxBlockTxs)
            && (CanAppend(cfg, s, size) && r.Err? ==> Err(r.error) == CheckRenew(cfg, s, Preimage(h), size, true)))
  {
    if Resolve(s.chain, entry).Some? {
      var info := Resolve(s.chain, entry).value;
      CheckRenewVerdict(cfg, s, Preimage(info.hash), info.size, true);
    }
  }

  // ---------------------------------------------------------------- what admitted calls do

  /** The block gained one renewed entry of the content, indexed there and announced with its position. */
  ghost predicate RenewedHere(s: State, t: State, h: ContentHash, size: nat) {
    var n := |s.chain.block|;
    && |t.chain.block| == n + 1 && t.chain.block[..n] == s.chain.block
    && t.chain.block[n].hash == h && t.chain.block[n].size == size && t.chain.block[n].kind.Renew?
    && t.chain.index == s.chain.index[h := (s.chain.now, n)]
    && t.chain.transactions == s.chain.transactions
    && Emitted(s, t, Renewed(n, h))
  }

  lemma DispatchForceRenews(cfg: Config, s: State, caller: Caller, entry: TransactionRef)
    requires Resolve(s.chain, entry).Some? && CanAppend(cfg, s, Resolve(s.chain, entry).value.size)
    ensures
      var r, info := Dispatch(cfg, s, caller, ForceRenew(entry)), Resolve(s.chain, entry).value;
      && r.Ok? && RenewedHere(s, r.value, info.hash, info.size)
      && r.value.grants == s.grants && r.value.used == s.used && r.value.renewals == s.renewals
  {
    var t := Dispatch(cfg, s, caller, ForceRenew(entry)).value;
    assert t.events[|t.events| - 1] in t.events[|s.events|..];
  }

  /** An admitted `force_renew` renews at once; one that is not admitted changes nothing. */
  lemma ForceRenewDoes(cfg: Config, s: State, who: AccountId, entry: TransactionRef)
    ensures
      var t := Extrinsic(cfg, s, who, ForceRenew(entry));
      if CheckSigned(cfg, s, who, ForceRenew(entry), false).Ok?
      then RenewedHere(s, t, Resolve(s.chain, entry).value.hash, Resolve(s.chain, entry).value.size)
      else t == s
  {
    ValidationPredictsPreDispatch(cfg, s, who, ForceRenew(entry));
    var v := CheckSigned(cfg, s, who, ForceRenew(entry), true);
    if v.Ok? {
      ForceRenewVerdict(cfg, s, who, entry);
      DispatchForceRenews(cfg, v.value.1, Signed(who), entry);
    }
  }

  lemma UnsignedForceRenewDoes(cfg: Config, s: State, entry: TransactionRef)
    ensures
      var t := UnsignedExtrinsic(cfg, s, entry);
      if CheckUnsigned(cfg, s, entry, false).Ok?
      then RenewedHere(s, t, Resolve(s.chain, entry).value.hash, Resolve(s.chain, entry).value.size)
      else t == s
  {
    AdmittedUnsignedDispatches(cfg, s, entry);
    var v := CheckUnsigned(cfg, s, entry, true);
    if v.Ok? {
      UnsignedVerdict(cfg, s, entry);
      DispatchForceRenews(cfg, v.value, Unsigned, entry);
    }
  }

  /** A store appends exactly when its size and the block allow it and its payer has an unexpired grant. */
  lemma StoreDoes(cfg: Config, s: State, h: ContentHash, payer: Payer)
    ensures
      var t, size, n := StoreExtrinsic(cfg, s, h, payer), cfg.sizeOf(h), |s.chain.block|;
      var granted :=
        match payer
        case NoQuota => true
        case Anyone => Unexpired(s, Preimage(h))
        case SignedBy(who) => Unexpired(s, Preimage(h)) || Unexpired(s, Account(who));
      if CanAppend(cfg, s, size) && granted then
        && |t.chain.block| == n + 1 && t.chain.block[..n] == s.chain.block
        && t.chain.block[n].hash == h && t.chain.block[n].size == size && t.chain.block[n].kind.Store?
        && t.chain.index == s.chain.index[h := (s.chain.now, n)]
        && t.chain.transactions == s.chain.transactions && t.used == s.used
        && t.renewals == s.renewals && t.pending == s.pending
      else t == s
  {
  }

  // ---------------------------------------------------------------- dispatch on its own

  /** What each dispatchable refuses by itself, whoever let it through; a refusal is all it does. */
  lemma RegistrationDispatch(cfg: Config, s: State, who: AccountId, entry: TransactionRef, h: ContentHash)
    ensures
      var r, target := Dispatch(cfg, s, Signed(who), RenewOnce(entry)), Resolve(s.chain, entry);
      && (r == Err(NotFound) <==> target.None?)
      && (r == Err(AlreadyRegistered) <==> target.Some? && target.value.hash in s.renewals)
      && (r.Ok? <==> target.Some? && target.value.hash !in s.renewals)
      && (r.Ok? ==> r.value.renewals == s.renewals[target.value.hash := RenewalData(who, false, true)])
    ensures
      var r := Dispatch(cfg, s, Signed(who), EnableAutoRenew(h));
      && (r == Err(AlreadyRegistered) <==> h in s.renewals)
      && (r == Err(NotFound) <==> h !in s.renewals && Resolve(s.chain, ByHash(h)).None?)
      && (r.Ok? <==> h !in s.renewals && Resolve(s.chain, ByHash(h)).Some?)
      && (r.Ok? ==> r.value.renewals == s.renewals[h := RenewalData(who, true, true)])
    ensures
      var r := Dispatch(cfg, s, Signed(who), DisableAutoRenew(h));
      && (r == Err(NotRegistered) <==> h !in s.renewals)
      && (r == Err(NotRegistrationOwner) <==> h in s.renewals && s.renewals[h].account != who)
      && (r == Err(StillPrepaid) <==> h in s.renewals && s.renewals[h].account == who && s.renewals[h].paid)
      && (r.Ok? <==> h in s.renewals && s.renewals[h].account == who && !s.renewals[h].paid)
      && (r.Ok? ==> r.value.renewals == s.renewals - {h})
  {
  }

  lemma ForceRenewDispatch(cfg: Config, s: State, caller: Caller, entry: TransactionRef)
    ensures
      var r, target := Dispatch(cfg, s, caller, ForceRenew(entry)), Resolve(s.chain, entry);
      && (r == Err(NotFound) <==> target.None?)
      && (r == Err(WrongDataSize) <==> target.Some? && !(0 < target.value.size <= cfg.maxSize))
      && (r == Err(TooManyTransactions) <==>
            target.Some? && 0 < target.value.size <= cfg.maxSize && |s.chain.block| >= cfg.maxBlockTxs)
      && (r.Ok? <==> target.Some? && CanAppend(cfg, s, target.value.size))
  {
  }

  // ---------------------------------------------------------------- Root and the drain

  /** Root may only renew and disable; the drain is the block author's alone. */
  lemma OriginsAreChecked(cfg: Config, s: State, entry: TransactionRef, h: ContentHash)
    ensures Dispatch(cfg, s, Root, RenewOnce(entry)) == Err(BadOrigin)
    ensures Dispatch(cfg, s, Root, EnableAutoRenew(h)) == Err(BadOrigin)
    ensures Dispatch(cfg, s, Unsigned, RenewOnce(entry)) == Err(BadOrigin)
    ensures Dispatch(cfg, s, Unsigned, EnableAutoRenew(h)) == Err(BadOrigin)
    ensures h in s.renewals ==> Dispatch(cfg, s, Unsigned, DisableAutoRenew(h)) == Err(BadOrigin)
    ensures Dispatch(cfg, s, Root, ProcessPending) == Err(BadOrigin)
    ensures forall who :: Dispatch(cfg, s, Signed(who), ProcessPending) == Err(BadOrigin)
    ensures Dispatch(cfg, s, Unsigned, ProcessPending) == Ok(Drain(cfg, s))
    ensures h in s.renewals <==> Dispatch(cfg, s, Root, DisableAutoRenew(h)).Ok?
    ensures h !in s.renewals <==> Dispatch(cfg, s, Root, DisableAutoRenew(h)) == Err(NotRegistered)
  {
  }
}
