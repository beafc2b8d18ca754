/** Runs of the chain: every block hook and extrinsic as one atomic step, in any order. */
module Runs {
  import opened Types
  import opened Storage
  import opened Authorization
  import opened Renewal
  import opened Accounting

  datatype Payer = SignedBy(who: AccountId) | Anyone | NoQuota

  datatype Step =
    | OnInitialize
    | OnFinalize
    | Inherent
    | SignedCall(who: AccountId, call: Call)
    | UnsignedRenew(entry: TransactionRef)
    | RootCall(call: Call)
    | StoreData(hash: ContentHash, payer: Payer)
    | GrantScope(scope: Scope, txs: nat, bytes: nat, validUntil: Option<BlockNumber>)
    | RefreshScope(scope: Scope, validUntil: Option<BlockNumber>)
    | RemoveExpiredScope(scope: Scope)

  // ---------------------------------------------------------------- steps

  /** `on_finalize` of both pallets; a block with a non-empty queue panics, so it is no step. */
  function Finalize(s: State): State {
    if s.pending == [] then s.(chain := Seal(s.chain)) else s
  }

  /** Pre-dispatch then dispatch. A failed dispatch is rolled back, the pre-dispatch charge is not. */
  function Extrinsic(cfg: Config, s: State, who: AccountId, call: Call): State {
    match CheckSigned(cfg, s, who, call, true)
    case Err(_) => s
    case Ok((_, s1)) =>
      match Dispatch(cfg, s1, Signed(who), call)
      case Ok(s2) => s2
      case Err(_) => s1
  }

  function UnsignedExtrinsic(cfg: Config, s: State, entry: TransactionRef): State {
    match CheckUnsigned(cfg, s, entry, true)
    case Err(_) => s
    case Ok(s1) =>
      match Dispatch(cfg, s1, Unsigned, ForceRenew(entry))
      case Ok(s2) => s2
      case Err(_) => s1
  }

  function RootExtrinsic(cfg: Config, s: State, call: Call): State {
    match Dispatch(cfg, s, Root, call)
    case Ok(t) => t
    case Err(_) => s
  }

  /** What a store consumes: a preimage grant first, the signer's account otherwise. */
  function StoreGrants(s: State, h: ContentHash, size: nat, payer: Payer): Option<Grants> {
    match payer
    case NoQuota => Some(s.grants)
    case Anyone => ConsumeStore(s.grants, Preimage(h), size, s.chain.now)
    case SignedBy(who) =>
      match ConsumeStore(s.grants, Preimage(h), size, s.chain.now)
      case Some(gs) => Some(gs)
      case None => ConsumeStore(s.grants, Account(who), size, s.chain.now)
  }

  /**
   A store spends one scope only, a preimage grant before the signer's account: one transaction and its
   size. It never touches a permanent quota, an allowance or an expiry.
   */
  lemma StoreSpendsOneScope(s: State, h: ContentHash, size: nat, payer: Payer)
    requires StoreGrants(s, h, size, payer).Some? && !payer.NoQuota?
    ensures
      var gs := StoreGrants(s, h, size, payer).value;
      var viaPreimage := payer.Anyone? || Active(s.grants, Preimage(h), s.chain.now);
      var scope := if viaPreimage then Preimage(h) else Account(payer.who);
      && Active(s.grants, scope, s.chain.now) && gs.Keys == s.grants.Keys
      && gs[scope].bytes == SatAdd(U64_MAX, s.grants[scope].bytes, size)
      && gs[scope].transactions == SatAdd(U32_MAX, s.grants[scope].transactions, 1)
      && gs[scope].transactionsAllowance == s.grants[scope].transactionsAllowance
      && gs[scope].bytesPermanent == s.grants[scope].bytesPermanent
      && gs[scope].bytesAllowance == s.grants[scope].bytesAllowance
      && gs[scope].expiration == s.grants[scope].expiration
      && forall other :: other in gs && other != scope ==> gs[other] == s.grants[other]
  {
  }

  function StoreExtrinsic(cfg: Config, s: State, h: ContentHash, payer: Payer): State {
    var size := cfg.sizeOf(h);
    var grants := StoreGrants(s, h, size, payer);
    if !DataSizeOk(cfg, size) || BlockFull(cfg, s.chain) || grants.None? then s
    else s.(grants := grants.value, chain := Push(cfg, s.chain, Entry(h, size, Store, 0)).value)
  }

  function Apply(cfg: Config, s: State, step: Step): State {
    if step.OnInitialize? then (if s.chain.open then s else Initialize(cfg, s))
    else if !s.chain.open then s
    else
      match step
      case OnInitialize => s
      case OnFinalize => Finalize(s)
      case Inherent => Drain(cfg, s)
      case SignedCall(who, call) => Extrinsic(cfg, s, who, call)
      case UnsignedRenew(entry) => UnsignedExtrinsic(cfg, s, entry)
      case RootCall(call) => RootExtrinsic(cfg, s, call)
      case StoreData(h, payer) => StoreExtrinsic(cfg, s, h, payer)
      case GrantScope(scope, txs, bytes, validUntil) =>
        if 0 < bytes <= U64_MAX
        then s.(grants := Authorize(s.grants, scope, txs, bytes, s.chain.now,
                                    Clamp(s.chain.now + cfg.authPeriod, validUntil)))
        else s
      case RefreshScope(scope, validUntil) =>
        s.(grants := Refresh(s.grants, scope, Clamp(s.chain.now + cfg.authPeriod, validUntil)))
      case RemoveExpiredScope(scope) =>
        s.(grants := RemoveExpired(s.grants, scope, s.chain.now))
  }

  function Run(cfg: Config, s: State, steps: seq<Step>): State
    decreases |steps|
  {
    if steps == [] then s else Run(cfg, Apply(cfg, s, steps[0]), steps[1..])
  }

  lemma {:induction false} RunConcat(cfg: Config, s: State, a: seq<Step>, b: seq<Step>)
    ensures Run(cfg, s, a + b) == Run(cfg, Run(cfg, s, a), b)
    decreases |a|
  {
    if a == [] {
      assert a + b == b;
    } else {
      assert (a + b)[1..] == a[1..] + b;
      RunConcat(cfg, Apply(cfg, s, a[0]), a[1..], b);
    }
  }

  lemma RunCons(cfg: Config, s: State, step: Step, rest: seq<Step>)
    ensures Run(cfg, s, [step] + rest) == Run(cfg, Apply(cfg, s, step), rest)
  {
    assert ([step] + rest)[1..] == rest;
  }

  // ---------------------------------------------------------------- facts about the parts of a step

  lemma ResolveFacts(cfg: Config, c: Chain, entry: TransactionRef)
    requires ChainOk(cfg, c) && Resolve(c, entry).Some?
    ensures EntryOk(cfg, Resolve(c, entry).value)
    ensures Retained(c, Resolve(c, entry).value.hash) && Resolve(c, entry).value.hash in c.index
    ensures entry.ByHash? ==> Resolve(c, entry).value.hash == entry.hash
  {
    var (b, i) := match entry case Position(b, i) => (b, i) case ByHash(h) => c.index[h];
    assert EntriesAt(c, b)[i] == Resolve(c, entry).value == c.transactions[b][i];
    assert ListOk(cfg, EntriesAt(c, b));
    if entry.ByHash? {
      assert EntriesAt(c, c.index[entry.hash].0)[c.index[entry.hash].1].hash == entry.hash;
    }
  }

  lemma ChargeFields(cfg: Config, s: State, scope: Scope, size: nat)
    requires cfg.Valid() && s.used <= cfg.cap && Refusal(cfg, s, scope, size).None?
    ensures
      var t := Charge(cfg, s, scope, size);
      && t.chain == s.chain && t.renewals == s.renewals && t.pending == s.pending
      && t.used == SatAdd(U64_MAX, s.used, size) <= cfg.cap
      && (QuotaOk(s.grants) ==> QuotaOk(t.grants))
  {
  }

  /** States that agree on everything the invariant reads. */
  lemma SameInv(cfg: Config, s: State, t: State)
    requires Inv(cfg, s)
    requires t.chain == s.chain && t.renewals == s.renewals && t.pending == s.pending
    requires QuotaOk(t.grants) && t.used <= cfg.cap
    ensures Inv(cfg, t) && Prepaid(t) == Prepaid(s)
  {
  }

  lemma RegisterKeepsQueue(cfg: Config, s: State, h: ContentHash, who: AccountId, recurring: bool)
    requires QueueOk(cfg, s) && RegistrationsOk(s)
    requires Retained(s.chain, h) && h in s.chain.index && h !in s.renewals
    ensures QueueOk(cfg, Register(s, h, who, recurring)) && RegistrationsOk(Register(s, h, who, recurring))
    ensures h !in Prepaid(s) && Prepaid(Register(s, h, who, recurring)) == Prepaid(s) + {h}
  {
    var t := Register(s, h, who, recurring);
    forall i | 0 <= i < |t.pending|
      ensures ItemOk(cfg, t, t.pending[i]) && t.pending[i].hash != h
    {
      assert ItemOk(cfg, s, s.pending[i]);
    }
    assert h !in PendingHashes(s.pending);
  }

  /** Registering after a charge adds the new prepayment to the total. */
  lemma RegisterKeeps(cfg: Config, s: State, h: ContentHash, who: AccountId, recurring: bool, size: nat)
    requires cfg.Valid() && Inv(cfg, s) && Refusal(cfg, s, Account(who), size).None?
    requires Retained(s.chain, h) && h in s.chain.index && h !in s.renewals && size == cfg.sizeOf(h)
    ensures
      var t := Register(Charge(cfg, s, Account(who), size), h, who, recurring);
      Inv(cfg, t) && t.used == SatAdd(U64_MAX, s.used, size) && Total(cfg, t) == Total(cfg, s) + size
  {
    var s1 := Charge(cfg, s, Account(who), size);
    ChargeFields(cfg, s, Account(who), size);
    SameInv(cfg, s, s1);
    RegisterKeepsQueue(cfg, s1, h, who, recurring);
    var t := Register(s1, h, who, recurring);
    SizeSumRemove(cfg, Prepaid(t), h);
    assert Prepaid(t) - {h} == Prepaid(s);
  }

  /** Pushing an entry keeps queue and registrations, since no sealed block changes. */
  lemma PushKeepsQueue(cfg: Config, s: State, e: Entry)
    requires QueueOk(cfg, s) && RegistrationsOk(s) && s.chain.open && Push(cfg, s.chain, e).Some?
    ensures
      var t := s.(chain := Push(cfg, s.chain, e).value);
      QueueOk(cfg, t) && RegistrationsOk(t) && Prepaid(t) == Prepaid(s)
  {
  }

  lemma PushKeepsInv(cfg: Config, s: State, e: Entry)
    requires cfg.Valid() && Inv(cfg, s) && s.chain.open && !BlockFull(cfg, s.chain)
    requires DataSizeOk(cfg, e.size) && e.size == cfg.sizeOf(e.hash)
    ensures
      var t := s.(chain := Push(cfg, s.chain, e).value);
      Inv(cfg, t) && Prepaid(t) == Prepaid(s)
  {
    PushKeepsChain(cfg, s.chain, e);
    PushKeepsQueue(cfg, s, e);
  }

  lemma EmitKeeps(cfg: Config, s: State, e: Event)
    requires Inv(cfg, s)
    ensures Inv(cfg, Emit(s, e)) && Total(cfg, Emit(s, e)) == Total(cfg, s)
  {
  }

  /** A renewed entry appended to the open block adds its bytes to the total. */
  lemma PushRenewKeeps(cfg: Config, s: State, info: Entry)
    requires cfg.Valid() && Inv(cfg, s) && s.chain.open && !BlockFull(cfg, s.chain) && EntryOk(cfg, info)
    ensures
      var t := s.(chain := PushRenew(cfg, s.chain, info).value);
      Inv(cfg, t) && t.chain.open && Total(cfg, t) == Total(cfg, s) + info.size
  {
    PushKeepsInv(cfg, s, info.(kind := Renew));
    PushRenewBytes(cfg, s.chain, info);
  }

  /** A charged renewal appended to the open block. */
  lemma ForceKeeps(cfg: Config, s: State, info: Entry, scope: Scope)
    requires cfg.Valid() && Inv(cfg, s) && s.chain.open && !BlockFull(cfg, s.chain) && EntryOk(cfg, info)
    requires Refusal(cfg, s, scope, info.size).None?
    ensures
      var s1 := Charge(cfg, s, scope, info.size);
      var t := s1.(chain := PushRenew(cfg, s1.chain, info).value);
      && Inv(cfg, t) && t.used == SatAdd(U64_MAX, s.used, info.size)
      && Total(cfg, t) == Total(cfg, s) + info.size
  {
    var s1 := Charge(cfg, s, scope, info.size);
    ChargeFields(cfg, s, scope, info.size);
    SameInv(cfg, s, s1);
    PushRenewKeeps(cfg, s1, info);
  }

  /** Dropping a registration. The prepaid bytes change only if it was paid and not queued. */
  lemma UnregisterKeepsQueue(cfg: Config, s: State, h: ContentHash)
    requires QueueOk(cfg, s) && RegistrationsOk(s) && h in s.renewals
    ensures
      var t := s.(renewals := s.renewals - {h});
      && QueueOk(cfg, t) && RegistrationsOk(t)
      && Prepaid(t)
         == if s.renewals[h].paid && h !in PendingHashes(s.pending) then Prepaid(s) - {h} else Prepaid(s)
  {
  }

  lemma UnregisterKeeps(cfg: Config, s: State, h: ContentHash)
    requires Inv(cfg, s) && h in s.renewals
    ensures Inv(cfg, s.(renewals := s.renewals - {h}))
    ensures
      Prepaid(s.(renewals := s.renewals - {h}))
        == if s.renewals[h].paid && h !in PendingHashes(s.pending) then Prepaid(s) - {h} else Prepaid(s)
  {
    UnregisterKeepsQueue(cfg, s, h);
  }
}
