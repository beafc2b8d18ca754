/**
 The data-renewal pallet as functions on its storage: registrations, the per-block queue,
 the chain-wide byte counter, and the storage-pallet state they act on.
 */
module Renewal {
  import opened Types
  import opened Storage
  import opened Authorization

  /** A registration; `paid` marks a cycle charged at registration and not fired yet. */
  datatype RenewalData = RenewalData(account: AccountId, recurring: bool, paid: bool)

  /** A queued cycle: the swept entry and the registration as the sweep saw it. */
  datatype Pending = Pending(hash: ContentHash, info: Entry, data: RenewalData)

  datatype Event =
    | Renewed(index: nat, hash: ContentHash)
    | RenewalEnabled(hash: ContentHash, who: AccountId, recurring: bool)
    | AutoRenewalDisabled(hash: ContentHash, who: AccountId)
    | DataRenewed(index: nat, hash: ContentHash, account: AccountId)
    | RenewalFailed(hash: ContentHash, account: AccountId)
    | UsedUpdated(used: nat)
    | NearCap(used: nat, cap: nat)

  datatype State = State(
    chain: Chain,
    grants: Grants,
    renewals: map<ContentHash, RenewalData>,
    pending: seq<Pending>,
    used: nat,
    events: seq<Event>)

  datatype Call =
    | RenewOnce(entry: TransactionRef)
    | ForceRenew(entry: TransactionRef)
    | EnableAutoRenew(hash: ContentHash)
    | DisableAutoRenew(hash: ContentHash)
    | ProcessPending

  /** `InvalidTransaction` codes met on the renewal paths. */
  datatype Invalid =
    | BadCall
    | Payment
    | ExhaustsResources
    | BadDataSize
    | RenewedNotFound
    | AllowanceExceeded
    | CapReached
    | NotEnabled
    | NotOwner
    | AlreadyEnabled
    | CannotDisablePrepaid

  datatype DispatchError =
    | BadOrigin
    | NotFound
    | TooManyTransactions
    | WrongDataSize
    | AlreadyRegistered
    | NotRegistered
    | NotRegistrationOwner
    | StillPrepaid

  datatype Caller = Signed(who: AccountId) | Root | Unsigned

  /** Before block 1: nothing stored or registered; grants as configured. */
  function Genesis(grants: Grants): State {
    State(Chain(0, false, map[], [], map[]), grants, map[], [], 0, [])
  }

  // ---------------------------------------------------------------- the byte counter

  const NEAR_CAP_PERCENT: nat := 80

  /** Divide first, so the product cannot overflow. */
  function Threshold(cfg: Config): nat {
    SatMul(cfg.cap / 100, NEAR_CAP_PERCENT)
  }

  function SatMul(a: nat, b: nat): nat {
    if a * b > U64_MAX then U64_MAX else a * b
  }

  function Emit(s: State, e: Event): State {
    s.(events := s.events + [e])
  }

  function UsedEvents(cfg: Config, before: nat, after: nat): seq<Event> {
    [UsedUpdated(after)] +
    if before < Threshold(cfg) <= after then [NearCap(after, cfg.cap)] else []
  }

  function UpdateUsed(cfg: Config, s: State, used: nat): State {
    s.(used := used, events := s.events + UsedEvents(cfg, s.used, used))
  }

  // ---------------------------------------------------------------- charging

  /** Why a renewal of `size` bytes cannot be charged to `scope`, if anything. */
  function Refusal(cfg: Config, s: State, scope: Scope, size: nat): Option<Invalid> {
    if !Active(s.grants, scope, s.chain.now) then Some(Payment)
    else if SatAdd(U64_MAX, s.grants[scope].bytesPermanent, size) > s.grants[scope].bytesAllowance
    then Some(AllowanceExceeded)
    else if SatAdd(U64_MAX, s.used, size) > cfg.cap then Some(CapReached)
    else None
  }

  function ChargedGrant(g: Grant, size: nat): Grant {
    g.(bytesPermanent := SatAdd(U64_MAX, g.bytesPermanent, size),
       transactions := SatAdd(U32_MAX, g.transactions, 1))
  }

  function Charge(cfg: Config, s: State, scope: Scope, size: nat): State
    requires scope in s.grants
  {
    UpdateUsed(cfg,
      s.(grants := s.grants[scope := ChargedGrant(s.grants[scope], size)]),
      SatAdd(U64_MAX, s.used, size))
  }

  /** `check_renew_authorization`. */
  function CheckRenew(cfg: Config, s: State, scope: Scope, size: nat, consume: bool): Result<State, Invalid> {
    match Refusal(cfg, s, scope, size)
    case Some(e) => Err(e)
    case None => Ok(if consume then Charge(cfg, s, scope, size) else s)
  }

  // ---------------------------------------------------------------- admission

  /** `authorize_renew`: a preimage grant is preferred over the caller's own account. */
  function AuthorizeRenew(cfg: Config, s: State, who: AccountId, h: ContentHash, size: nat, consume: bool)
    : Result<(Scope, State), Invalid>
  {
    if !DataSizeOk(cfg, size) then Err(BadDataSize)
    else if BlockFull(cfg, s.chain) then Err(ExhaustsResources)
    else
      match CheckRenew(cfg, s, Preimage(h), size, consume)
      case Ok(s1) => Ok((Preimage(h), s1))
      case Err(_) => CheckAccount(cfg, s, who, size, consume)
  }

  function CheckAccount(cfg: Config, s: State, who: AccountId, size: nat, consume: bool)
    : Result<(Scope, State), Invalid>
  {
    match CheckRenew(cfg, s, Account(who), size, consume)
    case Ok(s1) => Ok((Account(who), s1))
    case Err(e) => Err(e)
  }

  /** `check_renewal_signed`: pool validation when `consume` is false, pre-dispatch when it is true. */
  function CheckSigned(cfg: Config, s: State, who: AccountId, call: Call, consume: bool)
    : Result<(Scope, State), Invalid>
  {
    match call
    case RenewOnce(entry) => (
      match Resolve(s.chain, entry)
      case None => Err(RenewedNotFound)
      case Some(info) =>
        if info.hash in s.renewals then Err(AlreadyEnabled)
        else CheckAccount(cfg, s, who, info.size, consume))
    case ForceRenew(entry) => (
      match Resolve(s.chain, entry)
      case None => Err(RenewedNotFound)
      case Some(info) => AuthorizeRenew(cfg, s, who, info.hash, info.size, consume))
    case EnableAutoRenew(h) =>
      if h in s.renewals then Err(AlreadyEnabled)
      else (
        match Resolve(s.chain, ByHash(h))
        case None => Err(RenewedNotFound)
        case Some(info) => CheckAccount(cfg, s, who, info.size, consume))
    case DisableAutoRenew(h) =>
      if h !in s.renewals then Err(NotEnabled)
      else if s.renewals[h].account != who then Err(NotOwner)
      else if s.renewals[h].paid then Err(CannotDisablePrepaid)
      else Ok((Account(who), s))
    case ProcessPending => Err(BadCall)
  }

  /** `check_renew_unsigned`: only a preimage grant can back an unsigned `force_renew`. */
  function CheckUnsigned(cfg: Config, s: State, entry: TransactionRef, consume: bool): Result<State, Invalid> {
    match Resolve(s.chain, entry)
    case None => Err(RenewedNotFound)
    case Some(info) =>
      if !DataSizeOk(cfg, info.size) then Err(BadDataSize)
      else if BlockFull(cfg, s.chain) then Err(ExhaustsResources)
      else CheckRenew(cfg, s, Preimage(info.hash), info.size, consume)
  }

  /** `can_renew`. */
  predicate CanRenew(cfg: Config, s: State, who: AccountId, entry: TransactionRef) {
    match Resolve(s.chain, entry)
    case None => false
    case Some(info) =>
      DataSizeOk(cfg, info.size) && CheckRenew(cfg, s, Account(who), info.size, false).Ok?
  }

  // ---------------------------------------------------------------- dispatch

  function Register(s: State, h: ContentHash, who: AccountId, recurring: bool): State {
    Emit(s.(renewals := s.renewals[h := RenewalData(who, recurring, true)]),
         RenewalEnabled(h, who, recurring))
  }

  function Dispatch(cfg: Config, s: State, caller: Caller, call: Call): Result<State, DispatchError> {
    match call
    case RenewOnce(entry) =>
      if !caller.Signed? then Err(BadOrigin)
      else (
        match Resolve(s.chain, entry)
        case None => Err(NotFound)
        case Some(info) =>
          if info.hash in s.renewals then Err(AlreadyRegistered)
          else Ok(Register(s, info.hash, caller.who, false)))
    case ForceRenew(entry) => (
      match Resolve(s.chain, entry)
      case None => Err(NotFound)
      case Some(info) =>
        if !DataSizeOk(cfg, info.size) then Err(WrongDataSize)
        else
          match PushRenew(cfg, s.chain, info)
          case None => Err(TooManyTransactions)
          case Some(chain) => Ok(Emit(s.(chain := chain), Renewed(|s.chain.block|, info.hash))))
    case EnableAutoRenew(h) =>
      if !caller.Signed? then Err(BadOrigin)
      else if h in s.renewals then Err(AlreadyRegistered)
      else if Resolve(s.chain, ByHash(h)).None? then Err(NotFound)
      else Ok(Register(s, h, caller.who, true))
    case DisableAutoRenew(h) =>
      if h !in s.renewals then Err(NotRegistered)
      else if caller.Signed? && s.renewals[h].account != caller.who then Err(NotRegistrationOwner)
      else if caller.Signed? && s.renewals[h].paid then Err(StillPrepaid)
      else if caller.Unsigned? then Err(BadOrigin)
      else Ok(Emit(s.(renewals := s.renewals - {h}), AutoRenewalDisabled(h, s.renewals[h].account)))
    case ProcessPending =>
      if caller.Unsigned? then Ok(Drain(cfg, s)) else Err(BadOrigin)
  }

  // ---------------------------------------------------------------- sweep callback

  function RenewBytes(es: seq<Entry>): nat {
    if es == [] then 0
    else RenewBytes(es[..|es| - 1]) + if es[|es| - 1].kind.Renew? then es[|es| - 1].size else 0
  }

  /** The queue after the first `k` swept items; a full queue silently drops. */
  function Queued(cfg: Config, s: State, items: seq<(Entry, bool)>, k: nat): seq<Pending>
    requires k <= |items|
  {
    if k == 0 then s.pending
    else
      var q := Queued(cfg, s, items, k - 1);
      var (info, latest) := items[k - 1];
      if latest && info.hash in s.renewals && |q| < cfg.maxBlockTxs
      then q + [Pending(info.hash, info, s.renewals[info.hash])] else q
  }

  function Entries(items: seq<(Entry, bool)>): seq<Entry> {
    seq(|items|, i requires 0 <= i < |items| => items[i].0)
  }

  /** `handle_obsolete`: renewed bytes leave the counter, registered latest entries enter the queue. */
  function HandleObsolete(cfg: Config, s: State, items: seq<(Entry, bool)>): State {
    var freed := RenewBytes(Entries(items));
    var s1 := if freed > 0 then UpdateUsed(cfg, s, SatSub(s.used, freed)) else s;
    s1.(pending := Queued(cfg, s, items, |items|))
  }

  /** The swept items with their latest flags. */
  function SweptItems(cfg: Config, c: Chain): seq<(Entry, bool)> {
    Flagged(SweptEntries(cfg, c), c.index, Obsolete(cfg, c.now + 1))
  }

  /** `on_initialize` of the storage pallet with the renewal callback. */
  function Initialize(cfg: Config, s: State): State {
    HandleObsolete(cfg, s.(chain := Sweep(cfg, s.chain)), SweptItems(cfg, s.chain))
  }

  // ---------------------------------------------------------------- drain

  /** The registrations after a delivered cycle: a one-shot is consumed, a prepayment is used up. */
  function Delivered(renewals: map<ContentHash, RenewalData>, p: Pending): map<ContentHash, RenewalData> {
    if !p.data.recurring then renewals - {p.hash}
    else if p.data.paid && p.hash in renewals
    then renewals[p.hash := renewals[p.hash].(paid := false)]
    else renewals
  }

  /** One queued cycle. */
  function DrainOne(cfg: Config, s: State): State
    requires s.pending != []
  {
    var p := s.pending[0];
    var s0 := s.(pending := s.pending[1..]);
    var charge := if p.data.paid then Ok(s0) else CheckRenew(cfg, s0, Account(p.data.account), p.info.size, true);
    match charge
    case Err(_) =>
      Emit(s0.(renewals := s0.renewals - {p.hash}), RenewalFailed(p.hash, p.data.account))
    case Ok(s1) =>
      match PushRenew(cfg, s1.chain, p.info)
      case Some(chain) =>
        Emit(s1.(chain := chain, renewals := Delivered(s1.renewals, p)),
             DataRenewed(|s1.chain.block|, p.hash, p.data.account))
      case None =>
        var s2 := UpdateUsed(cfg, s1, SatSub(s1.used, p.info.size));
        Emit(s2.(renewals := s2.renewals - {p.hash}), RenewalFailed(p.hash, p.data.account))
  }

  /** `do_process_pending_renewals`. */
  function Drain(cfg: Config, s: State): State
    decreases |s.pending|
  {
    if s.pending == [] then s else Drain(cfg, DrainOne(cfg, s))
  }
}
