/** Per-scope authorizations: granted allowances and what has been consumed of them. */
module Authorization {
  import opened Types

  datatype Scope = Account(who: AccountId) | Preimage(hash: ContentHash)

  /** `bytesPermanent` is the renewal pallet's quota; it shares `bytesAllowance`. */
  datatype Grant = Grant(
    transactions: nat,
    transactionsAllowance: nat,
    bytes: nat,
    bytesPermanent: nat,
    bytesAllowance: nat,
    expiration: BlockNumber)

  type Grants = map<Scope, Grant>

  predicate Active(gs: Grants, scope: Scope, now: BlockNumber) {
    scope in gs && now < gs[scope].expiration
  }

  function Clamp(expiration: BlockNumber, validUntil: Option<BlockNumber>): BlockNumber {
    if validUntil.Some? && validUntil.value < expiration then validUntil.value else expiration
  }

  /** `authorize`: a fresh window when missing or expired, otherwise additive (account) or replaced (preimage) caps. */
  function Authorize(gs: Grants, scope: Scope, txs: nat, bytes: nat, now: BlockNumber, expiration: BlockNumber)
    : Grants
  {
    if !Active(gs, scope, now) then gs[scope := Grant(0, txs, 0, 0, bytes, expiration)]
    else
      var g := gs[scope];
      gs[scope :=
        match scope
        case Account(_) =>
          g.(transactionsAllowance := SatAdd(U32_MAX, g.transactionsAllowance, txs),
             bytesAllowance := SatAdd(U64_MAX, g.bytesAllowance, bytes))
        case Preimage(_) =>
          g.(transactionsAllowance := txs, bytesAllowance := bytes)]
  }

  function Refresh(gs: Grants, scope: Scope, expiration: BlockNumber): Grants {
    if scope in gs then gs[scope := gs[scope].(expiration := expiration)] else gs
  }

  function RemoveExpired(gs: Grants, scope: Scope, now: BlockNumber): Grants {
    if scope in gs && !Active(gs, scope, now) then gs - {scope} else gs
  }

  /** `check_authorization` with `consume`: a store never fails on its allowance, only on a missing or expired grant. */
  function ConsumeStore(gs: Grants, scope: Scope, size: nat, now: BlockNumber): Option<Grants> {
    if !Active(gs, scope, now) then None
    else
      var g := gs[scope];
      Some(gs[scope := g.(bytes := SatAdd(U64_MAX, g.bytes, size),
                          transactions := SatAdd(U32_MAX, g.transactions, 1))])
  }

  /** Grants nobody has renewed against yet. */
  ghost predicate Unspent(gs: Grants) {
    forall scope :: scope in gs ==> gs[scope].bytesPermanent == 0 && gs[scope].bytesAllowance <= U64_MAX
  }

  /** The permanent quota spent at a scope is within what was granted. */
  predicate WithinQuota(gs: Grants, scope: Scope) {
    scope in gs ==> gs[scope].bytesPermanent <= gs[scope].bytesAllowance <= U64_MAX
  }

  /** The permanent quota of an account never exceeds what it was granted. */
  ghost predicate QuotaOk(gs: Grants) {
    forall scope :: scope in gs && scope.Account? ==>
      gs[scope].bytesPermanent <= gs[scope].bytesAllowance <= U64_MAX
  }

  /** Re-granting keeps the account quota: an open window only grows, a lapsed one starts from zero. */
  lemma GrantsKeepQuota(gs: Grants, scope: Scope, txs: nat, bytes: nat, now: BlockNumber, expiration: BlockNumber)
    requires QuotaOk(gs) && bytes <= U64_MAX
    ensures QuotaOk(Authorize(gs, scope, txs, bytes, now, expiration))
    ensures QuotaOk(Refresh(gs, scope, expiration)) && QuotaOk(RemoveExpired(gs, scope, now))
  {
  }

  /** Granting keeps the bound of its scope unless it replaces an open preimage grant by less than was already spent. */
  lemma GrantKeepsQuotaIff(gs: Grants, scope: Scope, txs: nat, bytes: nat, now: BlockNumber, expiration: BlockNumber)
    requires WithinQuota(gs, scope) && bytes <= U64_MAX
    ensures WithinQuota(Authorize(gs, scope, txs, bytes, now, expiration), scope) <==>
      scope.Account? || !Active(gs, scope, now) || gs[scope].bytesPermanent <= bytes
  {
  }

  /** The failing case: re-granting a smaller size replaces the cap under bytes already used. */
  lemma PreimageQuotaCanShrink()
    ensures
      var scope := Preimage(7);
      var gs := Authorize(map[scope := Grant(1, 1, 0, 40, 40, 9)], scope, 1, 10, 3, 12);
      gs[scope].bytesPermanent > gs[scope].bytesAllowance
  {
  }
}
