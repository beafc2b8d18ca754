/** Invariants of the renewal state and the exactness of the chain-wide byte counter. */
module Accounting {
  import opened Types
  import opened Storage
  import opened Authorization
  import opened Renewal

  // ---------------------------------------------------------------- sums

  ghost function SizeSum(cfg: Config, hs: set<ContentHash>): nat {
    if hs == {} then 0
    else
      var h :| h in hs;
      cfg.sizeOf(h) + SizeSum(cfg, hs - {h})
  }

  ghost function RenewTotal(txs: map<BlockNumber, seq<Entry>>): nat
    decreases |txs|
  {
    if txs == map[] then 0
    else
      var b :| b in txs;
      RenewBytes(txs[b]) + RenewTotal(txs - {b})
  }

  lemma {:induction false} SizeSumRemove(cfg: Config, hs: set<ContentHash>, h: ContentHash)
    requires h in hs
    ensures SizeSum(cfg, hs) == cfg.sizeOf(h) + SizeSum(cfg, hs - {h})
  {
    var x :| x in hs && SizeSum(cfg, hs) == cfg.sizeOf(x) + SizeSum(cfg, hs - {x});
    if x != h {
      SizeSumRemove(cfg, hs - {x}, h);
      SizeSumRemove(cfg, hs - {h}, x);
      assert hs - {x} - {h} == hs - {h} - {x};
    }
  }

  lemma {:induction false} RenewTotalRemove(txs: map<BlockNumber, seq<Entry>>, b: BlockNumber)
    requires b in txs
    ensures RenewTotal(txs) == RenewBytes(txs[b]) + RenewTotal(txs - {b})
    decreases |txs|
  {
    var x :| x in txs && RenewTotal(txs) == RenewBytes(txs[x]) + RenewTotal(txs - {x});
    if x != b {
      RenewTotalRemove(txs - {x}, b);
      RenewTotalRemove(txs - {b}, x);
      assert txs - {x} - {b} == txs - {b} - {x};
    }
  }

  // ---------------------------------------------------------------- invariant

  ghost function PendingHashes(q: seq<Pending>): set<ContentHash> {
    set i | 0 <= i < |q| :: q[i].hash
  }

  ghost predicate Distinct(q: seq<Pending>) {
    forall i, j :: 0 <= i < j < |q| ==> q[i].hash != q[j].hash
  }

  ghost predicate DataOk(d: RenewalData) {
    d.recurring || d.paid
  }

  /** A queued item: its content has left every sealed block, and its registration is the snapshot or gone. */
  ghost predicate ItemOk(cfg: Config, s: State, p: Pending) {
    && p.hash == p.info.hash
    && EntryOk(cfg, p.info)
    && DataOk(p.data)
    && !Retained(s.chain, p.hash)
    && (p.hash in s.renewals ==> s.renewals[p.hash] == p.data)
  }

  ghost predicate QueueOk(cfg: Config, s: State) {
    && (!s.chain.open ==> s.pending == [])
    && |s.pending| <= cfg.maxBlockTxs
    && Distinct(s.pending)
    && forall i :: 0 <= i < |s.pending| ==> ItemOk(cfg, s, s.pending[i])
  }

  /** Registered content is indexed, unless its cycle is queued. One-shots are always paid. */
  ghost predicate RegistrationsOk(s: State) {
    forall h :: h in s.renewals ==>
      DataOk(s.renewals[h]) && (h in s.chain.index || h in PendingHashes(s.pending))
  }

  ghost predicate Inv(cfg: Config, s: State) {
    && ChainOk(cfg, s.chain)
    && QueueOk(cfg, s)
    && RegistrationsOk(s)
    && QuotaOk(s.grants)
    && s.used <= cfg.cap
  }

  /** Content whose next cycle is paid for and not delivered: paid snapshots, and paid registrations not queued. */
  ghost function Prepaid(s: State): set<ContentHash> {
    (set i | 0 <= i < |s.pending| && s.pending[i].data.paid :: s.pending[i].hash) +
    (set h | h in s.renewals && s.renewals[h].paid && h !in PendingHashes(s.pending))
  }

  /** The renewed bytes on chain plus the prepaid bytes. */
  ghost function Total(cfg: Config, s: State): nat {
    RenewTotal(s.chain.transactions) + RenewBytes(s.chain.block) + SizeSum(cfg, Prepaid(s))
  }

  /** The counter is exact. */
  ghost predicate Accounted(cfg: Config, s: State) {
    s.used == Total(cfg, s)
  }

  /** Charging `size` bytes does not pass the largest `u64`. */
  predicate ChargeFits(s: State, size: nat) {
    s.used + size <= U64_MAX
  }

  // ---------------------------------------------------------------- drain

  datatype Fate = Refused | SlotRejected | Fired

  /** What happens to the head of the queue. */
  function FateOf(cfg: Config, s: State): Fate
    requires s.pending != []
  {
    var p := s.pending[0];
    if !p.data.paid && Refusal(cfg, s, Account(p.data.account), p.info.size).Some? then Refused
    else if BlockFull(cfg, s.chain) then SlotRejected
    else Fired
  }

  /** The counter once the head of the queue is charged, unless it is prepaid. */
  function UsedCharged(s: State): nat
    requires s.pending != []
  {
    if s.pending[0].data.paid then s.used else SatAdd(U64_MAX, s.used, s.pending[0].info.size)
  }

  /** The head of the queue, if it is charged at all, is charged in full. */
  predicate ItemFits(cfg: Config, s: State)
    requires s.pending != []
  {
    s.pending[0].data.paid || FateOf(cfg, s).Refused? || ChargeFits(s, s.pending[0].info.size)
  }

  /** Every charge of the drain is made in full. */
  ghost predicate DrainFits(cfg: Config, s: State)
    decreases |s.pending|
  {
    s.pending != [] ==> ItemFits(cfg, s) && DrainFits(cfg, DrainOne(cfg, s))
  }

  /** The counter is exact before the drain and after each of its items. */
  ghost predicate DrainExact(cfg: Config, s: State)
    decreases |s.pending|
  {
    Accounted(cfg, s) && (s.pending != [] ==> DrainExact(cfg, DrainOne(cfg, s)))
  }

  /** The state change of one drained item, field by field. */
  lemma DrainOneFields(cfg: Config, s: State)
    requires cfg.Valid() && s.pending != [] && s.used <= cfg.cap
    ensures
      var p, fate, t := s.pending[0], FateOf(cfg, s), DrainOne(cfg, s);
      && t.pending == s.pending[1..]
      && t.renewals == (if fate.Fired? then Delivered(s.renewals, p) else s.renewals - {p.hash})
      && t.chain == (if fate.Fired? then PushRenew(cfg, s.chain, p.info).value else s.chain)
      && t.used == (match fate
                    case Refused => s.used
                    case SlotRejected => SatSub(UsedCharged(s), p.info.size)
                    case Fired => UsedCharged(s))
      && t.used <= cfg.cap
  {
  }

  lemma PrepaidAfterDrainOne(cfg: Config, s: State)
    requires cfg.Valid() && s.used <= cfg.cap && QueueOk(cfg, s) && s.pending != []
    ensures Prepaid(DrainOne(cfg, s)) == Prepaid(s) - {s.pending[0].hash}
    ensures s.pending[0].hash in Prepaid(s) <==> s.pending[0].data.paid
  {
    DrainOneFields(cfg, s);
    var p, t := s.pending[0], DrainOne(cfg, s);
    assert ItemOk(cfg, s, p);
    forall h
      ensures h in Prepaid(t) <==> h in Prepaid(s) && h != p.hash
      ensures p.hash in Prepaid(s) <==> p.data.paid
    {
      QueueTail(s.pending, h);
    }
  }

  lemma QueueTail(q: seq<Pending>, h: ContentHash)
    requires q != [] && Distinct(q)
    ensures h in PendingHashes(q[1..]) <==> h in PendingHashes(q) && h != q[0].hash
    ensures Distinct(q[1..])
  {
  }

  lemma DrainOneKeepsQueue(cfg: Config, s: State)
    requires cfg.Valid() && s.used <= cfg.cap && s.chain.open && QueueOk(cfg, s) && s.pending != []
    ensures QueueOk(cfg, DrainOne(cfg, s))
  {
    DrainOneFields(cfg, s);
    var p, t := s.pending[0], DrainOne(cfg, s);
    QueueTail(s.pending, p.hash);
    assert t.chain.transactions == s.chain.transactions;
    forall i | 0 <= i < |t.pending|
      ensures ItemOk(cfg, t, t.pending[i])
    {
      assert t.pending[i] == s.pending[i + 1] && s.pending[0].hash != s.pending[i + 1].hash;
      assert ItemOk(cfg, s, s.pending[i + 1]);
      var h := t.pending[i].hash;
      assert !Retained(s.chain, h);
    }
  }

  lemma DrainOneKeepsRegistrations(cfg: Config, s: State)
    requires cfg.Valid() && s.used <= cfg.cap && QueueOk(cfg, s) && RegistrationsOk(s) && s.pending != []
    ensures RegistrationsOk(DrainOne(cfg, s))
  {
    DrainOneFields(cfg, s);
    var p, t := s.pending[0], DrainOne(cfg, s);
    assert ItemOk(cfg, s, p);
    forall h | h in t.renewals
      ensures DataOk(t.renewals[h]) && (h in t.chain.index || h in PendingHashes(t.pending))
    {
      QueueTail(s.pending, h);
    }
  }

  /** An admitted charge is exact if and only if its sum does not pass the largest `u64`, as below a smaller cap. */
  lemma ChargeIsExactIff(cfg: Config, s: State, scope: Scope, size: nat)
    requires s.used <= cfg.cap <= U64_MAX && Refusal(cfg, s, scope, size).None?
    ensures Charge(cfg, s, scope, size).used <= cfg.cap
    ensures Charge(cfg, s, scope, size).used == s.used + size <==> s.used + size <= U64_MAX
    ensures cfg.cap < U64_MAX ==> Charge(cfg, s, scope, size).used == s.used + size
  {
  }

  lemma ChargeKeepsQuota(gs: Grants, scope: Scope, size: nat)
    requires QuotaOk(gs) && scope in gs
    requires SatAdd(U64_MAX, gs[scope].bytesPermanent, size) <= gs[scope].bytesAllowance
    ensures QuotaOk(gs[scope := ChargedGrant(gs[scope], size)])
  {
  }

  lemma DrainOneKeepsQuota(cfg: Config, s: State)
    requires QuotaOk(s.grants) && s.pending != []
    ensures QuotaOk(DrainOne(cfg, s).grants)
  {
    var p := s.pending[0];
    if !p.data.paid && Refusal(cfg, s, Account(p.data.account), p.info.size).None? {
      ChargeKeepsQuota(s.grants, Account(p.data.account), p.info.size);
    }
  }

  lemma DrainOneKeepsChain(cfg: Config, s: State)
    requires cfg.Valid() && Inv(cfg, s) && s.chain.open && s.pending != []
    ensures ChainOk(cfg, DrainOne(cfg, s).chain) && DrainOne(cfg, s).chain.open
  {
    DrainOneFields(cfg, s);
    var p := s.pending[0];
    assert ItemOk(cfg, s, p);
    if FateOf(cfg, s).Fired? {
      PushKeepsChain(cfg, s.chain, p.info.(kind := Renew));
    }
  }

  lemma DrainOneKeepsInv(cfg: Config, s: State)
    requires cfg.Valid() && Inv(cfg, s) && s.chain.open && s.pending != []
    ensures Inv(cfg, DrainOne(cfg, s)) && DrainOne(cfg, s).chain.open
  {
    DrainOneKeepsChain(cfg, s);
    DrainOneKeepsQueue(cfg, s);
    DrainOneKeepsRegistrations(cfg, s);
    DrainOneKeepsQuota(cfg, s);
    DrainOneFields(cfg, s);
  }

  /** A fired cycle adds its bytes to the open block. */
  lemma PushRenewBytes(cfg: Config, c: Chain, info: Entry)
    requires !BlockFull(cfg, c)
    ensures RenewBytes(PushRenew(cfg, c, info).value.block) == RenewBytes(c.block) + info.size
    ensures PushRenew(cfg, c, info).value.transactions == c.transactions
  {
  }

  /** A paid item takes its prepayment out of the total, a fired one puts its bytes on chain. */
  lemma DrainOneTotal(cfg: Config, s: State)
    requires cfg.Valid() && s.used <= cfg.cap && QueueOk(cfg, s) && s.pending != []
    ensures
      var p := s.pending[0];
      Total(cfg, DrainOne(cfg, s)) + (if p.data.paid then p.info.size else 0)
        == Total(cfg, s) + (if FateOf(cfg, s).Fired? then p.info.size else 0)
  {
    var p := s.pending[0];
    DrainOneFields(cfg, s);
    PrepaidAfterDrainOne(cfg, s);
    assert ItemOk(cfg, s, p);
    if p.data.paid {
      SizeSumRemove(cfg, Prepaid(s), p.hash);
    } else {
      assert Prepaid(s) - {p.hash} == Prepaid(s);
    }
    if FateOf(cfg, s).Fired? {
      PushRenewBytes(cfg, s.chain, p.info);
    }
  }

  /** A drained item keeps the counter exact if and only if it is not charged past the largest `u64`. */
  lemma DrainOneKeepsAccountIff(cfg: Config, s: State)
    requires cfg.Valid() && s.used <= cfg.cap && QueueOk(cfg, s) && s.pending != [] && Accounted(cfg, s)
    ensures Accounted(cfg, DrainOne(cfg, s)) <==> ItemFits(cfg, s)
  {
    DrainOneFields(cfg, s);
    DrainOneTotal(cfg, s);
    assert ItemOk(cfg, s, s.pending[0]);
  }

  /** A cap below the largest `u64` refuses whatever would pass it. */
  lemma {:induction false} LowCapFits(cfg: Config, s: State)
    requires cfg.Valid() && cfg.cap < U64_MAX && s.used <= cfg.cap
    ensures DrainFits(cfg, s)
    decreases |s.pending|
  {
    if s.pending != [] {
      DrainOneFields(cfg, s);
      LowCapFits(cfg, DrainOne(cfg, s));
    }
  }

  /** The drain empties the queue and keeps the invariant, whatever its items meet. */
  lemma {:induction false} DrainKeepsInv(cfg: Config, s: State)
    requires cfg.Valid() && Inv(cfg, s) && s.chain.open
    ensures Inv(cfg, Drain(cfg, s)) && Drain(cfg, s).pending == [] && Drain(cfg, s).chain.open
    ensures DrainExact(cfg, s) ==> Accounted(cfg, Drain(cfg, s))
    decreases |s.pending|
  {
    if s.pending != [] {
      DrainOneKeepsInv(cfg, s);
      DrainKeepsInv(cfg, DrainOne(cfg, s));
    }
  }

  /** The drain keeps the counter exact throughout if and only if all its charges are made in full. */
  lemma {:induction false} DrainExactIff(cfg: Config, s: State)
    requires cfg.Valid() && Inv(cfg, s) && s.chain.open && Accounted(cfg, s)
    ensures DrainExact(cfg, s) <==> DrainFits(cfg, s)
    decreases |s.pending|
  {
    if s.pending != [] {
      DrainOneKeepsAccountIff(cfg, s);
      DrainOneKeepsInv(cfg, s);
      if ItemFits(cfg, s) { DrainExactIff(cfg, DrainOne(cfg, s)); }
    }
  }

  // ---------------------------------------------------------------- sweep

  /** The registered hashes whose latest copy sits in block `b`, among the given entries. */
  ghost function Due(s: State, index: map<ContentHash, (BlockNumber, nat)>, b: BlockNumber, es: seq<Entry>)
    : set<ContentHash>
  {
    set h | h in s.renewals && PointsAt(index, h, b) && h in Hashes(es)
  }

  ghost predicate QueuedFrom(s: State, es: seq<Entry>, q: seq<Pending>) {
    forall j :: 0 <= j < |q| ==>
      && q[j].info in es
      && q[j].hash == q[j].info.hash
      && q[j].hash in s.renewals
      && q[j].data == s.renewals[q[j].hash]
  }

  lemma HashesSnoc(es: seq<Entry>, k: nat)
    requires k < |es|
    ensures Hashes(es[..k + 1]) == Hashes(es[..k]) + {es[k].hash}
  {
  }

  lemma PendingSnoc(q: seq<Pending>, p: Pending)
    requires Distinct(q) && p.hash !in PendingHashes(q)
    ensures Distinct(q + [p]) && PendingHashes(q + [p]) == PendingHashes(q) + {p.hash}
  {
    var r := q + [p];
    forall h
      ensures h in PendingHashes(r) <==> h in PendingHashes(q) || h == p.hash
    {
      if h in PendingHashes(q) {
        var i :| 0 <= i < |q| && q[i].hash == h;
        assert r[i].hash == h;
      }
      if h == p.hash {
        assert r[|q|].hash == h;
      }
    }
  }

  /** The sweep queues each due hash once and drops none. */
  lemma {:induction false} QueueIsDue(cfg: Config, s: State, index: map<ContentHash, (BlockNumber, nat)>,
                                      b: BlockNumber, es: seq<Entry>, k: nat)
    requires s.pending == [] && k <= |es| <= cfg.maxBlockTxs
    ensures
      var q := Queued(cfg, s, Flagged(es, index, b), k);
      && |q| <= k && Distinct(q)
      && PendingHashes(q) == Due(s, index, b, es[..k])
      && QueuedFrom(s, es, q)
  {
    if k > 0 {
      QueueIsDue(cfg, s, index, b, es, k - 1);
      var q := Queued(cfg, s, Flagged(es, index, b), k - 1);
      var e := es[k - 1];
      HashesSnoc(es, k - 1);
      if PointsAt(index, e.hash, b) && e.hash !in Hashes(es[..k - 1]) && e.hash in s.renewals {
        PendingSnoc(q, Pending(e.hash, e, s.renewals[e.hash]));
      }
    }
  }

  lemma EntriesOfFlagged(es: seq<Entry>, index: map<ContentHash, (BlockNumber, nat)>, b: BlockNumber)
    ensures Entries(Flagged(es, index, b)) == es
  {
  }

  lemma SweptFitsQueue(cfg: Config, c: Chain)
    requires ChainOk(cfg, c) && !c.open
    ensures |SweptEntries(cfg, c)| <= cfg.maxBlockTxs
  {
    SweepLists(cfg, c);
    assert ListOk(cfg, EntriesAt(c, Obsolete(cfg, c.now + 1)));
  }

  lemma InitializeQueue(cfg: Config, s: State)
    requires WindowOk(cfg, s.chain) && IndexSound(s.chain) && !s.chain.open && s.pending == []
    requires |SweptEntries(cfg, s.chain)| <= cfg.maxBlockTxs
    ensures
      var q, ob, es := Initialize(cfg, s).pending, Obsolete(cfg, s.chain.now + 1), SweptEntries(cfg, s.chain);
      && Distinct(q) && |q| <= |es|
      && QueuedFrom(s, es, q)
      && PendingHashes(q) == set h | h in s.renewals && PointsAt(s.chain.index, h, ob)
  {
    var ob, es := Obsolete(cfg, s.chain.now + 1), SweptEntries(cfg, s.chain);
    var s1 := s.(chain := Sweep(cfg, s.chain));
    QueueIsDue(cfg, s1, s.chain.index, ob, es, |es|);
    assert es[..|es|] == es;
    forall h | h in s.renewals && PointsAt(s.chain.index, h, ob)
      ensures h in Hashes(es)
    {
      SweepIndexes(cfg, s.chain, h);
    }
  }

  /** The state change of `on_initialize`, field by field. */
  lemma InitializeFields(cfg: Config, s: State)
    requires ChainOk(cfg, s.chain) && !s.chain.open && s.pending == []
    ensures
      var t, ob, es := Initialize(cfg, s), Obsolete(cfg, s.chain.now + 1), SweptEntries(cfg, s.chain);
      && t.chain == Sweep(cfg, s.chain) && t.renewals == s.renewals && t.grants == s.grants
      && t.used == SatSub(s.used, RenewBytes(es))
      && Distinct(t.pending) && |t.pending| <= |es| <= cfg.maxBlockTxs
      && QueuedFrom(s, es, t.pending)
      && PendingHashes(t.pending) == set h | h in s.renewals && PointsAt(s.chain.index, h, ob)
  {
    SweptFitsQueue(cfg, s.chain);
    InitializeQueue(cfg, s);
    EntriesOfFlagged(SweptEntries(cfg, s.chain), s.chain.index, Obsolete(cfg, s.chain.now + 1));
  }

  lemma InitializeKeepsItems(cfg: Config, s: State)
    requires ChainOk(cfg, s.chain) && RegistrationsOk(s) && !s.chain.open && s.pending == []
    ensures QueueOk(cfg, Initialize(cfg, s))
  {
    InitializeFields(cfg, s);
    var t, es := Initialize(cfg, s), SweptEntries(cfg, s.chain);
    forall i | 0 <= i < |t.pending|
      ensures ItemOk(cfg, t, t.pending[i])
    {
      var p := t.pending[i];
      assert p.hash in PendingHashes(t.pending);
      SweptIsNotRetained(cfg, s.chain, p.hash);
      SweptEntryOk(cfg, s.chain, p.info);
    }
  }

  lemma InitializeKeepsRegistrations(cfg: Config, s: State, t: State)
    requires WindowOk(cfg, s.chain) && IndexSound(s.chain) && RegistrationsOk(s) && !s.chain.open && s.pending == []
    requires t.chain == Sweep(cfg, s.chain) && t.renewals == s.renewals
    requires PendingHashes(t.pending)
      == set h | h in s.renewals && PointsAt(s.chain.index, h, Obsolete(cfg, s.chain.now + 1))
    ensures RegistrationsOk(t)
  {
  }

  lemma InitializeKeepsQueue(cfg: Config, s: State)
    requires ChainOk(cfg, s.chain) && RegistrationsOk(s) && !s.chain.open && s.pending == []
    ensures QueueOk(cfg, Initialize(cfg, s)) && RegistrationsOk(Initialize(cfg, s))
    ensures Prepaid(Initialize(cfg, s)) == Prepaid(s)
  {
    InitializeFields(cfg, s);
    InitializeKeepsItems(cfg, s);
    InitializeKeepsRegistrations(cfg, s, Initialize(cfg, s));
    PrepaidAfterSweep(s, Initialize(cfg, s));
  }

  lemma SweptEntryOk(cfg: Config, c: Chain, e: Entry)
    requires ChainOk(cfg, c) && !c.open && e in SweptEntries(cfg, c)
    ensures EntryOk(cfg, e)
  {
    SweepLists(cfg, c);
    var es := EntriesAt(c, Obsolete(cfg, c.now + 1));
    assert ListOk(cfg, es);
    var i :| 0 <= i < |es| && es[i] == e;
  }

  /** Moving a registration into the queue changes nothing about what is prepaid. */
  lemma PrepaidAfterSweep(s: State, t: State)
    requires s.pending == [] && t.renewals == s.renewals
    requires forall j :: 0 <= j < |t.pending| ==>
      t.pending[j].hash in s.renewals && t.pending[j].data == s.renewals[t.pending[j].hash]
    ensures Prepaid(t) == Prepaid(s)
  {
  }

  lemma InitializeKeepsInv(cfg: Config, s: State)
    requires Inv(cfg, s) && !s.chain.open
    ensures Inv(cfg, Initialize(cfg, s)) && Initialize(cfg, s).chain.open
  {
    InitializeFields(cfg, s);
    InitializeKeepsQueue(cfg, s);
    SweepKeepsChain(cfg, s.chain);
  }

  /** The sweep takes exactly the obsolete block's renewed bytes off the chain. */
  lemma SweepFrees(cfg: Config, c: Chain)
    ensures RenewTotal(Sweep(cfg, c).transactions) + RenewBytes(SweptEntries(cfg, c)) == RenewTotal(c.transactions)
    ensures Sweep(cfg, c).block == c.block
  {
    var ob := Obsolete(cfg, c.now + 1);
    if ob > 0 && ob in c.transactions {
      RenewTotalRemove(c.transactions, ob);
    }
  }

  lemma InitializeKeepsAccount(cfg: Config, s: State)
    requires Inv(cfg, s) && !s.chain.open && Accounted(cfg, s)
    ensures Accounted(cfg, Initialize(cfg, s))
    ensures Initialize(cfg, s).used == s.used - RenewBytes(SweptEntries(cfg, s.chain))
  {
    InitializeFields(cfg, s);
    InitializeKeepsQueue(cfg, s);
    SweepFrees(cfg, s.chain);
  }

  // ---------------------------------------------------------------- finalize

  lemma SealKeepsAccount(cfg: Config, c: Chain)
    requires WindowOk(cfg, c) && c.open && (c.block == [] <==> TotalChunks(c.block) == 0)
    ensures RenewTotal(Seal(c).transactions) + RenewBytes(Seal(c).block)
         == RenewTotal(c.transactions) + RenewBytes(c.block)
  {
    if c.block != [] {
      RenewTotalRemove(Seal(c).transactions, c.now);
      assert Seal(c).transactions - {c.now} == c.transactions;
    }
  }
}
