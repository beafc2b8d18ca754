/** Which queued cycles are delivered, and when the chain-wide cap can stop one. */
module Delivery {
  import opened Types
  import opened Storage
  import opened Authorization
  import opened Renewal
  import opened Accounting
  import opened Runs
  import opened Admission
  import opened Safety
  import opened LifeCycle

  // ---------------------------------------------------------------- prepaid cycles

  /** The cycle of `h` was delivered between `s` and `t`, at position `i` of the open block. */
  ghost predicate DeliveredAt(cfg: Config, s: State, t: State, h: ContentHash, who: AccountId, i: nat) {
    && i < |t.chain.block|
    && t.chain.block[i].hash == h && t.chain.block[i].kind.Renew? && t.chain.block[i].size == cfg.sizeOf(h)
    && h in t.chain.index && t.chain.index[h] == (t.chain.now, i)
    && Emitted(s, t, DataRenewed(i, h, who))
  }

  /** A drained item leaves the block's earlier entries, other hashes and past events alone. */
  lemma DrainOneFrame(cfg: Config, s: State, h: ContentHash)
    requires cfg.Valid() && s.used <= cfg.cap && s.pending != [] && s.pending[0].info.hash == s.pending[0].hash != h
    ensures
      var t := DrainOne(cfg, s);
      && s.chain.block <= t.chain.block && s.events <= t.events && t.chain.now == s.chain.now
      && (h in s.chain.index ==> h in t.chain.index && t.chain.index[h] == s.chain.index[h])
      && (h in s.renewals ==> h in t.renewals && t.renewals[h] == s.renewals[h])
      && (h !in s.renewals ==> h !in t.renewals)
  {
    DrainOneFields(cfg, s);
    DrainOneEvents(cfg, s);
  }

  lemma {:induction false} DrainFrame(cfg: Config, s: State, h: ContentHash)
    requires cfg.Valid() && Inv(cfg, s) && s.chain.open && h !in PendingHashes(s.pending)
    ensures
      var t := Drain(cfg, s);
      && s.chain.block <= t.chain.block && s.events <= t.events && t.chain.now == s.chain.now
      && (h in s.chain.index ==> h in t.chain.index && t.chain.index[h] == s.chain.index[h])
      && (h in s.renewals ==> h in t.renewals && t.renewals[h] == s.renewals[h])
      && (h !in s.renewals ==> h !in t.renewals)
    decreases |s.pending|
  {
    if s.pending != [] {
      assert s.pending[0].hash in PendingHashes(s.pending) && ItemOk(cfg, s, s.pending[0]);
      DrainOneKeepsInv(cfg, s);
      DrainOneFrame(cfg, s, h);
      DrainOneFields(cfg, s);
      QueueTail(s.pending, h);
      DrainFrame(cfg, DrainOne(cfg, s), h);
    }
  }

  /** The cycle of registration `d` was delivered between `s` and `t`: its prepayment or one-shot is used up. */
  ghost predicate CycleDelivered(cfg: Config, s: State, t: State, h: ContentHash, d: RenewalData) {
    && (exists i :: DeliveredAt(cfg, s, t, h, d.account, i))
    && (d.recurring && h in s.renewals ==> h in t.renewals && t.renewals[h] == d.(paid := false))
    && (!d.recurring ==> h !in t.renewals)
  }

  lemma FiredDelivers(cfg: Config, s: State)
    requires cfg.Valid() && Inv(cfg, s) && s.chain.open && s.pending != [] && FateOf(cfg, s).Fired?
    ensures CycleDelivered(cfg, s, DrainOne(cfg, s), s.pending[0].hash, s.pending[0].data)
  {
    var p := s.pending[0];
    DrainOneFields(cfg, s);
    DrainOneEvents(cfg, s);
    assert ItemOk(cfg, s, p);
    assert DeliveredAt(cfg, s, DrainOne(cfg, s), p.hash, p.data.account, |s.chain.block|);
  }

  /** A delivered cycle stays delivered through the rest of the drain. */
  lemma DeliveredStays(cfg: Config, s: State, s1: State, h: ContentHash, d: RenewalData)
    requires cfg.Valid() && Inv(cfg, s1) && s1.chain.open && s.events <= s1.events
    requires CycleDelivered(cfg, s, s1, h, d) && h !in PendingHashes(s1.pending)
    ensures CycleDelivered(cfg, s, Drain(cfg, s1), h, d)
  {
    DrainFrame(cfg, s1, h);
    var i :| DeliveredAt(cfg, s, s1, h, d.account, i);
    EmittedTrans(s, s1, Drain(cfg, s1), DataRenewed(i, h, d.account));
    assert DeliveredAt(cfg, s, Drain(cfg, s1), h, d.account, i);
  }

  /** A delivery seen from a later state is a delivery seen from an earlier one. */
  lemma DeliveredSince(cfg: Config, s: State, s1: State, t: State, h: ContentHash, d: RenewalData)
    requires CycleDelivered(cfg, s1, t, h, d) && s.events <= s1.events <= t.events
    requires h in s.renewals ==> h in s1.renewals
    ensures CycleDelivered(cfg, s, t, h, d)
  {
    var i :| DeliveredAt(cfg, s1, t, h, d.account, i);
    EmittedTrans(s, s1, t, DataRenewed(i, h, d.account));
    assert DeliveredAt(cfg, s, t, h, d.account, i);
  }

  lemma PaidHeadIsDelivered(cfg: Config, s: State)
    requires cfg.Valid() && Inv(cfg, s) && s.chain.open
    requires s.pending != [] && s.pending[0].data.paid && !BlockFull(cfg, s.chain)
    ensures CycleDelivered(cfg, s, Drain(cfg, DrainOne(cfg, s)), s.pending[0].hash, s.pending[0].data)
  {
    DrainOneKeepsInv(cfg, s);
    DrainOneFields(cfg, s);
    DrainOneEvents(cfg, s);
    FiredDelivers(cfg, s);
    QueueTail(s.pending, s.pending[0].hash);
    DeliveredStays(cfg, s, DrainOne(cfg, s), s.pending[0].hash, s.pending[0].data);
  }

  /** Draining the head keeps room for the rest of the queue. */
  lemma RoomForTheRest(cfg: Config, s: State, k: nat)
    requires cfg.Valid() && Inv(cfg, s) && s.chain.open && 0 < k < |s.pending|
    requires |s.chain.block| + |s.pending| <= cfg.maxBlockTxs
    ensures
      var s1 := DrainOne(cfg, s);
      && Inv(cfg, s1) && s1.chain.open && s1.pending == s.pending[1..]
      && |s1.chain.block| + |s1.pending| <= cfg.maxBlockTxs
      && s.events <= s1.events
      && (s.pending[k].hash in s.renewals ==> s.pending[k].hash in s1.renewals)
  {
    DrainOneKeepsInv(cfg, s);
    DrainOneFields(cfg, s);
    assert ItemOk(cfg, s, s.pending[0]);
    DrainOneFrame(cfg, s, s.pending[k].hash);
  }

  /**
   While the block has room for the whole queue, a paid item is always delivered: its entry, its
   index position and its event exist, and its prepayment is used up. Nothing can refuse it.
   */
  lemma {:induction false} PaidItemIsDelivered(cfg: Config, s: State, k: nat)
    requires cfg.Valid() && Inv(cfg, s) && s.chain.open
    requires k < |s.pending| && s.pending[k].data.paid
    requires |s.chain.block| + |s.pending| <= cfg.maxBlockTxs
    ensures CycleDelivered(cfg, s, Drain(cfg, s), s.pending[k].hash, s.pending[k].data)
    decreases |s.pending|
  {
    if k == 0 {
      PaidHeadIsDelivered(cfg, s);
    } else {
      RoomForTheRest(cfg, s, k);
      PaidItemIsDelivered(cfg, DrainOne(cfg, s), k - 1);
      DeliveredAfter(cfg, s, DrainOne(cfg, s), s.pending[k]);
    }
  }

  lemma DeliveredAfter(cfg: Config, s: State, s1: State, p: Pending)
    requires cfg.Valid() && Inv(cfg, s1) && s1.chain.open && s.events <= s1.events
    requires p.hash in s.renewals ==> p.hash in s1.renewals
    requires CycleDelivered(cfg, s1, Drain(cfg, s1), p.hash, p.data)
    ensures CycleDelivered(cfg, s, Drain(cfg, s1), p.hash, p.data)
  {
    DrainAllRelates(cfg, s1, p.hash);
    DeliveredSince(cfg, s, s1, Drain(cfg, s1), p.hash, p.data);
  }

  lemma DueIsQueued(cfg: Config, s: State, h: ContentHash) returns (k: nat)
    requires cfg.Valid() && Inv(cfg, s) && !s.chain.open
    requires h in s.renewals && PointsAt(s.chain.index, h, Obsolete(cfg, s.chain.now + 1))
    ensures
      var s1 := Initialize(cfg, s);
      && k < |s1.pending| && s1.pending[k].hash == h && s1.pending[k].data == s.renewals[h]
      && s1.chain.block == [] && |s1.pending| <= cfg.maxBlockTxs
      && s1.renewals == s.renewals && s.events <= s1.events
  {
    var s1 := Initialize(cfg, s);
    InitializeFields(cfg, s);
    SweepLists(cfg, s.chain);
    assert h in PendingHashes(s1.pending);
    k :| 0 <= k < |s1.pending| && s1.pending[k].hash == h;
  }

  /** No drain among the steps. */
  ghost predicate Undrained(steps: seq<Step>) {
    forall i :: 0 <= i < |steps| ==> !steps[i].Inherent?
  }

  /** Until it is drained a queue waits unchanged, and with a queue left the block cannot end. */
  ghost predicate Waits(s: State, t: State) {
    || (t.pending == s.pending && t.chain.now == s.chain.now)
    || (s.pending == [] && s.chain.now < t.chain.now)
  }

  lemma StepWaits(cfg: Config, s: State, step: Step)
    requires QueueOk(cfg, s) && !step.Inherent?
    ensures Waits(s, Apply(cfg, s, step))
  {
    if s.chain.open {
      match step
      case SignedCall(who, call) => SignedKeepsQueue(cfg, s, who, call); SignedKeepsSealed(cfg, s, who, call);
      case UnsignedRenew(entry) => UnsignedKeepsSealed(cfg, s, entry);
      case RootCall(call) => RootKeepsSealed(cfg, s, call);
      case _ =>
    }
  }

  lemma {:induction false} QueueWaits(cfg: Config, s: State, steps: seq<Step>)
    requires cfg.Valid() && Inv(cfg, s) && Undrained(steps)
    ensures Waits(s, Run(cfg, s, steps)) && s.chain.now <= Run(cfg, s, steps).chain.now
    decreases |steps|
  {
    if steps != [] {
      StepWaits(cfg, s, steps[0]);
      StepKeepsInv(cfg, s, steps[0]);
      QueueWaits(cfg, Apply(cfg, s, steps[0]), steps[1..]);
    }
  }

  /**
   A prepaid registration is renewed in the very block where its latest copy ages out. Whatever
   happens between sweep and drain, if the drain finds room for its queue then no authorization, cap
   or slot limit can stop it, and not even Root can: the queue remembers the prepayment.
   */
  lemma PrepaidCycleIsDelivered(cfg: Config, s: State, steps: seq<Step>, h: ContentHash)
    requires cfg.Valid() && Inv(cfg, s) && !s.chain.open && Undrained(steps)
    requires h in s.renewals && s.renewals[h].paid
    requires PointsAt(s.chain.index, h, Obsolete(cfg, s.chain.now + 1))
    requires
      var u := Run(cfg, Initialize(cfg, s), steps);
      |u.chain.block| + |u.pending| <= cfg.maxBlockTxs
    ensures
      var u := Run(cfg, Initialize(cfg, s), steps);
      && u.chain.now == s.chain.now + 1
      && CycleDelivered(cfg, u, Drain(cfg, u), h, s.renewals[h])
  {
    var s1 := Initialize(cfg, s);
    InitializeKeepsInv(cfg, s);
    var k := DueIsQueued(cfg, s, h);
    QueueWaits(cfg, s1, steps);
    RunKeepsInv(cfg, s1, steps);
    PaidItemIsDelivered(cfg, Run(cfg, s1, steps), k);
  }

  /** A step that appends no entry to the block. */
  ghost predicate StoresNothing(step: Step) {
    match step
    case Inherent => false
    case StoreData(_, _) => false
    case UnsignedRenew(_) => false
    case SignedCall(_, call) => !call.ForceRenew?
    case RootCall(call) => !call.ForceRenew?
    case _ => true
  }

  lemma SignedStoresNothing(cfg: Config, s: State, who: AccountId, call: Call)
    requires !call.ForceRenew?
    ensures Extrinsic(cfg, s, who, call).chain == s.chain
  {
    ValidationPredictsPreDispatch(cfg, s, who, call);
  }

  lemma StepStoresNothing(cfg: Config, s: State, step: Step)
    requires s.chain.block == [] && StoresNothing(step)
    ensures Apply(cfg, s, step).chain.block == []
  {
    if s.chain.open && step.SignedCall? { SignedStoresNothing(cfg, s, step.who, step.call); }
  }

  lemma {:induction false} RunStoresNothing(cfg: Config, s: State, steps: seq<Step>)
    requires s.chain.block == [] && forall i :: 0 <= i < |steps| ==> StoresNothing(steps[i])
    ensures Run(cfg, s, steps).chain.block == []
    decreases |steps|
  {
    if steps != [] {
      StepStoresNothing(cfg, s, steps[0]);
      RunStoresNothing(cfg, Apply(cfg, s, steps[0]), steps[1..]);
    }
  }

  /** A drain that comes before any storage of its block, whatever else comes before it, finds room for its queue. */
  lemma DrainBeforeStorageHasRoom(cfg: Config, s: State, steps: seq<Step>)
    requires cfg.Valid() && Inv(cfg, s) && !s.chain.open
    requires forall i :: 0 <= i < |steps| ==> StoresNothing(steps[i])
    ensures
      var u := Run(cfg, Initialize(cfg, s), steps);
      |u.chain.block| + |u.pending| <= cfg.maxBlockTxs
  {
    InitializeKeepsInv(cfg, s);
    RunKeepsInv(cfg, Initialize(cfg, s), steps);
    RunStoresNothing(cfg, Initialize(cfg, s), steps);
  }

  /**
   A full block rejects every item, paid ones too: a paid item's bytes leave the counter again, its
   owner's quota stays spent, and the registration ends with an announced failure.
   */
  lemma FullBlockRejects(cfg: Config, s: State)
    requires cfg.Valid() && Inv(cfg, s) && Accounted(cfg, s) && s.pending != [] && BlockFull(cfg, s.chain)
    ensures
      var p, t := s.pending[0], DrainOne(cfg, s);
      && Emitted(s, t, RenewalFailed(p.hash, p.data.account))
      && p.hash !in t.renewals && t.chain == s.chain
      && (p.data.paid ==> t.used == s.used - p.info.size && t.grants == s.grants)
      && (!p.data.paid ==> (t.used == s.used <==> ItemFits(cfg, s)))
  {
    DrainOneFields(cfg, s);
    DrainOneEvents(cfg, s);
    PrepaidAfterDrainOne(cfg, s);
    assert ItemOk(cfg, s, s.pending[0]);
    if s.pending[0].data.paid {
      SizeSumRemove(cfg, Prepaid(s), s.pending[0].hash);
    }
  }

  // ---------------------------------------------------------------- the chain-wide cap

  /** Bytes the drain may have to charge. */
  ghost function UnpaidBytes(q: seq<Pending>): nat {
    if q == [] then 0
    else UnpaidBytes(q[..|q| - 1]) + if q[|q| - 1].data.paid then 0 else q[|q| - 1].info.size
  }

  lemma {:induction false} UnpaidBytesHead(q: seq<Pending>)
    requires q != []
    ensures UnpaidBytes(q) == UnpaidBytes(q[1..]) + if q[0].data.paid then 0 else q[0].info.size
  {
    if |q| > 1 {
      var r := q[..|q| - 1];
      UnpaidBytesHead(r);
      assert q[1..][..|q| - 2] == r[1..];
    }
  }

  /** No item of the drain is refused for the chain-wide cap. */
  ghost predicate NeverCapped(cfg: Config, s: State)
    decreases |s.pending|
  {
    s.pending == [] ||
    (&& (s.pending[0].data.paid
         || Refusal(cfg, s, Account(s.pending[0].data.account), s.pending[0].info.size) != Some(CapReached))
     && NeverCapped(cfg, DrainOne(cfg, s)))
  }

  lemma {:induction false} RoomForUnpaidNeverCaps(cfg: Config, s: State)
    requires cfg.Valid() && s.used + UnpaidBytes(s.pending) <= cfg.cap
    ensures NeverCapped(cfg, s)
    decreases |s.pending|
  {
    if s.pending != [] {
      UnpaidBytesHead(s.pending);
      DrainOneFields(cfg, s);
      RoomForUnpaidNeverCaps(cfg, DrainOne(cfg, s));
    }
  }

  /** Every unpaid registration due at block `b` is due through a renewed entry. */
  ghost predicate DueThroughRenewals(s: State, index: map<ContentHash, (BlockNumber, nat)>, b: BlockNumber,
                                     es: seq<Entry>)
  {
    forall i :: 0 <= i < |es| && es[i].kind.Store? && es[i].hash in s.renewals ==>
      s.renewals[es[i].hash].paid || !PointsAt(index, es[i].hash, b)
  }

  lemma {:induction false} UnpaidWithinFreed(cfg: Config, s: State, index: map<ContentHash, (BlockNumber, nat)>,
                                             b: BlockNumber, es: seq<Entry>, k: nat)
    requires s.pending == [] && k <= |es| && DueThroughRenewals(s, index, b, es)
    ensures UnpaidBytes(Queued(cfg, s, Flagged(es, index, b), k)) <= RenewBytes(es[..k])
  {
    if k > 0 {
      UnpaidWithinFreed(cfg, s, index, b, es, k - 1);
      var r, q := Queued(cfg, s, Flagged(es, index, b), k), Queued(cfg, s, Flagged(es, index, b), k - 1);
      assert es[..k][..k - 1] == es[..k - 1];
      if r != q {
        assert r[..|r| - 1] == q;
      }
    }
  }

  /** The bytes a sweep frees cover what its drain charges, if all that is due and unpaid is due through renewals. */
  lemma SweepFreesEnough(cfg: Config, s: State)
    requires cfg.Valid() && Inv(cfg, s) && !s.chain.open && Accounted(cfg, s)
    requires DueThroughRenewals(s, s.chain.index, Obsolete(cfg, s.chain.now + 1), SweptEntries(cfg, s.chain))
    ensures Initialize(cfg, s).used + UnpaidBytes(Initialize(cfg, s).pending) <= s.used
  {
    var ob, es := Obsolete(cfg, s.chain.now + 1), SweptEntries(cfg, s.chain);
    InitializeKeepsAccount(cfg, s);
    UnpaidWithinFreed(cfg, s.(chain := Sweep(cfg, s.chain)), s.chain.index, ob, es, |es|);
    assert es[..|es|] == es;
  }

  /**
   Steady-state renewals are never starved by the cap: if every unpaid registration due in this block
   is due through a renewed entry, the bytes its sweep frees cover everything the drain charges. So no
   item is refused for the cap, however late in its block the drain comes, as long as charges made
   before it stay within the room that was left under the cap before the sweep.
   */
  lemma SteadyStateIsNeverCapped(cfg: Config, s: State, steps: seq<Step>)
    requires cfg.Valid() && Inv(cfg, s) && !s.chain.open && Accounted(cfg, s) && Undrained(steps)
    requires DueThroughRenewals(s, s.chain.index, Obsolete(cfg, s.chain.now + 1), SweptEntries(cfg, s.chain))
    requires
      var s1 := Initialize(cfg, s);
      var u := Run(cfg, s1, steps);
      u.chain.now == s1.chain.now && u.used - s1.used <= cfg.cap - s.used
    ensures NeverCapped(cfg, Run(cfg, Initialize(cfg, s), steps))
  {
    var s1 := Initialize(cfg, s);
    InitializeKeepsInv(cfg, s);
    SweepFreesEnough(cfg, s);
    QueueWaits(cfg, s1, steps);
    RoomForUnpaidNeverCaps(cfg, Run(cfg, s1, steps));
  }
}
