/** The two pallets as one mutable runtime: the source's storage items and the code that updates them. */
module Pallets {
  import opened Types
  import opened Storage
  import opened Authorization
  import opened Renewal
  import opened Accounting
  import opened Runs
  import opened Admission
  import opened Safety

  datatype TryStateError = NoTarget | NoTargetInfo | Drift | OverCap

  class Runtime {
    const cfg: Config
    var now: BlockNumber
    var open: bool
    var transactions: map<BlockNumber, seq<Entry>>
    var block: seq<Entry>
    var index: map<ContentHash, (BlockNumber, nat)>
    var grants: Grants
    var renewals: map<ContentHash, RenewalData>
    var pending: seq<Pending>
    var used: nat
    var events: seq<Event>

    ghost function View(): State
      reads this
    {
      State(Chain(now, open, transactions, block, index), grants, renewals, pending, used, events)
    }

    ghost predicate Valid()
      reads this
    {
      cfg.Valid() && Inv(cfg, View())
    }

    constructor (cfg: Config, grants: Grants)
      requires cfg.Valid() && Unspent(grants)
      ensures this.cfg == cfg && View() == Genesis(grants) && Valid()
    {
      this.cfg := cfg;
      now, open, transactions, block, index := 0, false, map[], [], map[];
      this.grants, renewals, pending, used, events := grants, map[], [], 0, [];
      new;
      GenesisOk(cfg, grants);
    }

    // -------------------------------------------------------------- the byte counter

    method DepositEvent(e: Event)
      modifies this`events
      ensures View() == Emit(old(View()), e)
    {
      events := events + [e];
    }

    method UpdatePermanentStorageUsed(f: nat -> nat)
      modifies this`used, this`events
      ensures View() == UpdateUsed(cfg, old(View()), f(old(used)))
    {
      var before := used;
      var after := f(before);
      used := after;
      events := events + [UsedUpdated(after)];
      var threshold := SatMul(cfg.cap / 100, NEAR_CAP_PERCENT);
      if before < threshold && after >= threshold {
        events := events + [NearCap(after, cfg.cap)];
      }
    }

    // -------------------------------------------------------------- authorization

    method CheckRenewAuthorization(scope: Scope, size: nat, consume: bool) returns (r: Option<Invalid>)
      modifies this`grants, this`used, this`events
      ensures
        match CheckRenew(cfg, old(View()), scope, size, consume)
        case Ok(t) => r.None? && View() == t
        case Err(e) => r == Some(e) && View() == old(View())
    {
      if scope !in grants || now >= grants[scope].expiration {
        return Some(Payment);
      }
      var g := grants[scope];
      if SatAdd(U64_MAX, g.bytesPermanent, size) > g.bytesAllowance {
        return Some(AllowanceExceeded);
      }
      if SatAdd(U64_MAX, used, size) > cfg.cap {
        return Some(CapReached);
      }
      if consume {
        grants := grants[scope := g.(bytesPermanent := SatAdd(U64_MAX, g.bytesPermanent, size),
                                     transactions := SatAdd(U32_MAX, g.transactions, 1))];
        UpdatePermanentStorageUsed(u => SatAdd(U64_MAX, u, size));
      }
      return None;
    }

    method AuthorizeRenewal(who: AccountId, h: ContentHash, size: nat, consume: bool)
      returns (r: Result<Scope, Invalid>)
      modifies this`grants, this`used, this`events
      ensures
        match AuthorizeRenew(cfg, old(View()), who, h, size, consume)
        case Ok((scope, t)) => r == Ok(scope) && View() == t
        case Err(e) => r == Err(e) && View() == old(View())
    {
      if !DataSizeOk(cfg, size) {
        return Err(BadDataSize);
      }
      if |block| >= cfg.maxBlockTxs {
        return Err(ExhaustsResources);
      }
      var viaPreimage := CheckRenewAuthorization(Preimage(h), size, consume);
      if viaPreimage.None? {
        return Ok(Preimage(h));
      }
      var viaAccount := CheckRenewAuthorization(Account(who), size, consume);
      if viaAccount.Some? {
        return Err(viaAccount.value);
      }
      return Ok(Account(who));
    }

    method CheckAccountScope(who: AccountId, size: nat, consume: bool) returns (r: Result<Scope, Invalid>)
      modifies this`grants, this`used, this`events
      ensures
        match CheckAccount(cfg, old(View()), who, size, consume)
        case Ok((scope, t)) => r == Ok(scope) && View() == t
        case Err(e) => r == Err(e) && View() == old(View())
    {
      var refused := CheckRenewAuthorization(Account(who), size, consume);
      r := if refused.Some? then Err(refused.value) else Ok(Account(who));
    }

    method CheckRenewalSigned(who: AccountId, call: Call, consume: bool) returns (r: Result<Scope, Invalid>)
      modifies this`grants, this`used, this`events
      ensures
        match CheckSigned(cfg, old(View()), who, call, consume)
        case Ok((scope, t)) => r == Ok(scope) && View() == t
        case Err(e) => r == Err(e) && View() == old(View())
    {
      match call
      case RenewOnce(entry) =>
        var info := ResolveTransactionRef(entry);
        if info.None? { return Err(RenewedNotFound); }
        if info.value.hash in renewals { return Err(AlreadyEnabled); }
        r := CheckAccountScope(who, info.value.size, consume);
      case ForceRenew(entry) =>
        var info := ResolveTransactionRef(entry);
        if info.None? { return Err(RenewedNotFound); }
        r := AuthorizeRenewal(who, info.value.hash, info.value.size, consume);
      case EnableAutoRenew(h) =>
        if h in renewals { return Err(AlreadyEnabled); }
        var info := ResolveTransactionRef(ByHash(h));
        if info.None? { return Err(RenewedNotFound); }
        r := CheckAccountScope(who, info.value.size, consume);
      case DisableAutoRenew(h) =>
        if h !in renewals { return Err(NotEnabled); }
        if renewals[h].account != who { return Err(NotOwner); }
        if renewals[h].paid { return Err(CannotDisablePrepaid); }
        return Ok(Account(who));
      case ProcessPending =>
        return Err(BadCall);
    }

    method CheckRenewUnsigned(entry: TransactionRef, consume: bool) returns (r: Option<Invalid>)
      modifies this`grants, this`used, this`events
      ensures
        match CheckUnsigned(cfg, old(View()), entry, consume)
        case Ok(t) => r.None? && View() == t
        case Err(e) => r == Some(e) && View() == old(View())
    {
      var info := ResolveTransactionRef(entry);
      if info.None? { return Some(RenewedNotFound); }
      if !DataSizeOk(cfg, info.value.size) { return Some(BadDataSize); }
      if |block| >= cfg.maxBlockTxs { return Some(ExhaustsResources); }
      r := CheckRenewAuthorization(Preimage(info.value.hash), info.value.size, consume);
    }

    // -------------------------------------------------------------- entries

    method ResolveTransactionRef(entry: TransactionRef) returns (r: Option<Entry>)
      ensures r == Resolve(View().chain, entry)
    {
      var b, i;
      match entry {
        case Position(block, index) => b, i := block, index;
        case ByHash(hash) =>
          if hash !in index { return None; }
          b, i := index[hash].0, index[hash].1;
      }
      if b !in transactions || i >= |transactions[b]| { return None; }
      return Some(transactions[b][i]);
    }

    method PushEntry(e: Entry) returns (at: Option<nat>)
      modifies this`block, this`index
      ensures
        match Push(cfg, old(View()).chain, e)
        case Some(chain) => at == Some(|old(block)|) && View() == old(View()).(chain := chain)
        case None => at.None? && View() == old(View())
    {
      if |block| >= cfg.maxBlockTxs { return None; }
      var at': nat := |block|;
      var chunks := SatAdd(U32_MAX, TotalChunks(block), NumChunks(e.size));
      block := block + [e.(blockChunks := chunks)];
      index := index[e.hash := (now, at')];
      return Some(at');
    }

    // -------------------------------------------------------------- drain

    /** One queued cycle, in the order the source works: charge, append, then settle the registration. */
    method ProcessOne(p: Pending)
      requires pending == []
      modifies this
      ensures View() == DrainOne(cfg, old(View()).(pending := [p]))
    {
      var wasPaid := p.data.paid;
      var charged := wasPaid;
      if !wasPaid {
        var refused := CheckRenewAuthorization(Account(p.data.account), p.info.size, true);
        charged := refused.None?;
      }
      var newIndex := None;
      if charged {
        newIndex := PushEntry(p.info.(kind := Renew));
      }
      if newIndex.Some? {
        if !p.data.recurring {
          renewals := renewals - {p.hash};
        } else if wasPaid && p.hash in renewals {
          renewals := renewals[p.hash := renewals[p.hash].(paid := false)];
        }
        DepositEvent(DataRenewed(newIndex.value, p.hash, p.data.account));
      } else {
        if charged {
          UpdatePermanentStorageUsed(u => SatSub(u, p.info.size));
        }
        renewals := renewals - {p.hash};
        DepositEvent(RenewalFailed(p.hash, p.data.account));
      }
    }

    /** One taken item brings the state one item closer to what the drain leads to. */
    method ProcessNext(p: Pending, ghost rest: seq<Pending>, ghost goal: State)
      requires pending == [] && Drain(cfg, View().(pending := [p] + rest)) == goal
      modifies this
      ensures pending == [] && Drain(cfg, View().(pending := rest)) == goal
    {
      ghost var before := View();
      ProcessOne(p);
      assert ([p] + rest)[1..] == rest;
      DrainStep(cfg, before, [p] + rest, View());
    }

    /** Takes the whole queue first, then works through the taken items. */
    method DrainQueue() returns (n: nat)
      modifies this
      ensures View() == Drain(cfg, old(View())) && n == |old(pending)|
    {
      ghost var goal := Drain(cfg, View());
      var todo := pending;
      pending := [];
      n := |todo|;
      assert todo[0..] == todo;
      for i := 0 to n
        invariant pending == [] && Drain(cfg, View().(pending := todo[i..])) == goal
      {
        assert todo[i..] == [todo[i]] + todo[i + 1..];
        ProcessNext(todo[i], todo[i + 1..], goal);
      }
      assert todo[n..] == [];
    }

    method DoProcessPendingRenewals() returns (n: nat)
      requires Valid() && open
      modifies this
      ensures View() == Drain(cfg, old(View())) && n == |old(pending)|
      ensures Valid() && pending == []
      ensures old(Accounted(cfg, View()) && DrainFits(cfg, View())) ==> Accounted(cfg, View())
    {
      DrainKeepsInv(cfg, View());
      if Accounted(cfg, View()) { DrainExactIff(cfg, View()); }
      n := DrainQueue();
    }

    // -------------------------------------------------------------- block hooks

    method HandleObsoleteItems(items: seq<(Entry, bool)>)
      requires used <= U64_MAX
      modifies this`used, this`events, this`pending
      ensures View() == HandleObsolete(cfg, old(View()), items)
    {
      ghost var s := View();
      var freed := 0;
      for i := 0 to |items|
        invariant View() == s
        invariant freed == Clip(RenewBytes(Entries(items)[..i]))
      {
        assert Entries(items)[..i + 1][..i] == Entries(items)[..i];
        if items[i].0.kind.Renew? {
          freed := SatAdd(U64_MAX, freed, items[i].0.size);
        }
      }
      assert Entries(items)[..|items|] == Entries(items);
      if freed > 0 {
        UpdatePermanentStorageUsed(u => SatSub(u, freed));
      }
      var queue := pending;
      for i := 0 to |items|
        invariant pending == s.pending && renewals == s.renewals && |pending| <= |queue|
        invariant View() == if freed > 0 then UpdateUsed(cfg, s, SatSub(s.used, freed)) else s
        invariant queue == Queued(cfg, s, items, i)
      {
        var (info, latest) := items[i];
        if latest && info.hash in renewals && |queue| < cfg.maxBlockTxs {
          queue := queue + [Pending(info.hash, info, renewals[info.hash])];
        }
      }
      if queue != [] {
        pending := queue;
      }
    }

    /** Flag the swept entries while clearing the index they are flagged by. */
    method FlagLatest(es: seq<Entry>, obsolete: BlockNumber) returns (pairs: seq<(Entry, bool)>)
      requires |es| <= cfg.maxBlockTxs
      modifies this`index
      ensures pairs == Flagged(es, old(index), obsolete)
      ensures index == Unindexed(old(index), es, obsolete)
    {
      pairs := [];
      for i := 0 to |es|
        invariant index == Unindexed(old(index), es[..i], obsolete)
        invariant pairs == Flagged(es, old(index), obsolete)[..i]
      {
        var hash := es[i].hash;
        var latest := hash in index && index[hash].0 == obsolete;
        UnindexedSnoc(old(index), es, obsolete, i);
        if latest {
          index := index - {hash};
        }
        if |pairs| < cfg.maxBlockTxs {
          pairs := pairs + [(es[i], latest)];
        }
      }
      assert es[..|es|] == es;
    }

    /** Open the next block and age out the obsolete one. */
    method OnInitialize()
      requires Valid() && !open
      modifies this
      ensures View() == Initialize(cfg, old(View()))
      ensures Valid() && open
      ensures old(Accounted(cfg, View())) ==> Accounted(cfg, View())
    {
      InitializeKeepsInv(cfg, View());
      if Accounted(cfg, View()) { InitializeKeepsAccount(cfg, View()); }
      SweptFitsQueue(cfg, View().chain);
      OpenBlock();
    }

    method OpenBlock()
      requires used <= U64_MAX && |SweptEntries(cfg, View().chain)| <= cfg.maxBlockTxs
      modifies this
      ensures View() == Initialize(cfg, old(View()))
    {
      now, open := now + 1, true;
      var obsolete := SatSub(now, cfg.retention + 1);
      if obsolete > 0 && obsolete in transactions {
        var es := transactions[obsolete];
        transactions := transactions - {obsolete};
        var pairs := FlagLatest(es, obsolete);
        assert View() == old(View()).(chain := Sweep(cfg, old(View()).chain));
        HandleObsoleteItems(pairs);
      } else {
        assert SweptItems(cfg, old(View()).chain) == [];
      }
    }

    /** A block that leaves the queue undrained is invalid: `ok` is false and nothing is sealed. */
    method OnFinalize() returns (ok: bool)
      requires Valid() && open
      modifies this
      ensures ok == (old(pending) == [])
      ensures View() == Finalize(old(View()))
      ensures Valid() && (ok ==> !open)
      ensures old(Accounted(cfg, View())) ==> Accounted(cfg, View())
    {
      FinalizeKeeps(cfg, View());
      if pending != [] { return false; }
      var entries := block;
      block := [];
      if TotalChunks(entries) != 0 {
        transactions := transactions[now := entries];
      }
      open := false;
      return true;
    }

    // -------------------------------------------------------------- dispatchables

    method RenewOnceCall(caller: Caller, entry: TransactionRef) returns (r: Option<DispatchError>)
      modifies this`renewals, this`events
      ensures Dispatched(old(View()), View(), caller, RenewOnce(entry), r)
    {
      if !caller.Signed? { return Some(BadOrigin); }
      var info := ResolveTransactionRef(entry);
      if info.None? { return Some(NotFound); }
      var h := info.value.hash;
      if h in renewals { return Some(AlreadyRegistered); }
      renewals := renewals[h := RenewalData(caller.who, false, true)];
      DepositEvent(RenewalEnabled(h, caller.who, false));
      return None;
    }

    method ForceRenewCall(caller: Caller, entry: TransactionRef) returns (r: Option<DispatchError>)
      modifies this`block, this`index, this`events
      ensures Dispatched(old(View()), View(), caller, ForceRenew(entry), r)
    {
      var info := ResolveTransactionRef(entry);
      if info.None? { return Some(NotFound); }
      if !DataSizeOk(cfg, info.value.size) { return Some(WrongDataSize); }
      var newIndex := PushEntry(info.value.(kind := Renew));
      if newIndex.None? { return Some(TooManyTransactions); }
      DepositEvent(Renewed(newIndex.value, info.value.hash));
      return None;
    }

    method EnableAutoRenewCall(caller: Caller, h: ContentHash) returns (r: Option<DispatchError>)
      modifies this`renewals, this`events
      ensures Dispatched(old(View()), View(), caller, EnableAutoRenew(h), r)
    {
      if !caller.Signed? { return Some(BadOrigin); }
      if h in renewals { return Some(AlreadyRegistered); }
      var info := ResolveTransactionRef(ByHash(h));
      if info.None? { return Some(NotFound); }
      renewals := renewals[h := RenewalData(caller.who, true, true)];
      DepositEvent(RenewalEnabled(h, caller.who, true));
      return None;
    }

    method DisableAutoRenewCall(caller: Caller, h: ContentHash) returns (r: Option<DispatchError>)
      modifies this`renewals, this`events
      ensures Dispatched(old(View()), View(), caller, DisableAutoRenew(h), r)
    {
      if h !in renewals { return Some(NotRegistered); }
      var data := renewals[h];
      match caller {
        case Signed(who) =>
          if data.account != who { return Some(NotRegistrationOwner); }
          if data.paid { return Some(StillPrepaid); }
        case Root =>
        case Unsigned => return Some(BadOrigin);
      }
      renewals := renewals - {h};
      DepositEvent(AutoRenewalDisabled(h, data.account));
      return None;
    }

    /** The dispatchable's verdict and effect are those of `Dispatch`; an error changes nothing. */
    ghost predicate Dispatched(s: State, t: State, caller: Caller, call: Call, r: Option<DispatchError>) {
      match Dispatch(cfg, s, caller, call)
      case Ok(u) => r.None? && t == u
      case Err(e) => r == Some(e) && t == s
    }

    /** One signed extrinsic: pre-dispatch charges, then the call runs and cannot fail. */
    method SignedExtrinsic(who: AccountId, call: Call) returns (r: Result<Scope, Invalid>)
      requires Valid() && open
      modifies this
      ensures View() == Extrinsic(cfg, old(View()), who, call)
      ensures r.Ok? <==> CheckSigned(cfg, old(View()), who, call, false).Ok?
      ensures Valid()
      ensures old(Accounted(cfg, View())) ==> (Accounted(cfg, View()) <==> SignedFits(cfg, old(View()), who, call))
    {
      SignedKeeps(cfg, View(), who, call);
      ValidationPredictsPreDispatch(cfg, View(), who, call);
      if CheckSigned(cfg, View(), who, call, true).Ok? { AdmittedDispatches(cfg, View(), who, call); }
      r := CheckRenewalSigned(who, call, true);
      if r.Ok? {
        var failed: Option<DispatchError>;
        match call {
          case RenewOnce(entry) => failed := RenewOnceCall(Signed(who), entry);
          case ForceRenew(entry) => failed := ForceRenewCall(Signed(who), entry);
          case EnableAutoRenew(h) => failed := EnableAutoRenewCall(Signed(who), h);
          case DisableAutoRenew(h) => failed := DisableAutoRenewCall(Signed(who), h);
          case ProcessPending => assert false;
        }
        assert failed.None?;
      }
    }

    // -------------------------------------------------------------- try_state

    method RenewedSum() returns (sum: nat)
      ensures sum == Clip(RenewTotal(transactions))
    {
      sum := 0;
      var todo := transactions.Keys;
      assert transactions - todo == map[];
      while todo != {}
        invariant todo <= transactions.Keys
        invariant sum == Clip(RenewTotal(transactions - todo))
        decreases |todo|
      {
        var b :| b in todo;
        var es := transactions[b];
        ghost var base := RenewTotal(transactions - todo);
        for i := 0 to |es|
          invariant sum == Clip(base + RenewBytes(es[..i]))
        {
          assert es[..i + 1][..i] == es[..i];
          if es[i].kind.Renew? {
            sum := SatAdd(U64_MAX, sum, es[i].size);
          }
        }
        assert es[..|es|] == es;
        ghost var done := transactions - (todo - {b});
        RenewTotalRemove(done, b);
        assert done - {b} == transactions - todo;
        todo := todo - {b};
      }
      assert transactions - todo == transactions;
    }

    method TargetSize(h: ContentHash) returns (r: Result<nat, TryStateError>)
      requires SizesAgree(cfg, View().chain)
      ensures r.Ok? <==> Resolve(View().chain, ByHash(h)).Some?
      ensures r.Ok? ==> r.value == cfg.sizeOf(h)
      ensures r == Err(NoTarget) <==> h !in index
      ensures r == Err(NoTargetInfo) <==> h in index && Resolve(View().chain, ByHash(h)).None?
    {
      if h !in index { return Err(NoTarget); }
      var info := ResolveTransactionRef(ByHash(h));
      if info.None? { return Err(NoTargetInfo); }
      return Ok(info.value.size);
    }

    /** Why the target of a paid registration is not found. */
    ghost predicate Missing(h: ContentHash, e: TryStateError)
      reads this
    {
      && Resolve(View().chain, ByHash(h)).None?
      && e == if h in index then NoTargetInfo else NoTarget
    }

    ghost predicate Found(hs: set<ContentHash>)
      reads this
    {
      forall h :: h in hs ==> Resolve(View().chain, ByHash(h)).Some?
    }

    /** The sum over paid registrations, whatever the iteration order; an error if one has no target. */
    method PrepaidSum() returns (r: Result<nat, TryStateError>)
      requires SizesAgree(cfg, View().chain)
      ensures r.Ok? <==> Found(PaidRegistrations(View()))
      ensures r.Ok? ==> r.value == Clip(SizeSum(cfg, PaidRegistrations(View())))
      ensures r.Err? ==> exists h :: h in PaidRegistrations(View()) && Missing(h, r.error)
    {
      var sum := 0;
      var todo := renewals.Keys;
      ghost var paid, done: set<ContentHash> := PaidRegistrations(View()), {};
      while todo != {}
        invariant todo <= renewals.Keys && done <= paid <= done + todo && done !! todo
        invariant sum == Clip(SizeSum(cfg, done)) && Found(done)
        decreases todo
      {
        var h :| h in todo;
        if renewals[h].paid {
          var size := TargetSize(h);
          if size.Err? { return size; }
          SizeSumAdd(cfg, done, h);
          sum := SatAdd(U64_MAX, sum, size.value);
          done := done + {h};
        }
        todo := todo - {h};
      }
      assert done == paid;
      return Ok(sum);
    }

    /** Decides `TryState` in any state, good or bad; of the storage it assumes only that hashes fix sizes. */
    method DoTryState() returns (r: Option<TryStateError>)
      requires SizesAgree(cfg, View().chain)
      ensures r.None? <==> TryState(cfg, View())
      ensures
        var found := Found(PaidRegistrations(View()));
        && (r == Some(Drift) <==> found && used != Clip(TryStateSum(cfg, View())))
        && (r == Some(OverCap) <==> found && used == Clip(TryStateSum(cfg, View())) && cfg.cap < used)
        && (!found ==> r.Some? && exists h :: h in PaidRegistrations(View()) && Missing(h, r.value))
    {
      var renewedSum := RenewedSum();
      var prepaid := PrepaidSum();
      if prepaid.Err? { return Some(prepaid.error); }
      var expected := SatAdd(U64_MAX, renewedSum, prepaid.value);
      if used != expected { return Some(Drift); }
      if used > cfg.cap { return Some(OverCap); }
      return None;
    }

    /** The hook, in a state a run can reach: below the largest `u64` it accepts only an exact counter. */
    method TryStateHook() returns (r: Option<TryStateError>)
      requires Valid()
      ensures r.None? <==> TryState(cfg, View())
      ensures r.None? && cfg.cap < U64_MAX ==> used == TryStateSum(cfg, View())
      ensures Accounted(cfg, View()) && !open ==> r.None?
    {
      ChainSizesAgree(cfg, View().chain);
      if Accounted(cfg, View()) && !open { BlockEndPasses(cfg, View()); }
      r := DoTryState();
    }
  }

  /** Indexed entries have the size their content hash fixes. */
  ghost predicate SizesAgree(cfg: Config, c: Chain) {
    forall h {:trigger Resolve(c, ByHash(h))} ::
      Resolve(c, ByHash(h)).Some? ==> Resolve(c, ByHash(h)).value.size == cfg.sizeOf(h)
  }

  /** Sizes agree in every state a run can reach. */
  lemma ChainSizesAgree(cfg: Config, c: Chain)
    requires ChainOk(cfg, c)
    ensures SizesAgree(cfg, c)
  {
    forall h | Resolve(c, ByHash(h)).Some?
      ensures Resolve(c, ByHash(h)).value.size == cfg.sizeOf(h)
    {
      ResolveFacts(cfg, c, ByHash(h));
    }
  }

  /** Clearing the index entry by entry flags and removes exactly what the whole-block description does. */
  lemma UnindexedSnoc(index: map<ContentHash, (BlockNumber, nat)>, es: seq<Entry>, b: BlockNumber, i: nat)
    requires i < |es|
    ensures
      var before := Unindexed(index, es[..i], b);
      var latest := es[i].hash in before && before[es[i].hash].0 == b;
      && (latest <==> PointsAt(index, es[i].hash, b) && es[i].hash !in Hashes(es[..i]))
      && Unindexed(index, es[..i + 1], b) == if latest then before - {es[i].hash} else before
  {
  }

  lemma SizeSumAdd(cfg: Config, hs: set<ContentHash>, h: ContentHash)
    requires h !in hs
    ensures SizeSum(cfg, hs + {h}) == SizeSum(cfg, hs) + cfg.sizeOf(h)
  {
    SizeSumRemove(cfg, hs + {h}, h);
    assert hs + {h} - {h} == hs;
  }

  /** A drained item does not read the items behind it. */
  lemma DrainOneIgnoresRest(cfg: Config, s: State)
    requires s.pending != []
    ensures DrainOne(cfg, s) == DrainOne(cfg, s.(pending := [s.pending[0]])).(pending := s.pending[1..])
  {
    match FateOf(cfg, s)
    case Refused =>
    case SlotRejected =>
    case Fired =>
  }

  lemma DrainStep(cfg: Config, s: State, todo: seq<Pending>, t: State)
    requires todo != [] && t == DrainOne(cfg, s.(pending := [todo[0]]))
    ensures Drain(cfg, t.(pending := todo[1..])) == Drain(cfg, s.(pending := todo))
  {
    DrainOneIgnoresRest(cfg, s.(pending := todo));
  }
}
