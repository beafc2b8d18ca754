/** What the event log tells an observer: the counter's value and its crossings of the near-cap threshold. */
module EventLog {
  import opened Types
  import opened Storage
  import opened Authorization
  import opened Renewal
  import opened Accounting
  import opened Runs
  import opened Admission

  /** The last announced counter value; the counter starts at 0. */
  function LastUsed(log: seq<Event>): nat {
    if log == [] then 0
    else if log[|log| - 1].UsedUpdated? then log[|log| - 1].used
    else LastUsed(log[..|log| - 1])
  }

  /** The update just before position `k` took the counter from below the threshold to it or above. */
  ghost predicate Rising(thr: nat, log: seq<Event>, k: nat)
    requires k <= |log|
  {
    1 <= k && log[k - 1].UsedUpdated? && LastUsed(log[..k - 1]) < thr <= log[k - 1].used
  }

  /** Near-cap events stand exactly after rising updates, and repeat their value. */
  ghost predicate Marked(thr: nat, cap: nat, log: seq<Event>) {
    forall k {:trigger Rising(thr, log, k)} :: 0 <= k < |log| ==>
      && (log[k].NearCap? <==> Rising(thr, log, k))
      && (log[k].NearCap? ==> log[k] == NearCap(LastUsed(log[..k]), cap))
  }

  /** `Marked`, with no rising update left unmarked at the end. */
  ghost predicate EdgesMarked(thr: nat, cap: nat, log: seq<Event>) {
    Marked(thr, cap, log) && !Rising(thr, log, |log|)
  }

  ghost predicate LogOk(cfg: Config, s: State) {
    LastUsed(s.events) == s.used && EdgesMarked(Threshold(cfg), cfg.cap, s.events)
  }

  lemma PrefixRising(thr: nat, log: seq<Event>, e: Event, k: nat)
    requires k <= |log|
    ensures Rising(thr, log + [e], k) <==> Rising(thr, log, k)
    ensures (log + [e])[..k] == log[..k]
  {
    if 1 <= k {
      assert (log + [e])[..k - 1] == log[..k - 1];
    }
  }

  lemma SnocMarked(thr: nat, cap: nat, log: seq<Event>, e: Event)
    requires Marked(thr, cap, log)
    requires e.NearCap? <==> Rising(thr, log, |log|)
    requires e.NearCap? ==> e == NearCap(LastUsed(log), cap)
    ensures Marked(thr, cap, log + [e])
  {
    var r := log + [e];
    forall k | 0 <= k < |r|
      ensures r[k].NearCap? <==> Rising(thr, r, k)
      ensures r[k].NearCap? ==> r[k] == NearCap(LastUsed(r[..k]), cap)
    {
      PrefixRising(thr, log, e, k);
      if k == |log| { assert log[..k] == log; }
    }
  }

  lemma SnocEnd(thr: nat, log: seq<Event>, e: Event)
    ensures Rising(thr, log + [e], |log| + 1) <==> e.UsedUpdated? && LastUsed(log) < thr <= e.used
    ensures LastUsed(log + [e]) == if e.UsedUpdated? then e.used else LastUsed(log)
  {
  }

  lemma EmitLog(cfg: Config, s: State, e: Event)
    requires LogOk(cfg, s) && !e.UsedUpdated? && !e.NearCap?
    ensures LogOk(cfg, Emit(s, e))
  {
    SnocMarked(Threshold(cfg), cfg.cap, s.events, e);
    SnocEnd(Threshold(cfg), s.events, e);
  }

  lemma UpdateMarked(thr: nat, cap: nat, log: seq<Event>, used: nat)
    requires EdgesMarked(thr, cap, log)
    ensures
      var more := [UsedUpdated(used)] + if LastUsed(log) < thr <= used then [NearCap(used, cap)] else [];
      LastUsed(log + more) == used && EdgesMarked(thr, cap, log + more)
  {
    var up, near := UsedUpdated(used), NearCap(used, cap);
    SnocMarked(thr, cap, log, up);
    SnocEnd(thr, log, up);
    if LastUsed(log) < thr <= used {
      SnocMarked(thr, cap, log + [up], near);
      SnocEnd(thr, log + [up], near);
      assert log + ([up] + [near]) == log + [up] + [near];
    } else {
      assert log + ([up] + []) == log + [up];
    }
  }

  lemma UpdateLog(cfg: Config, s: State, used: nat)
    requires LogOk(cfg, s)
    ensures LogOk(cfg, UpdateUsed(cfg, s, used))
  {
    UpdateMarked(Threshold(cfg), cfg.cap, s.events, used);
  }

  lemma ChargeLog(cfg: Config, s: State, scope: Scope, size: nat)
    requires LogOk(cfg, s) && scope in s.grants
    ensures LogOk(cfg, Charge(cfg, s, scope, size))
  {
    UpdateLog(cfg, s.(grants := s.grants[scope := ChargedGrant(s.grants[scope], size)]),
              SatAdd(U64_MAX, s.used, size));
  }

  // ---------------------------------------------------------------- every step keeps the log

  lemma DrainOneLog(cfg: Config, s: State)
    requires LogOk(cfg, s) && s.pending != []
    ensures LogOk(cfg, DrainOne(cfg, s))
  {
    var p := s.pending[0];
    var s0 := s.(pending := s.pending[1..]);
    if FateOf(cfg, s).Refused? {
      EmitLog(cfg, s0.(renewals := s0.renewals - {p.hash}), RenewalFailed(p.hash, p.data.account));
    } else {
      var s1 := if p.data.paid then s0 else Charge(cfg, s0, Account(p.data.account), p.info.size);
      if !p.data.paid { ChargeLog(cfg, s0, Account(p.data.account), p.info.size); }
      if FateOf(cfg, s).Fired? {
        EmitLog(cfg, s1.(chain := PushRenew(cfg, s1.chain, p.info).value, renewals := Delivered(s1.renewals, p)),
                DataRenewed(|s1.chain.block|, p.hash, p.data.account));
      } else {
        UpdateLog(cfg, s1, SatSub(s1.used, p.info.size));
        var s2 := UpdateUsed(cfg, s1, SatSub(s1.used, p.info.size));
        EmitLog(cfg, s2.(renewals := s2.renewals - {p.hash}), RenewalFailed(p.hash, p.data.account));
      }
    }
  }

  lemma {:induction false} DrainLog(cfg: Config, s: State)
    requires LogOk(cfg, s)
    ensures LogOk(cfg, Drain(cfg, s))
    decreases |s.pending|
  {
    if s.pending != [] {
      DrainOneLog(cfg, s);
      DrainLog(cfg, DrainOne(cfg, s));
    }
  }

  /** A dispatched call other than the drain appends at most one event, and it is not about the counter. */
  lemma DispatchLog(cfg: Config, s: State, caller: Caller, call: Call)
    requires LogOk(cfg, s) && Dispatch(cfg, s, caller, call).Ok?
    ensures LogOk(cfg, Dispatch(cfg, s, caller, call).value)
  {
    match call
    case RenewOnce(entry) =>
      EmitLog(cfg, s, RenewalEnabled(Resolve(s.chain, entry).value.hash, caller.who, false));
    case EnableAutoRenew(h) => EmitLog(cfg, s, RenewalEnabled(h, caller.who, true));
    case ForceRenew(entry) =>
      EmitLog(cfg, s, Renewed(|s.chain.block|, Resolve(s.chain, entry).value.hash));
    case DisableAutoRenew(h) => EmitLog(cfg, s, AutoRenewalDisabled(h, s.renewals[h].account));
    case ProcessPending => DrainLog(cfg, s);
  }

  lemma SignedLog(cfg: Config, s: State, who: AccountId, call: Call)
    requires LogOk(cfg, s)
    ensures LogOk(cfg, Extrinsic(cfg, s, who, call))
  {
    var v := CheckSigned(cfg, s, who, call, true);
    if v.Ok? {
      ValidationPredictsPreDispatch(cfg, s, who, call);
      if Target(s, call).Some? { ChargeLog(cfg, s, v.value.0, Target(s, call).value.size); }
      if Dispatch(cfg, v.value.1, Signed(who), call).Ok? {
        DispatchLog(cfg, v.value.1, Signed(who), call);
      }
    }
  }

  lemma UnsignedLog(cfg: Config, s: State, entry: TransactionRef)
    requires LogOk(cfg, s)
    ensures LogOk(cfg, UnsignedExtrinsic(cfg, s, entry))
  {
    var v := CheckUnsigned(cfg, s, entry, true);
    if v.Ok? {
      var info := Resolve(s.chain, entry).value;
      ChargeLog(cfg, s, Preimage(info.hash), info.size);
      if Dispatch(cfg, v.value, Unsigned, ForceRenew(entry)).Ok? {
        DispatchLog(cfg, v.value, Unsigned, ForceRenew(entry));
      }
    }
  }

  lemma InitializeLog(cfg: Config, s: State)
    requires LogOk(cfg, s)
    ensures LogOk(cfg, Initialize(cfg, s))
  {
    var s1 := s.(chain := Sweep(cfg, s.chain));
    UpdateLog(cfg, s1, SatSub(s1.used, RenewBytes(Entries(SweptItems(cfg, s.chain)))));
  }

  lemma StepLog(cfg: Config, s: State, step: Step)
    requires LogOk(cfg, s)
    ensures LogOk(cfg, Apply(cfg, s, step))
  {
    if step.OnInitialize? {
      InitializeLog(cfg, s);
    } else if s.chain.open {
      match step
      case Inherent => DrainLog(cfg, s);
      case SignedCall(who, call) => SignedLog(cfg, s, who, call);
      case UnsignedRenew(entry) => UnsignedLog(cfg, s, entry);
      case RootCall(call) =>
        if Dispatch(cfg, s, Root, call).Ok? { DispatchLog(cfg, s, Root, call); }
      case _ =>
    }
  }

  /** On every run the log announces the counter exactly and marks exactly the rising edges. */
  lemma {:induction false} EveryRunIsLogged(cfg: Config, s: State, steps: seq<Step>)
    requires LogOk(cfg, s)
    ensures LogOk(cfg, Run(cfg, s, steps))
    decreases |steps|
  {
    if steps != [] {
      StepLog(cfg, s, steps[0]);
      EveryRunIsLogged(cfg, Apply(cfg, s, steps[0]), steps[1..]);
    }
  }

  lemma GenesisIsLogged(cfg: Config, gs: Grants)
    ensures LogOk(cfg, Genesis(gs))
  {
  }

  // ---------------------------------------------------------------- consequences

  lemma {:induction false} FallsBetween(thr: nat, log: seq<Event>, n: nat, m: nat)
    requires n <= m <= |log| && LastUsed(log[..m]) < thr <= LastUsed(log[..n])
    ensures exists k :: n <= k < m && log[k].UsedUpdated? && log[k].used < thr
    decreases m
  {
    var last := log[m - 1];
    assert log[..m][..m - 1] == log[..m - 1];
    if !(last.UsedUpdated? && last.used < thr) {
      FallsBetween(thr, log, n, m - 1);
    }
  }

  lemma AfterEdge(thr: nat, log: seq<Event>, i: nat)
    requires i < |log| && Rising(thr, log, i) && !log[i].UsedUpdated?
    ensures thr <= LastUsed(log[..i + 1])
  {
  }

  /** Between two near-cap events some update leaves the counter below the threshold. */
  lemma NearCapNeedsAFall(thr: nat, cap: nat, log: seq<Event>, i: nat, j: nat)
    requires Marked(thr, cap, log) && i < j < |log| && log[i].NearCap? && log[j].NearCap?
    ensures exists k :: i < k < j && log[k].UsedUpdated? && log[k].used < thr
  {
    assert Rising(thr, log, i) && Rising(thr, log, j);
    AfterEdge(thr, log, i);
    FallsBetween(thr, log, i + 1, j - 1);
  }

  /** In the log of any run from genesis, between two near-cap events the counter was announced below the threshold. */
  lemma NearCapIsNotRepeated(cfg: Config, gs: Grants, steps: seq<Step>, i: nat, j: nat)
    requires
      var log := Run(cfg, Genesis(gs), steps).events;
      i < j < |log| && log[i].NearCap? && log[j].NearCap?
    ensures
      var log := Run(cfg, Genesis(gs), steps).events;
      exists k :: i < k < j && log[k].UsedUpdated? && log[k].used < Threshold(cfg)
  {
    GenesisIsLogged(cfg, gs);
    EveryRunIsLogged(cfg, Genesis(gs), steps);
    NearCapNeedsAFall(Threshold(cfg), cfg.cap, Run(cfg, Genesis(gs), steps).events, i, j);
  }

  /** The divide-first threshold never overflows and is within 79 bytes of the exact percentage. */
  lemma ThresholdIsTight(cfg: Config)
    requires cfg.cap <= U64_MAX
    ensures Threshold(cfg) == cfg.cap / 100 * 80 <= cfg.cap * 80 / 100 <= Threshold(cfg) + 79
  {
  }
}
