/** The block-capacity pipeline: iteration plans, the generator's work stream, and the reader that consumes it. */
module Pipeline {
  import opened Types

  const AUTHORIZE_BATCH_SIZE: nat := 2048

  /** An account is derived from `//{prefix}/{index}`; derivation is collision-free. */
  datatype Account = Account(prefix: string, index: nat)

  datatype Plan = Plan(count: nat, prefix: string)

  /** One unit of work; signed bytes and content hashes of a store are not modelled. */
  datatype Item =
    | Authorize(batches: seq<seq<Account>>)
    | AwaitPendingAuth
    | Store(account: Account)

  // ---------------------------------------------------------------- sequences

  function Flatten<T>(ss: seq<seq<T>>): seq<T> {
    if ss == [] then [] else ss[0] + Flatten(ss[1..])
  }

  ghost predicate NoDup<T>(s: seq<T>) {
    forall i, j :: 0 <= i < j < |s| ==> s[i] != s[j]
  }

  lemma {:induction false} FlattenSnoc<T>(ss: seq<seq<T>>, s: seq<T>)
    ensures Flatten(ss + [s]) == Flatten(ss) + s
  {
    if ss == [] {
      assert ss + [s] == [s];
    } else {
      FlattenSnoc(ss[1..], s);
      assert (ss + [s])[1..] == ss[1..] + [s];
    }
  }

  lemma SnocAssociates<T>(a: seq<T>, c: seq<T>, x: seq<T>, b: seq<T>, ac: seq<T>, r: seq<T>)
    requires ac == a + c && b == c + x && r == ac + x
    ensures r == a + b
  {
  }

  lemma NoDupConcat<T>(a: seq<T>, b: seq<T>)
    requires NoDup(a) && NoDup(b) && forall x :: x in a ==> x !in b
    ensures NoDup(a + b)
  {
    var s := a + b;
    forall i, j | 0 <= i < j < |s| ensures s[i] != s[j] {
      if i < |a| && |a| <= j {
        assert s[i] in a && s[j] in b;
      }
    }
  }

  // ---------------------------------------------------------------- iteration plans

  /** Decimal rendering, as `format!` prints an unsigned integer. */
  function Decimal(n: nat): (r: string)
    ensures r != []
  {
    var digit := ['0' + (n % 10) as char];
    if n < 10 then digit else Decimal(n / 10) + digit
  }

  lemma {:induction false} DecimalIsInjective(a: nat, b: nat)
    requires Decimal(a) == Decimal(b)
    ensures a == b
  {
    var x, y := Decimal(a), Decimal(b);
    assert x[|x| - 1] == '0' + (a % 10) as char && y[|y| - 1] == '0' + (b % 10) as char;
    assert a % 10 == b % 10;
    if a >= 10 && b >= 10 {
      assert x[..|x| - 1] == Decimal(a / 10) && y[..|y| - 1] == Decimal(b / 10);
      DecimalIsInjective(a / 10, b / 10);
    }
  }

  /** The number a decimal text stands for. */
  function Parsed(text: string): nat
    requires forall i :: 0 <= i < |text| ==> '0' <= text[i] <= '9'
  {
    if text == [] then 0 else 10 * Parsed(text[..|text| - 1]) + (text[|text| - 1] - '0') as nat
  }

  /** The rendering is all digits, without a leading zero, and reads back as the number. */
  lemma {:induction false} DecimalReadsBack(n: nat)
    ensures forall i :: 0 <= i < |Decimal(n)| ==> '0' <= Decimal(n)[i] <= '9'
    ensures Parsed(Decimal(n)) == n && (n > 0 ==> Decimal(n)[0] != '0')
  {
    var text := Decimal(n);
    assert text[|text| - 1] == '0' + (n % 10) as char;
    if n >= 10 {
      DecimalReadsBack(n / 10);
      assert text[..|text| - 1] == Decimal(n / 10);
    } else {
      assert text[..|text| - 1] == [];
    }
  }

  function PrefixAt(seed: string, offset: nat): string {
    seed + "_" + Decimal(offset)
  }

  lemma PrefixesDiffer(seed: string, a: nat, b: nat)
    requires PrefixAt(seed, a) == PrefixAt(seed, b)
    ensures a == b
  {
    assert PrefixAt(seed, a)[|seed| + 1..] == Decimal(a) && PrefixAt(seed, b)[|seed| + 1..] == Decimal(b);
    DecimalIsInjective(a, b);
  }

  /** `keypairs_for_range`, as account ids. */
  function Range(plan: Plan, start: nat, end: nat): (r: seq<Account>)
    requires start <= end
    ensures |r| == end - start
  {
    seq(end - start, i requires 0 <= i < end - start => Account(plan.prefix, start + i))
  }

  /** Every account the plans call for, in order. */
  function Planned(plans: seq<Plan>): seq<Account> {
    if plans == [] then [] else Planned(plans[..|plans| - 1]) + Range(plans[|plans| - 1], 0, plans[|plans| - 1].count)
  }

  lemma PlannedSnoc(plans: seq<Plan>, p: Plan)
    ensures Planned(plans + [p]) == Planned(plans) + Range(p, 0, p.count)
  {
  }

  /** Accounts planned so far carry prefixes of offsets below `offset`. */
  ghost predicate PrefixesBelow(seed: string, s: seq<Account>, offset: nat) {
    forall i :: 0 <= i < |s| ==> exists o: nat :: o < offset && s[i].prefix == PrefixAt(seed, o)
  }

  function Min(a: nat, b: nat): nat { if a < b then a else b }

  /** How many pieces of `size` it takes to hold `total`. */
  function Pieces(total: nat, size: nat): nat
    requires 0 < size
  {
    (total + size - 1) / size
  }

  /** Where piece `k` starts. */
  function Offset(k: nat, size: nat): nat {
    if k == 0 then 0 else Offset(k - 1, size) + size
  }

  lemma {:induction false} OffsetIs(k: nat, size: nat)
    ensures Offset(k, size) == k * size
  {
    if k > 0 {
      OffsetIs(k - 1, size);
      assert k * size == (k - 1) * size + size;
    }
  }

  lemma {:induction false} OffsetsGrow(j: nat, k: nat, size: nat)
    requires j <= k
    ensures Offset(j, size) <= Offset(k, size)
    decreases k
  {
    if j < k { OffsetsGrow(j, k - 1, size); }
  }

  /** `n` pieces are needed when the last starts before the end and ends at or behind it. */
  lemma PiecesIs(total: nat, size: nat, n: nat)
    requires 0 < size && total <= Offset(n, size) && (n > 0 ==> Offset(n - 1, size) < total)
    ensures Pieces(total, size) == n
  {
    OffsetIs(n, size);
    var over := Offset(n, size) - total;
    QuotientIs(total + size - 1, size, n, size - 1 - over);
  }

  /** Iteration `k`: as many accounts as allowed, named after the offset of its first one. */
  predicate IsPlan(total: nat, limit: nat, seed: string, k: nat, p: Plan) {
    Offset(k, limit) < total && p == Plan(Min(limit, total - Offset(k, limit)), PrefixAt(seed, Offset(k, limit)))
  }

  /** Plan `k` is named after the offset of its first account. */
  predicate NamedAfterOffset(seed: string, limit: nat, k: nat, p: Plan) {
    p.prefix == seed + "_" + Decimal(k * limit)
  }

  /** Every plan within the limit, and every one before the last at it. */
  ghost predicate AllFull(plans: seq<Plan>, limit: nat) {
    && (forall i :: 0 <= i < |plans| ==> plans[i].count <= limit)
    && (forall i :: 0 <= i < |plans| - 1 ==> plans[i].count == limit)
  }

  /** Plans cover exactly `total` accounts, none twice, in the fewest iterations: all but the last are full. */
  method BuildIterationPlans(total: nat, maxPerIteration: nat, seed: string) returns (plans: seq<Plan>)
    ensures |Planned(plans)| == total && NoDup(Planned(plans))
    ensures total == 0 ==> plans == [Plan(0, "")]
    ensures
      var limit := if maxPerIteration == 0 then 1 else maxPerIteration;
      && AllFull(plans, limit)
      && (total > 0 ==> |plans| == Pieces(total, limit))
      && (total > 0 ==> forall i :: 0 <= i < |plans| ==> NamedAfterOffset(seed, limit, i, plans[i]))
  {
    var limit := if maxPerIteration == 0 then 1 else maxPerIteration;
    plans := FillPlans(total, limit, seed);
    PlansAreFull(plans, total, limit, seed);
    if plans == [] {
      plans := [Plan(0, "")];
      assert plans[..0] == [] && Planned(plans) == [];
    }
  }

  /** The plans for the first `offset` accounts. */
  ghost predicate Filled(total: nat, limit: nat, seed: string, plans: seq<Plan>, offset: nat) {
    && |Planned(plans)| == offset == Min(total, Offset(|plans|, limit))
    && NoDup(Planned(plans)) && PrefixesBelow(seed, Planned(plans), offset)
    && forall i :: 0 <= i < |plans| ==> IsPlan(total, limit, seed, i, plans[i])
  }

  lemma FilledSnoc(total: nat, limit: nat, seed: string, plans: seq<Plan>, offset: nat, plan: Plan)
    requires 0 < limit && Filled(total, limit, seed, plans, offset) && offset < total
    requires plan == Plan(Min(limit, total - offset), PrefixAt(seed, offset))
    ensures Filled(total, limit, seed, plans + [plan], offset + plan.count)
  {
    FreshPrefix(seed, Planned(plans), plan, offset);
    PlannedSnoc(plans, plan);
    assert Offset(|plans| + 1, limit) == Offset(|plans|, limit) + limit;
    assert IsPlan(total, limit, seed, |plans|, plan);
  }

  method FillPlans(total: nat, limit: nat, seed: string) returns (plans: seq<Plan>)
    requires 0 < limit
    ensures Filled(total, limit, seed, plans, total)
  {
    plans := [];
    var offset, remaining := 0, total;
    while remaining > 0
      invariant 0 <= remaining && offset + remaining == total && Filled(total, limit, seed, plans, offset)
    {
      var take := if remaining < limit then remaining else limit;
      remaining := remaining - take;
      var plan := Plan(take, PrefixAt(seed, offset));
      FilledSnoc(total, limit, seed, plans, offset, plan);
      plans := plans + [plan];
      offset := offset + take;
    }
  }

  lemma PlansAreFull(plans: seq<Plan>, total: nat, limit: nat, seed: string)
    requires 0 < limit && total <= Offset(|plans|, limit)
    requires forall i :: 0 <= i < |plans| ==> IsPlan(total, limit, seed, i, plans[i])
    ensures |plans| == Pieces(total, limit) && AllFull(plans, limit)
    ensures forall i :: 0 <= i < |plans| ==> NamedAfterOffset(seed, limit, i, plans[i])
  {
    var n := |plans|;
    assert n == Pieces(total, limit) by {
      if n > 0 { assert IsPlan(total, limit, seed, n - 1, plans[n - 1]); }
      PiecesIs(total, limit, n);
    }
    forall i | 0 <= i < n
      ensures plans[i].count <= limit && (i < n - 1 ==> plans[i].count == limit)
    {
      assert IsPlan(total, limit, seed, i, plans[i]);
      if i < n - 1 {
        assert IsPlan(total, limit, seed, n - 1, plans[n - 1]);
        OffsetsGrow(i + 1, n - 1, limit);
      }
    }
    forall i | 0 <= i < n
      ensures NamedAfterOffset(seed, limit, i, plans[i])
    {
      PlanIsNamed(total, limit, seed, i, plans[i]);
    }
  }

  lemma PlanIsNamed(total: nat, limit: nat, seed: string, k: nat, p: Plan)
    requires IsPlan(total, limit, seed, k, p)
    ensures NamedAfterOffset(seed, limit, k, p)
  {
    OffsetIs(k, limit);
  }

  lemma FreshPrefix(seed: string, s: seq<Account>, plan: Plan, offset: nat)
    requires NoDup(s) && PrefixesBelow(seed, s, offset) && plan.prefix == PrefixAt(seed, offset) && 0 < plan.count
    ensures
      var t := s + Range(plan, 0, plan.count);
      NoDup(t) && PrefixesBelow(seed, t, offset + plan.count)
  {
    var r := Range(plan, 0, plan.count);
    forall x | x in s ensures x !in r {
      var i :| 0 <= i < |s| && s[i] == x;
      var o: nat :| o < offset && s[i].prefix == PrefixAt(seed, o);
      if x in r { PrefixesDiffer(seed, o, offset); }
    }
    NoDupConcat(s, r);
    var t := s + r;
    forall i | 0 <= i < |t| ensures exists o: nat :: o < offset + plan.count && t[i].prefix == PrefixAt(seed, o) {
      if i < |s| {
        var o: nat :| o < offset && s[i].prefix == PrefixAt(seed, o);
      }
    }
  }

  // ---------------------------------------------------------------- generator

  /** `chunks(AUTHORIZE_BATCH_SIZE)`. */
  function Chunks(s: seq<Account>): seq<seq<Account>>
    decreases |s|
  {
    if s == [] then []
    else if |s| <= AUTHORIZE_BATCH_SIZE then [s]
    else [s[..AUTHORIZE_BATCH_SIZE]] + Chunks(s[AUTHORIZE_BATCH_SIZE..])
  }

  lemma {:induction false} ChunksCover(s: seq<Account>)
    ensures Flatten(Chunks(s)) == s
    ensures forall c :: c in Chunks(s) ==> 0 < |c| <= AUTHORIZE_BATCH_SIZE
    ensures s != [] ==> Chunks(s) != []
    decreases |s|
  {
    if |s| > AUTHORIZE_BATCH_SIZE {
      ChunksCover(s[AUTHORIZE_BATCH_SIZE..]);
      assert Chunks(s)[1..] == Chunks(s[AUTHORIZE_BATCH_SIZE..]);
    } else if s != [] {
      assert Chunks(s)[1..] == [];
    }
  }

  lemma StretchOfRest(s: seq<Account>, size: nat, lo: nat, hi: nat)
    requires size <= |s| && lo <= hi <= |s| - size
    ensures s[size..][lo..hi] == s[size + lo..size + hi]
  {
  }

  /** Chunk `k` is the next batch-sized stretch; only the last one may be shorter. */
  lemma {:induction false} ChunkIs(s: seq<Account>, k: nat)
    requires k * AUTHORIZE_BATCH_SIZE < |s|
    ensures k < |Chunks(s)|
    ensures Chunks(s)[k] == s[k * AUTHORIZE_BATCH_SIZE..Min((k + 1) * AUTHORIZE_BATCH_SIZE, |s|)]
    decreases |s|
  {
    var size := AUTHORIZE_BATCH_SIZE;
    if k > 0 {
      var rest, lo, hi := s[size..], (k - 1) * size, Min(k * size, |s| - size);
      ChunkIs(rest, k - 1);
      StretchOfRest(s, size, lo, hi);
      assert Chunks(s)[k] == Chunks(rest)[k - 1] == rest[lo..hi];
    } else if |s| <= size {
      assert s[0..|s|] == s;
    }
  }

  lemma {:induction false} ChunkCount(s: seq<Account>)
    ensures |Chunks(s)| == Pieces(|s|, AUTHORIZE_BATCH_SIZE)
    decreases |s|
  {
    if |s| > AUTHORIZE_BATCH_SIZE { ChunkCount(s[AUTHORIZE_BATCH_SIZE..]); }
  }

  /** A slice of one plan: accounts `start` to `end`. */
  datatype Slice = Slice(plan: nat, start: nat, end: nat)

  ghost predicate SliceOk(plans: seq<Plan>, b: Slice) {
    b.plan < |plans| && b.start < b.end <= plans[b.plan].count && b.end - b.start <= AUTHORIZE_BATCH_SIZE
  }

  function SliceAccounts(plans: seq<Plan>, b: Slice): seq<Account>
    requires b.plan < |plans| && b.start <= b.end
  {
    Range(plans[b.plan], b.start, b.end)
  }

  ghost function AccountsOf(plans: seq<Plan>, bs: seq<Slice>): seq<Account>
    requires forall i :: 0 <= i < |bs| ==> SliceOk(plans, bs[i])
  {
    if |bs| == 0 then []
    else
      assert SliceOk(plans, bs[|bs| - 1]);
      AccountsOf(plans, bs[..|bs| - 1]) + SliceAccounts(plans, bs[|bs| - 1])
  }

  lemma AccountsOfSnoc(plans: seq<Plan>, bs: seq<Slice>, b: Slice)
    requires forall i :: 0 <= i < |bs| ==> SliceOk(plans, bs[i])
    requires SliceOk(plans, b)
    ensures AccountsOf(plans, bs + [b]) == AccountsOf(plans, bs) + SliceAccounts(plans, b)
  {
  }

  lemma RangeSplits(plan: Plan, a: nat, b: nat)
    requires a <= b
    ensures Range(plan, 0, b) == Range(plan, 0, a) + Range(plan, a, b)
  {
  }

  ghost predicate SlicesOk(plans: seq<Plan>, bs: seq<Slice>) {
    forall i :: 0 <= i < |bs| ==> SliceOk(plans, bs[i])
  }

  /** The first `n` batches of plan `i`: batch-sized stretches, only the last of a plan may be shorter. */
  function PlanSlices(i: nat, count: nat, n: nat): seq<Slice> {
    seq(n, k requires 0 <= k < n => Slice(i, k * AUTHORIZE_BATCH_SIZE, Min((k + 1) * AUTHORIZE_BATCH_SIZE, count)))
  }

  /** Every slice of a plan before its last is a full batch, and the last ends the plan. */
  lemma SlicesAreFull(i: nat, count: nat, k: nat)
    requires k < Pieces(count, AUTHORIZE_BATCH_SIZE)
    ensures
      var n := Pieces(count, AUTHORIZE_BATCH_SIZE);
      var b := PlanSlices(i, count, n)[k];
      && b.plan == i && b.start < b.end
      && (k < n - 1 ==> b.end - b.start == AUTHORIZE_BATCH_SIZE)
      && (k == n - 1 ==> b.end == count)
  {
  }

  function AllSlices(plans: seq<Plan>): seq<Slice> {
    if plans == [] then []
    else
      var i := |plans| - 1;
      AllSlices(plans[..i]) + PlanSlices(i, plans[i].count, Pieces(plans[i].count, AUTHORIZE_BATCH_SIZE))
  }

  lemma PlanSlicesSnoc(i: nat, count: nat, n: nat)
    ensures PlanSlices(i, count, n + 1) == PlanSlices(i, count, n)
         + [Slice(i, n * AUTHORIZE_BATCH_SIZE, Min((n + 1) * AUTHORIZE_BATCH_SIZE, count))]
  {
  }

  /** Full batches cover a plan's accounts in order. */
  lemma {:induction false} SlicesCover(plans: seq<Plan>, i: nat, before: seq<Slice>, n: nat)
    requires i < |plans| && SlicesOk(plans, before)
    requires n > 0 ==> (n - 1) * AUTHORIZE_BATCH_SIZE < plans[i].count
    ensures
      var count := plans[i].count;
      var bs := before + PlanSlices(i, count, n);
      && SlicesOk(plans, bs)
      && AccountsOf(plans, bs)
         == AccountsOf(plans, before) + Range(plans[i], 0, Min(n * AUTHORIZE_BATCH_SIZE, count))
  {
    var count := plans[i].count;
    if n == 0 {
      assert before + PlanSlices(i, count, 0) == before;
    } else {
      var start, end := (n - 1) * AUTHORIZE_BATCH_SIZE, Min(n * AUTHORIZE_BATCH_SIZE, count);
      var bs, b := before + PlanSlices(i, count, n - 1), Slice(i, start, end);
      SlicesCover(plans, i, before, n - 1);
      PlanSlicesSnoc(i, count, n - 1);
      assert before + PlanSlices(i, count, n) == bs + [b];
      OneMoreSlice(plans, before, bs, b);
    }
  }

  lemma OneMoreSlice(plans: seq<Plan>, before: seq<Slice>, bs: seq<Slice>, b: Slice)
    requires SlicesOk(plans, before) && SlicesOk(plans, bs) && SliceOk(plans, b)
    requires AccountsOf(plans, bs) == AccountsOf(plans, before) + Range(plans[b.plan], 0, b.start)
    ensures SlicesOk(plans, bs + [b])
    ensures AccountsOf(plans, bs + [b]) == AccountsOf(plans, before) + Range(plans[b.plan], 0, b.end)
  {
    var p := plans[b.plan];
    AccountsOfSnoc(plans, bs, b);
    RangeSplits(p, b.start, b.end);
    SnocAssociates(AccountsOf(plans, before), Range(p, 0, b.start), Range(p, b.start, b.end), Range(p, 0, b.end),
                   AccountsOf(plans, bs), AccountsOf(plans, bs + [b]));
  }

  /** The batches of one plan: consecutive, non-empty, and all but the last full. */
  method SlicePlan(plans: seq<Plan>, i: nat, before: seq<Slice>) returns (bs: seq<Slice>)
    requires i < |plans| && plans[i].count <= U32_MAX && SlicesOk(plans, before)
    ensures SlicesOk(plans, bs)
    ensures AccountsOf(plans, bs) == AccountsOf(plans, before) + Range(plans[i], 0, plans[i].count)
    ensures bs == before + PlanSlices(i, plans[i].count, Pieces(plans[i].count, AUTHORIZE_BATCH_SIZE))
  {
    bs := before;
    var start := 0;
    ghost var n, count := 0, plans[i].count;
    while start < plans[i].count
      invariant start == Min(n * AUTHORIZE_BATCH_SIZE, count) && bs == before + PlanSlices(i, count, n)
      invariant n > 0 ==> (n - 1) * AUTHORIZE_BATCH_SIZE < count
      decreases count - start
    {
      var limit := SatAdd(U32_MAX, start, AUTHORIZE_BATCH_SIZE);
      var end := if limit < plans[i].count then limit else plans[i].count;
      PlanSlicesSnoc(i, count, n);
      bs := bs + [Slice(i, start, end)];
      start := end;
      n := n + 1;
    }
    assert n == Pieces(count, AUTHORIZE_BATCH_SIZE);
    SlicesCover(plans, i, before, n);
  }

  /** The batch ranges, collected up front: they cover the planned accounts in order. */
  method CollectSlices(plans: seq<Plan>) returns (bs: seq<Slice>)
    requires forall i :: 0 <= i < |plans| ==> plans[i].count <= U32_MAX
    ensures SlicesOk(plans, bs) && AccountsOf(plans, bs) == Planned(plans) && bs == AllSlices(plans)
  {
    bs := [];
    for i := 0 to |plans|
      invariant SlicesOk(plans, bs) && AccountsOf(plans, bs) == Planned(plans[..i]) && bs == AllSlices(plans[..i])
    {
      PlannedSnoc(plans[..i], plans[i]);
      assert plans[..i + 1] == plans[..i] + [plans[i]] && plans[..i + 1][..i] == plans[..i];
      if plans[i].count == 0 {
        assert PlanSlices(i, 0, Pieces(0, AUTHORIZE_BATCH_SIZE)) == [];
        continue;
      }
      bs := SlicePlan(plans, i, bs);
    }
    assert plans[..|plans|] == plans;
  }

  // ---------------------------------------------------------------- the work stream

  function Stores(accounts: seq<Account>): (r: seq<Item>)
    ensures |r| == |accounts|
  {
    seq(|accounts|, i requires 0 <= i < |accounts| => Store(accounts[i]))
  }

  /** One batch on the stream: authorize it, wait, then its stores in whatever order they were signed. */
  ghost predicate IsBatch(accounts: seq<Account>, order: seq<Account>, items: seq<Item>) {
    multiset(order) == multiset(accounts) && items == BatchItems(accounts, order)
  }

  function BatchItems(accounts: seq<Account>, order: seq<Account>): seq<Item> {
    [Authorize(Chunks(accounts)), AwaitPendingAuth] + Stores(order)
  }

  /** Signed store items complete in any order. */
  method SignStores(accounts: seq<Account>) returns (order: seq<Account>)
    ensures multiset(order) == multiset(accounts)
  {
    order := accounts;
  }

  function Authorizes(item: Item): seq<Account> {
    if item.Authorize? then Flatten(item.batches) else []
  }

  function Stored(item: Item): seq<Account> {
    if item.Store? then [item.account] else []
  }

  function AuthorizedIn(items: seq<Item>): seq<Account> {
    if items == [] then []
    else AuthorizedIn(items[..|items| - 1]) + Authorizes(items[|items| - 1])
  }

  function StoredIn(items: seq<Item>): seq<Account> {
    if items == [] then []
    else StoredIn(items[..|items| - 1]) + Stored(items[|items| - 1])
  }

  lemma {:induction false} AuthorizedConcat(a: seq<Item>, b: seq<Item>)
    ensures AuthorizedIn(a + b) == AuthorizedIn(a) + AuthorizedIn(b)
  {
    if b == [] {
      assert a + b == a;
    } else {
      var c, r := b[..|b| - 1], a + b;
      AuthorizedConcat(a, c);
      assert r[..|r| - 1] == a + c && r[|r| - 1] == b[|b| - 1];
      SnocAssociates(AuthorizedIn(a), AuthorizedIn(c), Authorizes(b[|b| - 1]),
                     AuthorizedIn(b), AuthorizedIn(a + c), AuthorizedIn(r));
    }
  }

  lemma {:induction false} StoredConcat(a: seq<Item>, b: seq<Item>)
    ensures StoredIn(a + b) == StoredIn(a) + StoredIn(b)
  {
    if b == [] {
      assert a + b == a;
    } else {
      var c, r := b[..|b| - 1], a + b;
      StoredConcat(a, c);
      assert r[..|r| - 1] == a + c && r[|r| - 1] == b[|b| - 1];
      SnocAssociates(StoredIn(a), StoredIn(c), Stored(b[|b| - 1]), StoredIn(b), StoredIn(a + c), StoredIn(r));
    }
  }

  lemma {:induction false} StoresOnly(order: seq<Account>)
    ensures AuthorizedIn(Stores(order)) == [] && StoredIn(Stores(order)) == order
  {
    if order != [] {
      var rest := order[..|order| - 1];
      StoresOnly(rest);
      assert Stores(order)[..|order| - 1] == Stores(rest);
    }
  }

  lemma BatchContents(accounts: seq<Account>, order: seq<Account>, items: seq<Item>)
    requires IsBatch(accounts, order, items)
    ensures AuthorizedIn(items) == accounts && StoredIn(items) == order
  {
    HeadContents(Chunks(accounts));
    AuthorizedConcat([Authorize(Chunks(accounts)), AwaitPendingAuth], Stores(order));
    StoredConcat([Authorize(Chunks(accounts)), AwaitPendingAuth], Stores(order));
    StoresOnly(order);
    assert Flatten(Chunks(accounts)) == accounts by { ChunksCover(accounts); }
  }

  lemma HeadContents(batches: seq<seq<Account>>)
    ensures AuthorizedIn([Authorize(batches), AwaitPendingAuth]) == Flatten(batches)
    ensures StoredIn([Authorize(batches), AwaitPendingAuth]) == []
  {
    var head := [Authorize(batches), AwaitPendingAuth];
    assert head[..1] == [Authorize(batches)] && [Authorize(batches)][..0] == [];
    assert AuthorizedIn([Authorize(batches)]) == [] + Flatten(batches);
    assert StoredIn([Authorize(batches)]) == [] + [];
  }

  // ---------------------------------------------------------------- reader

  /**
   The reader's state. `awaited` holds the accounts whose authorization task was awaited; `ok` is
   false once two authorization tasks overlap or a store is dispatched before its authorization.
   */
  datatype Reader = Reader(
    pending: Option<seq<seq<Account>>>,
    awaited: set<Account>,
    dispatched: seq<Account>,
    ok: bool)

  const IDLE_READER := Reader(None, {}, [], true)

  ghost function Elements(s: seq<Account>): set<Account> {
    set a | a in s
  }

  ghost function Read(r: Reader, item: Item): Reader {
    match item
    case Authorize(batches) =>
      if batches == [] then r else r.(pending := Some(batches), ok := r.ok && r.pending.None?)
    case AwaitPendingAuth =>
      if r.pending.None? then r
      else r.(pending := None, awaited := r.awaited + Elements(Flatten(r.pending.value)))
    case Store(a) => r.(dispatched := r.dispatched + [a], ok := r.ok && a in r.awaited)
  }

  ghost function ReadAll(r: Reader, items: seq<Item>): Reader
    decreases |items|
  {
    if items == [] then r else ReadAll(Read(r, items[0]), items[1..])
  }

  lemma {:induction false} ReadConcat(r: Reader, a: seq<Item>, b: seq<Item>)
    ensures ReadAll(r, a + b) == ReadAll(ReadAll(r, a), b)
    decreases |a|
  {
    if a == [] {
      assert a + b == b;
    } else {
      ReadConcat(Read(r, a[0]), a[1..], b);
      assert (a + b)[1..] == a[1..] + b;
    }
  }

  lemma {:induction false} FailureSticks(r: Reader, items: seq<Item>)
    requires ReadAll(r, items).ok
    ensures r.ok
    decreases |items|
  {
    if items != [] { FailureSticks(Read(r, items[0]), items[1..]); }
  }

  /** A stream that reads safely reads safely up to any point where it is cut off. */
  lemma PrefixReadsSafely(r: Reader, items: seq<Item>, k: nat)
    requires k <= |items| && ReadAll(r, items).ok
    ensures ReadAll(r, items[..k]).ok
  {
    ReadConcat(r, items[..k], items[k..]);
    assert items[..k] + items[k..] == items;
    FailureSticks(ReadAll(r, items[..k]), items[k..]);
  }

  lemma {:induction false} StoresReadSafely(r: Reader, order: seq<Account>)
    requires r.ok && r.pending.None? && forall a :: a in order ==> a in r.awaited
    ensures ReadAll(r, Stores(order)) == r.(dispatched := r.dispatched + order)
    decreases |order|
  {
    if order != [] {
      var r1 := Read(r, Store(order[0]));
      StoresReadSafely(r1, order[1..]);
      assert Stores(order)[1..] == Stores(order[1..]);
      assert r.dispatched + [order[0]] + order[1..] == r.dispatched + order;
    }
  }

  /** Reading one batch from an idle reader: its stores are dispatched, each after its own authorization. */
  lemma BatchReadsSafely(r: Reader, accounts: seq<Account>, order: seq<Account>, items: seq<Item>)
    requires r.ok && r.pending.None? && accounts != [] && IsBatch(accounts, order, items)
    ensures
      var t := ReadAll(r, items);
      t.ok && t.pending.None? && t.dispatched == r.dispatched + order
  {
    ChunksCover(accounts);
    var auth, wait := Authorize(Chunks(accounts)), AwaitPendingAuth;
    var r1 := Read(r, auth);
    var r2 := Read(r1, wait);
    assert items[0] == auth && items[1..][0] == wait && items[1..][1..] == Stores(order);
    forall a | a in order ensures a in r2.awaited {
      assert a in multiset(order);
    }
    StoresReadSafely(r2, order);
  }

  // ---------------------------------------------------------------- generator and reader together

  /** Every authorization batch is non-empty and within the batch size. */
  ghost predicate BatchesBounded(items: seq<Item>) {
    forall i :: 0 <= i < |items| && items[i].Authorize? ==>
      forall c :: c in items[i].batches ==> 0 < |c| <= AUTHORIZE_BATCH_SIZE
  }

  lemma BatchIsBounded(accounts: seq<Account>, order: seq<Account>, items: seq<Item>)
    requires IsBatch(accounts, order, items)
    ensures BatchesBounded(items)
  {
    ChunksCover(accounts);
  }

  /** The stream the generator has sent: everything covered so far is authorized and stored once, and reads safely. */
  ghost predicate StreamOk(covered: seq<Account>, stream: seq<Item>) {
    && BatchesBounded(stream)
    && AuthorizedIn(stream) == covered
    && multiset(StoredIn(stream)) == multiset(covered)
    && ReadAll(IDLE_READER, stream).ok && ReadAll(IDLE_READER, stream).pending.None?
    && ReadAll(IDLE_READER, stream).dispatched == StoredIn(stream)
  }

  lemma ContentsGrow(stream: seq<Item>, accounts: seq<Account>, order: seq<Account>, items: seq<Item>)
    requires IsBatch(accounts, order, items)
    ensures AuthorizedIn(stream + items) == AuthorizedIn(stream) + accounts
    ensures StoredIn(stream + items) == StoredIn(stream) + order
  {
    AuthorizedConcat(stream, items);
    StoredConcat(stream, items);
    BatchContents(accounts, order, items);
  }

  lemma ReadsGrow(stream: seq<Item>, accounts: seq<Account>, order: seq<Account>, items: seq<Item>)
    requires accounts != [] && IsBatch(accounts, order, items)
    requires ReadAll(IDLE_READER, stream).ok && ReadAll(IDLE_READER, stream).pending.None?
    ensures
      var r, t := ReadAll(IDLE_READER, stream), ReadAll(IDLE_READER, stream + items);
      t.ok && t.pending.None? && t.dispatched == r.dispatched + order
  {
    ReadConcat(IDLE_READER, stream, items);
    BatchReadsSafely(ReadAll(IDLE_READER, stream), accounts, order, items);
  }

  lemma StreamGrows(covered: seq<Account>, stream: seq<Item>, accounts: seq<Account>, order: seq<Account>,
                    items: seq<Item>)
    requires StreamOk(covered, stream) && accounts != [] && IsBatch(accounts, order, items)
    ensures StreamOk(covered + accounts, stream + items)
  {
    ContentsGrow(stream, accounts, order, items);
    ReadsGrow(stream, accounts, order, items);
    BatchIsBounded(accounts, order, items);
  }

  lemma SliceAdds(plans: seq<Plan>, bs: seq<Slice>, i: nat)
    requires i < |bs| && SlicesOk(plans, bs)
    ensures SliceOk(plans, bs[i]) && SlicesOk(plans, bs[..i]) && SlicesOk(plans, bs[..i + 1])
    ensures AccountsOf(plans, bs[..i + 1]) == AccountsOf(plans, bs[..i]) + SliceAccounts(plans, bs[i])
  {
    AccountsOfSnoc(plans, bs[..i], bs[i]);
    assert bs[..i] + [bs[i]] == bs[..i + 1];
  }

  /** The whole stream, batch after batch; `orders` says how the stores of each batch came out of signing. */
  ghost function StreamOf(plans: seq<Plan>, bs: seq<Slice>, orders: seq<seq<Account>>): seq<Item>
    requires SlicesOk(plans, bs) && |orders| == |bs|
  {
    if |bs| == 0 then []
    else
      var n := |bs| - 1;
      assert SliceOk(plans, bs[n]);
      StreamOf(plans, bs[..n], orders[..n]) + BatchItems(SliceAccounts(plans, bs[n]), orders[n])
  }

  lemma StreamOfSnoc(plans: seq<Plan>, bs: seq<Slice>, i: nat, orders: seq<seq<Account>>, order: seq<Account>)
    requires i < |bs| && SlicesOk(plans, bs) && |orders| == i
    ensures SliceOk(plans, bs[i])
    ensures StreamOf(plans, bs[..i + 1], orders + [order])
         == StreamOf(plans, bs[..i], orders) + BatchItems(SliceAccounts(plans, bs[i]), order)
  {
    assert bs[..i + 1][..i] == bs[..i] && (orders + [order])[..i] == orders && bs[..i + 1][i] == bs[i];
  }

  method SignBatch(accounts: seq<Account>) returns (items: seq<Item>, ghost order: seq<Account>)
    ensures IsBatch(accounts, order, items)
  {
    var signed := SignStores(accounts);
    items, order := [Authorize(Chunks(accounts)), AwaitPendingAuth] + Stores(signed), signed;
  }

  /** Each order is its slice's accounts, rearranged. */
  ghost predicate Rearranged(plans: seq<Plan>, bs: seq<Slice>, orders: seq<seq<Account>>) {
    && |orders| == |bs|
    && forall i :: 0 <= i < |bs| ==>
         SliceOk(plans, bs[i]) && multiset(orders[i]) == multiset(SliceAccounts(plans, bs[i]))
  }

  lemma RearrangedSnoc(plans: seq<Plan>, bs: seq<Slice>, i: nat, orders: seq<seq<Account>>, order: seq<Account>)
    requires i < |bs| && SlicesOk(plans, bs) && Rearranged(plans, bs[..i], orders) && SliceOk(plans, bs[i])
    requires multiset(order) == multiset(SliceAccounts(plans, bs[i]))
    ensures Rearranged(plans, bs[..i + 1], orders + [order])
  {
    var cs, os := bs[..i + 1], orders + [order];
    forall j | 0 <= j < |cs|
      ensures SliceOk(plans, cs[j]) && multiset(os[j]) == multiset(SliceAccounts(plans, cs[j]))
    {
      if j < i { assert cs[j] == bs[..i][j]; }
    }
  }

  /** What has been sent once the first `i` slices are through. */
  ghost predicate Generated(plans: seq<Plan>, bs: seq<Slice>, i: nat, stream: seq<Item>, orders: seq<seq<Account>>) {
    && i <= |bs| && SlicesOk(plans, bs[..i]) && Rearranged(plans, bs[..i], orders)
    && StreamOk(AccountsOf(plans, bs[..i]), stream) && stream == StreamOf(plans, bs[..i], orders)
  }

  lemma GeneratedSnoc(plans: seq<Plan>, bs: seq<Slice>, i: nat, stream: seq<Item>, orders: seq<seq<Account>>,
                      order: seq<Account>, items: seq<Item>)
    requires i < |bs| && SlicesOk(plans, bs) && SliceOk(plans, bs[i]) && Generated(plans, bs, i, stream, orders)
    requires IsBatch(SliceAccounts(plans, bs[i]), order, items)
    ensures Generated(plans, bs, i + 1, stream + items, orders + [order])
  {
    SliceAdds(plans, bs, i);
    StreamGrows(AccountsOf(plans, bs[..i]), stream, SliceAccounts(plans, bs[i]), order, items);
    StreamOfSnoc(plans, bs, i, orders, order);
    RearrangedSnoc(plans, bs, i, orders, order);
  }

  lemma NothingGenerated(plans: seq<Plan>, bs: seq<Slice>)
    ensures Generated(plans, bs, 0, [], [])
  {
    assert bs[..0] == [];
  }

  lemma AllGenerated(plans: seq<Plan>, bs: seq<Slice>, stream: seq<Item>, orders: seq<seq<Account>>)
    requires Generated(plans, bs, |bs|, stream, orders)
    ensures SlicesOk(plans, bs) && Rearranged(plans, bs, orders)
    ensures StreamOk(AccountsOf(plans, bs), stream) && stream == StreamOf(plans, bs, orders)
  {
    assert bs[..|bs|] == bs;
  }

  /**
   The generator. Signing of the next batch is started before the current one is sent; a started
   task carries the slice it was given.
   */
  method GenerateWork(plans: seq<Plan>) returns (stream: seq<Item>, ghost orders: seq<seq<Account>>)
    requires forall i :: 0 <= i < |plans| ==> plans[i].count <= U32_MAX
    ensures StreamOk(Planned(plans), stream)
    ensures SlicesOk(plans, AllSlices(plans)) && Rearranged(plans, AllSlices(plans), orders)
    ensures stream == StreamOf(plans, AllSlices(plans), orders)
  {
    stream, orders := [], [];
    var bs := CollectSlices(plans);
    NothingGenerated(plans, bs);
    var pendingSign: Option<Slice> := None;
    for i := 0 to |bs|
      invariant Generated(plans, bs, i, stream, orders)
      invariant pendingSign.Some? ==> i < |bs| && pendingSign.value == bs[i]
    {
      assert SliceOk(plans, bs[i]);
      var signing := if pendingSign.Some? then pendingSign.value else bs[i];
      var items, order := SignBatch(SliceAccounts(plans, signing));
      pendingSign := if i + 1 < |bs| then Some(bs[i + 1]) else None;
      GeneratedSnoc(plans, bs, i, stream, orders, order, items);
      stream, orders := stream + items, orders + [order];
    }
    AllGenerated(plans, bs, stream, orders);
  }

  /**
   The reader loop, on any stream that reads safely. At most one authorization task is ever
   outstanding, and a store is dispatched only after the task covering its account was awaited.
   */
  method RunReader(items: seq<Item>) returns (dispatched: seq<Account>)
    requires ReadAll(IDLE_READER, items).ok
    ensures dispatched == ReadAll(IDLE_READER, items).dispatched
  {
    dispatched := [];
    var pendingAuth: Option<seq<seq<Account>>> := None;
    ghost var awaited: set<Account> := {};
    for i := 0 to |items|
      invariant ReadAll(IDLE_READER, items) == ReadAll(Reader(pendingAuth, awaited, dispatched, true), items[i..])
    {
      FailureSticks(Read(Reader(pendingAuth, awaited, dispatched, true), items[i]), items[i + 1..]);
      assert items[i..][1..] == items[i + 1..];
      match items[i] {
        case Authorize(batches) =>
          if batches != [] {
            assert pendingAuth.None?;
            pendingAuth := Some(batches);
          }
        case AwaitPendingAuth =>
          if pendingAuth.Some? {
            awaited := awaited + Elements(Flatten(pendingAuth.value));
            pendingAuth := None;
          }
        case Store(account) =>
          assert account in awaited;
          dispatched := dispatched + [account];
      }
    }
  }

  /** End to end: planned, generated and read to the end, every planned account is stored exactly once. */
  method RunPipeline(total: nat, maxPerIteration: nat, seed: string)
    returns (plans: seq<Plan>, dispatched: seq<Account>)
    requires total <= U32_MAX
    ensures multiset(dispatched) == multiset(Planned(plans))
    ensures AllFull(plans, if maxPerIteration == 0 then 1 else maxPerIteration)
    ensures |dispatched| == total && forall a :: multiset(dispatched)[a] <= 1
  {
    plans := BuildIterationPlans(total, maxPerIteration, seed);
    PlanCountsBounded(plans);
    var stream, orders := GenerateWork(plans);
    dispatched := RunReader(stream);
    NoDupCounts(Planned(plans));
    assert |multiset(dispatched)| == |multiset(Planned(plans))|;
  }

  lemma {:induction false} PlanCountsBounded(plans: seq<Plan>)
    ensures forall i :: 0 <= i < |plans| ==> plans[i].count <= |Planned(plans)|
  {
    if plans != [] { PlanCountsBounded(plans[..|plans| - 1]); }
  }

  lemma {:induction false} NoDupCounts<T>(s: seq<T>)
    requires NoDup(s)
    ensures forall x :: multiset(s)[x] <= 1
  {
    if s != [] {
      var t := s[..|s| - 1];
      NoDupCounts(t);
      assert s == t + [s[|s| - 1]];
      assert s[|s| - 1] !in t;
    }
  }
}
