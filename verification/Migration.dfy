/** The split migration: renewal storage moves from the storage pallet's prefixes to its own. */
module Migration {
  import opened Types
  import opened ByteStrings
  import opened RawStorage

  // ---------------------------------------------------------------- layouts and codecs

  const PREFIX_LEN: nat := 32
  const ACCOUNT_LEN: nat := 32
  const MAX_SINGLE_BLOCK_ENTRIES: nat := 5_000

  /** The storage prefixes involved: two-hash prefixes, all of one width and all different. */
  datatype Layout = Layout(
    oldAuto: Bytes, newAuto: Bytes,
    oldPending: Bytes, newPending: Bytes,
    oldUsed: Bytes, newUsed: Bytes)
  {
    ghost predicate Valid() {
      && |oldAuto| == |newAuto| == |oldPending| == |newPending| == |oldUsed| == |newUsed| == PREFIX_LEN
      && oldAuto != newAuto
      && newPending !in {oldPending, oldUsed} && newUsed !in {oldPending, oldUsed}
      && oldPending != oldUsed && newPending != newUsed
    }
  }

  /** Decoding ignores trailing bytes: an account, then two booleans. */
  predicate DecodesRenewal(raw: Bytes) {
    ACCOUNT_LEN + 2 <= |raw| && raw[ACCOUNT_LEN] <= 1 && raw[ACCOUNT_LEN + 1] <= 1
  }

  function EncodeBool(b: bool): Byte { if b then 1 else 0 }

  function EncodeRenewal(account: Bytes, recurring: bool, paid: bool): Bytes {
    account + [EncodeBool(recurring), EncodeBool(paid)]
  }

  /** The value to store under the new prefix: current layout as is, a bare account made recurring and unpaid. */
  function Reshape(raw: Bytes): Option<Bytes> {
    if DecodesRenewal(raw) then Some(raw)
    else if ACCOUNT_LEN <= |raw| then Some(EncodeRenewal(raw[..ACCOUNT_LEN], true, false))
    else None
  }

  // ---------------------------------------------------------------- what the migration does to the store

  function Suffix(k: Bytes): Bytes {
    if PREFIX_LEN <= |k| then k[PREFIX_LEN..] else []
  }

  function NewKey(l: Layout, k: Bytes): Bytes {
    l.newAuto + Suffix(k)
  }

  function OldKey(l: Layout, k: Bytes): Bytes {
    l.oldAuto + Suffix(k)
  }

  /** The store after the entries in `moved` were re-keyed and reshaped. */
  ghost function Moved(l: Layout, kv: KeyValues, moved: set<Bytes>): KeyValues
    requires forall k :: k in moved ==> k in kv && Extends(k, l.oldAuto) && Reshape(kv[k]).Some?
  {
    map k | k in (kv.Keys - moved) + (set m | m in moved :: NewKey(l, m)) ::
      if Extends(k, l.newAuto) && OldKey(l, k) in moved then Reshape(kv[OldKey(l, k)]).value
      else if k in kv then kv[k] else []
  }

  ghost function Movable(l: Layout, kv: KeyValues): set<Bytes> {
    set k | k in kv && Extends(k, l.oldAuto) && Reshape(kv[k]).Some?
  }

  function MoveValue(kv: KeyValues, from: Bytes, to: Bytes): KeyValues {
    if from in kv then kv[to := kv[from]] - {from} else kv
  }

  ghost function Relocate(l: Layout, kv: KeyValues): KeyValues {
    MoveValue(MoveValue(Moved(l, kv, Movable(l, kv)), l.oldPending, l.newPending), l.oldUsed, l.newUsed)
  }

  // ---------------------------------------------------------------- keys

  lemma KeysRoundTrip(l: Layout, k: Bytes)
    requires l.Valid()
    ensures Extends(k, l.oldAuto) ==> Extends(NewKey(l, k), l.newAuto) && OldKey(l, NewKey(l, k)) == k
    ensures Extends(k, l.newAuto) ==> Extends(OldKey(l, k), l.oldAuto) && NewKey(l, OldKey(l, k)) == k
    ensures !(Extends(k, l.oldAuto) && Extends(k, l.newAuto))
  {
  }

  /** Membership and value of `Moved`, key by key. */
  lemma MovedAt(l: Layout, kv: KeyValues, moved: set<Bytes>, k: Bytes)
    requires l.Valid()
    requires forall m :: m in moved ==> m in kv && Extends(m, l.oldAuto) && Reshape(kv[m]).Some?
    ensures
      var r := Moved(l, kv, moved);
      if Extends(k, l.newAuto) && OldKey(l, k) in moved
      then k in r && r[k] == Reshape(kv[OldKey(l, k)]).value
      else (k in r <==> k in kv && k !in moved) && (k in r ==> r[k] == kv[k])
  {
    KeysRoundTrip(l, k);
    forall m | m in moved ensures NewKey(l, m) == k ==> Extends(k, l.newAuto) && OldKey(l, k) == m {
      KeysRoundTrip(l, m);
    }
    if Extends(k, l.newAuto) && OldKey(l, k) in moved {
      assert NewKey(l, OldKey(l, k)) == k;
    }
  }

  /** Moving one more entry is a write under the new prefix and a clear under the old. */
  lemma MoveOne(l: Layout, kv: KeyValues, moved: set<Bytes>, key: Bytes)
    requires l.Valid()
    requires forall m :: m in moved ==> m in kv && Extends(m, l.oldAuto) && Reshape(kv[m]).Some?
    requires key in kv && key !in moved && Extends(key, l.oldAuto) && Reshape(kv[key]).Some?
    ensures Moved(l, kv, moved + {key}) == Moved(l, kv, moved)[NewKey(l, key) := Reshape(kv[key]).value] - {key}
  {
    var a, b := Moved(l, kv, moved + {key}), Moved(l, kv, moved)[NewKey(l, key) := Reshape(kv[key]).value] - {key};
    KeysRoundTrip(l, key);
    forall k
      ensures k in a <==> k in b
      ensures k in a ==> a[k] == b[k]
    {
      MovedAt(l, kv, moved, k);
      MovedAt(l, kv, moved + {key}, k);
      KeysRoundTrip(l, k);
    }
  }

  // ---------------------------------------------------------------- the upgrade

  datatype Progress = Progress(visited: nat, moved: nat)

  /** One scanned entry: carried over, reshaped, or skipped when it does not decode. */
  method MoveEntry(store: Store, l: Layout, key: Bytes) returns (moved: bool)
    requires l.Valid() && key in store.kv && Extends(key, l.oldAuto)
    modifies store
    ensures moved == Reshape(old(store.kv)[key]).Some?
    ensures store.kv == if moved then old(store.kv)[NewKey(l, key) := Reshape(old(store.kv)[key]).value] - {key}
                        else old(store.kv)
    ensures store.readCount == old(store.readCount) + 1
    ensures store.writeCount == old(store.writeCount) + if moved then 2 else 0
  {
    var raw := store.Get(key);
    var value := Reshape(raw.value);
    if value.None? { return false; }
    store.Set(NewKey(l, key), value.value);
    store.Clear(key);
    return true;
  }

  /** The `AutoRenewals` scan: it writes and clears the store that `next_key` is walking. */
  method MoveAutoRenewals(store: Store, l: Layout) returns (p: Progress)
    requires l.Valid()
    modifies store
    ensures store.kv == Moved(l, old(store.kv), Movable(l, old(store.kv)))
    ensures p.visited == |Under(old(store.kv), l.oldAuto)| && p.moved == |Movable(l, old(store.kv))|
    ensures store.readCount == old(store.readCount) + 2 * p.visited + 1
    ensures store.writeCount == old(store.writeCount) + 2 * p.moved
  {
    ghost var kv0 := store.kv;
    var visited, moved := 0, 0;
    var previous := l.oldAuto;
    NothingPassed(kv0, l.oldAuto);
    NothingMoved(l, kv0);
    var next := store.NextKey(previous);
    while next.Some? && StartsWith(next.value, l.oldAuto)
      invariant StartsWith(previous, l.oldAuto) && IsNext(store.kv, previous, next)
      invariant Scanned(l, kv0, previous, store.kv, visited, moved)
      invariant store.readCount == old(store.readCount) + 2 * visited + 1
      invariant store.writeCount == old(store.writeCount) + 2 * moved
      decreases |Under(kv0, l.oldAuto) - Passed(kv0, l.oldAuto, previous)|
    {
      var m := VisitEntry(store, l, previous, next.value, kv0, visited, moved);
      previous := next.value;
      visited := visited + 1;
      if m { moved := moved + 1; }
      next := store.NextKey(previous);
    }
    ScanEnds(l, kv0, previous, store.kv, next);
    p := Progress(visited, moved);
  }

  /** The body of the scan: the ghost arguments name the original store and the counts so far. */
  method VisitEntry(store: Store, l: Layout, ghost previous: Bytes, key: Bytes, ghost kv0: KeyValues,
                    ghost visited: nat, ghost moved: nat)
    returns (m: bool)
    requires l.Valid() && StartsWith(previous, l.oldAuto) && StartsWith(key, l.oldAuto)
    requires IsNext(store.kv, previous, Some(key)) && Scanned(l, kv0, previous, store.kv, visited, moved)
    modifies store
    ensures Scanned(l, kv0, key, store.kv, visited + 1, moved + if m then 1 else 0)
    ensures |Under(kv0, l.oldAuto) - Passed(kv0, l.oldAuto, key)|
          < |Under(kv0, l.oldAuto) - Passed(kv0, l.oldAuto, previous)|
    ensures store.readCount == old(store.readCount) + 1
    ensures store.writeCount == old(store.writeCount) + if m then 2 else 0
  {
    ScanMoves(l, kv0, previous, store.kv, Some(key));
    m := MoveEntry(store, l, key);
  }

  /** A scan standing at `previous` has visited and moved everything up to there. */
  ghost predicate Scanned(l: Layout, kv0: KeyValues, previous: Bytes, kv: KeyValues, visited: nat, moved: nat) {
    && kv == Moved(l, kv0, MovablePassed(l, kv0, previous))
    && visited == |Passed(kv0, l.oldAuto, previous)| && moved == |MovablePassed(l, kv0, previous)|
  }

  /** The step of the scan from `previous` to the next old key. */
  lemma ScanMoves(l: Layout, kv0: KeyValues, previous: Bytes, kv: KeyValues, next: Option<Bytes>)
    requires l.Valid() && StartsWith(previous, l.oldAuto) && kv == Moved(l, kv0, MovablePassed(l, kv0, previous))
    requires IsNext(kv, previous, next) && next.Some? && StartsWith(next.value, l.oldAuto)
    ensures
      var key := next.value;
      && key in kv && Extends(key, l.oldAuto) && key in kv0 && kv[key] == kv0[key]
      && |Passed(kv0, l.oldAuto, key)| == |Passed(kv0, l.oldAuto, previous)| + 1
      && |Under(kv0, l.oldAuto) - Passed(kv0, l.oldAuto, key)|
         < |Under(kv0, l.oldAuto) - Passed(kv0, l.oldAuto, previous)|
      && |MovablePassed(l, kv0, key)| == |MovablePassed(l, kv0, previous)| + (if Reshape(kv[key]).Some? then 1 else 0)
      && Moved(l, kv0, MovablePassed(l, kv0, key))
         == if Reshape(kv[key]).Some? then kv[NewKey(l, key) := Reshape(kv[key]).value] - {key} else kv
  {
    var key := next.value;
    var done := MovablePassed(l, kv0, previous);
    ScanSeesOldKeys(l, kv0, previous, kv);
    ScanStep(kv0, kv, l.oldAuto, previous, next);
    MovedAt(l, kv0, done, key);
    KeysRoundTrip(l, key);
    PassedGrows(l, kv0, previous, key);
    var left := Under(kv0, l.oldAuto) - Passed(kv0, l.oldAuto, previous);
    assert key in left && Under(kv0, l.oldAuto) - Passed(kv0, l.oldAuto, key) == left - {key};
    if Reshape(kv[key]).Some? {
      MoveOne(l, kv0, done, key);
    } else {
      assert MovablePassed(l, kv0, key) == done;
    }
  }

  lemma ScanEnds(l: Layout, kv0: KeyValues, previous: Bytes, kv: KeyValues, next: Option<Bytes>)
    requires l.Valid() && StartsWith(previous, l.oldAuto) && kv == Moved(l, kv0, MovablePassed(l, kv0, previous))
    requires IsNext(kv, previous, next) && !(next.Some? && StartsWith(next.value, l.oldAuto))
    ensures Passed(kv0, l.oldAuto, previous) == Under(kv0, l.oldAuto)
    ensures MovablePassed(l, kv0, previous) == Movable(l, kv0)
  {
    ScanSeesOldKeys(l, kv0, previous, kv);
    ScanStep(kv0, kv, l.oldAuto, previous, next);
  }

  ghost function MovablePassed(l: Layout, kv: KeyValues, previous: Bytes): set<Bytes> {
    set k | k in Passed(kv, l.oldAuto, previous) && Reshape(kv[k]).Some?
  }

  lemma NothingMoved(l: Layout, kv: KeyValues)
    ensures Moved(l, kv, {}) == kv
  {
  }

  lemma PassedGrows(l: Layout, kv: KeyValues, previous: Bytes, key: Bytes)
    requires key in kv && Passed(kv, l.oldAuto, key) == Passed(kv, l.oldAuto, previous) + {key}
    ensures MovablePassed(l, kv, key)
         == MovablePassed(l, kv, previous) + if Reshape(kv[key]).Some? then {key} else {}
  {
  }

  /** Ahead of the scan the store still holds exactly the old entries: moves only write under the new prefix. */
  lemma ScanSeesOldKeys(l: Layout, kv0: KeyValues, previous: Bytes, kv: KeyValues)
    requires l.Valid() && kv == Moved(l, kv0, MovablePassed(l, kv0, previous))
    ensures forall k :: Extends(k, l.oldAuto) && Less(previous, k) ==> (k in kv <==> k in kv0)
  {
  }

  method MoveStorageValue(store: Store, from: Bytes, to: Bytes) returns (n: nat)
    requires from != to
    modifies store
    ensures store.kv == MoveValue(old(store.kv), from, to)
    ensures n == if from in old(store.kv) then 1 else 0
    ensures store.readCount == old(store.readCount) + 1 && store.writeCount == old(store.writeCount) + 2 * n
  {
    n := 0;
    var raw := store.Get(from);
    if raw.Some? {
      store.Set(to, raw.value);
      store.Clear(from);
      n := 1;
    }
  }

  /** `on_runtime_upgrade`: the store is relocated, and the returned weight counts exactly the accesses made. */
  method OnRuntimeUpgrade(store: Store, l: Layout) returns (readWeight: nat, writeWeight: nat)
    requires l.Valid()
    modifies store
    ensures store.kv == Relocate(l, old(store.kv))
    ensures store.readCount == old(store.readCount) + readWeight
    ensures store.writeCount == old(store.writeCount) + writeWeight
  {
    var p := MoveAutoRenewals(store, l);
    var pendingMoved := MoveStorageValue(store, l.oldPending, l.newPending);
    var usedMoved := MoveStorageValue(store, l.oldUsed, l.newUsed);
    readWeight := p.visited * 2 + 3;
    writeWeight := (p.moved + (pendingMoved + usedMoved)) * 2;
  }

  // ---------------------------------------------------------------- what the migration guarantees

  /** Every value stored under the new prefix decodes in the current layout; current values keep their bytes. */
  lemma ReshapeDecodes(raw: Bytes)
    ensures Reshape(raw).Some? ==> DecodesRenewal(Reshape(raw).value)
    ensures DecodesRenewal(raw) ==> Reshape(raw) == Some(raw)
    ensures Reshape(raw).Some? ==> Reshape(raw).value[..ACCOUNT_LEN] == raw[..ACCOUNT_LEN]
    ensures Reshape(raw).Some? && !DecodesRenewal(raw) ==> Reshape(raw).value[ACCOUNT_LEN..] == [1, 0]
    ensures Reshape(raw).None? <==> |raw| < ACCOUNT_LEN
  {
  }

  /** A bare account becomes recurring and unpaid. */
  lemma BareAccountIsRebuilt(raw: Bytes)
    requires |raw| == ACCOUNT_LEN
    ensures Reshape(raw) == Some(raw + [1, 0])
  {
    assert raw[..ACCOUNT_LEN] == raw;
  }

  /** Exactly the encodings of a registration, trailing bytes allowed, are carried over as they are. */
  lemma KeptIffEncoded(raw: Bytes)
    ensures Reshape(raw) == Some(raw) <==>
      exists account: Bytes, recurring, paid, tail ::
        |account| == ACCOUNT_LEN && raw == EncodeRenewal(account, recurring, paid) + tail
  {
    if Reshape(raw) == Some(raw) {
      var account, tail := raw[..ACCOUNT_LEN], raw[ACCOUNT_LEN + 2..];
      var recurring, paid := raw[ACCOUNT_LEN] == 1, raw[ACCOUNT_LEN + 1] == 1;
      assert raw == EncodeRenewal(account, recurring, paid) + tail;
    }
    if account: Bytes, recurring, paid, tail :|
      |account| == ACCOUNT_LEN && raw == EncodeRenewal(account, recurring, paid) + tail
    {
      assert raw[ACCOUNT_LEN] == EncodeBool(recurring) && raw[ACCOUNT_LEN + 1] == EncodeBool(paid);
    }
  }

  /** The two single values, key by key. */
  lemma ValuesMovedAt(l: Layout, m: KeyValues, k: Bytes)
    requires l.Valid()
    ensures
      var r := MoveValue(MoveValue(m, l.oldPending, l.newPending), l.oldUsed, l.newUsed);
      if k == l.oldPending || k == l.oldUsed then k !in r
      else if k == l.newPending && l.oldPending in m then k in r && r[k] == m[l.oldPending]
      else if k == l.newUsed && l.oldUsed in m then k in r && r[k] == m[l.oldUsed]
      else (k in r <==> k in m) && (k in r ==> r[k] == m[k])
  {
  }

  /** Where every key of the store ends up. */
  lemma RelocatedAt(l: Layout, kv: KeyValues, k: Bytes)
    requires l.Valid()
    ensures
      var r := Relocate(l, kv);
      if k == l.oldPending || k == l.oldUsed then k !in r
      else if k == l.newPending && l.oldPending in kv then k in r && r[k] == kv[l.oldPending]
      else if k == l.newUsed && l.oldUsed in kv then k in r && r[k] == kv[l.oldUsed]
      else if Extends(k, l.newAuto) && OldKey(l, k) in Movable(l, kv)
      then k in r && r[k] == Reshape(kv[OldKey(l, k)]).value
      else (k in r <==> k in kv && k !in Movable(l, kv)) && (k in r ==> r[k] == kv[k])
  {
    var movable := Movable(l, kv);
    ValuesMovedAt(l, Moved(l, kv, movable), k);
    MovedAt(l, kv, movable, k);
    MovedAt(l, kv, movable, l.oldPending);
    MovedAt(l, kv, movable, l.oldUsed);
  }

  /** Every bare account under the old prefix ends under the new one, same suffix, rebuilt as a full registration. */
  lemma BareAccountsAreRebuilt(l: Layout, kv: KeyValues, suffix: Bytes)
    requires l.Valid() && suffix != [] && l.oldAuto + suffix in kv && |kv[l.oldAuto + suffix]| == ACCOUNT_LEN
    ensures
      var r := Relocate(l, kv);
      && l.oldAuto + suffix !in r && l.newAuto + suffix in r
      && r[l.newAuto + suffix] == kv[l.oldAuto + suffix] + [1, 0]
  {
    var k := l.oldAuto + suffix;
    assert k[..|l.oldAuto|] == l.oldAuto && k[PREFIX_LEN..] == suffix;
    assert (l.newAuto + suffix)[..|l.newAuto|] == l.newAuto && NewKey(l, k) == l.newAuto + suffix;
    BareAccountIsRebuilt(kv[k]);
    KeysRoundTrip(l, k);
    RelocatedAt(l, kv, k);
    RelocatedAt(l, kv, NewKey(l, k));
  }

  /** Every current value under the old prefix ends under the new one, same suffix, same bytes. */
  lemma CurrentValuesAreKept(l: Layout, kv: KeyValues, suffix: Bytes, account: Bytes, recurring: bool, paid: bool)
    requires l.Valid() && suffix != [] && |account| == ACCOUNT_LEN
    requires l.oldAuto + suffix in kv && kv[l.oldAuto + suffix] == EncodeRenewal(account, recurring, paid)
    ensures
      var r := Relocate(l, kv);
      && l.oldAuto + suffix !in r && l.newAuto + suffix in r
      && r[l.newAuto + suffix] == EncodeRenewal(account, recurring, paid)
  {
    var k := l.oldAuto + suffix;
    assert k[..|l.oldAuto|] == l.oldAuto && k[PREFIX_LEN..] == suffix;
    assert (l.newAuto + suffix)[..|l.newAuto|] == l.newAuto && NewKey(l, k) == l.newAuto + suffix;
    assert kv[k] == EncodeRenewal(account, recurring, paid) + [];
    KeptIffEncoded(kv[k]);
    KeysRoundTrip(l, k);
    RelocatedAt(l, kv, k);
    RelocatedAt(l, kv, NewKey(l, k));
  }

  /** A second run changes nothing. */
  lemma RelocateIsIdempotent(l: Layout, kv: KeyValues)
    requires l.Valid()
    ensures Relocate(l, Relocate(l, kv)) == Relocate(l, kv)
  {
    var r := Relocate(l, kv);
    forall k | Extends(k, l.oldAuto) ensures k !in Movable(l, r) {
      RelocatedAt(l, kv, k);
      KeysRoundTrip(l, k);
    }
    assert Movable(l, r) == {};
    NothingMoved(l, r);
    RelocatedAt(l, kv, l.oldPending);
    RelocatedAt(l, kv, l.oldUsed);
  }

  // ---------------------------------------------------------------- the try-runtime checks

  function DecodeU64(raw: Bytes): Option<nat> {
    if |raw| < 8 then None else Some(FromLe(raw[..8]))
  }

  /** A counter is read back from its eight bytes, and from nothing shorter. */
  lemma CounterDecodes(n: nat, tail: Bytes, short: Bytes)
    requires n <= U64_MAX && |short| < 8
    ensures DecodeU64(ToLe(n, 8) + tail) == Some(n) && DecodeU64(short).None?
  {
    assert (ToLe(n, 8) + tail)[..8] == ToLe(n, 8);
    U64IsEightBytes();
    LeRoundTrip(n, 8);
  }

  function Lookup(kv: KeyValues, k: Bytes): Option<Bytes> {
    if k in kv then Some(kv[k]) else None
  }

  function DecodedUsed(raw: Option<Bytes>): Option<nat> {
    if raw.Some? then DecodeU64(raw.value) else None
  }

  /** What `pre_upgrade` captures. */
  datatype PreState = PreState(renewals: nat, relocated: nat, used: Option<nat>, pending: Option<Bytes>)

  ghost function Captured(l: Layout, kv: KeyValues): PreState {
    PreState(|Under(kv, l.oldAuto)|, |Under(kv, l.newAuto)|, DecodedUsed(Lookup(kv, l.oldUsed)),
             Lookup(kv, l.oldPending))
  }

  /** `pre_upgrade`: refuses a collection too large for one block. */
  method PreUpgrade(store: Store, l: Layout) returns (r: Option<PreState>)
    requires l.Valid()
    modifies store`readCount
    ensures r.Some? <==> |Under(store.kv, l.oldAuto)| <= MAX_SINGLE_BLOCK_ENTRIES
    ensures r.Some? ==> r.value == Captured(l, store.kv)
  {
    var renewals := CountKeys(store, l.oldAuto);
    var relocated := CountKeys(store, l.newAuto);
    var used := store.Get(l.oldUsed);
    var pending := store.Get(l.oldPending);
    if renewals > MAX_SINGLE_BLOCK_ENTRIES { return None; }
    return Some(PreState(renewals, relocated, DecodedUsed(used), pending));
  }

  /** Every entry under the new prefix decodes in the current layout. */
  ghost predicate AllCurrent(l: Layout, kv: KeyValues) {
    forall k :: k in Under(kv, l.newAuto) ==> DecodesRenewal(kv[k])
  }

  /** The checks of `post_upgrade` on the re-keyed entries. */
  ghost predicate EntryChecks(l: Layout, pre: PreState, kv: KeyValues) {
    && AllCurrent(l, kv)
    && |Under(kv, l.newAuto)| == pre.renewals + pre.relocated
    && Under(kv, l.oldAuto) == {}
  }

  /** The checks of `post_upgrade` on the two single values. */
  ghost predicate ValueChecks(l: Layout, pre: PreState, kv: KeyValues) {
    && (pre.used.Some? ==>
          var now := DecodedUsed(Lookup(kv, l.newUsed));
          (if now.Some? then now.value else 0) == pre.used.value)
    && l.oldUsed !in kv
    && Lookup(kv, l.newPending) == pre.pending
    && l.oldPending !in kv
  }

  ghost predicate EntriesClean(l: Layout, kv: KeyValues) {
    AllMove(l, kv) && AllCurrent(l, kv)
  }

  /** The keys under the new prefix afterwards: those that were there, and the re-keyed ones. */
  lemma RelocatedKeys(l: Layout, kv: KeyValues)
    requires l.Valid()
    ensures Under(Relocate(l, kv), l.newAuto)
         == Under(kv, l.newAuto) + (set k | k in Movable(l, kv) :: NewKey(l, k))
    ensures Under(Relocate(l, kv), l.oldAuto) == Under(kv, l.oldAuto) - Movable(l, kv)
  {
    var r := Relocate(l, kv);
    forall k
      ensures k in Under(r, l.newAuto) <==>
        k in Under(kv, l.newAuto) || k in set m | m in Movable(l, kv) :: NewKey(l, m)
      ensures k in Under(r, l.oldAuto) <==> k in Under(kv, l.oldAuto) - Movable(l, kv)
    {
      RelocatedAt(l, kv, k);
      KeysRoundTrip(l, k);
      if m :| m in Movable(l, kv) && NewKey(l, m) == k {
        KeysRoundTrip(l, m);
      }
      if Extends(k, l.newAuto) && OldKey(l, k) in Movable(l, kv) {
        assert NewKey(l, OldKey(l, k)) == k;
      }
    }
  }

  lemma {:induction false} ImageSize(l: Layout, ks: set<Bytes>)
    requires l.Valid() && forall k :: k in ks ==> Extends(k, l.oldAuto)
    ensures |set k | k in ks :: NewKey(l, k)| == |ks|
  {
    if ks != {} {
      var x :| x in ks;
      var rest := set k | k in ks - {x} :: NewKey(l, k);
      ImageSize(l, ks - {x});
      forall k | k in ks - {x} ensures NewKey(l, k) != NewKey(l, x) {
        KeysRoundTrip(l, k);
        KeysRoundTrip(l, x);
      }
      assert (set k | k in ks :: NewKey(l, k)) == rest + {NewKey(l, x)};
    }
  }

  /** Every old entry decodes and none would land on an existing key. */
  ghost predicate AllMove(l: Layout, kv: KeyValues) {
    forall k :: k in Under(kv, l.oldAuto) ==> Reshape(kv[k]).Some? && NewKey(l, k) !in kv
  }

  /** The count check holds exactly when every old entry moved and none landed on an existing key. */
  lemma CountCheckIff(l: Layout, kv: KeyValues, after: set<Bytes>)
    requires l.Valid() && after == Under(kv, l.newAuto) + (set k | k in Movable(l, kv) :: NewKey(l, k))
    ensures |after| == |Under(kv, l.oldAuto)| + |Under(kv, l.newAuto)| <==> AllMove(l, kv)
  {
    var movable := Movable(l, kv);
    var image := set k | k in movable :: NewKey(l, k);
    ImageSize(l, movable);
    ReachesFullCountIff(Under(kv, l.oldAuto), movable, Under(kv, l.newAuto), image);
    DisjointIff(l, kv, movable);
    AllDecodeIff(l, kv);
  }

  lemma AllDecodeIff(l: Layout, kv: KeyValues)
    ensures Movable(l, kv) == Under(kv, l.oldAuto) <==> forall k :: k in Under(kv, l.oldAuto) ==> Reshape(kv[k]).Some?
  {
  }

  lemma DisjointIff(l: Layout, kv: KeyValues, ks: set<Bytes>)
    requires l.Valid() && forall k :: k in ks ==> Extends(k, l.oldAuto)
    ensures Under(kv, l.newAuto) !! (set k | k in ks :: NewKey(l, k)) <==> forall k :: k in ks ==> NewKey(l, k) !in kv
  {
    forall k | k in ks ensures Extends(NewKey(l, k), l.newAuto) {
      KeysRoundTrip(l, k);
    }
    if k :| k in ks && NewKey(l, k) in kv {
      assert NewKey(l, k) in Under(kv, l.newAuto) && NewKey(l, k) in set m | m in ks :: NewKey(l, m);
    }
  }

  lemma ReachesFullCountIff<T>(all: set<T>, part: set<T>, a: set<T>, image: set<T>)
    requires part <= all && |image| == |part|
    ensures |a + image| == |all| + |a| <==> part == all && a !! image
  {
    UnionSize(a, image);
    SubsetSize(part, all);
    if part != all {
      var x :| x in all - part;
    }
    if a !! image {
      assert a * image == {};
    } else {
      var x :| x in a && x in image;
      assert x in a * image;
    }
  }

  lemma UnionSize<T>(a: set<T>, b: set<T>)
    ensures |a + b| == |a| + |b| - |a * b|
  {
  }

  lemma SubsetSize<T>(a: set<T>, b: set<T>)
    requires a <= b
    ensures |a| == |b| - |b - a|
  {
  }

  lemma ValueChecksIff(l: Layout, kv: KeyValues)
    requires l.Valid()
    ensures ValueChecks(l, Captured(l, kv), Relocate(l, kv)) <==> l.oldPending in kv || l.newPending !in kv
  {
    RelocatedAt(l, kv, l.oldUsed);
    RelocatedAt(l, kv, l.oldPending);
    RelocatedAt(l, kv, l.newUsed);
    RelocatedAt(l, kv, l.newPending);
  }

  /** With nothing overwritten, the new entries all decode exactly when those already there did. */
  lemma NewEntriesDecodeIff(l: Layout, kv: KeyValues)
    requires l.Valid() && AllMove(l, kv)
    ensures AllCurrent(l, Relocate(l, kv)) <==> AllCurrent(l, kv)
  {
    var r := Relocate(l, kv);
    RelocatedKeys(l, kv);
    forall k | k in Under(r, l.newAuto)
      ensures k in kv ==> r[k] == kv[k]
      ensures k !in kv ==> DecodesRenewal(r[k])
    {
      RelocatedAt(l, kv, k);
      KeysRoundTrip(l, k);
      if OldKey(l, k) in Movable(l, kv) {
        ReshapeDecodes(kv[OldKey(l, k)]);
      }
    }
  }

  lemma EntryChecksIff(l: Layout, kv: KeyValues, pre: PreState, r: KeyValues)
    requires l.Valid() && pre.renewals == |Under(kv, l.oldAuto)| && pre.relocated == |Under(kv, l.newAuto)|
    requires Under(r, l.newAuto) == Under(kv, l.newAuto) + (set k | k in Movable(l, kv) :: NewKey(l, k))
    requires Under(r, l.oldAuto) == Under(kv, l.oldAuto) - Movable(l, kv)
    requires AllMove(l, kv) ==> (AllCurrent(l, r) <==> AllCurrent(l, kv))
    ensures EntryChecks(l, pre, r) <==> EntriesClean(l, kv)
  {
    CountCheckIff(l, kv, Under(r, l.newAuto));
    if AllMove(l, kv) {
      AllDecodeIff(l, kv);
    }
  }

  /**
   `post_upgrade` accepts the relocated store if and only if every old entry decodes and no such
   suffix was already present under the new prefix, every entry already there decodes, and a
   pending queue under the new key was not left over without one under the old key.
   */
  lemma PostUpgradeAcceptsIff(l: Layout, kv: KeyValues)
    requires l.Valid()
    ensures EntryChecks(l, Captured(l, kv), Relocate(l, kv)) && ValueChecks(l, Captured(l, kv), Relocate(l, kv))
      <==> EntriesClean(l, kv) && (l.oldPending in kv || l.newPending !in kv)
  {
    RelocatedKeys(l, kv);
    if AllMove(l, kv) { NewEntriesDecodeIff(l, kv); }
    EntryChecksIff(l, kv, Captured(l, kv), Relocate(l, kv));
    ValueChecksIff(l, kv);
  }

  /** What acceptance means of any store: nothing left under an old key, and every new entry a full registration. */
  lemma AcceptedStoreIsMoved(l: Layout, pre: PreState, kv: KeyValues, k: Bytes)
    requires l.Valid() && EntryChecks(l, pre, kv) && ValueChecks(l, pre, kv) && k in kv
    ensures k != l.oldPending && k != l.oldUsed && !(|k| > PREFIX_LEN && k[..PREFIX_LEN] == l.oldAuto)
    ensures |k| > PREFIX_LEN && k[..PREFIX_LEN] == l.newAuto ==> Reshape(kv[k]) == Some(kv[k])
    ensures pre.pending == if l.newPending in kv then Some(kv[l.newPending]) else None
    ensures pre.used.Some? && l.newUsed in kv && DecodeU64(kv[l.newUsed]).Some? ==>
      DecodeU64(kv[l.newUsed]) == pre.used
    ensures pre.used.Some? && (l.newUsed !in kv || DecodeU64(kv[l.newUsed]).None?) ==> pre.used.value == 0
  {
    assert Extends(k, l.oldAuto) ==> k in Under(kv, l.oldAuto);
    assert Extends(k, l.newAuto) ==> k in Under(kv, l.newAuto);
  }

  /** Whatever store `post_upgrade` accepts against what `pre_upgrade` saw, queue and counter are the old ones. */
  lemma AcceptedKeepsValues(l: Layout, before: KeyValues, after: KeyValues, n: nat, tail: Bytes)
    requires l.Valid() && ValueChecks(l, Captured(l, before), after) && n <= U64_MAX
    ensures l.oldPending in before ==> l.newPending in after && after[l.newPending] == before[l.oldPending]
    ensures l.oldPending !in before ==> l.newPending !in after
    ensures l.oldUsed in before && before[l.oldUsed] == ToLe(n, 8) + tail && n > 0 ==>
      l.newUsed in after && DecodeU64(after[l.newUsed]) == Some(n)
  {
    CounterDecodes(n, tail, []);
  }

  /** The scan of `post_upgrade` over the new prefix. */
  method CheckNewEntries(store: Store, l: Layout) returns (ok: bool, post: nat)
    modifies store`readCount
    ensures ok <==> AllCurrent(l, store.kv)
    ensures ok ==> post == |Under(store.kv, l.newAuto)|
  {
    post := 0;
    var previous := l.newAuto;
    NothingPassed(store.kv, l.newAuto);
    var next := store.NextKey(previous);
    while next.Some? && StartsWith(next.value, l.newAuto)
      invariant StartsWith(previous, l.newAuto) && IsNext(store.kv, previous, next)
      invariant post == |Passed(store.kv, l.newAuto, previous)|
      invariant forall k :: k in Passed(store.kv, l.newAuto, previous) ==> DecodesRenewal(store.kv[k])
      decreases |Under(store.kv, l.newAuto) - Passed(store.kv, l.newAuto, previous)|
    {
      ScanStep(store.kv, store.kv, l.newAuto, previous, next);
      ghost var left := Under(store.kv, l.newAuto) - Passed(store.kv, l.newAuto, previous);
      previous := next.value;
      assert Under(store.kv, l.newAuto) - Passed(store.kv, l.newAuto, previous) == left - {previous};
      assert previous in left && previous in Under(store.kv, l.newAuto);
      var raw := store.Get(previous);
      if !DecodesRenewal(raw.value) { return false, post; }
      post := post + 1;
      next := store.NextKey(previous);
    }
    ScanStep(store.kv, store.kv, l.newAuto, previous, next);
    return true, post;
  }

  /** `post_upgrade`. */
  method PostUpgrade(store: Store, l: Layout, pre: PreState) returns (ok: bool)
    requires l.Valid()
    modifies store`readCount
    ensures ok <==> EntryChecks(l, pre, store.kv) && ValueChecks(l, pre, store.kv)
  {
    var current, post := CheckNewEntries(store, l);
    if !current || post != pre.renewals + pre.relocated { return false; }
    var left := store.NextKey(l.oldAuto);
    NothingPassed(store.kv, l.oldAuto);
    ScanStep(store.kv, store.kv, l.oldAuto, l.oldAuto, left);
    if left.Some? && StartsWith(left.value, l.oldAuto) {
      assert left.value in Under(store.kv, l.oldAuto);
      return false;
    }
    var now := store.Get(l.newUsed);
    var decoded := DecodedUsed(now);
    if pre.used.Some? && (if decoded.Some? then decoded.value else 0) != pre.used.value { return false; }
    var oldUsed := store.Get(l.oldUsed);
    if oldUsed.Some? { return false; }
    var pending := store.Get(l.newPending);
    if pending != pre.pending { return false; }
    var oldPending := store.Get(l.oldPending);
    return oldPending.None?;
  }
}
