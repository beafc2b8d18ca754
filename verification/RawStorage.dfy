/** The host's raw key-value store, counting the accesses made through it. */
module RawStorage {
  import opened Types
  import opened ByteStrings

  type KeyValues = map<Bytes, Bytes>

  /** `r` is the least key above `previous`, if any. */
  ghost predicate IsNext(kv: KeyValues, previous: Bytes, r: Option<Bytes>) {
    match r
    case None => forall k :: k in kv ==> !Less(previous, k)
    case Some(n) =>
      && n in kv && Less(previous, n)
      && forall k :: k in kv && Less(previous, k) ==> k == n || Less(n, k)
  }

  class Store {
    var kv: KeyValues
    var readCount: nat
    var writeCount: nat

    constructor (kv: KeyValues)
      ensures this.kv == kv && readCount == 0 && writeCount == 0
    {
      this.kv, readCount, writeCount := kv, 0, 0;
    }

    method NextKey(previous: Bytes) returns (r: Option<Bytes>)
      modifies this`readCount
      ensures IsNext(kv, previous, r) && readCount == old(readCount) + 1
    {
      readCount := readCount + 1;
      r := None;
      var todo := kv.Keys;
      while todo != {}
        invariant todo <= kv.Keys && readCount == old(readCount) + 1
        invariant match r
                  case None => forall k :: k in kv.Keys - todo ==> !Less(previous, k)
                  case Some(n) =>
                    && n in kv && Less(previous, n)
                    && forall k :: k in kv.Keys - todo && Less(previous, k) ==> k == n || Less(n, k)
        decreases |todo|
      {
        var k :| k in todo;
        if Less(previous, k) && (r.None? || Less(k, r.value)) {
          if r.Some? { LeastMoves(kv.Keys - todo, previous, r.value, k); }
          r := Some(k);
        } else if r.Some? {
          LessTotal(k, r.value);
        }
        todo := todo - {k};
      }
    }

    method Get(key: Bytes) returns (r: Option<Bytes>)
      modifies this`readCount
      ensures r == (if key in kv then Some(kv[key]) else None) && readCount == old(readCount) + 1
    {
      readCount := readCount + 1;
      r := if key in kv then Some(kv[key]) else None;
    }

    method Set(key: Bytes, value: Bytes)
      modifies this`kv, this`writeCount
      ensures kv == old(kv)[key := value] && writeCount == old(writeCount) + 1
    {
      kv, writeCount := kv[key := value], writeCount + 1;
    }

    method Clear(key: Bytes)
      modifies this`kv, this`writeCount
      ensures kv == old(kv) - {key} && writeCount == old(writeCount) + 1
    {
      kv, writeCount := kv - {key}, writeCount + 1;
    }
  }

  lemma LeastMoves(ks: set<Bytes>, previous: Bytes, n: Bytes, k: Bytes)
    requires Less(k, n)
    requires forall x :: x in ks && Less(previous, x) ==> x == n || Less(n, x)
    ensures forall x :: x in ks && Less(previous, x) ==> Less(k, x)
  {
    forall x | x in ks && Less(previous, x) ensures Less(k, x) {
      if x != n { LessTransitive(k, n, x); }
    }
  }

  // ---------------------------------------------------------------- keys under a prefix

  ghost function Under(kv: KeyValues, p: Bytes): set<Bytes> {
    set k | k in kv && Extends(k, p)
  }

  /** The keys under `p` that a scan standing at `previous` has passed. */
  ghost function Passed(kv: KeyValues, p: Bytes, previous: Bytes): set<Bytes> {
    set k | k in kv && Extends(k, p) && !Less(previous, k)
  }

  /** A scan starts before every key under its prefix. */
  lemma NothingPassed(kv: KeyValues, p: Bytes)
    ensures Passed(kv, p, p) == {}
  {
    forall k | k in kv && Extends(k, p) ensures Less(p, k) {
      PrefixLess(k, p);
    }
  }

  /**
   One scan step. The store may have lost keys already passed and gained keys elsewhere: the next
   key under the prefix is still the least one not passed, and when there is none, all were passed.
   */
  lemma ScanStep(kv0: KeyValues, kv: KeyValues, p: Bytes, previous: Bytes, r: Option<Bytes>)
    requires StartsWith(previous, p) && IsNext(kv, previous, r)
    requires forall k :: Extends(k, p) && Less(previous, k) ==> (k in kv <==> k in kv0)
    ensures r.Some? && StartsWith(r.value, p) ==>
      && r.value in kv0 && Extends(r.value, p)
      && r.value !in Passed(kv0, p, previous)
      && Passed(kv0, p, r.value) == Passed(kv0, p, previous) + {r.value}
    ensures !(r.Some? && StartsWith(r.value, p)) ==> Passed(kv0, p, previous) == Under(kv0, p)
  {
    if r.Some? && StartsWith(r.value, p) {
      NextExtends(p, previous, r.value);
      ScanAdvances(kv0, kv, p, previous, r.value);
    } else {
      forall k | k in kv0 && Extends(k, p)
        ensures !Less(previous, k)
      {
        if Less(previous, k) {
          assert k in kv;
          if r.value != k { PrefixInterval(previous, r.value, k, p); }
          assert false;
        }
      }
    }
  }

  lemma NextExtends(p: Bytes, previous: Bytes, n: Bytes)
    requires StartsWith(previous, p) && StartsWith(n, p) && Less(previous, n)
    ensures Extends(n, p)
  {
    if |n| == |p| {
      assert n == n[..|p|] == p && previous[..|p|] == p;
      if |previous| == |p| {
        assert previous == p;
        LessIrreflexive(p);
      } else {
        PrefixLess(previous, p);
        LessTransitive(p, previous, p);
        LessIrreflexive(p);
      }
    }
  }

  lemma ScanAdvances(kv0: KeyValues, kv: KeyValues, p: Bytes, previous: Bytes, n: Bytes)
    requires IsNext(kv, previous, Some(n)) && Extends(n, p)
    requires forall k :: Extends(k, p) && Less(previous, k) ==> (k in kv <==> k in kv0)
    ensures n in kv0 && n !in Passed(kv0, p, previous)
    ensures Passed(kv0, p, n) == Passed(kv0, p, previous) + {n}
  {
    forall k | k in kv0 && Extends(k, p)
      ensures !Less(n, k) <==> !Less(previous, k) || k == n
    {
      LessIrreflexive(n);
      if Less(n, k) {
        LessTransitive(previous, n, k);
      } else if Less(previous, k) {
        assert k in kv;
      }
    }
  }

  /** The number of keys under `prefix`, by scanning. */
  method CountKeys(store: Store, prefix: Bytes) returns (count: nat)
    modifies store`readCount
    ensures count == |Under(store.kv, prefix)| && store.readCount == old(store.readCount) + count + 1
  {
    count := 0;
    var previous := prefix;
    NothingPassed(store.kv, prefix);
    var key := store.NextKey(previous);
    while key.Some? && StartsWith(key.value, prefix)
      invariant StartsWith(previous, prefix) && IsNext(store.kv, previous, key)
      invariant count == |Passed(store.kv, prefix, previous)|
      invariant store.readCount == old(store.readCount) + count + 1
      decreases |Under(store.kv, prefix) - Passed(store.kv, prefix, previous)|
    {
      ScanStep(store.kv, store.kv, prefix, previous, key);
      ghost var left := Under(store.kv, prefix) - Passed(store.kv, prefix, previous);
      assert key.value in left;
      previous := key.value;
      count := count + 1;
      assert Under(store.kv, prefix) - Passed(store.kv, prefix, previous) == left - {key.value};
      key := store.NextKey(previous);
    }
    ScanStep(store.kv, store.kv, prefix, previous, key);
  }
}
