/** The bytes a HOP submitter signs, before hashing: two runtime versions and the client's copy of the first. */
module HopPayload {
  import opened Types
  import opened ByteStrings

  /** "hop-submit-v1:" and "hop-submit-v2:". */
  const CONTEXT_V1: Bytes := [104, 111, 112, 45, 115, 117, 98, 109, 105, 116, 45, 118, 49, 58]
  const CONTEXT_V2: Bytes := [104, 111, 112, 45, 115, 117, 98, 109, 105, 116, 45, 118, 50, 58]
  const CTX_LEN: nat := 14

  type Hash32 = h: Bytes | |h| == 32 witness seq(32, i => 0)

  /** The layouts, field after field. */
  function LayoutV1(dataHash: Hash32, timestamp: nat): Bytes {
    CONTEXT_V1 + dataHash + ToLe(timestamp, 8)
  }

  function LayoutV2(dataHash: Hash32, timestamp: nat, genesis: Hash32, recipients: Hash32): Bytes {
    CONTEXT_V2 + dataHash + ToLe(timestamp, 8) + genesis + recipients
  }

  /** The characters of a text, as bytes. */
  function Ascii(text: string): Bytes
    requires forall i :: 0 <= i < |text| ==> text[i] < 128 as char
  {
    seq(|text|, i requires 0 <= i < |text| => text[i] as int)
  }

  lemma ContextsAreText()
    ensures CONTEXT_V1 == Ascii("hop-submit-v1:") && CONTEXT_V2 == Ascii("hop-submit-v2:")
    ensures |CONTEXT_V1| == |CONTEXT_V2| == CTX_LEN
  {
  }

  // ---------------------------------------------------------------- the runtime's buffers

  /**
   `copy_from_slice`: fill `buf[at..at + |src|]`. The ghost sequence counts how often each position
   was written.
   */
  method CopyFromSlice(buf: array<Byte>, at: nat, src: Bytes, ghost counts: seq<nat>) returns (ghost now: seq<nat>)
    requires at + |src| <= buf.Length == |counts|
    modifies buf
    ensures buf[..at + |src|] == old(buf[..at]) + src
    ensures buf[at + |src|..] == old(buf[at + |src|..])
    ensures |now| == |counts|
    ensures forall i :: 0 <= i < |now| ==> now[i] == counts[i] + if at <= i < at + |src| then 1 else 0
  {
    now := counts;
    for i := 0 to |src|
      invariant buf[..at + i] == old(buf[..at]) + src[..i]
      invariant forall j :: at + i <= j < buf.Length ==> buf[j] == old(buf[j])
      invariant |now| == |counts|
      invariant forall j :: 0 <= j < |now| ==> now[j] == counts[j] + if at <= j < at + i then 1 else 0
    {
      buf[at + i] := src[i];
      now := now[at + i := now[at + i] + 1];
      assert buf[..at + i + 1] == buf[..at + i] + [src[i]];
    }
  }

  method SigningPayload(dataHash: Hash32, timestamp: nat) returns (buf: array<Byte>)
    ensures fresh(buf) && buf[..] == LayoutV1(dataHash, timestamp)
  {
    buf := new Byte[CTX_LEN + 32 + 8](i => 0);
    ghost var n := CopyFromSlice(buf, 0, CONTEXT_V1, seq(54, i => 0));
    n := CopyFromSlice(buf, CTX_LEN, dataHash, n);
    n := CopyFromSlice(buf, CTX_LEN + 32, ToLe(timestamp, 8), n);
    assert buf[..] == buf[..54];
  }

  /** The moving-offset version; every byte is written exactly once. */
  method SigningPayloadV2(dataHash: Hash32, timestamp: nat, genesis: Hash32, recipients: Hash32)
    returns (buf: array<Byte>, ghost counts: seq<nat>)
    ensures fresh(buf) && buf[..] == LayoutV2(dataHash, timestamp, genesis, recipients)
    ensures |counts| == buf.Length && forall i :: 0 <= i < |counts| ==> counts[i] == 1
  {
    buf := new Byte[CTX_LEN + 32 + 8 + 32 + 32](i => 0);
    var offset := 0;
    counts := CopyFromSlice(buf, offset, CONTEXT_V2, seq(118, i => 0));
    offset := offset + CTX_LEN;
    counts := CopyFromSlice(buf, offset, dataHash, counts);
    offset := offset + 32;
    counts := CopyFromSlice(buf, offset, ToLe(timestamp, 8), counts);
    offset := offset + 8;
    counts := CopyFromSlice(buf, offset, genesis, counts);
    offset := offset + 32;
    counts := CopyFromSlice(buf, offset, recipients, counts);
    assert buf[..] == buf[..118];
  }

  // ---------------------------------------------------------------- the client's buffer

  /** The client appends to a growing vector; its bytes equal the runtime's in-place buffer for every input. */
  method SubmitSigningPayload(dataHash: Hash32, timestamp: nat) returns (buf: Bytes)
    ensures buf == LayoutV1(dataHash, timestamp)
  {
    buf := [];
    buf := buf + CONTEXT_V1;
    buf := buf + dataHash;
    buf := buf + ToLe(timestamp, 8);
  }

  // ---------------------------------------------------------------- injectivity

  lemma TimestampsDiffer(s: nat, t: nat)
    requires s <= U64_MAX && t <= U64_MAX && ToLe(s, 8) == ToLe(t, 8)
    ensures s == t
  {
    U64IsEightBytes();
    LeRoundTrip(s, 8);
    LeRoundTrip(t, 8);
  }

  /** The fields of a V1 payload can be read back from its bytes. */
  lemma V1Fields(d: Hash32, s: nat)
    ensures |LayoutV1(d, s)| == 54
    ensures LayoutV1(d, s)[..14] == CONTEXT_V1
    ensures LayoutV1(d, s)[14..46] == d
    ensures LayoutV1(d, s)[46..] == ToLe(s, 8)
  {
  }

  lemma V2Fields(d: Hash32, s: nat, g: Hash32, r: Hash32)
    ensures |LayoutV2(d, s, g, r)| == 118
    ensures LayoutV2(d, s, g, r)[..14] == CONTEXT_V2
    ensures LayoutV2(d, s, g, r)[14..46] == d
    ensures LayoutV2(d, s, g, r)[46..54] == ToLe(s, 8)
    ensures LayoutV2(d, s, g, r)[54..86] == g
    ensures LayoutV2(d, s, g, r)[86..] == r
  {
  }

  lemma V1IsInjective(d: Hash32, s: nat, d': Hash32, s': nat)
    requires s <= U64_MAX && s' <= U64_MAX && LayoutV1(d, s) == LayoutV1(d', s')
    ensures d == d' && s == s'
  {
    V1Fields(d, s);
    V1Fields(d', s');
    TimestampsDiffer(s, s');
  }

  lemma V2IsInjective(d: Hash32, s: nat, g: Hash32, r: Hash32, d': Hash32, s': nat, g': Hash32, r': Hash32)
    requires s <= U64_MAX && s' <= U64_MAX && LayoutV2(d, s, g, r) == LayoutV2(d', s', g', r')
    ensures d == d' && s == s' && g == g' && r == r'
  {
    V2Fields(d, s, g, r);
    V2Fields(d', s', g', r');
    TimestampsDiffer(s, s');
  }

  /** No V1 payload equals, or is a prefix of, a V2 payload: the contexts part at the version digit. */
  lemma VersionsNeverCollide(d: Hash32, s: nat, d': Hash32, s': nat, g: Hash32, r: Hash32)
    ensures !StartsWith(LayoutV2(d', s', g, r), LayoutV1(d, s))
    ensures !StartsWith(LayoutV1(d, s), LayoutV2(d', s', g, r))
  {
    V1Fields(d, s);
    V2Fields(d', s', g, r);
    assert LayoutV1(d, s)[12] == CONTEXT_V1[12] == 49;
    assert LayoutV2(d', s', g, r)[12] == CONTEXT_V2[12] == 50;
  }
}
