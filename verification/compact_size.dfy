/** CompactSize integers: `encode_varint` (src/bitcoin_encoding.rs), `varint_len` (src/template.rs)
    and `read_varint` (src/p2p.rs). */
module CompactSize {
  import opened ByteStrings

  /** The outcome of reading one item off the front of a byte string. */
  datatype Parsed<+T> = Malformed | Parsed(value: T, rest: Bytes)

  function Take(n: nat, s: Bytes): Parsed<Bytes> {
    if |s| < n then Malformed else Parsed(s[..n], s[n..])
  }

  function ReadU16(s: Bytes): Parsed<U64> {
    if |s| < 2 then Malformed
    else
      LeValueBound(s[..2]);
      Pow256Values();
      Parsed(LeValue(s[..2]), s[2..])
  }

  function ReadU32(s: Bytes): Parsed<U32> {
    if |s| < 4 then Malformed
    else
      LeValueBound(s[..4]);
      Pow256Values();
      Parsed(LeValue(s[..4]), s[4..])
  }

  function ReadU64(s: Bytes): Parsed<U64> {
    if |s| < 8 then Malformed
    else
      LeValueBound(s[..8]);
      Pow256Values();
      Parsed(LeValue(s[..8]), s[8..])
  }

  function Encode(value: U64): Bytes {
    if value <= 0xfc then [value]
    else if value <= 0xffff then [0xfd] + LeBytes(value, 2)
    else if value <= 0xffff_ffff then [0xfe] + LeBytes(value, 4)
    else [0xff] + LeBytes(value, 8)
  }

  /** `varint_len`. */
  function Width(value: U64): nat {
    if value <= 0xfc then 1 else if value <= 0xffff then 3 else if value <= 0xffff_ffff then 5 else 9
  }

  function Decode(s: Bytes): Parsed<U64> {
    if s == [] then Malformed
    else if s[0] <= 0xfc then Parsed(s[0], s[1..])
    else if s[0] == 0xfd then ReadU16(s[1..])
    else if s[0] == 0xfe then ReadU32(s[1..])
    else ReadU64(s[1..])
  }

  lemma TakeAppend(a: Bytes, rest: Bytes)
    ensures Take(|a|, a + rest) == Parsed(a, rest)
  {
  }

  lemma U16RoundTrip(v: nat, rest: Bytes)
    requires v < 0x1_0000
    ensures ReadU16(LeBytes(v, 2) + rest) == Parsed(v, rest)
  {
    Pow256Values();
    LeRoundTrip(v, 2);
    TakeAppend(LeBytes(v, 2), rest);
  }

  lemma U32RoundTrip(v: U32, rest: Bytes)
    ensures ReadU32(LeBytes(v, 4) + rest) == Parsed(v, rest)
  {
    Pow256Values();
    LeRoundTrip(v, 4);
    TakeAppend(LeBytes(v, 4), rest);
  }

  lemma U64RoundTrip(v: U64, rest: Bytes)
    ensures ReadU64(LeBytes(v, 8) + rest) == Parsed(v, rest)
  {
    Pow256Values();
    LeRoundTrip(v, 8);
    TakeAppend(LeBytes(v, 8), rest);
  }

  lemma SkipTag(tag: Byte, body: Bytes, rest: Bytes)
    ensures var s := [tag] + body + rest; s != [] && s[0] == tag && s[1..] == body + rest
  {
  }

  /** Decoding what was encoded gives the value back and leaves exactly what followed it. */
  lemma RoundTrip(value: U64, rest: Bytes)
    ensures Decode(Encode(value) + rest) == Parsed(value, rest)
    ensures |Encode(value)| == Width(value)
  {
    if value <= 0xfc {
      SkipTag(value, [], rest);
    } else if value <= 0xffff {
      SkipTag(0xfd, LeBytes(value, 2), rest);
      U16RoundTrip(value, rest);
    } else if value <= 0xffff_ffff {
      SkipTag(0xfe, LeBytes(value, 4), rest);
      U32RoundTrip(value, rest);
    } else {
      SkipTag(0xff, LeBytes(value, 8), rest);
      U64RoundTrip(value, rest);
    }
  }

  /** Decoding consumes a non-empty prefix and does not look past it; no accepted spelling is shorter than the
      encoder's. */
  lemma DecodeConsumes(s: Bytes, other: Bytes)
    requires Decode(s).Parsed?
    ensures var used := |s| - |Decode(s).rest|;
            && Width(Decode(s).value) <= used <= |s|
            && s == s[..used] + Decode(s).rest
            && Decode(s[..used] + other) == Parsed(Decode(s).value, other)
  {
    var used := |s| - |Decode(s).rest|;
    var t := s[..used] + other;
    assert t[0] == s[0];
    Pow256Values();
    if s[0] == 0xfd {
      LeValueBound(s[1..][..2]);
      assert t[1..][..2] == s[1..][..2] && t[1..][2..] == other;
    } else if s[0] == 0xfe {
      LeValueBound(s[1..][..4]);
      assert t[1..][..4] == s[1..][..4] && t[1..][4..] == other;
    } else if s[0] == 0xff {
      assert t[1..][..8] == s[1..][..8] && t[1..][8..] == other;
    }
  }

  /** Appends to the buffer exactly the encoding. */
  method EncodeVarint(value: U64, out: Bytes) returns (extended: Bytes)
    ensures extended == out + Encode(value)
  {
    if value <= 0xfc {
      extended := out + [value];
    } else if value <= 0xffff {
      extended := out + [0xfd];
      extended := extended + LeBytes(value, 2);
    } else if value <= 0xffff_ffff {
      extended := out + [0xfe];
      extended := extended + LeBytes(value, 4);
    } else {
      extended := out + [0xff];
      extended := extended + LeBytes(value, 8);
    }
  }

  /** The cursor form of the decoder. On a truncated integer the cursor has passed the prefix byte. */
  method ReadVarint(payload: Bytes, pos: nat) returns (value: Option<U64>, next: nat)
    requires pos <= |payload|
    ensures pos <= next <= |payload|
    ensures value.Some? <==> Decode(payload[pos..]).Parsed?
    ensures value.Some? ==> Decode(payload[pos..]) == Parsed(value.value, payload[next..])
  {
    next := pos;
    if pos == |payload| {
      return None, next;
    }
    ghost var s := payload[pos..];
    var prefix := payload[pos];
    next := pos + 1;
    assert s[1..] == payload[next..];
    if prefix <= 0xfc {
      return Some(prefix), next;
    }
    var width := if prefix == 0xfd then 2 else if prefix == 0xfe then 4 else 8;
    if next + width > |payload| {
      return None, next;
    }
    var bytes := payload[next..next + width];
    assert bytes == s[1..][..width];
    assert s[1..][width..] == payload[next + width..];
    LeValueBound(bytes);
    Pow256Values();
    next := next + width;
    return Some(LeValue(bytes)), next;
  }
}
