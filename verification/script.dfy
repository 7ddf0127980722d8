/** Script fragments of the coinbase input: `encode_script_num`, `encode_coinbase_height` and
    `encode_script_pushdata` (src/template.rs), read back by the rules of BIP 34 "Specification". */
module Scripts {
  import opened ByteStrings
  import opened CompactSize

  const I64_MAX: nat := 0x7fff_ffff_ffff_ffff

  /** `unsigned_abs`. */
  function UnsignedAbs(v: int): nat { if v < 0 then -v else v }

  /** The bytes of a number without leading zeros, least significant first. */
  function Magnitude(n: nat): (s: Bytes)
    ensures s == [] <==> n == 0
  {
    if n == 0 then [] else [n % 0x100] + Magnitude(n / 0x100)
  }

  /** A script number: the magnitude, with the sign in the top bit of the last byte. */
  function ScriptNum(v: int): Bytes {
    var m := Magnitude(UnsignedAbs(v));
    if m == [] then []
    else
      var last := m[|m| - 1];
      if last >= 0x80 then m + [if v < 0 then 0x80 else 0]
      else if v < 0 then m[..|m| - 1] + [last + 0x80]
      else m
  }

  function ScriptNumValue(s: Bytes): int {
    if s == [] then 0
    else
      var last := s[|s| - 1];
      if last >= 0x80 then -(LeValue(s[..|s| - 1] + [last - 0x80]) as int) else LeValue(s)
  }

  /** No shorter script number has the same value: the last byte carries more than a sign it needs. */
  predicate MinimalNum(s: Bytes) {
    s == [] || s[|s| - 1] % 0x80 != 0 || (|s| > 1 && s[|s| - 2] >= 0x80)
  }

  lemma {:induction false} MagnitudeValue(n: nat)
    ensures LeValue(Magnitude(n)) == n
    ensures n > 0 ==> Magnitude(n)[|Magnitude(n)| - 1] != 0
  {
    if n > 0 {
      MagnitudeValue(n / 0x100);
    }
  }

  lemma {:induction false} MagnitudeLength(n: nat, width: nat)
    requires n < Pow256(width)
    ensures |Magnitude(n)| <= width
  {
    if n > 0 {
      MagnitudeLength(n / 0x100, width - 1);
    }
  }

  /** Every number reads back as itself from its minimal encoding. */
  lemma ScriptNumRoundTrip(v: int)
    ensures ScriptNumValue(ScriptNum(v)) == v
    ensures MinimalNum(ScriptNum(v))
  {
    var m := Magnitude(UnsignedAbs(v));
    MagnitudeValue(UnsignedAbs(v));
    if m != [] {
      var last := m[|m| - 1];
      if last >= 0x80 {
        SignByte(m, if v < 0 then 0x80 else 0);
      } else if v < 0 {
        var s := m[..|m| - 1] + [last + 0x80];
        assert ScriptNum(v) == s;
        assert s[..|s| - 1] + [s[|s| - 1] - 0x80] == m;
      }
    }
  }

  lemma SignByte(m: Bytes, sign: Byte)
    requires m != [] && m[|m| - 1] >= 0x80 && (sign == 0 || sign == 0x80)
    ensures ScriptNumValue(m + [sign]) == if sign == 0 then LeValue(m) else -(LeValue(m) as int)
    ensures MinimalNum(m + [sign])
  {
    var s := m + [sign];
    assert s[..|s| - 1] == m;
    LeValueAppend(m, [0]);
    assert LeValue([0]) == 0;
    assert sign == 0 ==> s == m + [0];
  }

  method MagnitudeBytes(n: nat) returns (out: Bytes)
    ensures out == Magnitude(n)
  {
    out := [];
    var rest := n;
    while rest > 0
      invariant Magnitude(n) == out + Magnitude(rest)
    {
      assert out + Magnitude(rest) == (out + [rest % 0x100]) + Magnitude(rest / 0x100);
      out := out + [rest % 0x100];
      rest := rest / 0x100;
    }
  }

  /** The magnitude, followed by the sign fix-up on its last byte. */
  method EncodeScriptNum(value: int) returns (out: Bytes)
    ensures out == ScriptNum(value)
  {
    if value == 0 {
      return [];
    }
    out := MagnitudeBytes(UnsignedAbs(value));
    var m := out;
    var last := m[|m| - 1];
    if last >= 0x80 {
      out := m + [if value < 0 then 0x80 else 0x00];
    } else if value < 0 {
      out := m[|m| - 1 := last + 0x80];
      assert out == m[..|m| - 1] + [last + 0x80];
    }
  }

  function Push(data: Bytes): Bytes
    requires |data| <= 0xffff
  {
    if |data| <= 75 then [|data|] + data
    else if |data| <= 0xff then [0x4c, |data|] + data
    else [0x4d] + LeBytes(|data|, 2) + data
  }

  function ReadPush(s: Bytes): Parsed<Bytes> {
    if s == [] then Malformed
    else if s[0] <= 75 then Take(s[0], s[1..])
    else if s[0] == 0x4c && |s| >= 2 then Take(s[1], s[2..])
    else if s[0] == 0x4d && |s| >= 3 then Take(LeValue(s[1..3]), s[3..])
    else Malformed
  }

  lemma PushRoundTrip(data: Bytes, rest: Bytes)
    requires |data| <= 0xffff
    ensures ReadPush(Push(data) + rest) == Parsed(data, rest)
  {
    TakeAppend(data, rest);
    if |data| <= 75 {
      Headed([|data|], data, rest);
    } else if |data| <= 0xff {
      Headed([0x4c, |data|], data, rest);
    } else {
      var size := LeBytes(|data|, 2);
      Headed([0x4d] + size, data, rest);
      assert LeValue(size) == |data| by {
        Pow256Values();
        LeRoundTrip(|data|, 2);
      }
      assert (Push(data) + rest)[1..3] == size;
    }
  }

  lemma Headed(head: Bytes, data: Bytes, rest: Bytes)
    ensures var s := head + data + rest;
            s[|head|..] == data + rest && forall i :: 0 <= i < |head| ==> s[i] == head[i]
  {
  }

  /** `None` is the error for data too long to push. */
  method EncodeScriptPushdata(data: Bytes, out: Bytes) returns (extended: Option<Bytes>)
    ensures extended == if |data| <= 0xffff then Some(out + Push(data)) else None
  {
    var header: Bytes;
    if |data| <= 75 {
      header := [|data|];
    } else if |data| <= 0xff {
      header := [0x4c, |data|];
    } else if |data| <= 0xffff {
      header := [0x4d] + LeBytes(|data|, 2);
    } else {
      return None;
    }
    assert out + header + data == out + (header + data);
    return Some(out + header + data);
  }

  function HeightScript(height: nat): Bytes
    requires height <= I64_MAX
  {
    if height == 0 then [0]
    else if height <= 16 then [0x50 + height]
    else
      HeightNumLength(height);
      [|ScriptNum(height)|] + ScriptNum(height)
  }

  lemma HeightNumLength(height: nat)
    requires height <= I64_MAX
    ensures |ScriptNum(height)| <= 9
  {
    Pow256Values();
    MagnitudeLength(height, 8);
  }

  /** The height a coinbase script starts with: a small-number opcode or a pushed script number. */
  function ReadHeight(s: Bytes): Parsed<int> {
    if s == [] then Malformed
    else if s[0] == 0 then Parsed(0, s[1..])
    else if 0x51 <= s[0] <= 0x60 then Parsed(s[0] - 0x50, s[1..])
    else
      match ReadPush(s)
      case Malformed => Malformed
      case Parsed(num, rest) => Parsed(ScriptNumValue(num), rest)
  }

  lemma HeightRoundTrip(height: nat, rest: Bytes)
    requires height <= I64_MAX
    ensures ReadHeight(HeightScript(height) + rest) == Parsed(height, rest)
  {
    if height > 16 {
      HeightNumLength(height);
      ScriptNumRoundTrip(height);
      MagnitudeValue(height);
      PushRoundTrip(ScriptNum(height), rest);
    }
  }

  /** `None` is the error for a height outside the range of i64. */
  method EncodeCoinbaseHeight(height: nat) returns (script: Option<Bytes>)
    ensures script == if height <= I64_MAX then Some(HeightScript(height)) else None
  {
    if height > I64_MAX {
      return None;
    }
    if height == 0 {
      return Some([0x00]);
    }
    if height <= 16 {
      return Some([0x50 + height]);
    }
    var bytes := EncodeScriptNum(height);
    HeightNumLength(height);
    return Some([|bytes|] + bytes);
  }
}
