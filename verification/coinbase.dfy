/** The coinbase transaction and its extranonce hole: `build_coinbase_parts` (src/template.rs) and
    `build_coinbase_with_witness` (src/share.rs). */
module Coinbase {
  import opened ByteStrings
  import opened CompactSize
  import opened Scripts
  import opened Transactions

  datatype Config = Config(payoutScript: Bytes, extranonce1Size: nat, extranonce2Size: nat, poolTag: Bytes,
                           message: Bytes)

  /** The inputs `build_coinbase_parts` takes from a template. */
  datatype Request = Request(value: U64, height: U64, flags: Option<Bytes>, commitment: Option<Bytes>)

  datatype Parts = Parts(coinbase1: Bytes, coinbase2: Bytes, coinbaseTx: Bytes, hasCommitment: bool)

  function Tag(cfg: Config): Bytes {
    cfg.poolTag + if cfg.message == [] then [] else [0x2f] + cfg.message
  }

  function Flags(req: Request): Bytes {
    if req.flags.Some? then req.flags.value else []
  }

  function OptionalPush(data: Bytes): Bytes
    requires |data| <= 0xffff
  {
    if data == [] then [] else Push(data)
  }

  predicate Pushable(cfg: Config, req: Request) {
    req.height <= I64_MAX && |Flags(req)| <= 0xffff && |Tag(cfg)| <= 0xffff
  }

  /** The script before the extranonces. */
  function ScriptPrefix(cfg: Config, req: Request): Bytes
    requires Pushable(cfg, req)
  {
    HeightScript(req.height) + OptionalPush(Flags(req)) + OptionalPush(Tag(cfg))
  }

  function ScriptLength(cfg: Config, req: Request): nat
    requires Pushable(cfg, req)
  {
    |ScriptPrefix(cfg, req)| + cfg.extranonce1Size + cfg.extranonce2Size
  }

  /** When `build_coinbase_parts` succeeds: the consensus limit on the script is 100 bytes. */
  predicate Fits(cfg: Config, req: Request) {
    Pushable(cfg, req) && ScriptLength(cfg, req) <= 100
  }

  predicate Encodable(cfg: Config, req: Request) {
    Sized(|cfg.payoutScript|) && (req.commitment.Some? ==> Sized(|req.commitment.value|))
  }

  function Locktime(height: U64): U32 {
    if height == 0 then 0 else if height - 1 > U32_MAX then U32_MAX else height - 1
  }

  function Outputs(cfg: Config, req: Request): seq<TxOut> {
    [TxOut(req.value, cfg.payoutScript)] + if req.commitment.Some? then [TxOut(0, req.commitment.value)] else []
  }

  /** The coinbase a miner who rolled `extranonce` is working on. */
  function CoinbaseTx(cfg: Config, req: Request, extranonce: Bytes): (tx: Tx)
    requires Fits(cfg, req) && Encodable(cfg, req)
    ensures Sized(|extranonce| + 100) ==> Serializable(tx)
  {
    Tx(2, [TxIn(ZERO_HASH, U32_MAX, ScriptPrefix(cfg, req) + extranonce, U32_MAX)], Outputs(cfg, req), [],
       Locktime(req.height))
  }

  /** What the miner's bytes are: the template's two halves around the extranonces. */
  ghost predicate FillsHole(cfg: Config, req: Request, coinbase1: Bytes, coinbase2: Bytes)
    requires Fits(cfg, req) && Encodable(cfg, req)
  {
    forall extranonce: Bytes :: |extranonce| == cfg.extranonce1Size + cfg.extranonce2Size ==>
      coinbase1 + extranonce + coinbase2 == LegacyBytes(CoinbaseTx(cfg, req, extranonce))
  }

  function Head(scriptLength: nat): Bytes
    requires scriptLength <= 100
  {
    LeBytes(2, 4) + Encode(1) + ZERO_HASH + LeBytes(U32_MAX, 4) + Encode(scriptLength)
  }

  function Tail(cfg: Config, req: Request): Bytes
    requires Encodable(cfg, req)
  {
    LeBytes(U32_MAX, 4) + (Encode(|Outputs(cfg, req)|) + Flatten(TxOutBytes, Outputs(cfg, req)))
      + LeBytes(Locktime(req.height), 4)
  }

  /** Moving the brackets of the nine fields from the transaction's grouping to the template's. */
  lemma Regroup(version: Bytes, count: Bytes, prevHash: Bytes, prevIndex: Bytes, length: Bytes,
                script: Bytes, sequence: Bytes, outs: Bytes, locktime: Bytes)
    ensures version + (((count + (prevHash + (prevIndex + ((length + script) + sequence)))) + outs) + locktime)
            == (version + count + prevHash + prevIndex + length) + script + (sequence + outs + locktime)
  {
  }

  /** The two halves and the whole, as functions of the request. */
  function PartsOf(cfg: Config, req: Request): Parts
    requires Fits(cfg, req) && Encodable(cfg, req)
  {
    Parts(Head(ScriptLength(cfg, req)) + ScriptPrefix(cfg, req), Tail(cfg, req),
          LegacyBytes(CoinbaseTx(cfg, req, Zeros(cfg.extranonce1Size + cfg.extranonce2Size))), req.commitment.Some?)
  }

  lemma Layout(cfg: Config, req: Request, extranonce: Bytes)
    requires Fits(cfg, req) && Encodable(cfg, req)
    requires |extranonce| == cfg.extranonce1Size + cfg.extranonce2Size
    ensures LegacyBytes(CoinbaseTx(cfg, req, extranonce))
            == Head(ScriptLength(cfg, req)) + (ScriptPrefix(cfg, req) + extranonce) + Tail(cfg, req)
  {
    var tx := CoinbaseTx(cfg, req, extranonce);
    var i := tx.inputs[0];
    var script := ScriptPrefix(cfg, req) + extranonce;
    var outs := Encode(|tx.outputs|) + Flatten(TxOutBytes, tx.outputs);
    SingleInput(tx);
    assert BlobBytes(i.script) == Encode(ScriptLength(cfg, req)) + script;
    Regroup(LeBytes(2, 4), Encode(1), ZERO_HASH, LeBytes(U32_MAX, 4), Encode(ScriptLength(cfg, req)), script,
            LeBytes(U32_MAX, 4), outs, LeBytes(tx.locktime, 4));
  }

  lemma PartsFillHole(cfg: Config, req: Request)
    requires Fits(cfg, req) && Encodable(cfg, req)
    ensures FillsHole(cfg, req, PartsOf(cfg, req).coinbase1, PartsOf(cfg, req).coinbase2)
  {
    hide Head, ScriptPrefix, Tail, LegacyBytes, CoinbaseTx;
    var head, script, tail := Head(ScriptLength(cfg, req)), ScriptPrefix(cfg, req), Tail(cfg, req);
    forall extranonce: Bytes | |extranonce| == cfg.extranonce1Size + cfg.extranonce2Size
      ensures head + script + extranonce + tail == LegacyBytes(CoinbaseTx(cfg, req, extranonce))
    {
      Layout(cfg, req, extranonce);
      Assoc(head, script, extranonce);
    }
  }

  lemma SingleInput(tx: Tx)
    requires Serializable(tx) && |tx.inputs| == 1
    ensures CoreBytes(tx)
            == (Encode(1) + TxInBytes(tx.inputs[0])) + (Encode(|tx.outputs|) + Flatten(TxOutBytes, tx.outputs))
  {
    assert tx.inputs == [tx.inputs[0]];
    FlattenOne(TxInBytes, tx.inputs[0]);
  }

  lemma OutputBytes(cfg: Config, req: Request)
    requires Encodable(cfg, req)
    ensures Flatten(TxOutBytes, Outputs(cfg, req))
            == TxOutBytes(TxOut(req.value, cfg.payoutScript))
               + if req.commitment.Some? then TxOutBytes(TxOut(0, req.commitment.value)) else []
  {
    var first := TxOut(req.value, cfg.payoutScript);
    if req.commitment.Some? {
      assert Outputs(cfg, req) == [first, TxOut(0, req.commitment.value)];
      FlattenTwo(TxOutBytes, first, TxOut(0, req.commitment.value));
    } else {
      assert Outputs(cfg, req) == [first];
      FlattenOne(TxOutBytes, first);
    }
  }

  method BuildScriptPrefix(cfg: Config, req: Request) returns (script: Option<Bytes>)
    ensures script == if Pushable(cfg, req) then Some(ScriptPrefix(cfg, req)) else None
  {
    script := EncodeCoinbaseHeight(req.height);
    if script.None? {
      return None;
    }
    ghost var height := script.value;
    if req.flags.Some? && req.flags.value != [] {
      script := EncodeScriptPushdata(req.flags.value, script.value);
      if script.None? {
        return None;
      }
    }
    assert height == height + [];
    assert script.value == height + OptionalPush(Flags(req));
    ghost var start := script.value;
    var tag := cfg.poolTag;
    if cfg.message != [] {
      tag := tag + [0x2f];
      tag := tag + cfg.message;
    }
    assert tag == Tag(cfg);
    assert start == start + [];
    if tag != [] {
      script := EncodeScriptPushdata(tag, script.value);
    }
  }

  /** The serialised coinbase, cut where the cursor arithmetic says the extranonces lie. `None` is the error exit. */
  method BuildCoinbaseParts(cfg: Config, req: Request) returns (parts: Option<Parts>)
    requires Encodable(cfg, req)
    ensures parts.Some? <==> Fits(cfg, req)
    ensures parts.Some? ==>
      parts.value == PartsOf(cfg, req) && FillsHole(cfg, req, parts.value.coinbase1, parts.value.coinbase2)
  {
    var prefix := BuildScriptPrefix(cfg, req);
    if prefix.None? {
      return None;
    }
    var script := prefix.value;
    var total := |script| + cfg.extranonce1Size + cfg.extranonce2Size;
    if total > 100 {
      return None;
    }
    var built := AssembleParts(cfg, req, script);
    return Some(built);
  }

  method AssembleParts(cfg: Config, req: Request, script: Bytes) returns (parts: Parts)
    requires Fits(cfg, req) && Encodable(cfg, req) && script == ScriptPrefix(cfg, req)
    ensures parts == PartsOf(cfg, req) && FillsHole(cfg, req, parts.coinbase1, parts.coinbase2)
  {
    hide Head, Tail, ScriptPrefix, LegacyBytes, CoinbaseTx, FillsHole, Zeros;
    var extranonce := Zeros(cfg.extranonce1Size + cfg.extranonce2Size);
    var tx := SerializeCoinbase(cfg, req, script + extranonce);
    assert |script + extranonce| == ScriptLength(cfg, req);
    assert tx == LegacyBytes(CoinbaseTx(cfg, req, extranonce)) by {
      Layout(cfg, req, extranonce);
    }
    var coinbase1, coinbase2 :=
      CutAroundExtranonces(cfg, req, tx, |script|, |script| + cfg.extranonce1Size + cfg.extranonce2Size);
    parts := Parts(coinbase1, coinbase2, tx, req.commitment.Some?);
  }

  /** The cursor walk to the script and past its extranonces. */
  method CutAroundExtranonces(cfg: Config, req: Request, tx: Bytes, scriptLength: nat, total: nat)
    returns (coinbase1: Bytes, coinbase2: Bytes)
    requires Fits(cfg, req) && Encodable(cfg, req)
    requires scriptLength == |ScriptPrefix(cfg, req)| && total == ScriptLength(cfg, req)
    requires tx
             == Head(total) + (ScriptPrefix(cfg, req) + Zeros(cfg.extranonce1Size + cfg.extranonce2Size))
               + Tail(cfg, req)
    ensures coinbase1 == Head(total) + ScriptPrefix(cfg, req) && coinbase2 == Tail(cfg, req)
    ensures FillsHole(cfg, req, coinbase1, coinbase2)
  {
    var cursor := 4;
    cursor := cursor + Width(1);
    cursor := cursor + 32 + 4;
    cursor := cursor + Width(total);
    var prefixEnd := cursor + scriptLength;
    var suffixStart := cursor + scriptLength + cfg.extranonce1Size + cfg.extranonce2Size;
    assert |Head(total)| == cursor;
    HoleCut(cfg, req, tx, prefixEnd, suffixStart);
    coinbase1, coinbase2 := tx[..prefixEnd], tx[suffixStart..];
  }

  /** Cutting the serialisation around its extranonces leaves a hole any extranonces of that length fill. */
  lemma HoleCut(cfg: Config, req: Request, tx: Bytes, prefixEnd: nat, suffixStart: nat)
    requires Fits(cfg, req) && Encodable(cfg, req)
    requires tx
             == Head(ScriptLength(cfg, req))
               + (ScriptPrefix(cfg, req) + Zeros(cfg.extranonce1Size + cfg.extranonce2Size)) + Tail(cfg, req)
    requires prefixEnd == |Head(ScriptLength(cfg, req))| + |ScriptPrefix(cfg, req)|
    requires suffixStart == prefixEnd + cfg.extranonce1Size + cfg.extranonce2Size
    ensures prefixEnd <= suffixStart <= |tx|
    ensures tx[..prefixEnd] == Head(ScriptLength(cfg, req)) + ScriptPrefix(cfg, req)
    ensures tx[suffixStart..] == Tail(cfg, req)
    ensures forall extranonce: Bytes :: |extranonce| == cfg.extranonce1Size + cfg.extranonce2Size ==>
      tx[..prefixEnd] + extranonce + tx[suffixStart..] == LegacyBytes(CoinbaseTx(cfg, req, extranonce))
  {
    var head, script, tail := Head(ScriptLength(cfg, req)), ScriptPrefix(cfg, req), Tail(cfg, req);
    var zeros := Zeros(cfg.extranonce1Size + cfg.extranonce2Size);
    hide Head, ScriptPrefix, Tail, ScriptLength, LegacyBytes, CoinbaseTx, Zeros, Encodable, Fits;
    Splice(head, script, zeros, zeros, tail);
    forall extranonce: Bytes | |extranonce| == cfg.extranonce1Size + cfg.extranonce2Size
      ensures tx[..prefixEnd] + extranonce + tx[suffixStart..] == LegacyBytes(CoinbaseTx(cfg, req, extranonce))
    {
      Splice(head, script, zeros, extranonce, tail);
      Layout(cfg, req, extranonce);
    }
  }

  lemma Splice(head: Bytes, script: Bytes, was: Bytes, filling: Bytes, tail: Bytes)
    ensures var s := head + (script + was) + tail;
            && s[..|head| + |script|] == head + script
            && s[|head| + |script| + |was|..] == tail
            && s[..|head| + |script|] + filling + s[|head| + |script| + |was|..] == head + (script + filling) + tail
  {
    var s := head + (script + was) + tail;
    assert s[..|head| + |script|] == head + script;
    assert s[|head| + |script| + |was|..] == tail;
  }

  /** The field-by-field serialisation of the coinbase. */
  method SerializeCoinbase(cfg: Config, req: Request, script: Bytes) returns (tx: Bytes)
    requires Encodable(cfg, req) && |script| <= 100
    ensures tx == Head(|script|) + script + Tail(cfg, req)
  {
    tx := LeBytes(2, 4);
    tx := EncodeVarint(1, tx);
    tx := tx + Zeros(32);
    tx := tx + LeBytes(0xffff_ffff, 4);
    tx := EncodeVarint(|script|, tx);
    tx := tx + script;
    tx := SerializeTail(cfg, req, tx);
  }

  method SerializeTail(cfg: Config, req: Request, out: Bytes) returns (tx: Bytes)
    requires Encodable(cfg, req)
    ensures tx == out + Tail(cfg, req)
  {
    var sequence := LeBytes(0xffff_ffff, 4);
    tx := out + sequence;
    tx := EncodeVarint(if req.commitment.Some? then 2 else 1, tx);
    tx := SerializeOutputs(cfg, req, tx);
    var locktime := LeBytes(Locktime(req.height), 4);
    Nested(out, sequence, Encode(|Outputs(cfg, req)|), Flatten(TxOutBytes, Outputs(cfg, req)), locktime);
    tx := tx + locktime;
  }

  lemma Nested(out: Bytes, a: Bytes, b: Bytes, c: Bytes, d: Bytes)
    ensures out + a + b + c + d == out + (a + (b + c) + d)
  {
  }

  method SerializeOutputs(cfg: Config, req: Request, out: Bytes) returns (tx: Bytes)
    requires Encodable(cfg, req)
    ensures tx == out + Flatten(TxOutBytes, Outputs(cfg, req))
  {
    var payout := TxOut(req.value, cfg.payoutScript);
    tx := SerializeOutput(payout, out);
    if req.commitment.Some? {
      var commitment := TxOut(0, req.commitment.value);
      tx := SerializeOutput(commitment, tx);
      Assoc(out, TxOutBytes(payout), TxOutBytes(commitment));
    } else {
      assert TxOutBytes(payout) + [] == TxOutBytes(payout);
    }
    OutputBytes(cfg, req);
  }

  method SerializeOutput(output: TxOut, out: Bytes) returns (tx: Bytes)
    requires Sized(|output.script|)
    ensures tx == out + TxOutBytes(output)
  {
    tx := out + LeBytes(output.value, 8);
    tx := EncodeVarint(|output.script|, tx);
    tx := tx + output.script;
    assert tx == out + (LeBytes(output.value, 8) + (Encode(|output.script|) + output.script));
  }

  /** Whatever extranonces of the configured sizes fill the hole, the bytes parse to the one intended coinbase:
      one null input with a script of at most 100 bytes, the intended outputs and the locktime. */
  lemma FilledHoleParses(cfg: Config, req: Request, coinbase1: Bytes, coinbase2: Bytes, en1: Bytes, en2: Bytes,
                         rest: Bytes)
    requires Fits(cfg, req) && Encodable(cfg, req) && FillsHole(cfg, req, coinbase1, coinbase2)
    requires |en1| == cfg.extranonce1Size && |en2| == cfg.extranonce2Size
    ensures ReadTx(coinbase1 + en1 + en2 + coinbase2 + rest) == Parsed(CoinbaseTx(cfg, req, en1 + en2), rest)
    ensures |CoinbaseTx(cfg, req, en1 + en2).inputs[0].script| <= 100
  {
    var tx := CoinbaseTx(cfg, req, en1 + en2);
    assert ReadTx(LegacyBytes(tx) + rest) == Parsed(tx, rest) by {
      LegacyRoundTrip(tx, rest);
    }
    FilledBytes(cfg, req, coinbase1, coinbase2, en1, en2);
  }

  lemma FilledBytes(cfg: Config, req: Request, coinbase1: Bytes, coinbase2: Bytes, en1: Bytes, en2: Bytes)
    requires Fits(cfg, req) && Encodable(cfg, req) && FillsHole(cfg, req, coinbase1, coinbase2)
    requires |en1| == cfg.extranonce1Size && |en2| == cfg.extranonce2Size
    ensures coinbase1 + en1 + en2 + coinbase2 == LegacyBytes(CoinbaseTx(cfg, req, en1 + en2))
  {
    var extranonce := en1 + en2;
    assert |extranonce| == cfg.extranonce1Size + cfg.extranonce2Size;
    Assoc(coinbase1, en1, en2);
    assert coinbase1 + extranonce + coinbase2 == LegacyBytes(CoinbaseTx(cfg, req, extranonce));
  }

  /** The script is the height, the flags, the tag and then the extranonces, read off one after the other. */
  lemma ScriptParses(cfg: Config, req: Request, extranonce: Bytes)
    requires Pushable(cfg, req)
    ensures var script := ScriptPrefix(cfg, req) + extranonce;
            var s2 := OptionalPush(Tag(cfg)) + extranonce;
            var s1 := OptionalPush(Flags(req)) + s2;
            && ReadHeight(script) == Parsed(req.height, s1)
            && (Flags(req) != [] ==> ReadPush(s1) == Parsed(Flags(req), s2))
            && (Tag(cfg) != [] ==> ReadPush(s2) == Parsed(Tag(cfg), extranonce))
  {
    var s2 := OptionalPush(Tag(cfg)) + extranonce;
    var s1 := OptionalPush(Flags(req)) + s2;
    assert ScriptPrefix(cfg, req) + extranonce == HeightScript(req.height) + s1 by {
      Brackets(HeightScript(req.height), OptionalPush(Flags(req)), OptionalPush(Tag(cfg)), extranonce);
    }
    HeightRoundTrip(req.height, s1);
    OptionalPushRoundTrip(Flags(req), s2);
    OptionalPushRoundTrip(Tag(cfg), extranonce);
  }

  lemma OptionalPushRoundTrip(data: Bytes, rest: Bytes)
    requires |data| <= 0xffff
    ensures data != [] ==> ReadPush(OptionalPush(data) + rest) == Parsed(data, rest)
  {
    if data != [] {
      PushRoundTrip(data, rest);
    }
  }

  const RESERVED_STACK: seq<Bytes> := [ZERO_HASH]

  /** The reserved value the witness form carries: one stack holding 32 zero bytes. */
  function WithReservedValue(tx: Tx): Tx {
    tx.(stacks := [RESERVED_STACK])
  }

  /** Marker and flag after the version, the reserved stack before the locktime, by position; `None` is the error for
      input too short to split. */
  function WitnessForm(legacy: Bytes): Option<Bytes> {
    if |legacy| < 8 then None
    else Some(legacy[..4] + [0, 1] + legacy[4..|legacy| - 4] + ([1, 0x20] + ZERO_HASH) + legacy[|legacy| - 4..])
  }

  method BuildCoinbaseWithWitness(legacy: Bytes) returns (out: Option<Bytes>)
    ensures out == WitnessForm(legacy)
  {
    if |legacy| < 8 {
      return None;
    }
    var version, rest := legacy[..4], legacy[4..];
    var core, locktime := rest[..|rest| - 4], rest[|rest| - 4..];
    var bytes := version;
    bytes := bytes + [0x00];
    bytes := bytes + [0x01];
    bytes := bytes + core;
    var before := bytes;
    bytes := bytes + [0x01];
    bytes := bytes + [0x20];
    bytes := bytes + Zeros(32);
    assert bytes == before + ([1, 0x20] + ZERO_HASH);
    bytes := bytes + locktime;
    assert core == legacy[4..|legacy| - 4] && locktime == legacy[|legacy| - 4..];
    assert before == legacy[..4] + [0, 1] + legacy[4..|legacy| - 4];
    return Some(bytes);
  }

  /** On the bytes of a one-input transaction, cutting by position is the BIP 144 form of that transaction with the
      reserved value as its witness; so stripping the result gives the legacy bytes back. */
  lemma WitnessInsertion(tx: Tx)
    requires Serializable(tx) && |tx.inputs| == 1 && tx.stacks == []
    ensures var legacy := LegacyBytes(tx);
            && |legacy| >= 8
            && Serializable(WithReservedValue(tx))
            && WitnessForm(legacy) == Some(TxBytes(WithReservedValue(tx)))
            && Stripped(WithReservedValue(tx)) == tx
  {
    assert CoreBytes(WithReservedValue(tx)) == CoreBytes(tx);
    ReservedIsSerializable(tx);
    ReservedStackBytes();
    hide CoreBytes, Flatten, LeBytes, StackBytes, Serializable;
    var stack := [1, 0x20] + ZERO_HASH;
    assert TxBytes(WithReservedValue(tx))
           == LeBytes(tx.version, 4) + ([0, 1] + (CoreBytes(tx) + (stack + LeBytes(tx.locktime, 4))));
    assert LegacyBytes(tx) == LeBytes(tx.version, 4) + (CoreBytes(tx) + LeBytes(tx.locktime, 4));
    hide TxBytes, LegacyBytes, WithReservedValue, Zeros;
    InsertionByPosition(LeBytes(tx.version, 4), CoreBytes(tx), LeBytes(tx.locktime, 4), stack);
  }

  lemma ReservedIsSerializable(tx: Tx)
    requires Serializable(tx) && |tx.inputs| == 1 && tx.stacks == []
    ensures Serializable(WithReservedValue(tx)) && Stripped(WithReservedValue(tx)) == tx
  {
  }

  lemma InsertionByPosition(version: Bytes, core: Bytes, locktime: Bytes, stack: Bytes)
    requires |version| == 4 && |locktime| == 4
    ensures var legacy := version + (core + locktime);
            && |legacy| >= 8
            && legacy[..4] + [0, 1] + legacy[4..|legacy| - 4] + stack + legacy[|legacy| - 4..]
               == version + ([0, 1] + (core + (stack + locktime)))
  {
    var legacy := version + (core + locktime);
    assert legacy[..4] == version && legacy[4..|legacy| - 4] == core && legacy[|legacy| - 4..] == locktime;
  }

  lemma ReservedStackBytes()
    ensures Flatten(StackBytes, [RESERVED_STACK]) == [1, 0x20] + ZERO_HASH
  {
    FlattenOne<seq<Bytes>>(StackBytes, RESERVED_STACK);
    FlattenOne<Bytes>(BlobBytes, ZERO_HASH);
    assert RESERVED_STACK == [ZERO_HASH] && |RESERVED_STACK| == 1;
    assert Encode(|ZERO_HASH|) == [0x20] && Encode(|RESERVED_STACK|) == [1];
    assert BlobBytes(ZERO_HASH) == [0x20] + ZERO_HASH;
    assert StackBytes(RESERVED_STACK) == [1] + ([0x20] + ZERO_HASH);
  }
}
