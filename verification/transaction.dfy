/** The reference meaning of transaction and block bytes: BIP 141 "Transaction ID" and BIP 144 "Serialization". */
module Transactions {
  import opened ByteStrings
  import opened CompactSize

  datatype TxIn = TxIn(prevHash: Hash, prevIndex: U32, script: Bytes, sequence: U32)
  datatype TxOut = TxOut(value: U64, script: Bytes)
  datatype Tx = Tx(version: U32, inputs: seq<TxIn>, outputs: seq<TxOut>, stacks: seq<seq<Bytes>>, locktime: U32)
  datatype Header = Header(version: U32, prevHash: Hash, merkleRoot: Hash, time: U32, nbits: U32, nonce: U32)
  datatype Block = Block(header: Header, txs: seq<Tx>)

  predicate Sized(n: nat) { n < 0x1_0000_0000_0000_0000 }

  predicate StackSized(stack: seq<Bytes>) {
    Sized(|stack|) && forall item | item in stack :: Sized(|item|)
  }

  /** What the two formats can carry: at least one input, and a witness stack per input when any is carried. */
  predicate Serializable(tx: Tx) {
    && tx.inputs != [] && Sized(|tx.inputs|) && Sized(|tx.outputs|)
    && (forall i | i in tx.inputs :: Sized(|i.script|))
    && (forall o | o in tx.outputs :: Sized(|o.script|))
    && (tx.stacks != [] ==> |tx.stacks| == |tx.inputs|)
    && (forall stack | stack in tx.stacks :: StackSized(stack))
  }

  // Serialisation

  function Flatten<T>(encode: T -> Bytes, items: seq<T>): Bytes {
    if items == [] then [] else encode(items[0]) + Flatten(encode, items[1..])
  }

  lemma FlattenOne<T>(encode: T -> Bytes, a: T)
    ensures Flatten(encode, [a]) == encode(a)
  {
    assert [a][1..] == [];
    assert Flatten(encode, [a]) == encode(a) + [];
  }

  lemma FlattenTwo<T>(encode: T -> Bytes, a: T, b: T)
    ensures Flatten(encode, [a, b]) == encode(a) + encode(b)
  {
    assert [a, b][1..] == [b];
    FlattenOne(encode, b);
  }

  function BlobBytes(blob: Bytes): Bytes {
    if Sized(|blob|) then Encode(|blob|) + blob else []
  }

  function TxInBytes(i: TxIn): Bytes {
    i.prevHash + (LeBytes(i.prevIndex, 4) + (BlobBytes(i.script) + LeBytes(i.sequence, 4)))
  }

  function TxOutBytes(o: TxOut): Bytes {
    LeBytes(o.value, 8) + BlobBytes(o.script)
  }

  function StackBytes(stack: seq<Bytes>): Bytes {
    if Sized(|stack|) then Encode(|stack|) + Flatten(BlobBytes, stack) else []
  }

  /** Inputs and outputs with their counts, the part both formats share. */
  function CoreBytes(tx: Tx): Bytes
    requires Serializable(tx)
  {
    (Encode(|tx.inputs|) + Flatten(TxInBytes, tx.inputs)) + (Encode(|tx.outputs|) + Flatten(TxOutBytes, tx.outputs))
  }

  function LegacyBytes(tx: Tx): Bytes
    requires Serializable(tx)
  {
    LeBytes(tx.version, 4) + (CoreBytes(tx) + LeBytes(tx.locktime, 4))
  }

  function TxBytes(tx: Tx): Bytes
    requires Serializable(tx)
  {
    if tx.stacks == [] then LegacyBytes(tx)
    else
      LeBytes(tx.version, 4)
      + ([0, 1] + (CoreBytes(tx) + (Flatten(StackBytes, tx.stacks) + LeBytes(tx.locktime, 4))))
  }

  /** The transaction without its witness, which is what the txid covers. */
  function Stripped(tx: Tx): Tx { tx.(stacks := []) }

  function Txid(h: Hasher, tx: Tx): Hash
    requires Serializable(tx)
  {
    h(LegacyBytes(tx))
  }

  function HeaderBytes(header: Header): (s: Bytes)
    ensures |s| == 80
  {
    LeBytes(header.version, 4) + (header.prevHash + (header.merkleRoot
      + (LeBytes(header.time, 4) + (LeBytes(header.nbits, 4) + LeBytes(header.nonce, 4)))))
  }

  // Parsing

  function ReadMany<T>(read: Bytes -> Parsed<T>, n: nat, s: Bytes): Parsed<seq<T>> {
    if n == 0 then Parsed([], s)
    else
      match read(s)
      case Malformed => Malformed
      case Parsed(first, rest) =>
        match ReadMany(read, n - 1, rest)
        case Malformed => Malformed
        case Parsed(others, rest') => Parsed([first] + others, rest')
  }

  function ReadCounted<T>(read: Bytes -> Parsed<T>, s: Bytes): Parsed<seq<T>> {
    match Decode(s)
    case Malformed => Malformed
    case Parsed(n, rest) => ReadMany(read, n, rest)
  }

  function ReadBlob(s: Bytes): Parsed<Bytes> {
    match Decode(s)
    case Malformed => Malformed
    case Parsed(n, rest) => Take(n, rest)
  }

  function ReadHash(s: Bytes): Parsed<Hash> {
    if |s| < 32 then Malformed else Parsed(s[..32], s[32..])
  }

  function ReadTxIn(s: Bytes): Parsed<TxIn> {
    match ReadHash(s)
    case Malformed => Malformed
    case Parsed(prevHash, s1) =>
      match ReadU32(s1)
      case Malformed => Malformed
      case Parsed(prevIndex, s2) =>
        match ReadBlob(s2)
        case Malformed => Malformed
        case Parsed(script, s3) =>
          match ReadU32(s3)
          case Malformed => Malformed
          case Parsed(sequence, s4) => Parsed(TxIn(prevHash, prevIndex, script, sequence), s4)
  }

  function ReadTxOut(s: Bytes): Parsed<TxOut> {
    match ReadU64(s)
    case Malformed => Malformed
    case Parsed(value, s1) =>
      match ReadBlob(s1)
      case Malformed => Malformed
      case Parsed(script, s2) => Parsed(TxOut(value, script), s2)
  }

  function ReadStack(s: Bytes): Parsed<seq<Bytes>> {
    ReadCounted(ReadBlob, s)
  }

  /** Everything after the version and, in the witness format, the marker and flag. */
  function ReadTxBody(version: U32, segwit: bool, s: Bytes): Parsed<Tx> {
    match ReadCounted(ReadTxIn, s)
    case Malformed => Malformed
    case Parsed(inputs, s1) =>
      match ReadCounted(ReadTxOut, s1)
      case Malformed => Malformed
      case Parsed(outputs, s2) =>
        match ReadMany(ReadStack, if segwit then |inputs| else 0, s2)
        case Malformed => Malformed
        case Parsed(stacks, s3) =>
          match ReadU32(s3)
          case Malformed => Malformed
          case Parsed(locktime, s4) => Parsed(Tx(version, inputs, outputs, stacks, locktime), s4)
  }

  /** A zero marker byte where the input count stands, with flag one, announces the witness format. */
  function ReadTx(s: Bytes): Parsed<Tx> {
    match ReadU32(s)
    case Malformed => Malformed
    case Parsed(version, s1) =>
      if |s1| >= 2 && s1[..2] == [0, 1] then ReadTxBody(version, true, s1[2..])
      else ReadTxBody(version, false, s1)
  }

  function ReadHeader(s: Bytes): Parsed<Header> {
    match ReadU32(s)
    case Malformed => Malformed
    case Parsed(version, s1) =>
      match ReadHash(s1)
      case Malformed => Malformed
      case Parsed(prevHash, s2) =>
        match ReadHash(s2)
        case Malformed => Malformed
        case Parsed(merkleRoot, s3) =>
          match ReadU32(s3)
          case Malformed => Malformed
          case Parsed(time, s4) =>
            match ReadU32(s4)
            case Malformed => Malformed
            case Parsed(nbits, s5) =>
              match ReadU32(s5)
              case Malformed => Malformed
              case Parsed(nonce, s6) => Parsed(Header(version, prevHash, merkleRoot, time, nbits, nonce), s6)
  }

  function ReadBlock(s: Bytes): Parsed<Block> {
    match ReadHeader(s)
    case Malformed => Malformed
    case Parsed(header, s1) =>
      match ReadCounted(ReadTx, s1)
      case Malformed => Malformed
      case Parsed(txs, s2) => Parsed(Block(header, txs), s2)
  }

  // Round trips

  lemma {:induction false} ManyRoundTrip<T>(read: Bytes -> Parsed<T>, encode: T -> Bytes, items: seq<T>, rest: Bytes)
    requires forall x, tail | x in items :: read(encode(x) + tail) == Parsed(x, tail)
    ensures ReadMany(read, |items|, Flatten(encode, items) + rest) == Parsed(items, rest)
  {
    if items != [] {
      var tail := Flatten(encode, items[1..]) + rest;
      assert Flatten(encode, items) + rest == encode(items[0]) + tail;
      assert read(encode(items[0]) + tail) == Parsed(items[0], tail);
      ManyRoundTrip(read, encode, items[1..], rest);
      assert [items[0]] + items[1..] == items;
    }
  }

  lemma CountedRoundTrip<T>(read: Bytes -> Parsed<T>, encode: T -> Bytes, items: seq<T>, rest: Bytes)
    requires Sized(|items|)
    requires forall x, tail | x in items :: read(encode(x) + tail) == Parsed(x, tail)
    ensures ReadCounted(read, (Encode(|items|) + Flatten(encode, items)) + rest) == Parsed(items, rest)
  {
    var tail := Flatten(encode, items) + rest;
    assert (Encode(|items|) + Flatten(encode, items)) + rest == Encode(|items|) + tail;
    RoundTrip(|items|, tail);
    ManyRoundTrip(read, encode, items, rest);
  }

  lemma BlobRoundTrip(blob: Bytes, rest: Bytes)
    requires Sized(|blob|)
    ensures ReadBlob(BlobBytes(blob) + rest) == Parsed(blob, rest)
  {
    assert BlobBytes(blob) + rest == Encode(|blob|) + (blob + rest);
    RoundTrip(|blob|, blob + rest);
  }

  lemma TxInRoundTrip(i: TxIn, rest: Bytes)
    requires Sized(|i.script|)
    ensures ReadTxIn(TxInBytes(i) + rest) == Parsed(i, rest)
  {
    var t3 := LeBytes(i.sequence, 4) + rest;
    var t2 := BlobBytes(i.script) + t3;
    var t1 := LeBytes(i.prevIndex, 4) + t2;
    var s := TxInBytes(i) + rest;
    assert s == i.prevHash + t1;
    assert s[..32] == i.prevHash && s[32..] == t1;
    U32RoundTrip(i.prevIndex, t2);
    BlobRoundTrip(i.script, t3);
    U32RoundTrip(i.sequence, rest);
  }

  lemma TxOutRoundTrip(o: TxOut, rest: Bytes)
    requires Sized(|o.script|)
    ensures ReadTxOut(TxOutBytes(o) + rest) == Parsed(o, rest)
  {
    var t1 := BlobBytes(o.script) + rest;
    assert TxOutBytes(o) + rest == LeBytes(o.value, 8) + t1;
    U64RoundTrip(o.value, t1);
    BlobRoundTrip(o.script, rest);
  }

  lemma StackRoundTrip(stack: seq<Bytes>, rest: Bytes)
    requires StackSized(stack)
    ensures ReadStack(StackBytes(stack) + rest) == Parsed(stack, rest)
  {
    forall item, tail | item in stack
      ensures ReadBlob(BlobBytes(item) + tail) == Parsed(item, tail)
    {
      BlobRoundTrip(item, tail);
    }
    CountedRoundTrip(ReadBlob, BlobBytes, stack, rest);
  }

  lemma InputsRoundTrip(tx: Tx, rest: Bytes)
    requires Serializable(tx)
    ensures ReadCounted(ReadTxIn, (Encode(|tx.inputs|) + Flatten(TxInBytes, tx.inputs)) + rest)
            == Parsed(tx.inputs, rest)
  {
    forall i, tail | i in tx.inputs
      ensures ReadTxIn(TxInBytes(i) + tail) == Parsed(i, tail)
    {
      TxInRoundTrip(i, tail);
    }
    CountedRoundTrip(ReadTxIn, TxInBytes, tx.inputs, rest);
  }

  lemma OutputsRoundTrip(tx: Tx, rest: Bytes)
    requires Serializable(tx)
    ensures ReadCounted(ReadTxOut, (Encode(|tx.outputs|) + Flatten(TxOutBytes, tx.outputs)) + rest)
            == Parsed(tx.outputs, rest)
  {
    forall o, tail | o in tx.outputs
      ensures ReadTxOut(TxOutBytes(o) + tail) == Parsed(o, tail)
    {
      TxOutRoundTrip(o, tail);
    }
    CountedRoundTrip(ReadTxOut, TxOutBytes, tx.outputs, rest);
  }

  lemma WitnessRoundTrip(tx: Tx, rest: Bytes)
    requires Serializable(tx)
    ensures ReadMany(ReadStack, |tx.stacks|, Flatten(StackBytes, tx.stacks) + rest) == Parsed(tx.stacks, rest)
  {
    forall stack, tail | stack in tx.stacks
      ensures ReadStack(StackBytes(stack) + tail) == Parsed(stack, tail)
    {
      StackRoundTrip(stack, tail);
    }
    ManyRoundTrip(ReadStack, StackBytes, tx.stacks, rest);
  }

  lemma TxBodyRoundTrip(tx: Tx, rest: Bytes)
    requires Serializable(tx)
    ensures var tail := Flatten(StackBytes, tx.stacks) + (LeBytes(tx.locktime, 4) + rest);
            ReadTxBody(tx.version, tx.stacks != [], CoreBytes(tx) + tail) == Parsed(tx, rest)
  {
    var t3 := LeBytes(tx.locktime, 4) + rest;
    var t2 := Flatten(StackBytes, tx.stacks) + t3;
    var t1 := (Encode(|tx.outputs|) + Flatten(TxOutBytes, tx.outputs)) + t2;
    assert CoreBytes(tx) + t2 == (Encode(|tx.inputs|) + Flatten(TxInBytes, tx.inputs)) + t1;
    InputsRoundTrip(tx, t1);
    OutputsRoundTrip(tx, t2);
    WitnessRoundTrip(tx, t3);
    U32RoundTrip(tx.locktime, rest);
  }

  lemma LegacyRoundTrip(tx: Tx, rest: Bytes)
    requires Serializable(tx) && tx.stacks == []
    ensures ReadTx(LegacyBytes(tx) + rest) == Parsed(tx, rest)
  {
    var t := CoreBytes(tx) + (LeBytes(tx.locktime, 4) + rest);
    assert LegacyBytes(tx) + rest == LeBytes(tx.version, 4) + t;
    assert ReadTx(LeBytes(tx.version, 4) + t) == ReadTxBody(tx.version, false, t) by {
      U32RoundTrip(tx.version, t);
      NoMarker(tx, LeBytes(tx.locktime, 4) + rest);
    }
    assert ReadTxBody(tx.version, false, t) == Parsed(tx, rest) by {
      TxBodyRoundTrip(tx, rest);
      assert [] + (LeBytes(tx.locktime, 4) + rest) == LeBytes(tx.locktime, 4) + rest;
    }
  }

  lemma SegwitRoundTrip(tx: Tx, rest: Bytes)
    requires Serializable(tx) && tx.stacks != []
    ensures ReadTx(TxBytes(tx) + rest) == Parsed(tx, rest)
  {
    var t2 := CoreBytes(tx) + (Flatten(StackBytes, tx.stacks) + (LeBytes(tx.locktime, 4) + rest));
    var t1 := [0, 1] + t2;
    assert TxBytes(tx) + rest == LeBytes(tx.version, 4) + t1;
    U32RoundTrip(tx.version, t1);
    assert t1[..2] == [0, 1] && t1[2..] == t2;
    assert ReadTx(TxBytes(tx) + rest) == ReadTxBody(tx.version, true, t2);
    TxBodyRoundTrip(tx, rest);
  }

  /** The parser gives back every serialisable transaction, in whichever format it was written. */
  lemma TxRoundTrip(tx: Tx, rest: Bytes)
    requires Serializable(tx)
    ensures ReadTx(TxBytes(tx) + rest) == Parsed(tx, rest)
  {
    if tx.stacks == [] {
      LegacyRoundTrip(tx, rest);
    } else {
      SegwitRoundTrip(tx, rest);
    }
  }

  /** A positive input count never looks like the witness marker. */
  lemma NoMarker(tx: Tx, rest: Bytes)
    requires Serializable(tx)
    ensures var s := CoreBytes(tx) + rest; !(|s| >= 2 && s[..2] == [0, 1])
  {
    var s := CoreBytes(tx) + rest;
    var count := Encode(|tx.inputs|);
    assert count != [] && count[0] != 0;
    assert s[0] == CoreBytes(tx)[0] == count[0];
    assert |s| >= 2 ==> s[..2][0] == s[0];
  }

  lemma HeaderRoundTrip(header: Header, rest: Bytes)
    ensures ReadHeader(HeaderBytes(header) + rest) == Parsed(header, rest)
  {
    var t5 := LeBytes(header.nonce, 4) + rest;
    var t4 := LeBytes(header.nbits, 4) + t5;
    var t3 := LeBytes(header.time, 4) + t4;
    var t2 := header.merkleRoot + t3;
    var t1 := header.prevHash + t2;
    assert HeaderBytes(header) + rest == LeBytes(header.version, 4) + t1;
    U32RoundTrip(header.version, t1);
    assert t1[..32] == header.prevHash && t1[32..] == t2;
    assert t2[..32] == header.merkleRoot && t2[32..] == t3;
    U32RoundTrip(header.time, t4);
    U32RoundTrip(header.nbits, t5);
    U32RoundTrip(header.nonce, rest);
  }

  function BlockBytes(block: Block): Bytes
    requires Sized(|block.txs|) && forall tx | tx in block.txs :: Serializable(tx)
  {
    HeaderBytes(block.header) + (Encode(|block.txs|) + Flatten(TxBytesOrNothing, block.txs))
  }

  function TxBytesOrNothing(tx: Tx): Bytes {
    if Serializable(tx) then TxBytes(tx) else []
  }

  /** The parser gives back every block of serialisable transactions. */
  lemma BlockRoundTrip(block: Block, rest: Bytes)
    requires Sized(|block.txs|) && forall tx | tx in block.txs :: Serializable(tx)
    ensures ReadBlock(BlockBytes(block) + rest) == Parsed(block, rest)
  {
    var t1 := (Encode(|block.txs|) + Flatten(TxBytesOrNothing, block.txs)) + rest;
    assert BlockBytes(block) + rest == HeaderBytes(block.header) + t1;
    HeaderRoundTrip(block.header, t1);
    forall tx, tail | tx in block.txs
      ensures ReadTx(TxBytesOrNothing(tx) + tail) == Parsed(tx, tail)
    {
      TxRoundTrip(tx, tail);
    }
    CountedRoundTrip(ReadTx, TxBytesOrNothing, block.txs, rest);
  }
}
