/** Share validation and block assembly: `validate_share`, `build_header`, `build_block_hex` (src/share.rs). */
module Shares {
  import opened ByteStrings
  import opened CompactSize
  import opened Coinbase
  import opened Jobs
  import opened Merkle
  import opened Targets
  import opened Transactions

  /** A submission by its decoded fields; `None` where the text is not hexadecimal (or, for `version`, absent). */
  datatype Submit = Submit(extranonce2: Option<Bytes>, ntime: Option<U32>, nonce: Option<U32>, version: Option<U32>)

  /** `difficulty` is `None` for the infinite difficulty of the zero hash. */
  datatype ShareResult = ShareResult(
    accepted: bool, isBlock: bool, hash: Hash, block: Option<Bytes>, coinbase: Option<Bytes>, difficulty: Option<real>)

  const REJECTED := ShareResult(false, false, ZERO_HASH, None, None, Some(0.0))

  predicate TimeRejected(job: Job, ntime: U32, now: nat) {
    (job.mintime != 0 && ntime < job.mintime) || ntime > now + 7200
  }

  function CoinbaseBytes(job: Job, prefix: Bytes, extranonce2: Bytes, override: Option<Bytes>): Bytes {
    prefix + extranonce2 + if override.Some? then override.value else job.coinbase2
  }

  function ShareHeader(h: Hasher, job: Job, coinbase: Bytes, submit: Submit): Header
    requires submit.ntime.Some? && submit.nonce.Some?
  {
    Header(if submit.version.Some? then submit.version.value else job.version, job.prevHash,
           Fold(h, h(coinbase), job.branches), submit.ntime.value, job.nbits, submit.nonce.value)
  }

  function AssembledBlock(header: Header, coinbase: Bytes, job: Job): Option<Bytes>
    requires Sized(|job.transactions| + 1)
  {
    match if job.hasCommitment then WitnessForm(coinbase) else Some(coinbase)
    case None => None
    case Some(bytes) => Some(HeaderBytes(header) + Encode(|job.transactions| + 1) + bytes + Concat(job.transactions))
  }

  function Difficulty(hash: Hash): Option<real> {
    if LeValue(hash) == 0 then None else Some(DisplayDifficulty(hash))
  }

  /** What `validate_share` answers, `None` being its error exit. `now` is the clock in seconds. */
  function Outcome(h: Hasher, job: Job, prefix: Bytes, submit: Submit, shareTarget: Hash, override: Option<Bytes>,
                   now: nat): Option<ShareResult>
    requires Sized(|job.transactions| + 1)
  {
    if submit.ntime.None? then None
    else if TimeRejected(job, submit.ntime.value, now) then Some(REJECTED)
    else if submit.extranonce2.None? || submit.nonce.None? then None
    else
      var coinbase := CoinbaseBytes(job, prefix, submit.extranonce2.value, override);
      var header := ShareHeader(h, job, coinbase, submit);
      var hash := h(HeaderBytes(header));
      var isBlock := LeValue(hash) <= LeValue(job.target);
      var block := if isBlock then AssembledBlock(header, coinbase, job) else None;
      if isBlock && block.None? then None
      else Some(ShareResult(LeValue(hash) <= LeValue(shareTarget), isBlock, hash, block,
                            if isBlock then Some(coinbase) else None, Difficulty(hash)))
  }

  method BuildHeader(version: U32, prevHash: Hash, merkleRoot: Hash, time: U32, nbits: U32, nonce: U32)
    returns (bytes: Bytes)
    ensures bytes == HeaderBytes(Header(version, prevHash, merkleRoot, time, nbits, nonce))
  {
    bytes := LeBytes(version, 4) + prevHash + merkleRoot;
    var tail := LeBytes(time, 4) + LeBytes(nbits, 4) + LeBytes(nonce, 4);
    assert tail == LeBytes(time, 4) + (LeBytes(nbits, 4) + LeBytes(nonce, 4));
    bytes := bytes + tail;
    assert bytes == LeBytes(version, 4) + (prevHash + (merkleRoot + tail));
  }

  method BuildBlock(header: Header, coinbase: Bytes, job: Job) returns (block: Option<Bytes>)
    requires Sized(|job.transactions| + 1)
    ensures block == AssembledBlock(header, coinbase, job)
  {
    hide HeaderBytes, WitnessForm, Encode;
    var bytes := EncodeVarint(|job.transactions| + 1, HeaderBytes(header));
    if job.hasCommitment {
      var full := BuildCoinbaseWithWitness(coinbase);
      if full.None? {
        return None;
      }
      bytes := bytes + full.value;
    } else {
      bytes := bytes + coinbase;
    }
    ghost var start := bytes;
    for i := 0 to |job.transactions|
      invariant bytes == start + Concat(job.transactions[..i])
    {
      ConcatAppend(job.transactions[..i], job.transactions[i]);
      assert job.transactions[..i + 1] == job.transactions[..i] + [job.transactions[i]];
      bytes := bytes + job.transactions[i];
    }
    assert job.transactions[..|job.transactions|] == job.transactions;
    return Some(bytes);
  }

  /** The loops compute the specified outcome. */
  method ValidateShare(h: Hasher, job: Job, prefix: Bytes, submit: Submit, shareTarget: Hash, override: Option<Bytes>,
                       now: nat)
    returns (result: Option<ShareResult>)
    requires Sized(|job.transactions| + 1)
    ensures result == Outcome(h, job, prefix, submit, shareTarget, override, now)
  {
    if submit.ntime.None? {
      return None;
    }
    var ntime := submit.ntime.value;
    if job.mintime != 0 && ntime < job.mintime {
      return Some(REJECTED);
    }
    if ntime > now + 7200 {
      return Some(REJECTED);
    }
    if submit.extranonce2.None? {
      return None;
    }
    var coinbase := prefix;
    coinbase := coinbase + submit.extranonce2.value;
    coinbase := coinbase + (if override.Some? then override.value else job.coinbase2);
    var root := FoldBranches(h, h(coinbase), job.branches);
    var version := if submit.version.Some? then submit.version.value else job.version;
    if submit.nonce.None? {
      return None;
    }
    var bytes := BuildHeader(version, job.prevHash, root, ntime, job.nbits, submit.nonce.value);
    var hash := h(bytes);
    var accepted := LeqLe256(hash, shareTarget);
    var isBlock := LeqLe256(hash, job.target);
    var difficulty := Difficulty(hash);
    if !isBlock {
      return Some(ShareResult(accepted, false, hash, None, None, difficulty));
    }
    var block := BuildBlock(Header(version, job.prevHash, root, ntime, job.nbits, submit.nonce.value), coinbase, job);
    if block.None? {
      return None;
    }
    return Some(ShareResult(accepted, true, hash, block, Some(coinbase), difficulty));
  }

  // Correctness of an emitted block

  predicate AllSerializable(txs: seq<Tx>) {
    Sized(|txs| + 1) && forall tx | tx in txs :: Serializable(tx)
  }

  function TxData(txs: seq<Tx>): seq<Bytes> {
    seq(|txs|, i requires 0 <= i < |txs| => TxBytesOrNothing(txs[i]))
  }

  function Txids(h: Hasher, txs: seq<Tx>): seq<Hash>
    requires AllSerializable(txs)
  {
    seq(|txs|, i requires 0 <= i < |txs| => Txid(h, txs[i]))
  }

  lemma {:induction false} ConcatIsFlatten(txs: seq<Tx>)
    ensures Concat(TxData(txs)) == Flatten(TxBytesOrNothing, txs)
  {
    if txs != [] {
      assert TxData(txs)[1..] == TxData(txs[1..]);
      ConcatIsFlatten(txs[1..]);
    }
  }

  /** The transaction form of the coinbase a block carries: with the reserved value when the template commits to
      witnesses. */
  function BlockCoinbase(cfg: Config, req: Request, extranonce: Bytes): (tx: Tx)
    requires Fits(cfg, req) && Encodable(cfg, req)
  {
    if req.commitment.Some? then WithReservedValue(CoinbaseTx(cfg, req, extranonce))
      else CoinbaseTx(cfg, req, extranonce)
  }

  lemma CoinbaseForms(cfg: Config, req: Request, extranonce: Bytes)
    requires Fits(cfg, req) && Encodable(cfg, req) && |extranonce| == cfg.extranonce1Size + cfg.extranonce2Size
    ensures var tx := BlockCoinbase(cfg, req, extranonce);
            var legacy := LegacyBytes(CoinbaseTx(cfg, req, extranonce));
            && Serializable(tx) && Stripped(tx) == CoinbaseTx(cfg, req, extranonce)
            && LegacyBytes(tx) == legacy
            && (if req.commitment.Some? then WitnessForm(legacy) else Some(legacy)) == Some(TxBytes(tx))
  {
    var tx := CoinbaseTx(cfg, req, extranonce);
    WitnessInsertion(tx);
    assert CoreBytes(WithReservedValue(tx)) == CoreBytes(tx);
  }

  predicate ParsesTo(bytes: Bytes, block: Block) {
    ReadBlock(bytes) == Parsed(block, [])
  }

  function CandidateBlock(cfg: Config, req: Request, txs: seq<Tx>, extranonce: Bytes, header: Header): Block
    requires Fits(cfg, req) && Encodable(cfg, req)
  {
    Block(header, [BlockCoinbase(cfg, req, extranonce)] + txs)
  }

  /** Everything a node checks of a candidate block's structure: it parses, it is the template's transactions after the
      intended coinbase, its Merkle root is the full-tree root over the txids, and its hash meets the job's target. */
  ghost predicate ValidCandidate(h: Hasher, cfg: Config, req: Request, txs: seq<Tx>, job: Job, extranonce: Bytes,
                                 header: Header, bytes: Bytes)
    requires Fits(cfg, req) && Encodable(cfg, req)
  {
    var block := CandidateBlock(cfg, req, txs, extranonce, header);
    && ParsesTo(bytes, block)
    && AllSerializable(block.txs)
    && header.merkleRoot == Root(h, Txids(h, block.txs))
    && header.prevHash == job.prevHash
    && header.nbits == job.nbits
    && (job.mintime != 0 ==> header.time >= job.mintime)
    && LeValue(h(HeaderBytes(header))) <= LeValue(job.target)
    && Stripped(block.txs[0]) == CoinbaseTx(cfg, req, extranonce)
  }

  lemma HeaderFields(h: Hasher, job: Job, coinbase: Bytes, submit: Submit)
    requires submit.ntime.Some? && submit.nonce.Some?
    ensures var header := ShareHeader(h, job, coinbase, submit);
            && header.merkleRoot == Fold(h, h(coinbase), job.branches)
            && header.prevHash == job.prevHash && header.nbits == job.nbits
            && submit.ntime == Some(header.time) && submit.nonce == Some(header.nonce)
            && header.version == if submit.version.Some? then submit.version.value else job.version
  {
  }

  /** What is known when a block comes out. */
  lemma OutcomeBlock(h: Hasher, job: Job, prefix: Bytes, submit: Submit, shareTarget: Hash, now: nat)
    requires Sized(|job.transactions| + 1)
    requires var r := Outcome(h, job, prefix, submit, shareTarget, None, now); r.Some? && r.value.block.Some?
    ensures submit.ntime.Some? && submit.nonce.Some? && submit.extranonce2.Some?
    ensures var r := Outcome(h, job, prefix, submit, shareTarget, None, now).value;
            var coinbase := CoinbaseBytes(job, prefix, submit.extranonce2.value, None);
            var header := ShareHeader(h, job, coinbase, submit);
            && r.block == AssembledBlock(header, coinbase, job) && r.coinbase == Some(coinbase)
            && r.hash == h(HeaderBytes(header)) && LeValue(r.hash) <= LeValue(job.target)
            && (job.mintime != 0 ==> submit.ntime.value >= job.mintime)
  {
    hide AssembledBlock, HeaderBytes, ShareHeader, CoinbaseBytes, LeValue;
  }

  /** End to end: for every job of the right shape, extranonces, ntime, nonce and version, a block that comes out is a
      valid candidate, byte for byte the BIP 144 serialisation of what it parses to, under the header the miner
      hashed. */
  lemma EmittedBlockIsValid(h: Hasher, cfg: Config, req: Request, txs: seq<Tx>, job: Job,
                            en1: Bytes, submit: Submit, shareTarget: Hash, now: nat) returns (header: Header)
    requires AllSerializable(txs) && Sized(|txs| + 2)
    requires JobShape(h, cfg, req, Txids(h, txs), TxData(txs), job)
    requires |en1| == cfg.extranonce1Size
    requires submit.extranonce2.Some? && |submit.extranonce2.value| == cfg.extranonce2Size
    requires var r := Outcome(h, job, job.coinbase1 + en1, submit, shareTarget, None, now);
             r.Some? && r.value.block.Some?
    ensures var r := Outcome(h, job, job.coinbase1 + en1, submit, shareTarget, None, now).value;
            var extranonce := en1 + submit.extranonce2.value;
            && ValidCandidate(h, cfg, req, txs, job, extranonce, header, r.block.value)
            && r.block.value == BlockBytes(CandidateBlock(cfg, req, txs, extranonce, header))
            && r.coinbase == Some(LegacyBytes(CoinbaseTx(cfg, req, extranonce)))
            && r.hash == h(HeaderBytes(header))
            && submit.ntime == Some(header.time) && submit.nonce == Some(header.nonce)
            && header.version == if submit.version.Some? then submit.version.value else job.version
  {
    var extranonce := en1 + submit.extranonce2.value;
    var coinbase := CoinbaseBytes(job, job.coinbase1 + en1, submit.extranonce2.value, None);
    assert coinbase == LegacyBytes(CoinbaseTx(cfg, req, extranonce)) by {
      FilledBytes(cfg, req, job.coinbase1, job.coinbase2, en1, submit.extranonce2.value);
    }
    header := ShareHeader(h, job, coinbase, submit);
    OutcomeBlock(h, job, job.coinbase1 + en1, submit, shareTarget, now);
    hide Outcome, ShareHeader;
    HeaderFields(h, job, coinbase, submit);
    BlockBytesMatch(cfg, req, txs, job, extranonce, header);
    BlockParses(cfg, req, txs, extranonce, header);
    FullTreeRoot(h, cfg, req, txs, extranonce);
    CoinbaseForms(cfg, req, extranonce);
    hide CoinbaseTx, BlockCoinbase, HeaderBytes, BlockBytes, Fold, Root, LeftPath, Txids, TxData, FillsHole, ParsesTo,
         AssembledBlock, LegacyBytes, Encodable, Fits, Serializable;
  }

  /** What an honest node's answer says of its transactions. */
  predicate Describes(h: Hasher, gbt: Gbt, txs: seq<Tx>) {
    && AllSerializable(txs) && Sized(|txs| + 2) && |gbt.txs| == |txs|
    && forall i :: 0 <= i < |txs| ==> gbt.txs[i].data == TxBytes(txs[i]) && gbt.txs[i].txid == Some(Txid(h, txs[i]))
  }

  /** From the node's answer to the block: whatever share is then validated on the job built from it, a block that
      comes out is a valid candidate for the answer's own parent, bits and target, over the answer's own
      transactions. */
  method BlockFromAnswer(h: Hasher, cfg: Config, gbt: Gbt, key: TemplateKey, ghost txs: seq<Tx>,
                         en1: Bytes, submit: Submit, shareTarget: Hash, now: nat)
    returns (built: bool, result: Option<ShareResult>, ghost job: Job, ghost header: Header)
    requires Encodable(cfg, GbtRequest(gbt)) && Describes(h, gbt, txs)
    requires |en1| == cfg.extranonce1Size
    requires submit.extranonce2.Some? && |submit.extranonce2.value| == cfg.extranonce2Size
    ensures built <==> Buildable(cfg, gbt)
    ensures built && result.Some? && result.value.block.Some? ==>
      && Fits(cfg, GbtRequest(gbt))
      && ValidCandidate(h, cfg, GbtRequest(gbt), txs, job, en1 + submit.extranonce2.value, header,
                        result.value.block.value)
      && header.prevHash == gbt.prevHash && gbt.nbits == Some(header.nbits)
      && LeValue(h(HeaderBytes(header))) <= LeValue(TargetLe(gbt.target))
  {
    hide JobShape, Outcome, ValidCandidate, HeaderBytes, TargetLe, Encodable, Fits, Serializable;
    var made := BuildJob(h, cfg, gbt, key);
    header := Header(0, ZERO_HASH, ZERO_HASH, 0, 0, 0);
    if made.None? {
      return false, None, EMPTY_JOB, header;
    }
    job := made.value;
    assert gbt.nbits.Some? && TxidsKnown(gbt);
    DescribedShape(h, cfg, gbt, txs, job);
    hide Describes, Buildable, AllSerializable;
    result := ValidateShare(h, made.value, made.value.coinbase1 + en1, submit, shareTarget, None, now);
    if result.Some? && result.value.block.Some? {
      header := EmittedBlockIsValid(h, cfg, GbtRequest(gbt), txs, job, en1, submit, shareTarget, now);
      CandidateFields(h, cfg, GbtRequest(gbt), txs, job, en1 + submit.extranonce2.value, header,
                      result.value.block.value);
    }
    return true, result, job, header;
  }

  lemma DescribedShape(h: Hasher, cfg: Config, gbt: Gbt, txs: seq<Tx>, job: Job)
    requires Describes(h, gbt, txs) && TxidsKnown(gbt)
    requires JobShape(h, cfg, GbtRequest(gbt), GbtTxids(gbt), GbtData(gbt), job)
    ensures JobShape(h, cfg, GbtRequest(gbt), Txids(h, txs), TxData(txs), job)
    ensures AllSerializable(txs) && Sized(|txs| + 2) && Sized(|job.transactions| + 1)
    ensures Fits(cfg, GbtRequest(gbt)) && Encodable(cfg, GbtRequest(gbt))
  {
    hide FillsHole, LeftPath, TxBytes, LegacyBytes, Serializable, Encodable, Fits;
    assert |job.transactions| == |txs|;
    assert GbtData(gbt) == TxData(txs);
    assert GbtTxids(gbt) == Txids(h, txs);
  }

  lemma CandidateFields(h: Hasher, cfg: Config, req: Request, txs: seq<Tx>, job: Job, extranonce: Bytes,
                        header: Header, bytes: Bytes)
    requires Fits(cfg, req) && Encodable(cfg, req) && ValidCandidate(h, cfg, req, txs, job, extranonce, header, bytes)
    ensures header.prevHash == job.prevHash && header.nbits == job.nbits
    ensures LeValue(h(HeaderBytes(header))) <= LeValue(job.target)
  {
  }

  lemma BlockParses(cfg: Config, req: Request, txs: seq<Tx>, extranonce: Bytes, header: Header)
    requires Fits(cfg, req) && Encodable(cfg, req)
    requires AllSerializable(CandidateBlock(cfg, req, txs, extranonce, header).txs)
    ensures var block := CandidateBlock(cfg, req, txs, extranonce, header); ParsesTo(BlockBytes(block), block)
  {
    var block := CandidateBlock(cfg, req, txs, extranonce, header);
    BlockRoundTrip(block, []);
    assert BlockBytes(block) + [] == BlockBytes(block);
  }

  /** The path folded from the coinbase's txid is the root over all txids, whichever form the coinbase takes in the
      block. */
  lemma FullTreeRoot(h: Hasher, cfg: Config, req: Request, txs: seq<Tx>, extranonce: Bytes)
    requires Fits(cfg, req) && Encodable(cfg, req) && |extranonce| == cfg.extranonce1Size + cfg.extranonce2Size
    requires AllSerializable(txs) && AllSerializable([BlockCoinbase(cfg, req, extranonce)] + txs)
    ensures Fold(h, Txid(h, CoinbaseTx(cfg, req, extranonce)), LeftPath(h, Txids(h, txs)))
            == Root(h, Txids(h, [BlockCoinbase(cfg, req, extranonce)] + txs))
  {
    var coinbase := BlockCoinbase(cfg, req, extranonce);
    assert Serializable(coinbase) && Txid(h, coinbase) == Txid(h, CoinbaseTx(cfg, req, extranonce)) by {
      CoinbaseForms(cfg, req, extranonce);
    }
    TxidsOfBlock(h, coinbase, txs);
    PathFoldsToRoot(h, Txid(h, coinbase), Txids(h, txs));
  }

  lemma TxidsOfBlock(h: Hasher, coinbase: Tx, txs: seq<Tx>)
    requires AllSerializable(txs) && AllSerializable([coinbase] + txs) && Serializable(coinbase)
    ensures Txids(h, [coinbase] + txs) == [Txid(h, coinbase)] + Txids(h, txs)
  {
  }

  lemma BlockBytesMatch(cfg: Config, req: Request, txs: seq<Tx>, job: Job, extranonce: Bytes, header: Header)
    requires Fits(cfg, req) && Encodable(cfg, req) && |extranonce| == cfg.extranonce1Size + cfg.extranonce2Size
    requires AllSerializable(txs) && Sized(|txs| + 2)
    requires job.transactions == TxData(txs) && job.hasCommitment == req.commitment.Some?
    ensures var block := Block(header, [BlockCoinbase(cfg, req, extranonce)] + txs);
            && AllSerializable(block.txs)
            && AssembledBlock(header, LegacyBytes(CoinbaseTx(cfg, req, extranonce)), job) == Some(BlockBytes(block))
  {
    hide HeaderBytes, Encode, TxBytes, LegacyBytes, CoinbaseTx, BlockCoinbase, WitnessForm, Concat, Serializable, Fits,
         Encodable;
    CoinbaseForms(cfg, req, extranonce);
    ConcatIsFlatten(txs);
    var coinbase := BlockCoinbase(cfg, req, extranonce);
    var all := [coinbase] + txs;
    assert all[1..] == txs;
    assert Flatten(TxBytesOrNothing, all) == TxBytes(coinbase) + Flatten(TxBytesOrNothing, txs);
    Brackets(HeaderBytes(header), Encode(|txs| + 1), TxBytes(coinbase), Flatten(TxBytesOrNothing, txs));
  }

  function Wtxid(h: Hasher, tx: Tx): Hash
    requires Serializable(tx)
  {
    h(TxBytes(tx))
  }

  function Wtxids(h: Hasher, txs: seq<Tx>): seq<Hash>
    requires AllSerializable(txs)
  {
    seq(|txs|, i requires 0 <= i < |txs| => Wtxid(h, txs[i]))
  }

  predicate IsCommitmentScript(script: Bytes) {
    |script| >= 38 && script[..6] == [0x6a, 0x24, 0xaa, 0x21, 0xa9, 0xed]
  }

  /** BIP 141 "Commitment structure": the coinbase's witness is a single 32-byte value, and its last output with a
      commitment script commits with that value to the wtxids of the block. */
  ghost predicate WitnessCommitted(h: Hasher, block: Block)
    requires block.txs != [] && AllSerializable(block.txs)
  {
    var coinbase := block.txs[0];
    && |coinbase.stacks| == 1 && |coinbase.stacks[0]| == 1 && |coinbase.stacks[0][0]| == 32
    && exists o ::
      && 0 <= o < |coinbase.outputs| && IsCommitmentScript(coinbase.outputs[o].script)
      && (forall later :: o < later < |coinbase.outputs| ==> !IsCommitmentScript(coinbase.outputs[later].script))
      && coinbase.outputs[o].script[6..38]
         == h(Root(h, [ZERO_HASH] + Wtxids(h, block.txs[1..])) + coinbase.stacks[0][0])
  }

  /** When the node's commitment is the one over the wtxids of its transactions, every emitted block is
      witness-committed. */
  lemma EmittedBlockIsCommitted(h: Hasher, cfg: Config, req: Request, txs: seq<Tx>, extranonce: Bytes, header: Header)
    requires Fits(cfg, req) && Encodable(cfg, req) && AllSerializable(txs)
    requires AllSerializable(CandidateBlock(cfg, req, txs, extranonce, header).txs)
    requires req.commitment == Some(CommitmentScript(h, Wtxids(h, txs), ZERO_HASH))
    ensures WitnessCommitted(h, CandidateBlock(cfg, req, txs, extranonce, header))
  {
    var block := CandidateBlock(cfg, req, txs, extranonce, header);
    var coinbase := block.txs[0];
    var script := coinbase.outputs[1].script;
    assert block.txs[1..] == txs;
    assert coinbase.stacks == [RESERVED_STACK];
    assert script == CommitmentScript(h, Wtxids(h, txs), ZERO_HASH);
    assert script[..6] == [0x6a, 0x24, 0xaa, 0x21, 0xa9, 0xed];
    assert script[6..38] == h(Root(h, [ZERO_HASH] + Wtxids(h, txs)) + ZERO_HASH);
    assert IsCommitmentScript(script);
  }
}
