/** Job templates: `JobTemplate`, `build_job` and `build_empty_job` (src/template.rs), on decoded fields. */
module Jobs {
  import opened ByteStrings
  import opened Coinbase
  import opened Merkle
  import opened Targets

  /** The strings `last_template_key` holds, by their parts. */
  datatype TemplateKey =
    | NoKey
    | GbtKey(prevHash: Hash, bits: string, version: U32, vbrequired: U32, rules: string, longpollId: string,
             submitOld: bool, txidRoot: Hash)
    | FastKey(blockHash: Hash, nextHeight: nat, nbits: U32, version: U32)

  /** Hashes and targets are held least significant byte first. */
  datatype Job = Job(
    ready: bool,
    submitOld: bool,
    prevHash: Hash,
    target: Hash,
    coinbase1: Bytes,
    coinbase2: Bytes,
    branches: seq<Hash>,
    transactions: seq<Bytes>,
    hasCommitment: bool,
    version: U32,
    nbits: U32,
    vbrequired: U32,
    ntime: U32,
    mintime: U32,
    height: U64,
    key: TemplateKey)

  const EMPTY_JOB := Job(false, true, ZERO_HASH, ZERO_HASH, [], [], [], [], false, 0, 0, 0, 0, 0, 0, NoKey)

  datatype GbtTx = GbtTx(data: Bytes, txid: Option<Hash>, wtxid: Option<Hash>)

  /** A `getblocktemplate` answer. `nbits` is the number `bits` spells, `None` when it spells no 32-bit hexadecimal
      number; `target` is most significant byte first. */
  datatype Gbt = Gbt(
    version: U32,
    prevHash: Hash,
    txs: seq<GbtTx>,
    coinbaseValue: U64,
    bits: string,
    nbits: Option<U32>,
    rules: seq<string>,
    longpollId: Option<string>,
    target: Bytes,
    curtime: U64,
    mintime: Option<U64>,
    height: U64,
    flags: Option<Bytes>,
    commitment: Option<Bytes>,
    submitOld: Option<bool>,
    vbrequired: U32)

  function GbtRequest(gbt: Gbt): Request {
    Request(gbt.coinbaseValue, gbt.height, gbt.flags, gbt.commitment)
  }

  function LowU32(v: U64): U32 { v % 0x1_0000_0000 }

  /** The last 32 bytes of a big-endian target, padded in front, turned round. */
  function TargetLe(be: Bytes): Hash {
    var low := if |be| > 32 then be[|be| - 32..] else be;
    Reverse(Zeros(32 - |low|) + low)
  }

  /** A target of at most 32 bytes keeps its value. */
  lemma TargetLeValue(be: Bytes)
    requires |be| <= 32
    ensures LeValue(TargetLe(be)) == LeValue(Reverse(be))
  {
    PaddedValue(be, 32 - |be|);
  }

  /** What makes a job's blocks well formed: its coinbase halves leave the hole of the intended coinbase, its branches
      are the left path of the transactions it carries, and it knows whether the coinbase needs a witness. */
  ghost predicate JobShape(h: Hasher, cfg: Config, req: Request, txids: seq<Hash>, data: seq<Bytes>, job: Job) {
    && job.ready
    && Encodable(cfg, req) && Fits(cfg, req)
    && FillsHole(cfg, req, job.coinbase1, job.coinbase2)
    && job.branches == LeftPath(h, txids)
    && job.transactions == data
    && job.hasCommitment == req.commitment.Some?
    && job.height == req.height
  }

  predicate Buildable(cfg: Config, gbt: Gbt) {
    && Fits(cfg, GbtRequest(gbt))
    && (gbt.commitment.Some? ==> WtxidsKnown(gbt)) && TxidsKnown(gbt)
    && gbt.nbits.Some?
  }

  function GbtTxids(gbt: Gbt): seq<Hash>
    requires TxidsKnown(gbt)
  {
    seq(|gbt.txs|, i requires 0 <= i < |gbt.txs| => gbt.txs[i].txid.value)
  }

  function GbtData(gbt: Gbt): seq<Bytes> {
    seq(|gbt.txs|, i requires 0 <= i < |gbt.txs| => gbt.txs[i].data)
  }

  predicate WtxidsKnown(gbt: Gbt) {
    forall tx | tx in gbt.txs :: tx.wtxid.Some?
  }

  /** Ours is computed only to compare: the node's commitment is used either way, but a missing wtxid is an error. */
  method ChosenCommitment(h: Hasher, gbt: Gbt) returns (ok: bool, commitment: Option<Bytes>)
    ensures ok <==> (gbt.commitment.Some? ==> WtxidsKnown(gbt))
    ensures ok ==> commitment == gbt.commitment
  {
    if gbt.commitment.None? {
      return true, None;
    }
    var wtxids := seq(|gbt.txs|, i requires 0 <= i < |gbt.txs| => gbt.txs[i].wtxid);
    var ours := ComputeWitnessCommitmentScript(h, wtxids);
    if ours.None? {
      var i :| 0 <= i < |wtxids| && wtxids[i].None?;
      assert gbt.txs[i] in gbt.txs;
      return false, None;
    }
    forall tx | tx in gbt.txs
      ensures tx.wtxid.Some?
    {
      var i :| 0 <= i < |gbt.txs| && gbt.txs[i] == tx;
      assert wtxids[i] == tx.wtxid;
    }
    return true, if ours.value != gbt.commitment.value then gbt.commitment else ours;
  }

  predicate TxidsKnown(gbt: Gbt) {
    forall tx | tx in gbt.txs :: tx.txid.Some?
  }

  method CollectTransactions(gbt: Gbt) returns (ok: bool, hashes: seq<Hash>, data: seq<Bytes>)
    ensures ok <==> TxidsKnown(gbt)
    ensures ok ==> hashes == GbtTxids(gbt) && data == GbtData(gbt)
  {
    hashes, data := [], [];
    for i := 0 to |gbt.txs|
      invariant |hashes| == |data| == i
      invariant forall j :: 0 <= j < i ==> gbt.txs[j].txid == Some(hashes[j]) && gbt.txs[j].data == data[j]
    {
      if gbt.txs[i].txid.None? {
        assert gbt.txs[i] in gbt.txs;
        return false, hashes, data;
      }
      hashes := hashes + [gbt.txs[i].txid.value];
      data := data + [gbt.txs[i].data];
    }
    ok := true;
  }

  /** `build_job`; `None` is its error exit. */
  method BuildJob(h: Hasher, cfg: Config, gbt: Gbt, key: TemplateKey) returns (job: Option<Job>)
    requires Encodable(cfg, GbtRequest(gbt))
    ensures job.Some? <==> Buildable(cfg, gbt)
    ensures job.Some? ==>
      && JobShape(h, cfg, GbtRequest(gbt), GbtTxids(gbt), GbtData(gbt), job.value)
      && job.value.prevHash == gbt.prevHash && job.value.target == TargetLe(gbt.target)
      && job.value.nbits == gbt.nbits.value && job.value.version == gbt.version
      && job.value.vbrequired == gbt.vbrequired
      && job.value.ntime == LowU32(gbt.curtime)
      && job.value.mintime == LowU32(if gbt.mintime.Some? then gbt.mintime.value else gbt.curtime)
      && job.value.submitOld == (gbt.submitOld != Some(false)) && job.value.key == key
  {
    var known, commitment := ChosenCommitment(h, gbt);
    if !known {
      return None;
    }
    var parts := BuildCoinbaseParts(cfg, Request(gbt.coinbaseValue, gbt.height, gbt.flags, commitment));
    if parts.None? {
      return None;
    }
    var coinbaseHash := h(parts.value.coinbaseTx);
    var ok, txHashes, txData := CollectTransactions(gbt);
    if !ok {
      return None;
    }
    var branches := BuildMerkleBranches(h, coinbaseHash, txHashes);
    if gbt.nbits.None? {
      return None;
    }
    var mintime := if gbt.mintime.Some? then gbt.mintime.value else gbt.curtime;
    job := Some(Job(true, if gbt.submitOld.Some? then gbt.submitOld.value else true, gbt.prevHash, TargetLe(gbt.target),
                    parts.value.coinbase1, parts.value.coinbase2, branches, txData, parts.value.hasCommitment,
                    gbt.version, gbt.nbits.value, gbt.vbrequired, LowU32(gbt.curtime), LowU32(mintime), gbt.height,
                      key));
  }

  /** `chain_tip`. */
  datatype Tip = Tip(hash: Hash, height: U64, mtp: U32, nbits: U32, target: Hash, version: U32, vbrequired: U32)

  const SUBSIDY: nat := 5_000_000_000

  function BlockSubsidy(height: nat): U64 {
    var halvings := height / 210_000;
    if halvings >= 64 then 0 else ShiftedSubsidy(halvings)
  }

  function ShiftedSubsidy(halvings: nat): (s: U64)
    ensures s <= SUBSIDY
  {
    if halvings == 0 then SUBSIDY else ShiftedSubsidy(halvings - 1) / 2
  }

  function SaturatingInc(v: U32): U32 { if v == U32_MAX then U32_MAX else v + 1 }

  function FastRequest(height: U64): Request {
    Request(BlockSubsidy(height), height, None, None)
  }

  /** The coinbase-only job for the block after `blockHash`. */
  function EmptyJob(cfg: Config, tip: Tip, blockHash: Hash, nextHeight: U64, mtp: U32, now: U32, key: TemplateKey): Job
    requires Encodable(cfg, FastRequest(nextHeight)) && Fits(cfg, FastRequest(nextHeight))
  {
    var parts := PartsOf(cfg, FastRequest(nextHeight));
    var mintime := SaturatingInc(mtp);
    Job(true, false, blockHash, tip.target, parts.coinbase1, parts.coinbase2, [], [], false, tip.version, tip.nbits,
        tip.vbrequired, if now > mintime then now else mintime, mintime, nextHeight, key)
  }

  lemma EmptyJobShape(h: Hasher, cfg: Config, tip: Tip, blockHash: Hash, nextHeight: U64, mtp: U32, now: U32,
                      key: TemplateKey)
    requires Encodable(cfg, FastRequest(nextHeight)) && Fits(cfg, FastRequest(nextHeight))
    ensures JobShape(h, cfg, FastRequest(nextHeight), [], [], EmptyJob(cfg, tip, blockHash, nextHeight, mtp, now, key))
  {
    PartsFillHole(cfg, FastRequest(nextHeight));
    hide FillsHole, BlockSubsidy, Encodable, Fits, PartsOf;
  }

  /** `build_empty_job`: no transactions, no commitment, the subsidy alone; `None` is its error exit. */
  method BuildEmptyJob(ghost h: Hasher, cfg: Config, tip: Tip, blockHash: Hash, nextHeight: U64, mtp: U32, now: U32,
                       key: TemplateKey)
    returns (job: Option<Job>)
    requires Encodable(cfg, FastRequest(nextHeight))
    ensures job.Some? <==> Fits(cfg, FastRequest(nextHeight))
    ensures job.Some? ==>
      && JobShape(h, cfg, FastRequest(nextHeight), [], [], job.value)
      && job.value == EmptyJob(cfg, tip, blockHash, nextHeight, mtp, now, key)
  {
    hide JobShape, FillsHole, BlockSubsidy, Encodable, Fits, Head, Tail, ScriptPrefix, CoinbaseTx;
    var parts := BuildCoinbaseParts(cfg, FastRequest(nextHeight));
    if parts.None? {
      return None;
    }
    EmptyJobShape(h, cfg, tip, blockHash, nextHeight, mtp, now, key);
    assert !parts.value.hasCommitment;
    hide PartsOf;
    var mintime := if mtp == U32_MAX then U32_MAX else mtp + 1;
    job := Some(Job(true, false, blockHash, tip.target, parts.value.coinbase1, parts.value.coinbase2, [], [],
                    parts.value.hasCommitment, tip.version, tip.nbits, tip.vbrequired,
                    if now > mintime then now else mintime, mintime, nextHeight, key));
  }
}
