/** The shared state of `TemplateEngine` (src/template.rs) and its two ways to publish a job, each taken as one
    indivisible action: a GBT answer and a fast block announcement. `EngineSteps` shows that the locks make them
    so. */
module TemplateEngines {
  import opened ByteStrings
  import opened Coinbase
  import opened Headers
  import opened Jobs
  import opened Scripts
  import opened Targets
  import opened Transactions

  /** Configuration, and whether the network is mainnet, the only one fast jobs are built on. */
  datatype Env = Env(cfg: Config, mainnet: bool)

  /** `chain_tip`, `current`, `last_template_key`, and everything sent to the watch channel. */
  datatype View = View(tip: Option<Tip>, current: Job, key: TemplateKey, published: seq<Job>)

  const START := View(None, EMPTY_JOB, NoKey, [])

  /** What `apply_gbt_response` uses of an answer: its height and key, whether its forced rules are supported, and the
      job `build_job` makes of it. */
  datatype GbtUpdate = GbtUpdate(height: U64, key: TemplateKey, rulesOk: bool, built: Option<Job>)

  /** What `BuildJob` guarantees of the job in an update. */
  predicate WellBuilt(u: GbtUpdate) {
    u.key.GbtKey? &&
    (u.built.Some? ==> u.built.value.ready && u.built.value.height == u.height <= I64_MAX && u.built.value.key == u.key)
  }

  /** Height and mintime of at least 1, as every template after the genesis block has. */
  predicate Positive(u: GbtUpdate) {
    u.built.Some? ==> u.built.value.height >= 1 && u.built.value.mintime >= 1
  }

  function JoinedByCommas(rules: seq<string>): string {
    if rules == [] then "" else if |rules| == 1 then rules[0] else rules[0] + "," + JoinedByCommas(rules[1..])
  }

  /** The parts of the key text, each as the text it enters with. */
  function KeyOf(gbt: Gbt, txidRoot: Hash): TemplateKey {
    GbtKey(gbt.prevHash, gbt.bits, gbt.version, gbt.vbrequired, JoinedByCommas(gbt.rules),
           if gbt.longpollId.Some? then gbt.longpollId.value else "", gbt.submitOld != Some(false), txidRoot)
  }

  /** The update an answer amounts to. */
  method UpdateFrom(h: Hasher, cfg: Config, gbt: Gbt, rulesOk: bool, txidRoot: Hash) returns (u: GbtUpdate)
    requires Encodable(cfg, GbtRequest(gbt))
    ensures WellBuilt(u) && u.height == gbt.height && u.rulesOk == rulesOk && u.key == KeyOf(gbt, txidRoot)
    ensures u.built.Some? <==> Buildable(cfg, gbt)
    ensures u.built.Some? ==> JobShape(h, cfg, GbtRequest(gbt), GbtTxids(gbt), GbtData(gbt), u.built.value)
    ensures gbt.height >= 1 && LowU32(if gbt.mintime.Some? then gbt.mintime.value else gbt.curtime) >= 1 ==> Positive(u)
  {
    var key := KeyOf(gbt, txidRoot);
    var built := BuildJob(h, cfg, gbt, key);
    hide FillsHole;
    return GbtUpdate(gbt.height, key, rulesOk, built);
  }

  /** The state `update_chain_tip_from_job` stores. */
  function TipOf(job: Job): Tip {
    Tip(job.prevHash, if job.height == 0 then 0 else job.height - 1, if job.mintime == 0 then 0 else job.mintime - 1,
        job.nbits, job.target, job.version, job.vbrequired)
  }

  function TipAfter(tip: Option<Tip>, job: Job): Option<Tip> {
    if !job.ready || job.height == 0 then tip else Some(TipOf(job))
  }

  function Publish(v: View, job: Job, key: TemplateKey): View {
    v.(current := job, key := key, published := v.published + [job])
  }

  predicate GbtPublishes(v: View, u: GbtUpdate) {
    !(v.current.ready && u.height < v.current.height) && u.rulesOk && v.key != u.key && u.built.Some?
  }

  /** `apply_gbt_response` with the permit in hand. */
  function ApplyGbt(v: View, u: GbtUpdate): View {
    if GbtPublishes(v, u) then Publish(v.(tip := TipAfter(v.tip, u.built.value)), u.built.value, u.key) else v
  }

  datatype FastCall = FastCall(block: Announcement, height: U64, now: U32)

  /** The exits of `handle_fast_block_announcement`, in order. */
  datatype Verdict =
    | NoTip | NotLinked | BitsMismatch | BadTarget | BadWork | Guarded
    | AlreadyCurrent | Older | SameKey | BuildFailed | Publishes

  function NextHeight(height: U64): U64 {
    if height == 0xffff_ffff_ffff_ffff then height else height + 1
  }

  function FastKeyOf(tip: Tip, call: FastCall): TemplateKey {
    FastKey(call.block.blockHash, NextHeight(call.height), tip.nbits, tip.version)
  }

  function Later(a: U32, b: U32): U32 { if a < b then b else a }

  function EstimatedMtp(tip: Tip, call: FastCall): U32 { Later(tip.mtp, call.block.time) }

  predicate CanBuildEmpty(env: Env, height: U64) {
    Encodable(env.cfg, FastRequest(height)) && Fits(env.cfg, FastRequest(height))
  }

  function TipVerdict(env: Env, tip: Tip, call: FastCall): Verdict {
    if tip.hash != call.block.prevHash || call.height != tip.height + 1 then NotLinked
    else if call.block.nbits != tip.nbits then BitsMismatch
    else
      match MeetsCompactTarget(call.block.blockHash, call.block.nbits)
      case None => BadTarget
      case Some(false) => BadWork
      case Some(true) => if !env.mainnet || NextHeight(call.height) % 2016 == 0 then Guarded else Publishes
  }

  function FastVerdict(env: Env, v: View, call: FastCall): Verdict {
    if v.tip.None? then NoTip
    else
      var tip, next := v.tip.value, NextHeight(call.height);
      if TipVerdict(env, tip, call) != Publishes then TipVerdict(env, tip, call)
      else if v.current.ready && v.current.height == next && v.current.prevHash == call.block.blockHash
      then AlreadyCurrent
      else if v.current.ready && v.current.height > next then Older
      else if v.key == FastKeyOf(tip, call) then SameKey
      else if !CanBuildEmpty(env, next) then BuildFailed
      else Publishes
  }

  function FastTip(tip: Tip, call: FastCall): Tip {
    tip.(hash := call.block.blockHash, height := call.height, mtp := EstimatedMtp(tip, call))
  }

  function FastJob(env: Env, tip: Tip, call: FastCall): Job
    requires CanBuildEmpty(env, NextHeight(call.height))
  {
    EmptyJob(env.cfg, tip, call.block.blockHash, NextHeight(call.height), EstimatedMtp(tip, call), call.now,
             FastKeyOf(tip, call))
  }

  /** `handle_fast_block_announcement` with the permit in hand. */
  function ApplyFast(env: Env, v: View, call: FastCall): View {
    if FastVerdict(env, v, call) == Publishes then
      var tip := v.tip.value;
      Publish(v.(tip := Some(FastTip(tip, call))), FastJob(env, tip, call), FastKeyOf(tip, call))
    else v
  }

  // Coherence of the chain tip and the published job

  /** The tip is the projection of the job: its parent block, one below its height, with the job's bits, target and
      version; the job's mintime is the tip's time bound plus one, saturating. */
  predicate Projects(tip: Tip, job: Job) {
    && job.height >= 1
    && tip == TipOf(job).(mtp := tip.mtp)
    && job.mintime == SaturatingInc(tip.mtp)
  }

  predicate Coherent(v: View) {
    if !v.current.ready then v == START
    else
      && v.tip.Some? && Projects(v.tip.value, v.current)
      && v.key == v.current.key
      && v.current.height <= I64_MAX
      && (v.key.FastKey? ==> v.key == FastKey(v.current.prevHash, v.current.height, v.current.nbits, v.current.version))
      && v.published != [] && v.published[|v.published| - 1] == v.current
  }

  /** The stored time bound is exactly mintime - 1 unless the bound has reached the end of 32-bit time. */
  lemma ExactProjection(v: View)
    requires Coherent(v) && v.current.ready
    ensures v.tip == Some(TipOf(v.current)) <==> v.tip.value.mtp < U32_MAX
  {
  }

  lemma GbtKeepsCoherence(v: View, u: GbtUpdate)
    requires Coherent(v) && WellBuilt(u) && Positive(u)
    ensures Coherent(ApplyGbt(v, u))
    ensures var v' := ApplyGbt(v, u);
            v' == v || (v'.published == v.published + [v'.current]
                        && (v.current.ready ==> v.current.height <= v'.current.height))
  {
  }

  /** A fast publish raises the height by exactly one; the guards on the current job and on the key never decide
      anything. */
  lemma FastKeepsCoherence(env: Env, v: View, call: FastCall)
    requires Coherent(v)
    ensures Coherent(ApplyFast(env, v, call))
    ensures FastVerdict(env, v, call) !in {AlreadyCurrent, Older, SameKey}
    ensures var v' := ApplyFast(env, v, call);
            if FastVerdict(env, v, call) == Publishes
            then v'.published == v.published + [v'.current] && v.current.ready
              && v'.current.height == v.current.height + 1
            else v' == v
  {
    if v.current.ready {
      assert TipVerdict(env, v.tip.value, call) == Publishes ==> call.height == v.current.height;
    }
  }

  datatype Event = Answer(update: GbtUpdate) | Announced(call: FastCall)

  predicate GoodEvent(e: Event) {
    e.Answer? ==> WellBuilt(e.update) && Positive(e.update)
  }

  predicate GoodEvents(es: seq<Event>) {
    forall i :: 0 <= i < |es| ==> GoodEvent(es[i])
  }

  function Apply(env: Env, v: View, e: Event): View {
    match e
    case Answer(u) => ApplyGbt(v, u)
    case Announced(call) => ApplyFast(env, v, call)
  }

  function Run(env: Env, v: View, es: seq<Event>): View {
    if es == [] then v else Apply(env, Run(env, v, es[..|es| - 1]), es[|es| - 1])
  }

  predicate Ascending(jobs: seq<Job>) {
    forall i, j :: 0 <= i < j < |jobs| ==> jobs[i].height <= jobs[j].height
  }

  lemma ApplyKeeps(env: Env, v: View, e: Event)
    requires Coherent(v) && GoodEvent(e) && Ascending(v.published)
    ensures Coherent(Apply(env, v, e)) && Ascending(Apply(env, v, e).published)
  {
    var v' := Apply(env, v, e);
    if e.Answer? {
      GbtKeepsCoherence(v, e.update);
    } else {
      FastKeepsCoherence(env, v, e.call);
    }
    assert v' == v || v'.published == v.published + [v'.current];
    if v' != v && v.published != [] {
      assert v.current.ready && v.current.height <= v'.current.height;
      AscendingAppend(v.published, v'.current);
    }
  }

  lemma AscendingAppend(jobs: seq<Job>, job: Job)
    requires Ascending(jobs) && jobs != [] && jobs[|jobs| - 1].height <= job.height
    ensures Ascending(jobs + [job])
  {
  }

  /** Over every run: the tip is the projection of the published job, and published heights never go down. */
  lemma {:induction false} RunsAreCoherent(env: Env, es: seq<Event>)
    requires GoodEvents(es)
    ensures Coherent(Run(env, START, es)) && Ascending(Run(env, START, es).published)
  {
    if es != [] {
      RunsAreCoherent(env, es[..|es| - 1]);
      ApplyKeeps(env, Run(env, START, es[..|es| - 1]), es[|es| - 1]);
    }
  }

  // The object itself

  class TemplateEngine {
    const env: Env
    var tip: Option<Tip>
    var current: Job
    var lastTemplateKey: TemplateKey
    var published: seq<Job>

    ghost function State(): View
      reads this
    {
      View(tip, current, lastTemplateKey, published)
    }

    constructor (env: Env)
      ensures this.env == env && State() == START
    {
      this.env := env;
      tip, current, lastTemplateKey, published := None, EMPTY_JOB, NoKey, [];
    }

    method UpdateChainTipFromJob(job: Job)
      modifies this
      ensures State() == old(State()).(tip := TipAfter(old(tip), job))
    {
      if !job.ready || job.height == 0 {
        return;
      }
      tip := Some(TipOf(job));
    }

    method PublishJob(job: Job, key: TemplateKey)
      modifies this
      ensures State() == Publish(old(State()), job, key)
    {
      lastTemplateKey := key;
      current := job;
      published := published + [job];
    }

    method ApplyGbtResponse(u: GbtUpdate)
      modifies this
      ensures State() == ApplyGbt(old(State()), u)
    {
      if current.ready && u.height < current.height {
        return;
      }
      if !u.rulesOk {
        return;
      }
      if lastTemplateKey == u.key {
        return;
      }
      if u.built.None? {
        return;
      }
      UpdateChainTipFromJob(u.built.value);
      PublishJob(u.built.value, u.key);
    }

    /** `respawn` says that a refresh task is spawned, to fetch what the fast path refuses to derive. */
    method HandleFastBlockAnnouncement(call: FastCall) returns (verdict: Verdict, respawn: bool)
      requires Sized(|env.cfg.payoutScript|)
      modifies this
      ensures respawn <==> verdict.BitsMismatch? || verdict.Guarded?
      ensures verdict == FastVerdict(env, old(State()), call)
      ensures State() == ApplyFast(env, old(State()), call)
    {
      hide JobShape, MeetsCompactTarget, Fits, EmptyJob;
      if tip.None? {
        return NoTip, false;
      }
      var tip' := tip.value;
      if tip'.hash != call.block.prevHash || call.height != tip'.height + 1 {
        return NotLinked, false;
      }
      if call.block.nbits != tip'.nbits {
        return BitsMismatch, true;
      }
      var meets := BlockHashMeetsCompactTarget(call.block.blockHash, call.block.nbits);
      if meets.None? {
        return BadTarget, false;
      }
      if !meets.value {
        return BadWork, false;
      }
      var next := NextHeight(call.height);
      assert Encodable(env.cfg, FastRequest(next));
      if !(env.mainnet && next % 2016 != 0) {
        return Guarded, true;
      }
      if current.ready && current.height == next && current.prevHash == call.block.blockHash {
        return AlreadyCurrent, false;
      }
      if current.ready && current.height > next {
        return Older, false;
      }
      var estimated := Later(tip'.mtp, call.block.time);
      var key := FastKey(call.block.blockHash, next, tip'.nbits, tip'.version);
      if lastTemplateKey == key {
        return SameKey, false;
      }
      var job := BuildEmptyJob(_ => ZERO_HASH, env.cfg, tip', call.block.blockHash, next, estimated, call.now, key);
      if job.None? {
        return BuildFailed, false;
      }
      tip := Some(Tip(call.block.blockHash, call.height, estimated, tip'.nbits, tip'.target, tip'.version,
                      tip'.vbrequired));
      PublishJob(job.value, key);
      return Publishes, false;
    }

    /** The `headers` arm of the P2P session loop; `clock(i)` is the time at which entry `i` is handled. */
    method HandleHeaders(blocks: seq<Announcement>, clock: nat -> U32)
      requires Sized(|env.cfg.payoutScript|)
      modifies this
      ensures State() == if blocks == [] || old(current).height == 0 then old(State())
                        else Batch(env, old(State()), blocks, old(current).height, clock, |blocks|)
    {
      if blocks == [] {
        return;
      }
      var base := current.height;
      if base == 0 {
        return;
      }
      for idx := 0 to |blocks|
        invariant State() == Batch(env, old(State()), blocks, base, clock, idx)
      {
        var _, _ := HandleFastBlockAnnouncement(FastCall(blocks[idx], HeightAt(base, idx), clock(idx)));
      }
    }
  }

  // A batch of headers

  function HeightAt(base: U64, idx: nat): U64 {
    if base + idx > 0xffff_ffff_ffff_ffff then 0xffff_ffff_ffff_ffff else base + idx
  }

  function BatchCall(blocks: seq<Announcement>, base: U64, clock: nat -> U32, idx: nat): FastCall
    requires idx < |blocks|
  {
    FastCall(blocks[idx], HeightAt(base, idx), clock(idx))
  }

  /** The state after the first `n` headers of a batch. */
  function Batch(env: Env, v: View, blocks: seq<Announcement>, base: U64, clock: nat -> U32, n: nat): View
    requires n <= |blocks|
  {
    if n == 0 then v
    else ApplyFast(env, Batch(env, v, blocks, base, clock, n - 1), BatchCall(blocks, base, clock, n - 1))
  }

  /** The header keeps the tip's bits, has the work its bits ask for, and the job after it, at height `next`, is
      neither at a period boundary nor unbuildable. */
  predicate PassesGuards(env: Env, tip: Tip, block: Announcement, next: nat) {
    && block.nbits == tip.nbits
    && MeetsCompactTarget(block.blockHash, block.nbits) == Some(true)
    && env.mainnet && next % 2016 != 0
    && next <= I64_MAX && CanBuildEmpty(env, next)
  }

  function ParentHash(tip: Tip, blocks: seq<Announcement>, i: nat): Hash
    requires i <= |blocks|
  {
    if i == 0 then tip.hash else blocks[i - 1].blockHash
  }

  /** Header `i` continues the chain that header 0 continues from the tip, and passes the guards. Nothing here depends
      on the engine's state after the batch started. */
  predicate Extends(env: Env, tip: Tip, blocks: seq<Announcement>, base: U64, i: nat)
    requires i < |blocks|
  {
    blocks[i].prevHash == ParentHash(tip, blocks, i) && PassesGuards(env, tip, blocks[i], base + i + 1)
  }

  /** Which headers extend the chain. */
  function Marks(env: Env, tip: Tip, blocks: seq<Announcement>, base: U64): (marks: seq<bool>)
    ensures |marks| == |blocks|
  {
    seq(|blocks|, i requires 0 <= i < |blocks| => Extends(env, tip, blocks, base, i))
  }

  /** Among the first `n` marks, the length of the longest prefix of true ones. */
  function LongestTrue(marks: seq<bool>, n: nat): (k: nat)
    requires n <= |marks|
    ensures k <= n
    ensures forall i :: 0 <= i < k ==> marks[i]
    ensures k < n ==> !marks[k]
  {
    if n == 0 then 0
    else
      var k := LongestTrue(marks, n - 1);
      if k == n - 1 && marks[n - 1] then n else k
  }

  /** Among the first `n` headers, the length of the longest prefix every header of which extends the chain. */
  function GoodPrefix(env: Env, tip: Tip, blocks: seq<Announcement>, base: U64, n: nat): nat
    requires n <= |blocks|
  {
    LongestTrue(Marks(env, tip, blocks, base), n)
  }

  /** The engine has followed the first `k` headers of the batch from `v` and published a job on each. */
  predicate Followed(v: View, blocks: seq<Announcement>, k: nat, v': View)
    requires v.tip.Some? && k <= |blocks|
  {
    && Coherent(v') && v'.current.ready
    && v'.current.height == v.current.height + k
    && v'.tip.value.hash == ParentHash(v.tip.value, blocks, k)
    && v'.tip.value.nbits == v.tip.value.nbits
    && |v'.published| == |v.published| + k
    && (forall i :: 0 <= i < |v.published| ==> v'.published[i] == v.published[i])
    && (forall i :: 0 <= i < k ==> PublishedOn(v, blocks, v', i))
  }

  predicate PublishedOn(v: View, blocks: seq<Announcement>, v': View, i: nat)
    requires i < |blocks| && |v.published| + i < |v'.published|
  {
    var job := v'.published[|v.published| + i];
    job.prevHash == blocks[i].blockHash && job.height == v.current.height + i + 1
  }

  /** With nothing else running, a batch publishes one job per header of the longest good prefix, each on its own
      header and one higher than the last, and nothing from the first header that fails on. */
  lemma {:induction false} BatchPublishesGoodPrefix(env: Env, v: View, blocks: seq<Announcement>, clock: nat -> U32,
                                                    n: nat)
    requires Coherent(v) && v.current.ready && n <= |blocks| <= I64_MAX
    ensures Followed(v, blocks, GoodPrefix(env, v.tip.value, blocks, v.current.height, n),
                     Batch(env, v, blocks, v.current.height, clock, n))
  {
    hide FastVerdict, MeetsCompactTarget, CanBuildEmpty;
    if n > 0 {
      var base, tip := v.current.height, v.tip.value;
      BatchPublishesGoodPrefix(env, v, blocks, clock, n - 1);
      var before := Batch(env, v, blocks, base, clock, n - 1);
      var k := GoodPrefix(env, tip, blocks, base, n - 1);
      var call := BatchCall(blocks, base, clock, n - 1);
      assert Marks(env, tip, blocks, base)[n - 1] == Extends(env, tip, blocks, base, n - 1);
      HeaderStep(env, v, blocks, k, before, call, n - 1);
      FastKeepsCoherence(env, before, call);
      if k == n - 1 && Extends(env, tip, blocks, base, k) {
        FollowOne(env, v, blocks, k, before, call);
      }
    }
  }

  /** After `k` good headers the engine publishes on header `i` exactly when `i` is the next one and it is good. */
  lemma HeaderStep(env: Env, v: View, blocks: seq<Announcement>, k: nat, before: View, call: FastCall, i: nat)
    requires Coherent(v) && v.current.ready && k <= i < |blocks| <= I64_MAX
    requires Followed(v, blocks, k, before)
    requires call.block == blocks[i] && call.height == HeightAt(v.current.height, i)
    ensures FastVerdict(env, before, call) == Publishes
            <==> k == i && Extends(env, v.tip.value, blocks, v.current.height, i)
  {
    hide FastVerdict, MeetsCompactTarget, CanBuildEmpty, ApplyFast, PublishedOn;
    FastKeepsCoherence(env, before, call);
    var next := v.current.height + i + 1;
    assert call.height == v.current.height + i && NextHeight(call.height) == next;
    assert before.tip.value.height + 1 == v.current.height + k;
    VerdictMeaning(env, before, call);
    assert before.tip.value.hash == ParentHash(v.tip.value, blocks, k);
    assert PassesGuards(env, before.tip.value, call.block, next) <==> PassesGuards(env, v.tip.value, call.block, next);
    hide Coherent, Followed, PassesGuards, ParentHash;
    assert call.height == before.tip.value.height + 1 <==> i == k;
  }

  /** Once the redundant guards are out of the way, a block is published on exactly when it links, is one above the
      tip and passes the guards. */
  lemma VerdictMeaning(env: Env, v: View, call: FastCall)
    requires v.tip.Some? && FastVerdict(env, v, call) !in {AlreadyCurrent, Older, SameKey}
    ensures FastVerdict(env, v, call) == Publishes <==>
      && call.block.prevHash == v.tip.value.hash && call.height == v.tip.value.height + 1
      && PassesGuards(env, v.tip.value, call.block, NextHeight(call.height))
  {
  }

  lemma FollowOne(env: Env, v: View, blocks: seq<Announcement>, k: nat, before: View, call: FastCall)
    requires v.tip.Some? && k < |blocks| && Followed(v, blocks, k, before)
    requires call.block == blocks[k] && FastVerdict(env, before, call) == Publishes
    ensures Followed(v, blocks, k + 1, ApplyFast(env, before, call))
  {
    var after := ApplyFast(env, before, call);
    FastKeepsCoherence(env, before, call);
    forall i | 0 <= i < k
      ensures PublishedOn(v, blocks, after, i)
    {
      assert PublishedOn(v, blocks, before, i);
    }
  }
}
