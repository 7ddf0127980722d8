/** What consensus asks of a block's header in the context of its ancestors - required nBits and median time past as
    BIP 113 defines it - and why jobs built on blocks the node has not delivered yet meet it. */
module Consensus {
  import opened ByteStrings
  import opened Headers
  import opened Jobs
  import opened Shares
  import opened Targets
  import opened TemplateEngines
  import opened Transactions

  // The median of a window of timestamps

  function Insert(x: U32, s: seq<U32>): (r: seq<U32>)
    ensures |r| == |s| + 1
  {
    if s == [] || x <= s[0] then [x] + s else [s[0]] + Insert(x, s[1..])
  }

  function Sort(s: seq<U32>): (r: seq<U32>)
    ensures |r| == |s|
  {
    if s == [] then [] else Insert(s[0], Sort(s[1..]))
  }

  function Median(s: seq<U32>): U32
    requires s != []
  {
    Sort(s)[|s| / 2]
  }

  predicate IsSorted(s: seq<U32>) {
    forall i, j :: 0 <= i < j < |s| ==> s[i] <= s[j]
  }

  function CountUpTo(s: seq<U32>, m: U32): (n: nat)
    ensures n <= |s|
  {
    if s == [] then 0 else (if s[0] <= m then 1 else 0) + CountUpTo(s[1..], m)
  }

  lemma {:induction false} InsertProperties(x: U32, s: seq<U32>, m: U32)
    requires IsSorted(s)
    ensures IsSorted(Insert(x, s))
    ensures forall y :: y in Insert(x, s) ==> y == x || y in s
    ensures CountUpTo(Insert(x, s), m) == CountUpTo([x], m) + CountUpTo(s, m)
  {
    assert [x][1..] == [];
    if s == [] || x <= s[0] {
      assert ([x] + s)[1..] == s;
    } else {
      InsertProperties(x, s[1..], m);
      var tail := Insert(x, s[1..]);
      assert ([s[0]] + tail)[1..] == tail;
      forall i | 0 <= i < |tail|
        ensures s[0] <= tail[i]
      {
        assert tail[i] in tail;
      }
    }
  }

  lemma {:induction false} SortProperties(s: seq<U32>, m: U32)
    ensures IsSorted(Sort(s)) && CountUpTo(Sort(s), m) == CountUpTo(s, m)
  {
    if s != [] {
      SortProperties(s[1..], m);
      InsertProperties(s[0], Sort(s[1..]), m);
      assert [s[0]][1..] == [];
    }
  }

  lemma {:induction false} SortedCount(s: seq<U32>, i: nat, m: U32)
    requires IsSorted(s) && i < |s|
    ensures s[i] <= m <==> CountUpTo(s, m) >= i + 1
  {
    if i > 0 {
      SortedCount(s[1..], i - 1, m);
      assert s[1..][i - 1] == s[i] && s[0] <= s[i];
    } else if s[0] > m {
      forall k | 0 <= k < |s|
        ensures s[k] > m
      {
        assert s[0] <= s[k];
      }
      NoneUpTo(s, m);
    }
  }

  lemma {:induction false} NoneUpTo(s: seq<U32>, m: U32)
    requires forall i :: 0 <= i < |s| ==> s[i] > m
    ensures CountUpTo(s, m) == 0
  {
    if s != [] {
      NoneUpTo(s[1..], m);
    }
  }

  /** The median is at most m exactly when more than half of the window, counting the middle, is. */
  lemma MedianByCount(s: seq<U32>, m: U32)
    requires s != []
    ensures Median(s) <= m <==> CountUpTo(s, m) >= |s| / 2 + 1
  {
    SortProperties(s, m);
    SortedCount(Sort(s), |s| / 2, m);
  }

  lemma {:induction false} CountAppend(a: seq<U32>, b: seq<U32>, m: U32)
    ensures CountUpTo(a + b, m) == CountUpTo(a, m) + CountUpTo(b, m)
  {
    if a == [] {
      assert a + b == b;
    } else {
      assert (a + b)[1..] == a[1..] + b;
      CountAppend(a[1..], b, m);
    }
  }

  // Chains

  datatype Hdr = Hdr(time: U32, nbits: U32)

  /** From the genesis block to the tip; the block after it has height |chain|. */
  type Chain = seq<Hdr>

  function Times(chain: Chain): (t: seq<U32>)
    ensures |t| == |chain|
  {
    seq(|chain|, i requires 0 <= i < |chain| => chain[i].time)
  }

  function Window(chain: Chain): seq<U32> {
    if |chain| <= 11 then Times(chain) else Times(chain)[|chain| - 11..]
  }

  /** BIP 113: the median of the last 11 timestamps, or of all while there are fewer. */
  function MedianTimePast(chain: Chain): U32
    requires chain != []
  {
    Median(Window(chain))
  }

  /** The nBits the next block must carry: its parent's, except at a period boundary, where the retarget rule
      decides. */
  function RequiredBits(retarget: Chain -> U32, chain: Chain): U32
    requires chain != []
  {
    if |chain| % 2016 == 0 then retarget(chain) else chain[|chain| - 1].nbits
  }

  /** Replacing the oldest timestamp by a new one cannot lift the median above both the old median and the new
      timestamp. */
  lemma MedianReplacement(chain: Chain, block: Hdr)
    requires chain != []
    ensures MedianTimePast(chain + [block]) <= Later(MedianTimePast(chain), block.time)
  {
    var m := Later(MedianTimePast(chain), block.time);
    var earlier, later := Window(chain), Window(chain + [block]);
    var last: seq<U32> := [block.time];
    MedianByCount(earlier, m);
    MedianByCount(later, m);
    assert CountUpTo(last, m) == 1 by { assert last[1..] == []; }
    assert Times(chain + [block]) == Times(chain) + last;
    if |chain| < 11 {
      CountAppend(earlier, last, m);
    } else {
      assert later == earlier[1..] + last;
      CountAppend(earlier[1..], last, m);
    }
  }

  // Jobs in context

  /** The headers in existence: what chain, if any, a block hash names. */
  type World = Hash -> Option<Chain>

  /** A header names its parent's chain extended by itself. */
  predicate TrueHeader(world: World, block: Announcement) {
    world(block.prevHash).Some? ==>
      world(block.blockHash) == Some(world(block.prevHash).value + [Hdr(block.time, block.nbits)])
  }

  /** The job is for the next height of a real chain, with the required bits, their target, and a time bound that
      exceeds the median time past whenever a 32-bit time can. */
  predicate Contextual(world: World, retarget: Chain -> U32, job: Job) {
    && world(job.prevHash).Some? && world(job.prevHash).value != []
    && var chain := world(job.prevHash).value;
       && job.height == |chain|
       && job.nbits == RequiredBits(retarget, chain)
       && CompactTarget(job.nbits) == Some(LeValue(job.target))
       && (job.mintime > MedianTimePast(chain) <==> MedianTimePast(chain) < U32_MAX)
  }

  /** A node's answer: contextual, with a mintime above the median time past. */
  predicate HonestUpdate(world: World, retarget: Chain -> U32, u: GbtUpdate) {
    u.built.Some? ==>
      && Contextual(world, retarget, u.built.value)
      && u.built.value.mintime > MedianTimePast(world(u.built.value.prevHash).value)
  }

  predicate HonestEvent(world: World, retarget: Chain -> U32, e: Event) {
    match e
    case Answer(u) => HonestUpdate(world, retarget, u)
    case Announced(call) => TrueHeader(world, call.block)
  }

  predicate HonestEvents(world: World, retarget: Chain -> U32, es: seq<Event>) {
    forall i :: 0 <= i < |es| ==> HonestEvent(world, retarget, es[i])
  }

  /** What the engine carries from job to job: the tip's time bound stays above the true median. */
  predicate Tracks(world: World, retarget: Chain -> U32, v: View) {
    v.current.ready ==>
      && Contextual(world, retarget, v.current)
      && v.tip.Some? && v.tip.value.mtp >= MedianTimePast(world(v.current.prevHash).value)
  }

  predicate AllContextual(world: World, retarget: Chain -> U32, jobs: seq<Job>) {
    forall i :: 0 <= i < |jobs| ==> Contextual(world, retarget, jobs[i])
  }

  /** A job published on an announced block is contextual, and the announced block itself carries the bits required of
      it. */
  lemma FastJobIsContextual(env: Env, world: World, retarget: Chain -> U32, v: View, call: FastCall)
    requires Coherent(v) && Tracks(world, retarget, v) && TrueHeader(world, call.block)
    requires FastVerdict(env, v, call) == Publishes
    ensures var v' := ApplyFast(env, v, call);
            && Tracks(world, retarget, v') && Contextual(world, retarget, v'.current)
            && v.current.ready
            && call.block.nbits == RequiredBits(retarget, world(v.current.prevHash).value)
  {
    FastKeepsCoherence(env, v, call);
    var chain := world(v.current.prevHash).value;
    var block := Hdr(call.block.time, call.block.nbits);
    var v' := ApplyFast(env, v, call);
    assert world(v'.current.prevHash) == Some(chain + [block]);
    MedianReplacement(chain, block);
    assert (chain + [block])[|chain|] == block;
  }

  /** Over every run of honest answers and true headers, every published job obeys the contextual header rules. */
  lemma {:induction false} PublishedJobsAreContextual(env: Env, world: World, retarget: Chain -> U32, es: seq<Event>)
    requires GoodEvents(es) && HonestEvents(world, retarget, es)
    ensures Tracks(world, retarget, Run(env, START, es))
    ensures AllContextual(world, retarget, Run(env, START, es).published)
  {
    if es != [] {
      var init, last := es[..|es| - 1], es[|es| - 1];
      PublishedJobsAreContextual(env, world, retarget, init);
      RunsAreCoherent(env, init);
      TrackStep(env, world, retarget, Run(env, START, init), last);
    }
  }

  lemma TrackStep(env: Env, world: World, retarget: Chain -> U32, v: View, e: Event)
    requires Coherent(v) && Tracks(world, retarget, v) && AllContextual(world, retarget, v.published)
    requires GoodEvent(e) && HonestEvent(world, retarget, e)
    ensures Tracks(world, retarget, Apply(env, v, e)) && AllContextual(world, retarget, Apply(env, v, e).published)
  {
    if e.Answer? {
      AnswerTracks(world, retarget, v, e.update);
    } else {
      AnnouncementTracks(env, world, retarget, v, e.call);
    }
    hide Coherent, Tracks, AllContextual, ApplyGbt, ApplyFast;
  }

  lemma AnswerTracks(world: World, retarget: Chain -> U32, v: View, u: GbtUpdate)
    requires Coherent(v) && Tracks(world, retarget, v) && AllContextual(world, retarget, v.published)
    requires WellBuilt(u) && Positive(u) && HonestUpdate(world, retarget, u)
    ensures Tracks(world, retarget, ApplyGbt(v, u)) && AllContextual(world, retarget, ApplyGbt(v, u).published)
  {
    hide Contextual, MedianTimePast;
    GbtKeepsCoherence(v, u);
  }

  lemma AnnouncementTracks(env: Env, world: World, retarget: Chain -> U32, v: View, call: FastCall)
    requires Coherent(v) && Tracks(world, retarget, v) && AllContextual(world, retarget, v.published)
    requires TrueHeader(world, call.block)
    ensures Tracks(world, retarget, ApplyFast(env, v, call))
    ensures AllContextual(world, retarget, ApplyFast(env, v, call).published)
  {
    FastKeepsCoherence(env, v, call);
    if FastVerdict(env, v, call) == Publishes {
      FastJobIsContextual(env, world, retarget, v, call);
    }
    hide Contextual, ApplyFast, FastVerdict, Coherent, Tracks;
  }

  /** Every share that is accepted, or makes a block, on a contextual job carries a time above the median time past. */
  lemma AcceptedTimesExceedMedian(h: Hasher, world: World, retarget: Chain -> U32, job: Job, prefix: Bytes,
                                  submit: Submit, shareTarget: Hash, override: Option<Bytes>, now: nat)
    requires Contextual(world, retarget, job) && Sized(|job.transactions| + 1)
    requires MedianTimePast(world(job.prevHash).value) < U32_MAX
    requires var r := Outcome(h, job, prefix, submit, shareTarget, override, now);
             r.Some? && (r.value.accepted || r.value.isBlock)
    ensures submit.ntime.value > MedianTimePast(world(job.prevHash).value)
  {
  }
}
