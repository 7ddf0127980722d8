/** Extended channels of one Stratum V2 connection (src/sv2/connection.rs): ids, jobs, targets and the messages sent,
    beside what a miner who follows the Stratum V2 Mining Protocol derives from those messages. */
module Sv2Channels {
  import opened ByteStrings
  import opened JobIdCircle
  import opened Jobs
  import opened Targets

  const MAX_CHANNEL_JOBS: nat := 32

  datatype ChannelJob = ChannelJob(
    template: Job,
    prefix: Bytes,
    target: Hash,
    difficulty: real,
    createdAt: int,
    followsTarget: bool,
    rolling: bool)

  datatype Channel = Channel(
    prefix: Bytes,
    extranonceSize: nat,
    difficulty: real,
    target: Hash,
    targetSent: bool,
    jobs: map<U32, ChannelJob>,
    current: Option<U32>)

  /** What goes over the wire about channels; `Closed` is the downstream's own CloseChannel. */
  datatype Message =
    | OpenSuccess(channel: U32, target: Hash)
    | OpenError
    | SetTarget(channel: U32, target: Hash)
    | NewExtendedMiningJob(channel: U32, job: U32, minNtime: Option<U32>, template: Job)
    | SetNewPrevHash(channel: U32, job: U32, prevHash: Hash, ntimeFrom: U32)
    | ShareReply(channel: U32, accepted: bool)
    | Closed(channel: U32)

  datatype Connection = Connection(nextChannel: U32, nextJob: U32, channels: map<U32, Channel>, wire: seq<Message>)

  const FRESH := Connection(1, 1, map[], [])

  // The miner's side

  /** A job as the miner holds it: one received with an empty min_ntime follows the channel's target, one received
      with a min_ntime keeps the target that was in force. */
  datatype MinerJob = Floating(template: Job) | Pinned(template: Job, target: Hash)

  datatype MinerChannel = MinerChannel(target: Hash, jobs: map<U32, MinerJob>, active: Option<U32>)

  type Miner = map<U32, MinerChannel>

  /** The Mining Protocol's rules for one message. SetNewPrevHash makes the named job current and ends all others. */
  function Hear(miner: Miner, message: Message): Miner {
    match message
    case OpenSuccess(c, target) => miner[c := MinerChannel(target, map[], None)]
    case SetTarget(c, target) => if c in miner then miner[c := miner[c].(target := target)] else miner
    case NewExtendedMiningJob(c, j, minNtime, template) =>
      if c !in miner then miner
      else if minNtime.None? then miner[c := miner[c].(jobs := miner[c].jobs[j := Floating(template)])]
      else miner[c := miner[c].(jobs := miner[c].jobs[j := Pinned(template, miner[c].target)], active := Some(j))]
    case SetNewPrevHash(c, j, _, _) =>
      if c !in miner || j !in miner[c].jobs then miner
      else miner[c := miner[c].(jobs := map[j := miner[c].jobs[j]], active := Some(j))]
    case Closed(c) => miner - {c}
    case _ => miner
  }

  function Listen(wire: seq<Message>): Miner {
    if wire == [] then map[] else Hear(Listen(wire[..|wire| - 1]), wire[|wire| - 1])
  }

  /** The target the miner works a job to. */
  function MinerTarget(channel: MinerChannel, job: U32): Hash
    requires job in channel.jobs
  {
    WorksTo(channel.jobs[job], channel.target)
  }

  function WorksTo(job: MinerJob, channelTarget: Hash): Hash {
    match job
    case Floating(_) => channelTarget
    case Pinned(_, target) => target
  }

  lemma ListenAppend(wire: seq<Message>, message: Message)
    ensures Listen(wire + [message]) == Hear(Listen(wire), message)
  {
    assert (wire + [message])[..|wire|] == wire;
  }

  // The server's side

  function Sv2MinNtime(job: Job): U32 {
    if job.ntime > job.mintime then job.ntime else job.mintime
  }

  predicate ShouldClean(channel: Channel, job: Job) {
    || !job.submitOld
    || channel.current.None?
    || channel.current.value !in channel.jobs
    || channel.jobs[channel.current.value].template.prevHash != job.prevHash
  }

  /** The walk of `prune_extra_jobs` over job ids, oldest first. */
  function Pruned(jobs: map<U32, ChannelJob>, current: Option<U32>, order: seq<U32>, max: nat): map<U32, ChannelJob>
    decreases |order|
  {
    if |jobs| <= max || order == [] then jobs
    else Pruned(if Some(order[0]) == current then jobs else jobs - {order[0]}, current, order[1..], max)
  }

  /** Every id once, by creation time; ties in any order, as an unstable sort leaves them. */
  ghost predicate OldestFirst(jobs: map<U32, ChannelJob>, order: seq<U32>) {
    && (forall id :: id in jobs <==> id in order)
    && (forall i, j :: 0 <= i < j < |order| ==> order[i] != order[j])
    && (forall i, j :: 0 <= i < j < |order| && order[i] in jobs && order[j] in jobs ==>
          jobs[order[i]].createdAt <= jobs[order[j]].createdAt)
  }

  function NewJob(channel: Channel, template: Job, clean: bool, rolling: bool, now: int): ChannelJob {
    ChannelJob(template, template.coinbase1 + channel.prefix, channel.target, channel.difficulty, now, clean, rolling)
  }

  function ChannelAfterSend(channel: Channel, id: U32, job: ChannelJob, clean: bool, order: seq<U32>): Channel {
    var jobs := if clean then map[id := job] else Pruned(channel.jobs[id := job], Some(id), order, MAX_CHANNEL_JOBS);
    channel.(jobs := jobs, current := Some(id), targetSent := true)
  }

  function SendMessages(c: U32, channel: Channel, id: U32, template: Job, clean: bool): seq<Message> {
    (if channel.targetSent then [] else [SetTarget(c, channel.target)])
    + [NewExtendedMiningJob(c, id, if clean then None else Some(Sv2MinNtime(template)), template)]
    + (if clean then [SetNewPrevHash(c, id, template.prevHash, Sv2MinNtime(template))] else [])
  }

  /** `send_job_to_channel`; an unknown channel is an error after the id is taken. `order` is what the sort in the
      pruning produced. */
  function SendJob(conn: Connection, c: U32, template: Job, clean: bool, rolling: bool, now: int,
                   order: seq<U32>): Connection {
    var id := AllocatedId(conn.nextJob);
    var conn' := conn.(nextJob := FollowingId(conn.nextJob));
    if c !in conn.channels then conn'
    else
      var channel := conn.channels[c];
      var job := NewJob(channel, template, clean, rolling, now);
      conn'.(channels := conn.channels[c := ChannelAfterSend(channel, id, job, clean, order)],
             wire := conn.wire + SendMessages(c, channel, id, template, clean))
  }

  /** `set_channel_difficulty` for a difficulty whose target is `target`. */
  function WithDifficulty(channel: Channel, difficulty: real, target: Hash): Channel {
    channel.(difficulty := difficulty, target := target,
             jobs := map id | id in channel.jobs ::
               if channel.jobs[id].followsTarget then channel.jobs[id].(difficulty := difficulty, target := target)
               else channel.jobs[id])
  }

  function CurrentTemplate(channel: Channel): Option<Job> {
    if channel.current.Some? && channel.current.value in channel.jobs
    then Some(channel.jobs[channel.current.value].template) else None
  }

  /** A retarget with the difficulty the controller answered: nothing for a difficulty without a target, otherwise
      SetTarget and the current template again as a job that does not clean. */
  function Retarget(conn: Connection, c: U32, difficulty: real, rolling: bool, now: int, order: seq<U32>): Connection {
    if c !in conn.channels || ShareTargetLe(difficulty).None? then conn
    else
      var template := CurrentTemplate(conn.channels[c]);
      var told := TellTarget(conn, c, difficulty, ShareTargetLe(difficulty).value);
      if template.None? then told else SendJob(told, c, template.value, false, rolling, now, order)
  }

  function TellTarget(conn: Connection, c: U32, difficulty: real, target: Hash): Connection
    requires c in conn.channels
  {
    conn.(channels := conn.channels[c := WithDifficulty(conn.channels[c], difficulty, target)],
          wire := conn.wire + [SetTarget(c, target)])
  }

  /** Opening a channel: its id, its target on the wire, and a first job when a template is ready. */
  function Open(conn: Connection, prefix: Bytes, extranonceSize: nat, difficulty: real, current: Job, rolling: bool,
                now: int): Connection {
    var c := AllocatedId(conn.nextChannel);
    var conn' := conn.(nextChannel := FollowingId(conn.nextChannel));
    if ShareTargetLe(difficulty).None? then conn'
    else
      var empty := AddChannel(conn, prefix, extranonceSize, difficulty, ShareTargetLe(difficulty).value);
      if current.ready then SendJob(empty, c, current, true, rolling, now, []) else empty
  }

  function AddChannel(conn: Connection, prefix: Bytes, extranonceSize: nat, difficulty: real,
                      target: Hash): Connection {
    var c := AllocatedId(conn.nextChannel);
    Connection(FollowingId(conn.nextChannel), conn.nextJob,
               conn.channels[c := Channel(prefix, extranonceSize, difficulty, target, false, map[], None)],
               conn.wire + [OpenSuccess(c, target)])
  }

  function Close(conn: Connection, c: U32): Connection {
    if c in conn.channels then conn.(channels := conn.channels - {c}, wire := conn.wire + [Closed(c)]) else conn
  }

  /** The orders the pruning sorts produced, per channel. */
  type Orders = map<U32, seq<U32>>

  function OrderFor(orders: Orders, c: U32): seq<U32> { if c in orders then orders[c] else [] }

  /** `send_job_to_all_channels`, the channels taken in the order given. */
  function Broadcast(conn: Connection, ids: seq<U32>, template: Job, rolling: bool, now: int,
                     orders: Orders): Connection {
    if ids == [] then conn
    else
      var init, c := ids[..|ids| - 1], ids[|ids| - 1];
      var before := Broadcast(conn, init, template, rolling, now, orders);
      if c in before.channels
      then SendJob(before, c, template, ShouldClean(before.channels[c], template), rolling, now, OrderFor(orders, c))
      else before
  }

  datatype Event =
    | Opened(prefix: Bytes, extranonceSize: nat, difficulty: real, current: Job, rolling: bool, now: int)
    | Refused
    | Templated(ids: seq<U32>, template: Job, rolling: bool, now: int, orders: Orders)
    | Retargeted(channel: U32, difficulty: real, rolling: bool, now: int, order: seq<U32>)
    | Replied(channel: U32, accepted: bool)
    | Left(channel: U32)

  function Apply(conn: Connection, e: Event): Connection {
    match e
    case Opened(prefix, size, difficulty, current, rolling, now) =>
      Open(conn, prefix, size, difficulty, current, rolling, now)
    case Refused => conn.(wire := conn.wire + [OpenError])
    case Templated(ids, template, rolling, now, orders) => Broadcast(conn, ids, template, rolling, now, orders)
    case Retargeted(c, difficulty, rolling, now, order) => Retarget(conn, c, difficulty, rolling, now, order)
    case Replied(c, accepted) => conn.(wire := conn.wire + [ShareReply(c, accepted)])
    case Left(c) => Close(conn, c)
  }

  // Pruning

  /** Pruning down to a positive number of jobs keeps the current one and whatever is newest: nothing kept, bar the
      current job, is older than anything dropped. */
  lemma {:induction false} PruningKeepsNewest(jobs: map<U32, ChannelJob>, current: U32, order: seq<U32>, max: nat)
    requires current in jobs && max >= 1
    requires forall id :: id in jobs && id != current ==> id in order
    requires forall i, j :: 0 <= i < j < |order| && order[i] in jobs && order[j] in jobs ==>
               jobs[order[i]].createdAt <= jobs[order[j]].createdAt
    ensures var kept := Pruned(jobs, Some(current), order, max);
            && current in kept && kept.Keys <= jobs.Keys && (forall id :: id in kept ==> kept[id] == jobs[id])
            && |kept| <= max
            && (|jobs| <= max ==> kept == jobs)
            && (forall dropped, newer :: dropped in jobs && dropped !in kept && newer in kept && newer != current ==>
                  jobs[dropped].createdAt <= jobs[newer].createdAt)
    decreases |order|
  {
    if |jobs| > max {
      if order == [] {
        assert jobs.Keys <= {current};
        SubsetSize(jobs.Keys, {current});
      } else {
        var next := if order[0] == current then jobs else jobs - {order[0]};
        forall id | id in next && id != current
          ensures id in order[1..]
        {
          assert id in order && id != order[0];
        }
        PruningKeepsNewest(next, current, order[1..], max);
        var kept := Pruned(next, Some(current), order[1..], max);
        forall dropped, newer | dropped in jobs && dropped !in kept && newer in kept && newer != current
          ensures jobs[dropped].createdAt <= jobs[newer].createdAt
        {
          if dropped !in next {
            assert newer in order[1..];
            var j :| 0 <= j < |order[1..]| && order[1..][j] == newer;
            assert order[j + 1] == newer;
          }
        }
      }
    }
  }

  lemma SubsetSize(a: set<U32>, b: set<U32>)
    requires a <= b
    ensures |a| <= |b|
  {
    assert b == a + (b - a);
  }

  // Invariants

  predicate JobOk(job: ChannelJob, prefix: Bytes) {
    ShareTargetLe(job.difficulty) == Some(job.target) && job.prefix == job.template.coinbase1 + prefix
  }

  /** The current job is held; all jobs are on its parent; there are at most 32; targets belong to their difficulties,
      jobs that follow the channel's target have it, and every job hashes the channel's extranonce prefix. */
  predicate ChannelOk(channel: Channel) {
    && ShareTargetLe(channel.difficulty) == Some(channel.target)
    && |channel.jobs| <= MAX_CHANNEL_JOBS
    && if channel.current.None? then channel.jobs == map[]
       else
         && channel.current.value in channel.jobs
         && JobsOk(channel.jobs, channel.target, channel.jobs[channel.current.value].template.prevHash, channel.prefix)
  }

  /** What a channel owes to the jobs in it. */
  predicate JobsOk(jobs: map<U32, ChannelJob>, target: Hash, parent: Hash, prefix: Bytes) {
    forall id :: id in jobs ==>
      && JobOk(jobs[id], prefix)
      && (jobs[id].followsTarget ==> jobs[id].target == target)
      && jobs[id].template.prevHash == parent
  }

  /** The miner holds every job the server still accepts, as the very job it was sent, to the very target the server
      checks. */
  predicate JobAgrees(channel: Channel, miner: MinerChannel, id: U32)
    requires id in channel.jobs
  {
    id in miner.jobs && SameJob(channel.jobs[id], miner.jobs[id], miner.target)
  }

  predicate SameJob(job: ChannelJob, held: MinerJob, channelTarget: Hash) {
    && held.template == job.template
    && (held.Floating? <==> job.followsTarget)
    && WorksTo(held, channelTarget) == job.target
  }

  predicate ChannelAgrees(channel: Channel, miner: MinerChannel) {
    && channel.target == miner.target
    && channel.current == miner.active
    && forall id :: id in channel.jobs ==> JobAgrees(channel, miner, id)
  }

  predicate ChannelInStep(channel: Channel, miner: MinerChannel) {
    ChannelOk(channel) && ChannelAgrees(channel, miner)
  }

  predicate InStep(conn: Connection) {
    && conn.channels.Keys == Listen(conn.wire).Keys
    && forall c :: c in conn.channels ==>
      c in Listen(conn.wire) && ChannelInStep(conn.channels[c], Listen(conn.wire)[c])
  }

  /** A job that does not clean is sent only on the current job's parent; its pruning order is a sort of the ids. */
  ghost predicate Sendable(channel: Channel, id: U32, job: ChannelJob, clean: bool, order: seq<U32>) {
    !clean ==> SameParent(channel, job.template) && OldestFirst(channel.jobs[id := job], order)
  }

  predicate SameParent(channel: Channel, template: Job) {
    CurrentTemplate(channel).Some? && CurrentTemplate(channel).value.prevHash == template.prevHash
  }

  lemma SendKeepsChannelOk(channel: Channel, id: U32, job: ChannelJob, clean: bool, order: seq<U32>)
    requires ChannelOk(channel) && JobOk(job, channel.prefix) && job.target == channel.target
    requires Sendable(channel, id, job, clean, order)
    ensures ChannelOk(ChannelAfterSend(channel, id, job, clean, order))
    ensures var sent := ChannelAfterSend(channel, id, job, clean, order);
            id in sent.jobs && sent.jobs[id] == job &&
            forall other :: other in sent.jobs && other != id ==>
              other in channel.jobs && sent.jobs[other] == channel.jobs[other]
  {
    hide ShareTargetLe, JobOk;
    if !clean {
      var jobs := channel.jobs[id := job];
      var parent := job.template.prevHash;
      assert SameParent(channel, job.template) && OldestFirst(jobs, order);
      hide Sendable, OldestFirst;
      JobAdded(channel.jobs, id, job, channel.target, parent, channel.prefix);
      SortedForPruning(jobs, id, order);
      PruningKeepsNewest(jobs, id, order, MAX_CHANNEL_JOBS);
      FewerJobs(jobs, Pruned(jobs, Some(id), order, MAX_CHANNEL_JOBS), channel.target, parent, channel.prefix);
      hide Pruned, JobsOk;
    }
  }

  lemma JobAdded(jobs: map<U32, ChannelJob>, id: U32, job: ChannelJob, target: Hash, parent: Hash, prefix: Bytes)
    requires JobsOk(jobs, target, parent, prefix)
    requires JobOk(job, prefix) && job.target == target && job.template.prevHash == parent
    ensures JobsOk(jobs[id := job], target, parent, prefix)
  {
    hide JobOk;
  }

  lemma FewerJobs(jobs: map<U32, ChannelJob>, fewer: map<U32, ChannelJob>, target: Hash, parent: Hash, prefix: Bytes)
    requires JobsOk(jobs, target, parent, prefix) && forall id :: id in fewer ==> id in jobs && fewer[id] == jobs[id]
    ensures JobsOk(fewer, target, parent, prefix)
  {
    hide JobOk;
  }

  lemma SortedForPruning(jobs: map<U32, ChannelJob>, id: U32, order: seq<U32>)
    requires id in jobs && OldestFirst(jobs, order)
    ensures forall k :: k in jobs && k != id ==> k in order
    ensures forall i, j :: 0 <= i < j < |order| && order[i] in jobs && order[j] in jobs ==>
              jobs[order[i]].createdAt <= jobs[order[j]].createdAt
  {
  }

  function HearAll(miner: Miner, messages: seq<Message>): Miner
    decreases |messages|
  {
    if messages == [] then miner else HearAll(Hear(miner, messages[0]), messages[1..])
  }

  lemma {:induction false} ListenAll(wire: seq<Message>, messages: seq<Message>)
    ensures Listen(wire + messages) == HearAll(Listen(wire), messages)
    decreases |messages|
  {
    if messages == [] {
      assert wire + messages == wire;
    } else {
      ListenAppend(wire, messages[0]);
      ListenAll(wire + [messages[0]], messages[1..]);
      assert (wire + [messages[0]]) + messages[1..] == wire + messages;
    }
  }

  /** The miner's channel after the messages that announce a job. */
  function MinerAfterSend(miner: MinerChannel, id: U32, template: Job, clean: bool): MinerChannel {
    if clean then miner.(jobs := map[id := Floating(template)], active := Some(id))
    else miner.(jobs := miner.jobs[id := Pinned(template, miner.target)], active := Some(id))
  }

  lemma HearSend(miner: Miner, c: U32, channel: Channel, id: U32, template: Job, clean: bool)
    requires c in miner && miner[c].target == channel.target
    ensures HearAll(miner, SendMessages(c, channel, id, template, clean))
            == miner[c := MinerAfterSend(miner[c], id, template, clean)]
  {
    var start: seq<Message> := if channel.targetSent then [] else [SetTarget(c, channel.target)];
    var job := NewExtendedMiningJob(c, id, if clean then None else Some(Sv2MinNtime(template)), template);
    var last: seq<Message> := if clean then [SetNewPrevHash(c, id, template.prevHash, Sv2MinNtime(template))] else [];
    var all := start + [job] + last;
    assert miner[c := miner[c].(target := channel.target)] == miner;
    if !channel.targetSent {
      assert all[0] == SetTarget(c, channel.target) && all[1..] == [job] + last;
    }
    assert HearAll(miner, all) == HearAll(miner, [job] + last);
    assert ([job] + last)[1..] == last;
    var told := Hear(miner, job);
    assert HearAll(miner, all) == HearAll(told, last);
    if clean {
      assert last[1..] == [];
      assert HearAll(told, last) == Hear(told, last[0]);
    }
  }

  lemma SendKeepsAgreement(channel: Channel, miner: MinerChannel, id: U32, job: ChannelJob, clean: bool,
                           order: seq<U32>)
    requires ChannelOk(channel) && ChannelAgrees(channel, miner)
    requires JobOk(job, channel.prefix) && job.target == channel.target && job.followsTarget == clean
    requires Sendable(channel, id, job, clean, order)
    ensures ChannelAgrees(ChannelAfterSend(channel, id, job, clean, order),
                          MinerAfterSend(miner, id, job.template, clean))
  {
    hide ShareTargetLe, ChannelOk, Sendable, Pruned, JobOk;
    SendKeepsChannelOk(channel, id, job, clean, order);
    var sent, heard := ChannelAfterSend(channel, id, job, clean, order), MinerAfterSend(miner, id, job.template, clean);
    assert SameJob(job, heard.jobs[id], heard.target);
    hide SameJob;
    forall other | other in sent.jobs
      ensures JobAgrees(sent, heard, other)
    {
      if other != id {
        assert !clean && JobAgrees(channel, miner, other);
      }
    }
  }

  /** Replacing one channel on both sides keeps the connection in step. */
  lemma ReplaceChannel(conn: Connection, c: U32, channel: Channel, wire: seq<Message>, miner: MinerChannel,
                       conn': Connection)
    requires InStep(conn) && Listen(wire) == Listen(conn.wire)[c := miner]
    requires conn'.channels == conn.channels[c := channel] && conn'.wire == wire
    requires ChannelInStep(channel, miner)
    ensures InStep(conn')
  {
    hide ChannelInStep;
  }

  lemma SendKeepsInStep(conn: Connection, c: U32, template: Job, clean: bool, rolling: bool, now: int, order: seq<U32>)
    requires InStep(conn) && c in conn.channels
    requires var job := NewJob(conn.channels[c], template, clean, rolling, now);
             Sendable(conn.channels[c], AllocatedId(conn.nextJob), job, clean, order)
    ensures InStep(SendJob(conn, c, template, clean, rolling, now, order))
  {
    hide ShareTargetLe;
    var channel, miner := conn.channels[c], Listen(conn.wire)[c];
    var id := AllocatedId(conn.nextJob);
    var job := NewJob(channel, template, clean, rolling, now);
    var messages := SendMessages(c, channel, id, template, clean);
    SendKeepsChannelOk(channel, id, job, clean, order);
    SendKeepsAgreement(channel, miner, id, job, clean, order);
    ListenAll(conn.wire, messages);
    HearSend(Listen(conn.wire), c, channel, id, template, clean);
    ReplaceChannel(conn, c, ChannelAfterSend(channel, id, job, clean, order), conn.wire + messages,
                   MinerAfterSend(miner, id, template, clean), SendJob(conn, c, template, clean, rolling, now, order));
  }

  lemma DifficultyKeepsOk(channel: Channel, difficulty: real, target: Hash)
    requires ChannelOk(channel) && ShareTargetLe(difficulty) == Some(target)
    ensures ChannelOk(WithDifficulty(channel, difficulty, target))
  {
    hide ShareTargetLe;
    var retargeted := WithDifficulty(channel, difficulty, target);
    assert retargeted.jobs.Keys == channel.jobs.Keys;
    assert |retargeted.jobs| == |retargeted.jobs.Keys|;
  }

  lemma DifficultyKeepsChannel(channel: Channel, miner: MinerChannel, difficulty: real, target: Hash)
    requires ChannelOk(channel) && ChannelAgrees(channel, miner) && ShareTargetLe(difficulty) == Some(target)
    ensures ChannelOk(WithDifficulty(channel, difficulty, target))
    ensures ChannelAgrees(WithDifficulty(channel, difficulty, target), miner.(target := target))
  {
    hide ShareTargetLe;
    DifficultyKeepsOk(channel, difficulty, target);
    hide ChannelOk;
    var retargeted := WithDifficulty(channel, difficulty, target);
    forall id | id in retargeted.jobs
      ensures JobAgrees(retargeted, miner.(target := target), id)
    {
      assert JobAgrees(channel, miner, id);
    }
  }

  ghost predicate GoodRetarget(conn: Connection, c: U32, difficulty: real, rolling: bool, now: int, order: seq<U32>) {
    c in conn.channels && ShareTargetLe(difficulty).Some? && CurrentTemplate(conn.channels[c]).Some? ==>
      var channel := WithDifficulty(conn.channels[c], difficulty, ShareTargetLe(difficulty).value);
      var job := NewJob(channel, CurrentTemplate(conn.channels[c]).value, false, rolling, now);
      OldestFirst(channel.jobs[AllocatedId(conn.nextJob) := job], order)
  }

  lemma TellTargetKeepsInStep(conn: Connection, c: U32, difficulty: real, target: Hash)
    requires InStep(conn) && c in conn.channels && ShareTargetLe(difficulty) == Some(target)
    ensures InStep(TellTarget(conn, c, difficulty, target))
  {
    hide ShareTargetLe;
    var channel, miner := conn.channels[c], Listen(conn.wire)[c];
    var told := TellTarget(conn, c, difficulty, target);
    DifficultyKeepsChannel(channel, miner, difficulty, target);
    ListenAppend(conn.wire, SetTarget(c, target));
    ReplaceChannel(conn, c, WithDifficulty(channel, difficulty, target), told.wire, miner.(target := target), told);
  }

  lemma RetargetKeepsInStep(conn: Connection, c: U32, difficulty: real, rolling: bool, now: int, order: seq<U32>)
    requires InStep(conn) && GoodRetarget(conn, c, difficulty, rolling, now, order)
    ensures InStep(Retarget(conn, c, difficulty, rolling, now, order))
  {
    hide ChannelInStep, ShareTargetLe, Listen;
    if c in conn.channels && ShareTargetLe(difficulty).Some? {
      var told := TellTarget(conn, c, difficulty, ShareTargetLe(difficulty).value);
      TellTargetKeepsInStep(conn, c, difficulty, ShareTargetLe(difficulty).value);
      var template := CurrentTemplate(conn.channels[c]);
      if template.Some? {
        assert told.channels[c] == WithDifficulty(conn.channels[c], difficulty, ShareTargetLe(difficulty).value);
        assert CurrentTemplate(told.channels[c]) == template;
        SendKeepsInStep(told, c, template.value, false, rolling, now, order);
      }
    }
  }

  lemma AddChannelKeepsInStep(conn: Connection, prefix: Bytes, size: nat, difficulty: real, target: Hash)
    requires InStep(conn) && ShareTargetLe(difficulty) == Some(target)
    ensures InStep(AddChannel(conn, prefix, size, difficulty, target))
  {
    hide ShareTargetLe, ChannelInStep;
    var c := AllocatedId(conn.nextChannel);
    var channel := Channel(prefix, size, difficulty, target, false, map[], None);
    EmptyChannelInStep(channel, MinerChannel(target, map[], None));
    ListenAppend(conn.wire, OpenSuccess(c, target));
    var empty := AddChannel(conn, prefix, size, difficulty, target);
    ReplaceChannel(conn, c, channel, empty.wire, MinerChannel(target, map[], None), empty);
  }

  lemma EmptyChannelInStep(channel: Channel, miner: MinerChannel)
    requires channel.jobs == map[] && channel.current.None? && miner.active.None? && channel.target == miner.target
    requires ShareTargetLe(channel.difficulty) == Some(channel.target)
    ensures ChannelInStep(channel, miner)
  {
    hide ShareTargetLe;
  }

  lemma OpenKeepsInStep(conn: Connection, prefix: Bytes, size: nat, difficulty: real, current: Job, rolling: bool,
                        now: int)
    requires InStep(conn)
    ensures InStep(Open(conn, prefix, size, difficulty, current, rolling, now))
  {
    hide ChannelInStep, ShareTargetLe, Listen;
    if ShareTargetLe(difficulty).Some? {
      var c, target := AllocatedId(conn.nextChannel), ShareTargetLe(difficulty).value;
      AddChannelKeepsInStep(conn, prefix, size, difficulty, target);
      if current.ready {
        SendKeepsInStep(AddChannel(conn, prefix, size, difficulty, target), c, current, true, rolling, now, []);
      }
    }
  }

  lemma CloseKeepsInStep(conn: Connection, c: U32)
    requires InStep(conn)
    ensures InStep(Close(conn, c))
  {
    hide ChannelInStep;
    ListenAppend(conn.wire, Closed(c));
    var closed := Close(conn, c);
    if c in conn.channels {
      assert Listen(closed.wire) == Listen(conn.wire) - {c};
      forall other | other in closed.channels
        ensures other in Listen(closed.wire) && ChannelInStep(closed.channels[other], Listen(closed.wire)[other])
      {
        assert other in conn.channels && other != c;
      }
    }
  }

  /** The pruning orders a broadcast uses are sorts of the ids they prune. */
  ghost predicate GoodBroadcast(conn: Connection, ids: seq<U32>, template: Job, rolling: bool, now: int,
                                orders: Orders) {
    ids == [] ||
    var init, c := ids[..|ids| - 1], ids[|ids| - 1];
    var before := Broadcast(conn, init, template, rolling, now, orders);
    && GoodBroadcast(conn, init, template, rolling, now, orders)
    && (c in before.channels && !ShouldClean(before.channels[c], template) ==>
          var job := NewJob(before.channels[c], template, false, rolling, now);
          OldestFirst(before.channels[c].jobs[AllocatedId(before.nextJob) := job], OrderFor(orders, c)))
  }

  lemma {:induction false} BroadcastKeepsInStep(conn: Connection, ids: seq<U32>, template: Job, rolling: bool,
                                                now: int, orders: Orders)
    requires InStep(conn) && GoodBroadcast(conn, ids, template, rolling, now, orders)
    ensures InStep(Broadcast(conn, ids, template, rolling, now, orders))
  {
    hide ChannelInStep, ShareTargetLe, OldestFirst, Listen;
    if ids != [] {
      var init, c := ids[..|ids| - 1], ids[|ids| - 1];
      BroadcastKeepsInStep(conn, init, template, rolling, now, orders);
      var before := Broadcast(conn, init, template, rolling, now, orders);
      if c in before.channels {
        SendKeepsInStep(before, c, template, ShouldClean(before.channels[c], template), rolling, now,
                        OrderFor(orders, c));
      }
    }
  }

  /** The only thing asked of an event is that the sorts inside it sorted. */
  ghost predicate GoodEvent(conn: Connection, e: Event) {
    match e
    case Templated(ids, template, rolling, now, orders) => GoodBroadcast(conn, ids, template, rolling, now, orders)
    case Retargeted(c, difficulty, rolling, now, order) => GoodRetarget(conn, c, difficulty, rolling, now, order)
    case _ => true
  }

  lemma ApplyKeepsInStep(conn: Connection, e: Event)
    requires InStep(conn) && GoodEvent(conn, e)
    ensures InStep(Apply(conn, e))
  {
    hide Open, Broadcast, Retarget, Close, Listen, ChannelInStep, GoodBroadcast, GoodRetarget;
    match e
    case Opened(prefix, size, difficulty, current, rolling, now) =>
      OpenKeepsInStep(conn, prefix, size, difficulty, current, rolling, now);
    case Refused => ListenAppend(conn.wire, OpenError);
    case Templated(ids, template, rolling, now, orders) =>
      BroadcastKeepsInStep(conn, ids, template, rolling, now, orders);
    case Retargeted(c, difficulty, rolling, now, order) =>
      RetargetKeepsInStep(conn, c, difficulty, rolling, now, order);
    case Replied(c, accepted) => ListenAppend(conn.wire, ShareReply(c, accepted));
    case Left(c) => CloseKeepsInStep(conn, c);
  }

  function Run(es: seq<Event>): Connection {
    if es == [] then FRESH else Apply(Run(es[..|es| - 1]), es[|es| - 1])
  }

  ghost predicate GoodRun(es: seq<Event>) {
    es == [] || (GoodRun(es[..|es| - 1]) && GoodEvent(Run(es[..|es| - 1]), es[|es| - 1]))
  }

  lemma {:induction false} RunsStayInStep(es: seq<Event>)
    requires GoodRun(es)
    ensures InStep(Run(es))
  {
    if es != [] {
      RunsStayInStep(es[..|es| - 1]);
      ApplyKeepsInStep(Run(es[..|es| - 1]), es[|es| - 1]);
    }
  }

  lemma HeldJob(conn: Connection, c: U32, id: U32)
    requires InStep(conn) && c in conn.channels && id in conn.channels[c].jobs
    ensures var job, miner := conn.channels[c].jobs[id], Listen(conn.wire);
            && c in miner && id in miner[c].jobs
            && MinerTarget(miner[c], id) == job.target
            && miner[c].jobs[id].template == job.template
            && ShareTargetLe(job.difficulty) == Some(job.target)
            && job.prefix == job.template.coinbase1 + conn.channels[c].prefix
  {
    hide ShareTargetLe;
    assert JobAgrees(conn.channels[c], Listen(conn.wire)[c], id);
  }

  /** In every run, for every job the server still accepts shares on: the miner knows that job, computes from the
      messages sent exactly the target the server checks, and that target is the one of the job's difficulty. */
  lemma TargetsMatchTheWire(es: seq<Event>, c: U32, id: U32)
    requires GoodRun(es) && c in Run(es).channels && id in Run(es).channels[c].jobs
    ensures var job, miner := Run(es).channels[c].jobs[id], Listen(Run(es).wire);
            && c in miner && id in miner[c].jobs
            && MinerTarget(miner[c], id) == job.target
            && miner[c].jobs[id].template == job.template
            && ShareTargetLe(job.difficulty) == Some(job.target)
  {
    RunsStayInStep(es);
    HeldJob(Run(es), c, id);
  }

  /** In every run: the job the miner is told to work on is one the server accepts; all jobs of a channel are on its
      parent; and there are never more than 32. */
  lemma ChannelsStayOk(es: seq<Event>, c: U32)
    requires GoodRun(es) && c in Run(es).channels
    ensures var channel := Run(es).channels[c];
            && c in Listen(Run(es).wire) && channel.current == Listen(Run(es).wire)[c].active
            && |channel.jobs| <= MAX_CHANNEL_JOBS
            && (channel.current.Some? ==> channel.current.value in channel.jobs)
            && (forall i, j :: i in channel.jobs && j in channel.jobs ==>
                  channel.jobs[i].template.prevHash == channel.jobs[j].template.prevHash)
  {
    RunsStayInStep(es);
  }

  // Job ids

  /** The ids of the jobs announced, in order. */
  function JobIds(wire: seq<Message>): seq<U32> {
    if wire == [] then []
    else
      var last := wire[|wire| - 1];
      JobIds(wire[..|wire| - 1]) + if last.NewExtendedMiningJob? then [last.job] else []
  }

  /** Ids are handed out round the circle 1, 2, ..., 2^32 - 1. */
  predicate IdsInOrder(conn: Connection) {
    var ids := JobIds(conn.wire);
    && conn.nextJob == IdOnCircle(|ids|)
    && forall i :: 0 <= i < |ids| ==> ids[i] == IdOnCircle(i)
  }

  lemma {:induction false} JobIdsAppend(wire: seq<Message>, more: seq<Message>)
    ensures JobIds(wire + more) == JobIds(wire) + JobIds(more)
    decreases |more|
  {
    if more == [] {
      assert wire + more == wire;
    } else {
      assert (wire + more)[..|wire + more| - 1] == wire + more[..|more| - 1];
      JobIdsAppend(wire, more[..|more| - 1]);
    }
  }

  lemma QuietMessage(wire: seq<Message>, message: Message)
    requires !message.NewExtendedMiningJob?
    ensures JobIds(wire + [message]) == JobIds(wire)
  {
    assert (wire + [message])[..|wire|] == wire;
  }

  lemma JobMessage(wire: seq<Message>, message: Message)
    requires message.NewExtendedMiningJob?
    ensures JobIds(wire + [message]) == JobIds(wire) + [message.job]
  {
    assert (wire + [message])[..|wire|] == wire;
  }

  lemma QuietKeepsIds(before: Connection, after: Connection, message: Message)
    requires IdsInOrder(before) && after.nextJob == before.nextJob
    requires after.wire == before.wire + [message] && !message.NewExtendedMiningJob?
    ensures IdsInOrder(after)
  {
    QuietMessage(before.wire, message);
  }

  lemma SendJobIds(conn: Connection, c: U32, channel: Channel, id: U32, template: Job, clean: bool)
    ensures JobIds(conn.wire + SendMessages(c, channel, id, template, clean)) == JobIds(conn.wire) + [id]
  {
    hide JobIds;
    var start: seq<Message> := if channel.targetSent then [] else [SetTarget(c, channel.target)];
    var job := NewExtendedMiningJob(c, id, if clean then None else Some(Sv2MinNtime(template)), template);
    var last: seq<Message> := if clean then [SetNewPrevHash(c, id, template.prevHash, Sv2MinNtime(template))] else [];
    if start != [] {
      QuietMessage(conn.wire, start[0]);
    } else {
      assert conn.wire + start == conn.wire;
    }
    var told := conn.wire + start;
    JobMessage(told, job);
    if clean {
      QuietMessage(told + [job], last[0]);
    } else {
      assert (told + [job]) + last == told + [job];
    }
    assert conn.wire + SendMessages(c, channel, id, template, clean) == (told + [job]) + last;
  }

  lemma SendKeepsIds(conn: Connection, c: U32, template: Job, clean: bool, rolling: bool, now: int, order: seq<U32>)
    requires IdsInOrder(conn) && c in conn.channels
    ensures IdsInOrder(SendJob(conn, c, template, clean, rolling, now, order))
  {
    var ids := JobIds(conn.wire);
    SendJobIds(conn, c, conn.channels[c], conn.nextJob, template, clean);
    NextOnCircle(|ids|);
  }

  lemma {:induction false} BroadcastKeepsIds(conn: Connection, ids: seq<U32>, template: Job, rolling: bool, now: int,
                                             orders: Orders)
    requires IdsInOrder(conn)
    ensures IdsInOrder(Broadcast(conn, ids, template, rolling, now, orders))
  {
    if ids != [] {
      var init, c := ids[..|ids| - 1], ids[|ids| - 1];
      BroadcastKeepsIds(conn, init, template, rolling, now, orders);
      var before := Broadcast(conn, init, template, rolling, now, orders);
      if c in before.channels {
        SendKeepsIds(before, c, template, ShouldClean(before.channels[c], template), rolling, now, OrderFor(orders, c));
      }
    }
  }

  lemma ApplyKeepsIds(conn: Connection, e: Event)
    requires IdsInOrder(conn)
    ensures IdsInOrder(Apply(conn, e))
  {
    hide IdsInOrder, ShareTargetLe;
    match e
    case Opened(prefix, size, difficulty, current, rolling, now) =>
      if ShareTargetLe(difficulty).Some? {
        var c, target := AllocatedId(conn.nextChannel), ShareTargetLe(difficulty).value;
        var empty := AddChannel(conn, prefix, size, difficulty, target);
        QuietKeepsIds(conn, empty, OpenSuccess(c, target));
        if current.ready {
          SendKeepsIds(empty, c, current, true, rolling, now, []);
        }
      } else {
        SameIds(conn, Apply(conn, e));
      }
    case Templated(ids, template, rolling, now, orders) => BroadcastKeepsIds(conn, ids, template, rolling, now, orders);
    case Retargeted(c, difficulty, rolling, now, order) =>
      if c in conn.channels && ShareTargetLe(difficulty).Some? {
        var told := TellTarget(conn, c, difficulty, ShareTargetLe(difficulty).value);
        QuietKeepsIds(conn, told, SetTarget(c, ShareTargetLe(difficulty).value));
        if CurrentTemplate(conn.channels[c]).Some? {
          SendKeepsIds(told, c, CurrentTemplate(conn.channels[c]).value, false, rolling, now, order);
        }
      }
    case Refused => QuietKeepsIds(conn, Apply(conn, e), OpenError);
    case Replied(c, accepted) => QuietKeepsIds(conn, Apply(conn, e), ShareReply(c, accepted));
    case Left(c) =>
      if c in conn.channels {
        QuietKeepsIds(conn, Apply(conn, e), Closed(c));
      }
  }

  lemma SameIds(before: Connection, after: Connection)
    requires IdsInOrder(before) && after.nextJob == before.nextJob && after.wire == before.wire
    ensures IdsInOrder(after)
  {
  }

  /** In every run the i-th job announced on a connection has id 1 + i mod (2^32 - 1): two jobs share an id only when
      a multiple of 2^32 - 1 jobs lies between them. */
  lemma {:induction false} JobIdsGoRound(es: seq<Event>)
    ensures IdsInOrder(Run(es))
  {
    if es != [] {
      JobIdsGoRound(es[..|es| - 1]);
      ApplyKeepsIds(Run(es[..|es| - 1]), es[|es| - 1]);
    }
  }
}
