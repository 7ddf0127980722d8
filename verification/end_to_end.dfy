/** From the engine through the sessions to the blocks: what SV1 hands on and what SV2 accepts as a block is a valid
    candidate for the chain, in every run. */
module EndToEnd {
  import opened ByteStrings
  import opened Coinbase
  import opened Consensus
  import opened Jobs
  import opened PublishedJobs
  import opened Shares
  import opened Targets
  import opened Transactions
  import EngineSteps
  import JobIdCircle
  import SessionRuns
  import Sessions
  import SessionSteps
  import Sv2Channels
  import TemplateEngines

  // One block

  /** A block comes out of validating the submission against a job sent with `prefix` and `target`. */
  predicate MakesBlock(h: Hasher, job: Job, prefix: Bytes, target: Hash, submit: Submit, now: nat) {
    && Sized(|job.transactions| + 1)
    && var r := Outcome(h, job, prefix, submit, target, None, now);
       r.Some? && r.value.block.Some?
  }

  function BlockMade(h: Hasher, job: Job, prefix: Bytes, target: Hash, submit: Submit, now: nat): Bytes
    requires MakesBlock(h, job, prefix, target, submit, now)
  {
    Outcome(h, job, prefix, submit, target, None, now).value.block.value
  }

  predicate Extranonce2Fits(cfg: Config, submit: Submit) {
    submit.extranonce2.Some? && |submit.extranonce2.value| == cfg.extranonce2Size
  }

  lemma PrefixedBlockIsValid(h: Hasher, cfg: Config, req: Request, txs: seq<Tx>, job: Job, en1: Bytes, target: Hash,
                             submit: Submit, now: nat)
    returns (header: Header)
    requires MadeOf(h, cfg, req, txs, job) && |en1| == cfg.extranonce1Size && Extranonce2Fits(cfg, submit)
    requires MakesBlock(h, job, job.coinbase1 + en1, target, submit, now)
    ensures Fits(cfg, req) && Encodable(cfg, req)
    ensures ValidCandidate(h, cfg, req, txs, job, en1 + submit.extranonce2.value, header,
                           BlockMade(h, job, job.coinbase1 + en1, target, submit, now))
  {
    ShapeIsBuildable(h, cfg, req, txs, job);
    hide JobShape, Outcome, ValidCandidate, Serializable, HeaderBytes;
    header := EmittedBlockIsValid(h, cfg, req, txs, job, en1, submit, target, now);
  }

  lemma ShapeIsBuildable(h: Hasher, cfg: Config, req: Request, txs: seq<Tx>, job: Job)
    requires MadeOf(h, cfg, req, txs, job)
    ensures Fits(cfg, req) && Encodable(cfg, req)
  {
    hide Serializable;
  }

  // On the jobs a session has sent

  /** In every interleaving of an SV1 session, a block on a job handed on is a valid candidate with the session's
      extranonce, and none of the 32 pushes after that job had been clean. */
  lemma Sv1BlockIsValid(h: Hasher, cfg: Config, req: Request, txs: seq<Tx>, en1: Bytes, difficulty: real,
                        es: seq<SessionSteps.Event>, c: SessionSteps.Candidate, submit: Submit, now: nat)
    returns (header: Header)
    requires c in SessionSteps.Run(SessionSteps.Start(en1, difficulty), es).candidates
    requires MadeOf(h, cfg, req, txs, c.job.template) && |en1| == cfg.extranonce1Size && Extranonce2Fits(cfg, submit)
    requires MakesBlock(h, c.job.template, c.job.prefix, c.job.target, submit, now)
    ensures Fits(cfg, req) && Encodable(cfg, req)
    ensures ValidCandidate(h, cfg, req, txs, c.job.template, en1 + submit.extranonce2.value, header,
                           BlockMade(h, c.job.template, c.job.prefix, c.job.target, submit, now))
    ensures SessionRuns.CandidateOk(c, SessionSteps.Run(SessionSteps.Start(en1, difficulty), es).log)
  {
    CandidatePrefix(en1, difficulty, es, c);
    hide SessionSteps.Run, MadeOf, ValidCandidate, BlockMade, MakesBlock, Extranonce2Fits;
    header := PrefixedBlockIsValid(h, cfg, req, txs, c.job.template, en1, c.job.target, submit, now);
  }

  lemma CandidatePrefix(en1: Bytes, difficulty: real, es: seq<SessionSteps.Event>, c: SessionSteps.Candidate)
    requires c in SessionSteps.Run(SessionSteps.Start(en1, difficulty), es).candidates
    ensures c.job.prefix == c.job.template.coinbase1 + en1
    ensures SessionRuns.CandidateOk(c, SessionSteps.Run(SessionSteps.Start(en1, difficulty), es).log)
  {
    SessionRuns.RunKeepsRecords(en1, difficulty, es);
    var m := SessionSteps.Run(SessionSteps.Start(en1, difficulty), es);
    hide SessionSteps.Run, SessionSteps.Handshake, SessionSteps.QueueOk, SessionRuns.ParentsChangeClean;
    assert SessionRuns.CandidateOk(c, m.log);
    assert SessionRuns.MadeWell(m.log[c.job.serial].job, en1);
  }

  /** In every run of an SV2 connection, a block on a job still accepted is a valid candidate with the channel's
      prefix. */
  lemma Sv2BlockIsValid(h: Hasher, cfg: Config, req: Request, txs: seq<Tx>, es: seq<Sv2Channels.Event>, c: U32, id: U32,
                        submit: Submit, now: nat)
    returns (header: Header)
    requires Sv2Channels.GoodRun(es) && c in Sv2Channels.Run(es).channels && id in Sv2Channels.Run(es).channels[c].jobs
    requires |Sv2Channels.Run(es).channels[c].prefix| == cfg.extranonce1Size && Extranonce2Fits(cfg, submit)
    requires var job := Sv2Channels.Run(es).channels[c].jobs[id];
             MadeOf(h, cfg, req, txs, job.template) && MakesBlock(h, job.template, job.prefix, job.target, submit, now)
    ensures Fits(cfg, req) && Encodable(cfg, req)
    ensures var channel := Sv2Channels.Run(es).channels[c];
            var job := channel.jobs[id];
            ValidCandidate(h, cfg, req, txs, job.template, channel.prefix + submit.extranonce2.value, header,
                           BlockMade(h, job.template, job.prefix, job.target, submit, now))
  {
    Sv2Channels.RunsStayInStep(es);
    Sv2Channels.HeldJob(Sv2Channels.Run(es), c, id);
    var channel := Sv2Channels.Run(es).channels[c];
    var job := channel.jobs[id];
    hide Sv2Channels.Run, Sv2Channels.InStep, MadeOf, ValidCandidate, BlockMade, MakesBlock, Extranonce2Fits;
    header := PrefixedBlockIsValid(h, cfg, req, txs, job.template, channel.prefix, job.target, submit, now);
  }

  // On the jobs the engine hands out

  /** The engine offered this job, ready, after some of its actions. */
  predicate HandedOut(env: TemplateEngines.Env, actions: seq<EngineSteps.Action>, job: Job) {
    job.ready && exists n :: 0 <= n <= |actions| && OfferedAfter(env, actions[..n], job)
  }

  predicate OfferedAfter(env: TemplateEngines.Env, actions: seq<EngineSteps.Action>, job: Job) {
    EngineSteps.Valid(env, actions) && Offered(EngineSteps.After(env, actions), job)
  }

  lemma {:induction false} HandedOutJob(h: Hasher, env: TemplateEngines.Env, world: World, retarget: Chain -> U32,
                                        actions: seq<EngineSteps.Action>, job: Job)
    requires HonestNode(h, env, world, retarget, actions) && HandedOut(env, actions, job)
    ensures Minable(h, env.cfg, job) && Contextual(world, retarget, job)
  {
    var n :| 0 <= n <= |actions| && OfferedAfter(env, actions[..n], job);
    EngineSteps.InputsPrefix(TemplateEngines.GoodEvent, actions, n);
    EngineSteps.InputsPrefix(e => HonestEvent(world, retarget, e), actions, n);
    EngineSteps.InputsPrefix(e => FromAnswer(h, env.cfg, e), actions, n);
    hide EngineSteps.Inputs, EngineSteps.After, Minable, Contextual;
    OfferedJobs(h, env, world, retarget, actions[..n], job);
  }

  /** The block may extend the chain its header names: its height is the next, it carries the required bits, its hash
      meets them, and its time exceeds the median time past unless that has reached the end of 32-bit time. */
  predicate ExtendsChain(h: Hasher, world: World, retarget: Chain -> U32, req: Request, header: Header) {
    && world(header.prevHash).Some? && world(header.prevHash).value != []
    && var chain := world(header.prevHash).value;
       && req.height == |chain|
       && header.nbits == RequiredBits(retarget, chain)
       && CompactTarget(header.nbits).Some? && LeValue(h(HeaderBytes(header))) <= CompactTarget(header.nbits).value
       && (MedianTimePast(chain) < U32_MAX ==> header.time > MedianTimePast(chain))
  }

  lemma CandidateExtendsChain(h: Hasher, world: World, retarget: Chain -> U32, cfg: Config, req: Request, txs: seq<Tx>,
                              job: Job, extranonce: Bytes, header: Header, bytes: Bytes)
    requires MadeOf(h, cfg, req, txs, job) && Contextual(world, retarget, job) && Fits(cfg, req) && Encodable(cfg, req)
    requires ValidCandidate(h, cfg, req, txs, job, extranonce, header, bytes)
    ensures ExtendsChain(h, world, retarget, req, header)
  {
    hide CandidateBlock, AllSerializable, ParsesTo, HeaderBytes, CompactTarget, RequiredBits, Txids;
  }

  // Stratum V1

  /** The jobs an SV1 session's event brings in. */
  predicate BringsIn(ok: Job -> bool, e: SessionSteps.Event) {
    match e
    case CurrentJob(current) => current.ready ==> ok(current)
    case Template(template, _) => template.ready ==> ok(template)
    case _ => true
  }

  predicate Brought(ok: Job -> bool, log: seq<SessionSteps.Pushed>) {
    forall i :: 0 <= i < |log| ==> ok(log[i].job.template)
  }

  predicate SendsBrought(ok: Job -> bool, result: (Sessions.Session, Sessions.Action)) {
    result.1.Send? ==> ok(result.1.job.template)
  }

  lemma RetargetSendsBrought(ok: Job -> bool, s: Sessions.Session, log: seq<SessionSteps.Pushed>, difficulty: real)
    requires SessionSteps.QueueOk(s, log) && Brought(ok, log)
    ensures SendsBrought(ok, Sessions.RetargetSection(s, difficulty))
  {
    SessionSteps.SetDifficultyFields(s, difficulty);
    if s.jobs != [] {
      SessionRuns.NewestIsLogged(s, log);
    }
    hide SessionSteps.QueueOk, Sessions.SetDifficulty, Sessions.PushJob;
  }

  lemma ActKeepsBrought(ok: Job -> bool, m: SessionSteps.Machine, task: SessionSteps.Task,
                        result: (Sessions.Session, Sessions.Action))
    requires Brought(ok, m.log) && SendsBrought(ok, result)
    ensures Brought(ok, SessionSteps.Act(m, task, result).log)
  {
  }

  lemma StepKeepsBrought(ok: Job -> bool, m: SessionSteps.Machine, e: SessionSteps.Event)
    requires SessionSteps.QueueOk(m.session, m.log) && Brought(ok, m.log) && BringsIn(ok, e)
    ensures Brought(ok, SessionSteps.Step(m, e).log)
  {
    hide SessionSteps.QueueOk, SessionSteps.Act, Brought, Sessions.RetargetSection, Sessions.PushJob,
         Sessions.SetDifficulty;
    var s := m.session;
    match e
    case CurrentJob(current) =>
      if m.reader.Fetching? {
        ActKeepsBrought(ok, m, SessionSteps.Reader, Sessions.BootstrapSection(s, current, m.reader.difficulty));
      }
    case Template(template, token) =>
      if m.notifier.Idle? && template.ready {
        ActKeepsBrought(ok, m, SessionSteps.Notifier, Sessions.NotifySection(s, template, token));
      }
    case Tick(answer) =>
      RetargetSendsBrought(ok, s, m.log, if answer.Some? then answer.value else 0.0);
      ActKeepsBrought(ok, m, SessionSteps.Vardiff, Sessions.VardiffSection(s, answer));
    case Suggest(suggestion) =>
      RetargetSendsBrought(ok, s, m.log, suggestion);
      ActKeepsBrought(ok, m, SessionSteps.Reader, Sessions.SuggestSection(s, suggestion));
    case ShareDone(vardiffOn, controller) =>
      RetargetSendsBrought(ok, s, m.log, if controller.Some? then controller.value else 0.0);
      ActKeepsBrought(ok, m, SessionSteps.Reader, Sessions.SubmitSection(s, vardiffOn, controller));
    case _ =>
  }

  /** Over every interleaving, a session only ever sends jobs on templates brought in. */
  lemma {:induction false} Sv1JobsAreBrought(ok: Job -> bool, en1: Bytes, difficulty: real, es: seq<SessionSteps.Event>)
    requires forall i :: 0 <= i < |es| ==> BringsIn(ok, es[i])
    ensures Brought(ok, SessionSteps.Run(SessionSteps.Start(en1, difficulty), es).log)
  {
    if es != [] {
      var init := es[..|es| - 1];
      Sv1JobsAreBrought(ok, en1, difficulty, init);
      SessionRuns.RunKeepsRecords(en1, difficulty, init);
      hide SessionSteps.QueueOk, SessionSteps.Handshake, SessionRuns.Records, SessionSteps.Step, Brought, BringsIn;
      StepKeepsBrought(ok, SessionSteps.Run(SessionSteps.Start(en1, difficulty), init), es[|es| - 1]);
    }
  }

  /** End to end, Stratum V1: with an honest node, whatever the engine's tasks and the session's tasks do in whatever
      order, a block on a job handed on is a valid candidate that may extend the chain. */
  lemma Sv1BlockExtendsChain(h: Hasher, env: TemplateEngines.Env, world: World, retarget: Chain -> U32,
                             actions: seq<EngineSteps.Action>, en1: Bytes, difficulty: real,
                             es: seq<SessionSteps.Event>, c: SessionSteps.Candidate, submit: Submit, now: nat)
    returns (req: Request, txs: seq<Tx>, header: Header)
    requires HonestNode(h, env, world, retarget, actions)
    requires forall i :: 0 <= i < |es| ==> BringsIn(job => HandedOut(env, actions, job), es[i])
    requires c in SessionSteps.Run(SessionSteps.Start(en1, difficulty), es).candidates
    requires |en1| == env.cfg.extranonce1Size && Extranonce2Fits(env.cfg, submit)
    requires MakesBlock(h, c.job.template, c.job.prefix, c.job.target, submit, now)
    ensures Fits(env.cfg, req) && Encodable(env.cfg, req)
    ensures ValidCandidate(h, env.cfg, req, txs, c.job.template, en1 + submit.extranonce2.value, header,
                           BlockMade(h, c.job.template, c.job.prefix, c.job.target, submit, now))
    ensures ExtendsChain(h, world, retarget, req, header)
  {
    CandidatePrefix(en1, difficulty, es, c);
    Sv1JobsAreBrought(job => HandedOut(env, actions, job), en1, difficulty, es);
    var job := c.job.template;
    hide SessionSteps.Run, HandedOut, HonestNode, MadeOf, ValidCandidate, BlockMade, MakesBlock, Extranonce2Fits,
         ExtendsChain;
    HandedOutJob(h, env, world, retarget, actions, job);
    req, txs :| MadeOf(h, env.cfg, req, txs, job);
    header := Sv1BlockIsValid(h, env.cfg, req, txs, en1, difficulty, es, c, submit, now);
    CandidateExtendsChain(h, world, retarget, env.cfg, req, txs, job, en1 + submit.extranonce2.value, header,
                          BlockMade(h, job, c.job.prefix, c.job.target, submit, now));
  }

  // Stratum V2

  /** The jobs an SV2 connection's event brings in. */
  predicate BringsInSv2(ok: Job -> bool, e: Sv2Channels.Event) {
    match e
    case Opened(_, _, _, current, _, _) => current.ready ==> ok(current)
    case Templated(_, template, _, _, _) => ok(template)
    case _ => true
  }

  predicate AllBrought(ok: Job -> bool, channels: map<U32, Sv2Channels.Channel>) {
    forall c :: c in channels ==> ChannelBrought(ok, channels[c])
  }

  predicate ChannelBrought(ok: Job -> bool, channel: Sv2Channels.Channel) {
    forall id :: id in channel.jobs ==> ok(channel.jobs[id].template)
  }

  lemma {:induction false} PrunedBrought(ok: Job -> bool, channel: Sv2Channels.Channel, current: Option<U32>,
                                         order: seq<U32>, max: nat)
    requires ChannelBrought(ok, channel)
    ensures ChannelBrought(ok, channel.(jobs := Sv2Channels.Pruned(channel.jobs, current, order, max)))
    decreases |order|
  {
    if |channel.jobs| > max && order != [] {
      var next := if Some(order[0]) == current then channel.jobs else channel.jobs - {order[0]};
      PrunedBrought(ok, channel.(jobs := next), current, order[1..], max);
    }
  }

  lemma SendKeepsAllBrought(ok: Job -> bool, conn: Sv2Channels.Connection, c: U32, template: Job, clean: bool,
                            rolling: bool, now: int, order: seq<U32>)
    requires AllBrought(ok, conn.channels) && ok(template)
    ensures AllBrought(ok, Sv2Channels.SendJob(conn, c, template, clean, rolling, now, order).channels)
  {
    if c in conn.channels {
      var channel, id := conn.channels[c], JobIdCircle.AllocatedId(conn.nextJob);
      var job := Sv2Channels.NewJob(channel, template, clean, rolling, now);
      PrunedBrought(ok, channel.(jobs := channel.jobs[id := job]), Some(id), order, Sv2Channels.MAX_CHANNEL_JOBS);
      hide Sv2Channels.Pruned;
      assert ChannelBrought(ok, Sv2Channels.ChannelAfterSend(channel, id, job, clean, order));
      hide ChannelBrought, Sv2Channels.ChannelAfterSend;
    }
  }

  lemma RetargetKeepsAllBrought(ok: Job -> bool, conn: Sv2Channels.Connection, c: U32, difficulty: real, rolling: bool,
                                now: int, order: seq<U32>)
    requires AllBrought(ok, conn.channels)
    ensures AllBrought(ok, Sv2Channels.Retarget(conn, c, difficulty, rolling, now, order).channels)
  {
    hide Targets.ShareTargetLe;
    if c in conn.channels && ShareTargetLe(difficulty).Some? {
      var channel := conn.channels[c];
      var told := Sv2Channels.TellTarget(conn, c, difficulty, ShareTargetLe(difficulty).value);
      assert ChannelBrought(ok, channel) && ChannelBrought(ok, told.channels[c]);
      var template := Sv2Channels.CurrentTemplate(channel);
      if template.Some? {
        SendKeepsAllBrought(ok, told, c, template.value, false, rolling, now, order);
      }
      hide ChannelBrought, Sv2Channels.SendJob, Sv2Channels.WithDifficulty;
    }
  }

  lemma {:induction false} BroadcastKeepsAllBrought(ok: Job -> bool, conn: Sv2Channels.Connection, ids: seq<U32>,
                                                    template: Job, rolling: bool, now: int, orders: Sv2Channels.Orders)
    requires AllBrought(ok, conn.channels) && ok(template)
    ensures AllBrought(ok, Sv2Channels.Broadcast(conn, ids, template, rolling, now, orders).channels)
  {
    hide AllBrought, Sv2Channels.SendJob, Sv2Channels.ShouldClean;
    if ids != [] {
      var init, c := ids[..|ids| - 1], ids[|ids| - 1];
      BroadcastKeepsAllBrought(ok, conn, init, template, rolling, now, orders);
      var before := Sv2Channels.Broadcast(conn, init, template, rolling, now, orders);
      if c in before.channels {
        SendKeepsAllBrought(ok, before, c, template, Sv2Channels.ShouldClean(before.channels[c], template), rolling,
                            now, Sv2Channels.OrderFor(orders, c));
      }
    }
  }

  lemma OpenKeepsAllBrought(ok: Job -> bool, conn: Sv2Channels.Connection, prefix: Bytes, size: nat, difficulty: real,
                            current: Job, rolling: bool, now: int)
    requires AllBrought(ok, conn.channels) && (current.ready ==> ok(current))
    ensures AllBrought(ok, Sv2Channels.Open(conn, prefix, size, difficulty, current, rolling, now).channels)
  {
    hide Targets.ShareTargetLe, Sv2Channels.SendJob;
    if ShareTargetLe(difficulty).Some? {
      var empty := Sv2Channels.AddChannel(conn, prefix, size, difficulty, ShareTargetLe(difficulty).value);
      assert AllBrought(ok, empty.channels);
      if current.ready {
        SendKeepsAllBrought(ok, empty, JobIdCircle.AllocatedId(conn.nextChannel), current, true, rolling, now, []);
      }
    }
  }

  lemma ApplyKeepsAllBrought(ok: Job -> bool, conn: Sv2Channels.Connection, e: Sv2Channels.Event)
    requires AllBrought(ok, conn.channels) && BringsInSv2(ok, e)
    ensures AllBrought(ok, Sv2Channels.Apply(conn, e).channels)
  {
    hide Sv2Channels.Open, Sv2Channels.Broadcast, Sv2Channels.Retarget, ChannelBrought;
    match e
    case Opened(prefix, size, difficulty, current, rolling, now) =>
      OpenKeepsAllBrought(ok, conn, prefix, size, difficulty, current, rolling, now);
    case Templated(ids, template, rolling, now, orders) =>
      BroadcastKeepsAllBrought(ok, conn, ids, template, rolling, now, orders);
    case Retargeted(c, difficulty, rolling, now, order) =>
      RetargetKeepsAllBrought(ok, conn, c, difficulty, rolling, now, order);
    case _ =>
  }

  /** Over every run, a connection only ever holds jobs on templates brought in. */
  lemma {:induction false} Sv2JobsAreBrought(ok: Job -> bool, es: seq<Sv2Channels.Event>)
    requires forall i :: 0 <= i < |es| ==> BringsInSv2(ok, es[i])
    ensures AllBrought(ok, Sv2Channels.Run(es).channels)
  {
    if es != [] {
      hide Sv2Channels.Apply, AllBrought, BringsInSv2;
      Sv2JobsAreBrought(ok, es[..|es| - 1]);
      ApplyKeepsAllBrought(ok, Sv2Channels.Run(es[..|es| - 1]), es[|es| - 1]);
    }
  }

  /** End to end, Stratum V2: with an honest node, a block on any job a connection still accepts is a valid candidate
      that may extend the chain. */
  lemma Sv2BlockExtendsChain(h: Hasher, env: TemplateEngines.Env, world: World, retarget: Chain -> U32,
                             actions: seq<EngineSteps.Action>, es: seq<Sv2Channels.Event>, c: U32, id: U32,
                             submit: Submit, now: nat)
    returns (req: Request, txs: seq<Tx>, header: Header)
    requires HonestNode(h, env, world, retarget, actions)
    requires forall i :: 0 <= i < |es| ==> BringsInSv2(job => HandedOut(env, actions, job), es[i])
    requires Sv2Channels.GoodRun(es) && c in Sv2Channels.Run(es).channels && id in Sv2Channels.Run(es).channels[c].jobs
    requires |Sv2Channels.Run(es).channels[c].prefix| == env.cfg.extranonce1Size && Extranonce2Fits(env.cfg, submit)
    requires var job := Sv2Channels.Run(es).channels[c].jobs[id];
             MakesBlock(h, job.template, job.prefix, job.target, submit, now)
    ensures Fits(env.cfg, req) && Encodable(env.cfg, req)
    ensures var channel := Sv2Channels.Run(es).channels[c];
            var job := channel.jobs[id];
            ValidCandidate(h, env.cfg, req, txs, job.template, channel.prefix + submit.extranonce2.value, header,
                           BlockMade(h, job.template, job.prefix, job.target, submit, now))
    ensures ExtendsChain(h, world, retarget, req, header)
  {
    var channel := Sv2Channels.Run(es).channels[c];
    var job := channel.jobs[id];
    Sv2JobsAreBrought(j => HandedOut(env, actions, j), es);
    assert ChannelBrought(j => HandedOut(env, actions, j), channel);
    hide Sv2Channels.Run, HandedOut, HonestNode, MadeOf, ValidCandidate, BlockMade, MakesBlock, Extranonce2Fits,
         ExtendsChain;
    HandedOutJob(h, env, world, retarget, actions, job.template);
    req, txs :| MadeOf(h, env.cfg, req, txs, job.template);
    header := Sv2BlockIsValid(h, env.cfg, req, txs, es, c, id, submit, now);
    CandidateExtendsChain(h, world, retarget, env.cfg, req, txs, job.template,
                          channel.prefix + submit.extranonce2.value, header,
                          BlockMade(h, job.template, job.prefix, job.target, submit, now));
  }
}
