/** Every job the engine hands out, in every interleaving: it is built over transactions of the node's, and it obeys the
    contextual header rules (src/template.rs). */
module PublishedJobs {
  import opened ByteStrings
  import opened Coinbase
  import opened Consensus
  import opened Jobs
  import opened Shares
  import opened TemplateEngines
  import opened Transactions
  import EngineSteps

  /** The job's blocks are well formed, over these transactions. */
  ghost predicate MadeOf(h: Hasher, cfg: Config, req: Request, txs: seq<Tx>, job: Job) {
    AllSerializable(txs) && Sized(|txs| + 2) && JobShape(h, cfg, req, Txids(h, txs), TxData(txs), job)
  }

  ghost predicate Minable(h: Hasher, cfg: Config, job: Job) {
    exists req, txs :: MadeOf(h, cfg, req, txs, job)
  }

  /** What `UpdateFrom` ensures of the job it makes of an answer that describes its transactions. */
  ghost predicate BuiltFrom(h: Hasher, cfg: Config, gbt: Gbt, txs: seq<Tx>, job: Job) {
    && TxidsKnown(gbt) && Describes(h, gbt, txs)
    && JobShape(h, cfg, GbtRequest(gbt), GbtTxids(gbt), GbtData(gbt), job)
  }

  ghost predicate FromAnswer(h: Hasher, cfg: Config, e: Event) {
    e.Answer? && e.update.built.Some? ==> exists gbt, txs :: BuiltFrom(h, cfg, gbt, txs, e.update.built.value)
  }

  lemma AnswerIsMinable(h: Hasher, cfg: Config, e: Event)
    requires FromAnswer(h, cfg, e) && e.Answer? && e.update.built.Some?
    ensures Minable(h, cfg, e.update.built.value)
  {
    hide JobShape, Describes, TxidsKnown;
    var gbt, txs :| BuiltFrom(h, cfg, gbt, txs, e.update.built.value);
    DescribedShape(h, cfg, gbt, txs, e.update.built.value);
    assert MadeOf(h, cfg, GbtRequest(gbt), txs, e.update.built.value);
  }

  /** A fast job is built over no transactions at all. */
  lemma FastJobIsMinable(h: Hasher, env: Env, tip: Tip, call: FastCall)
    requires CanBuildEmpty(env, NextHeight(call.height))
    ensures Minable(h, env.cfg, FastJob(env, tip, call))
  {
    var next := NextHeight(call.height);
    EmptyJobShape(h, env.cfg, tip, call.block.blockHash, next, EstimatedMtp(tip, call), call.now, FastKeyOf(tip, call));
    hide JobShape, EmptyJob, CanBuildEmpty, FastRequest;
    assert Txids(h, []) == [] && TxData([]) == [];
    assert MadeOf(h, env.cfg, FastRequest(next), [], FastJob(env, tip, call));
  }

  ghost predicate AllMinable(h: Hasher, cfg: Config, jobs: seq<Job>) {
    forall i :: 0 <= i < |jobs| ==> Minable(h, cfg, jobs[i])
  }

  lemma ApplyKeepsMinable(h: Hasher, env: Env, v: View, e: Event)
    requires AllMinable(h, env.cfg, v.published) && FromAnswer(h, env.cfg, e)
    ensures AllMinable(h, env.cfg, Apply(env, v, e).published)
  {
    hide Minable, FromAnswer, EmptyJob, TipVerdict, CanBuildEmpty;
    match e
    case Answer(u) =>
      if GbtPublishes(v, u) {
        AnswerIsMinable(h, env.cfg, e);
      }
    case Announced(call) =>
      if FastVerdict(env, v, call) == Publishes {
        FastJobIsMinable(h, env, v.tip.value, call);
      }
  }

  /** Over every run of answers that describe their transactions, every published job's blocks are well formed. */
  lemma {:induction false} PublishedJobsAreMinable(h: Hasher, env: Env, es: seq<Event>)
    requires forall i :: 0 <= i < |es| ==> FromAnswer(h, env.cfg, es[i])
    ensures AllMinable(h, env.cfg, Run(env, START, es).published)
  {
    hide FromAnswer, AllMinable;
    if es == [] {
      NothingPublished(h, env.cfg);
    } else {
      PublishedJobsAreMinable(h, env, es[..|es| - 1]);
      ApplyKeepsMinable(h, env, Run(env, START, es[..|es| - 1]), es[|es| - 1]);
    }
  }

  lemma NothingPublished(h: Hasher, cfg: Config)
    ensures AllMinable(h, cfg, [])
  {
  }

  // What sessions are handed

  /** A session takes a job from the watch channel, or reads the current one. */
  predicate Offered(g: EngineSteps.Global, job: Job) { job in g.shared.published || job == g.shared.current }

  /** The job that can be read is published, counting a publication as done from its first write on. */
  predicate CurrentIsPublished(g: EngineSteps.Global)
    requires g.permit.Some? ==> g.permit.value in g.tasks
  {
    g.shared.current.ready ==> g.shared.current in EngineSteps.Abstract(g).published
  }

  lemma AccessCurrent(env: Env, g: EngineSteps.Global, a: EngineSteps.Action)
    requires a.Step? && a.id in g.tasks
    ensures var pc := g.tasks[a.id].pc;
            EngineSteps.EffectOf(env, g, a).shared.current == if pc.WritingCurrent? then pc.job else g.shared.current
  {
    hide TipVerdict, EmptyJob, CanBuildEmpty;
  }

  lemma ApplyExtends(env: Env, v: View, e: Event)
    ensures v.published <= Apply(env, v, e).published
  {
    hide FastVerdict, EmptyJob, GbtPublishes;
  }

  lemma StepKeepsCurrent(env: Env, g: EngineSteps.Global, a: EngineSteps.Action)
    requires EngineSteps.Safe(env, g) && EngineSteps.Enabled(g, a) && CurrentIsPublished(g)
    ensures EngineSteps.Safe(env, EngineSteps.Next(env, g, a)) && CurrentIsPublished(EngineSteps.Next(env, g, a))
  {
    EngineSteps.StepRefines(env, g, a);
    if a.Step? {
      AccessCurrent(env, g, a);
      if g.tasks[a.id].pc.WritingTip? {
        ApplyExtends(env, EngineSteps.Abstract(g), g.tasks[a.id].pc.cause);
      } else if g.tasks[a.id].pc.WritingCurrent? {
        WriterIsPublished(env, g, a.id);
      }
      hide EngineSteps.EffectOf, EngineSteps.Abstract, EngineSteps.Safe, Apply;
    }
  }

  lemma WriterIsPublished(env: Env, g: EngineSteps.Global, id: EngineSteps.TaskId)
    requires EngineSteps.Safe(env, g) && id in g.tasks && g.tasks[id].pc.WritingCurrent?
    ensures g.tasks[id].pc.job in EngineSteps.Abstract(g).published
  {
    assert g.permit == Some(id);
    var published := g.shared.published + [g.tasks[id].pc.job];
    assert published[|g.shared.published|] == g.tasks[id].pc.job;
  }

  lemma {:induction false} CurrentStaysPublished(env: Env, actions: seq<EngineSteps.Action>)
    requires EngineSteps.Valid(env, actions)
    ensures EngineSteps.Safe(env, EngineSteps.After(env, actions))
    ensures CurrentIsPublished(EngineSteps.After(env, actions))
    decreases |actions|
  {
    if actions != [] {
      var init := actions[..|actions| - 1];
      CurrentStaysPublished(env, init);
      StepKeepsCurrent(env, EngineSteps.After(env, init), actions[|actions| - 1]);
    }
  }

  /** The node answers honestly, what its answers list are transactions, and announced headers are true. */
  ghost predicate HonestNode(h: Hasher, env: Env, world: World, retarget: Chain -> U32,
                             actions: seq<EngineSteps.Action>) {
    && EngineSteps.Valid(env, actions) && EngineSteps.Inputs(GoodEvent, actions)
    && EngineSteps.Inputs(e => HonestEvent(world, retarget, e), actions)
    && EngineSteps.Inputs(e => FromAnswer(h, env.cfg, e), actions)
  }

  /** Under every interleaving: whatever a session takes, once it is ready, its blocks are well formed, and it obeys the
      contextual header rules. */
  lemma OfferedJobs(h: Hasher, env: Env, world: World, retarget: Chain -> U32, actions: seq<EngineSteps.Action>,
                    job: Job)
    requires HonestNode(h, env, world, retarget, actions) && Offered(EngineSteps.After(env, actions), job) && job.ready
    ensures Minable(h, env.cfg, job) && Contextual(world, retarget, job)
  {
    EngineSteps.InterleavingsAreSequential(env, actions);
    CurrentStaysPublished(env, actions);
    EngineSteps.SentIsPublished(env, EngineSteps.After(env, actions));
    EngineSteps.LinearizationIsGood(env, GoodEvent, actions);
    EngineSteps.LinearizationIsGood(env, e => HonestEvent(world, retarget, e), actions);
    EngineSteps.LinearizationIsGood(env, e => FromAnswer(h, env.cfg, e), actions);
    var es := EngineSteps.Linearization(env, actions);
    PublishedJobsAreContextual(env, world, retarget, es);
    PublishedJobsAreMinable(h, env, es);
    hide Minable, Contextual, HonestEvent, FromAnswer, Run, EngineSteps.Safe, EngineSteps.Abstract,
         EngineSteps.Linearization;
    assert job in Run(env, START, es).published;
  }
}
