/** `TemplateEngine` under its real concurrency (src/template.rs): longpoll, refresh and fast-announcement tasks race
    over a one-permit semaphore and a pending-source slot; every lock, atomic or semaphore access is one step, in any
    order. Every interleaving has the effect of the indivisible actions of `TemplateEngines`, and no deferred refresh
    is lost. */
module EngineSteps {
  import opened ByteStrings
  import opened Consensus
  import opened Jobs
  import opened TemplateEngines

  type TaskId = nat

  /** `TemplateSource` by its slot number; 0 in the slot means nothing is pending. */
  type Source = n: nat | n <= 7
  const NOTHING: Source := 0
  const STARTUP: Source := 1
  const LONGPOLL: Source := 2
  const TIMEOUT_FALLBACK: Source := 3
  const ERROR_FALLBACK: Source := 4
  const P2P_FAST: Source := 7

  /** `refresh_template` on its own task; `longpoll_loop`; `refresh_template` called from within the longpoll loop;
      and one fast announcement. */
  datatype Kind = Refresh | Longpoll | Fallback | Announce

  datatype Pc =
    | Fetching
    | Acquiring(update: GbtUpdate)
    | Deferring
    | ReadingCurrent(update: GbtUpdate)
    | CheckingKey(update: GbtUpdate)
    | FastAcquiring(call: FastCall)
    | FastReadingTip(call: FastCall)
    | FastReadingCurrent(call: FastCall, tip: Tip)
    | FastCheckingKey(call: FastCall, tip: Tip)
    | WritingTip(newTip: Option<Tip>, job: Job, key: TemplateKey, cause: Event)
    | WritingKey(job: Job, key: TemplateKey)
    | WritingCurrent(job: Job, key: TemplateKey)
    | Sending(job: Job)
    | Releasing(ok: bool, respawn: bool)
    | Respawning
    | Swapping
    | Done

  datatype Task = Task(kind: Kind, source: Source, pc: Pc)

  /** The permit's holder, the slot, the shared fields, and the tasks. */
  datatype Global = Global(permit: Option<TaskId>, pending: Source, shared: View, tasks: map<TaskId, Task>)

  const INIT := Global(None, NOTHING, START, map[])

  /** `answer` is the RPC result met while fetching, `timeout` says how a longpoll failed, and `child` names a task to
      spawn. */
  datatype Action =
    | Spawn(id: TaskId, task: Task)
    | Step(id: TaskId, answer: Option<GbtUpdate>, timeout: bool, child: TaskId)

  predicate Startable(task: Task) {
    match task.kind
    case Refresh => task.pc == Fetching && task.source !in {NOTHING, LONGPOLL}
    case Longpoll => task.pc == Fetching && task.source == LONGPOLL
    case Fallback => false
    case Announce => task.pc.FastAcquiring?
  }

  /** Nothing but the startup refresh runs before the first job is published. */
  predicate MayStart(g: Global, task: Task) {
    Startable(task) && (g.shared.current.ready || (task.kind.Refresh? && task.source == STARTUP))
  }

  predicate Enabled(g: Global, a: Action) {
    match a
    case Spawn(id, task) => id !in g.tasks && MayStart(g, task)
    case Step(id, _, _, child) => id in g.tasks && child !in g.tasks
  }

  /** Where a task goes when `apply_gbt_response` returns: only success reaches the swap of the slot. */
  function AfterApply(task: Task, ok: bool): Task {
    match task.kind
    case Refresh => task.(pc := if ok then Swapping else Done)
    case Fallback => if ok then task.(pc := Swapping) else Task(Longpoll, LONGPOLL, Fetching)
    case Longpoll => task.(pc := Fetching)
    case Announce => task.(pc := Done)
  }

  /** The effect of one access: the new permit, slot and shared fields, the task itself afterwards, and whether a
      refresh task is spawned. */
  datatype Effect = Effect(permit: Option<TaskId>, pending: Source, shared: View, task: Task, spawns: bool)

  /** An access that touches nothing but the task's own position. */
  function Moves(g: Global, task: Task, pc: Pc): Effect {
    Effect(g.permit, g.pending, g.shared, task.(pc := pc), false)
  }

  function Becomes(g: Global, task: Task): Effect {
    Effect(g.permit, g.pending, g.shared, task, false)
  }

  function FetchAccess(g: Global, task: Task, answer: Option<GbtUpdate>, timeout: bool): Effect {
    if answer.Some? then Moves(g, task, Acquiring(answer.value))
    else
      match task.kind
      case Longpoll => Becomes(g, Task(Fallback, if timeout then TIMEOUT_FALLBACK else ERROR_FALLBACK, Fetching))
      case Fallback => Becomes(g, Task(Longpoll, LONGPOLL, Fetching))
      case _ => Moves(g, task, Done)
  }

  function SwapAccess(g: Global, task: Task): Effect {
    var next :=
      if g.pending != NOTHING then task.(source := g.pending, pc := Fetching)
      else if task.kind == Fallback then Task(Longpoll, LONGPOLL, Fetching)
      else task.(pc := Done);
    Becomes(g, next).(pending := NOTHING)
  }

  function FastTipAccess(env: Env, g: Global, task: Task, call: FastCall): Effect {
    if g.shared.tip.None? then Moves(g, task, Releasing(true, false))
    else
      var verdict := TipVerdict(env, g.shared.tip.value, call);
      if verdict == Publishes then Moves(g, task, FastReadingCurrent(call, g.shared.tip.value))
      else Moves(g, task, Releasing(true, verdict == BitsMismatch || verdict == Guarded))
  }

  function FastCurrentAccess(g: Global, task: Task, call: FastCall, tip: Tip): Effect {
    var current, next := g.shared.current, NextHeight(call.height);
    if current.ready && ((current.height == next && current.prevHash == call.block.blockHash) || current.height > next)
    then Moves(g, task, Releasing(true, false))
    else Moves(g, task, FastCheckingKey(call, tip))
  }

  function FastKeyAccess(env: Env, g: Global, task: Task, call: FastCall, tip: Tip): Effect {
    if g.shared.key == FastKeyOf(tip, call) || !CanBuildEmpty(env, NextHeight(call.height))
    then Moves(g, task, Releasing(true, false))
    else Moves(g, task,
               WritingTip(Some(FastTip(tip, call)), FastJob(env, tip, call), FastKeyOf(tip, call), Announced(call)))
  }

  function CurrentAccess(g: Global, task: Task, u: GbtUpdate): Effect {
    if g.shared.current.ready && u.height < g.shared.current.height then Moves(g, task, Releasing(true, false))
    else Moves(g, task, if u.rulesOk then CheckingKey(u) else Releasing(false, false))
  }

  function KeyAccess(g: Global, task: Task, u: GbtUpdate): Effect {
    if g.shared.key == u.key then Moves(g, task, Releasing(true, false))
    else if u.built.None? then Moves(g, task, Releasing(false, false))
    else Moves(g, task, WritingTip(TipAfter(None, u.built.value), u.built.value, u.key, Answer(u)))
  }

  function TipWritten(tip: Option<Tip>, newTip: Option<Tip>): Option<Tip> {
    if newTip.Some? then newTip else tip
  }

  /** One access by task `id`. */
  function Access(env: Env, g: Global, id: TaskId, task: Task, answer: Option<GbtUpdate>, timeout: bool): Effect {
    match task.pc
    case Fetching => FetchAccess(g, task, answer, timeout)
    case Acquiring(u) =>
      if g.permit.None? then Moves(g, task, ReadingCurrent(u)).(permit := Some(id)) else Moves(g, task, Deferring)
    case Deferring => Becomes(g, AfterApply(task, true)).(pending := task.source)
    case ReadingCurrent(u) => CurrentAccess(g, task, u)
    case CheckingKey(u) => KeyAccess(g, task, u)
    case FastAcquiring(call) =>
      if g.permit.None? then Moves(g, task, FastReadingTip(call)).(permit := Some(id)) else Moves(g, task, Done)
    case FastReadingTip(call) => FastTipAccess(env, g, task, call)
    case FastReadingCurrent(call, tip) => FastCurrentAccess(g, task, call, tip)
    case FastCheckingKey(call, tip) => FastKeyAccess(env, g, task, call, tip)
    case WritingTip(newTip, job, key, _) =>
      Moves(g, task, WritingKey(job, key)).(shared := g.shared.(tip := TipWritten(g.shared.tip, newTip)))
    case WritingKey(job, key) => Moves(g, task, WritingCurrent(job, key)).(shared := g.shared.(key := key))
    case WritingCurrent(job, key) => Moves(g, task, Sending(job)).(shared := g.shared.(current := job))
    case Sending(job) =>
      Moves(g, task, Releasing(true, false)).(shared := g.shared.(published := g.shared.published + [job]))
    case Releasing(ok, respawn) =>
      Becomes(g, if respawn then task.(pc := Respawning) else AfterApply(task, ok)).(permit := None)
    case Respawning => Moves(g, task, Done).(spawns := true)
    case Swapping => SwapAccess(g, task)
    case Done => Becomes(g, task)
  }

  const SPAWNED := Task(Refresh, P2P_FAST, Fetching)

  function EffectOf(env: Env, g: Global, a: Action): Effect
    requires a.Step? && a.id in g.tasks
  {
    Access(env, g, a.id, g.tasks[a.id], a.answer, a.timeout)
  }

  function TasksAfter(tasks: map<TaskId, Task>, id: TaskId, e: Effect, child: TaskId): map<TaskId, Task> {
    var moved := tasks[id := e.task];
    if e.spawns then moved[child := SPAWNED] else moved
  }

  function Next(env: Env, g: Global, a: Action): Global
    requires Enabled(g, a)
  {
    match a
    case Spawn(id, task) => g.(tasks := g.tasks[id := task])
    case Step(id, _, _, child) =>
      var e := EffectOf(env, g, a);
      Global(e.permit, e.pending, e.shared, TasksAfter(g.tasks, id, e, child))
  }

  /** A run: a list of actions, each enabled where it is taken. */
  predicate Valid(env: Env, actions: seq<Action>)
    decreases |actions|, 0
  {
    actions == [] ||
    (Valid(env, actions[..|actions| - 1]) && Enabled(After(env, actions[..|actions| - 1]), actions[|actions| - 1]))
  }

  function After(env: Env, actions: seq<Action>): Global
    requires Valid(env, actions)
    decreases |actions|, 1
  {
    if actions == [] then INIT else Next(env, After(env, actions[..|actions| - 1]), actions[|actions| - 1])
  }

  // Mutual exclusion and what the holder knows

  predicate Critical(pc: Pc) {
    !(pc.Fetching? || pc.Acquiring? || pc.Deferring? || pc.FastAcquiring? || pc.Respawning? || pc.Swapping? || pc.Done?)
  }

  predicate Exclusive(g: Global) {
    && (g.permit.Some? ==> g.permit.value in g.tasks)
    && forall id :: id in g.tasks ==> (Critical(g.tasks[id].pc) <==> g.permit == Some(id))
  }

  /** The holder's local values still agree with the shared fields. */
  predicate Informed(env: Env, v: View, pc: Pc) {
    match pc
    case CheckingKey(u) => !(v.current.ready && u.height < v.current.height) && u.rulesOk
    case FastReadingCurrent(call, tip) => v.tip == Some(tip) && TipVerdict(env, tip, call) == Publishes
    case FastCheckingKey(call, tip) =>
      && v.tip == Some(tip) && TipVerdict(env, tip, call) == Publishes
      && !(v.current.ready && v.current.height == NextHeight(call.height) && v.current.prevHash == call.block.blockHash)
      && !(v.current.ready && v.current.height > NextHeight(call.height))
    case WritingTip(newTip, job, key, cause) =>
      Apply(env, v, cause) == Publish(v.(tip := TipWritten(v.tip, newTip)), job, key)
    case WritingCurrent(job, key) => v.key == key
    case Sending(job) => v.current == job
    case _ => true
  }

  predicate Safe(env: Env, g: Global) {
    && Exclusive(g)
    && forall id :: id in g.tasks ==> (Critical(g.tasks[id].pc) ==> Informed(env, g.shared, g.tasks[id].pc))
  }

  /** The indivisible state: once a publication's first write is done, the whole publication counts as done. */
  function Settled(v: View, pc: Pc): View {
    match pc
    case WritingKey(job, key) => Publish(v, job, key)
    case WritingCurrent(job, key) => Publish(v, job, key)
    case Sending(job) => v.(published := v.published + [job])
    case _ => v
  }

  function Abstract(g: Global): View
    requires g.permit.Some? ==> g.permit.value in g.tasks
  {
    if g.permit.None? then g.shared else Settled(g.shared, g.tasks[g.permit.value].pc)
  }

  /** The indivisible action a step completes, if it completes one: the write of the tip is where a publication takes
      effect. */
  function Completes(g: Global, a: Action): seq<Event>
    requires Enabled(g, a)
  {
    if a.Step? && g.tasks[a.id].pc.WritingTip? then [g.tasks[a.id].pc.cause] else []
  }

  function ApplyAll(env: Env, v: View, es: seq<Event>): View
    requires |es| <= 1
  {
    if es == [] then v else Apply(env, v, es[0])
  }

  /** A task outside the critical section changes no shared field, and enters it only when the permit is free. */
  lemma OutsideAccess(env: Env, g: Global, id: TaskId, task: Task, answer: Option<GbtUpdate>, timeout: bool)
    requires !Critical(task.pc)
    ensures var e := Access(env, g, id, task, answer, timeout);
            && e.shared == g.shared
            && if Critical(e.task.pc)
               then
                 && g.permit.None? && e.permit == Some(id) && !e.spawns
                 && Informed(env, g.shared, e.task.pc) && Settled(g.shared, e.task.pc) == g.shared
               else e.permit == g.permit
  {
  }

  /** The holder keeps what it knows true, keeps the permit until it leaves, and settles at most one event. */
  lemma HolderAccess(env: Env, g: Global, id: TaskId, task: Task, answer: Option<GbtUpdate>, timeout: bool)
    requires Critical(task.pc) && g.permit == Some(id) && Informed(env, g.shared, task.pc)
    ensures var e := Access(env, g, id, task, answer, timeout);
            && !e.spawns
            && (if Critical(e.task.pc) then e.permit == Some(id) && Informed(env, e.shared, e.task.pc)
                else e.permit.None?)
            && Settled(e.shared, e.task.pc)
               == if task.pc.WritingTip? then Apply(env, g.shared, task.pc.cause) else Settled(g.shared, task.pc)
  {
    hide TipVerdict, EmptyJob, CanBuildEmpty;
  }

  lemma NextTasks(env: Env, g: Global, a: Action)
    requires Enabled(g, a) && a.Step?
    ensures var g' := Next(env, g, a); var e := EffectOf(env, g, a);
            && a.id in g'.tasks && g'.tasks[a.id] == e.task
            && (forall other :: other in g.tasks && other != a.id ==>
                  other in g'.tasks && g'.tasks[other] == g.tasks[other])
            && (forall other :: other in g'.tasks && other !in g.tasks ==> g'.tasks[other] == SPAWNED)
  {
  }

  lemma OutsideStep(env: Env, g: Global, a: Action)
    requires Safe(env, g) && Enabled(g, a) && a.Step? && !Critical(g.tasks[a.id].pc)
    ensures Safe(env, Next(env, g, a)) && Abstract(Next(env, g, a)) == Abstract(g)
  {
    OutsideAccess(env, g, a.id, g.tasks[a.id], a.answer, a.timeout);
    NextTasks(env, g, a);
  }

  lemma HolderStep(env: Env, g: Global, a: Action)
    requires Safe(env, g) && Enabled(g, a) && a.Step? && Critical(g.tasks[a.id].pc)
    ensures Safe(env, Next(env, g, a))
    ensures Abstract(Next(env, g, a)) == ApplyAll(env, Abstract(g), Completes(g, a))
  {
    HolderAccess(env, g, a.id, g.tasks[a.id], a.answer, a.timeout);
    NextTasks(env, g, a);
  }

  /** Every step of every task leaves the indivisible state alone or takes exactly one indivisible action on it. */
  lemma StepRefines(env: Env, g: Global, a: Action)
    requires Safe(env, g) && Enabled(g, a)
    ensures Safe(env, Next(env, g, a))
    ensures Abstract(Next(env, g, a)) == ApplyAll(env, Abstract(g), Completes(g, a))
  {
    if a.Step? {
      if Critical(g.tasks[a.id].pc) {
        HolderStep(env, g, a);
      } else {
        OutsideStep(env, g, a);
      }
    }
  }

  /** The indivisible actions of a run, in the order they took effect. */
  function Linearization(env: Env, actions: seq<Action>): seq<Event>
    requires Valid(env, actions)
    decreases |actions|
  {
    if actions == [] then []
    else
      var init := actions[..|actions| - 1];
      Linearization(env, init) + Completes(After(env, init), actions[|actions| - 1])
  }

  lemma RunAppend(env: Env, es: seq<Event>, more: seq<Event>)
    requires |more| <= 1
    ensures Run(env, START, es + more) == ApplyAll(env, Run(env, START, es), more)
  {
    if more == [] {
      assert es + more == es;
    } else {
      assert (es + more)[..|es|] == es;
    }
  }

  /** Every interleaving is some order of indivisible actions; when the permit is free the shared fields are their
      result. */
  lemma {:induction false} InterleavingsAreSequential(env: Env, actions: seq<Action>)
    requires Valid(env, actions)
    ensures Safe(env, After(env, actions))
    ensures Abstract(After(env, actions)) == Run(env, START, Linearization(env, actions))
    decreases |actions|
  {
    if actions != [] {
      var init, last := actions[..|actions| - 1], actions[|actions| - 1];
      InterleavingsAreSequential(env, init);
      StepRefines(env, After(env, init), last);
      RunAppend(env, Linearization(env, init), Completes(After(env, init), last));
    }
  }

  // Facts about the answers and announcements that entered the run

  /** Everything that entered the run satisfies `good`. */
  predicate Inputs(good: Event -> bool, actions: seq<Action>) {
    forall i :: 0 <= i < |actions| ==> GoodInput(good, actions[i])
  }

  lemma InputsPrefix(good: Event -> bool, actions: seq<Action>, n: nat)
    requires Inputs(good, actions) && n <= |actions|
    ensures Inputs(good, actions[..n])
  {
  }

  predicate GoodInput(good: Event -> bool, a: Action) {
    match a
    case Spawn(_, task) => task.pc.FastAcquiring? ==> good(Announced(task.pc.call))
    case Step(_, answer, _, _) => answer.Some? ==> good(Answer(answer.value))
  }

  function Carried(pc: Pc): Option<Event> {
    match pc
    case Acquiring(u) => Some(Answer(u))
    case ReadingCurrent(u) => Some(Answer(u))
    case CheckingKey(u) => Some(Answer(u))
    case FastAcquiring(call) => Some(Announced(call))
    case FastReadingTip(call) => Some(Announced(call))
    case FastReadingCurrent(call, _) => Some(Announced(call))
    case FastCheckingKey(call, _) => Some(Announced(call))
    case WritingTip(_, _, _, cause) => Some(cause)
    case _ => None
  }

  predicate CarriesGood(good: Event -> bool, g: Global) {
    forall id :: id in g.tasks ==> GoodCarrier(good, g.tasks[id])
  }

  predicate GoodCarrier(good: Event -> bool, task: Task) {
    Carried(task.pc).Some? ==> good(Carried(task.pc).value)
  }

  predicate AllGood(good: Event -> bool, es: seq<Event>) {
    forall i :: 0 <= i < |es| ==> good(es[i])
  }

  lemma CarriedAccess(env: Env, good: Event -> bool, g: Global, id: TaskId, task: Task, answer: Option<GbtUpdate>,
                      timeout: bool)
    requires GoodCarrier(good, task) && (answer.Some? ==> good(Answer(answer.value)))
    ensures GoodCarrier(good, Access(env, g, id, task, answer, timeout).task)
  {
    hide TipVerdict, EmptyJob, CanBuildEmpty;
  }

  lemma CarriedStep(env: Env, good: Event -> bool, g: Global, a: Action)
    requires CarriesGood(good, g) && Enabled(g, a) && GoodInput(good, a)
    ensures CarriesGood(good, Next(env, g, a)) && AllGood(good, Completes(g, a))
  {
    if a.Step? {
      assert GoodCarrier(good, g.tasks[a.id]);
      CarriedAccess(env, good, g, a.id, g.tasks[a.id], a.answer, a.timeout);
      NextTasks(env, g, a);
    }
  }

  /** Only what entered the run is linearised. */
  lemma {:induction false} LinearizationIsGood(env: Env, good: Event -> bool, actions: seq<Action>)
    requires Valid(env, actions) && Inputs(good, actions)
    ensures CarriesGood(good, After(env, actions)) && AllGood(good, Linearization(env, actions))
    decreases |actions|
  {
    if actions != [] {
      var init, last := actions[..|actions| - 1], actions[|actions| - 1];
      assert Inputs(good, init);
      LinearizationIsGood(env, good, init);
      assert last == actions[|actions| - 1];
      CarriedStep(env, good, After(env, init), last);
    }
  }

  lemma CoherentMeanwhile(env: Env, actions: seq<Action>)
    requires Valid(env, actions) && Inputs(GoodEvent, actions)
    ensures Safe(env, After(env, actions)) && Coherent(Abstract(After(env, actions)))
    ensures Ascending(Abstract(After(env, actions)).published)
  {
    InterleavingsAreSequential(env, actions);
    LinearizationIsGood(env, GoodEvent, actions);
    RunsAreCoherent(env, Linearization(env, actions));
    hide Coherent, Safe, Run, Ascending;
  }

  /** Under every interleaving: whenever the permit is free, the tip is the projection of the published job. */
  lemma CoherentWhenFree(env: Env, actions: seq<Action>)
    requires Valid(env, actions) && Inputs(GoodEvent, actions)
    requires After(env, actions).permit.None?
    ensures Coherent(After(env, actions).shared)
  {
    CoherentMeanwhile(env, actions);
  }

  /** What has been sent is a prefix of what the indivisible state has published: it lacks at most the job on its
      way. */
  lemma SentIsPublished(env: Env, g: Global)
    requires Safe(env, g)
    ensures g.shared.published <= Abstract(g).published
  {
  }

  /** Under every interleaving, permit free or not: the jobs sent so far never go down in height. */
  lemma SentHeightsAscend(env: Env, actions: seq<Action>)
    requires Valid(env, actions) && Inputs(GoodEvent, actions)
    ensures Ascending(After(env, actions).shared.published)
  {
    CoherentMeanwhile(env, actions);
    SentIsPublished(env, After(env, actions));
    hide Safe, Abstract, Coherent;
  }

  /** Under every interleaving of honest answers and true headers, every job ever sent obeys the contextual header
      rules. */
  lemma SentJobsAreContextual(env: Env, world: World, retarget: Chain -> U32, actions: seq<Action>)
    requires Valid(env, actions) && Inputs(GoodEvent, actions) && Inputs(e => HonestEvent(world, retarget, e), actions)
    ensures AllContextual(world, retarget, After(env, actions).shared.published)
  {
    InterleavingsAreSequential(env, actions);
    LinearizationIsGood(env, GoodEvent, actions);
    LinearizationIsGood(env, e => HonestEvent(world, retarget, e), actions);
    PublishedJobsAreContextual(env, world, retarget, Linearization(env, actions));
    SentIsPublished(env, After(env, actions));
    hide Safe, Abstract, Contextual, HonestEvent;
  }

  /** Under every interleaving: the step at which a fast announcement takes effect publishes one job, exactly one
      above the job then current. */
  lemma FastPublishRaisesByOne(env: Env, actions: seq<Action>, a: Action)
    requires Valid(env, actions) && Inputs(GoodEvent, actions) && Enabled(After(env, actions), a) && a.Step?
    requires var pc := After(env, actions).tasks[a.id].pc; pc.WritingTip? && pc.cause.Announced?
    ensures Safe(env, After(env, actions)) && Safe(env, Next(env, After(env, actions), a))
    ensures var before, after := Abstract(After(env, actions)), Abstract(Next(env, After(env, actions), a));
            && before.current.ready && after.current.height == before.current.height + 1
            && after.published == before.published + [after.current]
  {
    CoherentMeanwhile(env, actions);
    var g := After(env, actions);
    StepRefines(env, g, a);
    WriterPublishes(env, g, a.id);
  }

  lemma WriterPublishes(env: Env, g: Global, id: TaskId)
    requires Safe(env, g) && Coherent(Abstract(g)) && id in g.tasks && g.tasks[id].pc.WritingTip?
    requires g.tasks[id].pc.cause.Announced?
    ensures var before, after := Abstract(g), Apply(env, Abstract(g), g.tasks[id].pc.cause);
            && before.current.ready && after.current.height == before.current.height + 1
            && after.published == before.published + [after.current]
  {
    var pc := g.tasks[id].pc;
    assert g.permit == Some(id) && Abstract(g) == g.shared && Informed(env, g.shared, pc);
    assert |Apply(env, g.shared, pc.cause).published| == |g.shared.published| + 1;
    FastKeepsCoherence(env, g.shared, pc.cause.call);
    hide FastVerdict, Coherent, ApplyFast;
  }

  /** A fast task at its re-read of the current job goes on to the key; one at the key stops only if the job cannot be
      built. */
  predicate GuardsPass(env: Env, g: Global, task: Task) {
    && (task.pc.FastReadingCurrent? ==>
          FastCurrentAccess(g, task, task.pc.call, task.pc.tip).task.pc == FastCheckingKey(task.pc.call, task.pc.tip))
    && (task.pc.FastCheckingKey? ==>
          && g.shared.key != FastKeyOf(task.pc.tip, task.pc.call)
          && (FastKeyAccess(env, g, task, task.pc.call, task.pc.tip).task.pc.WritingTip?
              <==> CanBuildEmpty(env, NextHeight(task.pc.call.height))))
  }

  /** Under every interleaving the later guards of the fast path, on height and on key, decide nothing. */
  lemma LaterGuardsNeverDecide(env: Env, actions: seq<Action>, id: TaskId)
    requires Valid(env, actions) && Inputs(GoodEvent, actions) && id in After(env, actions).tasks
    ensures GuardsPass(env, After(env, actions), After(env, actions).tasks[id])
  {
    CoherentMeanwhile(env, actions);
    GuardsInState(env, After(env, actions), id);
    hide Safe, Coherent, GuardsPass;
  }

  lemma GuardsInState(env: Env, g: Global, id: TaskId)
    requires Safe(env, g) && Coherent(Abstract(g)) && id in g.tasks
    ensures GuardsPass(env, g, g.tasks[id])
  {
    var pc := g.tasks[id].pc;
    if pc.FastReadingCurrent? || pc.FastCheckingKey? {
      assert g.permit == Some(id) && Abstract(g) == g.shared && Informed(env, g.shared, pc);
      FastKeepsCoherence(env, g.shared, pc.call);
      hide Coherent, TipVerdict, CanBuildEmpty, ApplyFast, EmptyJob;
    }
  }

  // No lost refresh

  predicate Refresher(task: Task) { task.kind == Refresh || task.kind == Fallback }

  predicate StepsAt(env: Env, actions: seq<Action>, i: nat, id: TaskId)
    requires Valid(env, actions) && i < |actions|
  {
    actions[i].Step? && actions[i].id == id
  }

  lemma {:induction false} ValidPrefix(env: Env, actions: seq<Action>, n: nat)
    requires Valid(env, actions) && n <= |actions|
    ensures Valid(env, actions[..n])
    ensures n < |actions| ==> Enabled(After(env, actions[..n]), actions[n])
    decreases |actions|
  {
    if n == |actions| {
      assert actions[..n] == actions;
    } else {
      var init := actions[..|actions| - 1];
      assert init[..n] == actions[..n];
      if n < |init| {
        ValidPrefix(env, init, n);
      } else {
        assert actions[..n] == init;
      }
    }
  }

  /** The state before action `n`. */
  function StateAt(env: Env, actions: seq<Action>, n: nat): Global
    requires Valid(env, actions) && n <= |actions|
  {
    ValidPrefix(env, actions, n);
    After(env, actions[..n])
  }

  lemma StateStep(env: Env, actions: seq<Action>, n: nat)
    requires Valid(env, actions) && n < |actions|
    ensures Enabled(StateAt(env, actions, n), actions[n])
    ensures StateAt(env, actions, n + 1) == Next(env, StateAt(env, actions, n), actions[n])
  {
    ValidPrefix(env, actions, n);
    ValidPrefix(env, actions, n + 1);
    assert actions[..n + 1][..n] == actions[..n];
  }

  /** At action `k` a refresher takes a non-empty slot, and so goes on to fetch again. */
  predicate Collects(env: Env, actions: seq<Action>, k: nat)
    requires Valid(env, actions) && k < |actions|
  {
    var g := StateAt(env, actions, k);
    && actions[k].Step? && actions[k].id in g.tasks
    && Refresher(g.tasks[actions[k].id]) && g.tasks[actions[k].id].pc == Swapping
    && g.pending != NOTHING
  }

  /** At action `i` a refresher that found the permit busy stores its source. */
  predicate Defers(env: Env, actions: seq<Action>, i: nat)
    requires Valid(env, actions) && i < |actions|
  {
    var g := StateAt(env, actions, i);
    && actions[i].Step? && actions[i].id in g.tasks
    && Refresher(g.tasks[actions[i].id]) && g.tasks[actions[i].id].pc == Deferring
  }

  /** Sources are never zero, longpoll's own is always its own, and only refreshers reach the swap. */
  predicate Sourced(g: Global) {
    forall id :: id in g.tasks ==> SourcedTask(g.tasks[id])
  }

  predicate SourcedTask(task: Task) {
    && (task.kind != Announce ==> task.source != NOTHING)
    && (task.kind == Longpoll ==> task.source == LONGPOLL)
    && (task.pc == Swapping ==> Refresher(task))
    && (task.pc == Deferring ==> task.kind != Announce)
    && (task.kind == Announce ==> !(task.pc.Fetching? || task.pc.Acquiring?))
  }

  lemma SourcedAccess(env: Env, g: Global, id: TaskId, task: Task, answer: Option<GbtUpdate>, timeout: bool)
    requires SourcedTask(task)
    ensures SourcedTask(Access(env, g, id, task, answer, timeout).task)
  {
    hide TipVerdict, EmptyJob, CanBuildEmpty;
  }

  lemma SourcedStep(env: Env, g: Global, a: Action)
    requires Sourced(g) && Enabled(g, a)
    ensures Sourced(Next(env, g, a))
  {
    if a.Step? {
      SourcedAccess(env, g, a.id, g.tasks[a.id], a.answer, a.timeout);
      NextTasks(env, g, a);
    }
  }

  lemma {:induction false} SourcedAt(env: Env, actions: seq<Action>, n: nat)
    requires Valid(env, actions) && n <= |actions|
    ensures Sourced(StateAt(env, actions, n))
  {
    if n > 0 {
      SourcedAt(env, actions, n - 1);
      StateStep(env, actions, n - 1);
      SourcedStep(env, StateAt(env, actions, n - 1), actions[n - 1]);
    }
  }

  /** A step empties a non-empty slot only by collecting it. */
  lemma SlotStays(env: Env, actions: seq<Action>, n: nat)
    requires Valid(env, actions) && n < |actions|
    requires StateAt(env, actions, n).pending != NOTHING && !Collects(env, actions, n)
    ensures StateAt(env, actions, n + 1).pending != NOTHING
  {
    SourcedAt(env, actions, n);
    StateStep(env, actions, n);
  }

  lemma {:induction false} SlotKept(env: Env, actions: seq<Action>, i: nat, j: nat)
    requires Valid(env, actions) && i <= j <= |actions|
    requires StateAt(env, actions, i).pending != NOTHING
    requires forall k :: i <= k < j ==> !Collects(env, actions, k)
    ensures StateAt(env, actions, j).pending != NOTHING
  {
    if i < j {
      SlotKept(env, actions, i, j - 1);
      SlotStays(env, actions, j - 1);
    }
  }

  lemma {:induction false} StaysAtSwap(env: Env, actions: seq<Action>, i: nat, j: nat, id: TaskId)
    requires Valid(env, actions) && i <= j <= |actions|
    requires id in StateAt(env, actions, i).tasks && StateAt(env, actions, i).tasks[id].pc == Swapping
    requires forall k :: i <= k < j ==> !StepsAt(env, actions, k, id)
    ensures id in StateAt(env, actions, j).tasks
    ensures StateAt(env, actions, j).tasks[id] == StateAt(env, actions, i).tasks[id]
  {
    if i < j {
      StaysAtSwap(env, actions, i, j - 1, id);
      StateStep(env, actions, j - 1);
      assert !StepsAt(env, actions, j - 1, id);
      if actions[j - 1].Step? {
        NextTasks(env, StateAt(env, actions, j - 1), actions[j - 1]);
      }
    }
  }

  /** No lost refresh: from a refresher's deferral to its own next step lies the collection of a non-empty slot, by
      itself at that step or by another refresher before it; whoever collects is fetching again afterwards. */
  lemma DeferredRefreshIsCollected(env: Env, actions: seq<Action>, i: nat, j: nat) returns (k: nat)
    requires Valid(env, actions) && i < j < |actions|
    requires Defers(env, actions, i)
    requires StepsAt(env, actions, j, actions[i].id)
             && forall m :: i < m < j ==> !StepsAt(env, actions, m, actions[i].id)
    ensures i < k <= j && Collects(env, actions, k)
    ensures var g := StateAt(env, actions, k + 1); actions[k].id in g.tasks && g.tasks[actions[k].id].pc == Fetching
  {
    var id := actions[i].id;
    DeferralStores(env, actions, i);
    StaysAtSwap(env, actions, i + 1, j, id);
    SourcedAt(env, actions, j);
    hide Valid, StateAt, Defers, Sourced, SourcedTask;
    if k' :| i < k' < j && Collects(env, actions, k') {
      k := k';
    } else {
      SlotKept(env, actions, i + 1, j);
      SwapperCollects(env, actions, j);
      k := j;
    }
    CollectorFetches(env, actions, k);
  }

  lemma DeferralStores(env: Env, actions: seq<Action>, i: nat)
    requires Valid(env, actions) && i < |actions| && Defers(env, actions, i)
    ensures var g := StateAt(env, actions, i + 1);
            g.pending != NOTHING && actions[i].id in g.tasks && g.tasks[actions[i].id].pc == Swapping
  {
    SourcedAt(env, actions, i);
    StateStep(env, actions, i);
    hide Valid, StateAt;
  }

  lemma SwapperCollects(env: Env, actions: seq<Action>, j: nat)
    requires Valid(env, actions) && j < |actions| && actions[j].Step?
    requires var g := StateAt(env, actions, j);
             actions[j].id in g.tasks && g.tasks[actions[j].id].pc == Swapping && g.pending != NOTHING
    ensures Collects(env, actions, j)
  {
    SourcedAt(env, actions, j);
    hide Valid, StateAt;
    assert SourcedTask(StateAt(env, actions, j).tasks[actions[j].id]);
  }

  lemma CollectorFetches(env: Env, actions: seq<Action>, k: nat)
    requires Valid(env, actions) && k < |actions| && Collects(env, actions, k)
    ensures var g := StateAt(env, actions, k + 1); actions[k].id in g.tasks && g.tasks[actions[k].id].pc == Fetching
  {
    StateStep(env, actions, k);
    hide Valid, StateAt;
  }

  /** A non-empty slot that no refresher is still to swap can only hold longpoll's own deferral. */
  predicate SlotAttended(g: Global) {
    g.pending == NOTHING || g.pending == LONGPOLL || exists id :: id in g.tasks && g.tasks[id].pc == Swapping
  }

  lemma AttendedStep(env: Env, g: Global, a: Action)
    requires SlotAttended(g) && Sourced(g) && Enabled(g, a)
    ensures SlotAttended(Next(env, g, a))
  {
    hide TipVerdict, EmptyJob, CanBuildEmpty;
    var g' := Next(env, g, a);
    if g.pending != NOTHING && g.pending != LONGPOLL {
      var id :| id in g.tasks && g.tasks[id].pc == Swapping;
      if a.id != id {
        assert id in g'.tasks && g'.tasks[id].pc == Swapping;
      }
    }
    if a.Step? && g.tasks[a.id].pc == Deferring && g.tasks[a.id].kind != Longpoll {
      assert a.id in g'.tasks && g'.tasks[a.id].pc == Swapping;
    }
  }

  lemma {:induction false} SlotAlwaysAttended(env: Env, actions: seq<Action>, n: nat)
    requires Valid(env, actions) && n <= |actions|
    ensures SlotAttended(StateAt(env, actions, n))
  {
    if n > 0 {
      SlotAlwaysAttended(env, actions, n - 1);
      SourcedAt(env, actions, n - 1);
      StateStep(env, actions, n - 1);
      AttendedStep(env, StateAt(env, actions, n - 1), actions[n - 1]);
    }
  }

  lemma TakeAction(env: Env, actions: seq<Action>, a: Action)
    requires Valid(env, actions) && Enabled(After(env, actions), a)
    ensures Valid(env, actions + [a]) && After(env, actions + [a]) == Next(env, After(env, actions), a)
  {
    assert (actions + [a])[..|actions|] == actions;
  }

  /** A step of task 0 while it is alone. */
  lemma SoloStep(env: Env, actions: seq<Action>, g: Global, task: Task, answer: Option<GbtUpdate>)
    requires Valid(env, actions) && After(env, actions) == g && g.tasks == map[0 := task]
    requires !Access(env, g, 0, task, answer, false).spawns
    ensures var a := Step(0, answer, false, 1); var e := Access(env, g, 0, task, answer, false);
            Valid(env, actions + [a])
              && After(env, actions + [a]) == Global(e.permit, e.pending, e.shared, map[0 := e.task])
  {
    TakeAction(env, actions, Step(0, answer, false, 1));
  }

  /** Startup with an answer that gets a job: the job is published, the permit free, the slot empty, the refresher
      done. */
  lemma Started(env: Env, u: GbtUpdate) returns (actions: seq<Action>)
    requires WellBuilt(u) && Positive(u) && u.rulesOk && u.built.Some?
    ensures Valid(env, actions)
    ensures After(env, actions) == Global(None, NOTHING, ApplyGbt(START, u), map[0 := Task(Refresh, STARTUP, Done)])
  {
    var job := u.built.value;
    var task := Task(Refresh, STARTUP, Fetching);
    TakeAction(env, [], Spawn(0, task));
    actions := [] + [Spawn(0, task)];
    var g := Global(None, NOTHING, START, map[0 := task]);
    for i := 0 to 10
      invariant Valid(env, actions) && After(env, actions) == g
      invariant task == StartupTask(u, i) && g == StartupState(u, i)
    {
      StartupAccess(env, u, i);
      SoloStep(env, actions, g, task, Some(u));
      hide Valid, After, Access;
      actions := actions + [Step(0, Some(u), false, 1)];
      g, task := StartupState(u, i + 1), StartupTask(u, i + 1);
    }
  }

  /** The startup refresh after i of its ten accesses, and the state it has made. */
  function StartupTask(u: GbtUpdate, i: nat): Task
    requires u.built.Some?
  {
    var job := u.built.value;
    Task(Refresh, STARTUP,
         if i == 0 then Fetching else if i == 1 then Acquiring(u) else if i == 2 then ReadingCurrent(u)
         else if i == 3 then CheckingKey(u) else if i == 4 then WritingTip(TipAfter(None, job), job, u.key, Answer(u))
         else if i == 5 then WritingKey(job, u.key) else if i == 6 then WritingCurrent(job, u.key)
         else if i == 7 then Sending(job) else if i == 8 then Releasing(true, false) else if i == 9 then Swapping
           else Done)
  }

  function StartupState(u: GbtUpdate, i: nat): Global
    requires u.built.Some?
  {
    var job := u.built.value;
    Global(if 2 <= i <= 8 then Some(0) else None, NOTHING,
           View(if i >= 5 then TipAfter(None, job) else None, if i >= 7 then job else EMPTY_JOB,
                if i >= 6 then u.key else NoKey, if i >= 8 then [job] else []),
           map[0 := StartupTask(u, i)])
  }

  lemma StartupAccess(env: Env, u: GbtUpdate, i: nat)
    requires WellBuilt(u) && Positive(u) && u.rulesOk && u.built.Some? && i < 10
    ensures var g, e := StartupState(u, i), Access(env, StartupState(u, i), 0, StartupTask(u, i), Some(u), false);
            !e.spawns && Global(e.permit, e.pending, e.shared, map[0 := e.task]) == StartupState(u, i + 1)
  {
  }

  /** Longpoll's deferral is the exception: after any good startup, an announcement that does not link to the tip
      holds the permit while longpoll's answer arrives and then swaps nothing, so the run ends with longpoll's source
      in the slot, the permit free and no refresher left to take it. */
  lemma LongpollDeferralCanBeStranded(env: Env, first: GbtUpdate, call: FastCall, u: GbtUpdate)
    returns (actions: seq<Action>)
    requires WellBuilt(first) && Positive(first) && first.rulesOk && first.built.Some?
    requires call.block.prevHash != first.built.value.prevHash
    ensures Valid(env, actions)
    ensures var g := After(env, actions);
            g.pending == LONGPOLL && g.permit.None?
              && forall id :: id in g.tasks && Refresher(g.tasks[id]) ==> g.tasks[id].pc == Done
  {
    actions := Started(env, first);
    var refresh, announce, longpoll :=
      Task(Refresh, STARTUP, Done), Task(Announce, NOTHING, FastAcquiring(call)), Task(Longpoll, LONGPOLL, Fetching);
    var v := ApplyGbt(START, first);
    assert v.current.ready && v.tip.Some? && v.tip.value.hash != call.block.prevHash;
    hide Valid, After, ApplyGbt, TipOf, Later, Access, EffectOf, TasksAfter, Next, Enabled;
    actions := Spawned(env, actions, 1, longpoll);
    actions := Spawned(env, actions, 2, announce);
    var tasks := map[0 := refresh, 1 := longpoll, 2 := announce];
    assert After(env, actions) == Global(None, NOTHING, v, tasks);
    hide MayStart, Startable;
    actions := Overtaken(env, actions, announce, longpoll, call, u);
    assert After(env, actions) == Global(None, LONGPOLL, v, tasks[2 := announce.(pc := Done)]);
  }

  /** The announcement holds the permit around the whole of longpoll's attempt. */
  lemma Overtaken(env: Env, actions: seq<Action>, announce: Task, longpoll: Task, call: FastCall, u: GbtUpdate)
    returns (longer: seq<Action>)
    requires Valid(env, actions) && announce == Task(Announce, NOTHING, FastAcquiring(call))
    requires longpoll == Task(Longpoll, LONGPOLL, Fetching)
    requires var g := After(env, actions);
             && 1 in g.tasks && g.tasks[1] == longpoll && 2 in g.tasks && g.tasks[2] == announce && 3 !in g.tasks
             && g.permit.None? && g.shared.tip.Some? && g.shared.tip.value.hash != call.block.prevHash
    ensures Valid(env, longer)
    ensures var g := After(env, actions);
            After(env, longer) == g.(pending := LONGPOLL, tasks := g.tasks[2 := announce.(pc := Done)])
  {
    hide Valid, After, Access, EffectOf, TasksAfter, Next, Enabled;
    var g := After(env, actions);
    longer := AnnouncementEnters(env, actions, announce, call);
    longer := LongpollDefers(env, longer, longpoll, u);
    longer := AnnouncementLeaves(env, longer, announce, call);
    assert g.tasks[2 := announce.(pc := FastReadingTip(call))][2 := announce.(pc := Done)]
        == g.tasks[2 := announce.(pc := Done)];
  }

  /** Longpoll meets a busy permit: it leaves its source in the slot and fetches again. */
  lemma LongpollDefers(env: Env, actions: seq<Action>, longpoll: Task, u: GbtUpdate) returns (longer: seq<Action>)
    requires Valid(env, actions) && longpoll == Task(Longpoll, LONGPOLL, Fetching)
    requires var g := After(env, actions); 1 in g.tasks && g.tasks[1] == longpoll && 3 !in g.tasks && g.permit.Some?
    ensures Valid(env, longer) && After(env, longer) == After(env, actions).(pending := LONGPOLL)
  {
    hide Valid, After;
    var g := After(env, actions);
    var poll := Step(1, Some(u), false, 3);
    longer := Stepped(env, actions, poll);
    assert After(env, longer) == g.(tasks := g.tasks[1 := longpoll.(pc := Acquiring(u))]);
    longer := Stepped(env, longer, poll);
    assert After(env, longer) == g.(tasks := g.tasks[1 := longpoll.(pc := Deferring)]);
    longer := Stepped(env, longer, poll);
    assert g.tasks[1 := longpoll] == g.tasks;
  }

  lemma AnnouncementEnters(env: Env, actions: seq<Action>, announce: Task, call: FastCall) returns (longer: seq<Action>)
    requires Valid(env, actions) && announce == Task(Announce, NOTHING, FastAcquiring(call))
    requires var g := After(env, actions); 2 in g.tasks && g.tasks[2] == announce && 3 !in g.tasks && g.permit.None?
    ensures Valid(env, longer)
    ensures var g := After(env, actions);
            After(env, longer) == g.(permit := Some(2), tasks := g.tasks[2 := announce.(pc := FastReadingTip(call))])
  {
    hide Valid, After;
    longer := Stepped(env, actions, Step(2, None, false, 3));
  }

  /** An announcement that does not link releases the permit and ends. */
  lemma AnnouncementLeaves(env: Env, actions: seq<Action>, announce: Task, call: FastCall) returns (longer: seq<Action>)
    requires Valid(env, actions) && announce.kind == Announce
    requires var g := After(env, actions);
             && 2 in g.tasks && g.tasks[2] == announce.(pc := FastReadingTip(call)) && 3 !in g.tasks
             && g.shared.tip.Some? && g.shared.tip.value.hash != call.block.prevHash
    ensures Valid(env, longer)
    ensures var g := After(env, actions);
            After(env, longer) == g.(permit := None, tasks := g.tasks[2 := announce.(pc := Done)])
  {
    hide Valid, After;
    var g := After(env, actions);
    var fast := Step(2, None, false, 3);
    longer := Stepped(env, actions, fast);
    assert After(env, longer) == g.(tasks := g.tasks[2 := announce.(pc := Releasing(true, false))]);
    longer := Stepped(env, longer, fast);
  }

  lemma Spawned(env: Env, actions: seq<Action>, id: TaskId, task: Task) returns (longer: seq<Action>)
    requires Valid(env, actions) && id !in After(env, actions).tasks && MayStart(After(env, actions), task)
    ensures Valid(env, longer)
    ensures After(env, longer) == After(env, actions).(tasks := After(env, actions).tasks[id := task])
  {
    TakeAction(env, actions, Spawn(id, task));
    longer := actions + [Spawn(id, task)];
  }

  lemma Stepped(env: Env, actions: seq<Action>, a: Action) returns (longer: seq<Action>)
    requires Valid(env, actions) && a.Step? && Enabled(After(env, actions), a)
    ensures Valid(env, longer)
    ensures var g := After(env, actions); var e := EffectOf(env, g, a);
            After(env, longer) == Global(e.permit, e.pending, e.shared, TasksAfter(g.tasks, a.id, e, a.child))
  {
    TakeAction(env, actions, a);
    longer := actions + [a];
  }
}
