/** The reader, notify and vardiff tasks of one Stratum V1 session, interleaved lock by lock (src/stratum.rs). The
    session is authorised once. `log` records every job pushed, in order. */
module SessionSteps {
  import opened ByteStrings
  import opened JobIdCircle
  import opened Jobs
  import opened Sessions
  import opened Targets

  datatype Task = Reader | Notifier | Vardiff

  /** Between two locks a task waits for the engine's job, for its messages to leave, or works on a share of a found
      job. */
  datatype Pc = Idle | Fetching(difficulty: real) | Delivering(post: PostSend) | Holding(held: SessionJob) | Stopped

  datatype Pushed = Pushed(job: SessionJob, bootstrap: bool, clean: bool, whenComplete: bool)

  /** A block handed on for submission after so many pushes. */
  datatype Candidate = Candidate(job: SessionJob, pushes: nat)

  datatype Machine = Machine(
    session: Session,
    log: seq<Pushed>,
    reader: Pc,
    notifier: Pc,
    vardiff: Pc,
    closed: bool,
    candidates: seq<Candidate>)

  datatype Event =
    | Authorize
    | CurrentJob(current: Job)
    | Template(template: Job, token: bool)
    | Tick(answer: Option<real>)
    | Suggest(suggestion: real)
    | Lookup(id: U32)
    | BlockFound
    | ShareDone(vardiffOn: bool, controller: Option<real>)
    | Sent(task: Task)
    | Unsent(loser: Task)

  function Start(extranonce1: Bytes, difficulty: real): Machine {
    Machine(NewSession(extranonce1, difficulty), [], Idle, Idle, Idle, false, [])
  }

  function PcOf(m: Machine, task: Task): Pc {
    match task case Reader => m.reader case Notifier => m.notifier case Vardiff => m.vardiff
  }

  function WithPc(m: Machine, task: Task, pc: Pc): Machine {
    match task case Reader => m.(reader := pc) case Notifier => m.(notifier := pc) case Vardiff => m.(vardiff := pc)
  }

  function Logged(log: seq<Pushed>, action: Action, whenComplete: bool): seq<Pushed> {
    match action
    case Send(job, post) => log + [Pushed(job, post.completeBootstrap, post.cleanJobs, whenComplete)]
    case _ => log
  }

  function PcAfter(action: Action): Pc {
    match action case Send(_, post) => Delivering(post) case _ => Idle
  }

  /** A critical section's outcome, applied. */
  function Act(m: Machine, task: Task, result: (Session, Action)): Machine {
    WithPc(m.(session := result.0, log := Logged(m.log, result.1, m.session.complete)), task, PcAfter(result.1))
  }

  /** An event whose task is elsewhere changes nothing. */
  function Step(m: Machine, e: Event): Machine {
    match e
    case Authorize =>
      if m.reader.Idle? && !m.session.authorized
      then m.(session := AuthorizeSection(m.session), reader := Fetching(m.session.difficulty)) else m
    case CurrentJob(current) =>
      if m.reader.Fetching? then Act(m, Reader, BootstrapSection(m.session, current, m.reader.difficulty)) else m
    case Template(template, token) =>
      if m.notifier.Idle? && template.ready then Act(m, Notifier, NotifySection(m.session, template, token)) else m
    case Tick(answer) =>
      if m.vardiff.Idle? then Act(m, Vardiff, VardiffSection(m.session, answer)) else m
    case Suggest(suggestion) =>
      if m.reader.Idle? then Act(m, Reader, SuggestSection(m.session, suggestion)) else m
    case Lookup(id) =>
      if m.reader.Idle? && m.session.authorized && FindJob(m.session.jobs, m.session.stale, id).Some?
      then m.(reader := Holding(FindJob(m.session.jobs, m.session.stale, id).value)) else m
    case BlockFound =>
      if m.reader.Holding? && m.reader.held.serial !in m.session.stale
      then m.(candidates := m.candidates + [Candidate(m.reader.held, |m.log|)]) else m
    case ShareDone(vardiffOn, controller) =>
      if m.reader.Holding? then Act(m, Reader, SubmitSection(m.session, vardiffOn, controller)) else m
    case Sent(task) =>
      if PcOf(m, task).Delivering? then WithPc(m.(session := NoteSent(m.session, PcOf(m, task).post)), task, Idle)
        else m
    case Unsent(task) =>
      if PcOf(m, task).Delivering? then WithPc(m.(closed := true), task, if task.Reader? then Idle else Stopped) else m
  }

  function Run(start: Machine, es: seq<Event>): Machine {
    if es == [] then start else Step(Run(start, es[..|es| - 1]), es[|es| - 1])
  }

  // The bootstrap handshake

  predicate Bootstraps(pc: Pc) { pc.Delivering? && pc.post.completeBootstrap }

  predicate LogInOrder(log: seq<Pushed>) {
    forall i :: 0 <= i < |log| ==> (log[i].bootstrap <==> i == 0) && (log[i].whenComplete <==> i > 0)
  }

  /** What a task between locks knows about the handshake. */
  predicate PcOk(pc: Pc, complete: bool) {
    pc.Delivering? ==> (pc.post.completeBootstrap <==> !complete)
  }

  predicate Handshake(m: Machine) {
    var s := m.session;
    && !(s.complete && s.inflight)
    && (s.complete || s.inflight ==> s.authorized)
    && (!s.complete && !s.inflight ==> m.log == [])
    && (if s.complete then m.log != [] else |m.log| <= 1)
    && LogInOrder(m.log)
    && (m.reader.Fetching? ==> s.inflight && m.log == [] && m.reader.difficulty == s.difficulty)
    && (s.inflight && m.log == [] ==> m.reader.Fetching?)
    && (s.inflight && m.log != [] && !m.closed ==> Bootstraps(m.reader) || Bootstraps(m.notifier))
    && !(Bootstraps(m.reader) && Bootstraps(m.notifier))
    && !Bootstraps(m.vardiff)
    && !m.notifier.Fetching? && !m.vardiff.Fetching?
    && (Bootstraps(m.reader) || Bootstraps(m.notifier) ==> m.log != [])
    && PcOk(m.reader, s.complete) && PcOk(m.notifier, s.complete) && PcOk(m.vardiff, s.complete)
    && (!s.authorized ==> Quiet(m.reader) && Quiet(m.notifier) && Quiet(m.vardiff) && s.jobs == [])
  }

  predicate Quiet(pc: Pc) { !pc.Fetching? && !pc.Delivering? && !pc.Holding? }

  predicate SameFlags(a: Session, b: Session) {
    a.complete == b.complete && a.inflight == b.inflight && a.authorized == b.authorized
  }

  lemma PushKeepsFlags(s: Session, template: Job, difficulty: real)
    ensures SameFlags(s, SetDifficulty(s, difficulty)) && SameFlags(s, PushJob(s, template, difficulty))
  {
  }

  lemma RetargetKeepsFlags(s: Session, difficulty: real)
    ensures var (after, action) := RetargetSection(s, difficulty);
            SameFlags(s, after) && !action.Wait?
              && (action.Send? ==> !action.post.completeBootstrap && !action.post.cleanJobs)
  {
  }

  /** A push of any kind once the bootstrap is delivered. */
  lemma LaterPushKeepsHandshake(m: Machine, task: Task, result: (Session, Action))
    requires Handshake(m) && m.session.complete && SameFlags(m.session, result.0) && !PcOf(m, task).Fetching?
    requires result.1.Send? ==> !result.1.post.completeBootstrap
    ensures Handshake(Act(m, task, result))
  {
  }

  lemma TickKeepsHandshake(m: Machine, answer: Option<real>)
    requires Handshake(m)
    ensures Handshake(Step(m, Tick(answer)))
  {
    if m.vardiff.Idle? && m.session.complete && answer.Some? {
      RetargetKeepsFlags(m.session, answer.value);
      hide ShareTargetLe, RetargetSection;
      LaterPushKeepsHandshake(m, Vardiff, RetargetSection(m.session, answer.value));
    }
  }

  lemma SuggestKeepsHandshake(m: Machine, suggestion: real)
    requires Handshake(m)
    ensures Handshake(Step(m, Suggest(suggestion)))
  {
    if m.reader.Idle? && m.session.complete {
      RetargetKeepsFlags(m.session, suggestion);
      hide ShareTargetLe, RetargetSection;
      LaterPushKeepsHandshake(m, Reader, SuggestSection(m.session, suggestion));
    }
  }

  lemma ShareDoneKeepsHandshake(m: Machine, vardiffOn: bool, controller: Option<real>)
    requires Handshake(m)
    ensures Handshake(Step(m, ShareDone(vardiffOn, controller)))
  {
    if m.reader.Holding? && m.session.complete {
      if controller.Some? {
        RetargetKeepsFlags(m.session, controller.value);
      }
      hide ShareTargetLe, RetargetSection;
      LaterPushKeepsHandshake(m, Reader, SubmitSection(m.session, vardiffOn, controller));
    }
  }

  lemma FetchKeepsHandshake(m: Machine, current: Job)
    requires Handshake(m)
    ensures Handshake(Step(m, CurrentJob(current)))
  {
    if m.reader.Fetching? {
      PushKeepsFlags(m.session, current, m.reader.difficulty);
    }
    hide ShareTargetLe, PushJob, MadeJob;
  }

  lemma StepKeepsHandshake(m: Machine, e: Event)
    requires Handshake(m)
    ensures Handshake(Step(m, e))
  {
    match e
    case CurrentJob(current) => FetchKeepsHandshake(m, current);
    case Template(template, token) =>
      if m.notifier.Idle? && template.ready {
        NotifyKeepsHandshake(m, template, token);
      }
    case Tick(answer) => TickKeepsHandshake(m, answer);
    case Suggest(suggestion) => SuggestKeepsHandshake(m, suggestion);
    case ShareDone(vardiffOn, controller) => ShareDoneKeepsHandshake(m, vardiffOn, controller);
    case _ => QuietKeepsHandshake(m, e);
  }

  lemma QuietKeepsHandshake(m: Machine, e: Event)
    requires Handshake(m) && (e.Authorize? || e.Lookup? || e.BlockFound? || e.Sent? || e.Unsent?)
    ensures Handshake(Step(m, e))
  {
    hide FindJob;
  }

  lemma NotifyKeepsHandshake(m: Machine, template: Job, token: bool)
    requires Handshake(m) && m.notifier.Idle? && template.ready
    ensures Handshake(Act(m, Notifier, NotifySection(m.session, template, token)))
  {
    hide ShareTargetLe;
    var s := m.session;
    PushKeepsFlags(s, template, s.difficulty);
    PushKeepsFlags(MarkStale(s), template, s.difficulty);
    PushKeepsFlags(MarkStale(Claim(s)), template, s.difficulty);
  }

  lemma {:induction false} RunKeepsHandshake(extranonce1: Bytes, difficulty: real, es: seq<Event>)
    ensures Handshake(Run(Start(extranonce1, difficulty), es))
  {
    if es != [] {
      RunKeepsHandshake(extranonce1, difficulty, es[..|es| - 1]);
      StepKeepsHandshake(Run(Start(extranonce1, difficulty), es[..|es| - 1]), es[|es| - 1]);
    }
  }

  /** In every interleaving: the first job pushed is the bootstrap, it is the only one, every other push finds the
      bootstrap delivered, and the session is never complete and in flight at once. */
  lemma BootstrapOnce(extranonce1: Bytes, difficulty: real, es: seq<Event>)
    ensures var m := Run(Start(extranonce1, difficulty), es);
            && !(m.session.complete && m.session.inflight)
            && (forall i :: 0 <= i < |m.log| ==> (m.log[i].bootstrap <==> i == 0) && (m.log[i].whenComplete <==> i > 0))
            && (!m.session.complete ==> |m.log| <= 1)
  {
    RunKeepsHandshake(extranonce1, difficulty, es);
  }

  /** Whoever waits for the bootstrap waits for someone: while it is in flight the reader is fetching the job, or one
      of two tasks is delivering it, unless the connection's channel has closed. */
  lemma WaitIsAttended(extranonce1: Bytes, difficulty: real, es: seq<Event>, template: Job, token: bool)
    requires var m := Run(Start(extranonce1, difficulty), es);
             NotifySection(m.session, template, token).1.Wait? && !m.closed
    ensures var m := Run(Start(extranonce1, difficulty), es);
            m.reader.Fetching? || Bootstraps(m.reader) || Bootstraps(m.notifier)
  {
    RunKeepsHandshake(extranonce1, difficulty, es);
  }

  // The queue

  /** Where the log's last clean push is; 0 when there is none. */
  function LastClean(log: seq<Pushed>): (n: nat)
    ensures n <= |log|
  {
    if log == [] then 0
    else if log[|log| - 1].clean then |log| - 1
    else LastClean(log[..|log| - 1])
  }

  lemma {:induction false} LastCleanMeaning(log: seq<Pushed>)
    requires log != []
    ensures var n := LastClean(log);
            n < |log| && (n > 0 ==> log[n].clean) && (forall j :: n < j < |log| ==> !log[j].clean)
  {
    if !log[|log| - 1].clean && |log| > 1 {
      LastCleanMeaning(log[..|log| - 1]);
    }
  }

  function QueueStart(log: seq<Pushed>): (n: nat)
    ensures n <= |log|
  {
    if LastClean(log) + MAX_SESSION_JOBS < |log| then |log| - MAX_SESSION_JOBS else LastClean(log)
  }

  function JobsOf(log: seq<Pushed>): (jobs: seq<SessionJob>)
    ensures |jobs| == |log|
    ensures forall i :: 0 <= i < |log| ==> jobs[i] == log[i].job
  {
    seq(|log|, i requires 0 <= i < |log| => log[i].job)
  }

  /** The jobs pushed since the last clean push, that one included, the newest 32 at most. */
  function Queue(log: seq<Pushed>): seq<SessionJob> {
    JobsOf(log)[QueueStart(log)..]
  }

  /** One of the next 32 pushes was clean. */
  predicate CleanedSoon(log: seq<Pushed>, k: nat) {
    exists j :: k < j <= k + MAX_SESSION_JOBS && j < |log| && log[j].clean
  }

  predicate StaleExactly(stale: set<nat>, log: seq<Pushed>) {
    && (forall k: nat :: k < |log| ==> (k in stale <==> CleanedSoon(log, k)))
    && (forall k: nat :: k in stale ==> k < |log|)
  }

  predicate Numbered(log: seq<Pushed>) {
    forall i :: 0 <= i < |log| ==> log[i].job.serial == i && log[i].job.id == IdOnCircle(i)
  }

  predicate QueueOk(s: Session, log: seq<Pushed>) {
    && s.made == |log| && s.nextJobId == IdOnCircle(|log|)
    && s.jobs == Queue(log)
    && Numbered(log)
    && StaleExactly(s.stale, log)
  }

  lemma QueueAfterPush(log: seq<Pushed>, p: Pushed)
    ensures Queue(log + [p]) == if p.clean then [p.job] else Trimmed(Queue(log) + [p.job])
  {
    var longer := log + [p];
    assert longer[..|log|] == log;
    assert JobsOf(longer) == JobsOf(log) + [p.job];
    if log != [] {
      LastCleanMeaning(log);
    }
    assert LastClean(longer) == if p.clean then |log| else LastClean(log);
    hide LastClean;
    if p.clean {
      assert QueueStart(longer) == |log|;
      assert Queue(longer) == [p.job];
    } else {
      hide Trimmed;
      TrimmedTail(JobsOf(log), LastClean(log), p.job);
    }
  }

  /** Cutting a tail before or after appending leaves the same newest jobs. */
  lemma TrimmedTail(jobs: seq<SessionJob>, clean: nat, last: SessionJob)
    requires clean <= |jobs|
    ensures var start := if clean + MAX_SESSION_JOBS < |jobs| then |jobs| - MAX_SESSION_JOBS else clean;
            var start' := if clean + MAX_SESSION_JOBS < |jobs| + 1 then |jobs| + 1 - MAX_SESSION_JOBS else clean;
            (jobs + [last])[start'..] == Trimmed(jobs[start..] + [last])
  {
    var start := if clean + MAX_SESSION_JOBS < |jobs| then |jobs| - MAX_SESSION_JOBS else clean;
    assert jobs[start..] + [last] == (jobs + [last])[start..];
  }

  lemma StaleAfterPush(stale: set<nat>, log: seq<Pushed>, p: Pushed, queue: seq<SessionJob>)
    requires StaleExactly(stale, log) && Numbered(log) && queue == Queue(log)
    ensures StaleExactly(if p.clean then stale + Serials(queue) else stale, log + [p])
  {
    var longer := log + [p];
    forall k: nat | k < |log|
      ensures CleanedSoon(longer, k) <==> CleanedSoon(log, k) || (p.clean && |log| <= k + MAX_SESSION_JOBS)
    {
      CleanedSoonAfterPush(log, p, k);
    }
    assert !CleanedSoon(longer, |log|);
    if p.clean {
      forall k: nat | k < |log|
        ensures k in stale + Serials(queue) <==> CleanedSoon(longer, k)
      {
        SerialsOfQueue(log, queue, k);
        LastCleanMeaning(log);
        if |log| <= k + MAX_SESSION_JOBS && k < LastClean(log) {
          assert log[LastClean(log)].clean;
          assert CleanedSoon(log, k);
        }
      }
    }
  }

  lemma CleanedSoonAfterPush(log: seq<Pushed>, p: Pushed, k: nat)
    requires k < |log|
    ensures CleanedSoon(log + [p], k) <==> CleanedSoon(log, k) || (p.clean && |log| <= k + MAX_SESSION_JOBS)
  {
    var longer := log + [p];
    if CleanedSoon(log, k) {
      var j :| k < j <= k + MAX_SESSION_JOBS && j < |log| && log[j].clean;
      assert longer[j].clean;
    }
    if p.clean && |log| <= k + MAX_SESSION_JOBS {
      assert longer[|log|].clean;
    }
  }

  lemma SerialsOfQueue(log: seq<Pushed>, queue: seq<SessionJob>, k: nat)
    requires Numbered(log) && queue == Queue(log) && k < |log|
    ensures k in Serials(queue) <==> QueueStart(log) <= k
  {
    if QueueStart(log) <= k {
      assert queue[k - QueueStart(log)] == log[k].job;
    }
    if k in Serials(queue) {
      var j :| j in queue && j.serial == k;
      var i :| 0 <= i < |queue| && queue[i] == j;
      assert queue[i] == log[QueueStart(log) + i].job;
    }
  }

  lemma AppendKeepsQueue(stale: set<nat>, log: seq<Pushed>, p: Pushed, after: Session)
    requires Numbered(log) && StaleExactly(stale, log)
    requires p.job.serial == |log| && p.job.id == IdOnCircle(|log|)
    requires after.made == |log| + 1 && after.nextJobId == IdOnCircle(|log| + 1)
    requires after.jobs == if p.clean then [p.job] else Trimmed(Queue(log) + [p.job])
    requires after.stale == if p.clean then stale + Serials(Queue(log)) else stale
    ensures QueueOk(after, log + [p])
  {
    QueueAfterPush(log, p);
    StaleAfterPush(stale, log, p, Queue(log));
    hide Queue, StaleExactly, IdOnCircle, Trimmed, Serials;
    NumberedAfterPush(log, p);
    hide Numbered;
  }

  lemma PushKeepsQueue(s: Session, log: seq<Pushed>, template: Job, difficulty: real, p: Pushed)
    requires QueueOk(s, log) && p.job == MadeJob(if p.clean then MarkStale(s) else s, template, difficulty)
    ensures QueueOk(PushJob(if p.clean then MarkStale(s) else s, template, difficulty), log + [p])
  {
    var ready := if p.clean then MarkStale(s) else s;
    assert ready.made == |log| && ready.nextJobId == IdOnCircle(|log|);
    assert Numbered(log) && StaleExactly(s.stale, log);
    assert ready.jobs == if p.clean then [] else Queue(log);
    assert ready.stale == if p.clean then s.stale + Serials(Queue(log)) else s.stale;
    hide QueueOk, MarkStale, Queue, StaleExactly, Numbered, Serials;
    PushedSession(ready, template, difficulty);
    hide PushJob, ShareTargetLe, SetDifficulty;
    NextOnCircle(|log|);
    hide IdOnCircle, FollowingId;
    assert Trimmed([] + [p.job]) == [p.job];
    AppendKeepsQueue(s.stale, log, p, PushJob(ready, template, difficulty));
  }

  lemma NumberedAfterPush(log: seq<Pushed>, p: Pushed)
    requires Numbered(log) && p.job.serial == |log| && p.job.id == IdOnCircle(|log|)
    ensures Numbered(log + [p])
  {
  }

  lemma PushedSession(s: Session, template: Job, difficulty: real)
    ensures var after := PushJob(s, template, difficulty);
            && after.jobs == Trimmed(s.jobs + [MadeJob(s, template, difficulty)])
            && after.made == s.made + 1 && after.nextJobId == FollowingId(AllocatedId(s.nextJobId))
            && after.stale == s.stale && after.lastPrevHash == s.lastPrevHash && after.extranonce1 == s.extranonce1
  {
  }

  /** The queue is in order after a section's outcome. */
  predicate KeepsQueue(log: seq<Pushed>, result: (Session, Action), whenComplete: bool) {
    QueueOk(result.0, Logged(log, result.1, whenComplete))
  }

  lemma SendKeepsQueue(s: Session, log: seq<Pushed>, template: Job, difficulty: real, post: PostSend,
                       whenComplete: bool)
    requires QueueOk(s, log)
    ensures var ready := if post.cleanJobs then MarkStale(s) else s;
            KeepsQueue(log, (PushJob(ready, template, difficulty), Send(MadeJob(ready, template, difficulty), post)),
                       whenComplete)
  {
    hide QueueOk, MarkStale, PushJob, MadeJob;
    var ready := if post.cleanJobs then MarkStale(s) else s;
    PushKeepsQueue(s, log, template, difficulty,
                   Pushed(MadeJob(ready, template, difficulty), post.completeBootstrap, post.cleanJobs, whenComplete));
  }

  lemma SameQueue(a: Session, b: Session, log: seq<Pushed>)
    requires QueueOk(a, log) && b.made == a.made && b.nextJobId == a.nextJobId && b.jobs == a.jobs && b.stale == a.stale
    ensures QueueOk(b, log)
  {
  }

  lemma SetDifficultyFields(s: Session, difficulty: real)
    ensures var b := SetDifficulty(s, difficulty);
            && b.made == s.made && b.nextJobId == s.nextJobId && b.jobs == s.jobs && b.stale == s.stale
            && b.lastPrevHash == s.lastPrevHash && b.extranonce1 == s.extranonce1
  {
  }

  lemma RetargetKeepsQueue(s: Session, log: seq<Pushed>, difficulty: real, whenComplete: bool)
    requires QueueOk(s, log)
    ensures KeepsQueue(log, RetargetSection(s, difficulty), whenComplete)
  {
    var retargeted := SetDifficulty(s, difficulty);
    SetDifficultyFields(s, difficulty);
    SameQueue(s, retargeted, log);
    hide QueueOk, SetDifficulty, PushJob, MadeJob;
    if retargeted.jobs == [] {
      assert KeepsQueue(log, (retargeted, Skip), whenComplete);
    } else {
      var template := retargeted.jobs[|retargeted.jobs| - 1].template;
      SendKeepsQueue(retargeted, log, template, difficulty, PostSend(template.prevHash, false, false), whenComplete);
    }
  }

  lemma NotifyKeepsQueue(s: Session, log: seq<Pushed>, template: Job, token: bool)
    requires QueueOk(s, log)
    ensures KeepsQueue(log, NotifySection(s, template, token), s.complete)
  {
    var claimed := Claim(s);
    SameQueue(s, claimed, log);
    hide QueueOk, PushJob, MadeJob, MarkStale;
    var clean := !s.complete || ShouldCleanJobs(claimed, template);
    assert KeepsQueue(log, (s, Skip), s.complete) && KeepsQueue(log, (s, Wait), s.complete)
           && KeepsQueue(log, (claimed, Skip), s.complete);
    SendKeepsQueue(claimed, log, template, s.difficulty, PostSend(template.prevHash, clean, !s.complete), s.complete);
  }

  lemma BootstrapKeepsQueue(s: Session, log: seq<Pushed>, current: Job, difficulty: real)
    requires QueueOk(s, log) && log == []
    ensures KeepsQueue(log, BootstrapSection(s, current, difficulty), s.complete)
  {
    assert s.jobs == [] && s.stale + Serials([]) == s.stale;
    assert MarkStale(s) == s;
    var waiting := s.(inflight := false);
    SameQueue(s, waiting, log);
    hide QueueOk, PushJob, MadeJob, MarkStale;
    assert KeepsQueue(log, (s, Skip), s.complete) && KeepsQueue(log, (waiting, Skip), s.complete);
    SendKeepsQueue(s, log, current, difficulty, PostSend(current.prevHash, true, true), s.complete);
  }

  lemma StepKeepsQueue(m: Machine, e: Event)
    requires Handshake(m) && QueueOk(m.session, m.log)
    ensures QueueOk(Step(m, e).session, Step(m, e).log)
  {
    var s := m.session;
    hide QueueOk, ShareTargetLe;
    match e
    case Authorize =>
      if m.reader.Idle? && !s.authorized {
        SameQueue(s, AuthorizeSection(s), m.log);
      }
    case CurrentJob(current) =>
      if m.reader.Fetching? {
        BootstrapKeepsQueue(s, m.log, current, m.reader.difficulty);
      }
    case Template(template, token) => NotifyKeepsQueue(s, m.log, template, token);
    case Tick(answer) =>
      if answer.Some? {
        RetargetKeepsQueue(s, m.log, answer.value, s.complete);
      }
    case Suggest(suggestion) =>
      SetDifficultyFields(s, suggestion);
      SameQueue(s, SetDifficulty(s, suggestion), m.log);
      RetargetKeepsQueue(s, m.log, suggestion, s.complete);
    case ShareDone(vardiffOn, controller) =>
      if controller.Some? {
        RetargetKeepsQueue(s, m.log, controller.value, s.complete);
      }
    case Sent(task) =>
      if PcOf(m, task).Delivering? {
        SameQueue(s, NoteSent(s, PcOf(m, task).post), m.log);
      }
    case _ =>
  }
}
