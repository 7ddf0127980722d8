/** What holds of a Stratum V1 session's queue, shares and candidate blocks in every interleaving (src/stratum.rs). */
module SessionRuns {
  import opened ByteStrings
  import opened JobIdCircle
  import opened Jobs
  import opened Reals
  import opened Sessions
  import opened SessionSteps
  import opened Targets

  // Jobs as they are made

  /** A job hashes the session's extranonce and, when its difficulty has a target, checks exactly that target. */
  predicate MadeWell(job: SessionJob, extranonce1: Bytes) {
    && job.prefix == job.template.coinbase1 + extranonce1
    && (ShareTargetLe(job.difficulty).Some? ==> job.target == ShareTargetLe(job.difficulty).value)
  }

  lemma MadeJobIsMadeWell(s: Session, template: Job, difficulty: real)
    ensures MadeWell(MadeJob(s, template, difficulty), s.extranonce1)
  {
    hide ShareTargetLe;
  }

  // Parents

  function Parent(p: Pushed): Hash { p.job.template.prevHash }

  /** Once replaced, a parent does not come back. */
  predicate NoReturn(log: seq<Pushed>) {
    forall i, j, k :: 0 <= i < j < k < |log| && Parent(log[i]) == Parent(log[k]) ==> Parent(log[j]) == Parent(log[i])
  }

  predicate Seen(log: seq<Pushed>, parent: Hash) { exists i :: 0 <= i < |log| && Parent(log[i]) == parent }

  /** While no parent returns, only a clean push changes the parent. */
  predicate ParentsChangeClean(log: seq<Pushed>) {
    NoReturn(log) ==> forall i :: 0 < i < |log| ==> KeepsParent(log, i)
  }

  predicate KeepsParent(log: seq<Pushed>, i: nat)
    requires 0 < i < |log|
  {
    !log[i].clean ==> Parent(log[i]) == Parent(log[i - 1])
  }

  predicate LastSeen(s: Session, log: seq<Pushed>) {
    s.lastPrevHash.Some? ==> Seen(log, s.lastPrevHash.value)
  }

  predicate PcSeen(pc: Pc, log: seq<Pushed>) {
    && (pc.Delivering? ==> Seen(log, pc.post.prevHash))
    && (pc.Holding? ==> pc.held.serial < |log| && log[pc.held.serial].job == pc.held)
  }

  /** A candidate was handed on at a moment when none of the 32 pushes after its job had been clean. */
  predicate CandidateOk(c: Candidate, log: seq<Pushed>) {
    && c.pushes <= |log| && c.job.serial < c.pushes && log[c.job.serial].job == c.job
    && !CleanedSoon(log[..c.pushes], c.job.serial)
  }

  predicate LogOk(log: seq<Pushed>, extranonce1: Bytes) {
    (forall i :: 0 <= i < |log| ==> MadeWell(log[i].job, extranonce1)) && ParentsChangeClean(log)
  }

  predicate CandidatesOk(candidates: seq<Candidate>, log: seq<Pushed>) {
    forall c :: c in candidates ==> CandidateOk(c, log)
  }

  predicate Records(m: Machine, extranonce1: Bytes) {
    && m.session.extranonce1 == extranonce1
    && LogOk(m.log, extranonce1) && LastSeen(m.session, m.log)
    && PcSeen(m.reader, m.log) && PcSeen(m.notifier, m.log) && PcSeen(m.vardiff, m.log)
    && CandidatesOk(m.candidates, m.log)
  }

  /** What a section may do to these records: it sends a well-made job on the parent it notes, and a job that does not
      clean is on the newest job's parent or on the last one noted. */
  predicate GoodSection(s: Session, result: (Session, Action)) {
    && result.0.extranonce1 == s.extranonce1 && result.0.lastPrevHash == s.lastPrevHash
    && match result.1
       case Send(job, post) =>
         && MadeWell(job, s.extranonce1) && post.prevHash == job.template.prevHash
         && (post.cleanJobs
             || s.lastPrevHash == Some(post.prevHash)
             || (s.jobs != [] && s.jobs[|s.jobs| - 1].template.prevHash == post.prevHash))
       case _ => true
  }

  lemma SectionsAreGood(s: Session, template: Job, difficulty: real, token: bool)
    ensures GoodSection(s, (s, Skip))
    ensures GoodSection(s, BootstrapSection(s, template, difficulty))
    ensures GoodSection(s, NotifySection(s, template, token))
    ensures GoodSection(s, RetargetSection(s, difficulty))
    ensures GoodSection(s, SuggestSection(s, difficulty))
  {
    var claimed, retargeted := Claim(s), SetDifficulty(s, difficulty);
    SetDifficultyFields(s, difficulty);
    MadeJobIsMadeWell(s, template, difficulty);
    MadeJobIsMadeWell(claimed, template, s.difficulty);
    MadeJobIsMadeWell(MarkStale(claimed), template, s.difficulty);
    PushedSession(s, template, difficulty);
    PushedSession(claimed, template, s.difficulty);
    PushedSession(MarkStale(claimed), template, s.difficulty);
    if retargeted.jobs != [] {
      var latest := retargeted.jobs[|retargeted.jobs| - 1].template;
      MadeJobIsMadeWell(retargeted, latest, difficulty);
      PushedSession(retargeted, latest, difficulty);
    }
    hide MadeWell, PushJob, MadeJob, SetDifficulty;
  }

  lemma SeenLonger(log: seq<Pushed>, p: Pushed, parent: Hash)
    requires Seen(log, parent) || Parent(p) == parent
    ensures Seen(log + [p], parent)
  {
    if Seen(log, parent) {
      var i :| 0 <= i < |log| && Parent(log[i]) == parent;
      assert Parent((log + [p])[i]) == parent;
    } else {
      assert Parent((log + [p])[|log|]) == parent;
    }
  }

  lemma ParentsLonger(log: seq<Pushed>, p: Pushed)
    requires ParentsChangeClean(log) && (p.clean || Seen(log, Parent(p)))
    ensures ParentsChangeClean(log + [p])
  {
    var longer := log + [p];
    if NoReturn(longer) {
      forall i, j, k | 0 <= i < j < k < |log| && Parent(log[i]) == Parent(log[k])
        ensures Parent(log[j]) == Parent(log[i])
      {
        assert longer[i] == log[i] && longer[j] == log[j] && longer[k] == log[k];
      }
      assert NoReturn(log);
      if !p.clean {
        var i :| 0 <= i < |log| && Parent(log[i]) == Parent(p);
        assert Parent(longer[i]) == Parent(longer[|log|]);
        assert Parent(longer[|log| - 1]) == Parent(longer[i]);
      }
      forall i | 0 < i < |longer|
        ensures KeepsParent(longer, i)
      {
        if i < |log| {
          assert KeepsParent(log, i);
        }
      }
    }
  }

  lemma CandidatesLonger(candidates: seq<Candidate>, log: seq<Pushed>, p: Pushed)
    requires CandidatesOk(candidates, log)
    ensures CandidatesOk(candidates, log + [p])
  {
    forall c | c in candidates
      ensures CandidateOk(c, log + [p])
    {
      assert CandidateOk(c, log);
      assert (log + [p])[..c.pushes] == log[..c.pushes];
    }
  }

  lemma NewestIsLogged(s: Session, log: seq<Pushed>)
    requires QueueOk(s, log) && s.jobs != []
    ensures log != [] && s.jobs[|s.jobs| - 1] == log[|log| - 1].job
  {
  }

  lemma LogLonger(log: seq<Pushed>, p: Pushed, extranonce1: Bytes)
    requires LogOk(log, extranonce1) && MadeWell(p.job, extranonce1) && (p.clean || Seen(log, Parent(p)))
    ensures LogOk(log + [p], extranonce1)
  {
    ParentsLonger(log, p);
    hide ParentsChangeClean, MadeWell;
  }

  lemma ParentIsSeen(s: Session, log: seq<Pushed>, job: SessionJob, post: PostSend)
    requires QueueOk(s, log) && LastSeen(s, log) && GoodSection(s, (s, Send(job, post))) && !post.cleanJobs
    ensures Seen(log, post.prevHash)
  {
    if s.lastPrevHash != Some(post.prevHash) {
      NewestIsLogged(s, log);
      assert Parent(log[|log| - 1]) == post.prevHash;
    }
  }

  lemma PushKeepsRecords(m: Machine, p: Pushed, extranonce1: Bytes)
    requires Records(m, extranonce1) && MadeWell(p.job, extranonce1) && (p.clean || Seen(m.log, Parent(p)))
    ensures Records(m.(log := m.log + [p]), extranonce1) && Seen(m.log + [p], Parent(p))
  {
    LogLonger(m.log, p, extranonce1);
    CandidatesLonger(m.candidates, m.log, p);
    SeenLonger(m.log, p, Parent(p));
    if m.session.lastPrevHash.Some? {
      SeenLonger(m.log, p, m.session.lastPrevHash.value);
    }
    PcLonger(m.reader, m.log, p);
    PcLonger(m.notifier, m.log, p);
    PcLonger(m.vardiff, m.log, p);
    hide LogOk, CandidatesOk, Seen, MadeWell, PcSeen;
  }

  lemma ActKeepsRecords(m: Machine, task: Task, result: (Session, Action), extranonce1: Bytes)
    requires Records(m, extranonce1) && QueueOk(m.session, m.log) && GoodSection(m.session, result)
    ensures Records(Act(m, task, result), extranonce1)
  {
    hide LogOk, CandidatesOk, Seen, MadeWell;
    if result.1.Send? {
      var job, post := result.1.job, result.1.post;
      if !post.cleanJobs {
        ParentIsSeen(m.session, m.log, job, post);
      }
      PushKeepsRecords(m, Pushed(job, post.completeBootstrap, post.cleanJobs, m.session.complete), extranonce1);
    }
    hide QueueOk;
  }

  lemma PcLonger(pc: Pc, log: seq<Pushed>, p: Pushed)
    requires PcSeen(pc, log)
    ensures PcSeen(pc, log + [p])
  {
    if pc.Delivering? {
      SeenLonger(log, p, pc.post.prevHash);
    }
  }

  lemma FoundIsLogged(s: Session, log: seq<Pushed>, id: U32)
    requires QueueOk(s, log) && FindJob(s.jobs, s.stale, id).Some?
    ensures var found := FindJob(s.jobs, s.stale, id).value; found.serial < |log| && log[found.serial].job == found
  {
    FoundIsQueued(s.jobs, s.stale, id);
    var found := FindJob(s.jobs, s.stale, id).value;
    var i :| 0 <= i < |s.jobs| && s.jobs[i] == found;
    assert found == log[QueueStart(log) + i].job;
  }

  lemma BlockKeepsRecords(m: Machine, extranonce1: Bytes)
    requires QueueOk(m.session, m.log) && Records(m, extranonce1)
    ensures Records(Step(m, BlockFound), extranonce1)
  {
    if m.reader.Holding? && m.reader.held.serial !in m.session.stale {
      var c := Candidate(m.reader.held, |m.log|);
      assert m.log[..|m.log|] == m.log;
      assert CandidateOk(c, m.log);
      assert CandidatesOk(m.candidates + [c], m.log);
    }
    hide LogOk, CandidatesOk, QueueOk, LastSeen;
  }

  lemma StepKeepsRecords(m: Machine, e: Event, extranonce1: Bytes)
    requires QueueOk(m.session, m.log) && Records(m, extranonce1)
    ensures Records(Step(m, e), extranonce1)
  {
    hide QueueOk, LogOk, CandidatesOk, Seen, GoodSection;
    var s := m.session;
    match e
    case Authorize =>
    case CurrentJob(current) =>
      if m.reader.Fetching? {
        SectionsAreGood(s, current, m.reader.difficulty, false);
        ActKeepsRecords(m, Reader, BootstrapSection(s, current, m.reader.difficulty), extranonce1);
      }
    case Template(template, token) =>
      SectionsAreGood(s, template, 0.0, token);
      ActKeepsRecords(m, Notifier, NotifySection(s, template, token), extranonce1);
    case Tick(answer) =>
      SectionsAreGood(s, EMPTY_JOB, if answer.Some? then answer.value else 0.0, false);
      ActKeepsRecords(m, Vardiff, VardiffSection(s, answer), extranonce1);
    case Suggest(suggestion) =>
      SectionsAreGood(s, EMPTY_JOB, suggestion, false);
      ActKeepsRecords(m, Reader, SuggestSection(s, suggestion), extranonce1);
    case ShareDone(vardiffOn, controller) =>
      SectionsAreGood(s, EMPTY_JOB, if controller.Some? then controller.value else 0.0, false);
      ActKeepsRecords(m, Reader, SubmitSection(s, vardiffOn, controller), extranonce1);
    case Lookup(id) =>
      if FindJob(s.jobs, s.stale, id).Some? {
        FoundIsLogged(s, m.log, id);
      }
    case BlockFound => BlockKeepsRecords(m, extranonce1);
    case Sent(_) =>
    case Unsent(_) =>
  }

  lemma {:induction false} FoundIsQueued(jobs: seq<SessionJob>, stale: set<nat>, id: U32)
    ensures var found := FindJob(jobs, stale, id);
            && (found.Some? ==> found.value in jobs && found.value.id == id && found.value.serial !in stale)
            && (found.None? ==> forall j :: j in jobs && j.serial !in stale ==> j.id != id)
  {
    if jobs != [] {
      FoundIsQueued(jobs[..|jobs| - 1], stale, id);
      assert jobs == jobs[..|jobs| - 1] + [jobs[|jobs| - 1]];
    }
  }

  // In every interleaving

  lemma EmptyLogIsOk(extranonce1: Bytes)
    ensures Queue([]) == [] && StaleExactly({}, []) && Numbered([]) && LogInOrder([]) && LogOk([], extranonce1)
  {
    hide MadeWell;
  }

  lemma StartIsOk(extranonce1: Bytes, difficulty: real)
    ensures var m := Start(extranonce1, difficulty);
            Handshake(m) && QueueOk(m.session, m.log) && Records(m, extranonce1)
  {
    EmptyLogIsOk(extranonce1);
    hide Queue, StaleExactly, Numbered, LogInOrder, LogOk, InitialTarget, Seen;
  }

  lemma {:induction false} RunKeepsRecords(extranonce1: Bytes, difficulty: real, es: seq<Event>)
    ensures var m := Run(Start(extranonce1, difficulty), es);
            Handshake(m) && QueueOk(m.session, m.log) && Records(m, extranonce1)
  {
    hide Handshake, QueueOk, Records, Step, Start;
    if es == [] {
      StartIsOk(extranonce1, difficulty);
    } else {
      RunKeepsRecords(extranonce1, difficulty, es[..|es| - 1]);
      var before := Run(Start(extranonce1, difficulty), es[..|es| - 1]);
      StepKeepsHandshake(before, es[|es| - 1]);
      StepKeepsQueue(before, es[|es| - 1]);
      StepKeepsRecords(before, es[|es| - 1], extranonce1);
    }
  }

  /** The queue holds exactly the jobs pushed since the last clean push, the newest 32 at most, in order, each with its
      extranonce and the target of its difficulty. */
  lemma QueueIsRecent(extranonce1: Bytes, difficulty: real, es: seq<Event>)
    ensures var m := Run(Start(extranonce1, difficulty), es);
            && m.session.jobs == JobsOf(m.log)[QueueStart(m.log)..]
            && |m.session.jobs| <= MAX_SESSION_JOBS
            && forall j :: j in m.session.jobs ==> MadeWell(j, extranonce1)
  {
    RunKeepsRecords(extranonce1, difficulty, es);
    var m := Run(Start(extranonce1, difficulty), es);
    forall j | j in m.session.jobs
      ensures MadeWell(j, extranonce1)
    {
      var i :| 0 <= i < |m.session.jobs| && m.session.jobs[i] == j;
      assert j == m.log[QueueStart(m.log) + i].job;
    }
  }

  /** Ids go round 1, 2, ..., 2^32 - 1, so no two queued jobs share one, and a submission for a queued id finds that
      very job. */
  lemma QueuedIdsAreDistinct(extranonce1: Bytes, difficulty: real, es: seq<Event>, i: nat, j: nat)
    requires var m := Run(Start(extranonce1, difficulty), es); i < |m.session.jobs| && j < |m.session.jobs|
    ensures var m := Run(Start(extranonce1, difficulty), es);
            && (m.session.jobs[i].id == m.session.jobs[j].id ==> i == j)
            && FindJob(m.session.jobs, m.session.stale, m.session.jobs[i].id) == Some(m.session.jobs[i])
  {
    RunKeepsRecords(extranonce1, difficulty, es);
    var m := Run(Start(extranonce1, difficulty), es);
    var s, n := m.session, QueueStart(m.log);
    QueueDistinct(s, m.log, i, j);
    FoundIsQueued(s.jobs, s.stale, s.jobs[i].id);
    QueuedIsFresh(m, i);
    var found := FindJob(s.jobs, s.stale, s.jobs[i].id);
    assert found.Some? by {
      assert s.jobs[i] in s.jobs;
    }
    var k :| 0 <= k < |s.jobs| && s.jobs[k] == found.value;
    QueueDistinct(s, m.log, k, i);
  }

  lemma QueueDistinct(s: Session, log: seq<Pushed>, i: nat, j: nat)
    requires QueueOk(s, log) && i < |s.jobs| && j < |s.jobs|
    ensures s.jobs[i].id == s.jobs[j].id ==> i == j
  {
    hide IdOnCircle, StaleExactly, LastClean;
    var n := QueueStart(log);
    assert s.jobs[i].id == IdOnCircle(n + i) && s.jobs[j].id == IdOnCircle(n + j);
    assert |s.jobs| <= MAX_SESSION_JOBS;
    hide QueueOk;
    NearIdsDiffer(n + i, n + j);
  }

  lemma NearIdsDiffer(m: nat, n: nat)
    requires -32 <= m - n <= 32
    ensures IdOnCircle(m) == IdOnCircle(n) ==> m == n
  {
    hide IdOnCircle;
    if m <= n {
      SameIdOnCircle(m, n);
    } else {
      SameIdOnCircle(n, m);
    }
  }

  lemma QueuedIsFresh(m: Machine, i: nat)
    requires QueueOk(m.session, m.log) && i < |m.session.jobs|
    ensures m.session.jobs[i].serial !in m.session.stale
  {
    var k := QueueStart(m.log) + i;
    LastCleanMeaning(m.log);
    assert m.session.jobs[i] == m.log[k].job;
    assert !CleanedSoon(m.log, k);
  }

  // One parent in the queue

  predicate OnOneParent(jobs: seq<SessionJob>) {
    forall i :: 0 <= i < |jobs| ==> jobs[i].template.prevHash == jobs[|jobs| - 1].template.prevHash
  }

  function NewestParent(jobs: seq<SessionJob>): Hash
    requires jobs != []
  {
    jobs[|jobs| - 1].template.prevHash
  }

  /** The notify task is about to push, without cleaning, a template that is not on the newest queued job's parent. */
  predicate Mixes(m: Machine, e: Event) {
    && e.Template? && e.template.ready && m.notifier.Idle?
    && m.session.authorized && m.session.complete
    && !ShouldCleanJobs(m.session, e.template) && e.token
    && m.session.jobs != [] && e.template.prevHash != NewestParent(m.session.jobs)
  }

  lemma TrimmedOnOneParent(jobs: seq<SessionJob>, job: SessionJob)
    requires OnOneParent(jobs) && |jobs| <= MAX_SESSION_JOBS
    ensures OnOneParent(Trimmed(jobs + [job])) <==> jobs == [] || job.template.prevHash == NewestParent(jobs)
  {
    var longer := Trimmed(jobs + [job]);
    if jobs != [] {
      assert longer[|longer| - 2] == jobs[|jobs| - 1];
    }
  }

  lemma NotifyMixesExactly(m: Machine, template: Job, token: bool)
    requires Handshake(m) && OnOneParent(m.session.jobs) && |m.session.jobs| <= MAX_SESSION_JOBS
    requires m.notifier.Idle? && template.ready && (m.session.complete || m.session.jobs == [])
    ensures OnOneParent(NotifySection(m.session, template, token).0.jobs) <==> !Mixes(m, Template(template, token))
  {
    var claimed := Claim(m.session);
    var ready := if !m.session.complete || ShouldCleanJobs(claimed, template) then MarkStale(claimed) else claimed;
    PushedSession(ready, template, m.session.difficulty);
    TrimmedOnOneParent(ready.jobs, MadeJob(ready, template, m.session.difficulty));
    hide PushJob, Trimmed, OnOneParent, ShareTargetLe;
    assert OnOneParent([]) by { EmptyOnOneParent(); }
  }

  lemma EmptyOnOneParent()
    ensures OnOneParent([])
  {
  }

  lemma RetargetOnOneParent(s: Session, difficulty: real)
    requires OnOneParent(s.jobs) && |s.jobs| <= MAX_SESSION_JOBS
    ensures OnOneParent(RetargetSection(s, difficulty).0.jobs) && OnOneParent(SetDifficulty(s, difficulty).jobs)
  {
    var retargeted := SetDifficulty(s, difficulty);
    SetDifficultyFields(s, difficulty);
    if retargeted.jobs != [] {
      var template := retargeted.jobs[|retargeted.jobs| - 1].template;
      PushedSession(retargeted, template, difficulty);
      TrimmedOnOneParent(retargeted.jobs, MadeJob(retargeted, template, difficulty));
    }
    hide PushJob, Trimmed, OnOneParent, ShareTargetLe, SetDifficulty;
  }

  lemma BootstrapOnOneParent(s: Session, current: Job, difficulty: real)
    requires s.jobs == []
    ensures OnOneParent(BootstrapSection(s, current, difficulty).0.jobs)
  {
    PushedSession(s, current, difficulty);
  }

  lemma QueueBound(s: Session, log: seq<Pushed>)
    requires QueueOk(s, log)
    ensures |s.jobs| <= MAX_SESSION_JOBS && (log == [] ==> s.jobs == [])
  {
  }

  lemma UnsentTemplate(m: Machine, template: Job, token: bool)
    requires Handshake(m) && !m.session.complete && m.session.jobs != [] && m.log != []
    ensures NotifySection(m.session, template, token).0 == m.session
  {
  }

  lemma TemplateMixesExactly(m: Machine, template: Job, token: bool)
    requires Handshake(m) && QueueOk(m.session, m.log) && OnOneParent(m.session.jobs)
    ensures OnOneParent(Step(m, Template(template, token)).session.jobs) <==> !Mixes(m, Template(template, token))
  {
    QueueBound(m.session, m.log);
    hide QueueOk, OnOneParent, LogInOrder, NotifySection;
    if m.notifier.Idle? && template.ready {
      if m.session.complete || m.session.jobs == [] {
        NotifyMixesExactly(m, template, token);
      } else {
        UnsentTemplate(m, template, token);
      }
    }
  }

  lemma AuthorizedOnOneParent(s: Session)
    ensures OnOneParent(AuthorizeSection(s).jobs)
  {
  }

  lemma SuggestOnOneParent(s: Session, suggestion: real)
    requires OnOneParent(s.jobs) && |s.jobs| <= MAX_SESSION_JOBS
    ensures OnOneParent(SuggestSection(s, suggestion).0.jobs)
  {
    RetargetOnOneParent(s, suggestion);
    hide OnOneParent, RetargetSection, SetDifficulty;
  }

  /** From a queue on one parent, whatever task steps next: the queue leaves its one parent exactly when the notify
      task pushes such a template. No other section can. */
  lemma StepMixesExactly(m: Machine, e: Event)
    requires Handshake(m) && QueueOk(m.session, m.log) && OnOneParent(m.session.jobs)
    ensures OnOneParent(Step(m, e).session.jobs) <==> !Mixes(m, e)
  {
    if e.Template? {
      TemplateMixesExactly(m, e.template, e.token);
    } else {
      OthersKeepOneParent(m, e);
    }
    hide Step, OnOneParent, Handshake, QueueOk;
  }

  lemma TickOnOneParent(m: Machine, answer: Option<real>)
    requires OnOneParent(m.session.jobs) && |m.session.jobs| <= MAX_SESSION_JOBS
    ensures OnOneParent(Step(m, Tick(answer)).session.jobs)
  {
    if answer.Some? {
      RetargetOnOneParent(m.session, answer.value);
    }
    ActSession(m, Vardiff, VardiffSection(m.session, answer));
    hide OnOneParent, Act, RetargetSection;
  }

  lemma SuggestStepOnOneParent(m: Machine, suggestion: real)
    requires OnOneParent(m.session.jobs) && |m.session.jobs| <= MAX_SESSION_JOBS
    ensures OnOneParent(Step(m, Suggest(suggestion)).session.jobs)
  {
    SuggestOnOneParent(m.session, suggestion);
    ActSession(m, Reader, SuggestSection(m.session, suggestion));
    hide OnOneParent, Act, SuggestSection;
  }

  lemma ShareDoneOnOneParent(m: Machine, vardiffOn: bool, controller: Option<real>)
    requires OnOneParent(m.session.jobs) && |m.session.jobs| <= MAX_SESSION_JOBS
    ensures OnOneParent(Step(m, ShareDone(vardiffOn, controller)).session.jobs)
  {
    if controller.Some? {
      RetargetOnOneParent(m.session, controller.value);
    }
    ActSession(m, Reader, SubmitSection(m.session, vardiffOn, controller));
    hide OnOneParent, Act, RetargetSection;
  }

  lemma FetchOnOneParent(m: Machine, current: Job)
    requires OnOneParent(m.session.jobs) && (m.reader.Fetching? ==> m.session.jobs == [])
    ensures OnOneParent(Step(m, CurrentJob(current)).session.jobs)
  {
    if m.reader.Fetching? {
      BootstrapOnOneParent(m.session, current, m.reader.difficulty);
      ActSession(m, Reader, BootstrapSection(m.session, current, m.reader.difficulty));
    }
    hide OnOneParent, Act, BootstrapSection;
  }

  lemma QuietOnOneParent(m: Machine, e: Event)
    requires OnOneParent(m.session.jobs) && (e.Authorize? || e.Lookup? || e.BlockFound? || e.Sent? || e.Unsent?)
    ensures OnOneParent(Step(m, e).session.jobs)
  {
    AuthorizedOnOneParent(m.session);
    hide OnOneParent, FindJob;
  }

  lemma OthersKeepOneParent(m: Machine, e: Event)
    requires Handshake(m) && QueueOk(m.session, m.log) && OnOneParent(m.session.jobs) && !e.Template?
    ensures OnOneParent(Step(m, e).session.jobs)
  {
    QueueBound(m.session, m.log);
    assert m.reader.Fetching? ==> m.session.jobs == [];
    hide QueueOk, OnOneParent, Handshake, Step;
    match e
    case CurrentJob(current) => FetchOnOneParent(m, current);
    case Tick(answer) => TickOnOneParent(m, answer);
    case Suggest(suggestion) => SuggestStepOnOneParent(m, suggestion);
    case ShareDone(vardiffOn, controller) => ShareDoneOnOneParent(m, vardiffOn, controller);
    case _ => QuietOnOneParent(m, e);
  }

  lemma ActSession(m: Machine, task: Task, result: (Session, Action))
    ensures Act(m, task, result).session == result.0
  {
  }

  /** After the first k events of a run the queue is on one parent. */
  predicate OneParentAt(start: Machine, es: seq<Event>, k: nat)
    requires k <= |es|
  {
    OnOneParent(Run(start, es[..k]).session.jobs)
  }

  /** Event k of a run mixes. */
  predicate MixesAt(start: Machine, es: seq<Event>, k: nat)
    requires k < |es|
  {
    Mixes(Run(start, es[..k]), es[k])
  }

  lemma OneMoreStep(extranonce1: Bytes, difficulty: real, es: seq<Event>, k: nat)
    requires k < |es| && OneParentAt(Start(extranonce1, difficulty), es, k)
    ensures OneParentAt(Start(extranonce1, difficulty), es, k + 1) <==> !MixesAt(Start(extranonce1, difficulty), es, k)
  {
    var start := Start(extranonce1, difficulty);
    assert es[..k + 1] == es[..k] + [es[k]];
    RunAppend(start, es[..k], es[k]);
    RunKeepsRecords(extranonce1, difficulty, es[..k]);
    hide Run, OnOneParent, Mixes, Start, Handshake, QueueOk, Step, Records;
    StepMixesExactly(Run(start, es[..k]), es[k]);
  }

  lemma {:induction false} UnmixedRun(extranonce1: Bytes, difficulty: real, es: seq<Event>, k: nat)
    requires k <= |es| && forall i :: 0 <= i < k ==> !MixesAt(Start(extranonce1, difficulty), es, i)
    ensures OneParentAt(Start(extranonce1, difficulty), es, k)
  {
    if k > 0 {
      hide OneParentAt, MixesAt, Start;
      UnmixedRun(extranonce1, difficulty, es, k - 1);
      OneMoreStep(extranonce1, difficulty, es, k - 1);
    } else {
      EmptyOnOneParent();
      hide OnOneParent, InitialTarget;
    }
  }

  /** In every interleaving: the queue is on one parent at every moment exactly when no step mixes. What a step needs
      to mix is a guard read under the notify task's own lock. */
  lemma OneParentExactly(extranonce1: Bytes, difficulty: real, es: seq<Event>)
    ensures var start := Start(extranonce1, difficulty);
            (forall k :: 0 <= k <= |es| ==> OneParentAt(start, es, k))
              <==> (forall k :: 0 <= k < |es| ==> !MixesAt(start, es, k))
  {
    var start := Start(extranonce1, difficulty);
    hide OneParentAt, MixesAt, Start;
    if forall k :: 0 <= k <= |es| ==> OneParentAt(start, es, k) {
      forall k | 0 <= k < |es|
        ensures !MixesAt(start, es, k)
      {
        OneMoreStep(extranonce1, difficulty, es, k);
      }
    }
    if forall k :: 0 <= k < |es| ==> !MixesAt(start, es, k) {
      forall k | 0 <= k <= |es|
        ensures OneParentAt(start, es, k)
      {
        UnmixedRun(extranonce1, difficulty, es, k);
      }
    }
  }

  /** Some ready template could mix exactly when the last parent noted is not the newest queued job's. */
  lemma MixableExactly(m: Machine)
    requires m.notifier.Idle? && m.session.authorized && m.session.complete && m.session.jobs != []
    ensures (exists template: Job, token: bool :: Mixes(m, Template(template, token)))
            <==> m.session.lastPrevHash.Some? && m.session.lastPrevHash.value != NewestParent(m.session.jobs)
  {
    if m.session.lastPrevHash.Some? && m.session.lastPrevHash.value != NewestParent(m.session.jobs) {
      assert Mixes(m, Template(EMPTY_JOB.(ready := true, prevHash := m.session.lastPrevHash.value), true));
    }
  }

  /** A condition on the templates alone that suffices: while parents do not return, all queued jobs are on one
      parent. */
  lemma OneParent(extranonce1: Bytes, difficulty: real, es: seq<Event>, i: nat, j: nat)
    requires var m := Run(Start(extranonce1, difficulty), es);
             NoReturn(m.log) && i < |m.session.jobs| && j < |m.session.jobs|
    ensures var m := Run(Start(extranonce1, difficulty), es);
            m.session.jobs[i].template.prevHash == m.session.jobs[j].template.prevHash
  {
    RunKeepsRecords(extranonce1, difficulty, es);
    hide Run, QueueOk, Handshake, NoReturn, ParentsChangeClean;
    var m := Run(Start(extranonce1, difficulty), es);
    ParentInQueue(m.session, m.log, i);
    ParentInQueue(m.session, m.log, j);
  }

  lemma ParentInQueue(s: Session, log: seq<Pushed>, i: nat)
    requires QueueOk(s, log) && ParentsChangeClean(log) && NoReturn(log) && i < |s.jobs|
    ensures log != [] && s.jobs[i].template.prevHash == Parent(log[|log| - 1])
  {
    var k := QueueStart(log) + i;
    assert s.jobs[i] == log[k].job && LastClean(log) <= k;
    SinceClean(log, k);
  }

  lemma {:induction false} SinceClean(log: seq<Pushed>, k: nat)
    requires NoReturn(log) && ParentsChangeClean(log) && LastClean(log) <= k < |log|
    ensures Parent(log[k]) == Parent(log[|log| - 1])
    decreases |log| - k
  {
    if k < |log| - 1 {
      LastCleanMeaning(log);
      SinceClean(log, k + 1);
      assert KeepsParent(log, k + 1);
    }
  }

  /** A found block is handed on exactly when none of the 32 pushes after its job has been clean. */
  lemma CandidateExactly(extranonce1: Bytes, difficulty: real, es: seq<Event>)
    requires Run(Start(extranonce1, difficulty), es).reader.Holding?
    ensures var m := Run(Start(extranonce1, difficulty), es);
            var k := m.reader.held.serial;
            && k < |m.log| && m.log[k].job == m.reader.held
            && Step(m, BlockFound).candidates
               == if exists j :: k < j <= k + 32 && j < |m.log| && m.log[j].clean then m.candidates
                  else m.candidates + [Candidate(m.reader.held, |m.log|)]
  {
    RunKeepsRecords(extranonce1, difficulty, es);
    var m := Run(Start(extranonce1, difficulty), es);
    assert CleanedSoon(m.log, m.reader.held.serial) <==>
      exists j :: m.reader.held.serial < j <= m.reader.held.serial + 32 && j < |m.log| && m.log[j].clean;
  }

  // Runs that show what the conditions are about

  /** The extranonce1 of an accepted configuration. */
  predicate AcceptedExtranonce(extranonce1: Bytes) { 1 <= |extranonce1| <= 4 }

  lemma RunAppend(start: Machine, es: seq<Event>, e: Event)
    ensures Run(start, es + [e]) == Step(Run(start, es), e)
  {
    assert (es + [e])[..|es|] == es;
  }

  lemma AuthorizeStep(extranonce1: Bytes, difficulty: real)
    ensures var m := Step(Start(extranonce1, difficulty), Authorize);
            && m.reader == Fetching(difficulty) && m.session.authorized && m.session.inflight && !m.session.complete
            && m.session.jobs == [] && m.session.made == 0 && m.session.nextJobId == 1
            && m.session.difficulty == difficulty
            && m.session.stale == {} && m.log == [] && m.candidates == [] && m.notifier.Idle? && m.vardiff.Idle?
  {
    hide InitialTarget;
  }

  lemma FirstJobStep(m: Machine, template: Job, difficulty: real)
    requires m.reader == Fetching(difficulty) && m.session.authorized && m.session.inflight && !m.session.complete
    requires m.session.jobs == [] && m.session.made == 0 && m.session.nextJobId == 1
    requires m.session.difficulty == difficulty
    requires m.session.stale == {} && m.log == [] && template.ready
    ensures var sent := Step(Step(m, CurrentJob(template)), Sent(Reader));
            && sent.session.authorized && sent.session.complete && sent.session.lastPrevHash == Some(template.prevHash)
            && sent.reader.Idle? && sent.notifier == m.notifier && sent.vardiff == m.vardiff
            && sent.candidates == m.candidates
            && |sent.log| == 1 && sent.session.jobs == [sent.log[0].job] && sent.session.stale == {}
            && sent.log[0].job.template == template && sent.log[0].job.id == 1 && sent.log[0].job.serial == 0
            && sent.session.difficulty == difficulty
  {
    FirstJob(m.session, template, difficulty);
    hide PushJob, MadeJob;
    var fetched := Step(m, CurrentJob(template));
    assert fetched.reader == Delivering(PostSend(template.prevHash, true, true));
  }

  /** A session after its bootstrap with `template`. */
  function Bootstrapped(template: Job): seq<Event> { [Authorize, CurrentJob(template), Sent(Reader)] }

  lemma BootstrappedSession(extranonce1: Bytes, difficulty: real, template: Job)
    requires template.ready
    ensures var m := Run(Start(extranonce1, difficulty), Bootstrapped(template));
            && m.session.authorized && m.session.complete && m.reader.Idle? && m.notifier.Idle? && m.vardiff.Idle?
            && m.session.lastPrevHash == Some(template.prevHash)
            && |m.log| == 1 && m.session.jobs == [m.log[0].job] && m.candidates == []
            && m.log[0].job.template == template && m.log[0].job.id == 1 && m.log[0].job.serial == 0
            && m.session.stale == {} && m.session.difficulty == difficulty
  {
    var m0 := Start(extranonce1, difficulty);
    assert Run(m0, []) == m0;
    RunAppend(m0, [], Authorize);
    assert [] + [Authorize] == [Authorize];
    RunAppend(m0, [Authorize], CurrentJob(template));
    assert [Authorize] + [CurrentJob(template)] == [Authorize, CurrentJob(template)];
    RunAppend(m0, [Authorize, CurrentJob(template)], Sent(Reader));
    assert [Authorize, CurrentJob(template)] + [Sent(Reader)] == Bootstrapped(template);
    hide Run, Step, Start;
    AuthorizeStep(extranonce1, difficulty);
    FirstJobStep(Step(m0, Authorize), template, difficulty);
  }

  lemma FirstJob(s: Session, template: Job, difficulty: real)
    requires s.made == 0 && s.nextJobId == 1 && s.jobs == [] && s.difficulty == difficulty
    ensures var after, job := PushJob(s, template, difficulty), MadeJob(s, template, difficulty);
            && after.jobs == [job] && job.serial == 0 && job.id == 1 && job.template == template
            && SameFlags(s, after) && after.stale == s.stale && after.difficulty == difficulty
  {
    hide ShareTargetLe;
  }

  /** A settled session: nothing in flight but what the tasks named are doing. */
  predicate Settled(m: Machine) {
    m.session.authorized && m.session.complete && m.session.jobs != []
  }

  lemma SuggestStep(m: Machine, suggestion: real)
    requires Settled(m) && m.reader.Idle? && Abs(suggestion - m.session.difficulty) > F64_EPSILON
    ensures var template := m.session.jobs[|m.session.jobs| - 1].template;
            var after := Step(m, Suggest(suggestion));
            && Settled(after) && after.session.jobs[|after.session.jobs| - 1].template == template
            && after.session.lastPrevHash == m.session.lastPrevHash
            && after.notifier == m.notifier && after.vardiff == m.vardiff && after.candidates == m.candidates
            && |after.log| == |m.log| + 1
            && after.reader == Delivering(PostSend(template.prevHash, false, false))
  {
    var retargeted := SetDifficulty(m.session, suggestion);
    SetDifficultyFields(m.session, suggestion);
    RetargetKeepsFlags(m.session, suggestion);
    hide SetDifficulty, ShareTargetLe;
    var template := retargeted.jobs[|retargeted.jobs| - 1].template;
    PushedSession(retargeted, template, suggestion);
    hide PushJob;
    assert SuggestSection(m.session, suggestion) == RetargetSection(m.session, suggestion);
  }

  lemma TemplateStep(m: Machine, template: Job)
    requires Settled(m) && m.notifier.Idle? && template.ready && template.submitOld
    ensures var clean := m.session.lastPrevHash != Some(template.prevHash);
            var after := Step(m, Template(template, true));
            && Settled(after)
            && (exists p: Pushed ::
                  && after.log == m.log + [p] && p.clean == clean && p.job.template == template
                  && after.session.jobs == Trimmed((if clean then [] else m.session.jobs) + [p.job]))
            && after.session.lastPrevHash == m.session.lastPrevHash && after.candidates == m.candidates
            && after.reader == m.reader && after.vardiff == m.vardiff
            && after.notifier == Delivering(PostSend(template.prevHash, clean, false))
  {
    var clean := ShouldCleanJobs(m.session, template);
    var ready := if clean then MarkStale(m.session) else m.session;
    PushKeepsFlags(ready, template, m.session.difficulty);
    PushedSession(ready, template, m.session.difficulty);
    hide PushJob;
    var p := Pushed(MadeJob(ready, template, m.session.difficulty), false, clean, true);
    assert Step(m, Template(template, true)).log == m.log + [p];
  }

  lemma SentStep(m: Machine, task: Task)
    requires Settled(m) && PcOf(m, task).Delivering? && !PcOf(m, task).post.completeBootstrap
    ensures Settled(Step(m, Sent(task)))
    ensures Step(m, Sent(task))
            == WithPc(m.(session := m.session.(lastPrevHash := Some(PcOf(m, task).post.prevHash))), task, Idle)
  {
  }

  lemma RunFour(start: Machine, es: seq<Event>, a: Event, b: Event, c: Event, d: Event)
    ensures Run(start, es + [a] + [b] + [c] + [d]) == Step(Step(Step(Step(Run(start, es), a), b), c), d)
  {
    RunAppend(start, es, a);
    RunAppend(start, es + [a], b);
    RunAppend(start, es + [a] + [b], c);
    RunAppend(start, es + [a] + [b] + [c], d);
    hide Run, Step;
  }

  /** A miner's suggestion is noted after the notify task's template on another parent. */
  function LateNoteRun(first: Job, second: Job, suggestion: real): seq<Event> {
    Bootstrapped(first) + [Suggest(suggestion)] + [Template(second, true)] + [Sent(Notifier)] + [Sent(Reader)]
  }

  lemma LateNote(m: Machine, second: Job, suggestion: real)
    requires Settled(m) && m.reader.Idle? && m.notifier.Idle? && Abs(suggestion - m.session.difficulty) > F64_EPSILON
    requires second.ready && second.submitOld && |m.log| == 1
    requires |m.session.jobs| == 1 && m.session.lastPrevHash == Some(m.session.jobs[0].template.prevHash)
    requires m.session.jobs[0].template.prevHash != second.prevHash
    ensures var after :=
              Step(Step(Step(Step(m, Suggest(suggestion)), Template(second, true)), Sent(Notifier)), Sent(Reader));
            && Settled(after) && after.notifier.Idle? && after.reader.Idle? && after.candidates == m.candidates
            && after.session.lastPrevHash == m.session.lastPrevHash
            && |after.session.jobs| == 1 && after.session.jobs[0].template == second
            && |after.log| == 3 && after.log[2].job == after.session.jobs[0]
  {
    hide Step;
    SuggestStep(m, suggestion);
    var m1 := Step(m, Suggest(suggestion));
    TemplateStep(m1, second);
    var m2 := Step(m1, Template(second, true));
    SentStep(m2, Notifier);
    SentStep(Step(m2, Sent(Notifier)), Reader);
  }

  lemma LateNoteState(extranonce1: Bytes, difficulty: real, first: Job, second: Job, suggestion: real)
    requires first.ready && second.ready && second.submitOld && first.prevHash != second.prevHash
    requires Abs(suggestion - difficulty) > F64_EPSILON
    ensures var m := Run(Start(extranonce1, difficulty), LateNoteRun(first, second, suggestion));
            && Settled(m) && m.notifier.Idle? && m.reader.Idle? && m.candidates == []
            && m.session.lastPrevHash == Some(first.prevHash)
            && |m.session.jobs| == 1 && m.session.jobs[0].template == second
            && |m.log| == 3 && m.log[2].job == m.session.jobs[0]
  {
    BootstrappedSession(extranonce1, difficulty, first);
    RunFour(Start(extranonce1, difficulty), Bootstrapped(first), Suggest(suggestion), Template(second, true),
            Sent(Notifier), Sent(Reader));
    hide Run, Step, Start, Bootstrapped;
    LateNote(Run(Start(extranonce1, difficulty), Bootstrapped(first)), second, suggestion);
  }

  /** Whatever the session and the templates: after a late note that leaves the old parent noted, a template on that
      parent joins the queue without cleaning it. */
  lemma LateNoteMixesParents(extranonce1: Bytes, difficulty: real, first: Job, second: Job, third: Job,
                             suggestion: real)
    requires AcceptedExtranonce(extranonce1) && Abs(suggestion - difficulty) > F64_EPSILON
    requires first.ready && second.ready && third.ready && second.submitOld && third.submitOld
    requires first.prevHash == third.prevHash != second.prevHash
    ensures var start, es, e :=
              Start(extranonce1, difficulty), LateNoteRun(first, second, suggestion), Template(third, true);
            var jobs := Run(start, es + [e]).session.jobs;
            && Mixes(Run(start, es), e)
            && |jobs| == 2 && jobs[0].template == second && jobs[1].template == third
  {
    var start, es := Start(extranonce1, difficulty), LateNoteRun(first, second, suggestion);
    LateNoteState(extranonce1, difficulty, first, second, suggestion);
    RunAppend(start, es, Template(third, true));
    hide Run, Step, Start, LateNoteRun;
    TemplateStep(Run(start, es), third);
  }

  // Found blocks on a parent that is still current

  /** Push j replaced the queue although its parent did not change. */
  predicate NeedlessClean(log: seq<Pushed>, j: nat)
    requires 0 < j < |log|
  {
    log[j].clean && Parent(log[j]) == Parent(log[j - 1])
  }

  /** Every push since push k has been on its parent. */
  predicate ParentKeptSince(log: seq<Pushed>, k: nat) {
    forall j :: k < j < |log| ==> Parent(log[j]) == Parent(log[j - 1])
  }

  /** A found block whose parent has not been replaced since its job was pushed is lost exactly when one of the 32
      pushes after the job was a needless clean. */
  lemma CurrentBlockLostExactly(extranonce1: Bytes, difficulty: real, es: seq<Event>)
    requires var m := Run(Start(extranonce1, difficulty), es);
             m.reader.Holding? && ParentKeptSince(m.log, m.reader.held.serial)
    ensures var m := Run(Start(extranonce1, difficulty), es);
            var k := m.reader.held.serial;
            Step(m, BlockFound).candidates == m.candidates
            <==> exists j :: k < j <= k + 32 && j < |m.log| && NeedlessClean(m.log, j)
  {
    CandidateExactly(extranonce1, difficulty, es);
    var m := Run(Start(extranonce1, difficulty), es);
    hide Run, Step, NeedlessClean;
    CleanIsNeedless(m.log, m.reader.held.serial);
    hide ParentKeptSince;
  }

  lemma CleanIsNeedless(log: seq<Pushed>, k: nat)
    requires ParentKeptSince(log, k)
    ensures forall j :: k < j < |log| ==> (NeedlessClean(log, j) <==> log[j].clean)
  {
  }

  /** A push on the newest queued job's parent is a needless clean exactly when the template asks for it by its
      submit-old flag, or the last parent noted is not that one. */
  lemma NeedlessCleanExactly(m: Machine, template: Job, token: bool)
    requires m.notifier.Idle? && template.ready && m.session.authorized && m.session.complete
    requires m.session.jobs != [] && template.prevHash == NewestParent(m.session.jobs)
    requires NotifySection(m.session, template, token).1.Send?
    ensures var after := Step(m, Template(template, token));
            && |after.log| == |m.log| + 1 && after.log[|m.log|].job.template == template
            && (after.log[|m.log|].clean
                <==> !template.submitOld || m.session.lastPrevHash != Some(NewestParent(m.session.jobs)))
  {
    hide PushJob, MarkStale, ShareTargetLe;
  }

  /** A run in which a late note does it: the block found on the newest job, on the current parent, is lost. */
  lemma LateNoteLosesBlock(extranonce1: Bytes, difficulty: real, first: Job, second: Job, third: Job, suggestion: real)
    requires AcceptedExtranonce(extranonce1) && Abs(suggestion - difficulty) > F64_EPSILON
    requires first.ready && second.ready && third.ready && second.submitOld && third.submitOld
    requires first.prevHash != second.prevHash == third.prevHash
    ensures var start, es := Start(extranonce1, difficulty), LateNoteRun(first, second, suggestion);
            var m := Run(start, es + [Lookup(3)] + [Template(third, true)]);
            && m.reader.Holding? && m.reader.held.template == second
            && |m.log| == 4 && NeedlessClean(m.log, 3) && ParentKeptSince(m.log, m.reader.held.serial)
            && Step(m, BlockFound).candidates == []
  {
    var start, es := Start(extranonce1, difficulty), LateNoteRun(first, second, suggestion);
    LateNoteState(extranonce1, difficulty, first, second, suggestion);
    RunKeepsRecords(extranonce1, difficulty, es);
    var m0 := Run(start, es);
    RunAppend(start, es, Lookup(3));
    RunAppend(start, es + [Lookup(3)], Template(third, true));
    FreshLookup(m0);
    hide LateNoteRun, Run, Step, Start, Handshake, QueueOk, Records;
    var m1 := Step(m0, Lookup(3));
    TemplateStep(m1, third);
    CandidateExactly(extranonce1, difficulty, es + [Lookup(3)] + [Template(third, true)]);
    hide CleanedSoon, Settled;
  }

  lemma FreshLookup(m: Machine)
    requires QueueOk(m.session, m.log) && m.reader.Idle? && m.session.authorized
    requires |m.session.jobs| == 1 && |m.log| == 3 && m.log[2].job == m.session.jobs[0]
    ensures Step(m, Lookup(3)) == m.(reader := Holding(m.session.jobs[0])) && m.session.jobs[0].serial == 2
  {
    QueuedIsFresh(m, 0);
    assert m.session.jobs[0].id == IdOnCircle(2);
    hide StaleExactly, Queue;
  }

  // A job pushed out of the queue

  /** A bootstrapped session whose reader holds the first job while n more templates on its parent are sent. */
  function Refreshes(templates: seq<Job>, n: nat): seq<Event>
    requires n < |templates|
  {
    if n == 0 then Bootstrapped(templates[0]) + [Lookup(1)]
    else Refreshes(templates, n - 1) + [Template(templates[n], true)] + [Sent(Notifier)]
  }

  predicate Refreshing(templates: seq<Job>) {
    forall t :: t in templates ==> t.ready && t.submitOld && t.prevHash == templates[0].prevHash
  }

  predicate Holds(m: Machine, first: Job, n: nat) {
    && Settled(m) && m.notifier.Idle?
    && m.reader.Holding? && m.reader.held.serial == 0 && m.reader.held.template == first && m.candidates == []
    && |m.log| == n + 1 && (forall i :: 0 < i < |m.log| ==> !m.log[i].clean)
    && m.session.lastPrevHash == Some(first.prevHash)
  }

  lemma {:induction false} HoldsFirst(extranonce1: Bytes, difficulty: real, templates: seq<Job>)
    requires templates != [] && templates[0].ready
    ensures Holds(Run(Start(extranonce1, difficulty), Refreshes(templates, 0)), templates[0], 0)
  {
    var first := templates[0];
    BootstrappedSession(extranonce1, difficulty, first);
    RunAppend(Start(extranonce1, difficulty), Bootstrapped(first), Lookup(1));
    hide Run, Start, Bootstrapped;
    var m := Run(Start(extranonce1, difficulty), Bootstrapped(first));
    assert FindJob(m.session.jobs, m.session.stale, 1) == Some(m.log[0].job);
    hide FindJob;
  }

  lemma HoldsNext(m: Machine, first: Job, template: Job, n: nat)
    requires Holds(m, first, n) && template.ready && template.submitOld && template.prevHash == first.prevHash
    ensures Holds(Step(Step(m, Template(template, true)), Sent(Notifier)), first, n + 1)
  {
    TemplateStep(m, template);
    var sent := Step(m, Template(template, true));
    SentStep(sent, Notifier);
    hide Step;
    assert forall i :: 0 < i < |m.log| ==> sent.log[i] == m.log[i];
  }

  lemma {:induction false} RefreshedSession(extranonce1: Bytes, difficulty: real, templates: seq<Job>, n: nat)
    requires n < |templates| && Refreshing(templates)
    ensures Holds(Run(Start(extranonce1, difficulty), Refreshes(templates, n)), templates[0], n)
  {
    var start := Start(extranonce1, difficulty);
    hide Start, Step, Holds;
    if n == 0 {
      HoldsFirst(extranonce1, difficulty, templates);
    } else {
      var template := templates[n];
      RefreshedSession(extranonce1, difficulty, templates, n - 1);
      RunAppend(start, Refreshes(templates, n - 1), Template(template, true));
      RunAppend(start, Refreshes(templates, n - 1) + [Template(template, true)], Sent(Notifier));
      hide Run;
      HoldsNext(Run(start, Refreshes(templates, n - 1)), templates[0], template, n - 1);
    }
  }

  lemma ParentChanges(before: Machine, first: Job, next: Job)
    requires Holds(before, first, 33) && next.ready && next.submitOld && next.prevHash != first.prevHash
    ensures var m := Step(before, Template(next, true));
            && |m.log| == 35 && m.log[34].clean && Parent(m.log[34]) == next.prevHash
            && (forall j :: 0 < j <= 32 ==> !m.log[j].clean)
            && m.reader == before.reader && m.candidates == []
  {
    TemplateStep(before, next);
    hide Step;
    var m := Step(before, Template(next, true));
    assert forall j :: 0 < j <= 32 ==> m.log[j] == before.log[j];
  }

  /** A clean push only marks the jobs still queued: whatever the session and the templates, a block on a job that 33
      later templates on its parent pushed out goes on to submission after the parent has changed. */
  lemma EvictedJobStaysFresh(extranonce1: Bytes, difficulty: real, templates: seq<Job>, next: Job)
    requires AcceptedExtranonce(extranonce1) && |templates| == 34 && Refreshing(templates)
    requires next.ready && next.submitOld && next.prevHash != templates[0].prevHash
    ensures var es := Refreshes(templates, 33) + [Template(next, true)];
            var m := Step(Run(Start(extranonce1, difficulty), es), BlockFound);
            && |m.log| == 35 && m.log[34].clean && Parent(m.log[34]) == next.prevHash
            && |m.candidates| == 1 && m.candidates[0].pushes == 35 && m.candidates[0].job.template == templates[0]
  {
    var start, es := Start(extranonce1, difficulty), Refreshes(templates, 33) + [Template(next, true)];
    RefreshedSession(extranonce1, difficulty, templates, 33);
    RunAppend(start, Refreshes(templates, 33), Template(next, true));
    ParentChanges(Run(start, Refreshes(templates, 33)), templates[0], next);
    BlockKeepsLog(Run(start, es));
    hide Step, Start, Refreshes;
    CandidateExactly(extranonce1, difficulty, es);
    hide Run, CleanedSoon, Settled;
  }

  lemma BlockKeepsLog(m: Machine)
    ensures Step(m, BlockFound).log == m.log
  {
  }
}
