/** One Stratum V1 session behind its mutex: `SessionState` and the critical sections of the tasks that share it
    (src/stratum.rs). The clock, the rate limiter's answer and the difficulty controller's answer are parameters. */
module Sessions {
  import opened ByteStrings
  import opened DupWindow
  import opened JobIdCircle
  import opened Jobs
  import opened Reals
  import opened Targets

  const MAX_SESSION_JOBS: nat := 32

  /** `serial` names the shared reference: a job's staleness flag is the membership of its serial in `Session.stale`. */
  datatype SessionJob = SessionJob(serial: nat, id: U32, template: Job, prefix: Bytes, difficulty: real, target: Hash)

  datatype Session = Session(
    authorized: bool,
    complete: bool,
    inflight: bool,
    extranonce1: Bytes,
    difficulty: real,
    target: Hash,
    jobs: seq<SessionJob>,
    made: nat,
    nextJobId: U32,
    lastPrevHash: Option<Hash>,
    stale: set<nat>)

  function MaxHash(): Hash { seq(32, _ => 255) }

  /** The cache at the start: a difficulty without a target lets every hash through. */
  function InitialTarget(difficulty: real): Hash {
    match ShareTargetLe(difficulty)
    case Some(target) => target
    case None => MaxHash()
  }

  function NewSession(extranonce1: Bytes, difficulty: real): Session {
    Session(false, false, false, extranonce1, difficulty, InitialTarget(difficulty), [], 0, 1, None, {})
  }

  datatype PostSend = PostSend(prevHash: Hash, cleanJobs: bool, completeBootstrap: bool)

  /** What a critical section decides: nothing to send, wait for the bootstrap, or a job to send and what to note
      after. */
  datatype Action = Skip | Wait | Send(job: SessionJob, post: PostSend)

  // The methods of the state

  function Begin(s: Session): Session {
    s.(authorized := true, complete := false, inflight := false, jobs := [], lastPrevHash := None)
  }

  predicate Claimable(s: Session) { !s.complete && !s.inflight }

  function Claim(s: Session): Session {
    if Claimable(s) then s.(inflight := true) else s
  }

  function Serials(jobs: seq<SessionJob>): set<nat> { set j | j in jobs :: j.serial }

  /** All queued jobs become stale, and stale jobs leave the queue. */
  function MarkStale(s: Session): Session {
    s.(stale := s.stale + Serials(s.jobs), jobs := [])
  }

  predicate ShouldCleanJobs(s: Session, template: Job) {
    !template.submitOld || s.lastPrevHash != Some(template.prevHash)
  }

  function NoteSent(s: Session, post: PostSend): Session {
    var noted := s.(lastPrevHash := Some(post.prevHash));
    if post.completeBootstrap then noted.(complete := true, inflight := false) else noted
  }

  /** A difficulty without a target is refused. */
  function SetDifficulty(s: Session, difficulty: real): Session {
    match ShareTargetLe(difficulty)
    case Some(target) => s.(difficulty := difficulty, target := target)
    case None => s
  }

  function MadeJob(s: Session, template: Job, difficulty: real): SessionJob {
    SessionJob(s.made, AllocatedId(s.nextJobId), template, template.coinbase1 + s.extranonce1, difficulty,
               SetDifficulty(s, difficulty).target)
  }

  /** The newest 32. */
  function Trimmed(jobs: seq<SessionJob>): seq<SessionJob> {
    if |jobs| <= MAX_SESSION_JOBS then jobs else jobs[|jobs| - MAX_SESSION_JOBS..]
  }

  function PushJob(s: Session, template: Job, difficulty: real): Session {
    SetDifficulty(s, difficulty).(
      jobs := Trimmed(s.jobs + [MadeJob(s, template, difficulty)]),
      made := s.made + 1,
      nextJobId := FollowingId(AllocatedId(s.nextJobId)))
  }

  /** The newest queued job of that id that is not stale. */
  function FindJob(jobs: seq<SessionJob>, stale: set<nat>, id: U32): Option<SessionJob> {
    if jobs == [] then None
    else
      var last := jobs[|jobs| - 1];
      if last.id == id && last.serial !in stale then Some(last) else FindJob(jobs[..|jobs| - 1], stale, id)
  }

  // The critical sections

  /** The first lock of mining.authorize. */
  function AuthorizeSection(s: Session): Session {
    Begin(s).(inflight := true)
  }

  /** Its second lock, once the engine's job is known; `difficulty` was read under the first. */
  function BootstrapSection(s: Session, current: Job, difficulty: real): (Session, Action) {
    if !(s.authorized && s.inflight && !s.complete) then (s, Skip)
    else if current.ready then
      (PushJob(s, current, difficulty), Send(MadeJob(s, current, difficulty), PostSend(current.prevHash, true, true)))
    else (s.(inflight := false), Skip)
  }

  /** The notify task's lock for a ready template; `token` is the rate limiter's answer, if asked. */
  function NotifySection(s: Session, template: Job, token: bool): (Session, Action) {
    if !s.authorized then (s, Skip)
    else if !s.complete && s.inflight then (s, Wait)
    else
      var bootstrap := !s.complete;
      var claimed := if bootstrap then Claim(s) else s;
      var clean := bootstrap || ShouldCleanJobs(claimed, template);
      if !clean && !token then (claimed, Skip)
      else
        var ready := if clean then MarkStale(claimed) else claimed;
        (PushJob(ready, template, ready.difficulty),
         Send(MadeJob(ready, template, ready.difficulty), PostSend(template.prevHash, clean, bootstrap)))
  }

  /** A changed difficulty: the newest template again, as a job at that difficulty. */
  function RetargetSection(s: Session, difficulty: real): (Session, Action) {
    var retargeted := SetDifficulty(s, difficulty);
    if retargeted.jobs == [] then (retargeted, Skip)
    else
      var template := retargeted.jobs[|retargeted.jobs| - 1].template;
      (PushJob(retargeted, template, difficulty),
       Send(MadeJob(retargeted, template, difficulty), PostSend(template.prevHash, false, false)))
  }

  /** The vardiff task's lock, for the controller's answer. */
  function VardiffSection(s: Session, answer: Option<real>): (Session, Action) {
    if !s.authorized || !s.complete || answer.None? then (s, Skip) else RetargetSection(s, answer.value)
  }

  /** The last lock of mining.submit. */
  function SubmitSection(s: Session, vardiff: bool, answer: Option<real>): (Session, Action) {
    if !vardiff || !s.complete || answer.None? then (s, Skip) else RetargetSection(s, answer.value)
  }

  /** The lock of mining.suggest_difficulty, for the clamped suggestion. */
  function SuggestSection(s: Session, suggestion: real): (Session, Action) {
    var distance := suggestion - s.difficulty;
    if Abs(distance) <= F64_EPSILON then (s, Skip)
    else if s.complete then RetargetSection(s, suggestion)
    else (SetDifficulty(s, suggestion), Skip)
  }

  class SessionState {
    const extranonce1: Bytes
    var authorized: bool
    var complete: bool
    var inflight: bool
    var difficulty: real
    var target: Hash
    var jobs: seq<SessionJob>
    var made: nat
    var nextJobId: U32
    var lastPrevHash: Option<Hash>
    var stale: set<nat>
    var submitted: set<DupKey>
    var submittedOrder: seq<DupKey>

    ghost function State(): Session
      reads this
    {
      Session(authorized, complete, inflight, extranonce1, difficulty, target, jobs, made, nextJobId, lastPrevHash,
              stale)
    }

    ghost function Shares(): Window
      reads this
    {
      Window(submitted, submittedOrder)
    }

    constructor (extranonce1: Bytes, difficulty: real)
      ensures State() == NewSession(extranonce1, difficulty) && Shares() == EmptyWindow()
    {
      this.extranonce1 := extranonce1;
      authorized, complete, inflight := false, false, false;
      this.difficulty, target := difficulty, InitialTarget(difficulty);
      jobs, made, nextJobId, lastPrevHash, stale := [], 0, 1, None, {};
      submitted, submittedOrder := {}, [];
    }

    method BeginAuthorizedSession()
      modifies this
      ensures State() == Begin(old(State())) && Shares() == EmptyWindow()
    {
      authorized, complete, inflight := true, false, false;
      jobs, lastPrevHash := [], None;
      submitted, submittedOrder := {}, [];
    }

    method ClaimBootstrapNotify() returns (claimed: bool)
      modifies this`inflight
      ensures claimed == Claimable(old(State())) && State() == Claim(old(State()))
    {
      if complete || inflight {
        return false;
      }
      inflight := true;
      return true;
    }

    method MarkJobsStaleBlock()
      modifies this`jobs, this`stale
      ensures State() == MarkStale(old(State()))
    {
      for i := 0 to |jobs|
        invariant jobs == old(jobs)
        invariant stale == old(stale) + set k | 0 <= k < i :: jobs[k].serial
      {
        stale := stale + {jobs[i].serial};
      }
      assert stale == old(stale) + Serials(jobs);
      assert forall j :: j in jobs ==> j.serial in Serials(jobs);
      jobs := Retained(jobs, stale);
    }

    method NoteNotifySent(post: PostSend)
      modifies this`lastPrevHash, this`complete, this`inflight
      ensures State() == NoteSent(old(State()), post)
    {
      lastPrevHash := Some(post.prevHash);
      if post.completeBootstrap {
        complete, inflight := true, false;
      }
    }

    method ChangeDifficulty(to: real)
      modifies this`difficulty, this`target
      ensures State() == SetDifficulty(old(State()), to)
    {
      var derived := ShareTargetLe(to);
      if derived.Some? {
        difficulty, target := to, derived.value;
      }
    }

    method Push(template: Job, at: real) returns (job: SessionJob)
      modifies this`difficulty, this`target, this`jobs, this`made, this`nextJobId
      ensures State() == PushJob(old(State()), template, at) && job == MadeJob(old(State()), template, at)
    {
      hide ShareTargetLe, Trimmed;
      if nextJobId == 0 {
        nextJobId := 1;
      }
      var id := nextJobId;
      var wrapped := (nextJobId + 1) % 0x1_0000_0000;
      nextJobId := if wrapped < 1 then 1 else wrapped;
      ChangeDifficulty(at);
      assert target == SetDifficulty(old(State()), at).target;
      job := SessionJob(made, id, template, template.coinbase1 + extranonce1, at, target);
      assert job == MadeJob(old(State()), template, at);
      made := made + 1;
      jobs := DropOldest(jobs + [job]);
    }

    method Find(id: U32) returns (found: Option<SessionJob>)
      ensures found == FindJob(jobs, stale, id)
    {
      var i := |jobs|;
      assert jobs[..i] == jobs;
      while i > 0
        invariant 0 <= i <= |jobs|
        invariant FindJob(jobs, stale, id) == FindJob(jobs[..i], stale, id)
      {
        i := i - 1;
        assert jobs[..i + 1][..i] == jobs[..i];
        if jobs[i].id == id && jobs[i].serial !in stale {
          return Some(jobs[i]);
        }
      }
      return None;
    }

    method Remember(key: DupKey) returns (duplicate: bool)
      requires Synced(Shares())
      modifies this`submitted, this`submittedOrder
      ensures Shares() == DupWindow.Remember(old(Shares()), key) && Synced(Shares())
      ensures duplicate <==> key in old(submitted)
    {
      RememberKeepsSynced(Shares(), key);
      if key in submitted {
        return true;
      }
      if |submitted| >= CAPACITY {
        if submittedOrder != [] {
          var oldest := submittedOrder[0];
          submittedOrder := submittedOrder[1..];
          submitted := submitted - {oldest};
        }
      }
      submitted := submitted + {key};
      submittedOrder := submittedOrder + [key];
      return false;
    }

    method OnAuthorize()
      modifies this
      ensures State() == AuthorizeSection(old(State())) && Shares() == EmptyWindow()
    {
      BeginAuthorizedSession();
      inflight := true;
    }

    method OnCurrentJob(current: Job, at: real) returns (action: Action)
      modifies this`difficulty, this`target, this`jobs, this`made, this`nextJobId, this`inflight
      ensures (State(), action) == BootstrapSection(old(State()), current, at)
    {
      if current.ready {
        if authorized && inflight && !complete {
          var job := Push(current, at);
          return Send(job, PostSend(current.prevHash, true, true));
        }
      } else if authorized && inflight && !complete {
        inflight := false;
      }
      return Skip;
    }

    method OnTemplate(template: Job, token: bool) returns (action: Action)
      modifies this
      ensures (State(), action) == NotifySection(old(State()), template, token) && Shares() == old(Shares())
    {
      if !authorized {
        return Skip;
      }
      if !complete && inflight {
        return Wait;
      }
      var bootstrap := !complete;
      if bootstrap {
        var claimed := ClaimBootstrapNotify();
        assert claimed;
      }
      var clean := true;
      if !bootstrap {
        clean := !template.submitOld || lastPrevHash != Some(template.prevHash);
      }
      if !bootstrap && !clean && !token {
        return Skip;
      }
      if clean {
        MarkJobsStaleBlock();
      }
      var job := Push(template, difficulty);
      return Send(job, PostSend(template.prevHash, clean, bootstrap));
    }

    method Retarget(to: real) returns (action: Action)
      modifies this`difficulty, this`target, this`jobs, this`made, this`nextJobId
      ensures (State(), action) == RetargetSection(old(State()), to)
    {
      ChangeDifficulty(to);
      if jobs == [] {
        return Skip;
      }
      var template := jobs[|jobs| - 1].template;
      var job := Push(template, to);
      return Send(job, PostSend(template.prevHash, false, false));
    }

    method OnSuggestion(suggestion: real) returns (action: Action)
      modifies this`difficulty, this`target, this`jobs, this`made, this`nextJobId
      ensures (State(), action) == SuggestSection(old(State()), suggestion)
    {
      var distance := if suggestion < difficulty then difficulty - suggestion else suggestion - difficulty;
      if distance <= F64_EPSILON {
        return Skip;
      }
      if complete {
        action := Retarget(suggestion);
      } else {
        ChangeDifficulty(suggestion);
        return Skip;
      }
    }
  }

  /** The `retain` over the queue. */
  method Retained(jobs: seq<SessionJob>, stale: set<nat>) returns (kept: seq<SessionJob>)
    ensures forall j :: j in kept <==> j in jobs && j.serial !in stale
    ensures kept == [] || (kept[0] in jobs && kept[0].serial !in stale)
  {
    kept := [];
    for i := 0 to |jobs|
      invariant forall j :: j in kept <==> j in jobs[..i] && j.serial !in stale
    {
      if jobs[i].serial !in stale {
        kept := kept + [jobs[i]];
      }
    }
  }

  /** The `pop_front` loop. */
  method DropOldest(jobs: seq<SessionJob>) returns (kept: seq<SessionJob>)
    ensures kept == Trimmed(jobs)
  {
    kept := jobs;
    while |kept| > MAX_SESSION_JOBS
      invariant |kept| <= |jobs| && kept == jobs[|jobs| - |kept|..]
      invariant |jobs| > MAX_SESSION_JOBS ==> |kept| >= MAX_SESSION_JOBS
      invariant |jobs| <= MAX_SESSION_JOBS ==> kept == jobs
    {
      kept := kept[1..];
    }
  }
}
