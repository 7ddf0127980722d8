/** The object that owns one Stratum V2 connection: `Sv2Connection` and `ConnectionState` (src/sv2/connection.rs).
    What the controller, the clock and the random generator answer are parameters. */
module Sv2Connections {
  import opened ByteStrings
  import opened DupWindow
  import opened JobIdCircle
  import opened Jobs
  import opened Reals
  import opened Shares
  import opened Sv2Channels
  import opened Targets
  import opened Transactions
  import V = Vardiff

  // Version rolling

  const ALLOWED_VERSION_MASK: bv32 := 0x1fff_e000

  function VersionMask(vbrequired: bv32): bv32 { ALLOWED_VERSION_MASK & !vbrequired }

  function MixVersions(version: bv32, mask: bv32, submitted: bv32): bv32 {
    (version & !mask) | (submitted & mask)
  }

  /** `resolve_submitted_version`; `None` is the refusal. */
  function ResolveVersion(allowed: bool, version: bv32, mask: bv32, submitted: bv32): Option<bv32> {
    if !allowed then (if submitted == version then Some(version) else None)
    else if submitted & !mask != 0 && submitted & !mask != version & !mask then None
    else Some(MixVersions(version, mask, submitted))
  }

  predicate SameBits(x: bv32, y: bv32, mask: bv32) { x & mask == y & mask }

  lemma MixedBits(version: bv32, mask: bv32, submitted: bv32, outside: bv32)
    requires outside & mask == 0
    ensures SameBits(MixVersions(version, mask, submitted), submitted, mask)
    ensures SameBits(MixVersions(version, mask, submitted), version, outside)
  {
  }

  lemma MaskIsOutside(vbrequired: bv32)
    ensures vbrequired & VersionMask(vbrequired) == 0
    ensures !ALLOWED_VERSION_MASK & VersionMask(vbrequired) == 0
  {
  }

  /** A resolved version takes the submission's bits inside the mask and the job's outside it, so it never touches a
      bit the template requires nor one outside the range of BIP 320; without rolling it is the job's own. */
  lemma ResolvedVersion(allowed: bool, version: bv32, vbrequired: bv32, submitted: bv32)
    requires ResolveVersion(allowed, version, VersionMask(vbrequired), submitted).Some?
    ensures var resolved := ResolveVersion(allowed, version, VersionMask(vbrequired), submitted).value;
            && SameBits(resolved, version, vbrequired)
            && SameBits(resolved, version, !ALLOWED_VERSION_MASK)
            && (if allowed then SameBits(resolved, submitted, VersionMask(vbrequired)) else resolved == version)
  {
    if allowed {
      MaskIsOutside(vbrequired);
      hide VersionMask, MixVersions, SameBits;
      MixedBits(version, VersionMask(vbrequired), submitted, vbrequired);
      MixedBits(version, VersionMask(vbrequired), submitted, !ALLOWED_VERSION_MASK);
    }
  }

  function RollingAllowed(negotiated: bool, job: Job): bool {
    negotiated && VersionMask(job.vbrequired as bv32) != 0
  }

  function ResolvedFor(job: ChannelJob, negotiated: bool, submitted: U32): Option<U32> {
    var r := ResolveVersion(RollingAllowed(negotiated, job.template), job.template.version as bv32,
                            VersionMask(job.template.vbrequired as bv32), submitted as bv32);
    if r.Some? then Some(r.value as U32) else None
  }

  // Difficulty at opening

  const HASHES_PER_DIFF: real := 4294967296.0

  function InitialDifficulty(suggested: Option<real>, start: real, low: real, high: real): real {
    Clamp(if suggested.Some? && suggested.value > start then suggested.value else start, low, high)
  }

  /** With bounds as the configuration checks them, the opening difficulty lies between them, is not below the start
      when that does, and has a target. */
  lemma OpeningHasTarget(suggested: Option<real>, start: real, low: real, high: real)
    requires 0.0 < low <= high
    ensures var difficulty := InitialDifficulty(suggested, start, low, high);
            && low <= difficulty <= high && ShareTargetLe(difficulty).Some?
            && (low <= start <= high ==> start <= difficulty)
  {
  }

  datatype Sv2Config = Sv2Config(
    extranonceSize: nat,
    start: real,
    min: real,
    max: real,
    targetShareTime: real,
    retargetTime: real,
    vardiff: bool)

  /** `sv2_initial_difficulty` for the hash rate the miner names. */
  function OpeningDifficulty(cfg: Sv2Config, hashRate: real): real {
    var suggested := if hashRate > 0.0 then Some(hashRate * cfg.targetShareTime / HASHES_PER_DIFF) else None;
    InitialDifficulty(suggested, cfg.start, cfg.min, cfg.max)
  }

  function NewController(cfg: Sv2Config, now: int): V.Controller {
    V.NewController(cfg.targetShareTime, cfg.retargetTime, cfg.min, cfg.max, now)
  }

  // The controllers' part of a retarget

  /** `retarget_channel_state`: the share is recorded, if there is one, and the controller is asked. */
  function Consulted(v: V.Controller, share: Option<real>, difficulty: real, now: int): (V.Controller, Option<real>)
    requires V.Valid(v)
  {
    V.Retargeted(if share.Some? then V.WithShare(v, now, share.value) else v, difficulty, now)
  }

  lemma ConsultedIsValid(v: V.Controller, share: Option<real>, difficulty: real, now: int)
    requires V.Valid(v)
    ensures V.Valid(Consulted(v, share, difficulty, now).0)
  {
    V.RetargetInBounds(if share.Some? then V.WithShare(v, now, share.value) else v, difficulty, now);
    hide V.Retargeted;
  }

  /** The connection after channel `c` consulted its controller `v`. */
  function AfterConsulting(conn: Connection, c: U32, v: V.Controller, share: Option<real>, rolling: bool, now: int,
                           order: seq<U32>): Connection
    requires V.Valid(v)
  {
    if c !in conn.channels then conn
    else
      var answer := Consulted(v, share, conn.channels[c].difficulty, now).1;
      if answer.None? then conn else Retarget(conn, c, answer.value, rolling, now, order)
  }

  datatype Submission = Submission(channel: U32, job: U32, nonce: U32, ntime: U32, version: U32, extranonce: Bytes)

  function KeyOf(s: Submission, version: U32): DupKey {
    BuildDupKey(Inputs(s.channel, s.job, s.nonce, s.ntime, s.extranonce, version), SV2_KEY_WIDTH)
  }

  function ShareSubmit(s: Submission, version: U32): Submit {
    Submit(Some(s.extranonce), Some(s.ntime), Some(s.nonce), Some(version))
  }

  /** How a submission ends, in the order of the checks; `Failed` is an error that closes the connection. */
  datatype Reply = NoChannel | WrongSize | NoJob | BadVersion | Duplicate | Failed | TooLow
    | Accepted(result: ShareResult)

  datatype OpenReply = SizeRefused | OpenFailed | Allotted(channel: U32)

  /** The first check a submission fails, in the source's order; `None` when it passes them all. */
  function Refusal(channels: map<U32, Channel>, rolling: bool, submitted: set<DupKey>,
                   s: Submission): (r: Option<Reply>)
    ensures r == Some(NoChannel) <==> s.channel !in channels
    ensures r == Some(WrongSize) <==> s.channel in channels && |s.extranonce| != channels[s.channel].extranonceSize
    ensures r == Some(NoJob) <==>
      s.channel in channels && |s.extranonce| == channels[s.channel].extranonceSize
        && s.job !in channels[s.channel].jobs
    ensures r == Some(BadVersion) <==>
      && s.channel in channels && |s.extranonce| == channels[s.channel].extranonceSize
      && s.job in channels[s.channel].jobs
      && ResolvedFor(channels[s.channel].jobs[s.job], rolling, s.version).None?
    ensures r == Some(Duplicate) <==>
      && s.channel in channels && |s.extranonce| == channels[s.channel].extranonceSize
      && s.job in channels[s.channel].jobs
      && var version := ResolvedFor(channels[s.channel].jobs[s.job], rolling, s.version);
         version.Some? && KeyOf(s, version.value) in submitted
    ensures r.Some? ==> r.value in {NoChannel, WrongSize, NoJob, BadVersion, Duplicate}
    ensures r.None? ==>
      && s.channel in channels && s.job in channels[s.channel].jobs
      && ResolvedFor(channels[s.channel].jobs[s.job], rolling, s.version).Some?
  {
    if s.channel !in channels then Some(NoChannel)
    else if |s.extranonce| != channels[s.channel].extranonceSize then Some(WrongSize)
    else if s.job !in channels[s.channel].jobs then Some(NoJob)
    else
      var version := ResolvedFor(channels[s.channel].jobs[s.job], rolling, s.version);
      if version.None? then Some(BadVersion)
      else if KeyOf(s, version.value) in submitted then Some(Duplicate)
      else None
  }

  /** Each channel has a valid controller and the configured extranonce size. */
  predicate Tracked(channels: map<U32, Channel>, controllers: map<U32, V.Controller>, size: nat) {
    && controllers.Keys == channels.Keys
    && (forall c :: c in controllers ==> V.Valid(controllers[c]))
    && forall c :: c in channels ==> channels[c].extranonceSize == size
  }

  class Sv2Connection {
    const cfg: Sv2Config
    const rolling: bool
    var nextChannelId: U32
    var nextJobId: U32
    var channels: map<U32, Channel>
    var controllers: map<U32, V.Controller>
    var wire: seq<Message>
    var submitted: set<DupKey>
    var submittedOrder: seq<DupKey>

    ghost function State(): Connection
      reads this
    {
      Connection(nextChannelId, nextJobId, channels, wire)
    }

    ghost function Shares(): Window
      reads this
    {
      Window(submitted, submittedOrder)
    }

    /** The miner who listened to the wire agrees with this state, the duplicate window is in step, and every channel
        has its controller. */
    ghost predicate Valid()
      reads this
    {
      InStep(State()) && Synced(Shares()) && Tracked(channels, controllers, cfg.extranonceSize)
    }

    constructor (cfg: Sv2Config, rolling: bool)
      ensures Valid() && State() == FRESH && Shares() == EmptyWindow() && this.cfg == cfg && this.rolling == rolling
    {
      this.cfg, this.rolling := cfg, rolling;
      nextChannelId, nextJobId, channels, controllers, wire := 1, 1, map[], map[], [];
      submitted, submittedOrder := {}, [];
    }

    method AllocateChannelId() returns (id: U32)
      modifies this`nextChannelId
      ensures id == AllocatedId(old(nextChannelId)) && nextChannelId == FollowingId(old(nextChannelId))
    {
      id := if nextChannelId < 1 then 1 else nextChannelId;
      var wrapped := (nextChannelId + 1) % 0x1_0000_0000;
      nextChannelId := if wrapped < 1 then 1 else wrapped;
    }

    method AllocateJobId() returns (id: U32)
      modifies this`nextJobId
      ensures id == AllocatedId(old(nextJobId)) && nextJobId == FollowingId(old(nextJobId))
    {
      id := if nextJobId < 1 then 1 else nextJobId;
      var wrapped := (nextJobId + 1) % 0x1_0000_0000;
      nextJobId := if wrapped < 1 then 1 else wrapped;
    }

    method RememberShare(key: DupKey) returns (isNew: bool)
      requires Synced(Shares())
      modifies this`submitted, this`submittedOrder
      ensures Shares() == Remember(old(Shares()), key) && Synced(Shares())
      ensures isNew <==> key !in old(submitted)
    {
      RememberKeepsSynced(Shares(), key);
      if key in submitted {
        return false;
      }
      if |submitted| >= CAPACITY {
        if submittedOrder != [] {
          var oldest := submittedOrder[0];
          submittedOrder := submittedOrder[1..];
          submitted := submitted - {oldest};
        }
      }
      submitted := submitted + {key};
      submittedOrder := submittedOrder + [key];
      return true;
    }

    method Send(message: Message)
      modifies this`wire
      ensures wire == old(wire) + [message]
    {
      wire := wire + [message];
    }

    /** `order` is the sort the pruning went by. An unknown channel is an error, met after the job id is taken. The
        miner stays in step when a job that does not clean is on the current job's parent, as both callers see to. */
    method SendJobToChannel(c: U32, template: Job, clean: bool, now: int) returns (ok: bool, ghost order: seq<U32>)
      requires Valid()
      modifies this`nextJobId, this`channels, this`wire
      ensures ok <==> c in old(channels)
      ensures State() == SendJob(old(State()), c, template, clean, rolling, now, order)
      ensures (ok && !clean ==> SameParent(old(channels)[c], template)) ==> Valid()
      ensures ok && !clean ==>
        OldestFirst(old(channels)[c].jobs[AllocatedId(old(nextJobId)) :=
                                          NewJob(old(channels)[c], template, clean, rolling, now)], order)
      ensures !ok || clean ==> order == []
    {
      ghost var before := State();
      hide InStep, ShareTargetLe, Listen, Tracked, OldestFirst, SameParent, Synced;
      var id := AllocateJobId();
      order := [];
      if c !in channels {
        UnknownKeepsInStep(before, State());
        return false, order;
      }
      var channel := channels[c];
      var job :=
        ChannelJob(template, template.coinbase1 + channel.prefix, channel.target, channel.difficulty, now, clean,
                   rolling);
      var jobs := channel.jobs[id := job];
      if clean {
        jobs := map k | k in jobs && k == id :: jobs[k];
        assert jobs == map[id := job];
      } else {
        var kept, walked := PruneExtraJobs(jobs, Some(id), MAX_CHANNEL_JOBS);
        jobs, order := kept, walked;
      }
      SendKeepsTracked(before, controllers, cfg.extranonceSize, c, template, clean, rolling, now, order);
      if clean || SameParent(channel, template) {
        SendKeepsInStep(before, c, template, clean, rolling, now, order);
      }
      channels := channels[c := channel.(jobs := jobs, current := Some(id), targetSent := true)];
      if !channel.targetSent {
        Send(SetTarget(c, channel.target));
      }
      Send(NewExtendedMiningJob(c, id, if clean then None else Some(Sv2MinNtime(template)), template));
      if clean {
        Send(SetNewPrevHash(c, id, template.prevHash, Sv2MinNtime(template)));
      }
      assert wire == before.wire + SendMessages(c, channel, id, template, clean);
      return true, order;
    }

    /** `ids` is the order the hash map was walked in. */
    method SendJobToAllChannels(template: Job, now: int) returns (ghost ids: seq<U32>, ghost orders: Orders)
      requires Valid()
      modifies this`nextJobId, this`channels, this`wire
      ensures State() == Broadcast(old(State()), ids, template, rolling, now, orders)
      ensures GoodBroadcast(old(State()), ids, template, rolling, now, orders)
      ensures forall c :: c in old(channels) <==> c in ids
      ensures forall i, j :: 0 <= i < j < |ids| ==> ids[i] != ids[j]
      ensures Valid()
    {
      hide InStep, ShareTargetLe, SendJob, Tracked, Synced, GoodBroadcast, Broadcast, ShouldClean;
      ids, orders := [], map[];
      NoBroadcast(State(), template, rolling, now);
      var pending := channels.Keys;
      while pending != {}
        invariant Valid()
        invariant State() == Broadcast(old(State()), ids, template, rolling, now, orders)
        invariant GoodBroadcast(old(State()), ids, template, rolling, now, orders)
        invariant channels.Keys == old(channels).Keys && pending <= channels.Keys
        invariant forall c :: c in old(channels) <==> c in ids || c in pending
        invariant forall c :: c in ids ==> c !in pending
        invariant forall i, j :: 0 <= i < j < |ids| ==> ids[i] != ids[j]
        invariant orders.Keys == set c | c in ids
        decreases |pending|
      {
        var c :| c in pending;
        ghost var was := State();
        CleanOrSameParent(channels[c], template);
        var clean := ShouldClean(channels[c], template);
        ghost var ok, order := SendJobToChannel(c, template, clean, now);
        SendKeepsChannels(was, c, template, clean, rolling, now, order);
        BroadcastExtends(old(State()), ids, template, rolling, now, orders, c, order);
        ids, orders := ids + [c], orders[c := order];
        pending := pending - {c};
      }
    }

    /** `retarget_channel_state` and `send_channel_retarget`: the share is recorded, the controller asked, and its
        answer told and followed by the current template; nothing for an unknown channel. */
    method RetargetChannel(c: U32, share: Option<real>, now: int) returns (ghost order: seq<U32>)
      requires Valid()
      modifies this`nextJobId, this`channels, this`controllers, this`wire
      ensures c !in old(channels) ==> State() == old(State()) && controllers == old(controllers)
      ensures c in old(channels) ==>
        && c in old(controllers) && V.Valid(old(controllers)[c])
        && controllers
             == old(controllers)[c := Consulted(old(controllers)[c], share, old(channels)[c].difficulty, now).0]
        && State() == AfterConsulting(old(State()), c, old(controllers)[c], share, rolling, now, order)
        && var answer := Consulted(old(controllers)[c], share, old(channels)[c].difficulty, now).1;
           answer.Some? ==> GoodRetarget(old(State()), c, answer.value, rolling, now, order)
      ensures Valid()
    {
      order := [];
      if c !in channels {
        return;
      }
      hide InStep, Tracked, V.Valid, Consulted, Retarget, Synced, GoodRetarget;
      ConsultedKeepsTracked(channels, controllers, cfg.extranonceSize, c, share, now);
      ghost var before, v := State(), controllers[c];
      var answer := Consulted(controllers[c], share, channels[c].difficulty, now);
      controllers := controllers[c := answer.0];
      assert State() == before;
      if answer.1.None? {
        return;
      }
      order := FollowAnswer(c, answer.1.value, now);
      AnswerFollowed(before, c, v, share, rolling, now, order);
      hide AfterConsulting;
    }

    /** The second half of a retarget, for the controller's answer. */
    method FollowAnswer(c: U32, difficulty: real, now: int) returns (ghost order: seq<U32>)
      requires Valid() && c in channels
      modifies this`nextJobId, this`channels, this`wire
      ensures State() == Retarget(old(State()), c, difficulty, rolling, now, order)
      ensures GoodRetarget(old(State()), c, difficulty, rolling, now, order)
      ensures Valid()
    {
      hide InStep, ShareTargetLe, SendJob, Tracked, Synced, OldestFirst;
      order := [];
      var channel := channels[c];
      var template := CurrentTemplate(channel);
      var target := ShareTargetLe(difficulty);
      if target.None? {
        return;
      }
      TellTargetKeepsInStep(State(), c, difficulty, target.value);
      DifficultyKeepsTracked(channels, controllers, cfg.extranonceSize, c, difficulty, target.value);
      var updated := SetChannelDifficulty(channel, difficulty, target.value);
      channels := channels[c := updated];
      Send(SetTarget(c, target.value));
      if template.Some? {
        ghost var ok;
        ok, order := SendJobToChannel(c, template.value, false, now);
      }
    }

    /** A miner that needs more extranonce than configured is refused; a difficulty without a target is an error, met
        after the channel id is taken. */
    method HandleOpenExtendedChannel(requestedSize: nat, prefix: Bytes, hashRate: real, current: Job, now: int)
      returns (reply: OpenReply)
      requires Valid()
      modifies this`nextChannelId, this`nextJobId, this`channels, this`controllers, this`wire
      ensures reply.SizeRefused? <==> requestedSize > cfg.extranonceSize
      ensures reply.OpenFailed?
              <==> requestedSize <= cfg.extranonceSize && ShareTargetLe(OpeningDifficulty(cfg, hashRate)).None?
      ensures State() == if reply.SizeRefused? then Sv2Channels.Apply(old(State()), Refused)
                        else Open(old(State()), prefix, cfg.extranonceSize, OpeningDifficulty(cfg, hashRate), current,
                                  rolling, now)
      ensures controllers == if reply.Allotted? then old(controllers)[reply.channel := NewController(cfg, now)]
              else old(controllers)
      ensures reply.Allotted? ==> reply.channel == AllocatedId(old(nextChannelId)) && reply.channel in channels
      ensures Valid()
    {
      hide InStep, ShareTargetLe, SendJob, OpeningDifficulty, Tracked, NewController;
      if requestedSize > cfg.extranonceSize {
        ApplyKeepsInStep(State(), Refused);
        Send(OpenError);
        return SizeRefused;
      }
      var difficulty := OpeningDifficulty(cfg, hashRate);
      OpenKeepsInStep(State(), prefix, cfg.extranonceSize, difficulty, EMPTY_JOB, rolling, now);
      var c := AllocateChannelId();
      var target := ShareTargetLe(difficulty);
      if target.None? {
        return OpenFailed;
      }
      var channel := Channel(prefix, cfg.extranonceSize, difficulty, target.value, false, map[], None);
      OpenKeepsTracked(channels, controllers, cfg, c, channel, now);
      channels, controllers := channels[c := channel], controllers[c := NewController(cfg, now)];
      Send(OpenSuccess(c, target.value));
      if current.ready {
        SendKeepsChannels(State(), c, current, true, rolling, now, []);
        ghost var ok, order := SendJobToChannel(c, current, true, now);
      }
      return Allotted(c);
    }

    method HandleCloseChannel(c: U32)
      requires Valid()
      modifies this`channels, this`controllers, this`wire
      ensures State() == Close(old(State()), c) && controllers == old(controllers) - {c} && Valid()
    {
      hide InStep;
      CloseKeepsInStep(State(), c);
      if c in channels {
        channels := channels - {c};
        wire := wire + [Closed(c)];
      }
      controllers := controllers - {c};
      assert controllers.Keys == channels.Keys;
      assert State() == Close(old(State()), c);
    }

    method Respond(c: U32, accepted: bool)
      requires Valid()
      modifies this`wire
      ensures State() == Sv2Channels.Apply(old(State()), Replied(c, accepted)) && Valid()
    {
      hide InStep, Tracked;
      ApplyKeepsInStep(State(), Replied(c, accepted));
      Send(ShareReply(c, accepted));
    }

    /** The checks of `handle_submit_extended` up to the duplicate window. */
    method CheckSubmission(s: Submission) returns (refusal: Option<Reply>, version: U32)
      requires Valid()
      modifies this`submitted, this`submittedOrder
      ensures Valid()
      ensures refusal == Refusal(channels, rolling, old(submitted), s)
      ensures refusal.None? ==>
        && ResolvedFor(channels[s.channel].jobs[s.job], rolling, s.version) == Some(version)
        && Shares() == Remember(old(Shares()), KeyOf(s, version))
      ensures refusal.Some? ==> Shares() == old(Shares())
    {
      hide InStep, ResolvedFor, KeyOf, ShareTargetLe;
      version := 0;
      if s.channel !in channels {
        return Some(NoChannel), version;
      }
      var channel := channels[s.channel];
      if |s.extranonce| != channel.extranonceSize {
        return Some(WrongSize), version;
      }
      if s.job !in channel.jobs {
        return Some(NoJob), version;
      }
      var resolved := ResolvedFor(channel.jobs[s.job], rolling, s.version);
      if resolved.None? {
        return Some(BadVersion), version;
      }
      version := resolved.value;
      var isNew := RememberShare(KeyOf(s, version));
      if !isNew {
        return Some(Duplicate), version;
      }
      return None, version;
    }

    /** A share is refused by the first check it fails. One that passes them is remembered, and counts exactly when
        its hash meets the target the miner was told for that job, or the network's; a share that counts is recorded
        for the retarget, and a block goes on to submission. `clock` is the time in seconds. */
    method HandleSubmitExtended(h: Hasher, s: Submission, clock: nat, now: int)
      returns (reply: Reply, candidate: Option<Bytes>, ghost order: seq<U32>)
      requires Valid()
      requires forall c, j :: c in channels && j in channels[c].jobs ==>
                 Sized(|channels[c].jobs[j].template.transactions| + 1)
      modifies this`submitted, this`submittedOrder, this`nextJobId, this`channels, this`controllers, this`wire
      ensures Valid()
      ensures var refusal := Refusal(old(channels), rolling, old(submitted), s);
              refusal.Some? ==> reply == refusal.value && Shares() == old(Shares())
      ensures Refusal(old(channels), rolling, old(submitted), s).None? ==>
        && s.channel in Listen(old(wire)) && s.job in Listen(old(wire))[s.channel].jobs
        && var job := old(channels)[s.channel].jobs[s.job];
           var version := ResolvedFor(job, rolling, s.version).value;
           var told := MinerTarget(Listen(old(wire))[s.channel], s.job);
           var r := Outcome(h, job.template, job.prefix, ShareSubmit(s, version), told, None, clock);
           && Shares() == Remember(old(Shares()), KeyOf(s, version))
           && reply == if r.None? then Failed
                       else if r.value.accepted || r.value.isBlock then Accepted(r.value)
                       else TooLow
      ensures candidate == if reply.Accepted? && reply.result.isBlock then reply.result.block else None
      ensures reply.Failed? ==> State() == old(State()) && controllers == old(controllers)
      ensures reply.Accepted? && cfg.vardiff ==>
        && s.channel in old(controllers) && V.Valid(old(controllers)[s.channel])
        && State() == AfterConsulting(Sv2Channels.Apply(old(State()), Replied(s.channel, true)), s.channel,
                                      old(controllers)[s.channel],
                                      Some(old(channels)[s.channel].jobs[s.job].difficulty), rolling, now, order)
      ensures !reply.Failed? && !(reply.Accepted? && cfg.vardiff) ==>
        State() == Sv2Channels.Apply(old(State()), Replied(s.channel, reply.Accepted?))
          && controllers == old(controllers)
    {
      hide InStep, Listen, MinerTarget, ResolvedFor, KeyOf, ShareTargetLe, Outcome, Sized, Tracked, AfterConsulting,
           Consulted, V.Valid;
      order := [];
      if s.channel in channels && s.job in channels[s.channel].jobs {
        HeldJob(State(), s.channel, s.job);
      }
      var refusal, version := CheckSubmission(s);
      if refusal.Some? {
        Respond(s.channel, false);
        return refusal.value, None, order;
      }
      var job := channels[s.channel].jobs[s.job];
      var result := ValidateShare(h, job.template, job.prefix, ShareSubmit(s, version), job.target, None, clock);
      if result.None? {
        return Failed, None, order;
      }
      if !result.value.accepted && !result.value.isBlock {
        Respond(s.channel, false);
        return TooLow, None, order;
      }
      Respond(s.channel, true);
      if cfg.vardiff {
        order := RetargetChannel(s.channel, Some(job.difficulty), now);
      }
      return Accepted(result.value), if result.value.isBlock then result.value.block else None, order;
    }
  }

  /** `set_channel_difficulty`. */
  method SetChannelDifficulty(channel: Channel, difficulty: real, target: Hash) returns (updated: Channel)
    ensures updated == WithDifficulty(channel, difficulty, target)
  {
    ghost var goal := WithDifficulty(channel, difficulty, target).jobs;
    assert forall id :: id in channel.jobs ==>
             id in goal && goal[id] == if channel.jobs[id].followsTarget
                                       then channel.jobs[id].(difficulty := difficulty, target := target)
                                       else channel.jobs[id];
    assert goal.Keys == channel.jobs.Keys;
    assert WithDifficulty(channel, difficulty, target)
           == channel.(difficulty := difficulty, target := target, jobs := goal);
    hide WithDifficulty;
    var jobs := channel.jobs;
    var left := jobs.Keys;
    while left != {}
      invariant left <= jobs.Keys == channel.jobs.Keys
      invariant forall id :: id in jobs ==> jobs[id] == if id in left then channel.jobs[id] else goal[id]
      decreases |left|
    {
      var id :| id in left;
      left := left - {id};
      if jobs[id].followsTarget {
        jobs := jobs[id := jobs[id].(difficulty := difficulty, target := target)];
      }
    }
    assert jobs == goal;
    updated := channel.(difficulty := difficulty, target := target, jobs := jobs);
  }

  lemma SendKeepsChannels(conn: Connection, c: U32, template: Job, clean: bool, rolling: bool, now: int,
                          order: seq<U32>)
    requires c in conn.channels
    ensures SendJob(conn, c, template, clean, rolling, now, order).channels.Keys == conn.channels.Keys
  {
  }

  lemma SendKeepsTracked(conn: Connection, controllers: map<U32, V.Controller>, size: nat, c: U32, template: Job,
                         clean: bool, rolling: bool, now: int, order: seq<U32>)
    requires Tracked(conn.channels, controllers, size) && c in conn.channels
    ensures Tracked(SendJob(conn, c, template, clean, rolling, now, order).channels, controllers, size)
  {
    assert SendJob(conn, c, template, clean, rolling, now, order).channels.Keys == conn.channels.Keys;
    hide Pruned, V.Valid;
  }

  lemma AnswerFollowed(conn: Connection, c: U32, v: V.Controller, share: Option<real>, rolling: bool, now: int,
                       order: seq<U32>)
    requires V.Valid(v) && c in conn.channels && Consulted(v, share, conn.channels[c].difficulty, now).1.Some?
    ensures AfterConsulting(conn, c, v, share, rolling, now, order)
            == Retarget(conn, c, Consulted(v, share, conn.channels[c].difficulty, now).1.value, rolling, now, order)
  {
  }

  lemma ConsultedKeepsTracked(channels: map<U32, Channel>, controllers: map<U32, V.Controller>, size: nat, c: U32,
                              share: Option<real>, now: int)
    requires Tracked(channels, controllers, size) && c in channels
    ensures c in controllers && V.Valid(controllers[c])
    ensures Tracked(channels, controllers[c := Consulted(controllers[c], share, channels[c].difficulty, now).0], size)
  {
    ConsultedIsValid(controllers[c], share, channels[c].difficulty, now);
    hide V.Valid, Consulted;
  }

  lemma DifficultyKeepsTracked(channels: map<U32, Channel>, controllers: map<U32, V.Controller>, size: nat, c: U32,
                               difficulty: real, target: Hash)
    requires Tracked(channels, controllers, size) && c in channels
    ensures Tracked(channels[c := WithDifficulty(channels[c], difficulty, target)], controllers, size)
  {
    assert channels[c := WithDifficulty(channels[c], difficulty, target)].Keys == channels.Keys;
  }

  lemma OpenKeepsTracked(channels: map<U32, Channel>, controllers: map<U32, V.Controller>, cfg: Sv2Config, c: U32,
                         channel: Channel, now: int)
    requires Tracked(channels, controllers, cfg.extranonceSize) && channel.extranonceSize == cfg.extranonceSize
    ensures Tracked(channels[c := channel], controllers[c := NewController(cfg, now)], cfg.extranonceSize)
  {
  }

  lemma UnknownKeepsInStep(before: Connection, after: Connection)
    requires InStep(before) && after.channels == before.channels && after.wire == before.wire
    ensures InStep(after)
  {
    hide ChannelInStep;
  }

  lemma NoBroadcast(conn: Connection, template: Job, rolling: bool, now: int)
    ensures Broadcast(conn, [], template, rolling, now, map[]) == conn
    ensures GoodBroadcast(conn, [], template, rolling, now, map[])
  {
  }

  /** A job that does not clean is on the current job's parent. */
  lemma CleanOrSameParent(channel: Channel, template: Job)
    ensures ShouldClean(channel, template) || SameParent(channel, template)
  {
  }

  /** Adding one more channel to a broadcast. */
  lemma BroadcastExtends(conn: Connection, ids: seq<U32>, template: Job, rolling: bool, now: int, orders: Orders,
                         c: U32, order: seq<U32>)
    requires orders.Keys == (set k | k in ids) && c !in ids && GoodBroadcast(conn, ids, template, rolling, now, orders)
    requires var before := Broadcast(conn, ids, template, rolling, now, orders);
             && c in before.channels
             && var clean := ShouldClean(before.channels[c], template);
                !clean ==> OldestFirst(before.channels[c].jobs[AllocatedId(before.nextJob)
                                         := NewJob(before.channels[c], template, clean, rolling, now)], order)
    ensures var before := Broadcast(conn, ids, template, rolling, now, orders);
            Broadcast(conn, ids + [c], template, rolling, now, orders[c := order])
            == SendJob(before, c, template, ShouldClean(before.channels[c], template), rolling, now, order)
    ensures GoodBroadcast(conn, ids + [c], template, rolling, now, orders[c := order])
  {
    assert (ids + [c])[..|ids|] == ids;
    SameBroadcast(conn, ids, template, rolling, now, orders, orders[c := order]);
    hide SendJob, OldestFirst, ShouldClean, NewJob;
  }

  lemma {:induction false} SameBroadcast(conn: Connection, ids: seq<U32>, template: Job, rolling: bool, now: int,
                                         a: Orders, b: Orders)
    requires forall c :: c in ids ==> OrderFor(a, c) == OrderFor(b, c)
    ensures Broadcast(conn, ids, template, rolling, now, a) == Broadcast(conn, ids, template, rolling, now, b)
    ensures GoodBroadcast(conn, ids, template, rolling, now, a) <==> GoodBroadcast(conn, ids, template, rolling, now, b)
  {
    hide SendJob, OldestFirst, ShouldClean, NewJob;
    if ids != [] {
      SameBroadcast(conn, ids[..|ids| - 1], template, rolling, now, a, b);
    }
  }

  /** The walk over the sorted ids. */
  method PruneExtraJobs(jobs: map<U32, ChannelJob>, current: Option<U32>, max: nat)
    returns (kept: map<U32, ChannelJob>, order: seq<U32>)
    ensures OldestFirst(jobs, order)
    ensures kept == Pruned(jobs, current, order, max)
  {
    kept := jobs;
    var ids := SortByAge(jobs);
    order := ids;
    hide OldestFirst;
    if |jobs| <= max {
      return;
    }
    for i := 0 to |ids|
      invariant Pruned(jobs, current, ids, max) == Pruned(kept, current, ids[i..], max)
    {
      if |kept| <= max {
        return;
      }
      PruneStep(kept, current, ids, i, max);
      if Some(ids[i]) != current {
        kept := kept - {ids[i]};
      }
    }
  }

  lemma PruneStep(jobs: map<U32, ChannelJob>, current: Option<U32>, ids: seq<U32>, i: nat, max: nat)
    requires i < |ids| && |jobs| > max
    ensures Pruned(jobs, current, ids[i..], max)
            == Pruned(if Some(ids[i]) == current then jobs else jobs - {ids[i]}, current, ids[i + 1..], max)
  {
    assert ids[i..][1..] == ids[i + 1..];
  }

  /** The sort by creation time, as insertion. */
  method SortByAge(jobs: map<U32, ChannelJob>) returns (order: seq<U32>)
    ensures OldestFirst(jobs, order)
  {
    order := [];
    var left := jobs.Keys;
    while left != {}
      invariant left <= jobs.Keys
      invariant forall id :: id in order <==> id in jobs && id !in left
      invariant ByAge(jobs, order)
      decreases |left|
    {
      var id :| id in left;
      left := left - {id};
      order := InsertByAge(jobs, order, id);
    }
  }

  predicate ByAge(jobs: map<U32, ChannelJob>, order: seq<U32>) {
    && (forall k :: k in order ==> k in jobs)
    && forall i, j :: 0 <= i < j < |order| ==> order[i] != order[j] && Age(jobs, order[i]) <= Age(jobs, order[j])
  }

  method InsertByAge(jobs: map<U32, ChannelJob>, order: seq<U32>, id: U32) returns (longer: seq<U32>)
    requires id in jobs && id !in order && ByAge(jobs, order)
    ensures ByAge(jobs, longer) && forall k :: k in longer <==> k in order || k == id
  {
    var at := 0;
    while at < |order| && jobs[order[at]].createdAt <= jobs[id].createdAt
      invariant at <= |order|
      invariant at > 0 ==> jobs[order[at - 1]].createdAt <= jobs[id].createdAt
    {
      at := at + 1;
    }
    InsertedByAge(jobs, order, id, at);
    InsertedMembers(order, id, at);
    longer := order[..at] + [id] + order[at..];
  }

  function Inserted(order: seq<U32>, id: U32, at: nat): (longer: seq<U32>)
    requires at <= |order|
    ensures |longer| == |order| + 1
    ensures forall k :: 0 <= k < |longer| ==>
              longer[k] == if k < at then order[k] else if k == at then id else order[k - 1]
  {
    order[..at] + [id] + order[at..]
  }

  lemma InsertedMembers(order: seq<U32>, id: U32, at: nat)
    requires at <= |order|
    ensures forall k :: k in Inserted(order, id, at) <==> k in order || k == id
  {
    assert order == order[..at] + order[at..];
  }

  lemma InsertedPair(jobs: map<U32, ChannelJob>, order: seq<U32>, id: U32, at: nat, i: nat, j: nat)
    requires id in jobs && id !in order && ByAge(jobs, order) && at <= |order| && i < j <= |order|
    requires at > 0 ==> Age(jobs, order[at - 1]) <= Age(jobs, id)
    requires at < |order| ==> Age(jobs, id) <= Age(jobs, order[at])
    ensures var longer := Inserted(order, id, at);
            longer[i] != longer[j] && Age(jobs, longer[i]) <= Age(jobs, longer[j])
  {
    if j == at {
      AgeOrder(jobs, order, i, at - 1);
    } else if i == at {
      AgeOrder(jobs, order, at, j - 1);
    } else {
      AgeOrder(jobs, order, if i < at then i else i - 1, if j < at then j else j - 1);
    }
    hide ByAge, Age;
  }

  lemma InsertedByAge(jobs: map<U32, ChannelJob>, order: seq<U32>, id: U32, at: nat)
    requires id in jobs && id !in order && ByAge(jobs, order) && at <= |order|
    requires at > 0 ==> Age(jobs, order[at - 1]) <= Age(jobs, id)
    requires at < |order| ==> Age(jobs, id) <= Age(jobs, order[at])
    ensures ByAge(jobs, Inserted(order, id, at))
  {
    var longer := Inserted(order, id, at);
    InsertedMembers(order, id, at);
    forall i, j | 0 <= i < j < |longer|
      ensures longer[i] != longer[j] && Age(jobs, longer[i]) <= Age(jobs, longer[j])
    {
      InsertedPair(jobs, order, id, at, i, j);
    }
    hide Inserted, Age;
  }

  function Age(jobs: map<U32, ChannelJob>, id: U32): int {
    if id in jobs then jobs[id].createdAt else 0
  }

  lemma AgeOrder(jobs: map<U32, ChannelJob>, order: seq<U32>, i: nat, j: nat)
    requires ByAge(jobs, order) && i <= j < |order|
    ensures Age(jobs, order[i]) <= Age(jobs, order[j]) && order[i] in jobs && order[j] in jobs
    ensures i < j ==> order[i] != order[j]
  {
  }
}
