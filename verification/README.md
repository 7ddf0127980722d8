# StratumBee in Dafny

StratumBee is a solo-mining gateway: it turns Bitcoin Core block templates into mining jobs, checks the shares miners send
back, and assembles full blocks. This project models its five stateful or arithmetic parts and proves what they keep.

* **Block assembly** (`bytes`, `target`, `compact_size`, `transaction`, `merkle`, `script`, `coinbase`, `job`, `share`,
  `headers`): a coinbase is serialised and cut around the extranonces, the left-most Merkle path is precomputed, and a share
  rebuilds coinbase, root, header and block from those pieces. The reference it is proved against is a plain transaction and
  block serialiser and parser (BIP 144 "Serialization"), the full duplicate-last Merkle tree, the height rule of BIP 34
  "Specification" and the commitment of BIP 141 "Commitment structure".
* **Template engine** (`template_engine`, `consensus`, `engine_steps`): first as two indivisible actions, a node's answer and a
  fast block announcement; then with every lock, atomic and semaphore access as its own step. Each interleaving is proved to be
  some order of the indivisible actions. `consensus` proves that jobs built on blocks the node has not delivered yet still
  carry the required bits and a time above the median of BIP 113.
* **Stratum V2 connection** (`sv2_channels`, `sv2_connection`, `dup_window`, `job_ids`): the state one task owns, beside what a
  miner who follows section 5.3 of the Stratum V2 Mining Protocol derives from the messages sent.
* **Stratum V1 session** (`session`, `session_steps`, `session_runs`, `line_reader`, `token_bucket`): the critical sections of
  the reader, notify and vardiff tasks interleaved, the bounded line reader and the notification rate limiter.
* **Difficulty controller** (`vardiff`, `reals`).
* **End to end** (`published_jobs`, `end_to_end`): with a node that answers honestly, whatever the tasks of the engine and of a
  session do in whatever order, every block an SV1 session hands on, and every block on a job an SV2 channel still accepts, is a
  valid candidate that may extend the chain its header names.

Double SHA-256 is a parameter `h` of every statement, never opened; hash equalities hold for every function. `f64` is read as
`real`. Clocks, randomness, the node's answers, the controller's answers and the order in which hash maps are walked are
parameters. Methods with loops or fields follow the source's imperative form and are proved equal to specification functions;
the lemmas are about those functions.

Where the code does not do what its own messages or checks suggest, it is kept as it is, and the exact condition is proved
beside a run that shows it:

* A clean SV1 push marks only the jobs still queued, so a found block goes on to submission exactly when none of the 32 pushes
  after its job was clean (`CandidateExactly`), even if a later one was: for every session and all templates, a job that 33
  refreshes pushed out stays fresh when its parent is replaced (`EvictedJobStaysFresh`).
* A clean SV1 push can come although the parent did not change. While the parent stays, a found block is lost exactly when one
  of the 32 pushes after its job was such a needless clean (`CurrentBlockLostExactly`), and a push on the newest job's parent
  is one exactly when the template does not allow old shares or the last parent noted is another (`NeedlessCleanExactly`;
  `LateNoteLosesBlock` is a run that does, for every session and all templates).
* SV1 notes the last parent after the lock is released, so a late note can leave an old parent noted. The queue leaves its one
  parent exactly when the notify task then pushes, without cleaning, a template that is not on the newest queued job's parent
  (`OneParentExactly`; `LateNoteMixesParents` is a run that does, for every session and all templates).
* A longpoll refresh that is deferred can be left in the slot (`LongpollDeferralCanBeStranded`); every other deferral is
  collected (`DeferredRefreshIsCollected`, `SlotAlwaysAttended`).
* Cached shares never expire. The time that passed matters to a due retarget exactly when nothing was ever cached, the offline
  step would change the difficulty, and a retarget can fall due before the offline age (`SilenceMattersExactly`); so the offline
  step never serves a miner that has once submitted. For one that never has, it settles (`SilentMinerSettles`).
* The offline step raises the difficulty exactly when the rounded minimum is above it (`OfflineStepDrops`, `MinimumIsKept`;
  `OfflineStepCanRaise` is an instance).
* The rate limiter reads the wall clock. Elapsed time bounds its grants, in every stretch and for every capacity, exactly on the
  clocks that never go back (`ElapsedBoundExactly`; `ClockGoingBackIsCredited` is an instance); on every clock the bound holds
  for the forward steps (`GrantsWithin`).

## Model

| member | source | states |
|---|---|---|
| Targets.LeqLe256 | src/share.rs:147-157 | the byte-by-byte comparison decides the numeric order of two 256-bit little-endian numbers |
| Targets.SaturatedLeValue | src/share.rs:20-32 | the bytes of a target stand for the number, or for 2^256 - 1 when it does not fit |
| Targets.ShareTargetMeaning | src/share.rs:13-33 | a hash meets the share target iff hash times scaled difficulty is at most DIFF1 times the scale, saturation included |
| Targets.ShareTargetIsDifficulty | src/share.rs:159-178 | for a hash that is not zero, iff its exact quotient-plus-remainder difficulty reaches the scaled difficulty |
| Targets.CompactTargetToLe | src/template.rs:1239-1261 | accepts exactly the positive encodings with exponent 1 to 32 and yields floor(mantissa * 256^(exponent - 3)) |
| Targets.BlockHashMeetsCompactTarget | src/template.rs:1263-1275 | compares the hash with that number; an nBits without a target is the error |
| CompactSize.RoundTrip | src/bitcoin_encoding.rs:1-17 | decoding an encoded value gives it back, leaves what follows untouched, and uses exactly `varint_len` bytes |
| CompactSize.DecodeConsumes | src/p2p.rs:700-732 | an accepted spelling is a prefix no shorter than the encoder's, and reading does not look past it |
| CompactSize.EncodeVarint | src/bitcoin_encoding.rs:1-17 | appends the encoding and nothing else |
| CompactSize.ReadVarint | src/p2p.rs:700-732 | the cursor form of the decoder: same value, same rest, same refusals |
| Merkle.PathFoldsToRoot | src/share.rs:80-84 | folding the precomputed path from any left-most leaf gives the root of the full duplicate-last tree |
| Merkle.PathLength | src/template.rs:1281-1303 | the path has ceil(log2(n + 1)) entries for n other transactions |
| Merkle.BuildMerkleBranches | src/template.rs:1281-1303 | the loop collects that path; the coinbase hash it is given leaves no trace in it |
| Merkle.FoldBranches | src/share.rs:80-84 | the validation loop is that fold |
| Merkle.ComputeWitnessCommitmentScript | src/template.rs:1076-1121 | the commitment script of BIP 141 over the wtxids with a zero leaf first; an error iff a wtxid is missing |
| Scripts.ScriptNumRoundTrip | src/template.rs:1327-1349 | every number reads back as itself from a minimal encoding |
| Scripts.EncodeScriptNum | src/template.rs:1327-1349 | the loop and the sign fix-up produce that encoding |
| Scripts.PushRoundTrip | src/template.rs:1351-1368 | a pushed string is read back whole whatever follows it |
| Scripts.EncodeScriptPushdata | src/template.rs:1351-1368 | appends the push, and fails exactly above 65535 bytes |
| Scripts.HeightRoundTrip | src/template.rs:1123-1140 | the script read by the BIP 34 rule gives the height back, small-number opcodes included |
| Scripts.EncodeCoinbaseHeight | src/template.rs:1123-1140 | produces that script, and fails exactly above the range of i64 |
| Coinbase.BuildCoinbaseParts | src/template.rs:973-1073 | succeeds iff the script fits 100 bytes; any extranonces of the configured sizes between the halves give the serialisation of the intended coinbase |
| Coinbase.FilledHoleParses | src/template.rs:990-1071 | those bytes parse to one null input, the intended outputs and the locktime, with a script of at most 100 bytes |
| Coinbase.ScriptParses | src/template.rs:990-1010 | the script reads as height, flags, tag and then exactly the extranonces |
| Coinbase.BuildCoinbaseWithWitness | src/share.rs:224-240 | inserts marker, flag and reserved value at the byte positions; fails iff there are fewer than 8 bytes |
| Coinbase.WitnessInsertion | src/share.rs:224-240 | the result is the BIP 144 form of the same coinbase with the reserved value; stripping it gives the legacy bytes back |
| Jobs.TargetLeValue | src/template.rs:812-830 | turning a big-endian target round keeps its value |
| Jobs.BuildJob | src/template.rs:751-878 | succeeds iff coinbase, wtxids, txids and nBits allow; the job's halves leave the intended hole, its branches are the left path of the transactions it carries |
| Jobs.BuildEmptyJob | src/template.rs:910-971 | the fast job has the same shape with no transactions, the subsidy alone, and mintime one above the time bound, saturating |
| Shares.BuildHeader | src/share.rs:181-197 | the 80 bytes of the header |
| Shares.BuildBlock | src/share.rs:203-222 | header, count, coinbase in the form the template needs, transactions; error iff the coinbase is too short for a witness |
| Shares.ValidateShare | src/share.rs:53-133 | computes the specified outcome: time window first, error exits, both comparisons, a block iff the job's target is met |
| Shares.EmittedBlockIsValid | src/share.rs:75-133 | for every job, extranonces, ntime, nonce and version: an emitted block is byte for byte the serialisation of the header the miner hashed, the intended coinbase and the template's transactions, parses back, has the full-tree root over the txids, and its hash meets the target |
| Shares.BlockFromAnswer | src/template.rs:751-878 | from an honest node's answer, through the job built from it, to any share: a block that comes out is a valid candidate on the answer's parent, bits and target, over the answer's transactions |
| Shares.FullTreeRoot | src/template.rs:774-802 | the folded path from the legacy txid is the root over all txids whichever form the coinbase takes |
| Shares.EmittedBlockIsCommitted | src/share.rs:203-240 | when the node's commitment is over its transactions' wtxids, the emitted block satisfies BIP 141 |
| Headers.AnnouncementOfHeader | src/p2p.rs:618-653 | the fixed offsets pick the fields out of a serialised header |
| Headers.AcceptedPayloads | src/p2p.rs:584-608 | a payload is accepted iff it is a count, that many headers each with a zero transaction count, and nothing more |
| Headers.HeadersRoundTrip | src/p2p.rs:584-608 | a serialised list of headers is parsed into those headers in order |
| Headers.ParseHeadersAnnouncements | src/p2p.rs:584-608 | the cursor loop returns the announcements of exactly those entries, and fails exactly on refused payloads |
| TemplateEngines.UpdateFrom | src/template.rs:671-708 | an answer's update is well built: a job iff the template is buildable, of the shape block assembly needs, under the key made of the answer's own texts |
| TemplateEngines.TemplateEngine.UpdateChainTipFromJob | src/template.rs:880-898 | the tip becomes the job's projection, unless the job is not ready or at height 0 |
| TemplateEngines.TemplateEngine.PublishJob | src/template.rs:900-908 | key, current job and watch channel change together |
| TemplateEngines.TemplateEngine.ApplyGbtResponse | src/template.rs:657-731 | older, unsupported, repeated and unbuildable answers change nothing; any other publishes its job |
| TemplateEngines.TemplateEngine.HandleFastBlockAnnouncement | src/template.rs:280-396 | every exit in order, the two that spawn a refresh, and the tip, key and job stored when none is taken |
| TemplateEngines.TemplateEngine.HandleHeaders | src/p2p.rs:207-236 | the batch loop counts heights from the job current when it started |
| TemplateEngines.ExactProjection | src/template.rs:880-898 | the stored time bound is mintime - 1 iff the bound has not reached the end of 32-bit time |
| TemplateEngines.GbtKeepsCoherence | src/template.rs:649-728 | an answer keeps tip and job coherent and never lowers the height |
| TemplateEngines.FastKeepsCoherence | src/template.rs:288-394 | a fast publish, taken as one action, raises the height by exactly one; the later guards on height and key decide nothing |
| TemplateEngines.RunsAreCoherent | src/template.rs:649-728 | over every run the tip is the projection of the published job and published heights never fall |
| TemplateEngines.BatchPublishesGoodPrefix | src/p2p.rs:207-236 | a batch publishes one job per header of its longest prefix that links and passes the guards, in order, and none after the first failure |
| TemplateEngines.HeaderStep | src/template.rs:305-335 | after k good headers the engine publishes on header i iff i = k and it is good |
| TemplateEngines.VerdictMeaning | src/template.rs:305-335 | what remains of the exits: a block is published on iff it links, is next, keeps the bits, has the work and is off the period boundary |
| Consensus.MedianByCount | src/template.rs:350-351 | the 11-block median is at most m iff more than half the window is |
| Consensus.MedianReplacement | src/template.rs:350-351 | the next block's median is at most the larger of the old median and the new timestamp |
| Consensus.FastJobIsContextual | src/template.rs:305-351 | a fast job has the required bits, their target and a mintime above the true median, and so does the block it builds on have its required bits |
| Consensus.PublishedJobsAreContextual | src/template.rs:1277-1279 | over every run from honest answers and true headers every published job obeys the contextual rules |
| Consensus.AcceptedTimesExceedMedian | src/share.rs:60-63 | every ntime that a share gets accepted with exceeds the median time past |
| EngineSteps.OutsideAccess | src/template.rs:649-655 | a task without the permit changes no shared field and enters only when the permit is free |
| EngineSteps.StepRefines | src/template.rs:644-732 | each step of each task leaves the indivisible state alone or takes exactly one indivisible action on it |
| EngineSteps.InterleavingsAreSequential | src/template.rs:644-732 | every interleaving is an order of indivisible actions, whose result the shared fields show whenever the permit is free |
| EngineSteps.CoherentWhenFree | src/template.rs:880-908 | so with the permit free the tip is the projection of the current job, under every interleaving |
| EngineSteps.SentHeightsAscend | src/template.rs:900-908 | under every interleaving, permit free or not, the jobs sent never go down in height |
| EngineSteps.SentJobsAreContextual | src/template.rs:337-394 | under every interleaving, permit free or not, every job ever sent obeys the contextual rules |
| EngineSteps.LaterGuardsNeverDecide | src/template.rs:337-370 | under every interleaving a fast task at its re-read of the current job goes on, and at the key stops only if its job cannot be built |
| EngineSteps.FastPublishRaisesByOne | src/template.rs:337-394 | under every interleaving the step at which a fast announcement takes effect publishes one job, exactly one above the job then current |
| EngineSteps.DeferredRefreshIsCollected | src/template.rs:624-655 | from a refresher's deferral to its own next step some refresher collects the slot and is fetching again |
| EngineSteps.SlotAlwaysAttended | src/template.rs:734-749 | a non-empty slot no refresher is still to swap can only hold longpoll's own deferral |
| EngineSteps.LongpollDeferralCanBeStranded | src/template.rs:503-545 | after any good startup, a run that ends with longpoll's source in the slot, the permit free and every refresher done |
| DupWindow.WindowIsRecent | src/sv2/connection.rs:99-111 | set and deque hold the same distinct keys, exactly the last 4096 remembered; a key is refused iff it is among them |
| DupWindow.AcceptancesAreApart | src/stratum.rs:1018-1032 | between two acceptances of one key lie at least 4096 others |
| DupWindow.KeysIdentifyInputs | src/sv2/connection.rs:1199-1213 | equal keys iff equal header inputs, while the array holds the extranonce |
| DupWindow.FittedExactly | src/stratum.rs:836-852 | SV1 lets an extranonce2 through iff it has no more digits than the configured size holds, and then as exactly that many bytes of the same number |
| DupWindow.Sv1KeysIdentify | src/stratum.rs:1833-1853 | under every accepted configuration two submissions let through get equal keys iff their header inputs are equal |
| DupWindow.Sv2KeysIdentify | src/sv2/connection.rs:1199-1213 | the same for SV2, whose extranonces have exactly the configured size |
| JobIdCircle.NextOnCircle | src/sv2/connection.rs:87-97 | the counter walks 1, 2, ..., 2^32 - 1 and round again |
| JobIdCircle.SameIdOnCircle | src/stratum.rs:1514-1518 | two turns give the same id iff a whole number of circles lies between them |
| Sv2Channels.PruningKeepsNewest | src/sv2/connection.rs:1123-1146 | at most the limit is kept, the current job always, and nothing kept is older than anything dropped |
| Sv2Channels.TargetsMatchTheWire | src/sv2/connection.rs:439-532 | in every run, for every job still accepted, the miner computes from the messages exactly the target the server checks, and it is the target of the job's difficulty |
| Sv2Channels.ChannelsStayOk | src/sv2/connection.rs:445-475 | in every run the miner's active job is held, all jobs of a channel share one parent, and there are at most 32 |
| Sv2Channels.RunsStayInStep | src/sv2/connection.rs:735-813 | the invariant behind both, over opening, refusal, broadcast, retarget, replies and closing |
| Sv2Channels.SendKeepsInStep | src/sv2/connection.rs:454-528 | sending a job, clean or not, with the pending SetTarget first, keeps miner and server in step |
| Sv2Channels.TellTargetKeepsInStep | src/sv2/connection.rs:1110-1121 | a new difficulty moves exactly the jobs the miner lets follow the channel's target |
| Sv2Channels.JobIdsGoRound | src/sv2/connection.rs:93-97 | in every run the i-th announced job has id 1 + i mod (2^32 - 1) |
| Sv2Connections.ResolvedVersion | src/sv2/connection.rs:1163-1183 | an accepted version has the submission's bits inside the mask, the job's outside, and never touches a required bit |
| Sv2Connections.OpeningHasTarget | src/sv2/connection.rs:1098-1108 | the opening difficulty is within the bounds, not below the start, and has a target |
| Sv2Connections.Sv2Connection.AllocateJobId | src/sv2/connection.rs:93-97 | hands out the next id of the circle |
| Sv2Connections.Sv2Connection.RememberShare | src/sv2/connection.rs:99-111 | answers whether the key is new, and moves the window accordingly |
| Sv2Connections.Sv2Connection.SendJobToChannel | src/sv2/connection.rs:439-532 | the new state and messages, an error after the id for an unknown channel, the pruning order a sort by age, the miner still in step |
| Sv2Connections.Sv2Connection.SendJobToAllChannels | src/sv2/connection.rs:538-552 | every open channel gets the job exactly once, in whatever order the map is walked, each clean when its rule says, each pruning order a sort by age |
| Sv2Connections.Sv2Connection.RetargetChannel | src/sv2/connection.rs:735-813 | the share is recorded, the channel's controller asked, and its answer told with the current template again, the pruning order a sort by age; nothing for an unknown channel |
| Sv2Connections.Sv2Connection.HandleOpenExtendedChannel | src/sv2/connection.rs:351-437 | refused iff more extranonce is needed than configured; otherwise the id, the target of the difficulty its hash rate and the configuration give, a controller and a first job |
| Sv2Connections.Sv2Connection.HandleCloseChannel | src/sv2/connection.rs:280-349 | the channel goes on both sides |
| Sv2Connections.Refusal | src/sv2/connection.rs:554-618 | each refusal iff its check is the first to fail, in order: channel, extranonce size, job, version, duplicate |
| Sv2Connections.Sv2Connection.CheckSubmission | src/sv2/connection.rs:554-618 | answers exactly that refusal; the window remembers the key iff there is none |
| Sv2Connections.Sv2Connection.HandleSubmitExtended | src/sv2/connection.rs:554-715 | a refused share is answered so; any other fails iff validation does, is accepted iff its outcome against the target the miner was told is a hit or a block, and is too low otherwise; its key is remembered, an accepted one is recorded for a retarget, and a block goes on to submission |
| Sv2Connections.SetChannelDifficulty | src/sv2/connection.rs:1110-1121 | the loop retargets exactly the jobs that follow the channel |
| Sv2Connections.PruneExtraJobs | src/sv2/connection.rs:1127-1146 | the sort and the walk drop what the specification drops |
| Sessions.SessionState.Push | src/stratum.rs:1507-1550 | the job made, the counter, the difficulty and the newest 32 of the queue |
| Sessions.SessionState.MarkJobsStaleBlock | src/stratum.rs:1466-1472 | every queued job becomes stale and the queue is empty |
| Sessions.SessionState.Find | src/stratum.rs:1552-1561 | the newest fresh job of an id, or none |
| Sessions.SessionState.Remember | src/stratum.rs:1018-1032 | a key is a duplicate iff it is in the window, which moves accordingly |
| Sessions.SessionState.OnAuthorize | src/stratum.rs:515-530 | the session is reset and the bootstrap is in flight |
| Sessions.SessionState.OnCurrentJob | src/stratum.rs:534-567 | the first job is pushed if the bootstrap is still this task's to send, or given up when no template is ready |
| Sessions.SessionState.OnTemplate | src/stratum.rs:249-303 | skip, wait, or push, with the claim of the bootstrap always succeeding where it is asserted |
| Sessions.SessionState.Retarget | src/stratum.rs:360-390 | the new difficulty and the newest template again |
| Sessions.SessionState.OnSuggestion | src/stratum.rs:728-765 | a suggestion changes the difficulty, and pushes a job only after the bootstrap |
| SessionSteps.BootstrapOnce | src/stratum.rs:249-323 | in every interleaving at most one bootstrap is pushed, it is the first job, every other push finds it delivered, complete and in flight never both |
| SessionSteps.WaitIsAttended | src/stratum.rs:249-255 | whoever waits for the bootstrap waits for a task that is fetching or delivering it, until the connection closes |
| SessionSteps.StepKeepsHandshake | src/stratum.rs:515-567 | each critical section, delivery and loss keeps the handshake invariant |
| SessionSteps.QueueAfterPush | src/stratum.rs:1544-1548 | a push to the log changes the queue by appending and trimming, or by starting over when clean |
| SessionSteps.StaleAfterPush | src/stratum.rs:1466-1472 | a job is stale iff one of the 32 pushes after it was clean |
| SessionRuns.QueueIsRecent | src/stratum.rs:1507-1550 | in every interleaving the queue is the pushes since the last clean one, at most 32, each with its extranonce and its difficulty's target |
| SessionRuns.QueuedIdsAreDistinct | src/stratum.rs:1552-1561 | no two queued jobs share an id, and looking an id up finds that very job |
| SessionRuns.StepMixesExactly | src/stratum.rs:263-303 | from a queue on one parent, a step leaves it iff it is the notify task pushing, without cleaning, a template off the newest job's parent; no other section can |
| SessionRuns.OneParentExactly | src/stratum.rs:1474-1480 | in every interleaving the queue is on one parent at every moment iff no step mixes |
| SessionRuns.MixableExactly | src/stratum.rs:1482-1493 | some template could mix iff the last parent noted is not the newest queued job's |
| SessionRuns.OneParent | src/stratum.rs:1474-1480 | a condition on the templates alone that suffices: no parent returns after it was replaced |
| SessionRuns.LateNoteMixesParents | src/stratum.rs:716-777 | for every accepted extranonce1, difficulty and templates, a run that mixes: a suggestion's note arrives after the notify task's, and a template on the old parent joins the queue |
| SessionRuns.CandidateExactly | src/stratum.rs:1097-1107 | a found block is handed on iff none of the 32 pushes after its job was clean |
| SessionRuns.CurrentBlockLostExactly | src/stratum.rs:1097-1107 | while its parent is kept, a found block is lost iff one of the 32 pushes after its job was clean without need |
| SessionRuns.NeedlessCleanExactly | src/stratum.rs:1474-1480 | a push on the newest job's parent is clean iff the template does not allow old shares or the last parent noted is another |
| SessionRuns.LateNoteLosesBlock | src/stratum.rs:1482-1493 | for every accepted extranonce1, difficulty and templates, a run in which a late note does that and a block on the current parent is lost |
| SessionRuns.EvictedJobStaysFresh | src/stratum.rs:1466-1472 | for every accepted extranonce1, difficulty and templates: 33 later templates push a job out, and a block on it goes on although its parent was then replaced |
| LineReader.LineLengthMeaning | src/stratum.rs:1808-1822 | a line ends at its first newline or at the end of the input |
| LineReader.ReadLimitedLine | src/stratum.rs:1790-1831 | for any chunking: the first line iff it is within the limit, otherwise TooLong with a count between the limit and the line; the buffer never exceeds the limit; exactly what is reported is consumed |
| LineReader.ReadLines | src/stratum.rs:433-456 | successive reads give the input's lines in order up to the first one over the limit |
| LineReader.LinesRejoin | src/stratum.rs:1790-1831 | the lines concatenate to the input |
| TokenBucket.NotifyBucket.TryConsume | src/stratum.rs:1278-1293 | refill, cap, and take one token if there is one |
| TokenBucket.GrantsWithin | src/stratum.rs:1278-1293 | over any clock: grants plus what is left fit the capacity plus the refill of the clock's forward steps |
| TokenBucket.StretchBound | src/stratum.rs:1256-1293 | in every stretch of a run whose clock does not go back, at most capacity + elapsed / refill calls succeed; the level stays within 0 and the capacity |
| TokenBucket.GrantedAfterPeriod | src/stratum.rs:1278-1293 | a call a full refill period after the last succeeds |
| TokenBucket.ElapsedBoundExactly | src/stratum.rs:1271-1293 | the grants of every stretch are bounded by capacity + elapsed / refill, for every capacity of at least 1, iff the clock never goes back |
| TokenBucket.ClockGoingBackIsCredited | src/stratum.rs:1283-1285 | an instance: 3 grants in 10 ms where 2 are allowed |
| Vardiff.FloorLog2Meaning | src/vardiff.rs:99-101 | the exponent brackets the value between two powers of two |
| Vardiff.ChosenIsNearest | src/vardiff.rs:94-108 | no power of two is nearer than the chosen one |
| Vardiff.NearestBounds | src/vardiff.rs:94-108 | the result is within the bounds and within 2/3 and 4/3 of the clamped value |
| Vardiff.NearestMonotone | src/vardiff.rs:94-108 | a larger value is never rounded to a smaller one |
| Vardiff.VardiffController.MaybeRetarget | src/vardiff.rs:47-92 | the answer and the new averages, the answer within the bounds |
| Vardiff.RetargetEvaluates | src/vardiff.rs:65-92 | a due retarget over cached shares is one evaluation of their measured rate |
| Vardiff.GapShrinks | src/vardiff.rs:73-79 | under a constant rate the average's error shrinks by 3/4 each time |
| Vardiff.NoOscillation | src/vardiff.rs:81-91 | after the first adopted change all later ones go one way by at least half as much again, so k of them need 1.5^k * min <= max |
| Vardiff.SteadyRunEvaluates | src/vardiff.rs:36-92 | a run of retargets due and measuring one rate, with any shares recorded in between, is that many evaluations, each answer an adopted change |
| Vardiff.RunsDoNotOscillate | src/vardiff.rs:36-92 | so in every such run, once the first retarget has answered, all later answers go one way, and k answers need 1.5^(k - 1) * min <= max |
| Vardiff.SettledAccuracy | src/vardiff.rs:81-91 | after any evaluation the difficulty is within 4/9 and 2 of what the average asks for |
| Vardiff.OfflineStepDrops | src/vardiff.rs:54-63 | one offline step divides by at least 4.5 or lands on the rounded minimum; it raises iff that is above the current difficulty |
| Vardiff.RetargetStepsOffline | src/vardiff.rs:47-63 | a due retarget past 120 s with nothing cached takes the difficulty to the next offline one and only notes the time |
| Vardiff.OfflineStops | src/vardiff.rs:54-63 | the offline steps stop within as many steps as 4.5 divides the difficulty down to the minimum |
| Vardiff.SilentMinerSettles | src/vardiff.rs:47-63 | so do the retargets themselves, due in turn, of a miner that never submits |
| Vardiff.MinimumIsKept | src/vardiff.rs:94-108 | the rounded minimum is the minimum iff it rounds down to a power of two or there is no room above |
| Vardiff.PowerOfTwoRoundsDown | src/vardiff.rs:99-106 | a power of two rounds to itself |
| Vardiff.OfflineStepCanRaise | src/vardiff.rs:54-63 | with minimum 7 the offline step goes from 7 to 8 |
| Vardiff.SilenceMattersExactly | src/vardiff.rs:40-72 | two due times can lead to different answers or averages iff nothing was ever cached, the offline step would change the difficulty, and a retarget falls due before the offline age |
| EndToEnd.Sv1BlockIsValid | src/stratum.rs:1097-1107 | in every interleaving a block handed on is a valid candidate with the session's extranonce, none of the next 32 pushes clean |
| EndToEnd.Sv2BlockIsValid | src/sv2/connection.rs:834-842 | in every run a block on a job still accepted is a valid candidate with the channel's prefix |
| PublishedJobs.PublishedJobsAreMinable | src/template.rs:671-731 | over every run of answers that describe their transactions, every published job, fast ones included, has the shape block assembly needs |
| PublishedJobs.CurrentStaysPublished | src/template.rs:237-239 | under every interleaving the job that can be read is one of those published |
| PublishedJobs.OfferedJobs | src/template.rs:233-239 | under every interleaving, whatever ready job a session takes has that shape and obeys the contextual rules |
| EndToEnd.Sv1JobsAreBrought | src/stratum.rs:249-303 | over every interleaving a session only sends jobs on templates it took from the engine |
| EndToEnd.Sv2JobsAreBrought | src/sv2/connection.rs:169-190 | over every run a connection only holds jobs on templates it took from the engine |
| EndToEnd.Sv1BlockExtendsChain | src/stratum.rs:1097-1107 | engine and session interleaved with an honest node: a block handed on is a valid candidate at the next height, with the required bits met by its hash and a time above the median time past |
| EndToEnd.Sv2BlockExtendsChain | src/sv2/connection.rs:834-842 | the same for a block on any job an SV2 connection still accepts |

## Left out

- SHA-256, the Noise handshake, SV2 binary codecs, JSON and hexadecimal text: external or textual; the model works on bytes and decoded fields.
- Rounding of `f64`, and with it `log2` at the edge of a power of two: differences are over the reals.
- TCP, ZMQ and RPC plumbing, `submit_block` retries, logging, the HTTP API, metrics, latency probes and configuration loading: I/O and thin wrappers.
- `last_longpollid`, network difficulty, miner labels, reject categories and `txid_partial_root`: they feed no decision the model makes; the txid root enters the template key as an opaque hash.
- The P2P handshake, `parse_inv_block_hashes` and the compact-block arm: they end in the same announcement call as the headers arm.
- SV1 version masks, the stale-share reasons and re-authorisation of a session: the bootstrap handshake is stated for a session authorised once.
- SV1 messages as text and the order in which they reach the wire: they are sent after the lock is released, so no claim about the miner's view is made there.
- TemplateEngines.TemplateEngine.HandleHeaders: nothing else runs during the batch; races with other tasks are the subject of EngineSteps.
- TemplateEngines.GbtKeepsCoherence: assumes heights and mintimes of at least 1, as every template after the genesis block has.
- Consensus.PublishedJobsAreContextual: the retarget rule at a period boundary is a parameter, since no fast job is built across one.
- Sessions.SessionState.MarkJobsStaleBlock: the shared staleness flag of a job is a set of job serials in the session, not a cell inside the job.
- Sv2Connections.Sv2Connection.HandleOpenExtendedChannel: the worker label and the group channel are not modelled.
- Sv2Connections.Sv2Connection.RetargetChannel: the timer's walk over all channels is this call once per channel; a channel's controller is kept beside the channels, and the run-level results hold for any answer it could give.
- TemplateEngines.UpdateFrom: keys are compared by their parts, not as one text joined by colons.
- LineReader.ReadLimitedLine: a read error ends the connection and is not modelled.
