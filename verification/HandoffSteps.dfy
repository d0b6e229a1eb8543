/** The transactions of the handoff protocol as functions on the tables: what each accepts and
    what it writes (handoff.go, handoff_launch.go, handoff_followthrough.go,
    handoff_resolution.go). A rejected transaction writes nothing. */
module HandoffSteps {
  import opened Wrappers
  import opened Text
  import opened Tables
  import opened HandoffRecords
  import opened HandoffContinuity
  import opened ActiveBranch
  import opened ContinueAssessment

  /** A newly generated id: never blank and never used before. */
  ghost predicate FreshId(db: Db, id: Id) {
    && !Blank(id)
    && (forall p :: p in db.packets ==> p.handoffID != id)
    && (forall c :: c in db.checkpoints ==> c.checkpointID != id)
    && (forall l :: l in db.launches ==> l.attemptID != id)
  }

  // ---- create ---------------------------------------------------------------------------------

  datatype CreateRequest = CreateRequest(targetWorker: Worker, reason: string, mode: Mode,
                                         notes: seq<string>)

  datatype CreateResult = CreateError | CreateBlocked | CreateReused(packet: Packet)
                        | CreateNew(packet: Packet)

  function NormalizeMode(mode: Mode): Mode {
    if mode == OtherMode then Resume else mode
  }

  /** hasValidResumableHandoffCheckpoint */
  predicate ValidResumable(capsule: Capsule, cp: Option<Checkpoint>) {
    && cp.Some?
    && cp.value.isResumable
    && cp.value.taskID == capsule.taskID
    && cp.value.briefID != "" && cp.value.briefID == capsule.briefID
    && !(cp.value.intentID != "" && capsule.intentID != "" && cp.value.intentID != capsule.intentID)
    && cp.value.phase == capsule.phase
  }

  predicate CanCreateCheckpoint(a: Assessment) {
    && a.outcome == Safe
    && a.drift != DriftMajor
    && a.capsule.briefID != ""
    && a.capsule.phase !in {Executing, AwaitingDecision, Blocked}
    && !IsRunning(a.latestRun)
  }

  /** validateHandoffSafety finds no reason to block. */
  predicate HandoffSafe(briefs: set<Id>, a: Assessment) {
    var reusable := ValidResumable(a.capsule, a.latestCheckpoint);
    && (a.outcome == Safe || (a.outcome in {BlockedDrift, NeedsDecision} && reusable))
    && a.drift != DriftMajor
    && !IsRunning(a.latestRun)
    && a.capsule.phase != Executing
    && a.capsule.briefID != "" && a.capsule.briefID in briefs
    && (reusable || CanCreateCheckpoint(a))
  }

  function RunIDOf(run: Option<Run>): Id {
    if run.Some? then run.value.runID else ""
  }

  function RunStatusOf(run: Option<Run>): RunStatus {
    if run.Some? then run.value.status else RunUnset
  }

  /** createCheckpoint with the resumable flag set. */
  function HandoffCheckpoint(capsule: Capsule, run: Option<Run>, id: Id): Checkpoint {
    Checkpoint(id, capsule.taskID, RunIDOf(run), capsule.phase, capsule.anchor, capsule.intentID,
               capsule.briefID, true)
  }

  function BuildPacket(capsule: Capsule, cp: Checkpoint, run: Option<Run>, target: Worker,
                       req: CreateRequest, id: Id): Packet
  {
    Packet(id, capsule.taskID, PacketCreated, target, NormalizeMode(req.mode),
           TrimSpace(req.reason), capsule.phase, cp.checkpointID, capsule.briefID,
           capsule.intentID, capsule.version, cp.anchor, cp.isResumable, RunIDOf(run),
           RunStatusOf(run), req.notes, None, Unset)
  }

  predicate CanReusePacket(db: Db, packet: Packet, capsule: Capsule, a: Assessment,
                           target: Worker, req: CreateRequest)
  {
    var cp := GetCheckpoint(db.checkpoints, packet.checkpointID);
    && packet.status in {PacketCreated, PacketAccepted}
    && !(a.branch.resolution.Some? && a.branch.resolution.value.handoffID == packet.handoffID)
    && packet.taskID == capsule.taskID && packet.targetWorker == target
    && packet.mode == NormalizeMode(req.mode)
    && TrimSpace(packet.reason) == TrimSpace(req.reason)
    && packet.notes == req.notes
    && packet.briefID == capsule.briefID && packet.intentID == capsule.intentID
    && packet.phase == capsule.phase && packet.capsuleVersion == capsule.version
    && packet.latestRunID == RunIDOf(a.latestRun)
    && packet.latestRunStatus == RunStatusOf(a.latestRun)
    && ValidResumable(capsule, cp)
    && packet.anchor == cp.value.anchor
  }

  /** The checkpoint the transaction reuses: the task's newest one, if it is still the assessed
      one and still fits the capsule. */
  function ReusedCheckpoint(db: Db, taskID: Id, capsule: Capsule, a: Assessment): Option<Checkpoint> {
    var latest := LatestCheckpoint(db.checkpoints, taskID);
    if a.latestCheckpoint.Some? && latest.Some?
      && latest.value.checkpointID == a.latestCheckpoint.value.checkpointID
      && ValidResumable(capsule, latest)
    then latest else None
  }

  function Target(req: CreateRequest): Worker {
    if req.targetWorker == Unset then Claude else req.targetWorker
  }

  /** CreateHandoff, with the assessment it took before its transaction began. */
  function CreateHandoffOn(db: Db, taskID: Id, req: CreateRequest, a: Assessment, packetID: Id,
                           checkpointID: Id): (CreateResult, Db)
  {
    if Target(req) != Claude || taskID !in db.capsules then (CreateError, db)
    else if !HandoffSafe(db.briefs, a) then (CreateBlocked, db)
    else
      var capsule := db.capsules[taskID];
      var latest := LatestPacket(db.packets, taskID);
      if capsule.version != a.capsule.version || capsule.briefID !in db.briefs then
        (CreateBlocked, db)
      else if latest.Some? && CanReusePacket(db, latest.value, capsule, a, Claude, req) then
        (CreateReused(latest.value), db)
      else if a.latestCheckpoint.Some? && LatestCheckpoint(db.checkpoints, taskID).None? then
        (CreateError, db)
      else
        var reused := ReusedCheckpoint(db, taskID, capsule, a);
        var cp := if reused.Some? then reused.value
                  else HandoffCheckpoint(capsule, a.latestRun, checkpointID);
        var packet := BuildPacket(capsule, cp, a.latestRun, Claude, req, packetID);
        (CreateNew(packet),
         db.(packets := db.packets + [packet],
             checkpoints := if reused.Some? then db.checkpoints else db.checkpoints + [cp]))
  }

  // ---- accept ---------------------------------------------------------------------------------

  datatype AcceptResult = AcceptError | AlreadyAccepted | NewlyAccepted

  function AcceptHandoffOn(db: Db, taskID: Id, handoffID: Id, acceptor: Worker, notes: seq<string>,
                           now: Time): (AcceptResult, Db)
  {
    var packet := GetPacket(db.packets, handoffID);
    if packet.None? || packet.value.taskID != taskID then (AcceptError, db)
    else
      var acceptedBy := if acceptor == Unset then packet.value.targetWorker else acceptor;
      if packet.value.status == PacketAccepted then
        if packet.value.acceptedBy != Unset && acceptedBy != Unset
          && packet.value.acceptedBy != acceptedBy
        then (AcceptError, db)
        else (AlreadyAccepted, db)
      else if packet.value.status != PacketCreated || taskID !in db.capsules then (AcceptError, db)
      else
        (NewlyAccepted,
         db.(packets := UpdateAccepted(db.packets, handoffID, acceptedBy, notes, now)))
  }

  // ---- prepare launch -------------------------------------------------------------------------

  /** The attempt a launch request writes before the launcher is called. */
  function RequestedLaunch(taskID: Id, packet: Packet, attemptID: Id): Launch {
    Launch(attemptID, packet.handoffID, taskID, packet.targetWorker, Requested, "", 0)
  }

  /** Exactly when a launch of the packet may be requested: no ordering of checks, no error
      path, just the conditions. */
  predicate LaunchPermitted(db: Db, taskID: Id, packet: Packet, target: Worker, obs: Observation)
    requires taskID in db.capsules
  {
    var a := Assess(db, taskID, obs);
    var last := LatestLaunch(db.launches, packet.handoffID);
    var cp := GetCheckpoint(db.checkpoints, packet.checkpointID);
    && packet.taskID == taskID
    && target in {Unset, packet.targetWorker}
    && packet.targetWorker == Claude
    && packet.status != PacketBlocked
    && packet.isResumable
    && (last.None? || last.value.status == LaunchFailed)
    && LatestResolution(db.resolutions, packet.handoffID).None?
    && a.outcome == Safe
    && packet.briefID != "" && packet.briefID in db.briefs
    && packet.checkpointID != "" && cp.Some?
    && cp.value.taskID == taskID && cp.value.isResumable
    && (cp.value.briefID == "" || cp.value.briefID == packet.briefID)
  }

  /** resolveLaunchPacket: an empty id means the active branch. */
  function LaunchPacket(db: Db, taskID: Id, handoffID: Id): Option<Packet> {
    if handoffID == "" then ActivePacket(db, taskID) else GetPacket(db.packets, handoffID)
  }

  /** What a prepare transaction hands to the launcher call and to the finalize transaction. */
  datatype PreparedLaunch = PreparedLaunch(taskID: Id, handoffID: Id, attemptID: Id)

  datatype PrepareResult = PrepareError | NotPrepared | Prepared(packet: Packet, launch: Launch)

  /** prepareHandoffLaunch: one REQUESTED attempt is written, or nothing is. */
  function PrepareLaunchOn(db: Db, taskID: Id, handoffID: Id, target: Worker, obs: Observation,
                           attemptID: Id): (PrepareResult, Db)
  {
    if taskID !in db.capsules then (PrepareError, db)
    else
      var packet := LaunchPacket(db, taskID, handoffID);
      if packet.None? || !LaunchPermitted(db, taskID, packet.value, target, obs) then
        (NotPrepared, db)
      else
        var launch := RequestedLaunch(taskID, packet.value, attemptID);
        (Prepared(packet.value, launch), db.(launches := db.launches + [launch]))
  }

  // ---- finalize launch ------------------------------------------------------------------------

  /** What the launcher returned. `failed` is its error return. */
  datatype LauncherOutput = LauncherOutput(launchID: string, endedAt: Time, summary: string,
                                           stdout: string, failed: bool)

  /** The launcher always names its launch and stamps its end, whether or not it fails
      (adapters/claude/launcher.go:73-117). */
  predicate LauncherKeepsItsContract(out: LauncherOutput) {
    !Blank(out.launchID) && out.endedAt != 0
  }

  function FinalLaunch(l: Launch, out: LauncherOutput): Launch {
    l.(status := if out.failed then LaunchFailed else LaunchCompleted,
       launchID := TrimSpace(out.launchID), endedAt := out.endedAt)
  }

  /** summarizeAcknowledgment finds text exactly when the summary or stdout has any. */
  function AckFor(taskID: Id, handoffID: Id, out: LauncherOutput, ackID: Id): Ack {
    Ack(ackID, handoffID, TrimSpace(out.launchID), taskID, Claude,
        if Blank(out.summary) && Blank(out.stdout) then AckUnavailable else AckCaptured)
  }

  /** recordContinuityTransitionReceipt: a receipt exactly when the transition is material. */
  function WithReceipt(db: Db, before: Snapshot, after: Snapshot, receipt: TransitionReceipt): Db {
    if MaterialTransition(before, after) then db.(receipts := db.receipts + [receipt]) else db
  }

  /** The outcome written for an attempt that is still REQUESTED. */
  function Outcomes(db: Db, prepared: PreparedLaunch, launch: Launch, out: LauncherOutput,
                    ackID: Id): Db
  {
    var written := db.(launches := UpdateLaunch(db.launches, FinalLaunch(launch, out)));
    if out.failed then written
    else written.(acks := db.acks + [AckFor(prepared.taskID, prepared.handoffID, out, ackID)])
  }

  /** finalizeHandoffLaunch for what a prepare transaction returned. */
  function FinalizeLaunchOn(db: Db, prepared: PreparedLaunch, out: LauncherOutput, ackID: Id,
                            receiptID: Id): (Result<Launch>, Db)
  {
    var launch := GetLaunch(db.launches, prepared.attemptID);
    if prepared.taskID !in db.capsules || launch.None? || launch.value.status != Requested then
      (Err, db)
    else
      var written := Outcomes(db, prepared, launch.value, out, ackID);
      var receipt := TransitionReceipt(receiptID, prepared.taskID, HandoffLaunchTransition,
                                       prepared.attemptID, prepared.handoffID);
      (Ok(FinalLaunch(launch.value, out)),
       WithReceipt(written, SnapshotAt(db, prepared.taskID), SnapshotAt(written, prepared.taskID),
                   receipt))
  }

  // ---- follow-through -------------------------------------------------------------------------

  function DefaultFollowThroughSummary(kind: FollowThroughKind): string {
    match kind
    case ProofOfLife => "post-launch downstream proof of life observed"
    case ContinuationConfirmed => "operator confirmed downstream continuation occurred"
    case ContinuationUnknown => "downstream follow-through remains unknown"
    case StalledReview => "downstream follow-through appears stalled and needs review"
    case OtherFollowThrough => "handoff follow-through recorded"
  }

  function FollowThroughSummary(kind: FollowThroughKind, requested: string): string {
    if Blank(requested) then DefaultFollowThroughSummary(kind) else TrimSpace(requested)
  }

  predicate FollowThroughPosture(c: Continuity) {
    c.targetWorker == Claude && LaunchedState(c.state)
  }

  predicate ReplayableFollowThrough(a: BranchRecords, kind: FollowThroughKind, summary: string) {
    var latest := a.followThrough;
    && latest.Some?
    && FollowThroughPosture(ContinuityOf(a))
    && latest.value.kind == kind
    && latest.value.handoffID == ContinuityOf(a).handoffID
    && latest.value.attemptID == ContinuityOf(a).attemptID
    && SameSummary(summary, latest.value.summary)
  }

  datatype FollowThroughResult = FollowThroughError | FollowThroughReplayed(record: FollowThrough)
                               | FollowThroughRecorded(record: FollowThrough)

  function FollowThroughRecord(a: BranchRecords, taskID: Id, kind: FollowThroughKind,
                               summary: string, id: Id): FollowThrough
    requires a.packet.Some? && a.launch.Some?
  {
    FollowThrough(id, a.packet.value.handoffID, a.launch.value.attemptID, a.launch.value.launchID,
                  taskID, Claude, kind, FollowThroughSummary(kind, summary))
  }

  /** A launched posture comes from a packet and a completed launch. */
  lemma PostureHasLaunch(r: BranchRecords)
    requires FollowThroughPosture(ContinuityOf(r))
    ensures r.packet.Some? && r.launch.Some? && r.launch.value.status == LaunchCompleted
  {
  }

  /** RecordHandoffFollowThrough. `pre` is the assessment taken before the transaction; only the
      posture check is repeated inside it. */
  function FollowThroughOn(db: Db, taskID: Id, pre: BranchRecords, kind: FollowThroughKind,
                           summary: string, recordID: Id): (FollowThroughResult, Db)
  {
    if taskID !in db.capsules || !FollowThroughPosture(ContinuityOf(pre)) then
      (FollowThroughError, db)
    else if ReplayableFollowThrough(pre, kind, summary) then
      (FollowThroughReplayed(pre.followThrough.value), db)
    else
      var a := RecordsOf(db, taskID);
      if !FollowThroughPosture(ContinuityOf(a)) || a.packet.None? || a.launch.None? then
        (FollowThroughError, db)
      else
        var record := FollowThroughRecord(a, taskID, kind, summary, recordID);
        (FollowThroughRecorded(record), db.(followThroughs := db.followThroughs + [record]))
  }

  // ---- resolution -----------------------------------------------------------------------------

  function DefaultResolutionSummary(kind: ResolutionKind): string {
    match kind
    case Abandoned => "operator explicitly abandoned the Claude handoff branch"
    case SupersededByLocal =>
      "operator explicitly returned canonical control to the local Tuku branch"
    case ClosedUnproven =>
      "operator explicitly closed the Claude handoff branch without downstream completion proof"
    case ReviewedStale =>
      "operator reviewed the Claude handoff branch as stale and closed it"
  }

  function ResolutionSummary(kind: ResolutionKind, requested: string): string {
    if Blank(requested) then DefaultResolutionSummary(kind) else TrimSpace(requested)
  }

  /** validateHandoffResolutionTarget accepts the request. */
  predicate ResolutionTarget(c: Continuity, handoffID: Id) {
    && ActiveState(c.state)
    && c.handoffID != ""
    && c.targetWorker == Claude
    && (handoffID == "" || handoffID == c.handoffID)
  }

  predicate ReplayableResolution(a: BranchRecords, handoffID: Id, kind: ResolutionKind, summary: string) {
    var latest := a.resolution;
    && latest.Some?
    && ContinuityOf(a).handoffID == ""
    && (handoffID == "" || handoffID == latest.value.handoffID)
    && latest.value.kind == kind
    && SameSummary(summary, latest.value.summary)
  }

  datatype ResolveResult = ResolveError | ResolveReplayed(record: Resolution)
                         | ResolveRecorded(record: Resolution)

  function ResolutionRecord(a: BranchRecords, taskID: Id, kind: ResolutionKind, summary: string,
                            id: Id): Resolution
    requires a.packet.Some?
  {
    Resolution(id, a.packet.value.handoffID,
               if a.launch.Some? then a.launch.value.attemptID else "",
               if a.launch.Some? then a.launch.value.launchID else "",
               taskID, Claude, kind, ResolutionSummary(kind, summary))
  }

  /** What the call that records a resolution answers: the branch it found, assessed with the new
      record. */
  function RepliedContinuity(a: BranchRecords, record: Resolution): Continuity {
    ContinuityOf(a.(resolution := Some(record)))
  }

  /** RecordHandoffResolution. `pre` is the assessment taken before the transaction; only the
      target check is repeated inside it. */
  function ResolveOn(db: Db, taskID: Id, pre: BranchRecords, handoffID: Id, kind: ResolutionKind,
                     summary: string, resolutionID: Id, receiptID: Id): (ResolveResult, Db)
  {
    if taskID !in db.capsules then (ResolveError, db)
    else if ReplayableResolution(pre, handoffID, kind, summary) then
      (ResolveReplayed(pre.resolution.value), db)
    else if !ResolutionTarget(ContinuityOf(pre), handoffID) then (ResolveError, db)
    else
      var a := RecordsOf(db, taskID);
      if !ResolutionTarget(ContinuityOf(a), handoffID) || a.packet.None? then
        (ResolveError, db)
      else
        var record := ResolutionRecord(a, taskID, kind, summary, resolutionID);
        var written := db.(resolutions := db.resolutions + [record]);
        var receipt := TransitionReceipt(receiptID, taskID, HandoffResolutionTransition,
                                         resolutionID, record.handoffID);
        (ResolveRecorded(record),
         WithReceipt(written, SnapshotAt(db, taskID), SnapshotAt(written, taskID), receipt))
  }
}
