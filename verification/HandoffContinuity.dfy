/** What the operator is told about a handoff, derived from its records:
    launch_control.go and handoff_continuity.go. */
module HandoffContinuity {
  import opened Wrappers
  import opened HandoffRecords

  datatype ControlState = ControlNotApplicable | NotRequested | OutcomeUnknown
                        | ControlCompleted | ControlFailed

  datatype Disposition = RetryNotApplicable | RetryAllowed | RetryBlocked

  datatype Control = Control(handoffID: Id, attemptID: Id, launchID: Id, state: ControlState,
                             retry: Disposition)

  function AssessLaunchControl(packet: Option<Packet>, launch: Option<Launch>): Control {
    match packet
    case None => Control("", "", "", ControlNotApplicable, RetryNotApplicable)
    case Some(p) =>
      if p.targetWorker != Claude || p.status == PacketBlocked || !p.isResumable then
        Control(p.handoffID, "", "", ControlNotApplicable, RetryNotApplicable)
      else
        match launch
        case None => Control(p.handoffID, "", "", NotRequested, RetryAllowed)
        case Some(l) =>
          match l.status
          case LaunchCompleted =>
            Control(p.handoffID, l.attemptID, l.launchID, ControlCompleted, RetryBlocked)
          case LaunchFailed =>
            Control(p.handoffID, l.attemptID, l.launchID, ControlFailed, RetryAllowed)
          case _ =>
            Control(p.handoffID, l.attemptID, l.launchID, OutcomeUnknown, RetryBlocked)
  }

  datatype State = NotApplicable | AcceptedNotLaunched | PendingOutcome | FailedRetryable
                 | AckSeen | AckEmpty | AckLost
                 | FollowedProofOfLife | FollowedConfirmed | FollowedUnknown | FollowedStalled
                 | Resolved

  datatype Continuity = Continuity(handoffID: Id, targetWorker: Worker, state: State,
                                   attemptID: Id, launchID: Id, resolutionID: Id,
                                   downstreamProven: bool)

  /** The states in which a Claude branch owns continuity. */
  predicate ActiveState(state: State) {
    state != NotApplicable && state != Resolved
  }

  /** The states reached only after a durable launch completion. */
  predicate LaunchedState(state: State) {
    state in {AckSeen, AckEmpty, FollowedProofOfLife, FollowedConfirmed, FollowedUnknown,
              FollowedStalled}
  }

  function FollowedState(kind: FollowThroughKind): Option<State> {
    match kind
    case ProofOfLife => Some(FollowedProofOfLife)
    case ContinuationConfirmed => Some(FollowedConfirmed)
    case ContinuationUnknown => Some(FollowedUnknown)
    case StalledReview => Some(FollowedStalled)
    case OtherFollowThrough => None
  }

  predicate Matches(resolution: Option<Resolution>, packet: Packet) {
    resolution.Some? && resolution.value.handoffID == packet.handoffID
  }

  function AssessHandoffContinuity(packet: Option<Packet>, launch: Option<Launch>,
                                   ack: Option<Ack>, followThrough: Option<FollowThrough>,
                                   resolution: Option<Resolution>): Continuity
  {
    match packet
    case None => Continuity("", Unset, NotApplicable, "", "", "", false)
    case Some(p) =>
      if p.targetWorker != Claude || p.status != PacketAccepted || !p.isResumable then
        Continuity(p.handoffID, p.targetWorker, NotApplicable, "", "", "", false)
      else
        var control := AssessLaunchControl(packet, launch);
        var resolutionID := if Matches(resolution, p) then resolution.value.resolutionID else "";
        var base := Continuity(p.handoffID, p.targetWorker, NotApplicable, control.attemptID,
                               control.launchID, resolutionID, false);
        var followed := if followThrough.Some? then FollowedState(followThrough.value.kind) else None;
        if control.state == ControlCompleted && ack.Some? && followed.Some? then
          // The source returns here, before it looks at the resolution.
          base.(state := followed.value,
                downstreamProven := followed.value in {FollowedProofOfLife, FollowedConfirmed})
        else if Matches(resolution, p) then base.(state := Resolved)
        else
          match control.state
          case NotRequested => base.(state := AcceptedNotLaunched)
          case OutcomeUnknown => base.(state := PendingOutcome)
          case ControlFailed => base.(state := FailedRetryable)
          case ControlCompleted =>
            base.(state := if ack.None? then AckLost
                           else if ack.value.status == AckCaptured then AckSeen else AckEmpty)
          case ControlNotApplicable => base
  }

  /** A launch-ready packet never leaves continuity undetermined: it is NOT_APPLICABLE exactly
      when the packet is absent or is not an accepted, resumable Claude packet. */
  lemma NotApplicableIff(packet: Option<Packet>, launch: Option<Launch>, ack: Option<Ack>,
                         ft: Option<FollowThrough>, resolution: Option<Resolution>)
    ensures AssessHandoffContinuity(packet, launch, ack, ft, resolution).state == NotApplicable
       <==> !(packet.Some? && packet.value.targetWorker == Claude
              && packet.value.status == PacketAccepted && packet.value.isResumable)
  {
    if packet.Some? && launch.Some? {
      assert AssessLaunchControl(packet, launch).state != NotRequested;
    }
  }

  /** A recorded resolution of the branch is not always reported as RESOLVED: a completed,
      acknowledged launch with a recognised follow-through hides it, and nothing else does. */
  lemma ResolvedIff(packet: Packet, launch: Option<Launch>, ack: Option<Ack>,
                    ft: Option<FollowThrough>, resolution: Resolution)
    requires packet.targetWorker == Claude && packet.status == PacketAccepted && packet.isResumable
    requires resolution.handoffID == packet.handoffID
    ensures AssessHandoffContinuity(Some(packet), launch, ack, ft, Some(resolution)).state == Resolved
       <==> !(launch.Some? && launch.value.status == LaunchCompleted && ack.Some?
              && ft.Some? && ft.value.kind != OtherFollowThrough)
  {
    assert ft.Some? ==> (FollowedState(ft.value.kind).Some? <==> ft.value.kind != OtherFollowThrough);
  }

  /** A concrete branch whose resolution is hidden by an earlier follow-through record. */
  lemma ResolutionHiddenByFollowThrough()
    returns (packet: Packet, launch: Launch, ack: Ack, ft: FollowThrough, resolution: Resolution)
    ensures resolution.handoffID == packet.handoffID
    ensures AssessHandoffContinuity(Some(packet), Some(launch), Some(ack), Some(ft),
                                    Some(resolution)).state == FollowedUnknown
  {
    var anchor := RepoAnchor("", "", "", "", "", "");
    packet := Packet("hnd_1", "task", PacketAccepted, Claude, Resume, "", BriefReady, "chk_1",
                     "brf_1", "", 1, anchor, true, "", RunUnset, [], Some(1), Claude);
    launch := Launch("hlc_1", "hnd_1", "task", Claude, LaunchCompleted, "ext_1", 2);
    ack := Ack("hak_1", "hnd_1", "ext_1", "task", Claude, AckCaptured);
    ft := FollowThrough("hft_1", "hnd_1", "hlc_1", "ext_1", "task", Claude, ContinuationUnknown, "");
    resolution := Resolution("hrs_1", "hnd_1", "hlc_1", "ext_1", "task", Claude, Abandoned, "");
  }

  /** Downstream continuation is claimed only on recorded evidence behind a completed and
      acknowledged launch. */
  lemma DownstreamProvenOnlyWithEvidence(packet: Option<Packet>, launch: Option<Launch>,
                                         ack: Option<Ack>, ft: Option<FollowThrough>,
                                         resolution: Option<Resolution>)
    ensures var c := AssessHandoffContinuity(packet, launch, ack, ft, resolution);
      c.downstreamProven <==> c.state in {FollowedProofOfLife, FollowedConfirmed}
    ensures var c := AssessHandoffContinuity(packet, launch, ack, ft, resolution);
      c.downstreamProven ==>
        && launch.Some? && launch.value.status == LaunchCompleted && ack.Some?
        && ft.Some? && ft.value.kind in {ProofOfLife, ContinuationConfirmed}
  {
  }
}
