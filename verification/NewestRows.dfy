/** The "latest" queries of the store answer with the row of the task or handoff that no later row
    of it follows; each query answers with some matching row or with none by its own contract. */
module NewestRows {
  import opened Wrappers
  import opened Tables
  import opened HandoffRecords

  lemma LatestRunIs(runs: seq<Run>, i: nat)
    requires i < |runs|
    requires forall j :: i < j < |runs| ==> runs[j].taskID != runs[i].taskID
    ensures LatestRun(runs, runs[i].taskID) == Some(runs[i])
  {
    LastWhereIs(runs, (x: Run) => x.taskID == runs[i].taskID, i);
  }

  lemma LatestCheckpointIs(checkpoints: seq<Checkpoint>, i: nat)
    requires i < |checkpoints|
    requires forall j :: i < j < |checkpoints| ==> checkpoints[j].taskID != checkpoints[i].taskID
    ensures LatestCheckpoint(checkpoints, checkpoints[i].taskID) == Some(checkpoints[i])
  {
    LastWhereIs(checkpoints, (x: Checkpoint) => x.taskID == checkpoints[i].taskID, i);
  }

  lemma LatestActionIs(actions: seq<Action>, i: nat)
    requires i < |actions|
    requires forall j :: i < j < |actions| ==> actions[j].taskID != actions[i].taskID
    ensures LatestAction(actions, actions[i].taskID) == Some(actions[i])
  {
    LastWhereIs(actions, (x: Action) => x.taskID == actions[i].taskID, i);
  }

  lemma LatestPacketIs(packets: seq<Packet>, i: nat)
    requires i < |packets|
    requires forall j :: i < j < |packets| ==> packets[j].taskID != packets[i].taskID
    ensures LatestPacket(packets, packets[i].taskID) == Some(packets[i])
  {
    LastWhereIs(packets, (x: Packet) => x.taskID == packets[i].taskID, i);
  }

  lemma LatestLaunchIs(launches: seq<Launch>, i: nat)
    requires i < |launches|
    requires forall j :: i < j < |launches| ==> launches[j].handoffID != launches[i].handoffID
    ensures LatestLaunch(launches, launches[i].handoffID) == Some(launches[i])
  {
    LastWhereIs(launches, (x: Launch) => x.handoffID == launches[i].handoffID, i);
  }

  lemma LatestAckIs(acks: seq<Ack>, i: nat)
    requires i < |acks|
    requires forall j :: i < j < |acks| ==> acks[j].handoffID != acks[i].handoffID
    ensures LatestAck(acks, acks[i].handoffID) == Some(acks[i])
  {
    LastWhereIs(acks, (x: Ack) => x.handoffID == acks[i].handoffID, i);
  }

  lemma LatestFollowThroughIs(fts: seq<FollowThrough>, i: nat)
    requires i < |fts|
    requires forall j :: i < j < |fts| ==> fts[j].handoffID != fts[i].handoffID
    ensures LatestFollowThrough(fts, fts[i].handoffID) == Some(fts[i])
  {
    LastWhereIs(fts, (x: FollowThrough) => x.handoffID == fts[i].handoffID, i);
  }

  lemma LatestResolutionIs(resolutions: seq<Resolution>, i: nat)
    requires i < |resolutions|
    requires forall j :: i < j < |resolutions| ==> resolutions[j].handoffID != resolutions[i].handoffID
    ensures LatestResolution(resolutions, resolutions[i].handoffID) == Some(resolutions[i])
  {
    LastWhereIs(resolutions, (x: Resolution) => x.handoffID == resolutions[i].handoffID, i);
  }

  lemma LatestResolutionByTaskIs(resolutions: seq<Resolution>, i: nat)
    requires i < |resolutions|
    requires forall j :: i < j < |resolutions| ==> resolutions[j].taskID != resolutions[i].taskID
    ensures LatestResolutionByTask(resolutions, resolutions[i].taskID) == Some(resolutions[i])
  {
    LastWhereIs(resolutions, (x: Resolution) => x.taskID == resolutions[i].taskID, i);
  }
}
