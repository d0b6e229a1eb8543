/** Which packet owns continuity: the selector of continuity.go:135-179, over the 12 newest
    packets of a task. */
module ActiveBranch {
  import opened Wrappers
  import opened Text
  import opened Tables
  import opened HandoffRecords

  /** How many packets the selector looks at. */
  const SCAN_LIMIT: nat := 12

  /** An accepted Claude packet without a resolution. */
  predicate Eligible(p: Packet, resolutions: seq<Resolution>) {
    && p.targetWorker == Claude
    && p.status == PacketAccepted
    && LatestResolution(resolutions, p.handoffID).None?
  }

  /** The first eligible packet of a newest-first list. */
  function FirstEligible(list: seq<Packet>, resolutions: seq<Resolution>): (r: Option<Packet>)
    ensures r.Some? ==> r.value in list && Eligible(r.value, resolutions)
    ensures r.None? <==> forall p :: p in list ==> !Eligible(p, resolutions)
  {
    if list == [] then None
    else if Eligible(list[0], resolutions) then Some(list[0])
    else
      var r := FirstEligible(list[1..], resolutions);
      assert list == [list[0]] + list[1..];
      r
  }

  function ActivePacket(db: Db, taskID: Id): (r: Option<Packet>)
    ensures r.Some? ==>
      && r.value in db.packets && r.value.taskID == taskID
      && Eligible(r.value, db.resolutions)
  {
    FirstEligible(ListPackets(db.packets, taskID, SCAN_LIMIT), db.resolutions)
  }

  /** Earlier list entries are not eligible, so the newest eligible packet wins. */
  lemma {:induction false} FirstEligibleIsFirst(list: seq<Packet>, resolutions: seq<Resolution>, i: nat)
    requires i < |list| && Eligible(list[i], resolutions)
    requires forall j :: 0 <= j < i ==> !Eligible(list[j], resolutions)
    ensures FirstEligible(list, resolutions) == Some(list[i])
  {
    if i > 0 {
      FirstEligibleIsFirst(list[1..], resolutions, i - 1);
    }
  }

  /** How many rows of the task come after position i. */
  function NewerCount(packets: seq<Packet>, taskID: Id, i: nat): nat
    requires i < |packets|
    decreases |packets|
  {
    if i == |packets| - 1 then 0
    else NewerCount(packets[..|packets| - 1], taskID, i)
         + (if packets[|packets| - 1].taskID == taskID then 1 else 0)
  }

  /** The listing holds exactly the task's packets that fewer than `limit` newer ones follow,
      each at the position given by the number of newer ones. */
  lemma {:induction false} ListPacketsPosition(packets: seq<Packet>, taskID: Id, limit: nat, i: nat)
    requires i < |packets| && packets[i].taskID == taskID
    ensures NewerCount(packets, taskID, i) < limit ==>
      && NewerCount(packets, taskID, i) < |ListPackets(packets, taskID, limit)|
      && ListPackets(packets, taskID, limit)[NewerCount(packets, taskID, i)] == packets[i]
    decreases |packets|
  {
    var last := packets[|packets| - 1];
    var rest := packets[..|packets| - 1];
    if i < |packets| - 1 && limit > 0 {
      assert rest[i] == packets[i];
      ListPacketsPosition(rest, taskID, if last.taskID == taskID then limit - 1 else limit, i);
    }
  }

  /** Every listed packet is one of the task's rows, at the position its newer rows give it. */
  lemma {:induction false} ListPacketsSource(packets: seq<Packet>, taskID: Id, limit: nat, k: nat)
    returns (i: nat)
    requires k < |ListPackets(packets, taskID, limit)|
    ensures i < |packets| && packets[i].taskID == taskID
    ensures NewerCount(packets, taskID, i) == k && packets[i] == ListPackets(packets, taskID, limit)[k]
    decreases |packets|
  {
    var last := packets[|packets| - 1];
    var rest := packets[..|packets| - 1];
    if last.taskID == taskID && k == 0 {
      i := |packets| - 1;
    } else if last.taskID == taskID {
      i := ListPacketsSource(rest, taskID, limit - 1, k - 1);
    } else {
      i := ListPacketsSource(rest, taskID, limit, k);
    }
  }

  /** A task has an active branch exactly when one of its 12 newest packets is an accepted,
      unresolved Claude packet; an older one is not seen. */
  lemma ActiveIffEligibleAmongNewest(db: Db, taskID: Id)
    ensures ActivePacket(db, taskID).Some? <==>
      exists i :: 0 <= i < |db.packets| && db.packets[i].taskID == taskID
        && Eligible(db.packets[i], db.resolutions)
        && NewerCount(db.packets, taskID, i) < SCAN_LIMIT
  {
    var list := ListPackets(db.packets, taskID, SCAN_LIMIT);
    forall i | 0 <= i < |db.packets| && db.packets[i].taskID == taskID
      && Eligible(db.packets[i], db.resolutions) && NewerCount(db.packets, taskID, i) < SCAN_LIMIT
      ensures ActivePacket(db, taskID).Some?
    {
      ListPacketsPosition(db.packets, taskID, SCAN_LIMIT, i);
    }
    if ActivePacket(db, taskID).Some? {
      var k :| 0 <= k < |list| && list[k] == ActivePacket(db, taskID).value;
      var i := ListPacketsSource(db.packets, taskID, SCAN_LIMIT, k);
    }
  }

  // ---- a branch out of sight ------------------------------------------------------------------

  lemma {:induction false} NewerCountAll(packets: seq<Packet>, taskID: Id, i: nat)
    requires i < |packets| && forall k :: 0 <= k < |packets| ==> packets[k].taskID == taskID
    ensures NewerCount(packets, taskID, i) == |packets| - 1 - i
    decreases |packets|
  {
    if i < |packets| - 1 {
      NewerCountAll(packets[..|packets| - 1], taskID, i);
    }
  }

  /** A packet as it is created. */
  function Waiting(handoffID: Id): Packet {
    Packet(handoffID, "task", PacketCreated, Claude, Resume, "", BriefReady, "chk", "brf", "", 1,
           RepoAnchor("", "", "", "", "", ""), true, "", RunUnset, [], None, Unset)
  }

  /** An accepted, unresolved Claude packet, and twelve created after it: no branch is active. */
  lemma ThirteenthIsNotSeen() returns (db: Db)
    ensures |db.packets| == 13 && db.resolutions == []
    ensures forall i, j :: 0 <= i < j < |db.packets| ==>
      db.packets[i].handoffID != db.packets[j].handoffID
    ensures db.packets[0].taskID == "task" && Eligible(db.packets[0], db.resolutions)
    ensures ActivePacket(db, "task").None?
  {
    var accepted := Waiting(Numbered(13)).(status := PacketAccepted, acceptedAt := Some(1),
                                           acceptedBy := Claude);
    var newer := seq(12, i requires 0 <= i < 12 => Waiting(Numbered(i + 1)));
    db := Db(map[], {}, [], [], [accepted] + newer, [], [], [], [], [], []);
    forall i | 0 <= i < 13 && Eligible(db.packets[i], db.resolutions)
      ensures NewerCount(db.packets, "task", i) >= SCAN_LIMIT
    {
      NewerCountAll(db.packets, "task", i);
    }
    ActiveIffEligibleAmongNewest(db, "task");
  }
}
