/**
 * The `petitions` and `petition_tracking` tables held in memory, and the
 * workflow operations of models.py as methods that update them. Each method
 * is one transaction: it either commits the head UPDATE together with its
 * tracking INSERTs, or leaves both tables as they were.
 */
module Store {
  import opened Domain
  import opened Workflow

  /** What a workflow function does for its caller: return, return False, or raise. */
  datatype Outcome = Committed | Declined | Raised(failure: Failure)

  /**
   * `po_update_efile_number` and `po_update_efile_no` return False when they
   * roll back without raising; every other rollback is an exception.
   */
  function OutcomeOf(op: Op, e: Effect): Outcome {
    match e
    case Commit(_, _) => Committed
    case Rollback(f) => if f == EfileNotUpdated || op.PoUpdateEfileNo? then Declined else Raised(f)
  }

  function Lookup(ps: map<PetitionId, Petition>, id: PetitionId): Option<Petition> {
    if id in ps then Some(ps[id]) else None
  }

  /** The `status_after` of the latest tracking row of petition `id`. */
  function LastStatus(ledger: seq<TrackingEntry>, id: PetitionId): Option<Status> {
    if ledger == [] then None
    else if ledger[|ledger| - 1].petitionId == id then Some(ledger[|ledger| - 1].statusAfter)
    else LastStatus(ledger[..|ledger| - 1], id)
  }

  /**
   * The store invariant: heads are keyed by their SERIAL id, every tracking
   * row refers to an existing petition, and every head's status is the
   * `status_after` of the petition's latest tracking row.
   */
  predicate Consistent(ps: map<PetitionId, Petition>, ledger: seq<TrackingEntry>, nextId: nat) {
    && 0 < nextId
    && (forall id :: id in ps ==> ps[id].id == id && 0 < id < nextId)
    && (forall i :: 0 <= i < |ledger| ==> ledger[i].petitionId in ps)
    && (forall id :: id in ps ==> LastStatus(ledger, id) == Some(ps[id].status))
  }

  /** Running `op` on tables `ps`/`ledger` yields `ps2`/`ledger2` and `outcome`. */
  predicate Performed(ps: map<PetitionId, Petition>, ledger: seq<TrackingEntry>, dir: Directory, op: Op, now: int,
                      ps2: map<PetitionId, Petition>, ledger2: seq<TrackingEntry>, outcome: Outcome)
  {
    var e := Run(Lookup(ps, op.pid), dir, op, now);
    && ps2 == (if e.Commit? then ps[op.pid := e.head] else ps)
    && ledger2 == (if e.Commit? then ledger + e.rows else ledger)
    && outcome == OutcomeOf(op, e)
  }

  /** Appending rows of other petitions does not change a petition's latest status. */
  lemma {:induction false} LastStatusOthers(ledger: seq<TrackingEntry>, rows: seq<TrackingEntry>, id: PetitionId)
    requires forall r :: r in rows ==> r.petitionId != id
    ensures LastStatus(ledger + rows, id) == LastStatus(ledger, id)
    decreases |rows|
  {
    if rows != [] {
      var all := ledger + rows;
      assert all[..|all| - 1] == ledger + rows[..|rows| - 1];
      LastStatusOthers(ledger, rows[..|rows| - 1], id);
    } else {
      assert ledger + rows == ledger;
    }
  }

  /**
   * Writing one head and appending rows for it (its last row carrying the
   * head's status) keeps the store consistent.
   */
  lemma WriteKeepsConsistent(ps: map<PetitionId, Petition>, ledger: seq<TrackingEntry>, n: nat, n2: nat,
                             pid: PetitionId, head: Petition, rows: seq<TrackingEntry>)
    requires Consistent(ps, ledger, n)
    requires n <= n2 && 0 < pid < n2 && head.id == pid
    requires rows != [] && forall r :: r in rows ==> r.petitionId == pid
    requires rows[|rows| - 1].statusAfter == head.status
    ensures Consistent(ps[pid := head], ledger + rows, n2)
  {
    var ps2, ledger2 := ps[pid := head], ledger + rows;
    forall i | 0 <= i < |ledger2|
      ensures ledger2[i].petitionId in ps2
    {
      if i >= |ledger| {
        assert ledger2[i] == rows[i - |ledger|];
      }
    }
    forall id | id in ps2
      ensures LastStatus(ledger2, id) == Some(ps2[id].status)
    {
      if id != pid {
        LastStatusOthers(ledger, rows, id);
      }
    }
  }

  /** Every committed operation keeps the store consistent. */
  lemma RunKeepsConsistent(ps: map<PetitionId, Petition>, ledger: seq<TrackingEntry>, n: nat,
                           dir: Directory, op: Op, now: int)
    requires Consistent(ps, ledger, n)
    ensures var e := Run(Lookup(ps, op.pid), dir, op, now);
      e.Commit? ==> Consistent(ps[op.pid := e.head], ledger + e.rows, n)
  {
    var e := Run(Lookup(ps, op.pid), dir, op, now);
    if e.Commit? {
      var h := ps[op.pid];
      RunFollowsTable(h, dir, op, now);
      assert e.rows[|e.rows| - 1] in e.rows;
      WriteKeepsConsistent(ps, ledger, n, n, op.pid, e.head, e.rows);
    }
  }

  class PetitionStore {
    var petitions: map<PetitionId, Petition>
    var ledger: seq<TrackingEntry>
    /** The next value of the `petitions.id` SERIAL. */
    var nextId: nat
    /** The last value handed out by `petition_sno_seq`. */
    var snoSeq: nat

    ghost predicate Valid()
      reads this
    {
      Consistent(petitions, ledger, nextId)
    }

    constructor ()
      ensures Valid()
      ensures petitions == map[] && ledger == [] && nextId == 1 && snoSeq == 0
    {
      petitions, ledger, nextId, snoSeq := map[], [], 1, 0;
    }

    function Head(pid: PetitionId): Option<Petition>
      reads this
    {
      Lookup(petitions, pid)
    }

    /** UPDATE the head of `pid`, INSERT `rows` into the tracking table, COMMIT. */
    method Save(pid: PetitionId, head: Petition, rows: seq<TrackingEntry>)
      requires Valid() && pid in petitions && head.id == pid
      requires rows != [] && forall r :: r in rows ==> r.petitionId == pid
      requires rows[|rows| - 1].statusAfter == head.status
      modifies this
      ensures Valid()
      ensures petitions == old(petitions)[pid := head] && ledger == old(ledger) + rows
      ensures nextId == old(nextId) && snoSeq == old(snoSeq)
    {
      WriteKeepsConsistent(petitions, ledger, nextId, nextId, pid, head, rows);
      petitions := petitions[pid := head];
      ledger := ledger + rows;
    }

    /** `generate_sno` then `create_petition`; the year is an input. */
    method CreatePetition(dir: Directory, data: NewPetition, createdBy: UserId, year: nat, now: int)
      returns (id: PetitionId, sno: string)
      requires Valid()
      modifies this
      ensures Valid()
      ensures snoSeq == old(snoSeq) + 1 && sno == GenerateSno(data.receivedAt, year, snoSeq)
      ensures id == old(nextId) && id !in old(petitions) && nextId == old(nextId) + 1
      ensures petitions == old(petitions)[id := InitialHead(id, sno, data, createdBy)]
      ensures ledger == old(ledger) + [CreationRow(id, sno, dir, createdBy, now)]
    {
      snoSeq := snoSeq + 1;
      sno := GenerateSno(data.receivedAt, year, snoSeq);
      id := nextId;
      var head := InitialHead(id, sno, data, createdBy);
      var row := CreationRow(id, sno, dir, createdBy, now);
      WriteKeepsConsistent(petitions, ledger, nextId, nextId + 1, id, head, [row]);
      nextId := nextId + 1;
      petitions := petitions[id := head];
      ledger := ledger + [row];
    }

    // The workflow methods below are the imperative form of the cases of
    // `Workflow.Run`: each reads the head, raises or declines as `FailsOn`
    // says, and otherwise UPDATEs the head and INSERTs the tracking rows
    // through `Save`. Each one's `Performed` postcondition ties it to `Run`,
    // where the properties of the transitions are proved.

    method ForwardPetitionToCvo(dir: Directory, pid: PetitionId, actor: UserId, target: Office,
                                comments: string, now: int) returns (outcome: Outcome)
      requires Valid()
      modifies this
      ensures Valid() && nextId == old(nextId) && snoSeq == old(snoSeq)
      ensures Performed(old(petitions), old(ledger), dir, Op.ForwardToCvo(pid, actor, target, comments), now,
                        petitions, ledger, outcome)
    {
      var fromRole := RoleOf(dir, actor);
      if pid !in petitions {
        // the UPDATE matches no row and the tracking INSERT fails its foreign key
        return Raised(PetitionNotFound);
      }
      var statusBefore := petitions[pid].status;
      var cvoRole := CvoRole(target);
      var cvo := ActiveUser(dir, cvoRole);
      var head := petitions[pid].(status := ForwardedToCvo, targetCvo := Some(target), currentHandler := cvo);
      Save(pid, head, [TrackingEntry(pid, actor, cvo, fromRole, Some(cvoRole), CvoForwarding,
                                     comments, Some(statusBefore), ForwardedToCvo, now)]);
      return Committed;
    }

    method SendForPermission(dir: Directory, pid: PetitionId, actor: UserId, comments: string, now: int)
      returns (outcome: Outcome)
      requires Valid()
      modifies this
      ensures Valid() && nextId == old(nextId) && snoSeq == old(snoSeq)
      ensures Performed(old(petitions), old(ledger), dir, Op.SendForPermission(pid, actor, comments), now,
                        petitions, ledger, outcome)
    {
      var fromRole := RoleOf(dir, actor);
      if pid !in petitions {
        return Raised(PetitionNotFound);
      }
      var statusBefore := petitions[pid].status;
      var po := ActiveUser(dir, Po);
      var head := petitions[pid].(status := SentForPermission, requiresPermission := true,
                                  permissionStatus := Pending, currentHandler := po);
      Save(pid, head, [TrackingEntry(pid, actor, po, fromRole, Some(Po), PermissionRequest,
                                     comments, Some(statusBefore), SentForPermission, now)]);
      return Committed;
    }

    method CvoSendReceiptToPo(dir: Directory, pid: PetitionId, actor: UserId, comments: string, now: int)
      returns (outcome: Outcome)
      requires Valid()
      modifies this
      ensures Valid() && nextId == old(nextId) && snoSeq == old(snoSeq)
      ensures Performed(old(petitions), old(ledger), dir, Op.CvoSendReceiptToPo(pid, actor, comments), now,
                        petitions, ledger, outcome)
    {
      var po := ActiveUser(dir, Po);
      if pid !in petitions {
        return Raised(PetitionNotFound);
      }
      var statusBefore := petitions[pid].status;
      var head := petitions[pid].(status := SentForPermission, requiresPermission := true,
                                  permissionStatus := Pending, currentHandler := po);
      Save(pid, head, [TrackingEntry(pid, actor, po, RoleOf(dir, actor), Some(Po), ReceiptToPo,
                                     comments, Some(statusBefore), SentForPermission, now)]);
      return Committed;
    }

    method ApprovePermission(dir: Directory, pid: PetitionId, actor: UserId, target: Office, efileNo: string,
                             comments: string, enquiryType: string, now: int) returns (outcome: Outcome)
      requires Valid()
      modifies this
      ensures Valid() && nextId == old(nextId) && snoSeq == old(snoSeq)
      ensures Performed(old(petitions), old(ledger), dir,
                        Op.ApprovePermission(pid, actor, target, efileNo, comments, enquiryType), now,
                        petitions, ledger, outcome)
    {
      var cvoRole := CvoRole(target);
      var cvo := ActiveUser(dir, cvoRole);
      if pid !in petitions {
        return Raised(PetitionNotFound);
      }
      var p := petitions[pid];
      var head := p.(status := PermissionApproved, permissionStatus := Approved, targetCvo := Some(target),
                     enquiryType := ChooseEnquiryType(enquiryType, p.enquiryType),
                     efileNo := KeepOrSetEfile(p.efileNo, efileNo), currentHandler := cvo);
      // `status_before` is the constant 'sent_for_permission', not the status read
      Save(pid, head, [TrackingEntry(pid, actor, cvo, Some(Po), Some(cvoRole), PermissionGranted,
                                     comments, Some(SentForPermission), PermissionApproved, now)]);
      return Committed;
    }

    method RejectPermission(dir: Directory, pid: PetitionId, actor: UserId, comments: string, now: int)
      returns (outcome: Outcome)
      requires Valid()
      modifies this
      ensures Valid() && nextId == old(nextId) && snoSeq == old(snoSeq)
      ensures Performed(old(petitions), old(ledger), dir, Op.RejectPermission(pid, actor, comments), now,
                        petitions, ledger, outcome)
    {
      if pid !in petitions {
        return Raised(PetitionNotFound);
      }
      var head := petitions[pid].(status := PermissionRejected, permissionStatus := Rejected);
      Save(pid, head, [TrackingEntry(pid, actor, None, Some(Po), None, PermissionRefused,
                                     comments, Some(SentForPermission), PermissionRejected, now)]);
      return Committed;
    }

    method AssignToInspector(dir: Directory, pid: PetitionId, actor: UserId, inspector: UserId, comments: string,
                             enquiryType: string, now: int) returns (outcome: Outcome)
      requires Valid()
      modifies this
      ensures Valid() && nextId == old(nextId) && snoSeq == old(snoSeq)
      ensures Performed(old(petitions), old(ledger), dir,
                        Op.AssignToInspector(pid, actor, inspector, comments, enquiryType), now,
                        petitions, ledger, outcome)
    {
      if pid !in petitions {
        return Raised(PetitionNotFound);
      }
      var p := petitions[pid];
      var statusBefore := p.status;
      var requiresPermission := p.requiresPermission;
      var head := p.(status := AssignedToInspector, enquiryType := ChooseEnquiryType(enquiryType, p.enquiryType),
                     assignedInspector := Some(inspector), currentHandler := Some(inspector));
      var rows := [TrackingEntry(pid, actor, Some(inspector), RoleOf(dir, actor), Some(Inspector),
                                 InspectorAssignment, comments, Some(statusBefore), AssignedToInspector, now)];
      if !requiresPermission {
        var po := ActiveUser(dir, Po);
        rows := rows + [TrackingEntry(pid, actor, po, RoleOf(dir, actor), Some(Po),
                                      DirectAcknowledgement,
                                      comments, Some(statusBefore), AssignedToInspector, now)];
      }
      Save(pid, head, rows);
      return Committed;
    }

    method SetEreceipt(dir: Directory, pid: PetitionId, actor: UserId, ereceiptNo: string, ereceiptFile: string,
                       now: int) returns (outcome: Outcome)
      requires Valid()
      modifies this
      ensures Valid() && nextId == old(nextId) && snoSeq == old(snoSeq)
      ensures Performed(old(petitions), old(ledger), dir, Op.SetEreceipt(pid, actor, ereceiptNo, ereceiptFile), now,
                        petitions, ledger, outcome)
    {
      if pid !in petitions {
        return Raised(PetitionNotFound);
      }
      var p := petitions[pid];
      var previous := p.ereceiptNo;
      var statusBefore := p.status;
      var head := p.(ereceiptNo := ereceiptNo,
                     ereceiptFile := if ereceiptFile != "" then ereceiptFile else p.ereceiptFile);
      var comment := EreceiptNote(previous, ereceiptNo, ereceiptFile);
      Save(pid, head, [TrackingEntry(pid, actor, None, RoleOf(dir, actor), None, EreceiptUpdate,
                                     comment, Some(statusBefore), statusBefore, now)]);
      return Committed;
    }

    /** The report itself goes to `enquiry_reports`, which is not part of this model. */
    method SubmitEnquiryReport(dir: Directory, pid: PetitionId, actor: UserId, reportText: string, findings: string,
                               recommendation: string, reportFile: string, now: int) returns (outcome: Outcome)
      requires Valid()
      modifies this
      ensures Valid() && nextId == old(nextId) && snoSeq == old(snoSeq)
      ensures Performed(old(petitions), old(ledger), dir,
                        Op.SubmitEnquiryReport(pid, actor, reportText, findings, recommendation, reportFile), now,
                        petitions, ledger, outcome)
    {
      var cvo := if actor in dir.assignedCvo then Some(dir.assignedCvo[actor]) else None;
      if pid !in petitions {
        return Raised(PetitionNotFound);
      }
      var head := petitions[pid].(status := EnquiryReportSubmitted, currentHandler := cvo);
      var comment := if reportFile != "" then "Report uploaded for CVO review" else "Report submitted for CVO review";
      Save(pid, head, [TrackingEntry(pid, actor, cvo, Some(Inspector), RoleOfOpt(dir, cvo), ReportSubmission,
                                     comment, Some(AssignedToInspector), EnquiryReportSubmitted, now)]);
      return Committed;
    }

    method CvoAddComments(dir: Directory, pid: PetitionId, actor: UserId, comments: string, now: int)
      returns (outcome: Outcome)
      requires Valid()
      modifies this
      ensures Valid() && nextId == old(nextId) && snoSeq == old(snoSeq)
      ensures Performed(old(petitions), old(ledger), dir, Op.CvoAddComments(pid, actor, comments), now,
                        petitions, ledger, outcome)
    {
      var po := ActiveUser(dir, Po);
      if pid !in petitions {
        return Raised(PetitionNotFound);
      }
      var head := petitions[pid].(status := ForwardedToPo, currentHandler := po);
      Save(pid, head, [TrackingEntry(pid, actor, po, RoleOf(dir, actor), Some(Po), CommentsToPo,
                                     comments, Some(EnquiryReportSubmitted), ForwardedToPo, now)]);
      return Committed;
    }

    method CvoRequestDetailedEnquiry(dir: Directory, pid: PetitionId, actor: UserId, comments: string, now: int)
      returns (outcome: Outcome)
      requires Valid()
      modifies this
      ensures Valid() && nextId == old(nextId) && snoSeq == old(snoSeq)
      ensures Performed(old(petitions), old(ledger), dir, Op.CvoRequestDetailedEnquiry(pid, actor, comments), now,
                        petitions, ledger, outcome)
    {
      if pid !in petitions {
        return Raised(PetitionNotFound);
      }
      var statusBefore := petitions[pid].status;
      var po := ActiveUser(dir, Po);
      var head := petitions[pid].(enquiryType := Detailed, requiresPermission := true, permissionStatus := Pending,
                                  status := SentForPermission, currentHandler := po);
      Save(pid, head, [TrackingEntry(pid, actor, po, RoleOf(dir, actor), Some(Po),
                                     DetailedRequest,
                                     comments, Some(statusBefore), SentForPermission, now)]);
      return Committed;
    }

    method CvoUploadConsolidatedReport(dir: Directory, pid: PetitionId, actor: UserId, file: string, now: int)
      returns (outcome: Outcome)
      requires Valid()
      modifies this
      ensures Valid() && nextId == old(nextId) && snoSeq == old(snoSeq)
      ensures Performed(old(petitions), old(ledger), dir, Op.CvoUploadConsolidatedReport(pid, actor, file), now,
                        petitions, ledger, outcome)
    {
      if pid !in petitions {
        return Raised(PetitionNotFound);
      }
      var statusBefore := petitions[pid].status;
      Save(pid, petitions[pid], [TrackingEntry(pid, actor, None, RoleOf(dir, actor), None,
                                               ConsolidatedUpload,
                                               file, Some(statusBefore), statusBefore, now)]);
      return Committed;
    }

    method PoGiveConclusion(dir: Directory, pid: PetitionId, actor: UserId, efileNo: string, conclusion: string,
                            instructions: string, file: string, now: int) returns (outcome: Outcome)
      requires Valid()
      modifies this
      ensures Valid() && nextId == old(nextId) && snoSeq == old(snoSeq)
      ensures Performed(old(petitions), old(ledger), dir,
                        Op.PoGiveConclusion(pid, actor, efileNo, conclusion, instructions, file), now,
                        petitions, ledger, outcome)
    {
      if pid !in petitions {
        return Raised(PetitionNotFound);
      }
      var p := petitions[pid];
      var head := p.(efileNo := KeepOrSetEfile(p.efileNo, efileNo), status := Closed, currentHandler := Some(actor));
      Save(pid, head, [TrackingEntry(pid, actor, None, Some(Po), None, FinalConclusion,
                                     conclusion, Some(ForwardedToPo), Closed, now)]);
      return Committed;
    }

    method PoSendToCmd(dir: Directory, pid: PetitionId, actor: UserId, instructions: string, efileNo: string,
                       now: int) returns (outcome: Outcome)
      requires Valid()
      modifies this
      ensures Valid() && nextId == old(nextId) && snoSeq == old(snoSeq)
      ensures Performed(old(petitions), old(ledger), dir, Op.PoSendToCmd(pid, actor, instructions, efileNo), now,
                        petitions, ledger, outcome)
    {
      if pid !in petitions {
        return Raised(PetitionNotFound);
      }
      var p := petitions[pid];
      if p.targetCvo.None? {
        return Raised(NoCmdRoleConfigured);
      }
      var cmdRole := CmdRole(p.targetCvo.value);
      var cmd := ActiveUser(dir, cmdRole);
      if cmd.None? {
        return Raised(NoActiveUser(cmdRole));
      }
      var head := p.(status := ActionInstructed, efileNo := KeepOrSetEfile(p.efileNo, efileNo), currentHandler := cmd);
      Save(pid, head, [TrackingEntry(pid, actor, cmd, Some(Po), Some(cmdRole), CmdForwarding,
                                     instructions, Some(p.status), ActionInstructed, now)]);
      return Committed;
    }

    method CmdSubmitActionReport(dir: Directory, pid: PetitionId, actor: UserId, actionTaken: string, file: string,
                                 now: int) returns (outcome: Outcome)
      requires Valid()
      modifies this
      ensures Valid() && nextId == old(nextId) && snoSeq == old(snoSeq)
      ensures Performed(old(petitions), old(ledger), dir, Op.CmdSubmitActionReport(pid, actor, actionTaken, file), now,
                        petitions, ledger, outcome)
    {
      if pid !in petitions {
        return Raised(PetitionNotFound);
      }
      var po := ActiveUser(dir, Po);
      if po.None? {
        return Raised(NoActiveUser(Po));
      }
      var statusBefore := petitions[pid].status;
      var head := petitions[pid].(status := ActionTaken, currentHandler := po);
      Save(pid, head, [TrackingEntry(pid, actor, po, RoleOf(dir, actor), Some(Po),
                                     ActionReport,
                                     actionTaken, Some(statusBefore), ActionTaken, now)]);
      return Committed;
    }

    method PoLodgePetition(dir: Directory, pid: PetitionId, actor: UserId, remarks: string, efileNo: string,
                           now: int) returns (outcome: Outcome)
      requires Valid()
      modifies this
      ensures Valid() && nextId == old(nextId) && snoSeq == old(snoSeq)
      ensures Performed(old(petitions), old(ledger), dir, Op.PoLodgePetition(pid, actor, remarks, efileNo), now,
                        petitions, ledger, outcome)
    {
      if pid !in petitions {
        return Raised(PetitionNotFound);
      }
      var p := petitions[pid];
      var head := p.(status := Lodged, efileNo := KeepOrSetEfile(p.efileNo, efileNo), currentHandler := Some(actor));
      Save(pid, head, [TrackingEntry(pid, actor, None, Some(Po), None, PoLodging,
                                     remarks, Some(p.status), Lodged, now)]);
      return Committed;
    }

    method PoUpdateEfileNumber(dir: Directory, pid: PetitionId, actor: UserId, efileNo: string, remarks: string,
                               now: int) returns (outcome: Outcome)
      requires Valid()
      modifies this
      ensures Valid() && nextId == old(nextId) && snoSeq == old(snoSeq)
      ensures Performed(old(petitions), old(ledger), dir, Op.PoUpdateEfileNumber(pid, actor, efileNo, remarks), now,
                        petitions, ledger, outcome)
    {
      if pid !in petitions {
        return Raised(PetitionNotFound);
      }
      var p := petitions[pid];
      var oldEfile := p.efileNo;
      var latest := KeepOrSetEfile(oldEfile, efileNo);
      if oldEfile != "" && latest == oldEfile {
        // the UPDATE kept the old number: roll back and return False
        return Declined;
      }
      var comment := EfileNote(oldEfile, efileNo, remarks);
      Save(pid, p.(efileNo := latest), [TrackingEntry(pid, actor, None, Some(Po), None, EfileCorrection,
                                                      comment, Some(p.status), p.status, now)]);
      return Committed;
    }

    method PoDirectLodgeNoEnquiry(dir: Directory, pid: PetitionId, actor: UserId, remarks: string, efileNo: string,
                                  now: int) returns (outcome: Outcome)
      requires Valid()
      modifies this
      ensures Valid() && nextId == old(nextId) && snoSeq == old(snoSeq)
      ensures Performed(old(petitions), old(ledger), dir, Op.PoDirectLodgeNoEnquiry(pid, actor, remarks, efileNo), now,
                        petitions, ledger, outcome)
    {
      if pid !in petitions {
        return Raised(PetitionNotFound);
      }
      var p := petitions[pid];
      var head := p.(status := Lodged, efileNo := KeepOrSetEfile(p.efileNo, efileNo), currentHandler := Some(actor));
      Save(pid, head, [TrackingEntry(pid, actor, None, Some(Po), None,
                                     DirectLodging,
                                     remarks, Some(p.status), Lodged, now)]);
      return Committed;
    }

    method CvoTakeAction(dir: Directory, pid: PetitionId, actor: UserId, actionTaken: string, now: int)
      returns (outcome: Outcome)
      requires Valid()
      modifies this
      ensures Valid() && nextId == old(nextId) && snoSeq == old(snoSeq)
      ensures Performed(old(petitions), old(ledger), dir, Op.CvoTakeAction(pid, actor, actionTaken), now,
                        petitions, ledger, outcome)
    {
      if pid !in petitions {
        return Raised(PetitionNotFound);
      }
      var head := petitions[pid].(status := ActionTaken);
      Save(pid, head, [TrackingEntry(pid, actor, None, RoleOf(dir, actor), None, CvoAction,
                                     actionTaken, Some(ActionInstructed), ActionTaken, now)]);
      return Committed;
    }

    method ClosePetition(dir: Directory, pid: PetitionId, actor: UserId, comments: string, now: int)
      returns (outcome: Outcome)
      requires Valid()
      modifies this
      ensures Valid() && nextId == old(nextId) && snoSeq == old(snoSeq)
      ensures Performed(old(petitions), old(ledger), dir, Op.ClosePetition(pid, actor, comments), now,
                        petitions, ledger, outcome)
    {
      if pid !in petitions {
        return Raised(PetitionNotFound);
      }
      var statusBefore := petitions[pid].status;
      Save(pid, petitions[pid].(status := Closed),
           [TrackingEntry(pid, actor, None, RoleOf(dir, actor), None, Closing,
                          comments, Some(statusBefore), Closed, now)]);
      return Committed;
    }

    method PoUpdateEfileNo(dir: Directory, pid: PetitionId, actor: UserId, efileNo: string, now: int)
      returns (outcome: Outcome)
      requires Valid()
      modifies this
      ensures Valid() && nextId == old(nextId) && snoSeq == old(snoSeq)
      ensures Performed(old(petitions), old(ledger), dir, Op.PoUpdateEfileNo(pid, actor, efileNo), now,
                        petitions, ledger, outcome)
    {
      if pid !in petitions || !SqlBlank(petitions[pid].efileNo) {
        // the guarded UPDATE matched no row: roll back and return False
        return Declined;
      }
      var p := petitions[pid];
      Save(pid, p.(efileNo := efileNo),
           [TrackingEntry(pid, actor, p.currentHandler, Some(Po), RoleOfOpt(dir, p.currentHandler),
                          EfileEntry, "E-Office File No updated to: " + efileNo,
                          Some(p.status), p.status, now)]);
      return Committed;
    }

    /** Calls the workflow function that `op` names. */
    method Execute(dir: Directory, op: Op, now: int) returns (outcome: Outcome)
      requires Valid()
      modifies this
      ensures Valid() && nextId == old(nextId) && snoSeq == old(snoSeq)
      ensures Performed(old(petitions), old(ledger), dir, op, now, petitions, ledger, outcome)
    {
      match op
      case ForwardToCvo(pid, actor, target, comments) =>
        outcome := ForwardPetitionToCvo(dir, pid, actor, target, comments, now);
      case SendForPermission(pid, actor, comments) =>
        outcome := SendForPermission(dir, pid, actor, comments, now);
      case CvoSendReceiptToPo(pid, actor, comments) =>
        outcome := CvoSendReceiptToPo(dir, pid, actor, comments, now);
      case ApprovePermission(pid, actor, target, efileNo, comments, enquiryType) =>
        outcome := ApprovePermission(dir, pid, actor, target, efileNo, comments, enquiryType, now);
      case RejectPermission(pid, actor, comments) =>
        outcome := RejectPermission(dir, pid, actor, comments, now);
      case AssignToInspector(pid, actor, inspector, comments, enquiryType) =>
        outcome := AssignToInspector(dir, pid, actor, inspector, comments, enquiryType, now);
      case SetEreceipt(pid, actor, ereceiptNo, ereceiptFile) =>
        outcome := SetEreceipt(dir, pid, actor, ereceiptNo, ereceiptFile, now);
      case SubmitEnquiryReport(pid, actor, reportText, findings, recommendation, reportFile) =>
        outcome := SubmitEnquiryReport(dir, pid, actor, reportText, findings, recommendation, reportFile, now);
      case CvoAddComments(pid, actor, comments) =>
        outcome := CvoAddComments(dir, pid, actor, comments, now);
      case CvoRequestDetailedEnquiry(pid, actor, comments) =>
        outcome := CvoRequestDetailedEnquiry(dir, pid, actor, comments, now);
      case CvoUploadConsolidatedReport(pid, actor, file) =>
        outcome := CvoUploadConsolidatedReport(dir, pid, actor, file, now);
      case PoGiveConclusion(pid, actor, efileNo, conclusion, instructions, file) =>
        outcome := PoGiveConclusion(dir, pid, actor, efileNo, conclusion, instructions, file, now);
      case PoSendToCmd(pid, actor, instructions, efileNo) =>
        outcome := PoSendToCmd(dir, pid, actor, instructions, efileNo, now);
      case CmdSubmitActionReport(pid, actor, actionTaken, file) =>
        outcome := CmdSubmitActionReport(dir, pid, actor, actionTaken, file, now);
      case PoLodgePetition(pid, actor, remarks, efileNo) =>
        outcome := PoLodgePetition(dir, pid, actor, remarks, efileNo, now);
      case PoUpdateEfileNumber(pid, actor, efileNo, remarks) =>
        outcome := PoUpdateEfileNumber(dir, pid, actor, efileNo, remarks, now);
      case PoDirectLodgeNoEnquiry(pid, actor, remarks, efileNo) =>
        outcome := PoDirectLodgeNoEnquiry(dir, pid, actor, remarks, efileNo, now);
      case CvoTakeAction(pid, actor, actionTaken) =>
        outcome := CvoTakeAction(dir, pid, actor, actionTaken, now);
      case ClosePetition(pid, actor, comments) =>
        outcome := ClosePetition(dir, pid, actor, comments, now);
      case PoUpdateEfileNo(pid, actor, efileNo) =>
        outcome := PoUpdateEfileNo(dir, pid, actor, efileNo, now);
    }
  }

  /** A rollback leaves both tables exactly as they were. */
  lemma RollbackChangesNothing(ps: map<PetitionId, Petition>, ledger: seq<TrackingEntry>, dir: Directory, op: Op,
                               now: int, ps2: map<PetitionId, Petition>, ledger2: seq<TrackingEntry>, outcome: Outcome)
    requires Performed(ps, ledger, dir, op, now, ps2, ledger2, outcome)
    requires outcome != Committed
    ensures ps2 == ps && ledger2 == ledger
  {
  }

  /** The ledger only grows: a committed operation appends, and the earlier rows stay put. */
  lemma LedgerAppendOnly(ps: map<PetitionId, Petition>, ledger: seq<TrackingEntry>, dir: Directory, op: Op,
                         now: int, ps2: map<PetitionId, Petition>, ledger2: seq<TrackingEntry>, outcome: Outcome)
    requires Performed(ps, ledger, dir, op, now, ps2, ledger2, outcome)
    ensures |ledger| <= |ledger2| && ledger2[..|ledger|] == ledger
    ensures outcome == Committed <==> |ledger2| > |ledger|
    ensures ps2.Keys == ps.Keys
  {
    var e := Run(Lookup(ps, op.pid), dir, op, now);
    if e.Commit? {
      RunFollowsTable(ps[op.pid], dir, op, now);
      assert (ledger + e.rows)[..|ledger|] == ledger;
    }
  }
}
