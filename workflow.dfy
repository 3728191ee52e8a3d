/**
 * The workflow operations of models.py as pure transitions on one petition
 * head. Each operation either rolls back (the head and the ledger stay as
 * they were) or commits a new head together with the tracking rows it
 * inserts. `Store` (store.dfy) runs these against the in-memory tables.
 *
 * None of the operations checks the petition's current state: those checks
 * live only in the request guards (guard.dfy).
 */
module Workflow {
  import opened Domain

  /** Why a transaction was rolled back. */
  datatype Failure =
    | PetitionNotFound
    | NoCmdRoleConfigured
    | NoActiveUser(role: Role)
    | EfileNotUpdated

  datatype Effect =
    | Rollback(failure: Failure)
    | Commit(head: Petition, rows: seq<TrackingEntry>)

  /** One constructor per workflow operation that acts on an existing petition. */
  datatype Op =
    | ForwardToCvo(pid: PetitionId, actor: UserId, target: Office, comments: string)
    | SendForPermission(pid: PetitionId, actor: UserId, comments: string)
    | CvoSendReceiptToPo(pid: PetitionId, actor: UserId, comments: string)
    | ApprovePermission(pid: PetitionId, actor: UserId, target: Office, efileNo: string,
                        comments: string, enquiryType: string)
    | RejectPermission(pid: PetitionId, actor: UserId, comments: string)
    | AssignToInspector(pid: PetitionId, actor: UserId, inspector: UserId, comments: string,
                        enquiryType: string)
    | SetEreceipt(pid: PetitionId, actor: UserId, ereceiptNo: string, ereceiptFile: string)
    | SubmitEnquiryReport(pid: PetitionId, actor: UserId, reportText: string, findings: string,
                          recommendation: string, reportFile: string)
    | CvoAddComments(pid: PetitionId, actor: UserId, comments: string)
    | CvoRequestDetailedEnquiry(pid: PetitionId, actor: UserId, comments: string)
    | CvoUploadConsolidatedReport(pid: PetitionId, actor: UserId, file: string)
    | PoGiveConclusion(pid: PetitionId, actor: UserId, efileNo: string, conclusion: string,
                       instructions: string, file: string)
    | PoSendToCmd(pid: PetitionId, actor: UserId, instructions: string, efileNo: string)
    | CmdSubmitActionReport(pid: PetitionId, actor: UserId, actionTaken: string, file: string)
    | PoLodgePetition(pid: PetitionId, actor: UserId, remarks: string, efileNo: string)
    | PoUpdateEfileNumber(pid: PetitionId, actor: UserId, efileNo: string, remarks: string)
    | PoDirectLodgeNoEnquiry(pid: PetitionId, actor: UserId, remarks: string, efileNo: string)
    | CvoTakeAction(pid: PetitionId, actor: UserId, actionTaken: string)
    | ClosePetition(pid: PetitionId, actor: UserId, comments: string)
    | PoUpdateEfileNo(pid: PetitionId, actor: UserId, efileNo: string)

  // ---------------------------------------------------------------------
  // Shared pieces of the UPDATE statements
  // ---------------------------------------------------------------------

  /** `CASE WHEN COALESCE(BTRIM(efile_no), '') = '' THEN %s ELSE efile_no END` */
  function KeepOrSetEfile(existing: string, incoming: string): string {
    if SqlBlank(existing) then incoming else existing
  }

  /** `CASE WHEN %s IN ('detailed', 'preliminary') THEN %s ELSE enquiry_type END` */
  function ChooseEnquiryType(incoming: string, current: EnquiryType): EnquiryType {
    ParseEnquiryType(incoming).GetOr(current)
  }

  function Quoted(s: string): string { "'" + s + "'" }

  // ---------------------------------------------------------------------
  // The operations, one function each, on a petition that exists
  // ---------------------------------------------------------------------

  function ForwardToCvoEffect(p: Petition, dir: Directory, actor: UserId, target: Office,
                              comments: string, now: int): Effect
  {
    var cvoRole := CvoRole(target);
    var cvo := ActiveUser(dir, cvoRole);
    Commit(p.(status := ForwardedToCvo, targetCvo := Some(target), currentHandler := cvo),
           [TrackingEntry(p.id, actor, cvo, RoleOf(dir, actor), Some(cvoRole), CvoForwarding,
                          comments, Some(p.status), ForwardedToCvo, now)])
  }

  function SendForPermissionEffect(p: Petition, dir: Directory, actor: UserId, comments: string,
                                   now: int, action: Step): Effect
  {
    var po := ActiveUser(dir, Po);
    Commit(p.(status := SentForPermission, requiresPermission := true, permissionStatus := Pending,
              currentHandler := po),
           [TrackingEntry(p.id, actor, po, RoleOf(dir, actor), Some(Po), action,
                          comments, Some(p.status), SentForPermission, now)])
  }

  function ApprovePermissionEffect(p: Petition, dir: Directory, actor: UserId, target: Office,
                                   efileNo: string, comments: string, enquiryType: string,
                                   now: int): Effect
  {
    var cvoRole := CvoRole(target);
    var cvo := ActiveUser(dir, cvoRole);
    Commit(p.(status := PermissionApproved, permissionStatus := Approved, targetCvo := Some(target),
              enquiryType := ChooseEnquiryType(enquiryType, p.enquiryType),
              efileNo := KeepOrSetEfile(p.efileNo, efileNo), currentHandler := cvo),
           [TrackingEntry(p.id, actor, cvo, Some(Po), Some(cvoRole), PermissionGranted,
                          comments, Some(SentForPermission), PermissionApproved, now)])
  }

  function RejectPermissionEffect(p: Petition, actor: UserId, comments: string, now: int): Effect
  {
    Commit(p.(status := PermissionRejected, permissionStatus := Rejected),
           [TrackingEntry(p.id, actor, None, Some(Po), None, PermissionRefused,
                          comments, Some(SentForPermission), PermissionRejected, now)])
  }

  function AssignToInspectorEffect(p: Petition, dir: Directory, actor: UserId, inspector: UserId,
                                   comments: string, enquiryType: string, now: int): Effect
  {
    var assignRow := TrackingEntry(p.id, actor, Some(inspector), RoleOf(dir, actor), Some(Inspector),
                                  InspectorAssignment, comments, Some(p.status),
                                  AssignedToInspector, now);
    var ackRow :=
      TrackingEntry(p.id, actor, ActiveUser(dir, Po), RoleOf(dir, actor), Some(Po),
                    DirectAcknowledgement,
                    comments, Some(p.status), AssignedToInspector, now);
    Commit(p.(status := AssignedToInspector, enquiryType := ChooseEnquiryType(enquiryType, p.enquiryType),
              assignedInspector := Some(inspector), currentHandler := Some(inspector)),
           [assignRow] + (if p.requiresPermission then [] else [ackRow]))
  }

  /** The tracking comment of an e-receipt update. */
  function EreceiptNote(previous: string, ereceiptNo: string, ereceiptFile: string): string {
    "E-Receipt No updated from " + Quoted(if previous != "" then previous else "-")
    + " to " + Quoted(ereceiptNo) + (if ereceiptFile != "" then " with file upload" else "")
  }

  function SetEreceiptEffect(p: Petition, dir: Directory, actor: UserId, ereceiptNo: string,
                             ereceiptFile: string, now: int): Effect
  {
    var comment := EreceiptNote(p.ereceiptNo, ereceiptNo, ereceiptFile);
    Commit(p.(ereceiptNo := ereceiptNo,
              ereceiptFile := if ereceiptFile != "" then ereceiptFile else p.ereceiptFile),
           [TrackingEntry(p.id, actor, None, RoleOf(dir, actor), None, EreceiptUpdate,
                          comment, Some(p.status), p.status, now)])
  }

  function SubmitEnquiryReportEffect(p: Petition, dir: Directory, actor: UserId, reportFile: string,
                                     now: int): Effect
  {
    var cvo := if actor in dir.assignedCvo then Some(dir.assignedCvo[actor]) else None;
    Commit(p.(status := EnquiryReportSubmitted, currentHandler := cvo),
           [TrackingEntry(p.id, actor, cvo, Some(Inspector), RoleOfOpt(dir, cvo), ReportSubmission,
                          if reportFile != "" then "Report uploaded for CVO review"
                          else "Report submitted for CVO review",
                          Some(AssignedToInspector), EnquiryReportSubmitted, now)])
  }

  function CvoAddCommentsEffect(p: Petition, dir: Directory, actor: UserId, comments: string,
                                now: int): Effect
  {
    var po := ActiveUser(dir, Po);
    Commit(p.(status := ForwardedToPo, currentHandler := po),
           [TrackingEntry(p.id, actor, po, RoleOf(dir, actor), Some(Po), CommentsToPo,
                          comments, Some(EnquiryReportSubmitted), ForwardedToPo, now)])
  }

  function CvoRequestDetailedEnquiryEffect(p: Petition, dir: Directory, actor: UserId,
                                           comments: string, now: int): Effect
  {
    var po := ActiveUser(dir, Po);
    Commit(p.(enquiryType := Detailed, requiresPermission := true, permissionStatus := Pending,
              status := SentForPermission, currentHandler := po),
           [TrackingEntry(p.id, actor, po, RoleOf(dir, actor), Some(Po),
                          DetailedRequest,
                          comments, Some(p.status), SentForPermission, now)])
  }

  function CvoUploadConsolidatedReportEffect(p: Petition, dir: Directory, actor: UserId, file: string,
                                             now: int): Effect
  {
    Commit(p,
           [TrackingEntry(p.id, actor, None, RoleOf(dir, actor), None, ConsolidatedUpload,
                          file, Some(p.status), p.status, now)])
  }

  function PoGiveConclusionEffect(p: Petition, actor: UserId, efileNo: string, conclusion: string,
                                  now: int): Effect
  {
    Commit(p.(efileNo := KeepOrSetEfile(p.efileNo, efileNo), status := Closed, currentHandler := Some(actor)),
           [TrackingEntry(p.id, actor, None, Some(Po), None, FinalConclusion,
                          conclusion, Some(ForwardedToPo), Closed, now)])
  }

  function PoSendToCmdEffect(p: Petition, dir: Directory, actor: UserId, instructions: string,
                             efileNo: string, now: int): Effect
  {
    match p.targetCvo
    case None => Rollback(NoCmdRoleConfigured)
    case Some(office) =>
      var cmdRole := CmdRole(office);
      match ActiveUser(dir, cmdRole)
      case None => Rollback(NoActiveUser(cmdRole))
      case Some(cmd) =>
        Commit(p.(status := ActionInstructed, efileNo := KeepOrSetEfile(p.efileNo, efileNo),
                  currentHandler := Some(cmd)),
               [TrackingEntry(p.id, actor, Some(cmd), Some(Po), Some(cmdRole), CmdForwarding,
                              instructions, Some(p.status), ActionInstructed, now)])
  }

  function CmdSubmitActionReportEffect(p: Petition, dir: Directory, actor: UserId, actionTaken: string,
                                       now: int): Effect
  {
    match ActiveUser(dir, Po)
    case None => Rollback(NoActiveUser(Po))
    case Some(po) =>
      Commit(p.(status := ActionTaken, currentHandler := Some(po)),
             [TrackingEntry(p.id, actor, Some(po), RoleOf(dir, actor), Some(Po),
                            ActionReport,
                            actionTaken, Some(p.status), ActionTaken, now)])
  }

  function PoLodgeEffect(p: Petition, actor: UserId, remarks: string, efileNo: string, now: int,
                         action: Step): Effect
  {
    Commit(p.(status := Lodged, efileNo := KeepOrSetEfile(p.efileNo, efileNo), currentHandler := Some(actor)),
           [TrackingEntry(p.id, actor, None, Some(Po), None, action, remarks, Some(p.status), Lodged, now)])
  }

  /** The tracking comment of an e-file correction: the remarks, or a generated "from .. to .." note. */
  function EfileNote(previous: string, efileNo: string, remarks: string): string {
    if remarks != "" then remarks
    else "E-Office File No updated from " + Quoted(if previous != "" then previous else "-") + " to " + Quoted(efileNo)
  }

  function PoUpdateEfileNumberEffect(p: Petition, actor: UserId, efileNo: string, remarks: string,
                                     now: int): Effect
  {
    var latest := KeepOrSetEfile(p.efileNo, efileNo);
    if p.efileNo != "" && latest == p.efileNo then Rollback(EfileNotUpdated)
    else
      var comment := EfileNote(p.efileNo, efileNo, remarks);
      Commit(p.(efileNo := latest),
             [TrackingEntry(p.id, actor, None, Some(Po), None, EfileCorrection,
                            comment, Some(p.status), p.status, now)])
  }

  function CvoTakeActionEffect(p: Petition, dir: Directory, actor: UserId, actionTaken: string,
                               now: int): Effect
  {
    Commit(p.(status := ActionTaken),
           [TrackingEntry(p.id, actor, None, RoleOf(dir, actor), None, CvoAction,
                          actionTaken, Some(ActionInstructed), ActionTaken, now)])
  }

  function ClosePetitionEffect(p: Petition, dir: Directory, actor: UserId, comments: string,
                               now: int): Effect
  {
    Commit(p.(status := Closed),
           [TrackingEntry(p.id, actor, None, RoleOf(dir, actor), None, Closing,
                          comments, Some(p.status), Closed, now)])
  }

  function PoUpdateEfileNoEffect(p: Petition, dir: Directory, actor: UserId, efileNo: string,
                                 now: int): Effect
  {
    if !SqlBlank(p.efileNo) then Rollback(EfileNotUpdated)
    else
      Commit(p.(efileNo := efileNo),
             [TrackingEntry(p.id, actor, p.currentHandler, Some(Po), RoleOfOpt(dir, p.currentHandler),
                            EfileEntry, "E-Office File No updated to: " + efileNo,
                            Some(p.status), p.status, now)])
  }

  /**
   * Runs `op` against the head of its petition (`None` when no row has that
   * id). A missing petition always rolls back: either the operation raises
   * "Petition not found." itself, or its UPDATE matches no row and the
   * tracking INSERT fails on the foreign key to `petitions`.
   */
  function Run(p: Option<Petition>, dir: Directory, op: Op, now: int): Effect {
    match p
    case None => Rollback(PetitionNotFound)
    case Some(h) =>
      match op
      case ForwardToCvo(_, actor, target, comments) => ForwardToCvoEffect(h, dir, actor, target, comments, now)
      case SendForPermission(_, actor, comments) =>
        SendForPermissionEffect(h, dir, actor, comments, now, PermissionRequest)
      case CvoSendReceiptToPo(_, actor, comments) =>
        SendForPermissionEffect(h, dir, actor, comments, now, ReceiptToPo)
      case ApprovePermission(_, actor, target, efileNo, comments, enquiryType) =>
        ApprovePermissionEffect(h, dir, actor, target, efileNo, comments, enquiryType, now)
      case RejectPermission(_, actor, comments) => RejectPermissionEffect(h, actor, comments, now)
      case AssignToInspector(_, actor, inspector, comments, enquiryType) =>
        AssignToInspectorEffect(h, dir, actor, inspector, comments, enquiryType, now)
      case SetEreceipt(_, actor, ereceiptNo, ereceiptFile) =>
        SetEreceiptEffect(h, dir, actor, ereceiptNo, ereceiptFile, now)
      case SubmitEnquiryReport(_, actor, _, _, _, reportFile) =>
        SubmitEnquiryReportEffect(h, dir, actor, reportFile, now)
      case CvoAddComments(_, actor, comments) => CvoAddCommentsEffect(h, dir, actor, comments, now)
      case CvoRequestDetailedEnquiry(_, actor, comments) =>
        CvoRequestDetailedEnquiryEffect(h, dir, actor, comments, now)
      case CvoUploadConsolidatedReport(_, actor, file) =>
        CvoUploadConsolidatedReportEffect(h, dir, actor, file, now)
      case PoGiveConclusion(_, actor, efileNo, conclusion, _, _) =>
        PoGiveConclusionEffect(h, actor, efileNo, conclusion, now)
      case PoSendToCmd(_, actor, instructions, efileNo) =>
        PoSendToCmdEffect(h, dir, actor, instructions, efileNo, now)
      case CmdSubmitActionReport(_, actor, actionTaken, _) =>
        CmdSubmitActionReportEffect(h, dir, actor, actionTaken, now)
      case PoLodgePetition(_, actor, remarks, efileNo) =>
        PoLodgeEffect(h, actor, remarks, efileNo, now, PoLodging)
      case PoUpdateEfileNumber(_, actor, efileNo, remarks) =>
        PoUpdateEfileNumberEffect(h, actor, efileNo, remarks, now)
      case PoDirectLodgeNoEnquiry(_, actor, remarks, efileNo) =>
        PoLodgeEffect(h, actor, remarks, efileNo, now, DirectLodging)
      case CvoTakeAction(_, actor, actionTaken) => CvoTakeActionEffect(h, dir, actor, actionTaken, now)
      case ClosePetition(_, actor, comments) => ClosePetitionEffect(h, dir, actor, comments, now)
      case PoUpdateEfileNo(_, actor, efileNo) => PoUpdateEfileNoEffect(h, dir, actor, efileNo, now)
  }

  // ---------------------------------------------------------------------
  // The transition table, stated independently of the operations
  // ---------------------------------------------------------------------

  /** The status each operation moves to; `None` for the side channels that keep it. */
  function TargetStatus(op: Op): Option<Status> {
    match op
    case ForwardToCvo(_, _, _, _) => Some(ForwardedToCvo)
    case SendForPermission(_, _, _) => Some(SentForPermission)
    case CvoSendReceiptToPo(_, _, _) => Some(SentForPermission)
    case ApprovePermission(_, _, _, _, _, _) => Some(PermissionApproved)
    case RejectPermission(_, _, _) => Some(PermissionRejected)
    case AssignToInspector(_, _, _, _, _) => Some(AssignedToInspector)
    case SetEreceipt(_, _, _, _) => None
    case SubmitEnquiryReport(_, _, _, _, _, _) => Some(EnquiryReportSubmitted)
    case CvoAddComments(_, _, _) => Some(ForwardedToPo)
    case CvoRequestDetailedEnquiry(_, _, _) => Some(SentForPermission)
    case CvoUploadConsolidatedReport(_, _, _) => None
    case PoGiveConclusion(_, _, _, _, _, _) => Some(Closed)
    case PoSendToCmd(_, _, _, _) => Some(ActionInstructed)
    case CmdSubmitActionReport(_, _, _, _) => Some(ActionTaken)
    case PoLodgePetition(_, _, _, _) => Some(Lodged)
    case PoUpdateEfileNumber(_, _, _, _) => None
    case PoDirectLodgeNoEnquiry(_, _, _, _) => Some(Lodged)
    case CvoTakeAction(_, _, _) => Some(ActionTaken)
    case ClosePetition(_, _, _) => Some(Closed)
    case PoUpdateEfileNo(_, _, _) => None
  }

  /** The operations whose UPDATE may write `efile_no`. */
  predicate WritesEfile(op: Op) {
    op.ApprovePermission? || op.PoGiveConclusion? || op.PoSendToCmd? || op.PoLodgePetition?
    || op.PoUpdateEfileNumber? || op.PoDirectLodgeNoEnquiry? || op.PoUpdateEfileNo?
  }

  /** When each operation raises (or returns False) instead of committing. */
  predicate FailsOn(p: Option<Petition>, dir: Directory, op: Op) {
    match p
    case None => true
    case Some(h) =>
      match op
      case PoSendToCmd(_, _, _, _) => h.targetCvo.None? || CmdRole(h.targetCvo.value) !in dir.activeByRole
      case CmdSubmitActionReport(_, _, _, _) => Po !in dir.activeByRole
      case PoUpdateEfileNumber(_, _, efileNo, _) => !SqlBlank(h.efileNo) || (h.efileNo != "" && efileNo == h.efileNo)
      case PoUpdateEfileNo(_, _, _) => !SqlBlank(h.efileNo)
      case _ => false
  }

  /** How many tracking rows a committed operation inserts. */
  function RowCount(h: Petition, op: Op): nat {
    if op.AssignToInspector? && !h.requiresPermission then 2 else 1
  }

  // ---------------------------------------------------------------------
  // Properties of every operation
  // ---------------------------------------------------------------------

  /**
   * The shape of a committed operation: the head keeps its identity and the
   * columns set only at creation, takes the status of the transition table
   * (or keeps it, for a side channel), and `RowCount` rows are appended for
   * that petition, each stamped now and carrying the new status.
   */
  predicate FollowsTable(h: Petition, op: Op, now: int, e: Effect) {
    e.Commit? ==>
      && e.head.id == h.id && e.head.sno == h.sno && e.head.createdBy == h.createdBy
      && e.head.receivedAt == h.receivedAt && e.head.petitionType == h.petitionType
      && e.head.source == h.source && e.head.receivedDate == h.receivedDate
      && e.head.status == TargetStatus(op).GetOr(h.status)
      && |e.rows| == RowCount(h, op)
      && (forall r :: r in e.rows ==> r.petitionId == h.id && r.statusAfter == e.head.status && r.createdAt == now)
  }

  /** Every operation commits in the shape of the transition table. */
  lemma RunFollowsTable(h: Petition, dir: Directory, op: Op, now: int)
    ensures FollowsTable(h, op, now, Run(Some(h), dir, op, now))
  {
    if op.ForwardToCvo? || op.SendForPermission? || op.CvoSendReceiptToPo? || op.ApprovePermission? {
      RoutingFollowsTable(h, dir, op, now);
    } else if op.RejectPermission? || op.AssignToInspector? || op.SetEreceipt? || op.SubmitEnquiryReport? {
      EnquiryFollowsTable(h, dir, op, now);
    } else if op.CvoAddComments? || op.CvoRequestDetailedEnquiry? || op.CvoUploadConsolidatedReport?
              || op.PoGiveConclusion? {
      ReviewFollowsTable(h, dir, op, now);
    } else if op.PoSendToCmd? || op.CmdSubmitActionReport? || op.PoLodgePetition? || op.PoUpdateEfileNumber? {
      ActionFollowsTable(h, dir, op, now);
    } else {
      ClosingFollowsTable(h, dir, op, now);
    }
  }

  lemma RoutingFollowsTable(h: Petition, dir: Directory, op: Op, now: int)
    requires op.ForwardToCvo? || op.SendForPermission? || op.CvoSendReceiptToPo? || op.ApprovePermission?
    ensures FollowsTable(h, op, now, Run(Some(h), dir, op, now))
  {
  }

  lemma EnquiryFollowsTable(h: Petition, dir: Directory, op: Op, now: int)
    requires op.RejectPermission? || op.AssignToInspector? || op.SetEreceipt? || op.SubmitEnquiryReport?
    ensures FollowsTable(h, op, now, Run(Some(h), dir, op, now))
  {
  }

  lemma ReviewFollowsTable(h: Petition, dir: Directory, op: Op, now: int)
    requires op.CvoAddComments? || op.CvoRequestDetailedEnquiry? || op.CvoUploadConsolidatedReport?
             || op.PoGiveConclusion?
    ensures FollowsTable(h, op, now, Run(Some(h), dir, op, now))
  {
  }

  lemma ActionFollowsTable(h: Petition, dir: Directory, op: Op, now: int)
    requires op.PoSendToCmd? || op.CmdSubmitActionReport? || op.PoLodgePetition? || op.PoUpdateEfileNumber?
    ensures FollowsTable(h, op, now, Run(Some(h), dir, op, now))
  {
  }

  lemma ClosingFollowsTable(h: Petition, dir: Directory, op: Op, now: int)
    requires op.PoDirectLodgeNoEnquiry? || op.CvoTakeAction? || op.ClosePetition? || op.PoUpdateEfileNo?
    ensures FollowsTable(h, op, now, Run(Some(h), dir, op, now))
  {
  }

  /** An operation rolls back exactly in the cases the source raises or returns False. */
  lemma RunFailsExactly(p: Option<Petition>, dir: Directory, op: Op, now: int)
    ensures Run(p, dir, op, now).Rollback? <==> FailsOn(p, dir, op)
  {
  }

  /**
   * The write-once rule on `efile_no`: a value that is not blank (by SQL's
   * BTRIM) is never replaced, and only the efile-writing operations touch
   * the field at all.
   */
  lemma EfileWriteOnce(h: Petition, dir: Directory, op: Op, now: int)
    requires Run(Some(h), dir, op, now).Commit?
    ensures var e := Run(Some(h), dir, op, now);
      && (!SqlBlank(h.efileNo) ==> e.head.efileNo == h.efileNo)
      && (e.head.efileNo != h.efileNo ==> WritesEfile(op) && SqlBlank(h.efileNo))
  {
  }

  /**
   * `enquiry_type` changes only when approve/assign are given a valid type,
   * or when the CVO asks for a detailed enquiry.
   */
  lemma EnquiryTypeChanges(h: Petition, dir: Directory, op: Op, now: int)
    requires Run(Some(h), dir, op, now).Commit?
    requires Run(Some(h), dir, op, now).head.enquiryType != h.enquiryType
    ensures var t := Run(Some(h), dir, op, now).head.enquiryType;
      || (op.ApprovePermission? && ParseEnquiryType(op.enquiryType) == Some(t))
      || (op.AssignToInspector? && ParseEnquiryType(op.enquiryType) == Some(t))
      || (op.CvoRequestDetailedEnquiry? && t == Detailed)
  {
  }

  /** `cvo_request_detailed_enquiry` re-enters the permission gate, addressed to the PO. */
  lemma DetailedEnquiryReentersPermission(h: Petition, dir: Directory, actor: UserId, comments: string, now: int)
    ensures var e := Run(Some(h), dir, CvoRequestDetailedEnquiry(h.id, actor, comments), now);
      && e.Commit?
      && e.head.enquiryType == Detailed && e.head.requiresPermission && e.head.permissionStatus == Pending
      && e.head.status == SentForPermission && e.head.currentHandler == ActiveUser(dir, Po)
  {
  }

  /**
   * `po_send_to_cmd` commits only with a CMD role for the petition's
   * jurisdiction and an active holder of it, who becomes the handler.
   */
  lemma SendToCmdRoutesToCmd(h: Petition, dir: Directory, op: Op, now: int)
    requires op.PoSendToCmd?
    ensures var e := Run(Some(h), dir, op, now);
      e.Commit? <==> h.targetCvo.Some? && CmdRole(h.targetCvo.value) in dir.activeByRole
    ensures var e := Run(Some(h), dir, op, now);
      e.Commit? ==> e.head.status == ActionInstructed
                    && e.head.currentHandler == Some(dir.activeByRole[CmdRole(h.targetCvo.value)])
                    && e.rows[0].toRole == Some(CmdRole(h.targetCvo.value))
  {
  }

  /**
   * The direct-enquiry acknowledgement: assigning an inspector adds a second
   * row, addressed to the PO, exactly when the petition needs no permission.
   */
  lemma AssignAcknowledgesPo(h: Petition, dir: Directory, op: Op, now: int)
    requires op.AssignToInspector?
    ensures var e := Run(Some(h), dir, op, now);
      && e.Commit?
      && e.head.assignedInspector == Some(op.inspector) && e.head.currentHandler == Some(op.inspector)
      && (|e.rows| == 2 <==> !h.requiresPermission)
      && (|e.rows| == 2 ==> e.rows[1].toRole == Some(Po) && e.rows[1].toUser == ActiveUser(dir, Po))
  {
  }

  /**
   * The side channels leave every head field but the one they set alone,
   * and record a row whose `status_before` equals its `status_after`.
   */
  lemma SideChannelsKeepStatus(h: Petition, dir: Directory, op: Op, now: int)
    requires TargetStatus(op).None?
    requires Run(Some(h), dir, op, now).Commit?
    ensures var e := Run(Some(h), dir, op, now);
      && e.head.(efileNo := h.efileNo, ereceiptNo := h.ereceiptNo, ereceiptFile := h.ereceiptFile) == h
      && |e.rows| == 1 && e.rows[0].statusBefore == Some(e.rows[0].statusAfter)
  {
  }

  /**
   * Six operations record a fixed `status_before` instead of the status they
   * found, so consecutive rows of one petition need not chain.
   */
  function FixedStatusBefore(op: Op): Option<Status> {
    match op
    case ApprovePermission(_, _, _, _, _, _) => Some(SentForPermission)
    case RejectPermission(_, _, _) => Some(SentForPermission)
    case SubmitEnquiryReport(_, _, _, _, _, _) => Some(AssignedToInspector)
    case CvoAddComments(_, _, _) => Some(EnquiryReportSubmitted)
    case PoGiveConclusion(_, _, _, _, _, _) => Some(ForwardedToPo)
    case CvoTakeAction(_, _, _) => Some(ActionInstructed)
    case _ => None
  }

  /** Approval logs `sent_for_permission` whatever status the petition had. */
  lemma ApproveLogsFixedStatusBefore(h: Petition, dir: Directory, pid: PetitionId, actor: UserId, target: Office, efileNo: string, comments: string, enquiryType: string, now: int)
    ensures var e := Run(Some(h), dir, ApprovePermission(pid, actor, target, efileNo, comments, enquiryType), now);
      && e.Commit? && |e.rows| == 1 && e.rows[0].statusBefore == Some(SentForPermission)
      && (h.status != SentForPermission ==> e.rows[0].statusBefore != Some(h.status))
  {
  }

  /** Rejection logs `sent_for_permission` whatever status the petition had. */
  lemma RejectLogsFixedStatusBefore(h: Petition, dir: Directory, pid: PetitionId, actor: UserId, comments: string, now: int)
    ensures var e := Run(Some(h), dir, RejectPermission(pid, actor, comments), now);
      && e.Commit? && |e.rows| == 1 && e.rows[0].statusBefore == Some(SentForPermission)
      && (h.status != SentForPermission ==> e.rows[0].statusBefore != Some(h.status))
  {
  }

  /** An enquiry report logs `assigned_to_inspector` whatever status the petition had. */
  lemma ReportLogsFixedStatusBefore(h: Petition, dir: Directory, pid: PetitionId, actor: UserId, details: string, findings: string, recommendation: string, reportFile: string, now: int)
    ensures var e := Run(Some(h), dir, SubmitEnquiryReport(pid, actor, details, findings, recommendation, reportFile), now);
      && e.Commit? && |e.rows| == 1 && e.rows[0].statusBefore == Some(AssignedToInspector)
      && (h.status != AssignedToInspector ==> e.rows[0].statusBefore != Some(h.status))
  {
  }

  /** CVO comments log `enquiry_report_submitted` whatever status the petition had. */
  lemma CvoCommentsLogFixedStatusBefore(h: Petition, dir: Directory, pid: PetitionId, actor: UserId, comments: string, now: int)
    ensures var e := Run(Some(h), dir, CvoAddComments(pid, actor, comments), now);
      && e.Commit? && |e.rows| == 1 && e.rows[0].statusBefore == Some(EnquiryReportSubmitted)
      && (h.status != EnquiryReportSubmitted ==> e.rows[0].statusBefore != Some(h.status))
  {
  }

  /** A final conclusion logs `forwarded_to_po` whatever status the petition had. */
  lemma ConclusionLogsFixedStatusBefore(h: Petition, dir: Directory, pid: PetitionId, actor: UserId, efileNo: string, conclusion: string, conclusionFile: string, instructions: string, now: int)
    ensures var e := Run(Some(h), dir, PoGiveConclusion(pid, actor, efileNo, conclusion, conclusionFile, instructions), now);
      && e.Commit? && |e.rows| == 1 && e.rows[0].statusBefore == Some(ForwardedToPo)
      && (h.status != ForwardedToPo ==> e.rows[0].statusBefore != Some(h.status))
  {
  }

  /** A CVO action logs `action_instructed` whatever status the petition had. */
  lemma CvoActionLogsFixedStatusBefore(h: Petition, dir: Directory, pid: PetitionId, actor: UserId, actionTaken: string, now: int)
    ensures var e := Run(Some(h), dir, CvoTakeAction(pid, actor, actionTaken), now);
      && e.Commit? && |e.rows| == 1 && e.rows[0].statusBefore == Some(ActionInstructed)
      && (h.status != ActionInstructed ==> e.rows[0].statusBefore != Some(h.status))
  {
  }

  /** Every other operation logs, in each of its rows, the status it found. */
  lemma OtherRowsLogFoundStatus(h: Petition, dir: Directory, op: Op, now: int)
    requires FixedStatusBefore(op).None?
    ensures var e := Run(Some(h), dir, op, now);
      e.Commit? ==> forall r :: r in e.rows ==> r.statusBefore == Some(h.status)
  {
  }

  // ---------------------------------------------------------------------
  // Creation: generate_sno and create_petition
  // ---------------------------------------------------------------------

  /** `office_codes.get(received_at, 'VIG')` */
  function OfficeCode(receivedAt: string): string {
    if receivedAt == "jmd_office" then "PO"
    else if receivedAt == "cvo_apspdcl_tirupathi" then "SPDCL"
    else if receivedAt == "cvo_apepdcl_vizag" then "EPDCL"
    else if receivedAt == "cvo_apcpdcl_vijayawada" then "CPDCL"
    else "VIG"
  }

  /** `f"VIG/{office}/{year}/{seq:04d}"`; the year and the sequence value are inputs. */
  function GenerateSno(receivedAt: string, year: nat, serial: nat): string {
    "VIG/" + OfficeCode(receivedAt) + "/" + Digits(year) + "/" + ZeroPad(serial, 4)
  }

  /**
   * The serial number ends in at least four digits that denote the sequence
   * value, after the fixed program prefix and the office code.
   */
  lemma SnoEncodesSequence(receivedAt: string, year: nat, serial: nat)
    ensures var sno := GenerateSno(receivedAt, year, serial);
      var tail := ZeroPad(serial, 4);
      && sno[..4] == "VIG/"
      && sno == "VIG/" + OfficeCode(receivedAt) + "/" + Digits(year) + "/" + tail
      && |tail| >= 4 && AllDigits(tail) && DigitsValue(tail) == serial
  {
    ZeroPadValue(serial, 4);
  }

  /** The columns `petition_new` supplies to `create_petition`. */
  datatype NewPetition = NewPetition(
    receivedAt: string,
    targetCvo: Option<Office>,
    requiresPermission: bool,
    permissionStatus: PermissionStatus,
    petitionType: string,
    source: string,
    receivedDate: Option<Date>,
    ereceiptNo: string,
    ereceiptFile: string)

  /** The INSERT of `create_petition`: status `received`, handler the creator, enquiry type defaulting to detailed. */
  function InitialHead(id: PetitionId, sno: string, data: NewPetition, createdBy: UserId): Petition {
    Petition(id, sno, Received, Detailed, data.requiresPermission, data.permissionStatus, "",
             data.targetCvo, None, Some(createdBy), data.ereceiptNo, data.ereceiptFile,
             data.receivedAt, data.petitionType, data.source, data.receivedDate, createdBy)
  }

  function CreationRow(id: PetitionId, sno: string, dir: Directory, createdBy: UserId, now: int): TrackingEntry {
    TrackingEntry(id, createdBy, None, RoleOf(dir, createdBy), None, Creation,
                  "Petition " + sno + " created", None, Received, now)
  }
}
