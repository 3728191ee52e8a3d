/**
 * The request guards in front of the workflow operations: the write-once
 * E-Office file-number resolver, the optional-integer parser, the
 * `petition_action` cascade (role allow-list, then state gates on the
 * petition snapshot, then the payload) and the routing of a newly created
 * petition. Each guard is a pure decision: reject with a reason, or call
 * one or two workflow operations.
 */
module Guard {
  import opened Domain
  import opened Workflow
  import opened FormConfig

  // ---------------------------------------------------------------------
  // The warnings the guards show
  // ---------------------------------------------------------------------

  /** One constructor per warning text; `WarningText` spells each out. */
  datatype Warning =
    | IsRequired(labelText: string)
    | AreRequired(labelText: string)
    | RequiredToApprove(labelText: string)
    | CompulsoryBeforeCmd(labelText: string)
    | UploadRefused(message: string)
    | InvalidTargetCvo
    | DirectEnquiryNeedsNoPermission
    | MissingEnquiryTypeDecision
    | PermissionCompulsory
    | DirectAssignOnlyAtCvo
    | InvalidInspector
    | ReportTextTooLong
    | RecommendationTooLong
    | ReportFileCompulsory
    | ConsolidatedOnlyAfterReport
    | ChooseConsolidatedReport
    | DetailedOnlyForPreliminary
    | DetailedRemarksRequired
    | EfileRequiredForConclusion
    | FinalConclusionRequired
    | FinalConclusionTooLong
    | InstructionsTooLong
    | CmdInstructionsTooLong
    | EfileRequired
    | EfileTooLong
    | EfileAlreadySet
    | DirectEnquiryOnly
    | EfileOnlyBeforeReport
    | ActionTakenTooLong
    | LodgeRemarksTooLong
    | DirectLodgeOnlyAtPermission
    | CloseOnlyAfterLodged
    | ClosingRemarksTooLong

  function WarningText(w: Warning): string {
    match w
    case IsRequired(l) => l + " is required."
    case AreRequired(l) => l + " are required."
    case RequiredToApprove(l) => l + " is required to approve permission."
    case CompulsoryBeforeCmd(l) => l + " is compulsory before sending to CMD/CGM-HR."
    case UploadRefused(m) => m
    case InvalidTargetCvo => "Please select a valid target CVO."
    case DirectEnquiryNeedsNoPermission => "This petition is marked as Direct Enquiry. Permission request is not required."
    case MissingEnquiryTypeDecision => "Please select enquiry type decision (Detailed/Preliminary)."
    case PermissionCompulsory => "Permission is compulsory. PO approval required before assigning inspector."
    case DirectAssignOnlyAtCvo => "For Direct Enquiry, inspector can be assigned only when petition is at CVO."
    case InvalidInspector => "Please select a valid field inspector."
    case ReportTextTooLong => "Conclusion of enquiry report is too long."
    case RecommendationTooLong => "Recommendations/Suggestions text is too long."
    case ReportFileCompulsory => "Enquiry report file (PDF) is compulsory."
    case ConsolidatedOnlyAfterReport => "Consolidated report can be uploaded only after inspector report submission."
    case ChooseConsolidatedReport => "Please choose consolidated report PDF to upload."
    case DetailedOnlyForPreliminary => "Detailed enquiry request is allowed only for preliminary petitions."
    case DetailedRemarksRequired => "Remarks are required to request detailed enquiry."
    case EfileRequiredForConclusion => "E-Office File No is required for final conclusion."
    case FinalConclusionRequired => "Final conclusion is required."
    case FinalConclusionTooLong => "Final conclusion is too long."
    case InstructionsTooLong => "Instructions are too long."
    case CmdInstructionsTooLong => "CMD/CGM-HR instructions are too long."
    case EfileRequired => "E-Office File No is required."
    case EfileTooLong => "E-Office File No is too long."
    case EfileAlreadySet => "E-Office File No is already set. Editing is not allowed."
    case DirectEnquiryOnly => "This action is allowed only for direct enquiry petitions."
    case EfileOnlyBeforeReport => "E-Office File No can be updated only before enquiry report completion."
    case ActionTakenTooLong => "Action taken details are too long."
    case LodgeRemarksTooLong => "Lodge remarks are too long."
    case DirectLodgeOnlyAtPermission => "Direct lodge without enquiry is allowed only at permission stage."
    case CloseOnlyAfterLodged => "Petition can be closed only after Lodged stage."
    case ClosingRemarksTooLong => "Closing remarks are too long."
  }

  // ---------------------------------------------------------------------
  // resolve_efile_no_for_action
  // ---------------------------------------------------------------------

  const MaxEfileLength := 100

  /**
   * `(efile_no, None)` or `(None, message)`; `Resolved(None)` is `(None, None)`.
   * Every message the callers pass is a non-empty text, so a given message
   * is `Some`.
   */
  datatype EfileResolution = Resolved(efileNo: Option<string>) | Refused(warning: Warning)

  /** The snapshot's file number as the resolver sees it: stripped, `''` without a petition. */
  function ExistingEfile(snap: Option<Petition>): string {
    match snap
    case None => []
    case Some(p) => Strip(p.efileNo)
  }

  /**
   * The existing number always wins; a different non-blank input is refused;
   * with no existing number a blank input is refused only when a message is
   * given, and a fresh input must fit 100 characters.
   */
  function ResolveEfile(snap: Option<Petition>, incomingRaw: string, requiredMessage: Option<Warning>)
    : (r: EfileResolution)
    ensures var existing, incoming := ExistingEfile(snap), Strip(incomingRaw);
      && (existing != [] ==>
            && (r.Refused? <==> incoming != [] && incoming != existing)
            && (r.Refused? ==> r.warning == EfileAlreadySet)
            && (r.Resolved? ==> r.efileNo == Some(existing)))
      && (existing == [] && incoming == [] ==>
            && (r.Refused? <==> requiredMessage.Some?)
            && (r.Refused? ==> r.warning == requiredMessage.value)
            && (r.Resolved? ==> r.efileNo == None))
      && (existing == [] && incoming != [] ==>
            && (r.Refused? <==> |incoming| > MaxEfileLength)
            && (r.Refused? ==> r.warning == EfileTooLong)
            && (r.Resolved? ==> r.efileNo == Some(incoming)))
  {
    var existing := ExistingEfile(snap);
    var incoming := Strip(incomingRaw);
    if existing != [] then
      if incoming != [] && incoming != existing then Refused(EfileAlreadySet)
      else Resolved(Some(existing))
    else if incoming == [] then
      if requiredMessage.Some? then Refused(requiredMessage.value) else Resolved(None)
    else if |incoming| > MaxEfileLength then Refused(EfileTooLong)
    else Resolved(Some(incoming))
  }

  /** The value handed to the model: SQL NULL is the empty string there. */
  function EfileArg(r: EfileResolution): string
    requires r.Resolved?
  {
    r.efileNo.GetOr([])
  }

  /**
   * Resolving and then writing never changes a file number that is already
   * set: whatever the resolver lets through, the model's
   * `CASE WHEN COALESCE(BTRIM(efile_no), '') = '' ...` keeps the old value.
   */
  lemma ResolvedEfileKeepsExisting(p: Petition, incomingRaw: string, requiredMessage: Option<Warning>)
    requires Strip(p.efileNo) != []
    requires ResolveEfile(Some(p), incomingRaw, requiredMessage).Resolved?
    ensures EfileArg(ResolveEfile(Some(p), incomingRaw, requiredMessage)) == Strip(p.efileNo)
    ensures KeepOrSetEfile(p.efileNo, EfileArg(ResolveEfile(Some(p), incomingRaw, requiredMessage))) == p.efileNo
  {
    NotBlankByStrip(p.efileNo);
  }

  /** A text with something left after Python's strip is not blank for SQL's BTRIM either. */
  lemma NotBlankByStrip(s: string)
    requires Strip(s) != []
    ensures !SqlBlank(s)
  {
    var t := Strip(s);
    var off := |s| - |StripLeft(s)|;
    assert t[0] != ' ' by { assert !IsSpace(t[0]); }
    assert StripLeft(s)[0] == t[0];
    assert s[off] == t[0];
  }

  // ---------------------------------------------------------------------
  // parse_optional_int
  // ---------------------------------------------------------------------

  /** A positive integer from a form field, or `None` for blank, malformed or non-positive text. */
  function ParseOptionalInt(raw: string): (r: Option<UserId>)
    ensures Strip(raw) == [] ==> r.None?
  {
    var value := Strip(raw);
    if value == [] then None
    else
      match ParseInt(value)
      case None => None
      case Some(n) => if n > 0 then Some(n as UserId) else None
  }

  /** The result is exactly Python's `int()` of the text when that is a positive number. */
  lemma ParseOptionalIntIsPositiveInt(raw: string)
    ensures var r := ParseOptionalInt(raw);
      && (r.Some? <==> ParseInt(raw).Some? && ParseInt(raw).value > 0)
      && (r.Some? ==> ParseInt(raw).value == r.value as int)
  {
    StripIdempotent(raw);
  }

  /** The decimal text of a user id parses back to that id. */
  lemma ParseOptionalIntOfDigits(u: UserId)
    ensures ParseOptionalInt(Digits(u)) == Some(u)
  {
    var d := Digits(u);
    DigitsHaveNoSpace(d);
    DigitsValueOfDigits(u);
    assert d[0] != '-' && d[0] != '+' by { assert IsDigit(d[0]); }
    assert AllDigits(d);
    assert ParseInt(d) == Some(u as int);
  }

  lemma DigitsHaveNoSpace(d: string)
    requires d != [] && AllDigits(d)
    ensures Strip(d) == d
  {
    assert !IsSpace(d[0]) && !IsSpace(d[|d| - 1]);
    StripLeftFixed(d);
    StripRightFixed(d);
  }

  // ---------------------------------------------------------------------
  // petition_action
  // ---------------------------------------------------------------------

  /**
   * An uploaded file after `validate_pdf_upload`: none chosen, refused with
   * the validator's message, or saved under the stored name.
   */
  datatype Upload = NoFile | Invalid(message: string) | Stored(name: string)

  /** The posted fields, as raw text (a missing field is the empty string). */
  datatype Form = Form(
    targetCvo: string,
    enquiryTypeDecision: string,
    efileNo: string,
    inspectorId: string,
    reportText: string,
    recommendation: string,
    cvoComments: string,
    finalConclusion: string,
    instructions: string,
    cmdInstructions: string,
    actionTaken: string,
    lodgeRemarks: string,
    reportFile: Upload,
    consolidatedFile: Upload,
    conclusionFile: Upload,
    actionReportFile: Upload)

  /** Why a request is turned away. */
  datatype Reason =
    | InvalidRequest
    | NotAllowed
    | NotFound
    | WrongState(warning: Warning)
    | BadInput(warning: Warning)
    | Unsupported

  /** Reject, or call the listed workflow operations in order (each its own transaction). */
  datatype Decision = Reject(reason: Reason) | Call(ops: seq<Op>)

  /** The action names `petition_action` has a branch for. */
  datatype Action =
    | DoForwardToCvo | DoSendForPermission | DoSendReceiptToPo | DoApprovePermission | DoRejectPermission
    | DoAssignInspector | DoSubmitReport | DoCvoComments | DoUploadConsolidatedReport
    | DoRequestDetailedEnquiry | DoGiveConclusion | DoSendToCmd | DoUpdateEfileNo
    | DoCmdSubmitActionReport | DoPoLodge | DoPoDirectLodge | DoClose

  /** The branch a (stripped) action name selects; `None` falls through to "Unsupported action." */
  function ParseAction(s: string): Option<Action> {
    if s == "forward_to_cvo" then Some(DoForwardToCvo)
    else if s == "send_for_permission" then Some(DoSendForPermission)
    else if s == "send_receipt_to_po" then Some(DoSendReceiptToPo)
    else if s == "approve_permission" then Some(DoApprovePermission)
    else if s == "reject_permission" then Some(DoRejectPermission)
    else if s == "assign_inspector" then Some(DoAssignInspector)
    else if s == "submit_report" then Some(DoSubmitReport)
    else if s == "cvo_comments" then Some(DoCvoComments)
    else if s == "upload_consolidated_report" then Some(DoUploadConsolidatedReport)
    else if s == "request_detailed_enquiry" then Some(DoRequestDetailedEnquiry)
    else if s == "give_conclusion" then Some(DoGiveConclusion)
    else if s == "send_to_cmd" then Some(DoSendToCmd)
    else if s == "update_efile_no" then Some(DoUpdateEfileNo)
    else if s == "cmd_submit_action_report" then Some(DoCmdSubmitActionReport)
    else if s == "po_lodge" then Some(DoPoLodge)
    else if s == "po_direct_lodge" then Some(DoPoDirectLodge)
    else if s == "close" then Some(DoClose)
    else None
  }

  const PoDesk: set<Role> := {SuperAdmin, Po}
  const CvoDesk: set<Role> := {SuperAdmin, CvoApspdcl, CvoApepdcl, CvoApcpdcl, Dsp}
  const CmdDesk: set<Role> := {SuperAdmin, CmdApspdcl, CmdApepdcl, CmdApcpdcl, CgmHrTransco}

  /** The allow-list each branch checks first. */
  function AllowedRoles(a: Action): set<Role> {
    match a
    case DoForwardToCvo => {SuperAdmin, DataEntry}
    case DoSubmitReport => {SuperAdmin, Inspector}
    case DoCmdSubmitActionReport => CmdDesk
    case DoSendReceiptToPo | DoAssignInspector | DoCvoComments | DoUploadConsolidatedReport
       | DoRequestDetailedEnquiry => CvoDesk
    case DoSendForPermission | DoApprovePermission | DoRejectPermission | DoGiveConclusion | DoSendToCmd
       | DoUpdateEfileNo | DoPoLodge | DoPoDirectLodge | DoClose => PoDesk
  }

  /** The workflow operation each action ends in. */
  predicate EndsIn(a: Action, op: Op) {
    match a
    case DoForwardToCvo => op.ForwardToCvo?
    case DoSendForPermission => op.SendForPermission?
    case DoSendReceiptToPo => op.CvoSendReceiptToPo?
    case DoApprovePermission => op.ApprovePermission?
    case DoRejectPermission => op.RejectPermission?
    case DoAssignInspector => op.AssignToInspector?
    case DoSubmitReport => op.SubmitEnquiryReport?
    case DoCvoComments => op.CvoAddComments?
    case DoUploadConsolidatedReport => op.CvoUploadConsolidatedReport?
    case DoRequestDetailedEnquiry => op.CvoRequestDetailedEnquiry?
    case DoGiveConclusion => op.PoGiveConclusion?
    case DoSendToCmd => op.PoSendToCmd?
    case DoUpdateEfileNo => op.PoUpdateEfileNo?
    case DoCmdSubmitActionReport => op.CmdSubmitActionReport?
    case DoPoLodge => op.PoLodgePetition?
    case DoPoDirectLodge => op.PoDirectLodgeNoEnquiry?
    case DoClose => op.ClosePetition?
  }

  const DirectEnquiryEfileEditable: set<Status> := {Received, ForwardedToCvo, AssignedToInspector, EnquiryInProgress}

  /** Every called operation is about the requested petition and is done by the session user. */
  predicate Targets(ops: seq<Op>, pid: PetitionId, user: UserId) {
    |ops| >= 1 && forall i :: 0 <= i < |ops| ==> ops[i].pid == pid && ops[i].actor == user
  }

  /** The `Upload`'s stored name, or the empty string (SQL NULL) when no file was chosen. */
  function FileArg(u: Upload): string {
    if u.Stored? then u.name else []
  }

  function Label(setting: FieldKey -> FieldConfig, key: FieldKey): string {
    setting(key).labelText
  }

  function Required(setting: FieldKey -> FieldConfig, key: FieldKey): bool {
    setting(key).required
  }

  /**
   * The whole cascade. The action and the comments are stripped first; an
   * empty action is an invalid request and an unknown one is unsupported;
   * otherwise the role must be on the action's allow-list before anything
   * else is looked at.
   */
  function Decide(actionRaw: string, commentsRaw: string, form: Form, role: Role, pid: PetitionId,
                  user: UserId, snap: Option<Petition>, setting: FieldKey -> FieldConfig): (r: Decision)
    ensures Strip(actionRaw) == [] ==> r == Reject(InvalidRequest)
    ensures Strip(actionRaw) != [] && ParseAction(Strip(actionRaw)).None? ==> r == Reject(Unsupported)
    ensures ParseAction(Strip(actionRaw)).Some? ==>
      var a := ParseAction(Strip(actionRaw)).value;
      && (role !in AllowedRoles(a) ==> r == Reject(NotAllowed))
      && (role in AllowedRoles(a) ==> r == Branch(a, Strip(commentsRaw), form, pid, user, snap, setting))
  {
    var action := Strip(actionRaw);
    var comments := Strip(commentsRaw);
    if action == [] then Reject(InvalidRequest)
    else
      match ParseAction(action)
      case None => Reject(Unsupported)
      case Some(a) =>
        if role !in AllowedRoles(a) then Reject(NotAllowed)
        else Branch(a, comments, form, pid, user, snap, setting)
  }

  /** The branch body after the role check. */
  function Branch(a: Action, comments: string, form: Form, pid: PetitionId, user: UserId,
                  snap: Option<Petition>, setting: FieldKey -> FieldConfig): Decision
  {
    match a
    case DoForwardToCvo => ForwardToCvoGuard(comments, form, pid, user)
    case DoSendForPermission => Call([SendForPermission(pid, user, comments)])
    case DoSendReceiptToPo => SendReceiptGuard(comments, pid, user, snap)
    case DoApprovePermission => ApproveGuard(comments, form, pid, user, snap, setting)
    case DoRejectPermission => RejectGuard(comments, pid, user, setting)
    case DoAssignInspector => AssignGuard(comments, form, pid, user, snap)
    case DoSubmitReport => SubmitReportGuard(form, pid, user, setting)
    case DoCvoComments => CvoCommentsGuard(form, pid, user, setting)
    case DoUploadConsolidatedReport => UploadConsolidatedGuard(form, pid, user, snap)
    case DoRequestDetailedEnquiry => RequestDetailedGuard(form, pid, user, snap)
    case DoGiveConclusion => GiveConclusionGuard(form, pid, user, snap)
    case DoSendToCmd => SendToCmdGuard(form, pid, user, snap, setting)
    case DoUpdateEfileNo => UpdateEfileGuard(form, pid, user, snap)
    case DoCmdSubmitActionReport => CmdActionGuard(form, pid, user, setting)
    case DoPoLodge => LodgeGuard(form, pid, user, snap, setting)
    case DoPoDirectLodge => DirectLodgeGuard(form, pid, user, snap, setting)
    case DoClose => CloseGuard(comments, pid, user, snap, setting)
  }

  /**
   * Whatever a branch calls acts on the requested petition as the session
   * user, and ends in the operation the action names.
   */
  lemma BranchTargetsRequest(a: Action, comments: string, form: Form, pid: PetitionId, user: UserId,
                             snap: Option<Petition>, setting: FieldKey -> FieldConfig)
    ensures var r := Branch(a, comments, form, pid, user, snap, setting);
      r.Call? ==> Targets(r.ops, pid, user) && EndsIn(a, r.ops[|r.ops| - 1])
  {
    match a
    case DoForwardToCvo => ForwardToCvoTargets(comments, form, pid, user, snap, setting);
    case DoSendForPermission => SendForPermissionTargets(comments, form, pid, user, snap, setting);
    case DoSendReceiptToPo => SendReceiptToPoTargets(comments, form, pid, user, snap, setting);
    case DoApprovePermission => ApprovePermissionTargets(comments, form, pid, user, snap, setting);
    case DoRejectPermission => RejectPermissionTargets(comments, form, pid, user, snap, setting);
    case DoAssignInspector => AssignInspectorTargets(comments, form, pid, user, snap, setting);
    case DoSubmitReport => SubmitReportTargets(comments, form, pid, user, snap, setting);
    case DoCvoComments => CvoCommentsTargets(comments, form, pid, user, snap, setting);
    case DoUploadConsolidatedReport => UploadConsolidatedReportTargets(comments, form, pid, user, snap, setting);
    case DoRequestDetailedEnquiry => RequestDetailedEnquiryTargets(comments, form, pid, user, snap, setting);
    case DoGiveConclusion => GiveConclusionTargets(comments, form, pid, user, snap, setting);
    case DoSendToCmd => SendToCmdTargets(comments, form, pid, user, snap, setting);
    case DoUpdateEfileNo => UpdateEfileNoTargets(comments, form, pid, user, snap, setting);
    case DoCmdSubmitActionReport => CmdSubmitActionReportTargets(comments, form, pid, user, snap, setting);
    case DoPoLodge => PoLodgeTargets(comments, form, pid, user, snap, setting);
    case DoPoDirectLodge => PoDirectLodgeTargets(comments, form, pid, user, snap, setting);
    case DoClose => CloseTargets(comments, form, pid, user, snap, setting);
  }

  /** A one- or two-operation call targets the request when its first and last operation do. */
  lemma OneOrTwoTarget(ops: seq<Op>, pid: PetitionId, user: UserId)
    requires 1 <= |ops| <= 2
    requires ops[0].pid == pid && ops[0].actor == user
    requires ops[|ops| - 1].pid == pid && ops[|ops| - 1].actor == user
    ensures Targets(ops, pid, user)
  {
  }

  lemma ForwardToCvoTargets(comments: string, form: Form, pid: PetitionId, user: UserId,
                            snap: Option<Petition>, setting: FieldKey -> FieldConfig)
    ensures var r := ForwardToCvoGuard(comments, form, pid, user);
      r.Call? ==> Targets(r.ops, pid, user) && EndsIn(DoForwardToCvo, r.ops[|r.ops| - 1])
  {
    var r := ForwardToCvoGuard(comments, form, pid, user);
    if r.Call? {
      OneOrTwoTarget(r.ops, pid, user);
    }
  }

  lemma SendForPermissionTargets(comments: string, form: Form, pid: PetitionId, user: UserId,
                                 snap: Option<Petition>, setting: FieldKey -> FieldConfig)
    ensures var r := Call([SendForPermission(pid, user, comments)]);
      r.Call? ==> Targets(r.ops, pid, user) && EndsIn(DoSendForPermission, r.ops[|r.ops| - 1])
  {
    var r := Call([SendForPermission(pid, user, comments)]);
    if r.Call? {
      OneOrTwoTarget(r.ops, pid, user);
    }
  }

  lemma SendReceiptToPoTargets(comments: string, form: Form, pid: PetitionId, user: UserId,
                               snap: Option<Petition>, setting: FieldKey -> FieldConfig)
    ensures var r := SendReceiptGuard(comments, pid, user, snap);
      r.Call? ==> Targets(r.ops, pid, user) && EndsIn(DoSendReceiptToPo, r.ops[|r.ops| - 1])
  {
    var r := SendReceiptGuard(comments, pid, user, snap);
    if r.Call? {
      OneOrTwoTarget(r.ops, pid, user);
    }
  }

  lemma ApprovePermissionTargets(comments: string, form: Form, pid: PetitionId, user: UserId,
                                 snap: Option<Petition>, setting: FieldKey -> FieldConfig)
    ensures var r := ApproveGuard(comments, form, pid, user, snap, setting);
      r.Call? ==> Targets(r.ops, pid, user) && EndsIn(DoApprovePermission, r.ops[|r.ops| - 1])
  {
    var r := ApproveGuard(comments, form, pid, user, snap, setting);
    if r.Call? {
      OneOrTwoTarget(r.ops, pid, user);
    }
  }

  lemma RejectPermissionTargets(comments: string, form: Form, pid: PetitionId, user: UserId,
                                snap: Option<Petition>, setting: FieldKey -> FieldConfig)
    ensures var r := RejectGuard(comments, pid, user, setting);
      r.Call? ==> Targets(r.ops, pid, user) && EndsIn(DoRejectPermission, r.ops[|r.ops| - 1])
  {
    var r := RejectGuard(comments, pid, user, setting);
    if r.Call? {
      OneOrTwoTarget(r.ops, pid, user);
    }
  }

  lemma AssignInspectorTargets(comments: string, form: Form, pid: PetitionId, user: UserId,
                               snap: Option<Petition>, setting: FieldKey -> FieldConfig)
    ensures var r := AssignGuard(comments, form, pid, user, snap);
      r.Call? ==> Targets(r.ops, pid, user) && EndsIn(DoAssignInspector, r.ops[|r.ops| - 1])
  {
    var r := AssignGuard(comments, form, pid, user, snap);
    if r.Call? {
      OneOrTwoTarget(r.ops, pid, user);
    }
  }

  lemma SubmitReportTargets(comments: string, form: Form, pid: PetitionId, user: UserId,
                            snap: Option<Petition>, setting: FieldKey -> FieldConfig)
    ensures var r := SubmitReportGuard(form, pid, user, setting);
      r.Call? ==> Targets(r.ops, pid, user) && EndsIn(DoSubmitReport, r.ops[|r.ops| - 1])
  {
    var r := SubmitReportGuard(form, pid, user, setting);
    if r.Call? {
      OneOrTwoTarget(r.ops, pid, user);
    }
  }

  lemma CvoCommentsTargets(comments: string, form: Form, pid: PetitionId, user: UserId,
                           snap: Option<Petition>, setting: FieldKey -> FieldConfig)
    ensures var r := CvoCommentsGuard(form, pid, user, setting);
      r.Call? ==> Targets(r.ops, pid, user) && EndsIn(DoCvoComments, r.ops[|r.ops| - 1])
  {
    var r := CvoCommentsGuard(form, pid, user, setting);
    if r.Call? {
      OneOrTwoTarget(r.ops, pid, user);
    }
  }

  lemma UploadConsolidatedReportTargets(comments: string, form: Form, pid: PetitionId, user: UserId,
                                        snap: Option<Petition>, setting: FieldKey -> FieldConfig)
    ensures var r := UploadConsolidatedGuard(form, pid, user, snap);
      r.Call? ==> Targets(r.ops, pid, user) && EndsIn(DoUploadConsolidatedReport, r.ops[|r.ops| - 1])
  {
    var r := UploadConsolidatedGuard(form, pid, user, snap);
    if r.Call? {
      OneOrTwoTarget(r.ops, pid, user);
    }
  }

  lemma RequestDetailedEnquiryTargets(comments: string, form: Form, pid: PetitionId, user: UserId,
                                      snap: Option<Petition>, setting: FieldKey -> FieldConfig)
    ensures var r := RequestDetailedGuard(form, pid, user, snap);
      r.Call? ==> Targets(r.ops, pid, user) && EndsIn(DoRequestDetailedEnquiry, r.ops[|r.ops| - 1])
  {
    var r := RequestDetailedGuard(form, pid, user, snap);
    if r.Call? {
      OneOrTwoTarget(r.ops, pid, user);
    }
  }

  lemma GiveConclusionTargets(comments: string, form: Form, pid: PetitionId, user: UserId,
                              snap: Option<Petition>, setting: FieldKey -> FieldConfig)
    ensures var r := GiveConclusionGuard(form, pid, user, snap);
      r.Call? ==> Targets(r.ops, pid, user) && EndsIn(DoGiveConclusion, r.ops[|r.ops| - 1])
  {
    var r := GiveConclusionGuard(form, pid, user, snap);
    if r.Call? {
      OneOrTwoTarget(r.ops, pid, user);
    }
  }

  lemma SendToCmdTargets(comments: string, form: Form, pid: PetitionId, user: UserId,
                         snap: Option<Petition>, setting: FieldKey -> FieldConfig)
    ensures var r := SendToCmdGuard(form, pid, user, snap, setting);
      r.Call? ==> Targets(r.ops, pid, user) && EndsIn(DoSendToCmd, r.ops[|r.ops| - 1])
  {
    var r := SendToCmdGuard(form, pid, user, snap, setting);
    if r.Call? {
      OneOrTwoTarget(r.ops, pid, user);
    }
  }

  lemma UpdateEfileNoTargets(comments: string, form: Form, pid: PetitionId, user: UserId,
                             snap: Option<Petition>, setting: FieldKey -> FieldConfig)
    ensures var r := UpdateEfileGuard(form, pid, user, snap);
      r.Call? ==> Targets(r.ops, pid, user) && EndsIn(DoUpdateEfileNo, r.ops[|r.ops| - 1])
  {
    var r := UpdateEfileGuard(form, pid, user, snap);
    if r.Call? {
      OneOrTwoTarget(r.ops, pid, user);
    }
  }

  lemma CmdSubmitActionReportTargets(comments: string, form: Form, pid: PetitionId, user: UserId,
                                     snap: Option<Petition>, setting: FieldKey -> FieldConfig)
    ensures var r := CmdActionGuard(form, pid, user, setting);
      r.Call? ==> Targets(r.ops, pid, user) && EndsIn(DoCmdSubmitActionReport, r.ops[|r.ops| - 1])
  {
    var r := CmdActionGuard(form, pid, user, setting);
    if r.Call? {
      OneOrTwoTarget(r.ops, pid, user);
    }
  }

  lemma PoLodgeTargets(comments: string, form: Form, pid: PetitionId, user: UserId,
                       snap: Option<Petition>, setting: FieldKey -> FieldConfig)
    ensures var r := LodgeGuard(form, pid, user, snap, setting);
      r.Call? ==> Targets(r.ops, pid, user) && EndsIn(DoPoLodge, r.ops[|r.ops| - 1])
  {
    var r := LodgeGuard(form, pid, user, snap, setting);
    if r.Call? {
      OneOrTwoTarget(r.ops, pid, user);
    }
  }

  lemma PoDirectLodgeTargets(comments: string, form: Form, pid: PetitionId, user: UserId,
                             snap: Option<Petition>, setting: FieldKey -> FieldConfig)
    ensures var r := DirectLodgeGuard(form, pid, user, snap, setting);
      r.Call? ==> Targets(r.ops, pid, user) && EndsIn(DoPoDirectLodge, r.ops[|r.ops| - 1])
  {
    var r := DirectLodgeGuard(form, pid, user, snap, setting);
    if r.Call? {
      OneOrTwoTarget(r.ops, pid, user);
    }
  }

  lemma CloseTargets(comments: string, form: Form, pid: PetitionId, user: UserId,
                     snap: Option<Petition>, setting: FieldKey -> FieldConfig)
    ensures var r := CloseGuard(comments, pid, user, snap, setting);
      r.Call? ==> Targets(r.ops, pid, user) && EndsIn(DoClose, r.ops[|r.ops| - 1])
  {
    var r := CloseGuard(comments, pid, user, snap, setting);
    if r.Call? {
      OneOrTwoTarget(r.ops, pid, user);
    }
  }

  function ForwardToCvoGuard(comments: string, form: Form, pid: PetitionId, user: UserId): (r: Decision)
    ensures r.Call? <==> ParseOffice(Strip(form.targetCvo)).Some?
    ensures r.Call? ==> r.ops == [ForwardToCvo(pid, user, ParseOffice(Strip(form.targetCvo)).value, comments)]
  {
    match ParseOffice(Strip(form.targetCvo))
    case None => Reject(BadInput(InvalidTargetCvo))
    case Some(target) => Call([ForwardToCvo(pid, user, target, comments)])
  }

  function SendReceiptGuard(comments: string, pid: PetitionId, user: UserId, snap: Option<Petition>): (r: Decision)
    ensures r.Call? <==> snap.None? || snap.value.requiresPermission
    ensures r.Call? ==> r.ops == [CvoSendReceiptToPo(pid, user, comments)]
  {
    if snap.Some? && !snap.value.requiresPermission then Reject(WrongState(DirectEnquiryNeedsNoPermission))
    else Call([CvoSendReceiptToPo(pid, user, comments)])
  }

  /**
   * The message an e-file field's resolution refuses a blank number with:
   * none when the field is optional, otherwise the wording of that form.
   */
  function EfileMessage(setting: FieldKey -> FieldConfig, key: FieldKey): Option<Warning> {
    if !Required(setting, key) then None
    else if key == ApproveEfileNo then Some(RequiredToApprove(Label(setting, key)))
    else if key == SendCmdEfileNo then Some(CompulsoryBeforeCmd(Label(setting, key)))
    else Some(IsRequired(Label(setting, key)))
  }

  function ApproveGuard(comments: string, form: Form, pid: PetitionId, user: UserId, snap: Option<Petition>,
                        setting: FieldKey -> FieldConfig): (r: Decision)
    ensures var target, efile := ParseOffice(Strip(form.targetCvo)), ResolveEfile(snap, form.efileNo, EfileMessage(setting, ApproveEfileNo));
      && (r.Call? <==> snap.Some? && target.Some? && ParseEnquiryType(Strip(form.enquiryTypeDecision)).Some? && efile.Resolved?)
      && (r.Call? ==> r.ops == [ApprovePermission(pid, user, target.value, EfileArg(efile), comments, Strip(form.enquiryTypeDecision))])
  {
    if snap.None? then Reject(NotFound)
    else
      var decision := Strip(form.enquiryTypeDecision);
      match ParseOffice(Strip(form.targetCvo))
      case None => Reject(BadInput(InvalidTargetCvo))
      case Some(target) =>
        if ParseEnquiryType(decision).None? then Reject(BadInput(MissingEnquiryTypeDecision))
        else
          match ResolveEfile(snap, form.efileNo, EfileMessage(setting, ApproveEfileNo))
          case Refused(w) => Reject(BadInput(w))
          case Resolved(efile) => Call([ApprovePermission(pid, user, target, efile.GetOr([]), comments, decision)])
  }

  function RejectGuard(comments: string, pid: PetitionId, user: UserId, setting: FieldKey -> FieldConfig): (r: Decision)
    ensures r.Call? <==> comments != [] || !Required(setting, RejectReason)
    ensures r.Call? ==> r.ops == [RejectPermission(pid, user, comments)]
  {
    if Required(setting, RejectReason) && comments == [] then Reject(BadInput(IsRequired(Label(setting, RejectReason))))
    else Call([RejectPermission(pid, user, comments)])
  }

  /** When `assign_inspector` gets through its gates. */
  predicate AssignAllowed(form: Form, snap: Option<Petition>) {
    && (snap.Some? && snap.value.requiresPermission ==> snap.value.status == PermissionApproved)
    && (snap.Some? && !snap.value.requiresPermission ==>
          snap.value.status == ForwardedToCvo && ParseEnquiryType(Strip(form.enquiryTypeDecision)).Some?)
    && ParseOptionalInt(form.inspectorId).Some?
  }

  function AssignGuard(comments: string, form: Form, pid: PetitionId, user: UserId, snap: Option<Petition>): (r: Decision)
    ensures r.Call? <==> AssignAllowed(form, snap)
    ensures r.Call? ==>
      r.ops == [AssignToInspector(pid, user, ParseOptionalInt(form.inspectorId).value, comments,
                                  if snap.Some? && !snap.value.requiresPermission
                                  then Strip(form.enquiryTypeDecision) else [])]
  {
    if snap.Some? && snap.value.requiresPermission && snap.value.status != PermissionApproved then
      Reject(WrongState(PermissionCompulsory))
    else if snap.Some? && !snap.value.requiresPermission && snap.value.status != ForwardedToCvo then
      Reject(WrongState(DirectAssignOnlyAtCvo))
    else
      match ParseOptionalInt(form.inspectorId)
      case None => Reject(BadInput(InvalidInspector))
      case Some(inspector) =>
        if snap.Some? && !snap.value.requiresPermission then
          var decision := Strip(form.enquiryTypeDecision);
          if ParseEnquiryType(decision).None? then Reject(BadInput(MissingEnquiryTypeDecision))
          else Call([AssignToInspector(pid, user, inspector, comments, decision)])
        else Call([AssignToInspector(pid, user, inspector, comments, [])])
  }

  function SubmitReportGuard(form: Form, pid: PetitionId, user: UserId, setting: FieldKey -> FieldConfig): (r: Decision)
    ensures r.Call? <==> && (Strip(form.reportText) != [] || !Required(setting, ReportText)) && |Strip(form.reportText)| <= 20000
                         && (Strip(form.recommendation) != [] || !Required(setting, Recommendation))
                         && |Strip(form.recommendation)| <= 5000
                         && !form.reportFile.Invalid? && (Required(setting, ReportFile) ==> form.reportFile.Stored?)
    ensures r.Call? ==> r.ops == [SubmitEnquiryReport(pid, user, Strip(form.reportText), [], Strip(form.recommendation),
                                                      FileArg(form.reportFile))]
  {
    var reportText := Strip(form.reportText);
    var recommendation := Strip(form.recommendation);
    if Required(setting, ReportText) && reportText == [] then Reject(BadInput(IsRequired(Label(setting, ReportText))))
    else if |reportText| > 20000 then Reject(BadInput(ReportTextTooLong))
    else if Required(setting, Recommendation) && recommendation == [] then
      Reject(BadInput(AreRequired(Label(setting, Recommendation))))
    else if |recommendation| > 5000 then Reject(BadInput(RecommendationTooLong))
    else if Required(setting, ReportFile) && form.reportFile.NoFile? then Reject(BadInput(ReportFileCompulsory))
    else if form.reportFile.Invalid? then Reject(BadInput(UploadRefused(form.reportFile.message)))
    else Call([SubmitEnquiryReport(pid, user, reportText, [], recommendation, FileArg(form.reportFile))])
  }

  /** A stored consolidated report is recorded first, in its own transaction, then the comments. */
  function CvoCommentsGuard(form: Form, pid: PetitionId, user: UserId, setting: FieldKey -> FieldConfig): (r: Decision)
    ensures r.Call? <==> && (Strip(form.cvoComments) != [] || !Required(setting, CvoComments))
                         && !form.consolidatedFile.Invalid?
                         && (Required(setting, ConsolidatedReportFile) ==> form.consolidatedFile.Stored?)
    ensures r.Call? ==>
      r.ops == (if form.consolidatedFile.Stored?
                then [CvoUploadConsolidatedReport(pid, user, form.consolidatedFile.name)] else [])
               + [CvoAddComments(pid, user, Strip(form.cvoComments))]
  {
    var cvoComments := Strip(form.cvoComments);
    if Required(setting, CvoComments) && cvoComments == [] then Reject(BadInput(AreRequired(Label(setting, CvoComments))))
    else if Required(setting, ConsolidatedReportFile) && form.consolidatedFile.NoFile? then
      Reject(BadInput(IsRequired(Label(setting, ConsolidatedReportFile))))
    else
      match form.consolidatedFile
      case Invalid(m) => Reject(BadInput(UploadRefused(m)))
      case Stored(name) =>
        Call([CvoUploadConsolidatedReport(pid, user, name), CvoAddComments(pid, user, cvoComments)])
      case NoFile => Call([CvoAddComments(pid, user, cvoComments)])
  }

  function UploadConsolidatedGuard(form: Form, pid: PetitionId, user: UserId, snap: Option<Petition>): (r: Decision)
    ensures r.Call? <==> (snap.None? || snap.value.status == EnquiryReportSubmitted) && form.consolidatedFile.Stored?
    ensures r.Call? ==> r.ops == [CvoUploadConsolidatedReport(pid, user, form.consolidatedFile.name)]
  {
    if snap.Some? && snap.value.status != EnquiryReportSubmitted then Reject(WrongState(ConsolidatedOnlyAfterReport))
    else
      match form.consolidatedFile
      case NoFile => Reject(BadInput(ChooseConsolidatedReport))
      case Invalid(m) => Reject(BadInput(UploadRefused(m)))
      case Stored(name) => Call([CvoUploadConsolidatedReport(pid, user, name)])
  }

  function RequestDetailedGuard(form: Form, pid: PetitionId, user: UserId, snap: Option<Petition>): (r: Decision)
    ensures r.Call? <==> (snap.None? || snap.value.enquiryType == Preliminary) && Strip(form.cvoComments) != []
    ensures r.Call? ==> r.ops == [CvoRequestDetailedEnquiry(pid, user, Strip(form.cvoComments))]
  {
    if snap.Some? && snap.value.enquiryType != Preliminary then Reject(WrongState(DetailedOnlyForPreliminary))
    else if Strip(form.cvoComments) == [] then Reject(BadInput(DetailedRemarksRequired))
    else Call([CvoRequestDetailedEnquiry(pid, user, Strip(form.cvoComments))])
  }

  function GiveConclusionGuard(form: Form, pid: PetitionId, user: UserId, snap: Option<Petition>): (r: Decision)
    ensures var efile := ResolveEfile(snap, form.efileNo, Some(EfileRequiredForConclusion));
      && (r.Call? <==> snap.Some? && efile.Resolved?
                       && Strip(form.finalConclusion) != [] && |Strip(form.finalConclusion)| <= 10000
                       && |Strip(form.instructions)| <= 5000 && !form.conclusionFile.Invalid?)
      && (r.Call? ==> r.ops == [PoGiveConclusion(pid, user, EfileArg(efile), Strip(form.finalConclusion),
                                                 Strip(form.instructions), FileArg(form.conclusionFile))])
  {
    if snap.None? then Reject(NotFound)
    else
      var conclusion := Strip(form.finalConclusion);
      var instructions := Strip(form.instructions);
      match ResolveEfile(snap, form.efileNo, Some(EfileRequiredForConclusion))
      case Refused(w) => Reject(BadInput(w))
      case Resolved(efile) =>
        if conclusion == [] then Reject(BadInput(FinalConclusionRequired))
        else if |conclusion| > 10000 then Reject(BadInput(FinalConclusionTooLong))
        else if |instructions| > 5000 then Reject(BadInput(InstructionsTooLong))
        else if form.conclusionFile.Invalid? then Reject(BadInput(UploadRefused(form.conclusionFile.message)))
        else Call([PoGiveConclusion(pid, user, efile.GetOr([]), conclusion, instructions, FileArg(form.conclusionFile))])
  }

  function SendToCmdGuard(form: Form, pid: PetitionId, user: UserId, snap: Option<Petition>,
                          setting: FieldKey -> FieldConfig): (r: Decision)
    ensures var efile := ResolveEfile(snap, form.efileNo, EfileMessage(setting, SendCmdEfileNo));
      && (r.Call? <==> snap.Some? && efile.Resolved?
                       && (Strip(form.cmdInstructions) != [] || !Required(setting, SendCmdInstructions))
                       && |Strip(form.cmdInstructions)| <= 5000)
      && (r.Call? ==> r.ops == [PoSendToCmd(pid, user, Strip(form.cmdInstructions), EfileArg(efile))])
  {
    if snap.None? then Reject(NotFound)
    else
      match ResolveEfile(snap, form.efileNo, EfileMessage(setting, SendCmdEfileNo))
      case Refused(w) => Reject(BadInput(w))
      case Resolved(efile) =>
        var instructions := Strip(form.cmdInstructions);
        if Required(setting, SendCmdInstructions) && instructions == [] then
          Reject(BadInput(IsRequired(Label(setting, SendCmdInstructions))))
        else if |instructions| > 5000 then Reject(BadInput(CmdInstructionsTooLong))
        else Call([PoSendToCmd(pid, user, instructions, efile.GetOr([]))])
  }

  /** When `update_efile_no` reaches the model. */
  predicate EfileUpdateAllowed(form: Form, snap: Option<Petition>) {
    && 1 <= |Strip(form.efileNo)| <= MaxEfileLength
    && snap.Some? && !snap.value.requiresPermission
    && snap.value.status in DirectEnquiryEfileEditable
    && Strip(snap.value.efileNo) == []
  }

  function UpdateEfileGuard(form: Form, pid: PetitionId, user: UserId, snap: Option<Petition>): (r: Decision)
    ensures r.Call? <==> EfileUpdateAllowed(form, snap)
    ensures r.Call? ==> r.ops == [PoUpdateEfileNo(pid, user, Strip(form.efileNo))]
  {
    var efile := Strip(form.efileNo);
    if efile == [] then Reject(BadInput(EfileRequired))
    else if |efile| > MaxEfileLength then Reject(BadInput(EfileTooLong))
    else if snap.None? then Reject(NotFound)
    else if snap.value.requiresPermission then Reject(WrongState(DirectEnquiryOnly))
    else if snap.value.status !in DirectEnquiryEfileEditable then Reject(WrongState(EfileOnlyBeforeReport))
    else if Strip(snap.value.efileNo) != [] then Reject(WrongState(EfileAlreadySet))
    else Call([PoUpdateEfileNo(pid, user, efile)])
  }

  function CmdActionGuard(form: Form, pid: PetitionId, user: UserId, setting: FieldKey -> FieldConfig): (r: Decision)
    ensures r.Call? <==> && (Strip(form.actionTaken) != [] || !Required(setting, ActionTakenDetails))
                         && |Strip(form.actionTaken)| <= 10000 && !form.actionReportFile.Invalid?
                         && (Required(setting, ActionReportFile) ==> form.actionReportFile.Stored?)
    ensures r.Call? ==> r.ops == [CmdSubmitActionReport(pid, user, Strip(form.actionTaken), FileArg(form.actionReportFile))]
  {
    var actionTaken := Strip(form.actionTaken);
    if Required(setting, ActionTakenDetails) && actionTaken == [] then
      Reject(BadInput(AreRequired(Label(setting, ActionTakenDetails))))
    else if |actionTaken| > 10000 then Reject(BadInput(ActionTakenTooLong))
    else if Required(setting, ActionReportFile) && form.actionReportFile.NoFile? then
      Reject(BadInput(IsRequired(Label(setting, ActionReportFile))))
    else if form.actionReportFile.Invalid? then Reject(BadInput(UploadRefused(form.actionReportFile.message)))
    else Call([CmdSubmitActionReport(pid, user, actionTaken, FileArg(form.actionReportFile))])
  }

  function LodgeGuard(form: Form, pid: PetitionId, user: UserId, snap: Option<Petition>,
                      setting: FieldKey -> FieldConfig): (r: Decision)
    ensures var efile := ResolveEfile(snap, form.efileNo, EfileMessage(setting, LodgeEfileNo));
      && (r.Call? <==> snap.Some? && (Strip(form.lodgeRemarks) != [] || !Required(setting, LodgeRemarks))
                       && |Strip(form.lodgeRemarks)| <= 5000 && efile.Resolved?)
      && (r.Call? ==> r.ops == [PoLodgePetition(pid, user, Strip(form.lodgeRemarks), EfileArg(efile))])
  {
    if snap.None? then Reject(NotFound)
    else
      var remarks := Strip(form.lodgeRemarks);
      if Required(setting, LodgeRemarks) && remarks == [] then Reject(BadInput(IsRequired(Label(setting, LodgeRemarks))))
      else if |remarks| > 5000 then Reject(BadInput(LodgeRemarksTooLong))
      else
        match ResolveEfile(snap, form.efileNo, EfileMessage(setting, LodgeEfileNo))
        case Refused(w) => Reject(BadInput(w))
        case Resolved(efile) => Call([PoLodgePetition(pid, user, remarks, efile.GetOr([]))])
  }

  function DirectLodgeGuard(form: Form, pid: PetitionId, user: UserId, snap: Option<Petition>,
                            setting: FieldKey -> FieldConfig): (r: Decision)
    ensures var efile := ResolveEfile(snap, form.efileNo, EfileMessage(setting, DirectLodgeEfileNo));
      && (r.Call? <==> (snap.None? || snap.value.status == SentForPermission)
                       && (Strip(form.lodgeRemarks) != [] || !Required(setting, DirectLodgeRemarks))
                       && |Strip(form.lodgeRemarks)| <= 5000 && efile.Resolved?)
      && (r.Call? ==> r.ops == [PoDirectLodgeNoEnquiry(pid, user, Strip(form.lodgeRemarks), EfileArg(efile))])
    ensures snap.Some? && snap.value.status != SentForPermission ==> r == Reject(WrongState(DirectLodgeOnlyAtPermission))
  {
    if snap.Some? && snap.value.status != SentForPermission then Reject(WrongState(DirectLodgeOnlyAtPermission))
    else
      var remarks := Strip(form.lodgeRemarks);
      if Required(setting, DirectLodgeRemarks) && remarks == [] then
        Reject(BadInput(IsRequired(Label(setting, DirectLodgeRemarks))))
      else if |remarks| > 5000 then Reject(BadInput(LodgeRemarksTooLong))
      else
        match ResolveEfile(snap, form.efileNo, EfileMessage(setting, DirectLodgeEfileNo))
        case Refused(w) => Reject(BadInput(w))
        case Resolved(efile) => Call([PoDirectLodgeNoEnquiry(pid, user, remarks, efile.GetOr([]))])
  }

  function CloseGuard(comments: string, pid: PetitionId, user: UserId, snap: Option<Petition>,
                      setting: FieldKey -> FieldConfig): (r: Decision)
    ensures r.Call? <==> (snap.None? || snap.value.status == Lodged) && |comments| <= 5000
                         && (comments != [] || !Required(setting, CloseComments))
    ensures snap.Some? && snap.value.status != Lodged ==> r == Reject(WrongState(CloseOnlyAfterLodged))
    ensures r.Call? ==> r.ops == [ClosePetition(pid, user, comments)]
  {
    if snap.Some? && snap.value.status != Lodged then Reject(WrongState(CloseOnlyAfterLodged))
    else if Required(setting, CloseComments) && comments == [] then Reject(BadInput(IsRequired(Label(setting, CloseComments))))
    else if |comments| > 5000 then Reject(BadInput(ClosingRemarksTooLong))
    else Call([ClosePetition(pid, user, comments)])
  }
}
