/**
 * Shared vocabulary of the petition workflow: petition states, user roles,
 * CVO jurisdictions, the petition head record, the tracking (ledger) row,
 * the users directory the workflow consults, and the few string helpers
 * (Python `str.strip`, SQL `BTRIM`, decimal digits) the guards rely on.
 */
module Domain {

  datatype Option<+T> = None | Some(value: T) {
    function GetOr(default: T): T {
      match this
      case Some(v) => v
      case None => default
    }
  }

  /** `users.id` is a SERIAL key, so every user id is positive (and truthy in Python). */
  type UserId = n: nat | n > 0 witness 1
  type PetitionId = nat

  /** The values of the `petition_status` column that the code names. */
  datatype Status =
    | Received
    | ForwardedToCvo
    | SentForPermission
    | PermissionApproved
    | PermissionRejected
    | AssignedToInspector
    | EnquiryInProgress
    | EnquiryReportSubmitted
    | CvoCommentsAdded      // legacy value, only read by the dashboard folds
    | ForwardedToPo
    | ForwardedToJmd        // legacy alias of ForwardedToPo, only read
    | ActionInstructed
    | ActionTaken
    | Lodged
    | Closed

  function StatusName(s: Status): string {
    match s
    case Received => "received"
    case ForwardedToCvo => "forwarded_to_cvo"
    case SentForPermission => "sent_for_permission"
    case PermissionApproved => "permission_approved"
    case PermissionRejected => "permission_rejected"
    case AssignedToInspector => "assigned_to_inspector"
    case EnquiryInProgress => "enquiry_in_progress"
    case EnquiryReportSubmitted => "enquiry_report_submitted"
    case CvoCommentsAdded => "cvo_comments_added"
    case ForwardedToPo => "forwarded_to_po"
    case ForwardedToJmd => "forwarded_to_jmd"
    case ActionInstructed => "action_instructed"
    case ActionTaken => "action_taken"
    case Lodged => "lodged"
    case Closed => "closed"
  }

  /** The session roles (VALID_USER_ROLES). */
  datatype Role =
    | SuperAdmin | DataEntry | Po
    | CmdApspdcl | CmdApepdcl | CmdApcpdcl | CgmHrTransco
    | Dsp | CvoApspdcl | CvoApepdcl | CvoApcpdcl
    | Inspector

  /** The jurisdictions a petition can target (VALID_TARGET_CVO). */
  datatype Office = Apspdcl | Apepdcl | Apcpdcl | Headquarters

  function ParseOffice(s: string): (r: Option<Office>)
    ensures r.Some? <==> s in {"apspdcl", "apepdcl", "apcpdcl", "headquarters"}
  {
    if s == "apspdcl" then Some(Apspdcl)
    else if s == "apepdcl" then Some(Apepdcl)
    else if s == "apcpdcl" then Some(Apcpdcl)
    else if s == "headquarters" then Some(Headquarters)
    else None
  }

  /** The office -> CVO/DSP role map used when forwarding or approving. */
  function CvoRole(o: Office): Role {
    match o
    case Apspdcl => CvoApspdcl
    case Apepdcl => CvoApepdcl
    case Apcpdcl => CvoApcpdcl
    case Headquarters => Dsp
  }

  /** The office -> CMD/CGM-HR role map used when sending for action. */
  function CmdRole(o: Office): Role {
    match o
    case Apspdcl => CmdApspdcl
    case Apepdcl => CmdApepdcl
    case Apcpdcl => CmdApcpdcl
    case Headquarters => CgmHrTransco
  }

  predicate IsCvoLike(r: Role) {
    r in {CvoApspdcl, CvoApepdcl, CvoApcpdcl, Dsp}
  }

  datatype EnquiryType = Detailed | Preliminary

  function ParseEnquiryType(s: string): (r: Option<EnquiryType>)
    ensures r.Some? <==> s in {"detailed", "preliminary"}
  {
    if s == "detailed" then Some(Detailed)
    else if s == "preliminary" then Some(Preliminary)
    else None
  }

  datatype PermissionStatus = NotRequired | Pending | Approved | Rejected

  datatype Date = Date(year: nat, month: nat, day: nat)

  /**
   * The petition head. `efileNo`, `ereceiptNo` and `ereceiptFile` use the
   * empty string for SQL NULL: every reader treats both as "not set".
   */
  datatype Petition = Petition(
    id: PetitionId,
    sno: string,
    status: Status,
    enquiryType: EnquiryType,
    requiresPermission: bool,
    permissionStatus: PermissionStatus,
    efileNo: string,
    targetCvo: Option<Office>,
    assignedInspector: Option<UserId>,
    currentHandler: Option<UserId>,
    ereceiptNo: string,
    ereceiptFile: string,
    receivedAt: string,
    petitionType: string,
    source: string,
    receivedDate: Option<Date>,
    createdBy: UserId)

  /** The `action` column of a tracking row: one fixed text per kind of step. */
  datatype Step =
    | CvoForwarding
    | PermissionRequest
    | ReceiptToPo
    | PermissionGranted
    | PermissionRefused
    | InspectorAssignment
    | DirectAcknowledgement
    | EreceiptUpdate
    | ReportSubmission
    | CommentsToPo
    | DetailedRequest
    | ConsolidatedUpload
    | FinalConclusion
    | CmdForwarding
    | ActionReport
    | PoLodging
    | EfileCorrection
    | DirectLodging
    | CvoAction
    | Closing
    | EfileEntry
    | Creation

  function StepText(s: Step): string {
    match s
    case CvoForwarding => "Forwarded to CVO"
    case PermissionRequest => "Sent for Permission to PO"
    case ReceiptToPo => "Receipt Sent to PO for Permission"
    case PermissionGranted => "Permission Approved - Sent to CVO"
    case PermissionRefused => "Permission Rejected"
    case InspectorAssignment => "Assigned to Inspector"
    case DirectAcknowledgement => "Direct Enquiry Acknowledgement Sent to PO (for E-Office File No)"
    case EreceiptUpdate => "E-Receipt Updated"
    case ReportSubmission => "Enquiry Report Submitted"
    case CommentsToPo => "CVO Comments Added - Forwarded to PO"
    case DetailedRequest => "Preliminary Enquiry Completed - Requested PO Permission for Detailed Enquiry"
    case ConsolidatedUpload => "CVO/DSP Consolidated Report Uploaded"
    case FinalConclusion => "Final Conclusion Given - Petition Closed"
    case CmdForwarding => "Forwarded to CMD for Action"
    case ActionReport => "Action Taken - Copy Sent to PO for Closure"
    case PoLodging => "Lodged by PO"
    case EfileCorrection => "PO Updated E-Office File No"
    case DirectLodging => "Direct Lodged by PO (No Enquiry/No Action Required)"
    case CvoAction => "Action Taken"
    case Closing => "Petition Closed"
    case EfileEntry => "E-Office File Number Updated"
    case Creation => "Petition Created"
  }

  /** One `petition_tracking` row. */
  datatype TrackingEntry = TrackingEntry(
    petitionId: PetitionId,
    fromUser: UserId,
    toUser: Option<UserId>,
    fromRole: Option<Role>,
    toRole: Option<Role>,
    action: Step,
    comments: string,
    statusBefore: Option<Status>,
    statusAfter: Status,
    createdAt: int)

  /**
   * What the workflow reads from the `users` table: the first active user
   * holding each role, every user's role, and each inspector's CVO.
   */
  datatype Directory = Directory(
    activeByRole: map<Role, UserId>,
    roleOf: map<UserId, Role>,
    assignedCvo: map<UserId, UserId>)

  function ActiveUser(dir: Directory, r: Role): (u: Option<UserId>)
    ensures u.Some? <==> r in dir.activeByRole
  {
    if r in dir.activeByRole then Some(dir.activeByRole[r]) else None
  }

  function RoleOf(dir: Directory, u: UserId): (r: Option<Role>)
    ensures r.Some? <==> u in dir.roleOf
  {
    if u in dir.roleOf then Some(dir.roleOf[u]) else None
  }

  /** `(SELECT role FROM users WHERE id = %s)` with a possibly NULL id. */
  function RoleOfOpt(dir: Directory, u: Option<UserId>): Option<Role> {
    match u
    case None => None
    case Some(v) => RoleOf(dir, v)
  }

  // ---------------------------------------------------------------------
  // Strings
  // ---------------------------------------------------------------------

  /** The characters for which Python's `str.isspace()` holds. */
  predicate IsSpace(c: char) {
    c in {'\t', '\n', '\U{B}', '\U{C}', '\r', '\U{1C}', '\U{1D}', '\U{1E}', '\U{1F}',
          ' ', '\U{85}', '\U{A0}', '\U{1680}',
          '\U{2000}', '\U{2001}', '\U{2002}', '\U{2003}', '\U{2004}', '\U{2005}', '\U{2006}',
          '\U{2007}', '\U{2008}', '\U{2009}', '\U{200A}',
          '\U{2028}', '\U{2029}', '\U{202F}', '\U{205F}', '\U{3000}'}
  }

  function StripLeft(s: string): (r: string)
    ensures |r| <= |s| && r == s[|s| - |r|..]
    ensures r == [] || !IsSpace(r[0])
    ensures forall i :: 0 <= i < |s| - |r| ==> IsSpace(s[i])
  {
    if s != [] && IsSpace(s[0]) then StripLeft(s[1..]) else s
  }

  function StripRight(s: string): (r: string)
    ensures |r| <= |s| && r == s[..|r|]
    ensures r == [] || !IsSpace(r[|r| - 1])
    ensures forall i :: |r| <= i < |s| ==> IsSpace(s[i])
  {
    if s != [] && IsSpace(s[|s| - 1]) then StripRight(s[..|s| - 1]) else s
  }

  /** Python `str.strip()`. */
  function Strip(s: string): (r: string)
    ensures |r| <= |s|
    ensures r == [] || (!IsSpace(r[0]) && !IsSpace(r[|r| - 1]))
  {
    StripRight(StripLeft(s))
  }

  /** `str.strip()` keeps one contiguous slice of its input and removes only whitespace around it. */
  lemma StripKeepsMiddle(s: string)
    ensures var r := Strip(s); var k := |s| - |StripLeft(s)|;
      0 <= k <= |s| - |r| && r == s[k..k + |r|]
      && (forall i :: 0 <= i < k ==> IsSpace(s[i]))
      && (forall i :: k + |r| <= i < |s| ==> IsSpace(s[i]))
  {
  }

  /** `COALESCE(BTRIM(x), '') = ''`: BTRIM removes spaces only. */
  predicate SqlBlank(s: string) {
    forall i :: 0 <= i < |s| ==> s[i] == ' '
  }

  // ---------------------------------------------------------------------
  // Decimal numbers
  // ---------------------------------------------------------------------

  predicate IsDigit(c: char) { '0' <= c <= '9' }

  function DigitChar(d: nat): (c: char)
    requires d < 10
    ensures IsDigit(c)
  {
    "0123456789"[d]
  }

  function DigitValue(c: char): (d: nat)
    requires IsDigit(c)
    ensures d < 10 && DigitChar(d) == c
  {
    (c as int - '0' as int) as nat
  }

  /** The decimal digits of `n`, without leading zeros ("0" for zero). */
  function Digits(n: nat): (s: string)
    ensures |s| >= 1
    ensures forall i :: 0 <= i < |s| ==> IsDigit(s[i])
    decreases n
  {
    if n < 10 then [DigitChar(n)] else Digits(n / 10) + [DigitChar(n % 10)]
  }

  /** The value of a string of decimal digits. */
  function DigitsValue(s: string): nat
    requires forall i :: 0 <= i < |s| ==> IsDigit(s[i])
  {
    if s == [] then 0 else DigitsValue(s[..|s| - 1]) * 10 + DigitValue(s[|s| - 1])
  }

  function Zeros(k: nat): (s: string)
    ensures |s| == k && forall i :: 0 <= i < k ==> s[i] == '0'
  {
    if k == 0 then [] else Zeros(k - 1) + ['0']
  }

  /** Python's `f"{n:0{width}d}"` for a non-negative `n`. */
  function ZeroPad(n: nat, width: nat): (s: string)
    ensures |s| >= width && forall i :: 0 <= i < |s| ==> IsDigit(s[i])
  {
    var d := Digits(n);
    (if |d| < width then Zeros(width - |d|) else []) + d
  }

  lemma {:induction false} DigitsValueOfDigits(n: nat)
    ensures DigitsValue(Digits(n)) == n
    decreases n
  {
    if n >= 10 {
      DigitsValueOfDigits(n / 10);
      var d := Digits(n / 10) + [DigitChar(n % 10)];
      assert d[..|d| - 1] == Digits(n / 10);
    }
  }

  lemma {:induction false} LeadingZerosValue(k: nat, s: string)
    requires forall i :: 0 <= i < |s| ==> IsDigit(s[i])
    ensures forall i :: 0 <= i < |Zeros(k) + s| ==> IsDigit((Zeros(k) + s)[i])
    ensures DigitsValue(Zeros(k) + s) == DigitsValue(s)
    decreases |s|
  {
    var z := Zeros(k) + s;
    if s == [] {
      assert z == Zeros(k);
      ZerosValue(k);
    } else {
      assert z[..|z| - 1] == Zeros(k) + s[..|s| - 1];
      LeadingZerosValue(k, s[..|s| - 1]);
    }
  }

  lemma {:induction false} ZerosValue(k: nat)
    ensures DigitsValue(Zeros(k)) == 0
  {
    if k > 0 {
      assert Zeros(k)[..k - 1] == Zeros(k - 1);
      ZerosValue(k - 1);
    }
  }

  /** Zero-padding round-trips: the padded digits still denote `n`. */
  lemma ZeroPadValue(n: nat, width: nat)
    ensures DigitsValue(ZeroPad(n, width)) == n
  {
    DigitsValueOfDigits(n);
    if |Digits(n)| < width {
      LeadingZerosValue(width - |Digits(n)|, Digits(n));
    } else {
      assert ZeroPad(n, width) == Digits(n);
    }
  }

  predicate AllDigits(s: string) {
    forall i :: 0 <= i < |s| ==> IsDigit(s[i])
  }

  /**
   * Python `int(text)` on a decimal literal: surrounding whitespace, an
   * optional sign, then one or more ASCII digits; anything else raises,
   * which is `None` here.
   */
  function ParseInt(text: string): (r: Option<int>)
  {
    var t := Strip(text);
    if t == [] then None
    else if t[0] == '-' || t[0] == '+' then
      var body := t[1..];
      if body != [] && AllDigits(body) then
        var v: int := DigitsValue(body);
        Some(if t[0] == '-' then -v else v)
      else None
    else if AllDigits(t) then Some(DigitsValue(t))
    else None
  }
}
