/**
 * The dashboard's read side: status and stage counts, the drill-down
 * filters behind each dashboard card, and the SLA classification of
 * assigned petitions (7 days for a preliminary enquiry, 45 otherwise,
 * measured from the first assignment to the first closure).
 *
 * Timestamps are whole seconds; `now` is a parameter.
 */
module ReadSide {
  import opened Domain

  // ---------------------------------------------------------------------
  // Status counts
  // ---------------------------------------------------------------------

  /** How many petitions of `ps` are in status `s`. */
  function CountOf(ps: seq<Petition>, s: Status): (n: nat)
    ensures n <= |ps|
  {
    if ps == [] then 0 else CountOf(ps[..|ps| - 1], s) + (if ps[|ps| - 1].status == s then 1 else 0)
  }

  /** `counts.get(s, 0)`. */
  function CountGet(counts: map<Status, nat>, s: Status): nat {
    if s in counts then counts[s] else 0
  }

  /** The status histogram: a key for every status that occurs, holding its number of petitions. */
  method CountStatuses(ps: seq<Petition>) returns (counts: map<Status, nat>)
    ensures forall s :: s in counts <==> CountOf(ps, s) > 0
    ensures forall s :: CountGet(counts, s) == CountOf(ps, s)
  {
    counts := map[];
    for i := 0 to |ps|
      invariant forall s :: s in counts <==> CountOf(ps[..i], s) > 0
      invariant forall s :: CountGet(counts, s) == CountOf(ps[..i], s)
    {
      assert ps[..i + 1][..i] == ps[..i];
      var s := ps[i].status;
      counts := counts[s := CountGet(counts, s) + 1];
    }
    assert ps[..|ps|] == ps;
  }

  /** `sum(counts.get(s, 0) for s in statuses)`. */
  function CountMulti(counts: map<Status, nat>, statuses: seq<Status>): nat {
    if statuses == [] then 0 else CountMulti(counts, statuses[..|statuses| - 1]) + CountGet(counts, statuses[|statuses| - 1])
  }

  /** How many petitions of `ps` have a status in `wanted`. */
  function CountIn(ps: seq<Petition>, wanted: set<Status>): (n: nat)
    ensures n <= |ps|
  {
    if ps == [] then 0 else CountIn(ps[..|ps| - 1], wanted) + (if ps[|ps| - 1].status in wanted then 1 else 0)
  }

  predicate Distinct(statuses: seq<Status>) {
    forall i, j :: 0 <= i < j < |statuses| ==> statuses[i] != statuses[j]
  }

  /**
   * Summing the histogram over a list of distinct statuses counts the
   * petitions whose status is one of them.
   */
  lemma {:induction false} CountMultiCountsMembers(ps: seq<Petition>, counts: map<Status, nat>, statuses: seq<Status>)
    requires forall s :: CountGet(counts, s) == CountOf(ps, s)
    requires Distinct(statuses)
    ensures CountMulti(counts, statuses) == CountIn(ps, set s | s in statuses)
  {
    if statuses != [] {
      var init := statuses[..|statuses| - 1];
      var last := statuses[|statuses| - 1];
      CountMultiCountsMembers(ps, counts, init);
      assert (set s | s in statuses) == (set s | s in init) + {last};
      assert last !in (set s | s in init);
      CountInAddOne(ps, (set s | s in init), last);
    } else {
      assert (set s | s in statuses) == {};
      CountInNothing(ps);
    }
  }

  lemma {:induction false} CountInNothing(ps: seq<Petition>)
    ensures CountIn(ps, {}) == 0
  {
    if ps != [] {
      CountInNothing(ps[..|ps| - 1]);
    }
  }

  lemma {:induction false} CountInAddOne(ps: seq<Petition>, wanted: set<Status>, extra: Status)
    requires extra !in wanted
    ensures CountIn(ps, wanted + {extra}) == CountIn(ps, wanted) + CountOf(ps, extra)
  {
    if ps != [] {
      CountInAddOne(ps[..|ps| - 1], wanted, extra);
    }
  }

  // ---------------------------------------------------------------------
  // Workflow stages
  // ---------------------------------------------------------------------

  /** The dashboard's stage of each status (intake 1 ... closed 6). */
  function StageOf(s: Status): (k: int)
    ensures 1 <= k <= 6
    ensures k == 6 <==> s == Closed
    ensures k == 5 <==> s == Lodged
  {
    match s
    case Received | ForwardedToCvo | SentForPermission | PermissionApproved | PermissionRejected => 1
    case AssignedToInspector | EnquiryInProgress => 2
    case EnquiryReportSubmitted | CvoCommentsAdded | ForwardedToPo | ForwardedToJmd => 3
    case ActionInstructed | ActionTaken => 4
    case Lodged => 5
    case Closed => 6
  }

  function StageCount(ps: seq<Petition>, k: int): (n: nat)
    ensures n <= |ps|
  {
    if ps == [] then 0 else StageCount(ps[..|ps| - 1], k) + (if StageOf(ps[|ps| - 1].status) == k then 1 else 0)
  }

  /** `stage_1` ... `stage_6`, keyed by the stage number. */
  method StageStats(ps: seq<Petition>) returns (counts: map<int, nat>)
    ensures counts.Keys == {1, 2, 3, 4, 5, 6}
    ensures forall k :: 1 <= k <= 6 ==> counts[k] == StageCount(ps, k)
  {
    counts := map[1 := 0, 2 := 0, 3 := 0, 4 := 0, 5 := 0, 6 := 0];
    for i := 0 to |ps|
      invariant counts.Keys == {1, 2, 3, 4, 5, 6}
      invariant forall k :: 1 <= k <= 6 ==> counts[k] == StageCount(ps[..i], k)
    {
      assert ps[..i + 1][..i] == ps[..i];
      var stage := StageOf(ps[i].status);
      counts := counts[stage := counts[stage] + 1];
    }
    assert ps[..|ps|] == ps;
  }

  /** Every petition is in exactly one stage, so the six counts add up to the total. */
  lemma {:induction false} StageCountsCoverAll(ps: seq<Petition>)
    ensures StageCount(ps, 1) + StageCount(ps, 2) + StageCount(ps, 3) + StageCount(ps, 4)
            + StageCount(ps, 5) + StageCount(ps, 6) == |ps|
  {
    if ps != [] {
      StageCountsCoverAll(ps[..|ps| - 1]);
    }
  }

  // ---------------------------------------------------------------------
  // SLA
  // ---------------------------------------------------------------------

  /** `MIN(created_at)` over the petition's tracking rows that moved it to `status`. */
  function EarliestAt(ledger: seq<TrackingEntry>, id: PetitionId, status: Status): Option<int> {
    if ledger == [] then None
    else
      var earlier := EarliestAt(ledger[..|ledger| - 1], id, status);
      var row := ledger[|ledger| - 1];
      if row.petitionId != id || row.statusAfter != status then earlier
      else if earlier.Some? && earlier.value <= row.createdAt then earlier
      else Some(row.createdAt)
  }

  /** `EarliestAt` is the minimum: absent exactly when no row matches, else a matching row's time no later than any other. */
  lemma {:induction false} EarliestAtIsMinimum(ledger: seq<TrackingEntry>, id: PetitionId, status: Status)
    ensures var r := EarliestAt(ledger, id, status);
      && (r.None? <==> forall i :: 0 <= i < |ledger| ==> !(ledger[i].petitionId == id && ledger[i].statusAfter == status))
      && (r.Some? ==>
           && (exists i :: 0 <= i < |ledger| && ledger[i].petitionId == id && ledger[i].statusAfter == status
                                              && ledger[i].createdAt == r.value)
           && (forall i :: 0 <= i < |ledger| && ledger[i].petitionId == id && ledger[i].statusAfter == status ==>
                             r.value <= ledger[i].createdAt))
  {
    if ledger != [] {
      var init := ledger[..|ledger| - 1];
      EarliestAtIsMinimum(init, id, status);
      assert forall i :: 0 <= i < |init| ==> init[i] == ledger[i];
      var earlier := EarliestAt(init, id, status);
      if earlier.Some? {
        var j :| 0 <= j < |init| && init[j].petitionId == id && init[j].statusAfter == status
                 && init[j].createdAt == earlier.value;
        assert ledger[j] == init[j];
      }
    }
  }

  /** The SLA window in days. */
  function DeadlineDays(t: EnquiryType): nat {
    if t == Preliminary then 7 else 45
  }

  /** `timedelta.days`: whole days elapsed, rounded down. */
  function ElapsedDays(start: int, end: int): int {
    (end - start) / 86400
  }

  /** Whole days are counted down, also when the end precedes the start. */
  lemma ElapsedDaysRoundsDown(start: int, end: int)
    ensures ElapsedDays(start, end) * 86400 <= end - start < (ElapsedDays(start, end) + 1) * 86400
  {
  }

  datatype SlaMetric = SlaTotal | SlaInProgress | SlaWithin | SlaBreached

  /**
   * The drill-down's SLA test. A petition without an assignment row is
   * never listed; the query only looks up petitions with a truthy id.
   */
  predicate InSlaSelection(m: SlaMetric, p: Petition, ledger: seq<TrackingEntry>, now: int) {
    var assignedAt := if p.id == 0 then None else EarliestAt(ledger, p.id, AssignedToInspector);
    var closedAt := if p.id == 0 then None else EarliestAt(ledger, p.id, Closed);
    && assignedAt.Some?
    && var elapsed := ElapsedDays(assignedAt.value, closedAt.GetOr(now));
       var days := DeadlineDays(p.enquiryType);
       var isWithin := closedAt.Some? && elapsed <= days;
       var isBreached := (closedAt.Some? && elapsed > days) || (closedAt.None? && elapsed > days);
       var isInProgress := closedAt.None? && elapsed <= days;
       match m
       case SlaTotal => true
       case SlaWithin => isWithin
       case SlaBreached => isBreached
       case SlaInProgress => isInProgress
  }

  /** Each assigned petition is listed under exactly one of within, breached and in progress. */
  lemma SlaSelectionPartition(p: Petition, ledger: seq<TrackingEntry>, now: int)
    ensures InSlaSelection(SlaTotal, p, ledger, now) <==>
      (InSlaSelection(SlaWithin, p, ledger, now) || InSlaSelection(SlaBreached, p, ledger, now)
       || InSlaSelection(SlaInProgress, p, ledger, now))
    ensures !(InSlaSelection(SlaWithin, p, ledger, now) && InSlaSelection(SlaBreached, p, ledger, now))
    ensures !(InSlaSelection(SlaWithin, p, ledger, now) && InSlaSelection(SlaInProgress, p, ledger, now))
    ensures !(InSlaSelection(SlaBreached, p, ledger, now) && InSlaSelection(SlaInProgress, p, ledger, now))
  {
  }

  // ---------------------------------------------------------------------
  // Drill-down
  // ---------------------------------------------------------------------

  /** The dashboard card whose petitions are listed, its text already split into kind and argument. */
  datatype Metric =
    | All
    | Active
    | Stage(stage: int)
    | OfStatus(status: Status)
    | OfStatuses(statuses: set<Status>)
    | OfPetitionType(petitionType: string)
    | OfSource(source: string)
    | OfMode(mode: string)
    | OfReceivedAt(receivedAt: string)
    | OfOfficer(officer: string)
    | Sla(sla: SlaMetric)
    | Unrecognised

  /** `int(p.assigned_inspector_id or 0)`. */
  function InspectorNumber(p: Petition): int {
    match p.assignedInspector
    case Some(u) => u
    case None => 0
  }

  predicate Matches(m: Metric, p: Petition, ledger: seq<TrackingEntry>, now: int) {
    match m
    case All => true
    case Active => p.status != Closed
    case Stage(k) => 1 <= k <= 6 && StageOf(p.status) == k
    case OfStatus(s) => p.status == s
    case OfStatuses(ss) => p.status in ss
    case OfPetitionType(t) => p.petitionType == t
    case OfSource(t) => p.source == t
    case OfMode(t) =>
      if t == "permission" then p.requiresPermission
      else if t == "direct" then !p.requiresPermission
      else false
    case OfReceivedAt(t) => p.receivedAt == t
    case OfOfficer(raw) => ParseInt(raw).Some? && InspectorNumber(p) == ParseInt(raw).value
    case Sla(s) => InSlaSelection(s, p, ledger, now)
    case Unrecognised => false
  }

  /** `r` keeps some elements of `ps` in their original order. */
  predicate IsSubsequence(r: seq<Petition>, ps: seq<Petition>)
    decreases |ps|
  {
    if r == [] then true
    else if ps == [] then false
    else (r[|r| - 1] == ps[|ps| - 1] && IsSubsequence(r[..|r| - 1], ps[..|ps| - 1]))
         || IsSubsequence(r, ps[..|ps| - 1])
  }

  /** `[p for p in ps if keep(p)]`. */
  function Filter(ps: seq<Petition>, keep: Petition -> bool): seq<Petition> {
    if ps == [] then []
    else
      var kept := Filter(ps[..|ps| - 1], keep);
      if keep(ps[|ps| - 1]) then kept + [ps[|ps| - 1]] else kept
  }

  /** `Filter` keeps exactly the petitions its test accepts, in their order. */
  lemma {:induction false} FilterIsFilter(ps: seq<Petition>, keep: Petition -> bool)
    ensures IsSubsequence(Filter(ps, keep), ps)
    ensures forall i :: 0 <= i < |Filter(ps, keep)| ==> keep(Filter(ps, keep)[i])
    ensures forall i :: 0 <= i < |ps| && keep(ps[i]) ==> ps[i] in Filter(ps, keep)
    decreases |ps|
  {
    if ps != [] {
      var init := ps[..|ps| - 1];
      var kept := Filter(init, keep);
      FilterIsFilter(init, keep);
      assert forall i :: 0 <= i < |init| ==> init[i] == ps[i];
      if keep(ps[|ps| - 1]) {
        var r := kept + [ps[|ps| - 1]];
        assert r[..|r| - 1] == kept;
      }
    }
  }

  /** The drill-down's list comprehension for one metric. */
  function Select(ps: seq<Petition>, m: Metric, ledger: seq<TrackingEntry>, now: int): seq<Petition> {
    Filter(ps, p => Matches(m, p, ledger, now))
  }

  lemma SelectStep(ps: seq<Petition>, i: nat, m: Metric, ledger: seq<TrackingEntry>, now: int)
    requires i < |ps|
    ensures Select(ps[..i + 1], m, ledger, now)
            == Select(ps[..i], m, ledger, now) + (if Matches(m, ps[i], ledger, now) then [ps[i]] else [])
  {
    assert ps[..i + 1][..i] == ps[..i];
  }

  /** A prefix of a subsequence is a subsequence. */
  lemma {:induction false} PrefixOfSubsequence(r: seq<Petition>, ps: seq<Petition>, k: nat)
    requires IsSubsequence(r, ps) && k <= |r|
    ensures IsSubsequence(r[..k], ps)
    decreases |ps|
  {
    if k == 0 {
    } else if k == |r| {
      assert r[..k] == r;
    } else {
      if r[|r| - 1] == ps[|ps| - 1] && IsSubsequence(r[..|r| - 1], ps[..|ps| - 1]) {
        PrefixOfSubsequence(r[..|r| - 1], ps[..|ps| - 1], k);
        assert r[..|r| - 1][..k] == r[..k];
      } else {
        PrefixOfSubsequence(r, ps[..|ps| - 1], k);
      }
    }
  }

  const DrilldownCap := 500

  /** `get_dashboard_drilldown` over the visible petitions: the matching ones, in order, at most 500. */
  function Drilldown(ps: seq<Petition>, m: Metric, ledger: seq<TrackingEntry>, now: int): (r: seq<Petition>)
    ensures IsSubsequence(r, ps)
    ensures forall i :: 0 <= i < |r| ==> Matches(m, r[i], ledger, now)
    ensures |r| <= DrilldownCap
    ensures |Select(ps, m, ledger, now)| <= DrilldownCap ==> r == Select(ps, m, ledger, now)
    ensures |Select(ps, m, ledger, now)| > DrilldownCap ==> |r| == DrilldownCap && r == Select(ps, m, ledger, now)[..DrilldownCap]
  {
    var all := Select(ps, m, ledger, now);
    FilterIsFilter(ps, p => Matches(m, p, ledger, now));
    if |all| <= DrilldownCap then all
    else
      PrefixOfSubsequence(all, ps, DrilldownCap);
      all[..DrilldownCap]
  }

  /** The SLA drill-down loop: one pass over the petitions, keeping those its metric selects. */
  method SlaFiltered(ps: seq<Petition>, m: SlaMetric, ledger: seq<TrackingEntry>, now: int) returns (out: seq<Petition>)
    ensures out == Select(ps, Sla(m), ledger, now)
  {
    if ps == [] {
      return [];
    }
    if forall i :: 0 <= i < |ps| ==> ps[i].id == 0 {
      NoIdsNoSelection(ps, m, ledger, now);
      return [];
    }
    out := [];
    for i := 0 to |ps|
      invariant out == Select(ps[..i], Sla(m), ledger, now)
    {
      var p := ps[i];
      SelectStep(ps, i, Sla(m), ledger, now);
      var assignedAt := if p.id == 0 then None else EarliestAt(ledger, p.id, AssignedToInspector);
      var closedAt := if p.id == 0 then None else EarliestAt(ledger, p.id, Closed);
      if assignedAt.None? {
        assert !Matches(Sla(m), p, ledger, now);
        continue;
      }
      var days := DeadlineDays(p.enquiryType);
      var elapsed := ElapsedDays(assignedAt.value, closedAt.GetOr(now));
      var isWithin := closedAt.Some? && elapsed <= days;
      var isBreached := (closedAt.Some? && elapsed > days) || (closedAt.None? && elapsed > days);
      var isInProgress := closedAt.None? && elapsed <= days;
      var listed := m == SlaTotal || (m == SlaWithin && isWithin) || (m == SlaBreached && isBreached)
                     || (m == SlaInProgress && isInProgress);
      assert listed == Matches(Sla(m), p, ledger, now);
      if listed {
        out := out + [p];
      }
    }
    assert ps[..|ps|] == ps;
  }

  lemma {:induction false} NoIdsNoSelection(ps: seq<Petition>, m: SlaMetric, ledger: seq<TrackingEntry>, now: int)
    requires forall i :: 0 <= i < |ps| ==> ps[i].id == 0
    ensures Select(ps, Sla(m), ledger, now) == []
  {
    if ps != [] {
      NoIdsNoSelection(ps[..|ps| - 1], m, ledger, now);
    }
  }

  // ---------------------------------------------------------------------
  // SLA summary
  // ---------------------------------------------------------------------

  /** The CVO desk's jurisdiction (`office_map`), `None` for the other roles. */
  function OfficeOfCvo(role: Role): (o: Option<Office>)
    ensures o.Some? <==> IsCvoLike(role)
    ensures o.Some? ==> CvoRole(o.value) == role
  {
    match role
    case CvoApspdcl => Some(Apspdcl)
    case CvoApepdcl => Some(Apepdcl)
    case CvoApcpdcl => Some(Apcpdcl)
    case Dsp => Some(Headquarters)
    case _ => None
  }

  /** The summary query's WHERE clause. */
  predicate InScope(role: Role, user: Option<UserId>, p: Petition) {
    if OfficeOfCvo(role).Some? then p.targetCvo == OfficeOfCvo(role)
    else if role == Inspector && user.Some? then p.assignedInspector == user
    else true
  }

  function Scoped(ps: seq<Petition>, role: Role, user: Option<UserId>): (r: seq<Petition>)
    ensures |r| <= |ps|
  {
    if ps == [] then []
    else Scoped(ps[..|ps| - 1], role, user) + (if InScope(role, user, ps[|ps| - 1]) then [ps[|ps| - 1]] else [])
  }

  /** The summary's scope keeps exactly the petitions the WHERE clause accepts, in their order. */
  lemma {:induction false} ScopedKeepsExactlyInScope(ps: seq<Petition>, role: Role, user: Option<UserId>)
    ensures IsSubsequence(Scoped(ps, role, user), ps)
    ensures forall i :: 0 <= i < |Scoped(ps, role, user)| ==> InScope(role, user, Scoped(ps, role, user)[i])
    ensures forall i :: 0 <= i < |ps| && InScope(role, user, ps[i]) ==> ps[i] in Scoped(ps, role, user)
  {
    ScopedIsSubsequence(ps, role, user);
    ScopedOnlyInScope(ps, role, user);
    ScopedKeepsInScope(ps, role, user);
  }

  lemma {:induction false} ScopedOnlyInScope(ps: seq<Petition>, role: Role, user: Option<UserId>)
    ensures forall i :: 0 <= i < |Scoped(ps, role, user)| ==> InScope(role, user, Scoped(ps, role, user)[i])
    decreases |ps|
  {
    if ps != [] {
      var init := ps[..|ps| - 1];
      ScopedOnlyInScope(init, role, user);
      assert Scoped(ps, role, user) == Scoped(init, role, user)
                                       + (if InScope(role, user, ps[|ps| - 1]) then [ps[|ps| - 1]] else []);
    }
  }

  lemma {:induction false} ScopedIsSubsequence(ps: seq<Petition>, role: Role, user: Option<UserId>)
    ensures IsSubsequence(Scoped(ps, role, user), ps)
    decreases |ps|
  {
    if ps != [] {
      var init := ps[..|ps| - 1];
      var kept := Scoped(init, role, user);
      ScopedIsSubsequence(init, role, user);
      if InScope(role, user, ps[|ps| - 1]) {
        var r := kept + [ps[|ps| - 1]];
        assert Scoped(ps, role, user) == r;
        assert r[..|r| - 1] == kept;
      } else {
        assert Scoped(ps, role, user) == kept;
      }
    }
  }

  lemma {:induction false} ScopedKeepsInScope(ps: seq<Petition>, role: Role, user: Option<UserId>)
    ensures forall i :: 0 <= i < |ps| && InScope(role, user, ps[i]) ==> ps[i] in Scoped(ps, role, user)
    decreases |ps|
  {
    if ps != [] {
      var init := ps[..|ps| - 1];
      ScopedKeepsInScope(init, role, user);
      assert Scoped(ps, role, user) == Scoped(init, role, user)
                                       + (if InScope(role, user, ps[|ps| - 1]) then [ps[|ps| - 1]] else []);
      forall i | 0 <= i < |init| && InScope(role, user, ps[i])
        ensures ps[i] in Scoped(ps, role, user)
      {
        assert init[i] == ps[i];
      }
    }
  }

  lemma ScopedStep(ps: seq<Petition>, i: nat, role: Role, user: Option<UserId>)
    requires i < |ps|
    ensures Scoped(ps[..i + 1], role, user) == Scoped(ps[..i], role, user) + (if InScope(role, user, ps[i]) then [ps[i]] else [])
  {
    assert ps[..i + 1][..i] == ps[..i];
  }

  datatype SlaBucket = Within | Breached | InProgress

  /** The summary's classification: closed petitions are within or breached, open ones breached or in progress. */
  function SummaryBucket(p: Petition, ledger: seq<TrackingEntry>, now: int): Option<SlaBucket> {
    var assignedAt := EarliestAt(ledger, p.id, AssignedToInspector);
    var closedAt := EarliestAt(ledger, p.id, Closed);
    if assignedAt.None? then None
    else
      var days := DeadlineDays(p.enquiryType);
      var elapsed := ElapsedDays(assignedAt.value, closedAt.GetOr(now));
      if closedAt.Some? then (if elapsed <= days then Some(Within) else Some(Breached))
      else if elapsed > days then Some(Breached) else Some(InProgress)
  }

  /** How many petitions the summary counts as assigned. */
  function AssignedCount(ps: seq<Petition>, ledger: seq<TrackingEntry>, now: int): (n: nat)
    ensures n <= |ps|
  {
    if ps == [] then 0
    else AssignedCount(ps[..|ps| - 1], ledger, now) + (if SummaryBucket(ps[|ps| - 1], ledger, now).Some? then 1 else 0)
  }

  function BucketCount(ps: seq<Petition>, ledger: seq<TrackingEntry>, now: int, b: SlaBucket): (n: nat)
    ensures n <= |ps|
  {
    if ps == [] then 0
    else BucketCount(ps[..|ps| - 1], ledger, now, b) + (if SummaryBucket(ps[|ps| - 1], ledger, now) == Some(b) then 1 else 0)
  }

  /** The body of the summary loop for one petition: its bucket, or `None` when it was never assigned. */
  method ClassifyForSummary(p: Petition, ledger: seq<TrackingEntry>, now: int) returns (bucket: Option<SlaBucket>)
    ensures bucket == SummaryBucket(p, ledger, now)
  {
    var assignedAt := EarliestAt(ledger, p.id, AssignedToInspector);
    var closedAt := EarliestAt(ledger, p.id, Closed);
    var days := DeadlineDays(p.enquiryType);
    if assignedAt.None? {
      return None;
    }
    var elapsed := ElapsedDays(assignedAt.value, closedAt.GetOr(now));
    if closedAt.Some? {
      bucket := if elapsed <= days then Some(Within) else Some(Breached);
    } else {
      bucket := if elapsed > days then Some(Breached) else Some(InProgress);
    }
  }

  /** `_get_sla_stats`: one pass over the petitions in the caller's scope. */
  method SlaStats(ps: seq<Petition>, ledger: seq<TrackingEntry>, role: Role, user: Option<UserId>, now: int)
    returns (total: nat, within: nat, breached: nat, inProgress: nat)
    ensures total == AssignedCount(Scoped(ps, role, user), ledger, now)
    ensures within == BucketCount(Scoped(ps, role, user), ledger, now, Within)
    ensures breached == BucketCount(Scoped(ps, role, user), ledger, now, Breached)
    ensures inProgress == BucketCount(Scoped(ps, role, user), ledger, now, InProgress)
  {
    total, within, breached, inProgress := 0, 0, 0, 0;
    ghost var rows: seq<Petition> := [];
    for i := 0 to |ps|
      invariant rows == Scoped(ps[..i], role, user)
      invariant total == AssignedCount(rows, ledger, now)
      invariant within == BucketCount(rows, ledger, now, Within)
      invariant breached == BucketCount(rows, ledger, now, Breached)
      invariant inProgress == BucketCount(rows, ledger, now, InProgress)
    {
      var p := ps[i];
      ScopedStep(ps, i, role, user);
      if !InScope(role, user, p) {
        continue;
      }
      CountsStep(rows, p, ledger, now);
      rows := rows + [p];
      var bucket := ClassifyForSummary(p, ledger, now);
      match bucket
      case None =>
      case Some(b) =>
        total := total + 1;
        match b
        case Within => within := within + 1;
        case Breached => breached := breached + 1;
        case InProgress => inProgress := inProgress + 1;
    }
    assert ps[..|ps|] == ps;
  }



  lemma CountsStep(rows: seq<Petition>, p: Petition, ledger: seq<TrackingEntry>, now: int)
    ensures AssignedCount(rows + [p], ledger, now)
            == AssignedCount(rows, ledger, now) + (if SummaryBucket(p, ledger, now).Some? then 1 else 0)
    ensures BucketCount(rows + [p], ledger, now, Within)
            == BucketCount(rows, ledger, now, Within) + (if SummaryBucket(p, ledger, now) == Some(Within) then 1 else 0)
    ensures BucketCount(rows + [p], ledger, now, Breached)
            == BucketCount(rows, ledger, now, Breached) + (if SummaryBucket(p, ledger, now) == Some(Breached) then 1 else 0)
    ensures BucketCount(rows + [p], ledger, now, InProgress)
            == BucketCount(rows, ledger, now, InProgress) + (if SummaryBucket(p, ledger, now) == Some(InProgress) then 1 else 0)
  {
    assert (rows + [p])[..|rows|] == rows;
  }

  /** The summary's total is the sum of its three buckets. */
  lemma {:induction false} SlaTotalIsSum(ps: seq<Petition>, ledger: seq<TrackingEntry>, now: int)
    ensures AssignedCount(ps, ledger, now)
            == BucketCount(ps, ledger, now, Within) + BucketCount(ps, ledger, now, Breached)
               + BucketCount(ps, ledger, now, InProgress)
  {
    if ps != [] {
      SlaTotalIsSum(ps[..|ps| - 1], ledger, now);
    }
  }

  /** For a petition with an id, the drill-down's SLA test and the summary's bucket agree. */
  lemma SelectionMatchesBucket(p: Petition, ledger: seq<TrackingEntry>, now: int)
    requires p.id > 0
    ensures InSlaSelection(SlaTotal, p, ledger, now) <==> SummaryBucket(p, ledger, now).Some?
    ensures InSlaSelection(SlaWithin, p, ledger, now) <==> SummaryBucket(p, ledger, now) == Some(Within)
    ensures InSlaSelection(SlaBreached, p, ledger, now) <==> SummaryBucket(p, ledger, now) == Some(Breached)
    ensures InSlaSelection(SlaInProgress, p, ledger, now) <==> SummaryBucket(p, ledger, now) == Some(InProgress)
  {
  }

  function BucketOf(m: SlaMetric): Option<SlaBucket> {
    match m
    case SlaTotal => None
    case SlaWithin => Some(Within)
    case SlaBreached => Some(Breached)
    case SlaInProgress => Some(InProgress)
  }

  /**
   * The drill-down lists and the summary count the same petitions: for
   * petitions with ids, each SLA list is exactly as long as the summary's
   * matching counter.
   */
  lemma {:induction false} SlaListsAgreeWithSummary(ps: seq<Petition>, m: SlaMetric, ledger: seq<TrackingEntry>, now: int)
    requires forall i :: 0 <= i < |ps| ==> ps[i].id > 0
    ensures |Select(ps, Sla(m), ledger, now)|
            == if m == SlaTotal then AssignedCount(ps, ledger, now) else BucketCount(ps, ledger, now, BucketOf(m).value)
  {
    if ps != [] {
      var init, last := ps[..|ps| - 1], ps[|ps| - 1];
      SlaListsAgreeWithSummary(init, m, ledger, now);
      SelectionMatchesBucket(last, ledger, now);
      assert Select(ps, Sla(m), ledger, now)
             == Select(init, Sla(m), ledger, now) + (if InSlaSelection(m, last, ledger, now) then [last] else []);
    }
  }
}
