/**
 * The two request handlers that drive the workflow: the action endpoint,
 * which runs the guard cascade and then the chosen operations, each in its
 * own transaction, and petition intake, which creates a petition and then
 * auto-routes it (to PO for a JMD-office receipt, otherwise to the target
 * CVO). A request that is turned away changes nothing; an exception in an
 * operation is caught by the handler and leaves earlier commits in place.
 */
module Routes {
  import opened Domain
  import opened Workflow
  import opened FormConfig
  import opened Guard
  import opened Store

  // ---------------------------------------------------------------------
  // Running a sequence of operations
  // ---------------------------------------------------------------------

  datatype Tables = Tables(petitions: map<PetitionId, Petition>, ledger: seq<TrackingEntry>)

  /** One operation in its own transaction, as a function of the tables. */
  function Step(t: Tables, dir: Directory, op: Op, now: int): (Tables, Outcome) {
    var e := Run(Lookup(t.petitions, op.pid), dir, op, now);
    (Tables(if e.Commit? then t.petitions[op.pid := e.head] else t.petitions,
            if e.Commit? then t.ledger + e.rows else t.ledger),
     OutcomeOf(op, e))
  }

  /** `Step` is what the store's operations perform. */
  lemma StepIsPerformed(t: Tables, dir: Directory, op: Op, now: int, t2: Tables, outcome: Outcome)
    ensures Performed(t.petitions, t.ledger, dir, op, now, t2.petitions, t2.ledger, outcome)
            <==> Step(t, dir, op, now) == (t2, outcome)
  {
  }

  /** The operations in order; an exception ends the request and the handler catches it. */
  function RunOps(t: Tables, dir: Directory, ops: seq<Op>, now: int): (Tables, seq<Outcome>)
    decreases |ops|
  {
    if ops == [] then (t, [])
    else
      var (t1, o) := Step(t, dir, ops[0], now);
      if o.Raised? then (t1, [o])
      else
        var rest := RunOps(t1, dir, ops[1..], now);
        (rest.0, [o] + rest.1)
  }

  /**
   * One outcome per operation attempted: the run stops right after the first
   * exception and goes on through every operation otherwise.
   */
  lemma {:induction false} RunOpsStopsAtException(t: Tables, dir: Directory, ops: seq<Op>, now: int)
    ensures var os := RunOps(t, dir, ops, now).1;
      && |os| <= |ops|
      && (ops != [] ==> |os| >= 1)
      && (forall i :: 0 <= i < |os| - 1 ==> !os[i].Raised?)
      && (|os| < |ops| ==> os[|os| - 1].Raised?)
    decreases |ops|
  {
    if ops != [] {
      var (t1, o) := Step(t, dir, ops[0], now);
      if !o.Raised? {
        RunOpsStopsAtException(t1, dir, ops[1..], now);
        var rest := RunOps(t1, dir, ops[1..], now).1;
        assert RunOps(t, dir, ops, now).1 == [o] + rest;
        if ops[1..] == [] {
          assert rest == [];
        }
      }
    }
  }

  /** Running operations keeps the store consistent and only appends to the ledger. */
  lemma {:induction false} RunOpsKeepsConsistent(t: Tables, n: nat, dir: Directory, ops: seq<Op>, now: int)
    requires Consistent(t.petitions, t.ledger, n)
    ensures var t2 := RunOps(t, dir, ops, now).0;
      && Consistent(t2.petitions, t2.ledger, n)
      && |t.ledger| <= |t2.ledger| && t2.ledger[..|t.ledger|] == t.ledger
    decreases |ops|
  {
    if ops != [] {
      var (t1, o) := Step(t, dir, ops[0], now);
      RunKeepsConsistent(t.petitions, t.ledger, n, dir, ops[0], now);
      assert Consistent(t1.petitions, t1.ledger, n);
      assert t1.ledger[..|t.ledger|] == t.ledger;
      if !o.Raised? {
        RunOpsKeepsConsistent(t1, n, dir, ops[1..], now);
        var t2 := RunOps(t1, dir, ops[1..], now).0;
        assert t2.ledger[..|t.ledger|] == t2.ledger[..|t1.ledger|][..|t.ledger|];
      }
    }
  }

  // ---------------------------------------------------------------------
  // The action endpoint
  // ---------------------------------------------------------------------

  /** `form_cfg.get(key, DEFAULT_FORM_FIELD_CONFIGS[key])` for every key. */
  function SettingsOf(cfg: map<FieldKey, FieldConfig>): FieldKey -> FieldConfig {
    k => Setting(cfg, k)
  }

  datatype Reply = TurnedAway(reason: Reason) | Attempted(outcomes: seq<Outcome>)

  /** The operations of a request, each through the store, stopping after an exception. */
  method ExecuteAll(store: PetitionStore, dir: Directory, ops: seq<Op>, now: int) returns (outcomes: seq<Outcome>)
    requires store.Valid()
    modifies store
    ensures store.Valid() && store.nextId == old(store.nextId) && store.snoSeq == old(store.snoSeq)
    ensures RunOps(Tables(old(store.petitions), old(store.ledger)), dir, ops, now)
            == (Tables(store.petitions, store.ledger), outcomes)
  {
    ghost var t0 := Tables(store.petitions, store.ledger);
    outcomes := [];
    var i := 0;
    while i < |ops|
      invariant 0 <= i <= |ops|
      invariant store.Valid() && store.nextId == old(store.nextId) && store.snoSeq == old(store.snoSeq)
      invariant RunOps(t0, dir, ops, now).0 == RunOps(Tables(store.petitions, store.ledger), dir, ops[i..], now).0
      invariant RunOps(t0, dir, ops, now).1 == outcomes + RunOps(Tables(store.petitions, store.ledger), dir, ops[i..], now).1
      decreases |ops| - i
    {
      ghost var t := Tables(store.petitions, store.ledger);
      var o := store.Execute(dir, ops[i], now);
      ghost var t1 := Tables(store.petitions, store.ledger);
      StepIsPerformed(t, dir, ops[i], now, t1, o);
      RunAdvances(t0, t, t1, dir, ops, i, now, outcomes, o);
      outcomes := outcomes + [o];
      if o.Raised? {
        return;
      }
      i := i + 1;
    }
    assert outcomes + RunOps(Tables(store.petitions, store.ledger), dir, ops[i..], now).1 == outcomes;
  }

  /** The loop step of `ExecuteAll`: one more operation done, the rest still to run. */
  lemma RunAdvances(t0: Tables, t: Tables, t1: Tables, dir: Directory, ops: seq<Op>, i: nat, now: int,
                    outcomes: seq<Outcome>, o: Outcome)
    requires i < |ops|
    requires RunOps(t0, dir, ops, now).0 == RunOps(t, dir, ops[i..], now).0
    requires RunOps(t0, dir, ops, now).1 == outcomes + RunOps(t, dir, ops[i..], now).1
    requires Step(t, dir, ops[i], now) == (t1, o)
    ensures o.Raised? ==> RunOps(t0, dir, ops, now) == (t1, outcomes + [o])
    ensures !o.Raised? ==> RunOps(t0, dir, ops, now).0 == RunOps(t1, dir, ops[i + 1..], now).0
    ensures !o.Raised? ==> RunOps(t0, dir, ops, now).1 == (outcomes + [o]) + RunOps(t1, dir, ops[i + 1..], now).1
  {
    assert ops[i..][0] == ops[i] && ops[i..][1..] == ops[i + 1..];
    RunOpsFirst(t, dir, ops[i..], now, t1, o);
    var rest := RunOps(t1, dir, ops[i + 1..], now).1;
    assert !o.Raised? ==> outcomes + ([o] + rest) == (outcomes + [o]) + rest;
  }

  /** How `RunOps` proceeds after its first step. */
  lemma RunOpsFirst(t: Tables, dir: Directory, ops: seq<Op>, now: int, t1: Tables, o: Outcome)
    requires ops != [] && Step(t, dir, ops[0], now) == (t1, o)
    ensures o.Raised? ==> RunOps(t, dir, ops, now) == (t1, [o])
    ensures !o.Raised? ==> RunOps(t, dir, ops, now).0 == RunOps(t1, dir, ops[1..], now).0
    ensures !o.Raised? ==> RunOps(t, dir, ops, now).1 == [o] + RunOps(t1, dir, ops[1..], now).1
  {
  }

  /**
   * `petition_action`: the guard cascade reads the petition as it is before
   * the request; a refusal changes nothing, otherwise the chosen operations
   * run in order.
   */
  method PetitionAction(store: PetitionStore, dir: Directory, overrides: seq<(string, Override)>,
                        actionRaw: string, commentsRaw: string, form: Form, role: Role, pid: PetitionId,
                        user: UserId, now: int) returns (reply: Reply)
    requires store.Valid()
    modifies store
    ensures store.Valid() && store.nextId == old(store.nextId) && store.snoSeq == old(store.snoSeq)
    ensures var d := Decide(actionRaw, commentsRaw, form, role, pid, user, Lookup(old(store.petitions), pid),
                            SettingsOf(MergeAll(Defaults, overrides)));
      match d
      case Reject(reason) =>
        reply == TurnedAway(reason) && store.petitions == old(store.petitions) && store.ledger == old(store.ledger)
      case Call(ops) =>
        reply.Attempted?
        && RunOps(Tables(old(store.petitions), old(store.ledger)), dir, ops, now)
           == (Tables(store.petitions, store.ledger), reply.outcomes)
  {
    var cfg := EffectiveConfigs(overrides);
    var snap := store.Head(pid);
    var d := Decide(actionRaw, commentsRaw, form, role, pid, user, snap, SettingsOf(cfg));
    match d
    case Reject(reason) =>
      reply := TurnedAway(reason);
    case Call(ops) =>
      var outcomes := ExecuteAll(store, dir, ops, now);
      reply := Attempted(outcomes);
  }

  // ---------------------------------------------------------------------
  // Petition intake
  // ---------------------------------------------------------------------

  /** The intake fields that decide how a new petition is stored and routed (raw form text). */
  datatype Intake = Intake(
    receivedAt: string,
    targetCvo: string,
    permissionRequestType: string,
    receivedDate: Option<Date>,
    petitionType: string,
    source: string,
    ereceiptNo: string,
    ereceiptFile: string)

  predicate ValidReceivedAt(s: string) {
    s in {"jmd_office", "cvo_apspdcl_tirupathi", "cvo_apepdcl_vizag", "cvo_apcpdcl_vijayawada"}
  }

  predicate ValidPermissionRequestType(s: string) {
    s in {"direct_enquiry", "permission_required"}
  }

  /** What intake stores, and whether the new petition goes to PO (`true`) or to its CVO. */
  datatype Plan = Plan(data: NewPetition, viaPo: bool)

  /**
   * The routing-relevant part of intake validation, in the source's order:
   * a received date, a known receiving office and, unless received at the
   * JMD office, a known permission request type and target CVO.
   */
  function PlanIntake(intake: Intake): Option<Plan>
  {
    var receivedAt := Strip(intake.receivedAt);
    var target := Strip(intake.targetCvo);
    var requestType := Strip(intake.permissionRequestType);
    var viaPo := receivedAt == "jmd_office";
    if intake.receivedDate.None? || !ValidReceivedAt(receivedAt) then None
    else if !viaPo && (!ValidPermissionRequestType(requestType) || ParseOffice(target).None?) then None
    else
      var storedType := if viaPo then "permission_required" else requestType;
      var needsPermission := storedType != "direct_enquiry";
      var ereceiptNo := Strip(intake.ereceiptNo);
      Some(Plan(NewPetition(receivedAt, if viaPo then None else ParseOffice(target), needsPermission,
                            if needsPermission then Pending else NotRequired,
                            Strip(intake.petitionType), Strip(intake.source), intake.receivedDate,
                            ereceiptNo, intake.ereceiptFile),
                viaPo))
  }

  /** Intake is refused exactly when one of the routing-relevant checks fails. */
  lemma PlanIntakeRefusal(intake: Intake)
    ensures PlanIntake(intake).None? <==>
      || intake.receivedDate.None?
      || !ValidReceivedAt(Strip(intake.receivedAt))
      || (Strip(intake.receivedAt) != "jmd_office"
          && (!ValidPermissionRequestType(Strip(intake.permissionRequestType))
              || ParseOffice(Strip(intake.targetCvo)).None?))
  {
  }

  /**
   * A JMD-office receipt goes to PO with permission pending and no target
   * CVO; any other goes to its target CVO, needing permission exactly when
   * the request type says so.
   */
  lemma PlanIntakeRouting(intake: Intake)
    requires PlanIntake(intake).Some?
    ensures var plan := PlanIntake(intake).value;
      && (plan.viaPo <==> Strip(intake.receivedAt) == "jmd_office")
      && (plan.viaPo ==>
            plan.data.targetCvo.None? && plan.data.requiresPermission && plan.data.permissionStatus == Pending)
      && (!plan.viaPo ==>
            && plan.data.targetCvo == ParseOffice(Strip(intake.targetCvo))
            && plan.data.targetCvo.Some?
            && (plan.data.requiresPermission <==> Strip(intake.permissionRequestType) == "permission_required")
            && plan.data.permissionStatus == (if plan.data.requiresPermission then Pending else NotRequired))
  {
  }

  /** The automatic routing call made right after the INSERT. */
  function RoutingOp(plan: Plan, id: PetitionId, user: UserId): (op: Op)
    ensures op.pid == id && op.actor == user
    ensures plan.viaPo ==> op.SendForPermission?
    ensures !plan.viaPo && plan.data.targetCvo.Some? ==> op.ForwardToCvo? && op.target == plan.data.targetCvo.value
  {
    if plan.viaPo then SendForPermission(id, user, "Auto-routed to PO from JMD Office receipt")
    else ForwardToCvo(id, user, plan.data.targetCvo.GetOr(Headquarters), "Auto-forwarded to concerned CVO from Data Entry")
  }

  datatype NewReply = IntakeRefused | Created(id: PetitionId, sno: string, routed: Outcome)

  /**
   * `petition_new`: creation commits on its own, then the routing call
   * runs in a second transaction; if that one raises, the petition stays
   * as created.
   */
  method PetitionNew(store: PetitionStore, dir: Directory, intake: Intake, user: UserId, year: nat, now: int)
    returns (reply: NewReply)
    requires store.Valid()
    modifies store
    ensures store.Valid()
    ensures PlanIntake(intake).None? ==>
      reply == IntakeRefused && store.petitions == old(store.petitions) && store.ledger == old(store.ledger)
      && store.nextId == old(store.nextId) && store.snoSeq == old(store.snoSeq)
    ensures PlanIntake(intake).Some? ==>
      var plan := PlanIntake(intake).value;
      var id := old(store.nextId);
      var sno := GenerateSno(plan.data.receivedAt, year, old(store.snoSeq) + 1);
      && reply.Created? && reply.id == id && reply.sno == sno
      && store.nextId == id + 1 && store.snoSeq == old(store.snoSeq) + 1
      && Performed(old(store.petitions)[id := InitialHead(id, sno, plan.data, user)],
                   old(store.ledger) + [CreationRow(id, sno, dir, user, now)],
                   dir, RoutingOp(plan, id, user), now, store.petitions, store.ledger, reply.routed)
  {
    var planned := PlanIntake(intake);
    if planned.None? {
      return IntakeRefused;
    }
    var plan := planned.value;
    var id, sno := store.CreatePetition(dir, plan.data, user, year, now);
    var routed := store.Execute(dir, RoutingOp(plan, id, user), now);
    reply := Created(id, sno, routed);
  }

  /**
   * A new petition that was routed successfully sits at PO's permission
   * desk when it came in at the JMD office, and at its CVO otherwise.
   */
  lemma RoutedPetitionState(plan: Plan, id: PetitionId, sno: string, dir: Directory, user: UserId, now: int)
    requires !plan.viaPo ==> plan.data.targetCvo.Some?
    ensures var e := Run(Some(InitialHead(id, sno, plan.data, user)), dir, RoutingOp(plan, id, user), now);
      e.Commit? ==>
        && (plan.viaPo ==> e.head.status == SentForPermission && e.head.requiresPermission
                           && e.head.currentHandler == ActiveUser(dir, Po))
        && (!plan.viaPo ==> e.head.status == ForwardedToCvo && e.head.targetCvo == plan.data.targetCvo)
        && e.head.efileNo == ""
  {
  }
}
