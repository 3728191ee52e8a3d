# Vigilance petition workflow engine, modelled in Dafny

The system tracks vigilance petitions through an approval and enquiry
workflow. The people involved are data-entry officers, the jurisdictional
CVO/DSP officers, the Permission Officer (PO), field inspectors and the
CMD offices. This project models the core of that workflow:

- **Domain** (`domain.dfy`): the petition head and its 15 statuses, the
  roles, the four CVO offices and the ledger row (`petition_tracking`).
  It also holds the users table as a role directory ("first active user
  with role R"), Python's `str.strip` and SQL's `BTRIM(...) = ''`, and
  decimal formatting and parsing.
- **Workflow operations** (`workflow.dfy`): every operation of `models.py`
  as a pure effect on one petition head. An effect is either a rollback
  with a reason, or a commit with the new head and the ledger rows the
  operation appends. The file also holds the creation INSERT and the
  serial-number format `VIG/<office>/<year>/<nnnn>`.
- **Store** (`store.dfy`): the database as a class. It has a map from
  petition id to head, an append-only ledger, the next id and the serial
  counter. There is one method per operation, plus `Execute`, which
  dispatches on the operation. Each method commits the effect or leaves
  the store unchanged. Its invariant `Valid` says that every ledger row
  names a stored petition and that each head's status is its last
  ledger row's `status_after`.
- **Form settings** (`formconfig.dfy`): the default form-field table and
  the loop that merges administrator overrides into it.
- **Guards** (`guard.dfy`): `petition_action`'s cascade as a pure
  decision. The cascade is: strip the action, check the role allow-list,
  then check the per-branch state gates and payload. The result is
  `Reject(reason)` or `Call(operations)`. The file also holds
  `resolve_efile_no_for_action` and `parse_optional_int`.
- **Routes** (`routes.dfy`): the two request handlers that write.
  - `PetitionAction` runs the decided operations one after another, each
    in its own transaction, and stops at the first exception.
  - `PetitionNew` validates the fields that decide routing, creates the
    petition, then auto-routes it to PO or to its target CVO.
- **Read side** (`readside.dfy`): the status counts, the stage counts and
  the dashboard drill-down (capped at 500). Also the SLA lists and the
  SLA summary counters. Both SLA views take the earliest
  `assigned_to_inspector` and `closed` ledger rows as start and end.

Inputs the code reads from its environment become parameters:
- the clock (`now`, in seconds);
- the current year for serial numbers;
- the logged-in user and role;
- the users table (`Directory`);
- the form-field overrides stored in the database;
- the outcome of file-upload validation (`Upload`: none, invalid, or
  stored under a name).

## Model

| member | source | states |
|---|---|---|
| Domain.ParseOffice | app.py:32 | an office is recognised exactly for the four `VALID_TARGET_CVO` codes |
| Domain.ParseEnquiryType | app.py:33 | an enquiry type is recognised exactly for `detailed` and `preliminary` |
| Domain.ActiveUser | models.py:903-905 | the "first active user with role R" lookup finds someone exactly when the directory has an active user in that role |
| Domain.RoleOf | models.py:855-857 | a user's role is known exactly when the user is in the users table |
| Domain.Strip | app.py:104 | `str.strip`: the result is no longer than the input and neither starts nor ends with whitespace |
| Domain.StripKeepsMiddle | app.py:104 | `str.strip` keeps one contiguous slice of the input; everything removed before and after it is whitespace |
| Domain.StripLeft | app.py:104 | only leading whitespace is removed, and the result is a suffix of the input |
| Domain.StripRight | app.py:104 | only trailing whitespace is removed, and the result is a prefix of the input |
| Domain.ZeroPadValue | models.py:686 | zero-padding a number keeps its decimal value |
| Domain.DigitsValueOfDigits | models.py:686 | reading back a formatted number gives the number (round trip) |
| Domain.LeadingZerosValue | models.py:686 | leading zeros do not change a digit string's value |
| Workflow.RunFollowsTable | models.py:850-1629 | every committed operation sets its fixed target status. Its last ledger row's `status_after` is that status. It appends the documented number of rows. Side-channel operations keep the status. |
| Workflow.RoutingFollowsTable | models.py:850-1001 | the same, for forward, send for permission, receipt to PO and approve |
| Workflow.EnquiryFollowsTable | models.py:1002-1142 | the same, for reject, assign, e-receipt and report submission |
| Workflow.ReviewFollowsTable | models.py:1143-1299 | the same, for CVO comments, detailed-enquiry request, consolidated upload and conclusion |
| Workflow.ActionFollowsTable | models.py:1300-1489 | the same, for send to CMD, CMD action report, lodge and e-file number update |
| Workflow.ClosingFollowsTable | models.py:1490-1629 | the same, for direct lodge, CVO action, close and the direct-enquiry e-file update |
| Workflow.RunFailsExactly | models.py:1300-1624 | an operation rolls back exactly in its failure cases. These are: missing petition; no CMD office or CMD user for `po_send_to_cmd`; no active PO for `cmd_submit_action_report`; for `po_update_efile_number`, a non-blank stored e-file number, or a stored non-empty number equal to the incoming one (the UPDATE left it unchanged); a non-blank e-file number for `po_update_efile_no` |
| Workflow.EfileWriteOnce | models.py:981-984 | a non-blank `efile_no` is never changed by any committed operation. A changed one was blank and was written by an operation that writes it. |
| Workflow.EnquiryTypeChanges | models.py:977-980 | `enquiry_type` changes only through approve or assign with a recognised value, or by the detailed-enquiry request setting `detailed` |
| Workflow.DetailedEnquiryReentersPermission | models.py:1180-1226 | the detailed-enquiry request always commits. It sets `detailed`, requires permission, marks permission pending, sends the petition for permission and hands it to PO. |
| Workflow.SendToCmdRoutesToCmd | models.py:1300-1352 | `po_send_to_cmd` commits exactly when the target office has an active CMD user. It then sets `action_instructed`, hands the petition to that user and addresses the row to the CMD role. |
| Workflow.AssignAcknowledgesPo | models.py:1026-1072 | assignment always commits and hands the petition to the inspector. It appends a second row, addressed to PO, exactly when the petition needs no permission. |
| Workflow.SideChannelsKeepStatus | models.py:1073-1104 | e-receipt, consolidated-report and e-file side channels change only their own fields. They log one row with equal `status_before` and `status_after`. |
| Workflow.ApproveLogsFixedStatusBefore | models.py:992 | for every petition and argument, approval commits one row with `status_before = sent_for_permission`, which differs from the status found unless that was `sent_for_permission` |
| Workflow.RejectLogsFixedStatusBefore | models.py:1016 | rejection commits one row with `status_before = sent_for_permission`, whatever status it found |
| Workflow.ReportLogsFixedStatusBefore | models.py:1133 | an enquiry report commits one row with `status_before = assigned_to_inspector`, whatever status it found |
| Workflow.CvoCommentsLogFixedStatusBefore | models.py:1170 | CVO comments commit one row with `status_before = enquiry_report_submitted`, whatever status they found |
| Workflow.ConclusionLogsFixedStatusBefore | models.py:1289 | a final conclusion commits one row with `status_before = forwarded_to_po`, whatever status it found |
| Workflow.CvoActionLogsFixedStatusBefore | models.py:1552 | a CVO action commits one row with `status_before = action_instructed`, whatever status it found |
| Workflow.OtherRowsLogFoundStatus | models.py:861 | every operation other than those six writes the status it read into `status_before` of each row it inserts |
| Workflow.SnoEncodesSequence | models.py:670-694 | the serial number is `VIG/`, the office code, the year and the zero-padded counter. The counter reads back as the sequence value. |
| Store.LastStatusOthers | models.py:877-881 | appending rows of other petitions does not change a petition's last logged status |
| Store.WriteKeepsConsistent | models.py:850-889 | writing a head together with rows that end in its status keeps the store consistent |
| Store.RunKeepsConsistent | models.py:850-1629 | every committed operation keeps the store consistent |
| Store.RollbackChangesNothing | models.py:886-888 | an operation that does not commit leaves petitions and ledger unchanged |
| Store.LedgerAppendOnly | models.py:850-1629 | the ledger only grows, at its end. It grows exactly when the operation commits, and no petition appears or disappears. |
| Store.PetitionStore.constructor | models.py:695-735 | the empty database is consistent |
| Store.PetitionStore.Save | models.py:871-884 | UPDATE of one head plus INSERT of its rows, keeping the invariant |
| Store.PetitionStore.CreatePetition | models.py:695-735 | creation takes the next id and the next serial. It stores the `received` head and logs `Petition Created`. |
| Store.PetitionStore.ForwardPetitionToCvo | models.py:850-889 | performs `forward_petition_to_cvo`: commit, or no change on failure |
| Store.PetitionStore.SendForPermission | models.py:890-925 | performs `send_for_permission` |
| Store.PetitionStore.CvoSendReceiptToPo | models.py:926-961 | performs `cvo_send_receipt_to_po` |
| Store.PetitionStore.ApprovePermission | models.py:962-1001 | performs `approve_permission` |
| Store.PetitionStore.RejectPermission | models.py:1002-1025 | performs `reject_permission` |
| Store.PetitionStore.AssignToInspector | models.py:1026-1072 | performs `assign_to_inspector` |
| Store.PetitionStore.SetEreceipt | models.py:1073-1104 | performs `set_ereceipt` |
| Store.PetitionStore.SubmitEnquiryReport | models.py:1105-1142 | performs `submit_enquiry_report` |
| Store.PetitionStore.CvoAddComments | models.py:1143-1179 | performs `cvo_add_comments` |
| Store.PetitionStore.CvoRequestDetailedEnquiry | models.py:1180-1226 | performs `cvo_request_detailed_enquiry` |
| Store.PetitionStore.CvoUploadConsolidatedReport | models.py:1227-1258 | performs `cvo_upload_consolidated_report` |
| Store.PetitionStore.PoGiveConclusion | models.py:1259-1299 | performs `po_give_conclusion` |
| Store.PetitionStore.PoSendToCmd | models.py:1300-1352 | performs `po_send_to_cmd` |
| Store.PetitionStore.CmdSubmitActionReport | models.py:1353-1400 | performs `cmd_submit_action_report` |
| Store.PetitionStore.PoLodgePetition | models.py:1401-1443 | performs `po_lodge_petition` |
| Store.PetitionStore.PoUpdateEfileNumber | models.py:1444-1489 | performs `po_update_efile_number` |
| Store.PetitionStore.PoDirectLodgeNoEnquiry | models.py:1490-1531 | performs `po_direct_lodge_no_enquiry` |
| Store.PetitionStore.CvoTakeAction | models.py:1532-1561 | performs `cvo_take_action` |
| Store.PetitionStore.ClosePetition | models.py:1562-1586 | performs `close_petition` |
| Store.PetitionStore.PoUpdateEfileNo | models.py:1587-1629 | performs `po_update_efile_no` |
| Store.PetitionStore.Execute | models.py:850-1629 | any operation commits its effect with its rows appended, or changes nothing. The store stays consistent. |
| FormConfig.DefaultsComplete | app.py:57-93 | every known field has its default entry, with a valid field type |
| FormConfig.CleanOption | app.py:186-191 | a kept select option has a non-empty, stripped value and label |
| FormConfig.CleanOptions | app.py:183-193 | the kept options are a no-longer list of non-empty, stripped values and labels |
| FormConfig.CleanOptionsKeepsClean | app.py:183-193 | every entry that is a dict with a non-blank value and label contributes its stripped option |
| FormConfig.CleanOptionsOnlyClean | app.py:183-193 | every kept option is the stripped form of some entry of the list |
| FormConfig.StripIdempotent | app.py:188-189 | stripping twice is stripping once |
| FormConfig.CollectOptions | app.py:183-193 | the option loop keeps exactly the cleaned options |
| FormConfig.MergeField | app.py:174-193 | one override applied to one field's settings, as the specification of the merge loop body |
| FormConfig.EffectiveConfigs | app.py:164-194 | the merge loop yields the overrides applied in order to the defaults |
| FormConfig.MergeKeepsKeys | app.py:171-173 | overrides for unknown keys are skipped, so the merged table has exactly the default keys |
| FormConfig.MergeKeepsTypesValid | app.py:177-179 | a field type stays one of the valid dynamic types |
| FormConfig.MergeRequired | app.py:180 | a field is required exactly as its last override says, or as its default when none applies |
| FormConfig.OverrideIdempotent | app.py:174-193 | applying the same override twice equals applying it once |
| Guard.ResolveEfile | app.py:202-219 | an existing e-file number wins. A different incoming value is refused as already set. With none stored, a blank input is refused only with a required message, an input over 100 characters is refused, and otherwise the stripped input is used. |
| Guard.ResolvedEfileKeepsExisting | app.py:206-209 | after a successful resolution on a petition with a number, the operation is passed that same number and keeps it |
| Guard.NotBlankByStrip | app.py:203 | a value non-empty after `strip` is also non-blank for SQL's `BTRIM` |
| Guard.ParseOptionalInt | app.py:103-111 | blank input gives no id |
| Guard.ParseOptionalIntIsPositiveInt | app.py:103-111 | an id is produced exactly when the stripped text is an integer greater than 0, and it is that integer |
| Guard.ParseOptionalIntOfDigits | app.py:103-111 | a positive id written in decimal parses back to itself |
| Guard.Decide | app.py:736-1171 | an empty action is an invalid request and an unknown one is unsupported. A role outside the action's allow-list is refused. Otherwise the branch for that action decides. |
| Guard.BranchTargetsRequest | app.py:758-1164 | every call a branch makes acts on the requested petition as the session user, and ends in the operation the action names |
| Guard.ForwardToCvoGuard | app.py:758-767 | forwards exactly when the target office is valid |
| Guard.SendReceiptGuard | app.py:776-785 | refused exactly for a petition marked direct enquiry |
| Guard.ApproveGuard | app.py:787-813 | approval proceeds exactly when the petition exists, the office and enquiry type are valid and the e-file number resolves. It calls approve with that office, the resolved number, the comments and the stripped type. |
| Guard.RejectGuard | app.py:815-823 | rejection proceeds exactly when the reason is given or not required |
| Guard.AssignGuard | app.py:825-847 | assignment proceeds exactly when the state gate holds: approved for permission petitions, forwarded for direct ones. It also needs a positive inspector id and, for direct petitions, a valid enquiry type. It assigns that inspector with the comments, passing the stripped type for a direct petition and none otherwise. |
| Guard.SubmitReportGuard | app.py:849-889 | a report proceeds exactly when required texts are present, both are within their limits, and the file is not invalid and present when required. It submits the stripped texts and the stored file name. |
| Guard.CvoCommentsGuard | app.py:891-918 | comments proceed exactly when they are present or optional and the file is not invalid and present when required. A stored file is recorded before the stripped comments. |
| Guard.UploadConsolidatedGuard | app.py:920-944 | the upload proceeds exactly when the report is submitted and a file was stored |
| Guard.RequestDetailedGuard | app.py:946-959 | the request proceeds exactly for a preliminary enquiry with non-empty remarks |
| Guard.GiveConclusionGuard | app.py:961-1003 | a conclusion proceeds exactly when the petition exists, the e-file number (always required) resolves, the text is non-empty and within limits, the instructions are within limits and the file is not invalid. It passes the resolved number, the stripped texts and the stored file name. |
| Guard.SendToCmdGuard | app.py:1005-1030 | sending to CMD proceeds exactly when the petition exists, the e-file number resolves, and the instructions are present when required and within limits. It passes the stripped instructions and the resolved number. |
| Guard.UpdateEfileGuard | app.py:1032-1062 | the update proceeds exactly when the input is 1 to 100 characters and the petition is a direct enquiry in an editable status with no number yet |
| Guard.CmdActionGuard | app.py:1064-1095 | an action report proceeds exactly when the details are present when required and within limits and the file is not invalid and present when required. It passes the stripped details and the stored file name. |
| Guard.LodgeGuard | app.py:1097-1122 | lodging proceeds exactly when the petition exists, the remarks are present when required and within limits, and the e-file number resolves. It passes the stripped remarks and the resolved number. |
| Guard.DirectLodgeGuard | app.py:1124-1149 | direct lodging is refused with the state warning unless the petition is at `sent_for_permission`. Otherwise it proceeds exactly when the remarks are present when required and within limits and the e-file number resolves, and it passes the stripped remarks and the resolved number. |
| Guard.CloseGuard | app.py:1151-1164 | closing proceeds exactly for a lodged petition, with comments within limits and present when required |
| Routes.StepIsPerformed | app.py:736-1171 | one step of the action runner is exactly one store operation |
| Routes.RunOpsStopsAtException | app.py:1168-1169 | the runner attempts operations in order and stops right after the first one that raises |
| Routes.RunOpsKeepsConsistent | app.py:736-1171 | a run of operations keeps the store consistent and only appends to the ledger |
| Routes.ExecuteAll | app.py:736-1171 | the imperative runner's result and final store are those of the run specification |
| Routes.PetitionAction | app.py:736-1171 | a refused request changes nothing. An accepted one runs exactly the decided operations against the store with the merged form settings. |
| Routes.PlanIntakeRefusal | app.py:587-628 | intake is refused exactly when the received date is missing or the receiving office is unknown. Outside the JMD office it is also refused when the request type or the target office is invalid. |
| Routes.PlanIntakeRouting | app.py:663-688 | a JMD-office receipt needs permission, has no target office and goes to PO. Any other receipt goes to its target office and needs permission exactly when the request type is `permission_required`. |
| Routes.RoutingOp | app.py:689-700 | the auto-routing call acts on the new petition as its creator: send for permission via PO, or forward to the target office |
| Routes.PetitionNew | app.py:560-705 | a refused intake changes nothing. Otherwise the petition is created with the next id and serial, then auto-routed by one store operation. |
| Routes.RoutedPetitionState | app.py:681-700 | after auto-routing commits, a JMD receipt is with PO for permission and any other receipt is forwarded to its office, with no e-file number |
| ReadSide.CountStatuses | models.py:1672-1677 | the status counter has exactly the occurring statuses as keys, each with its number of petitions |
| ReadSide.CountMultiCountsMembers | models.py:1680-1681 | summing the counts of distinct statuses counts the petitions whose status is among them |
| ReadSide.StageOf | models.py:1757-1779 | every status has a stage from 1 to 6. Stage 6 is exactly `closed` and stage 5 exactly `lodged`. |
| ReadSide.StageStats | models.py:1757-1779 | the stage counter has exactly the keys 1 to 6, each with its number of petitions |
| ReadSide.StageCountsCoverAll | models.py:1757-1779 | the six stage counts add up to the number of petitions |
| ReadSide.EarliestAtIsMinimum | models.py:1905-1912 | the assignment or closure time is absent exactly when no such row exists. Otherwise it is a row's time and no later than any matching row. |
| ReadSide.ElapsedDaysRoundsDown | models.py:1930 | elapsed days are whole days rounded down, like `timedelta.days` |
| ReadSide.SlaSelectionPartition | models.py:1922-1942 | an assigned petition is in exactly one of the within, breached and in-progress lists, and the total list is their union |
| ReadSide.FilterIsFilter | models.py:1802-1882 | a list comprehension keeps exactly the accepted petitions, in order |
| ReadSide.Drilldown | models.py:1782-1882 | the drill-down is an ordered selection of matching petitions, at most 500. It is all of them when there are at most 500, and exactly the first 500 matches otherwise. |
| ReadSide.SlaFiltered | models.py:1894-1943 | the SLA list loop returns exactly the petitions its metric selects |
| ReadSide.NoIdsNoSelection | models.py:1895-1899 | without petition ids nothing is listed |
| ReadSide.OfficeOfCvo | models.py:1963-1966 | a CVO-like role has an office exactly when it is one, and the office's CVO role is that role |
| ReadSide.ScopedKeepsExactlyInScope | models.py:1963-1972 | the scope keeps, in order, exactly the petitions the WHERE clause accepts: each kept one is in scope and each in-scope one is kept |
| ReadSide.ClassifyForSummary | models.py:1984-2005 | one iteration of the summary loop puts a petition in the bucket `SummaryBucket` gives it, or skips it when it was never assigned |
| ReadSide.SlaStats | models.py:1946-2012 | the summary counters are the numbers of scoped petitions that are assigned, within, breached and in progress |
| ReadSide.SlaTotalIsSum | models.py:1986-2005 | the SLA total is within plus breached plus in progress |
| ReadSide.SelectionMatchesBucket | models.py:1996-2005 | for a petition with an id, the list test and the summary bucket agree |
| ReadSide.SlaListsAgreeWithSummary | models.py:1885-1891 | over petitions with ids, each SLA list is as long as the summary's matching counter |

## Left out

- Database plumbing: connections, cursors, SQL text and the schema. The SQL visibility queries that produce the petition lists the read side folds over are also left out (those lists are parameters).
- The `enquiry_reports` table rows and the `updated_at` column: no workflow decision reads them.
- Uploaded files: their validation, saving and generated file names. An upload is an input that is absent, invalid or stored under a name.
- Flask session, flash messages, redirects and templates, the login decorators, user administration, dashboard presentation and KPI cards. These are outside the workflow.
- Concurrency: the operations take no row locks, so no interleaving is modelled. Each request is sequential and each operation is its own transaction.
- A petition missing when an operation runs is treated as a rollback. The UPDATE matches no row, and the ledger INSERT would violate its foreign key. The schema that states that key is not part of this model.
- Statuses outside the 15 known names are not representable. So the stage-1 fallback for unknown statuses has no input that reaches it.
- Drill-down metrics whose lists come from extra SQL, namely `po_permission_given` and the `month:` cards on `created_at` text, are not modelled. The metric text arrives already split into a `Metric` value.
- petition_new: only the validations that decide storage and routing are modelled. The date, the receiving office, and outside the JMD office the request type and target office. The subject, petition-type, source, institution, contact, length and required-field checks are not modelled, and neither are the default petitioner name and the unmodelled columns.
- Guard.ParseOptionalInt: Python `int()` also accepts underscores between digits and non-ASCII decimal digits; the model accepts an optional sign and ASCII digits only.
- Domain.ParseInt: the same restriction applies to every use of `int()` it models, including the officer id of the `officer:` drill-down metric. Such a text with underscores or non-ASCII digits selects nothing in the model.
- FormConfig.MergeField: overrides whose values are not strings, booleans or lists are not modelled. The `get_form_field_config` fallback for unknown keys is not needed, because every key the guards read is in the defaults.
- ReadSide.CountMultiCountsMembers: stated for lists of distinct statuses. A repeated status is counted twice by the source.
- ReadSide.SlaListsAgreeWithSummary: requires every petition to have a positive id. The list view skips id 0 when it looks up ledger rows, and the summary does not.
- Guard.Decide and the per-action guards: the contracts say exactly when a call is made and what it is. Which warning a refusal carries is stated only for the state gates of direct lodging and closing, and for the e-file resolution.

Code behaviours worth knowing:
- There are no re-enquiry actions and no `sent_back_for_reenquiry` status. Those action names end in "Unsupported action".
- `give_conclusion` closes the petition directly.
- The model operations check no preconditions of their own; only the request handler's guards exist.
- The operations keep an existing e-file number silently. Only the request handler refuses a different incoming value.
- A missing PO leaves the handler empty rather than failing, except in `po_send_to_cmd` and `cmd_submit_action_report`.
- Several operations log a fixed `status_before` rather than the petition's status. So ledger rows do not chain.
