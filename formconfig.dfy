/**
 * The configurable form fields (DEFAULT_FORM_FIELD_CONFIGS) and the merge of
 * administrator overrides into a copy of the defaults
 * (`get_effective_form_field_configs`). The guards read each field's label
 * and `required` flag from the merged table.
 */
module FormConfig {
  import opened Domain

  datatype SelectOption = SelectOption(value: string, labelText: string)

  datatype FieldConfig = FieldConfig(labelText: string, fieldType: string, required: bool, options: seq<SelectOption>)

  const ValidFieldTypes: set<string> := {"text", "textarea", "select", "date", "tel", "email", "file"}

  function Field(labelText: string, fieldType: string, required: bool): FieldConfig {
    FieldConfig(labelText, fieldType, required, [])
  }

  const GovtInstitutionOptions: seq<SelectOption> := [
    SelectOption("aprc", "1. APRC"),
    SelectOption("governor", "2. Governor"),
    SelectOption("cs_energy_department", "3. CS (Energy Department)"),
    SelectOption("cmd_aptransco", "4. CMD APTRANSCO"),
    SelectOption("cmo", "5. CMO"),
    SelectOption("energy_department", "6. Energy Minister")
  ]

  /** The configurable fields, one per key of DEFAULT_FORM_FIELD_CONFIGS. */
  datatype FieldKey =
    | PetitionerName | Contact | Place | Subject | Remarks | GovtInstitutionType
    | ReportText | Recommendation | ReportFile
    | CvoComments | ConsolidatedReportFile
    | ActionTakenDetails | ActionReportFile
    | ApproveEfileNo | RejectReason | SendCmdInstructions | SendCmdEfileNo
    | LodgeEfileNo | LodgeRemarks | DirectLodgeEfileNo | DirectLodgeRemarks | CloseComments

  const AllKeys: set<FieldKey> := {
    PetitionerName, Contact, Place, Subject, Remarks, GovtInstitutionType,
    ReportText, Recommendation, ReportFile, CvoComments, ConsolidatedReportFile,
    ActionTakenDetails, ActionReportFile, ApproveEfileNo, RejectReason, SendCmdInstructions, SendCmdEfileNo,
    LodgeEfileNo, LodgeRemarks, DirectLodgeEfileNo, DirectLodgeRemarks, CloseComments}

  /** The `form.field` name under which a field is stored. */
  function KeyName(k: FieldKey): string {
    match k
    case PetitionerName => "deo_petition.petitioner_name"
    case Contact => "deo_petition.contact"
    case Place => "deo_petition.place"
    case Subject => "deo_petition.subject"
    case Remarks => "deo_petition.remarks"
    case GovtInstitutionType => "deo_petition.govt_institution_type"
    case ReportText => "inspector_report.report_text"
    case Recommendation => "inspector_report.recommendation"
    case ReportFile => "inspector_report.report_file"
    case CvoComments => "cvo_review.cvo_comments"
    case ConsolidatedReportFile => "cvo_review.consolidated_report_file"
    case ActionTakenDetails => "cmd_action.action_taken"
    case ActionReportFile => "cmd_action.action_report_file"
    case ApproveEfileNo => "po_decision.approve_permission_efile_no"
    case RejectReason => "po_decision.reject_permission_reason"
    case SendCmdInstructions => "po_decision.send_cmd_instructions"
    case SendCmdEfileNo => "po_decision.send_cmd_efile_no"
    case LodgeEfileNo => "po_decision.po_lodge_efile_no"
    case LodgeRemarks => "po_decision.po_lodge_remarks"
    case DirectLodgeEfileNo => "po_decision.po_direct_lodge_efile_no"
    case DirectLodgeRemarks => "po_decision.po_direct_lodge_remarks"
    case CloseComments => "po_decision.close_comments"
  }

  /** `key in merged`: the field a stored key names, if it names one. */
  function ParseKey(s: string): Option<FieldKey> {
    if s == "deo_petition.petitioner_name" then Some(PetitionerName)
    else if s == "deo_petition.contact" then Some(Contact)
    else if s == "deo_petition.place" then Some(Place)
    else if s == "deo_petition.subject" then Some(Subject)
    else if s == "deo_petition.remarks" then Some(Remarks)
    else if s == "deo_petition.govt_institution_type" then Some(GovtInstitutionType)
    else if s == "inspector_report.report_text" then Some(ReportText)
    else if s == "inspector_report.recommendation" then Some(Recommendation)
    else if s == "inspector_report.report_file" then Some(ReportFile)
    else if s == "cvo_review.cvo_comments" then Some(CvoComments)
    else if s == "cvo_review.consolidated_report_file" then Some(ConsolidatedReportFile)
    else if s == "cmd_action.action_taken" then Some(ActionTakenDetails)
    else if s == "cmd_action.action_report_file" then Some(ActionReportFile)
    else if s == "po_decision.approve_permission_efile_no" then Some(ApproveEfileNo)
    else if s == "po_decision.reject_permission_reason" then Some(RejectReason)
    else if s == "po_decision.send_cmd_instructions" then Some(SendCmdInstructions)
    else if s == "po_decision.send_cmd_efile_no" then Some(SendCmdEfileNo)
    else if s == "po_decision.po_lodge_efile_no" then Some(LodgeEfileNo)
    else if s == "po_decision.po_lodge_remarks" then Some(LodgeRemarks)
    else if s == "po_decision.po_direct_lodge_efile_no" then Some(DirectLodgeEfileNo)
    else if s == "po_decision.po_direct_lodge_remarks" then Some(DirectLodgeRemarks)
    else if s == "po_decision.close_comments" then Some(CloseComments)
    else None
  }

  /** DEFAULT_FORM_FIELD_CONFIGS, field by field. */
  function DefaultConfig(k: FieldKey): FieldConfig {
    match k
    case PetitionerName => Field("Petitioner Name", "text", false)
    case Contact => Field("Contact Number", "tel", false)
    case Place => Field("Place", "text", false)
    case Subject => Field("Subject", "textarea", true)
    case Remarks => Field("Remarks", "textarea", false)
    case GovtInstitutionType => FieldConfig("Type of Institution", "select", true, GovtInstitutionOptions)
    case ReportText => Field("Conclusion of Enquiry Report", "textarea", true)
    case Recommendation => Field("Recommendations / Suggestions", "textarea", true)
    case ReportFile => Field("Enquiry File (PDF, max 10MB)", "file", true)
    case CvoComments => Field("CVO Comments on Enquiry Report", "textarea", true)
    case ConsolidatedReportFile => Field("Consolidated Report File (PDF, Optional, max 10MB)", "file", false)
    case ActionTakenDetails => Field("Action Taken Details", "textarea", true)
    case ActionReportFile => Field("Upload Action Report Copy (PDF, Optional, max 10MB)", "file", false)
    case ApproveEfileNo => Field("E-Office File No", "text", true)
    case RejectReason => Field("Reason for Rejection", "textarea", true)
    case SendCmdInstructions => Field("CMD/CGM-HR Instructions", "textarea", false)
    case SendCmdEfileNo => Field("E-Office File No", "text", true)
    case LodgeEfileNo => Field("E-Office File No", "text", false)
    case LodgeRemarks => Field("PO Lodge Remarks", "textarea", false)
    case DirectLodgeEfileNo => Field("E-Office File No", "text", false)
    case DirectLodgeRemarks => Field("PO Lodge Remarks", "textarea", false)
    case CloseComments => Field("Closing Remarks", "textarea", false)
  }

  const Defaults: map<FieldKey, FieldConfig> := map k | k in AllKeys :: DefaultConfig(k)

  /** The defaults cover every field, each with a valid type. */
  lemma DefaultsComplete(k: FieldKey)
    ensures k in Defaults && Defaults[k] == DefaultConfig(k)
    ensures DefaultConfig(k).fieldType in ValidFieldTypes
  {
  }

  /** One entry of an override's `options` list: a dict, or anything else. */
  datatype RawOption = NotADictOption | RawOption(value: string, labelText: string)

  /**
   * One stored override: a dict, or anything else. `options` is `None`
   * when the stored value is not a list.
   */
  datatype Override =
    | NotADict
    | Override(labelText: string, fieldType: string, required: bool, options: Option<seq<RawOption>>)

  /** One `options` entry: kept only when it is a dict whose stripped value and label are both non-empty. */
  function CleanOption(o: RawOption): (r: Option<SelectOption>)
    ensures r.Some? ==> r.value.value != [] && r.value.labelText != []
                        && Strip(r.value.value) == r.value.value && Strip(r.value.labelText) == r.value.labelText
  {
    match o
    case NotADictOption => None
    case RawOption(v, l) =>
      StripIdempotent(v);
      StripIdempotent(l);
      if Strip(v) != [] && Strip(l) != [] then Some(SelectOption(Strip(v), Strip(l))) else None
  }

  /** The options an override list contributes: dicts whose stripped value and label are both non-empty. */
  function CleanOptions(opts: seq<RawOption>): (r: seq<SelectOption>)
    ensures |r| <= |opts|
    ensures forall i :: 0 <= i < |r| ==>
              r[i].value != [] && r[i].labelText != [] && Strip(r[i].value) == r[i].value && Strip(r[i].labelText) == r[i].labelText
  {
    if opts == [] then []
    else
      var kept := CleanOptions(opts[..|opts| - 1]);
      match CleanOption(opts[|opts| - 1])
      case None => kept
      case Some(o) => kept + [o]
  }

  /** `CleanOptions` one entry at a time, from the end. */
  lemma CleanOptionsSnoc(opts: seq<RawOption>)
    requires opts != []
    ensures var last := CleanOption(opts[|opts| - 1]);
      CleanOptions(opts) == if last.Some? then CleanOptions(opts[..|opts| - 1]) + [last.value] else CleanOptions(opts[..|opts| - 1])
  {
  }

  /** Every entry that cleans to an option contributes it. */
  lemma {:induction false} CleanOptionsKeepsClean(opts: seq<RawOption>)
    ensures forall i :: 0 <= i < |opts| && CleanOption(opts[i]).Some? ==> CleanOption(opts[i]).value in CleanOptions(opts)
  {
    if opts != [] {
      var front := opts[..|opts| - 1];
      var last := CleanOption(opts[|opts| - 1]);
      CleanOptionsKeepsClean(front);
      CleanOptionsSnoc(opts);
      forall i | 0 <= i < |opts| - 1 && CleanOption(opts[i]).Some?
        ensures CleanOption(opts[i]).value in CleanOptions(opts)
      {
        assert opts[i] == front[i];
      }
    }
  }

  /** Every kept option comes from an entry that cleans to it. */
  lemma {:induction false} CleanOptionsOnlyClean(opts: seq<RawOption>)
    ensures var r := CleanOptions(opts);
      forall i :: 0 <= i < |r| ==> exists j :: 0 <= j < |opts| && CleanOption(opts[j]) == Some(r[i])
  {
    if opts != [] {
      var front := opts[..|opts| - 1];
      var last := CleanOption(opts[|opts| - 1]);
      var r, kept := CleanOptions(opts), CleanOptions(front);
      CleanOptionsOnlyClean(front);
      CleanOptionsSnoc(opts);
      forall i | 0 <= i < |r|
        ensures exists j :: 0 <= j < |opts| && CleanOption(opts[j]) == Some(r[i])
      {
        if i < |kept| {
          var j :| 0 <= j < |front| && CleanOption(front[j]) == Some(kept[i]);
          assert opts[j] == front[j] && r[i] == kept[i];
          assert CleanOption(opts[j]) == Some(r[i]);
        } else {
          var j := |opts| - 1;
          assert r[i] == last.value;
          assert CleanOption(opts[j]) == Some(r[i]);
        }
      }
    }
  }

  /** Python's `str.strip()` is idempotent. */
  lemma StripIdempotent(s: string)
    ensures Strip(Strip(s)) == Strip(s)
  {
    var t := Strip(s);
    StripLeftFixed(t);
    StripRightFixed(t);
  }

  lemma StripLeftFixed(t: string)
    requires t == [] || !IsSpace(t[0])
    ensures StripLeft(t) == t
  {
  }

  lemma StripRightFixed(t: string)
    requires t == [] || !IsSpace(t[|t| - 1])
    ensures StripRight(t) == t
  {
  }

  /** The loop body of the merge, applied to one field's configuration. */
  function ApplyOverride(c: FieldConfig, o: Override): FieldConfig {
    match o
    case NotADict => c
    case Override(labelText, fieldType, required, options) =>
      var newLabel := if labelText != [] && Strip(labelText) != [] then Strip(labelText) else c.labelText;
      var newType := if Strip(fieldType) in ValidFieldTypes then Strip(fieldType) else c.fieldType;
      var c1 := c.(labelText := newLabel, fieldType := newType, required := required);
      if newType == "select" && options.Some? && options.value != [] && CleanOptions(options.value) != []
      then c1.(options := CleanOptions(options.value))
      else c1
  }

  /** The merged table after the first `|overrides|` overrides, in dict order. */
  function MergeAll(base: map<FieldKey, FieldConfig>, overrides: seq<(string, Override)>): map<FieldKey, FieldConfig> {
    if overrides == [] then base
    else
      var m := MergeAll(base, overrides[..|overrides| - 1]);
      var (name, o) := overrides[|overrides| - 1];
      match ParseKey(name)
      case Some(key) => if key in m then m[key := ApplyOverride(m[key], o)] else m
      case None => m
  }

  /** The `required` flag of the last dict override stored for `key`, if any. */
  function LastRequired(overrides: seq<(string, Override)>, key: FieldKey): Option<bool> {
    if overrides == [] then None
    else
      var (name, o) := overrides[|overrides| - 1];
      if ParseKey(name) == Some(key) && o.Override? then Some(o.required)
      else LastRequired(overrides[..|overrides| - 1], key)
  }

  /** The valid options of one override list, collected in order. */
  method CollectOptions(opts: seq<RawOption>) returns (valid: seq<SelectOption>)
    ensures valid == CleanOptions(opts)
  {
    valid := [];
    for i := 0 to |opts|
      invariant valid == CleanOptions(opts[..i])
    {
      CleanOptionsSnoc(opts[..i + 1]);
      assert opts[..i + 1][..i] == opts[..i];
      match opts[i]
      case NotADictOption =>
      case RawOption(v, l) =>
        var value := Strip(v);
        var labelText := Strip(l);
        if value != [] && labelText != [] {
          assert CleanOption(opts[i]) == Some(SelectOption(value, labelText));
          valid := valid + [SelectOption(value, labelText)];
        }
    }
    assert opts[..|opts|] == opts;
  }

  /** The body of the merge loop for one dict override of a known field. */
  method MergeField(c: FieldConfig, o: Override) returns (merged: FieldConfig)
    requires o.Override?
    ensures merged == ApplyOverride(c, o)
  {
    merged := c;
    if o.labelText != [] {
      var labelText := Strip(o.labelText);
      merged := merged.(labelText := if labelText != [] then labelText else merged.labelText);
    }
    var fieldType := Strip(o.fieldType);
    if fieldType in ValidFieldTypes {
      merged := merged.(fieldType := fieldType);
    }
    merged := merged.(required := o.required);
    if merged.fieldType == "select" && o.options.Some? && o.options.value != [] {
      var valid := CollectOptions(o.options.value);
      if valid != [] {
        merged := merged.(options := valid);
      }
    }
  }

  /** `get_effective_form_field_configs`: a copy of the defaults with each override merged in. */
  method EffectiveConfigs(overrides: seq<(string, Override)>) returns (merged: map<FieldKey, FieldConfig>)
    ensures merged == MergeAll(Defaults, overrides)
  {
    merged := Defaults;
    for i := 0 to |overrides|
      invariant merged == MergeAll(Defaults, overrides[..i])
    {
      assert overrides[..i + 1][..i] == overrides[..i];
      var (name, o) := overrides[i];
      var key := ParseKey(name);
      if key.Some? && key.value in merged && o.Override? {
        var c := MergeField(merged[key.value], o);
        merged := merged[key.value := c];
      }
    }
    assert overrides[..|overrides|] == overrides;
  }

  /** Overrides never add or remove fields: unknown keys are skipped. */
  lemma {:induction false} MergeKeepsKeys(base: map<FieldKey, FieldConfig>, overrides: seq<(string, Override)>)
    ensures MergeAll(base, overrides).Keys == base.Keys
    decreases |overrides|
  {
    if overrides != [] {
      MergeKeepsKeys(base, overrides[..|overrides| - 1]);
    }
  }

  /** Every merged field keeps a type from VALID_DYNAMIC_FIELD_TYPES. */
  lemma {:induction false} MergeKeepsTypesValid(base: map<FieldKey, FieldConfig>, overrides: seq<(string, Override)>)
    requires forall k :: k in base ==> base[k].fieldType in ValidFieldTypes
    ensures forall k :: k in MergeAll(base, overrides) ==> MergeAll(base, overrides)[k].fieldType in ValidFieldTypes
    decreases |overrides|
  {
    if overrides != [] {
      var prefix := overrides[..|overrides| - 1];
      MergeKeepsTypesValid(base, prefix);
      var m := MergeAll(base, prefix);
      var (name, o) := overrides[|overrides| - 1];
      if ParseKey(name).Some? && ParseKey(name).value in m {
        TypeStaysValid(m[ParseKey(name).value], o);
      }
    }
  }

  lemma TypeStaysValid(c: FieldConfig, o: Override)
    requires c.fieldType in ValidFieldTypes
    ensures ApplyOverride(c, o).fieldType in ValidFieldTypes
  {
  }

  /** A field is required exactly as its last dict override says, or as the default says when it has none. */
  lemma {:induction false} MergeRequired(base: map<FieldKey, FieldConfig>, overrides: seq<(string, Override)>, key: FieldKey)
    requires key in base
    ensures key in MergeAll(base, overrides)
    ensures MergeAll(base, overrides)[key].required == LastRequired(overrides, key).GetOr(base[key].required)
    decreases |overrides|
  {
    MergeKeepsKeys(base, overrides);
    if overrides != [] {
      var prefix := overrides[..|overrides| - 1];
      MergeRequired(base, prefix, key);
      MergeKeepsKeys(base, prefix);
      var m := MergeAll(base, prefix);
      var (name, o) := overrides[|overrides| - 1];
      assert key in m;
      if ParseKey(name) == Some(key) && o.Override? {
        assert MergeAll(base, overrides)[key] == ApplyOverride(m[key], o);
      } else {
        assert MergeAll(base, overrides)[key] == m[key];
      }
    }
  }

  /** Storing the same override twice has the effect of storing it once. */
  lemma OverrideIdempotent(c: FieldConfig, o: Override)
    ensures ApplyOverride(ApplyOverride(c, o), o) == ApplyOverride(c, o)
  {
  }

  /** `form_cfg.get(key, DEFAULT_FORM_FIELD_CONFIGS[key])`: the merged entry, else the default. */
  function Setting(cfg: map<FieldKey, FieldConfig>, key: FieldKey): FieldConfig {
    if key in cfg then cfg[key] else DefaultConfig(key)
  }
}
