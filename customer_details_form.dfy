/**
 * The customer details form (Frontend/components/CustomerDetailsForm.js):
 * loading a patient record into the working draft, merging an extraction
 * payload into the draft with per-field provenance ("new" or "updated"),
 * highlighting, editing one field, Cancel, and the save guard and outcome.
 */
module CustomerDetailsForm {
  import opened Values

  /** A patient row as the frontend receives it: column name to value. */
  type Record = map<string, Value>

  /** How the merge tests a payload value before it calls `trackField`. */
  datatype Test =
    | IfTruthy   // `if (category.field)`
    | IfNotNull  // `if (category.field !== null)`

  /** The payload category a tracked field is read from, and the test its value must pass. */
  datatype FieldSpec = FieldSpec(category: string, test: Test)

  /** Every field the merge reads; the payload key is the form field's own name. */
  const Schema: map<string, FieldSpec> := map[
    "customer_edd" := FieldSpec("pregnancy_related", IfTruthy),
    "first_pregnancy" := FieldSpec("pregnancy_related", IfNotNull),
    "scans_done" := FieldSpec("pregnancy_related", IfTruthy),
    "having_twins" := FieldSpec("pregnancy_related", IfTruthy),
    "customer_location" := FieldSpec("family_personal", IfTruthy),
    "relatives_living_with" := FieldSpec("family_personal", IfTruthy),
    "mother_occupation" := FieldSpec("family_personal", IfTruthy),
    "father_occupation" := FieldSpec("family_personal", IfTruthy),
    "how_learned_cloudnine" := FieldSpec("cloudnine_awareness", IfTruthy),
    "aware_of_packages" := FieldSpec("cloudnine_awareness", IfNotNull),
    "downloaded_app" := FieldSpec("cloudnine_awareness", IfNotNull),
    "booking_method" := FieldSpec("cloudnine_awareness", IfTruthy),
    "insurance_status" := FieldSpec("insurance", IfTruthy),
    "transport_method" := FieldSpec("cce_observations", IfTruthy),
    "mentioned_competitors" := FieldSpec("cce_observations", IfNotNull),
    "interested_in_facilities" := FieldSpec("cce_observations", IfNotNull),
    "doctor_preference" := FieldSpec("cce_observations", IfTruthy),
    "doctor_name" := FieldSpec("cce_observations", IfTruthy),
    "price_inquiry" := FieldSpec("cce_observations", IfNotNull),
    "accompanied_by" := FieldSpec("cce_observations", IfTruthy),
    "brings_other_children" := FieldSpec("cce_observations", IfTruthy),
    "doctor_remark_questions" := FieldSpec("cce_observations", IfNotNull),
    "going_to_native" := FieldSpec("cce_observations", IfNotNull),
    "package_interest" := FieldSpec("additional_insights", IfTruthy)
  ]

  /** The order in which the merge effect calls `trackField`. */
  const TrackOrder: seq<string> := [
    "customer_edd", "first_pregnancy", "scans_done", "having_twins",
    "customer_location", "relatives_living_with", "mother_occupation", "father_occupation",
    "how_learned_cloudnine", "aware_of_packages", "downloaded_app", "booking_method",
    "insurance_status",
    "transport_method", "mentioned_competitors", "interested_in_facilities",
    "doctor_preference", "doctor_name", "price_inquiry", "accompanied_by",
    "brings_other_children", "doctor_remark_questions", "going_to_native",
    "package_interest"
  ]

  /** The six payload categories the merge looks at. */
  const Categories: set<string> := {
    "pregnancy_related", "family_personal", "cloudnine_awareness",
    "insurance", "cce_observations", "additional_insights"
  }

  lemma TrackOrderEnumeratesSchema()
    ensures Enumerates(TrackOrder, Schema)
    ensures forall n :: n in Schema ==> Schema[n].category in Categories
  {
  }

  /** `patientData[name]`: the baseline value, `undefined` for a missing column. */
  function Baseline(record: Record, name: string): Value
  {
    if name in record then record[name] else Undefined
  }

  predicate Passes(t: Test, v: Value)
  {
    match t
    case IfTruthy => Truthy(v)
    case IfNotNull => v != Null
  }

  /** The value `trackField` is called with for `name`, or None when it is not called. */
  function Candidate(schema: map<string, FieldSpec>, payload: Value, name: string): Option<Value>
    requires name in schema
  {
    var category := Get(payload, schema[name].category);
    if !Truthy(category) then None
    else
      var v := Get(category, name);
      if Passes(schema[name].test, v) then Some(v) else None
  }

  /** `trackField` files a field as updated: a truthy baseline that is `!==` the new value. */
  predicate IsUpdate(record: Record, name: string, v: Value)
  {
    Truthy(Baseline(record, name)) && StrictlyDiffer(Baseline(record, name), v)
  }

  /** The draft the merge builds: every tracked field with its payload value. */
  function Tracked(schema: map<string, FieldSpec>, payload: Value): map<string, Value>
  {
    map n | n in schema && Candidate(schema, payload, n).Some? :: Candidate(schema, payload, n).value
  }

  /** Fields highlighted as updated after the merge. */
  function UpdatedSet(schema: map<string, FieldSpec>, record: Record, payload: Value): set<string>
  {
    var t := Tracked(schema, payload);
    set n | n in t && IsUpdate(record, n, t[n])
  }

  /** Fields highlighted as new after the merge. */
  function NewSet(schema: map<string, FieldSpec>, record: Record, payload: Value): set<string>
  {
    set n | n in Tracked(schema, payload) && !Truthy(Baseline(record, n))
  }

  /** The `trackField` closure: write the value, then classify against the baseline. */
  method TrackField(record: Record, data: map<string, Value>, updated: set<string>, added: set<string>,
                    name: string, v: Value)
    returns (data': map<string, Value>, updated': set<string>, added': set<string>)
    ensures data' == data[name := v]
    ensures updated' == if IsUpdate(record, name, v) then updated + {name} else updated
    ensures added' == if !Truthy(Baseline(record, name)) then added + {name} else added
  {
    data' := data[name := v];
    updated', added' := updated, added;
    if Truthy(Baseline(record, name)) && StrictlyDiffer(Baseline(record, name), v) {
      updated' := updated + {name};
    } else if !Truthy(Baseline(record, name)) {
      added' := added + {name};
    }
  }

  /** `order` lists every field of `schema`. */
  ghost predicate Enumerates(order: seq<string>, schema: map<string, FieldSpec>)
  {
    forall n :: n in order <==> n in schema
  }

  /**
   * The body of the extraction effect: starting from an empty draft and two
   * empty sets, call `trackField` for every listed field, in order, whose
   * category is truthy and whose value passes its test.
   */
  method Merge(schema: map<string, FieldSpec>, order: seq<string>, record: Record, payload: Value)
    returns (data: map<string, Value>, updated: set<string>, added: set<string>)
    requires Enumerates(order, schema)
    ensures forall n :: n in data <==> n in schema && Candidate(schema, payload, n).Some?
    ensures forall n :: n in data ==> n in schema && data[n] == Candidate(schema, payload, n).value
    ensures forall n :: n in updated <==> n in data && IsUpdate(record, n, data[n])
    ensures forall n :: n in added <==> n in data && !Truthy(Baseline(record, n))
    ensures updated !! added
    ensures data == Tracked(schema, payload)
    ensures updated == UpdatedSet(schema, record, payload) && added == NewSet(schema, record, payload)
  {
    data, updated, added := map[], {}, {};
    for i := 0 to |order|
      invariant forall n :: n in data <==> n in order[..i] && Candidate(schema, payload, n).Some?
      invariant forall n :: n in data ==> n in schema && data[n] == Candidate(schema, payload, n).value
      invariant forall n :: n in updated <==> n in data && IsUpdate(record, n, data[n])
      invariant forall n :: n in added <==> n in data && !Truthy(Baseline(record, n))
    {
      var name := order[i];
      assert order[..i + 1] == order[..i] + [name];
      var spec := schema[name];
      var category := Get(payload, spec.category);
      if Truthy(category) {
        var v := Get(category, name);
        if Passes(spec.test, v) {
          data, updated, added := TrackField(record, data, updated, added, name, v);
        }
      }
    }
    assert order[..|order|] == order;
  }

  /** The `scans_done` value the record-load effect stores: a string is parsed, falling back to []. */
  function ScansDone(raw: Value, parseJson: string -> Option<Value>): Value
  {
    if raw.Str? then
      match parseJson(raw.s)
      case Some(parsed) => parsed
      case None => List([])
    else raw
  }

  /** The draft after loading a record. */
  function Loaded(record: Record, parseJson: string -> Option<Value>): map<string, Value>
  {
    var copied := map k | k in record && k != "scans_done" && record[k] != Null && record[k] != Undefined :: record[k];
    if Truthy(Baseline(record, "scans_done")) then copied["scans_done" := ScansDone(record["scans_done"], parseJson)]
    else copied
  }

  /**
   * The body of the record-load effect: `scans_done` is parsed when it is a
   * truthy string, then every other non-null column is copied (`forEach`).
   */
  method LoadRecord(record: Record, parseJson: string -> Option<Value>) returns (data: map<string, Value>)
    ensures "scans_done" in data <==> Truthy(Baseline(record, "scans_done"))
    ensures "scans_done" in data ==> data["scans_done"] == ScansDone(record["scans_done"], parseJson)
    ensures forall k :: k != "scans_done" ==> (k in data <==> k in record && record[k] != Null && record[k] != Undefined)
    ensures forall k :: k in data && k != "scans_done" ==> data[k] == record[k]
    ensures data == Loaded(record, parseJson)
  {
    data := map[];
    if Truthy(Baseline(record, "scans_done")) {
      var raw := record["scans_done"];
      if raw.Str? {
        var parsed := parseJson(raw.s);
        match parsed {
          case Some(x) => data := data["scans_done" := x];
          case None => data := data["scans_done" := List([])];
        }
      } else {
        data := data["scans_done" := raw];
      }
    }
    var keys := record.Keys;
    while keys != {}
      invariant keys <= record.Keys
      invariant "scans_done" in data <==> Truthy(Baseline(record, "scans_done"))
      invariant "scans_done" in data ==> data["scans_done"] == ScansDone(record["scans_done"], parseJson)
      invariant forall k :: k != "scans_done" ==>
        (k in data <==> k in record && k !in keys && record[k] != Null && record[k] != Undefined)
      invariant forall k :: k in data && k != "scans_done" ==> data[k] == record[k]
      decreases keys
    {
      var key :| key in keys;
      if key != "scans_done" && record[key] != Null && record[key] != Undefined {
        data := data[key := record[key]];
      }
      keys := keys - {key};
    }
  }

  /** The CSS highlight a field gets. */
  datatype Highlight = UpdatedHighlight | NewHighlight | NoHighlight

  /** `getFieldHighlight`: updated wins over new; an unclassified field gets none. */
  function HighlightOf(updated: set<string>, added: set<string>, name: string): Highlight
  {
    if name in updated then UpdatedHighlight
    else if name in added then NewHighlight
    else NoHighlight
  }

  /** A PUT response counts as saved when `response.ok`, i.e. its status is 2xx. */
  predicate ResponseOk(status: int)
  {
    200 <= status <= 299
  }

  /** The body `handleSave` sends: `{patient_id, ...formData, created_by: 'Manojkumar'}`. */
  function SaveBody(patientId: Value, formData: map<string, Value>): (body: map<string, Value>)
    ensures "created_by" in body && body["created_by"] == Str("Manojkumar")
    ensures forall k :: k in formData && k != "created_by" ==> k in body && body[k] == formData[k]
    ensures "patient_id" in body && ("patient_id" !in formData ==> body["patient_id"] == patientId)
    ensures body.Keys == formData.Keys + {"patient_id", "created_by"}
  {
    map["patient_id" := patientId] + formData + map["created_by" := Str("Manojkumar")]
  }

  /** The form component's own state. */
  class Form {
    var formData: map<string, Value>
    var isSaving: bool
    var updatedFields: set<string>
    var newFields: set<string>

    constructor()
      ensures formData == map[] && !isSaving && updatedFields == {} && newFields == {}
    {
      formData := map[];
      isSaving := false;
      updatedFields := {};
      newFields := {};
    }

    /** The effect on `[patientData]` for a selected (truthy) record. */
    method LoadPatient(record: Record, parseJson: string -> Option<Value>)
      modifies this
      ensures formData == Loaded(record, parseJson)
      ensures updatedFields == {} && newFields == {}
      ensures isSaving == old(isSaving)
    {
      formData := LoadRecord(record, parseJson);
      updatedFields := {};
      newFields := {};
    }

    /**
     * The effect on `[extractedInfo, patientData]`: a truthy payload replaces
     * the whole draft and both highlight sets; a falsy one changes nothing.
     */
    method ApplyExtraction(record: Record, extractedInfo: Value)
      modifies this
      ensures Truthy(extractedInfo) ==>
        formData == Tracked(Schema, extractedInfo)
        && updatedFields == UpdatedSet(Schema, record, extractedInfo)
        && newFields == NewSet(Schema, record, extractedInfo)
      ensures !Truthy(extractedInfo) ==>
        formData == old(formData) && updatedFields == old(updatedFields) && newFields == old(newFields)
      ensures isSaving == old(isSaving)
    {
      if Truthy(extractedInfo) {
        TrackOrderEnumeratesSchema();
        var data, updated, added := Merge(Schema, TrackOrder, record, extractedInfo);
        formData := data;
        updatedFields := updated;
        newFields := added;
      }
    }

    /**
     * A render after the props changed: the two effects run in declaration
     * order, the load when `patientData` changed, the merge when either
     * changed. A payload still present therefore overwrites a freshly loaded
     * record.
     */
    method PropsChanged(patientChanged: bool, extractedChanged: bool, patientData: Option<Record>,
                        extractedInfo: Value, parseJson: string -> Option<Value>)
      requires (&& Truthy(extractedInfo) && (patientChanged || extractedChanged)
                && Tracked(Schema, extractedInfo) != map[]) ==> patientData.Some?
      modifies this
      ensures Truthy(extractedInfo) && (patientChanged || extractedChanged) && patientData.Some? ==>
        formData == Tracked(Schema, extractedInfo)
        && updatedFields == UpdatedSet(Schema, patientData.value, extractedInfo)
        && newFields == NewSet(Schema, patientData.value, extractedInfo)
      ensures Truthy(extractedInfo) && (patientChanged || extractedChanged) && patientData.None? ==>
        formData == map[] && updatedFields == {} && newFields == {}
      ensures !(Truthy(extractedInfo) && (patientChanged || extractedChanged)) && patientChanged && patientData.Some? ==>
        formData == Loaded(patientData.value, parseJson) && updatedFields == {} && newFields == {}
      ensures !(Truthy(extractedInfo) && (patientChanged || extractedChanged)) && !(patientChanged && patientData.Some?) ==>
        formData == old(formData) && updatedFields == old(updatedFields) && newFields == old(newFields)
      ensures isSaving == old(isSaving)
    {
      if patientChanged && patientData.Some? {
        LoadPatient(patientData.value, parseJson);
      }
      if (patientChanged || extractedChanged) && Truthy(extractedInfo) {
        // Without a record no `trackField` may run: the payload names no tracked field.
        var record := if patientData.Some? then patientData.value else map[];
        ApplyExtraction(record, extractedInfo);
      }
    }

    /** `handleInputChange`: only the named field changes. */
    method HandleInputChange(field: string, value: Value)
      modifies this
      ensures formData == old(formData)[field := value]
      ensures forall k :: k != field ==> (k in formData <==> k in old(formData))
      ensures forall k :: k != field && k in formData ==> formData[k] == old(formData)[k]
      ensures updatedFields == old(updatedFields) && newFields == old(newFields) && isSaving == old(isSaving)
    {
      formData := formData[field := value];
    }

    /** `getFieldHighlight`. */
    function FieldHighlight(name: string): Highlight
      reads this
    {
      HighlightOf(updatedFields, newFields, name)
    }

    /** The Save button is disabled while saving or when the draft is empty. */
    predicate SaveDisabled()
      reads this
    {
      isSaving || |formData| == 0
    }

    /** Cancel empties the draft and leaves the highlights. */
    method Cancel()
      modifies this
      ensures formData == map[] && SaveDisabled()
      ensures updatedFields == old(updatedFields) && newFields == old(newFields) && isSaving == old(isSaving)
    {
      formData := map[];
    }

    /**
     * `handleSave`. Without a truthy `patient_id` nothing is sent. Otherwise
     * one PUT carries `SaveBody`; `status` is its HTTP status, or None when
     * the request itself failed. Success clears `notes` and both sets;
     * failure keeps them. `isSaving` ends false either way.
     */
    method Save(patientData: Value, status: Option<int>) returns (request: Option<map<string, Value>>)
      modifies this
      ensures !Truthy(Get(patientData, "patient_id")) ==>
        request == None && formData == old(formData) && isSaving == old(isSaving)
        && updatedFields == old(updatedFields) && newFields == old(newFields)
      ensures Truthy(Get(patientData, "patient_id")) ==>
        request == Some(SaveBody(Get(patientData, "patient_id"), old(formData))) && !isSaving
      ensures Truthy(Get(patientData, "patient_id")) && status.Some? && ResponseOk(status.value) ==>
        formData == old(formData)["notes" := Str("")] && updatedFields == {} && newFields == {}
      ensures Truthy(Get(patientData, "patient_id")) && !(status.Some? && ResponseOk(status.value)) ==>
        formData == old(formData) && updatedFields == old(updatedFields) && newFields == old(newFields)
    {
      var patientId := Get(patientData, "patient_id");
      if !Truthy(patientId) {
        return None;
      }
      isSaving := true;
      request := Some(SaveBody(patientId, formData));
      if status.Some? && ResponseOk(status.value) {
        formData := formData["notes" := Str("")];
        updatedFields := {};
        newFields := {};
      }
      isSaving := false;
    }
  }

  // ---------------------------------------------------------------------
  // Properties of the merge

  /**
   * A tracked field whose truthy baseline is the same scalar as the payload
   * value is in neither set, yet it is still written into the draft.
   */
  lemma UnchangedFieldStillWritten(record: Record, payload: Value, name: string)
    requires name in Schema && Candidate(Schema, payload, name).Some?
    requires Truthy(Baseline(record, name)) && Baseline(record, name) == Candidate(Schema, payload, name).value
    requires !Baseline(record, name).List? && !Baseline(record, name).Obj?
    ensures name in Tracked(Schema, payload) && Tracked(Schema, payload)[name] == Baseline(record, name)
    ensures name !in UpdatedSet(Schema, record, payload) && name !in NewSet(Schema, record, payload)
  {
  }

  /** A baseline of `false` is falsy, so such a field is never "updated", only "new". */
  lemma FalseBaselineNeverUpdated(record: Record, payload: Value, name: string)
    requires Baseline(record, name) == Bool(false)
    ensures name !in UpdatedSet(Schema, record, payload)
    ensures name in Tracked(Schema, payload) <==> name in NewSet(Schema, record, payload)
  {
  }

  /** An array in the payload never equals the baseline, so a truthy baseline makes it "updated". */
  lemma ArrayAgainstTruthyBaselineIsUpdated(record: Record, payload: Value, name: string)
    requires name in Schema && Candidate(Schema, payload, name).Some? && Candidate(Schema, payload, name).value.List?
    requires Truthy(Baseline(record, name))
    ensures name in UpdatedSet(Schema, record, payload) && name !in NewSet(Schema, record, payload)
  {
  }

  /**
   * The eight `!== null` fields are tracked whenever their category is truthy
   * and the value is not null: `false` and a missing key (undefined) both are.
   */
  lemma NotNullFieldsTrackFalseAndMissing(payload: Value, name: string)
    requires name in Schema && Schema[name].test == IfNotNull
    requires Truthy(Get(payload, Schema[name].category))
    ensures name in Tracked(Schema, payload) <==> Get(Get(payload, Schema[name].category), name) != Null
    ensures Get(Get(payload, Schema[name].category), name) == Undefined ==>
      name in Tracked(Schema, payload) && Tracked(Schema, payload)[name] == Undefined
  {
  }

  /** The other sixteen fields are tracked only when their payload value is truthy. */
  lemma TruthyFieldsNeedTruthyValue(payload: Value, name: string)
    requires name in Schema && Schema[name].test == IfTruthy
    ensures name in Tracked(Schema, payload) <==>
      Truthy(Get(payload, Schema[name].category)) && Truthy(Get(Get(payload, Schema[name].category), name))
  {
  }

  /** Exactly eight fields use the `!== null` test. */
  lemma EightNotNullFields()
    ensures (set n | n in Schema && Schema[n].test == IfNotNull) ==
      {"first_pregnancy", "aware_of_packages", "downloaded_app", "mentioned_competitors",
       "interested_in_facilities", "price_inquiry", "doctor_remark_questions", "going_to_native"}
  {
  }

  /** A payload with no truthy listed category (an error dict, say) empties the draft and both sets. */
  lemma NoCategoryEmptiesDraft(record: Record, payload: Value)
    requires forall c :: c in Categories ==> !Truthy(Get(payload, c))
    ensures Tracked(Schema, payload) == map[] && UpdatedSet(Schema, record, payload) == {} && NewSet(Schema, record, payload) == {}
  {
    TrackOrderEnumeratesSchema();
    forall n | n in Schema ensures Candidate(Schema, payload, n).None? {
      assert Schema[n].category in Categories;
    }
  }

  /** Adding a key that is not listed for that category does not change the merge. */
  lemma UnlistedKeyIgnored(record: Record, fields: map<string, Value>, category: string, key: string, v: Value)
    requires category in fields && fields[category].Obj?
    requires key !in Schema || Schema[key].category != category
    ensures var payload' := Obj(fields[category := Obj(fields[category].fields[key := v])]);
      Tracked(Schema, payload') == Tracked(Schema, Obj(fields))
      && UpdatedSet(Schema, record, payload') == UpdatedSet(Schema, record, Obj(fields))
      && NewSet(Schema, record, payload') == NewSet(Schema, record, Obj(fields))
  {
    var payload := Obj(fields);
    var payload' := Obj(fields[category := Obj(fields[category].fields[key := v])]);
    forall n | n in Schema ensures Candidate(Schema, payload', n) == Candidate(Schema, payload, n) {
      if Schema[n].category == category {
        assert n != key;
        assert Get(Get(payload', category), n) == Get(Get(payload, category), n);
      } else {
        assert Get(payload', Schema[n].category) == Get(payload, Schema[n].category);
      }
    }
    SameCandidatesSameMerge(Schema, record, payload', payload);
  }

  /** Adding a category the merge does not know does not change the merge. */
  lemma UnknownCategoryIgnored(record: Record, fields: map<string, Value>, category: string, v: Value)
    requires category !in Categories
    ensures var payload' := Obj(fields[category := v]);
      Tracked(Schema, payload') == Tracked(Schema, Obj(fields))
      && UpdatedSet(Schema, record, payload') == UpdatedSet(Schema, record, Obj(fields))
      && NewSet(Schema, record, payload') == NewSet(Schema, record, Obj(fields))
  {
    TrackOrderEnumeratesSchema();
    var payload := Obj(fields);
    var payload' := Obj(fields[category := v]);
    forall n | n in Schema ensures Candidate(Schema, payload', n) == Candidate(Schema, payload, n) {
      assert Schema[n].category in Categories;
      assert Get(payload', Schema[n].category) == Get(payload, Schema[n].category);
    }
    SameCandidatesSameMerge(Schema, record, payload', payload);
  }

  /** Two payloads offering every field the same candidate merge alike. */
  lemma SameCandidatesSameMerge(schema: map<string, FieldSpec>, record: Record, p: Value, q: Value)
    requires forall n :: n in schema ==> Candidate(schema, p, n) == Candidate(schema, q, n)
    ensures Tracked(schema, p) == Tracked(schema, q)
    ensures UpdatedSet(schema, record, p) == UpdatedSet(schema, record, q)
    ensures NewSet(schema, record, p) == NewSet(schema, record, q)
  {
    assert Tracked(schema, p) == Tracked(schema, q);
  }

  /** The highlight after a merge: yellow exactly for updates, green exactly for new fields. */
  lemma HighlightAfterMerge(record: Record, payload: Value, name: string)
    ensures var t := Tracked(Schema, payload);
      var h := HighlightOf(UpdatedSet(Schema, record, payload), NewSet(Schema, record, payload), name);
      && (h == UpdatedHighlight <==> name in t && IsUpdate(record, name, t[name]))
      && (h == NewHighlight <==> name in t && !Truthy(Baseline(record, name)))
      && (h == NoHighlight <==> name !in t || (Truthy(Baseline(record, name)) && !IsUpdate(record, name, t[name])))
  {
  }

  /**
   * Merging again against the merged draft is not quiet: an explicit `false`
   * answer is "new" again, because `false` is a falsy baseline.
   */
  lemma RemergeOfFalseIsNewAgain()
    ensures var payload := Obj(map["pregnancy_related" := Obj(map["first_pregnancy" := Bool(false)])]);
      "first_pregnancy" in NewSet(Schema, Tracked(Schema, payload), payload)
  {
    var payload := Obj(map["pregnancy_related" := Obj(map["first_pregnancy" := Bool(false)])]);
    assert Candidate(Schema, payload, "first_pregnancy") == Some(Bool(false));
    assert "first_pregnancy" in Tracked(Schema, payload);
  }

  /** A pregnancy category with an EDD and a twins answer, and nothing else. */
  const EddPayload: Value :=
    Obj(map["pregnancy_related" := Obj(map["customer_edd" := Str("2024-06-15"), "having_twins" := Str("no")])])

  /**
   * Against the baseline {customer_edd: null, having_twins: "no"}: the EDD
   * is new; twins, rewritten with the same answer, is written but in neither
   * set; and `first_pregnancy`, absent from the category, passes `!== null`
   * as undefined and is written and marked new as well.
   */
  lemma EddNewTwinsUnchanged()
    ensures var record := map["customer_edd" := Null, "having_twins" := Str("no")];
      var t := Tracked(Schema, EddPayload);
      && "customer_edd" in t && t["customer_edd"] == Str("2024-06-15")
      && "customer_edd" in NewSet(Schema, record, EddPayload)
      && "having_twins" in t && t["having_twins"] == Str("no")
      && "having_twins" !in NewSet(Schema, record, EddPayload)
      && "having_twins" !in UpdatedSet(Schema, record, EddPayload)
      && "first_pregnancy" in t && t["first_pregnancy"] == Undefined
      && "first_pregnancy" in NewSet(Schema, record, EddPayload)
      && "scans_done" !in t
  {
    assert Candidate(Schema, EddPayload, "customer_edd") == Some(Str("2024-06-15"));
    assert Candidate(Schema, EddPayload, "first_pregnancy") == Some(Undefined);
    assert Candidate(Schema, EddPayload, "having_twins") == Some(Str("no"));
    assert Candidate(Schema, EddPayload, "scans_done") == None;
  }

  /** When the payload holds a single category, only that category's fields are tracked. */
  lemma OnlyCategoryTracked(payload: Value, category: string)
    requires payload.Obj? && payload.fields.Keys == {category}
    ensures forall n :: n in Tracked(Schema, payload) ==> Schema[n].category == category
  {
    forall n | n in Schema && Schema[n].category != category
      ensures Candidate(Schema, payload, n).None?
    {
      assert Get(payload, Schema[n].category) == Undefined;
    }
  }

  /** A truthy baseline "Pune" against the payload "Mumbai" is an update. */
  lemma LocationChangeIsUpdated()
    ensures var record := map["customer_location" := Str("Pune")];
      var payload := Obj(map["family_personal" := Obj(map["customer_location" := Str("Mumbai")])]);
      "customer_location" in UpdatedSet(Schema, record, payload) && "customer_location" !in NewSet(Schema, record, payload)
  {
    var payload := Obj(map["family_personal" := Obj(map["customer_location" := Str("Mumbai")])]);
    assert Candidate(Schema, payload, "customer_location") == Some(Str("Mumbai"));
    assert "customer_location" in Tracked(Schema, payload);
  }
}
