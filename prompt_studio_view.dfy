/** `components/PromptStudio.tsx`: what each field shows (value, provenance against the active
    preset, missing mark, read-only state), the list of visible fields, and the buttons that
    hand changes to the hook. Every change goes through `PromptStudio.HandleInputChange`. */
module PromptStudioView {
  import opened JsStrings
  import opened PromptTypes
  import opened FieldRules
  import opened PromptStudioHook
  import opened SceneFixtures

  /** `ps.promptData[fieldKey] || ''` */
  function DisplayedValue(data: StructuredPrompt, k: FieldKey): (r: string)
    ensures k in data ==> r == data[k]
    ensures k !in data ==> r == ""
  {
    if k in data && data[k] != "" then data[k] else ""
  }

  /** `activePreset && activePreset.data[k] === value`: an undefined preset value never
      equals the displayed string. */
  predicate IsOriginalFromPreset(active: Option<Preset>, data: StructuredPrompt, k: FieldKey) {
    active.Some? && k in active.value.data && active.value.data[k] == DisplayedValue(data, k)
  }

  /** `activePreset && activePreset.data[k] !== undefined && activePreset.data[k] !== value` */
  predicate IsModifiedFromPreset(active: Option<Preset>, data: StructuredPrompt, k: FieldKey) {
    active.Some? && k in active.value.data && active.value.data[k] != DisplayedValue(data, k)
  }

  datatype Provenance = Original | Modified | Plain

  /** The badge a field carries: the preset link, the overwritten mark with its revert
      button, or the plain edit/lock icon. */
  function ProvenanceOf(active: Option<Preset>, data: StructuredPrompt, k: FieldKey): (r: Provenance)
    ensures r == Original <==> IsOriginalFromPreset(active, data, k)
    ensures r == Modified <==> IsModifiedFromPreset(active, data, k)
    ensures r == Plain <==> active.None? || k !in active.value.data
  {
    if IsOriginalFromPreset(active, data, k) then Original
    else if IsModifiedFromPreset(active, data, k) then Modified
    else Plain
  }

  /** A field is never both original and modified, and with a preset defining the key it
      is always one of the two. */
  lemma ProvenanceExclusive(active: Option<Preset>, data: StructuredPrompt, k: FieldKey)
    ensures !(IsOriginalFromPreset(active, data, k) && IsModifiedFromPreset(active, data, k))
    ensures active.Some? && k in active.value.data ==>
      IsOriginalFromPreset(active, data, k) || IsModifiedFromPreset(active, data, k)
  {
  }

  /** `schema.isRequired && !value.trim()` */
  predicate IsMissing(e: FieldEntry, data: StructuredPrompt) {
    e.schema.isRequired && Trim(DisplayedValue(data, e.key)) == ""
  }

  /** The field's missing mark agrees with the hook's rule, so a field is marked exactly
      when its label is listed by `missingFields`. */
  lemma IsMissingAgrees(fields: seq<FieldEntry>, data: StructuredPrompt, i: nat)
    requires i < |fields|
    ensures IsMissing(fields[i], data) <==> IsMissingEntry(fields[i], data)
    ensures IsMissing(fields[i], data) ==> fields[i].schema.displayLabel in MissingFields(fields, data)
  {
    MissingFieldsMeaning(fields, data);
  }

  /** The filter step of `visibleFields`: only visible fields remain, in their order. */
  function FilterVisible(s: seq<FieldEntry>, mode: UserMode): (r: seq<FieldEntry>)
    ensures forall i :: 0 <= i < |r| ==> IsFieldVisible(mode, r[i].schema)
    ensures IsSubsequence(Keys(r), Keys(s))
  {
    if s == [] then []
    else
      var rest := FilterVisible(s[1..], mode);
      assert Keys(s) == [s[0].key] + Keys(s[1..]);
      if IsFieldVisible(mode, s[0].schema) then
        var r := [s[0]] + rest;
        assert Keys(r) == [s[0].key] + Keys(rest);
        r
      else
        SubsequenceDrop(Keys(rest), Keys(s));
        rest
  }

  /** A field survives the filter exactly when it is in the list and visible. */
  lemma {:induction false} FilterVisibleMembers(s: seq<FieldEntry>, mode: UserMode)
    ensures forall e :: e in FilterVisible(s, mode) <==> e in s && IsFieldVisible(mode, e.schema)
  {
    if s != [] {
      FilterVisibleMembers(s[1..], mode);
      assert s == [s[0]] + s[1..];
    }
  }

  /** Filtering a list sorted by priority leaves it sorted. */
  lemma {:induction false} FilterVisibleSorted(s: seq<FieldEntry>, mode: UserMode)
    requires SortedByPriority(s)
    ensures SortedByPriority(FilterVisible(s, mode))
  {
    if s != [] {
      FilterVisibleSorted(s[1..], mode);
      FilterVisibleMembers(s[1..], mode);
      var rest := FilterVisible(s[1..], mode);
      forall j | 0 <= j < |rest|
        ensures s[0].schema.priority <= rest[j].schema.priority
      {
        assert rest[j] in s[1..];
      }
    }
  }

  /** `visibleFields`: the fields in priority order, those the mode may see. The keys form an
      order-preserving subsequence of `fieldPriority`, the list is sorted by priority, and a
      field is in it exactly when it is declared and visible. */
  function VisibleFields(fields: seq<FieldEntry>, mode: UserMode): (r: seq<FieldEntry>)
    ensures IsSubsequence(Keys(r), FieldPriority(fields))
    ensures SortedByPriority(r)
    ensures forall e :: e in r <==> e in fields && IsFieldVisible(mode, e.schema)
  {
    var sorted := SortByPriority(fields);
    SortByPriorityCorrect(fields);
    assert forall e :: e in sorted <==> e in fields by {
      assert multiset(sorted) == multiset(fields);
      forall e ensures e in sorted <==> e in fields {
        assert e in sorted <==> e in multiset(sorted);
        assert e in fields <==> e in multiset(fields);
      }
    }
    FilterVisibleMembers(sorted, mode);
    FilterVisibleSorted(sorted, mode);
    FilterVisible(sorted, mode)
  }

  /** Text inputs are read-only exactly when the mode may not edit the field. */
  predicate ReadOnly(mode: UserMode, schema: FieldSchema) {
    !CanEditField(mode, schema)
  }

  /** Typing into a field's text input: a read-only input fires no change. */
  method TypeIntoField(ps: PromptStudio, e: FieldEntry, v: string)
    requires ps.Valid() && e in ps.Scene().fields
    modifies ps`promptData, ps`weights
    ensures ps.Valid()
    ensures !ReadOnly(old(ps.mode), e.schema) ==> ps.promptData == old(ps.promptData)[e.key := v]
    ensures !ReadOnly(old(ps.mode), e.schema) ==>
      var w := ChosenWeight(ps.Scene().fields, e.key, v);
      ps.weights == if w.Some? then old(ps.weights)[e.key := w.value] else old(ps.weights)
    ensures ReadOnly(old(ps.mode), e.schema) ==>
      ps.promptData == old(ps.promptData) && ps.weights == old(ps.weights)
  {
    if !ReadOnly(ps.mode, e.schema) {
      ps.HandleInputChange(e.key, v);
    }
  }

  /** Clicking an option chip: the value is set whatever the mode may edit. */
  method ChooseOption(ps: PromptStudio, e: FieldEntry, opt: FieldOption)
    requires ps.Valid() && e in ps.Scene().fields && opt in e.schema.options
    modifies ps`promptData, ps`weights
    ensures ps.Valid()
    ensures ps.promptData == old(ps.promptData)[e.key := opt.value]
    ensures var w := ChosenWeight(ps.Scene().fields, e.key, opt.value);
      ps.weights == if w.Some? then old(ps.weights)[e.key := w.value] else old(ps.weights)
  {
    ps.HandleInputChange(e.key, opt.value);
  }

  /** The revert button: `activePreset?.data[k] || ''` is written back. Afterwards the
      field is original-from-preset whenever the preset defines the key. */
  method RevertField(ps: PromptStudio, k: FieldKey)
    requires ps.Valid()
    modifies ps`promptData, ps`weights
    ensures ps.Valid()
    ensures ps.promptData == old(ps.promptData)[k := PresetValue(ps.activePreset, k)]
    ensures var w := ChosenWeight(ps.Scene().fields, k, PresetValue(ps.activePreset, k));
      ps.weights == if w.Some? then old(ps.weights)[k := w.value] else old(ps.weights)
    ensures ps.activePreset.Some? && k in ps.activePreset.value.data ==>
      IsOriginalFromPreset(ps.activePreset, ps.promptData, k)
  {
    var v := PresetValue(ps.activePreset, k);
    ps.HandleInputChange(k, v);
  }

  /** `activePreset?.data[k] || ''` */
  function PresetValue(active: Option<Preset>, k: FieldKey): (r: string)
    ensures active.Some? && k in active.value.data ==> r == active.value.data[k]
    ensures (active.None? || k !in active.value.data) ==> r == ""
  {
    if active.Some? && k in active.value.data && active.value.data[k] != "" then active.value.data[k]
    else ""
  }

  /** A mode button: the `app:mode-change` event reaches the hook's listener. */
  method ChooseMode(ps: PromptStudio, m: UserMode)
    requires ps.Valid()
    modifies ps`mode
    ensures ps.Valid()
    ensures ps.mode == m
  {
    ps.SetMode(m);
  }

  /** The portrait fields are declared in priority order, so sorting leaves them in place. */
  lemma PortraitAlreadySorted()
    ensures SortByPriority(PortraitFields) == PortraitFields
  {
    var tail := [CameraSettingsField];
    assert SortByPriority(tail) == tail;
    var t2 := [CameraField] + tail;
    assert t2[1..] == tail;
    assert SortByPriority(t2) == t2;
    var t3 := [LightingField] + t2;
    assert t3[1..] == t2;
    assert SortByPriority(t3) == t3;
    assert PortraitFields == [SubjectField] + t3;
    assert PortraitFields[1..] == t3;
  }

  /** On the portrait scene, priority order is subject, lighting, camera, settings. */
  lemma PortraitFieldPriority()
    ensures FieldPriority(PortraitFields) == [Subject, Lighting, Camera, CameraSettings]
  {
    PortraitAlreadySorted();
    FieldPriorityOfSorted(PortraitFields);
    PortraitKeys();
  }

  lemma PortraitKeys()
    ensures Keys(PortraitFields) == [Subject, Lighting, Camera, CameraSettings]
  {
    var ks := Keys(PortraitFields);
    assert |ks| == 4 && ks[0] == Subject && ks[1] == Lighting && ks[2] == Camera && ks[3] == CameraSettings;
  }

  /** The visibility filter over the portrait fields, mode by mode. */
  lemma PortraitFilter()
    ensures FilterVisible(PortraitFields, Beginner) == [SubjectField, LightingField]
    ensures FilterVisible(PortraitFields, Advanced) == PortraitFields
  {
    var t1 := [CameraSettingsField];
    assert FilterVisible(t1, Beginner) == [];
    assert FilterVisible(t1, Advanced) == t1;
    var t2 := [CameraField] + t1;
    assert t2[1..] == t1;
    assert FilterVisible(t2, Beginner) == [];
    assert FilterVisible(t2, Advanced) == t2;
    var t3 := [LightingField] + t2;
    assert t3[1..] == t2;
    assert FilterVisible(t3, Beginner) == [LightingField];
    assert FilterVisible(t3, Advanced) == t3;
    assert PortraitFields[1..] == t3;
  }

  /** A beginner sees subject and lighting only; an advanced user sees all four portrait
      fields. */
  lemma PortraitVisibleFields()
    ensures VisibleFields(PortraitFields, Beginner) == [SubjectField, LightingField]
    ensures VisibleFields(PortraitFields, Advanced) == PortraitFields
  {
    PortraitAlreadySorted();
    PortraitFilter();
  }

  /** Only an expert may edit the portrait camera, though an advanced user sees it. */
  lemma PortraitCameraLocked()
    ensures IsFieldVisible(Advanced, CameraField.schema)
    ensures !CanEditField(Advanced, CameraField.schema) && CanEditField(Expert, CameraField.schema)
  {
  }
}
