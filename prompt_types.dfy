/** The data model of the prompt studio: the structured prompt, field schemas, scenes and
    presets, as declared in `types.ts`. A `Partial<StructuredPrompt>` is a map from field key
    to text; a key that is absent is `undefined`. */
module PromptTypes {

  datatype Option<T> = None | Some(value: T)

  /** The twelve keys of `StructuredPrompt`. */
  datatype FieldKey =
    | Subject | Environment | Composition | Camera | CameraSettings | Lighting
    | Color | Medium | Style | Genre | Mood | Quality

  datatype UserMode = Beginner | Advanced | Expert

  datatype SceneId =
    | Portrait | Nature | Miniature | Emotional | Fresh | Vintage
    | Artistic | Commercial | StillLife | Space | Future | Narrative

  datatype FieldValueType = TextValue | EnumValue | RangeValue | MultiValue

  datatype DisplayType = Tags | Grid | Dropdown | TextDisplay

  /** A selectable option of a field; `defaultWeight` is the weight choosing it implies. */
  datatype FieldOption = FieldOption(
    displayLabel: string,
    value: string,
    description: Option<string>,
    defaultWeight: Option<int>)

  /** The schema of one field in one scene. An absent `isRequired` or `isRecommended` is
      false, and absent `options` are the empty list: the code treats them the same. */
  datatype FieldSchema = FieldSchema(
    displayLabel: string,
    valueType: FieldValueType,
    displayType: Option<DisplayType>,
    isRequired: bool,
    isRecommended: bool,
    minVisibility: UserMode,
    minEditable: UserMode,
    editableWeightInExpert: bool,
    options: seq<FieldOption>,
    priority: int,
    placeholder: Option<string>)

  /** `Partial<StructuredPrompt>` */
  type StructuredPrompt = map<FieldKey, string>

  /** `PromptWeights`: a percentage per field. */
  type PromptWeights = map<FieldKey, int>

  datatype Preset = Preset(
    id: string,
    title: string,
    sceneId: SceneId,
    data: StructuredPrompt,
    author: string)

  /** One entry of `Object.entries(scene.fields)`. */
  datatype FieldEntry = FieldEntry(key: FieldKey, schema: FieldSchema)

  /** A scene; `fields` lists the schema entries in declaration order. Several scene files
      omit `defaults`, hence the option. */
  datatype SceneDefinition = SceneDefinition(
    id: SceneId,
    name: string,
    nameEn: string,
    description: string,
    icon: string,
    isAvailable: Option<bool>,
    fields: seq<FieldEntry>,
    defaults: Option<StructuredPrompt>)

  /** JavaScript truthiness of `data[k]`: defined and not the empty string. */
  predicate Truthy(data: StructuredPrompt, k: FieldKey) {
    k in data && data[k] != ""
  }

  /** The keys of a list of entries, in order. */
  function Keys(fields: seq<FieldEntry>): (r: seq<FieldKey>)
    ensures |r| == |fields|
    ensures forall i :: 0 <= i < |fields| ==> r[i] == fields[i].key
  {
    if fields == [] then [] else [fields[0].key] + Keys(fields[1..])
  }

  /** An object has each key at most once. */
  predicate DistinctKeys(fields: seq<FieldEntry>) {
    forall i, j :: 0 <= i < j < |fields| ==> fields[i].key != fields[j].key
  }

  /** `scene.fields[k]`: the schema declared for `k`, if any. */
  function LookupSchema(fields: seq<FieldEntry>, k: FieldKey): (r: Option<FieldSchema>)
    ensures r.Some? <==> exists i :: 0 <= i < |fields| && fields[i].key == k
    ensures r.Some? ==> exists i :: 0 <= i < |fields| && fields[i] == FieldEntry(k, r.value)
  {
    if fields == [] then None
    else if fields[0].key == k then Some(fields[0].schema)
    else
      var r := LookupSchema(fields[1..], k);
      assert forall i :: 0 <= i < |fields| - 1 ==> fields[1..][i] == fields[i + 1];
      r
  }

  /** `a` is `b` with some elements left out and the rest in the same order. */
  predicate IsSubsequence<T(==)>(a: seq<T>, b: seq<T>)
    decreases |b|
  {
    if a == [] then true
    else if b == [] then false
    else if a[0] == b[0] then IsSubsequence(a[1..], b[1..])
    else IsSubsequence(a, b[1..])
  }

  /** Prepending an element to the longer sequence keeps a subsequence. */
  lemma {:induction false} SubsequenceDrop<T>(a: seq<T>, b: seq<T>)
    requires |b| > 0 && IsSubsequence(a, b[1..])
    ensures IsSubsequence(a, b)
    decreases |b|, 0
  {
    if a != [] && a[0] == b[0] {
      SubsequenceTail(a, b[1..]);
    }
  }

  /** Dropping the first element of a subsequence keeps a subsequence. */
  lemma {:induction false} SubsequenceTail<T>(a: seq<T>, b: seq<T>)
    requires a != [] && IsSubsequence(a, b)
    ensures IsSubsequence(a[1..], b)
    decreases |b|, 1
  {
    if a[0] == b[0] {
      SubsequenceDrop(a[1..], b);
    } else {
      SubsequenceTail(a, b[1..]);
      SubsequenceDrop(a[1..], b);
    }
  }
}
