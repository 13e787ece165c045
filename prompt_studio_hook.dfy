/** The state of `usePromptStudio` (`hooks/usePromptStudio.ts`): one field per `useState`
    slot, one method per handler or effect. The scene registry and the official presets are
    constant inputs. Handlers reached through window events (mode change, preset reuse) are
    direct method calls here. */
module PromptStudioHook {
  import opened JsStrings
  import opened PromptTypes
  import opened FieldRules

  /** `weights` as the weight-initialisation effect leaves them: 100 for every declared field
      and nothing else. */
  ghost predicate IsInitialWeights(w: PromptWeights, fields: seq<FieldEntry>) {
    forall k :: (k in w <==> k in Keys(fields)) && (k in w ==> w[k] == 100)
  }

  /** The keys and values `MergedData` promises for `defaults` and `data`. */
  ghost predicate IsMergeOf(m: StructuredPrompt, defaults: StructuredPrompt, data: StructuredPrompt) {
    && (forall k :: k in m <==> k in defaults || (k in data && !Blank(data[k])))
    && (forall k :: k in data && !Blank(data[k]) ==> m[k] == data[k])
    && (forall k :: k in defaults && !(k in data && !Blank(data[k])) ==> m[k] == defaults[k])
  }

  lemma MergeOfUnique(defaults: StructuredPrompt, data: StructuredPrompt, m: StructuredPrompt,
                      r: StructuredPrompt)
    requires IsMergeOf(m, defaults, data) && IsMergeOf(r, defaults, data)
    ensures m == r
  {
    assert m.Keys == r.Keys;
    forall k | k in m
      ensures m[k] == r[k]
    {
      if k in data && !Blank(data[k]) {
        assert m[k] == data[k] == r[k];
      } else {
        assert m[k] == defaults[k] == r[k];
      }
    }
  }

  /** Any map with `MergedData`'s keys and values is `MergedData`. */
  lemma MergedDataUnique(defaults: StructuredPrompt, data: StructuredPrompt, m: StructuredPrompt)
    requires forall k :: k in m <==> k in defaults || (k in data && !Blank(data[k]))
    requires forall k :: k in data && !Blank(data[k]) ==> m[k] == data[k]
    requires forall k :: k in defaults && !(k in data && !Blank(data[k])) ==> m[k] == defaults[k]
    ensures m == MergedData(defaults, data)
  {
    var r := MergedData(defaults, data);
    assert IsMergeOf(r, defaults, data);
    MergeOfUnique(defaults, data, m, r);
  }

  class PromptStudio {
    /** `SCENE_DEFINITIONS` */
    const scenes: map<SceneId, SceneDefinition>
    /** `OFFICIAL_SCENE_PRESETS` */
    const officialPresets: map<SceneId, Preset>

    var activeSceneId: SceneId
    var mode: UserMode
    var promptData: StructuredPrompt
    var weights: PromptWeights
    var isOptimizing: bool
    var optimizedData: StructuredPrompt
    var activePreset: Option<Preset>
    var history: seq<HistoryItem>

    /** The registry has the fallback scene and every scene lists each field once; weights
        cover exactly the active scene's fields and are all truthy; history is capped. */
    ghost predicate Valid()
      reads this
    {
      && Portrait in scenes
      && (forall id :: id in scenes ==> DistinctKeys(scenes[id].fields))
      && (forall k :: k in weights <==> k in Keys(Scene().fields))
      && (forall k :: k in weights ==> weights[k] != 0)
      && |history| <= HistoryCap
    }

    /** `scene`: the active scene, or the portrait scene when the id is not registered. */
    function Scene(): SceneDefinition
      reads this
      requires Portrait in scenes
    {
      if activeSceneId in scenes then scenes[activeSceneId] else scenes[Portrait]
    }

    /** `sceneDefaults`: the official preset's data for the active scene, else empty. */
    function SceneDefaults(): StructuredPrompt
      reads this
    {
      if activeSceneId in officialPresets then officialPresets[activeSceneId].data else map[]
    }

    /** The hook's initial state, after the weight-initialisation effect has run on mount. */
    constructor (scenes: map<SceneId, SceneDefinition>, officialPresets: map<SceneId, Preset>)
      requires Portrait in scenes
      requires forall id :: id in scenes ==> DistinctKeys(scenes[id].fields)
      ensures Valid()
      ensures this.scenes == scenes && this.officialPresets == officialPresets
      ensures activeSceneId == Portrait && mode == Beginner
      ensures promptData == map[] && optimizedData == map[] && activePreset == None
      ensures history == [] && !isOptimizing
      ensures IsInitialWeights(weights, Scene().fields)
    {
      this.scenes := scenes;
      this.officialPresets := officialPresets;
      activeSceneId := Portrait;
      mode := Beginner;
      promptData := map[];
      weights := map[];
      isOptimizing := false;
      optimizedData := map[];
      activePreset := None;
      history := [];
      new;
      ResetWeights();
    }

    /** The weight-initialisation effect: every field of the scene gets weight 100. */
    method ResetWeights()
      requires Portrait in scenes
      modifies this`weights
      ensures IsInitialWeights(weights, Scene().fields)
    {
      var fields := Scene().fields;
      var w: PromptWeights := map[];
      var i := 0;
      while i < |fields|
        invariant 0 <= i <= |fields|
        invariant forall k :: k in w <==> exists j :: 0 <= j < i && fields[j].key == k
        invariant forall k :: k in w ==> w[k] == 100
      {
        w := w[fields[i].key := 100];
        i := i + 1;
      }
      weights := w;
      forall k | k in Keys(fields)
        ensures k in w
      {
        var j :| 0 <= j < |fields| && Keys(fields)[j] == k;
      }
    }

    /** `setActiveSceneId`: only the weights follow a scene change; prompt data, preset,
        optimized data and mode are kept. Setting the current scene again changes nothing. */
    method SetActiveSceneId(id: SceneId)
      requires Valid()
      modifies this`activeSceneId, this`weights
      ensures Valid()
      ensures activeSceneId == id
      ensures id == old(activeSceneId) ==> weights == old(weights)
      ensures id != old(activeSceneId) ==> IsInitialWeights(weights, Scene().fields)
    {
      var previous := activeSceneId;
      activeSceneId := id;
      if id != previous {
        ResetWeights();
      }
    }

    /** The `app:mode-change` listener. */
    method SetMode(m: UserMode)
      requires Valid()
      modifies this`mode
      ensures Valid()
      ensures mode == m
    {
      if m != mode {
        mode := m;
      }
    }

    /** `handleInputChange(k, v)`: the value is stored as given; the weight of `k` is
        overwritten only when the first option of `k` with value `v` has a truthy default
        weight. */
    method HandleInputChange(k: FieldKey, v: string)
      requires Valid()
      modifies this`promptData, this`weights
      ensures Valid()
      ensures promptData == old(promptData)[k := v]
      ensures ChosenWeight(Scene().fields, k, v).Some? ==>
        weights == old(weights)[k := ChosenWeight(Scene().fields, k, v).value]
      ensures ChosenWeight(Scene().fields, k, v).None? ==> weights == old(weights)
    {
      var fields := Scene().fields;
      var w := ChosenWeight(fields, k, v);
      var next := if w.Some? then weights[k := w.value] else weights;
      assert w.Some? ==> k in Keys(fields) && w.value != 0;
      assert forall k' :: k' in next <==> k' in Keys(fields);
      assert forall k' :: k' in next ==> next[k'] != 0;
      promptData, weights := promptData[k := v], next;
      assert Scene().fields == fields;
    }

    /** `getMergedData`: the defaults, overridden key by key by every user value whose trim
        is non-empty. */
    method GetMergedData() returns (merged: StructuredPrompt)
      ensures merged == MergedData(SceneDefaults(), promptData)
    {
      var defaults := SceneDefaults();
      merged := defaults;
      var keys := promptData.Keys;
      while keys != {}
        invariant keys <= promptData.Keys
        invariant forall k :: k in merged <==>
          k in defaults || (k in promptData && k !in keys && !Blank(promptData[k]))
        invariant forall k :: k in promptData && k !in keys && !Blank(promptData[k]) ==>
          merged[k] == promptData[k]
        invariant forall k :: k in defaults && !(k in promptData && k !in keys && !Blank(promptData[k])) ==>
          merged[k] == defaults[k]
        decreases keys
      {
        var k :| k in keys;
        TrimEmptyIffBlank(promptData[k]);
        if Trim(promptData[k]) != "" {
          merged := merged[k := promptData[k]];
        }
        keys := keys - {k};
      }
      MergedDataUnique(defaults, promptData, merged);
    }

    /** `handleOptimize`, with the answer of the optimizer as a parameter (it never throws:
        failures come back as an empty record). Nothing changes while required fields are
        missing; otherwise the merged data is sent and the answer becomes `optimizedData`. */
    method HandleOptimize(answer: StructuredPrompt) returns (request: Option<StructuredPrompt>)
      requires Valid()
      modifies this`optimizedData, this`isOptimizing
      ensures Valid()
      ensures !IsValid(Scene().fields, promptData) ==>
        request == None && optimizedData == old(optimizedData) && isOptimizing == old(isOptimizing)
      ensures IsValid(Scene().fields, promptData) ==>
        && request == Some(MergedData(SceneDefaults(), promptData))
        && optimizedData == answer && !isOptimizing
    {
      if !IsValid(Scene().fields, promptData) {
        return None;
      }
      var merged := GetMergedData();
      isOptimizing := true;
      optimizedData := answer;
      isOptimizing := false;
      request := Some(merged);
    }

    /** `handleReset`: clears the user data, the optimized data and the active preset; the
        frame keeps scene, mode, weights and history. */
    method HandleReset()
      requires Valid()
      modifies this`promptData, this`optimizedData, this`activePreset
      ensures Valid()
      ensures promptData == map[] && optimizedData == map[] && activePreset == None
    {
      promptData := map[];
      optimizedData := map[];
      activePreset := None;
    }

    /** `handleRenderSuccess(url)`; the random id and the clock are parameters. The new item
        records the optimized data when there is any, else the user data. */
    method HandleRenderSuccess(url: string, id: string, timestamp: int)
      requires Valid()
      modifies this`history
      ensures Valid()
      ensures history == PushHistory(
        HistoryItem(id, url, PreferOptimized(optimizedData, promptData), timestamp), old(history))
    {
      var activeData := PreferOptimized(optimizedData, promptData);
      var item := HistoryItem(id, url, activeData, timestamp);
      history := PushHistory(item, history);
    }

    /** `handleRestoreFromHistory(item)` */
    method HandleRestoreFromHistory(item: HistoryItem)
      requires Valid()
      modifies this`promptData, this`optimizedData, this`activePreset
      ensures Valid()
      ensures promptData == item.data && optimizedData == map[] && activePreset == None
    {
      promptData := item.data;
      optimizedData := map[];
      activePreset := None;
    }

    /** The history panel's clear button: `setHistory([])`. */
    method ClearHistory()
      requires Valid()
      modifies this`history
      ensures Valid()
      ensures history == []
    {
      history := [];
    }

    /** The `app:reuse-preset` listener: switch to the preset's scene, then load its data,
        make it the active preset, drop optimized data and force advanced mode. */
    method ApplyPreset(preset: Preset)
      requires Valid()
      modifies this`activeSceneId, this`weights, this`promptData, this`activePreset
      modifies this`optimizedData, this`mode
      ensures Valid()
      ensures activeSceneId == preset.sceneId && promptData == preset.data
      ensures activePreset == Some(preset) && optimizedData == map[] && mode == Advanced
      ensures preset.sceneId == old(activeSceneId) ==> weights == old(weights)
      ensures preset.sceneId != old(activeSceneId) ==> IsInitialWeights(weights, Scene().fields)
      ensures forall e :: e in Scene().fields && e.schema.minVisibility != Expert ==>
        IsFieldVisible(mode, e.schema)
    {
      SetActiveSceneId(preset.sceneId);
      promptData := preset.data;
      activePreset := Some(preset);
      optimizedData := map[];
      mode := Advanced;
    }
  }
}
