# PromptStudio field-rule engine in Dafny

This project models the prompt-composition core of PromptStudio, a web studio for building
image prompts from structured fields. It covers:

- the field rules of the `usePromptStudio` hook: mode ranks, visibility and editability,
  priority order, required fields, option weights, the merge of scene defaults with user
  values, and the capped render history;
- the two prompt compilers of the output panel: the protocol renderer and the merged ordered
  text that is copied and sent to rendering;
- the per-field view logic of the studio page: displayed value, provenance against the active
  preset, the missing mark, read-only inputs and the visible-field list;
- the debug console's twenty-entry log buffer;
- the onboarding tour;
- the highlight collections and how their presets resolve;
- the virtual-photography page, with its sessions, shots and shoot action.

Pure logic is written as datatypes, functions and lemmas. Each component or hook whose state
changes in place is a `class` with one field per `useState` slot and one method per handler.
Its methods state the new state and keep the class invariant `Valid()`.

Modules, one per source file, plus shared types and string helpers:

| module | models |
|---|---|
| `JsStrings` | `trim`, `join`, `toFixed(1)` of a weight percentage |
| `PromptTypes` | `types.ts`: prompts, fields, schemas, presets, scenes |
| `FieldRules` | the pure rules of `hooks/usePromptStudio.ts` |
| `PromptStudioHook` | the hook's state and handlers (`class PromptStudio`) |
| `PromptOutputPanel` | `components/PromptOutputPanel.tsx` |
| `SceneFixtures` | the portrait scene of `data/scenes/portrait.ts` |
| `PromptStudioView` | `components/PromptStudio.tsx` |
| `DebugConsole` | `components/DebugConsole.tsx` |
| `Onboarding` | `hooks/useOnboarding.ts` |
| `Highlights` | `data/highlights.ts` and `data/highlight_presets.ts` |
| `VirtualPhotography` | `pages/VirtualPhotography.tsx` |

A prompt is a `map<FieldKey, string>`, and an absent key stands for `undefined`. JavaScript
truthiness of a field value means "present and not the empty string". `Object.entries` over a
scene's fields is a sequence of entries in declaration order. The stable
`Array.prototype.sort` by priority is an insertion sort.

Two behaviours of the code worth stating:
- Changing the scene keeps the prompt data, the active preset and the optimized data. Only
  the weights are reinitialised.
- The defaults merged into a prompt are the official preset's data for the scene
  (`OFFICIAL_SCENE_PRESETS`), not the scene's own `defaults`.

## Model

| member | source | states |
|---|---|---|
| JsStrings.TrimStart | hooks/usePromptStudio.ts:99 | the result is a suffix starting with a non-space, and only white space was removed |
| JsStrings.TrimEnd | hooks/usePromptStudio.ts:99 | the result is a prefix ending with a non-space, and only white space was removed |
| JsStrings.Trim | hooks/usePromptStudio.ts:99 | the trimmed text is empty or starts and ends with a non-space |
| JsStrings.TrimIsSlice | hooks/usePromptStudio.ts:39 | `trim()` is the contiguous slice of the input that begins after the leading white space and is followed only by white space |
| JsStrings.TrimEmptyIffBlank | hooks/usePromptStudio.ts:39 | `value.trim()` is empty exactly when every character is ECMAScript white space |
| JsStrings.Join | components/PromptOutputPanel.tsx:132-138 | `join` of no parts is empty; otherwise it begins with the first part and is as long as all parts plus one separator between each pair of neighbours |
| JsStrings.JoinAppend | components/PromptOutputPanel.tsx:132-138 | joining one more part appends one separator and that part, so the parts appear in order with a separator between neighbours |
| JsStrings.JoinEmptyIff | components/PromptOutputPanel.tsx:132-138 | joining non-empty parts is empty only for no parts, and one part joins to itself |
| JsStrings.DigitChar | components/PromptOutputPanel.tsx:71-73 | a digit below ten is written as the character with that digit value |
| JsStrings.NatToString | components/PromptOutputPanel.tsx:71-73 | decimal notation has at least one digit, only digits, and no leading zero |
| JsStrings.NatToStringRoundTrip | components/PromptOutputPanel.tsx:71-73 | reading the decimal text back gives the number |
| JsStrings.TenthsText | components/PromptOutputPanel.tsx:72 | a count of tenths is written as digits, a point and one decimal digit |
| JsStrings.WeightText | components/PromptOutputPanel.tsx:71-73 | `toFixed(1)` text: digits, a point and exactly one decimal digit, with a leading minus only for a negative weight |
| JsStrings.WeightTextExact | components/PromptOutputPanel.tsx:71-73 | for a weight that is a multiple of ten, `(w/100).toFixed(1)` has one decimal digit and denotes exactly w/100 |
| JsStrings.WeightText150 | components/PromptOutputPanel.tsx:71-73 | weight 150 is written "1.5" |
| PromptTypes.Keys | types.ts:71-80 | the keys of the entries, position by position |
| PromptTypes.LookupSchema | types.ts:57-69 | `scene.fields[k]` is defined exactly when some entry has key k, and it is that entry's schema |
| PromptTypes.SubsequenceDrop | components/PromptStudio.tsx:150-152 | a subsequence of a tail is a subsequence of the whole |
| PromptTypes.SubsequenceTail | components/PromptStudio.tsx:150-152 | dropping the head of a subsequence keeps a subsequence |
| FieldRules.IsFieldVisible | hooks/usePromptStudio.ts:151 | visible exactly when the mode reaches `minVisibility` in beginner < advanced < expert |
| FieldRules.CanEditField | hooks/usePromptStudio.ts:152 | editable exactly when the mode reaches `minEditable` |
| FieldRules.ModeMonotone | hooks/usePromptStudio.ts:9-13 | a higher mode never hides or locks a field, and expert sees and edits everything |
| FieldRules.InsertByPriority | hooks/usePromptStudio.ts:30-34 | inserting adds exactly one occurrence of the entry |
| FieldRules.InsertKeepsSorted | hooks/usePromptStudio.ts:30-34 | inserting into a priority-sorted list keeps it sorted |
| FieldRules.InsertWithPriority | hooks/usePromptStudio.ts:30-34 | the inserted entry goes in front of the entries of equal priority |
| FieldRules.KeysConcat | hooks/usePromptStudio.ts:30-34 | the keys of a concatenation are the concatenated keys |
| FieldRules.KeysCons | hooks/usePromptStudio.ts:30-34 | the keys of a consed list are the head's key followed by the tail's keys |
| FieldRules.InsertKeys | hooks/usePromptStudio.ts:30-34 | inserting adds exactly the entry's key to the multiset of keys |
| FieldRules.SortByPriority | hooks/usePromptStudio.ts:30-34 | the sorted fields are ordered by non-decreasing priority and are a permutation of the declared fields |
| FieldRules.SortPermutesKeys | hooks/usePromptStudio.ts:30-34 | the sorted keys are a permutation of the declared keys |
| FieldRules.SortStable | hooks/usePromptStudio.ts:30-34 | entries of equal priority keep their declaration order |
| FieldRules.SortByPriorityCorrect | hooks/usePromptStudio.ts:30-34 | the sort is sorted, a permutation, and stable |
| FieldRules.FieldPriority | hooks/usePromptStudio.ts:30-34 | `fieldPriority` has one key per declared field and is a permutation of the declared keys |
| FieldRules.FieldPriorityOfSorted | hooks/usePromptStudio.ts:30-34 | fields declared in priority order keep their declaration order in `fieldPriority` |
| FieldRules.FieldPriorityOrder | hooks/usePromptStudio.ts:30-34 | `fieldPriority` is the declared keys, permuted into priority order, with ties in declaration order |
| FieldRules.MissingFields | hooks/usePromptStudio.ts:37-41 | one label per required field whose value is absent or trims to empty, in declaration order: the label of missing field i stands at the position given by the number of missing fields declared before it |
| FieldRules.CountMissing | hooks/usePromptStudio.ts:37-41 | the number of missing fields is at most the number of fields |
| FieldRules.CountMissingZero | hooks/usePromptStudio.ts:37-43 | no field is missing exactly when the number of missing fields is 0 |
| FieldRules.IsValid | hooks/usePromptStudio.ts:43 | `isValid` holds exactly when no required field is missing |
| FieldRules.MissingFieldsMeaning | hooks/usePromptStudio.ts:37-43 | a required field is missing exactly when its value is absent or all white space; each missing field's label is listed; `isValid` holds exactly when none is missing |
| FieldRules.FindOption | hooks/usePromptStudio.ts:92 | `find` returns the first option with the value, and nothing when no option has it |
| FieldRules.ChosenWeight | hooks/usePromptStudio.ts:90-94 | a written weight is non-zero, belongs to a declared field and is the default weight of the first option with the value; a truthy default weight of that option is always written; a value no option carries writes no weight |
| FieldRules.MergedData | hooks/usePromptStudio.ts:96-104 | a key is merged exactly when it has a default or a non-blank user value; the user value wins over the default |
| FieldRules.TrimEmptyIffBlankAll | hooks/usePromptStudio.ts:99 | every string trims to empty exactly when it is blank |
| FieldRules.PreferOptimized | hooks/usePromptStudio.ts:132 | the optimized data when there is any, else the user data |
| FieldRules.PushHistory | hooks/usePromptStudio.ts:139 | the new item comes first, then the previous items, with at most ten kept |
| FieldRules.Reverse | hooks/usePromptStudio.ts:139 | the reversed list, position by position |
| FieldRules.HistoryKeepsNewest | hooks/usePromptStudio.ts:131-140 | after any number of renders the history is the ten most recent, newest first |
| PromptStudioHook.MergedDataUnique | hooks/usePromptStudio.ts:96-104 | any map with the merge's keys, user values and default values equals `MergedData` |
| PromptStudioHook.PromptStudio.constructor | hooks/usePromptStudio.ts:15-24 | the initial state: portrait scene, beginner mode, empty data, no preset, empty history, weight 100 for every portrait field |
| PromptStudioHook.PromptStudio.ResetWeights | hooks/usePromptStudio.ts:82-88 | the weights become 100 for each declared field of the scene and nothing else |
| PromptStudioHook.PromptStudio.SetActiveSceneId | hooks/usePromptStudio.ts:82-88 | only the scene id and, when it changes, the weights change |
| PromptStudioHook.PromptStudio.SetMode | hooks/usePromptStudio.ts:46-53 | a mode-change event sets the mode |
| PromptStudioHook.PromptStudio.HandleInputChange | hooks/usePromptStudio.ts:90-94 | the value is stored as given; the weight of the key becomes the first matching option's truthy default weight when there is one, and the weights are otherwise unchanged |
| PromptStudioHook.PromptStudio.GetMergedData | hooks/usePromptStudio.ts:96-104 | the loop computes exactly `MergedData` of the scene defaults and the user data |
| PromptStudioHook.PromptStudio.HandleOptimize | hooks/usePromptStudio.ts:106-123 | nothing happens while required fields are missing; otherwise the merged data is sent and the answer becomes the optimized data |
| PromptStudioHook.PromptStudio.HandleReset | hooks/usePromptStudio.ts:125-129 | user data, optimized data and active preset are cleared |
| PromptStudioHook.PromptStudio.HandleRenderSuccess | hooks/usePromptStudio.ts:131-140 | the history gains an item with the render's data in front, capped at ten |
| PromptStudioHook.PromptStudio.HandleRestoreFromHistory | hooks/usePromptStudio.ts:142-149 | the item's data is loaded and the optimized data and preset are dropped |
| PromptStudioHook.PromptStudio.ClearHistory | components/PromptStudio.tsx:309 | the history is emptied |
| PromptStudioHook.PromptStudio.ApplyPreset | hooks/usePromptStudio.ts:56-79 | reusing a preset switches to its scene, loads its data, makes it active, drops optimized data, and forces advanced mode, so every non-expert field is visible |
| PromptOutputPanel.EntryKeys | components/PromptOutputPanel.tsx:48-61 | the keys of the rendered entries, position by position |
| PromptOutputPanel.EntryValues | components/PromptOutputPanel.tsx:48-61 | the values of the rendered entries, position by position |
| PromptOutputPanel.RenderEntries | components/PromptOutputPanel.tsx:48-61 | entries follow `fieldOrder`, exist exactly for keys with a truthy value or default, carry the user value when truthy and the default otherwise, and are ghost exactly when they carry the default |
| PromptOutputPanel.DisplayVal | components/PromptOutputPanel.tsx:70-73 | only expert mode with a defined weight other than 0 and 100 annotates; the annotated text is `(`, the value, `:`, the `toFixed(1)` text of the weight, `)`; otherwise the bare value |
| PromptOutputPanel.DisplayValExamples | components/PromptOutputPanel.tsx:70-73 | an expert weight of 150 gives `(cat:1.5)`; advanced mode and weight 100 give `cat` |
| PromptOutputPanel.RenderLines | components/PromptOutputPanel.tsx:67-80 | each entry shows its display value, followed by a comma unless it is the last |
| PromptOutputPanel.EntryTexts | components/PromptOutputPanel.tsx:67-80 | the display value of each entry, position by position |
| PromptOutputPanel.RenderLinesJoin | components/PromptOutputPanel.tsx:67-80 | the rendered lines read as the display values joined by commas |
| PromptOutputPanel.ProtocolRenderer | components/PromptOutputPanel.tsx:47-96 | renders nothing exactly when no key in the order has a truthy value or default; otherwise the lines are the display lines of the rendered entries, one per entry |
| PromptOutputPanel.RenderNothingOnEmpty | components/PromptOutputPanel.tsx:63 | empty data over empty defaults renders nothing |
| PromptOutputPanel.EnhancedViewIsPlain | components/PromptOutputPanel.tsx:326-332 | the enhanced view has no ghost entries and no weight annotations |
| PromptOutputPanel.PresentValues | components/PromptOutputPanel.tsx:132-138 | the truthy values along the order, which are exactly the values of the entries rendered with no defaults; empty exactly when none is truthy |
| PromptOutputPanel.GetMergedOrderedText | components/PromptOutputPanel.tsx:132-138 | the values of `{...defaults, ...data}` at the keys of the order whose merged value is truthy, in that order, joined with ", "; empty exactly when none is truthy |
| PromptOutputPanel.MergedTextMatchesRenderer | components/PromptOutputPanel.tsx:47-61 | without explicit empty strings, the copied text lists exactly the values the renderer shows, in order |
| PromptOutputPanel.ClearedFieldHidesDefault | components/PromptOutputPanel.tsx:132-138 | for any key whose user value is `''`, the copied text leaves the key out, the renderer shows its truthy default as a ghost entry, and `getMergedData` keeps the default |
| PromptOutputPanel.GhostEntryOfDefault | components/PromptOutputPanel.tsx:48-61 | a key in the order with a falsy user value and a truthy default is rendered as a ghost entry carrying the default |
| PromptOutputPanel.BlankFieldDiffersFromMerge | components/PromptOutputPanel.tsx:132-138 | a white-space value is kept by both compilers but replaced by the default in `getMergedData` |
| PromptOutputPanel.CopySource | components/PromptOutputPanel.tsx:140-145 | copy uses the optimized data only in the enhanced view |
| PromptOutputPanel.CopyAndRenderSources | components/PromptOutputPanel.tsx:140-162 | copy and render agree in the enhanced view; elsewhere, with optimized data, copy takes the user data while render takes the optimized data |
| PromptOutputPanel.OutputPanel.constructor | components/PromptOutputPanel.tsx:119-123 | base view, not copied, not rendering, no image, simulation on |
| PromptOutputPanel.OutputPanel.OnOptimizedDataChange | components/PromptOutputPanel.tsx:126-130 | non-empty optimized data switches to the enhanced view |
| PromptOutputPanel.OutputPanel.SetViewMode | components/PromptOutputPanel.tsx:171 | a tab click sets the view |
| PromptOutputPanel.OutputPanel.ToggleSimulation | components/PromptOutputPanel.tsx:199 | the simulation switch flips |
| PromptOutputPanel.OutputPanel.HandleCopy | components/PromptOutputPanel.tsx:140-145 | the copied text is the merged ordered text of the copy source, and the copy is marked |
| PromptOutputPanel.OutputPanel.CopyTimeout | components/PromptOutputPanel.tsx:144 | the copy mark is cleared |
| PromptOutputPanel.OutputPanel.HandleRender | components/PromptOutputPanel.tsx:147-162 | the prompt sent is the merged ordered text of the render data; the view becomes visual; the image changes only on success; rendering ends either way |
| PromptStudioView.DisplayedValue | components/PromptStudio.tsx:31 | the stored value, or the empty string when there is none |
| PromptStudioView.ProvenanceOf | components/PromptStudio.tsx:37-43 | original exactly when the preset's value equals the displayed one, modified exactly when it is defined and differs, plain otherwise |
| PromptStudioView.ProvenanceExclusive | components/PromptStudio.tsx:37-38 | never both original and modified, and always one of them when the preset defines the key |
| PromptStudioView.IsMissingAgrees | components/PromptStudio.tsx:35 | the field's missing mark agrees with the hook's `missingFields` |
| PromptStudioView.FilterVisible | components/PromptStudio.tsx:152 | only visible fields remain, in their order |
| PromptStudioView.FilterVisibleMembers | components/PromptStudio.tsx:152 | a field survives the filter exactly when it is listed and visible |
| PromptStudioView.FilterVisibleSorted | components/PromptStudio.tsx:150-152 | filtering keeps a priority-sorted list sorted |
| PromptStudioView.VisibleFields | components/PromptStudio.tsx:150-152 | the visible fields follow `fieldPriority`, are sorted, and are exactly the declared visible ones |
| PromptStudioView.TypeIntoField | components/PromptStudio.tsx:68-78 | a read-only input changes nothing; an editable one stores the typed value and updates the weight as `handleInputChange` does |
| PromptStudioView.ChooseOption | components/PromptStudio.tsx:119-133 | an option chip stores its value whatever the edit rank, and writes the option's truthy default weight |
| PromptStudioView.RevertField | components/PromptStudio.tsx:95 | revert writes back the preset's value with the weight update of `handleInputChange`, after which the field is original-from-preset |
| PromptStudioView.PresetValue | components/PromptStudio.tsx:95 | the preset's value for the key, or the empty string |
| PromptStudioView.ChooseMode | components/PromptStudio.tsx:235-240 | a mode button sets the hook's mode |
| PromptStudioView.PortraitAlreadySorted | data/scenes/portrait.ts:21-84 | the portrait fields are declared in priority order |
| PromptStudioView.PortraitFieldPriority | data/scenes/portrait.ts:21-84 | portrait priority order is subject, lighting, camera, settings |
| PromptStudioView.PortraitKeys | data/scenes/portrait.ts:21-84 | the portrait fields are declared as subject, lighting, camera, settings |
| PromptStudioView.PortraitFilter | data/scenes/portrait.ts:21-84 | beginners keep subject and lighting; advanced users keep all four |
| PromptStudioView.PortraitVisibleFields | data/scenes/portrait.ts:21-84 | a beginner sees subject and lighting; an advanced user sees all four portrait fields |
| PromptStudioView.PortraitCameraLocked | data/scenes/portrait.ts:62-74 | an advanced user sees the camera field but only an expert edits it |
| DebugConsole.KeepLast | components/DebugConsole.tsx:25 | `slice(-n)` keeps the last n elements, or all of them |
| DebugConsole.FullBufferEvictsOldest | components/DebugConsole.tsx:25 | with twenty logs, a new one evicts the oldest |
| DebugConsole.NewestIsLast | components/DebugConsole.tsx:25 | the newest log is always kept, last |
| DebugConsole.KeepLastAppend | components/DebugConsole.tsx:25 | truncating to the last n before an append keeps what truncating after it keeps |
| DebugConsole.LogsAfterKeepsLast | components/DebugConsole.tsx:18-31 | after any trace, the buffer holds the twenty most recent logs in arrival order |
| DebugConsole.Console.constructor | components/DebugConsole.tsx:13-15 | closed, empty, no new-log mark |
| DebugConsole.Console.HandleLog | components/DebugConsole.tsx:19-41 | the log is appended and the buffer truncated to twenty; the mark is set exactly when the console is closed |
| DebugConsole.Console.Toggle | components/DebugConsole.tsx:110 | the console opens or closes; opening clears the mark |
| DebugConsole.Console.Close | components/DebugConsole.tsx:67 | the console closes |
| DebugConsole.Console.Clear | components/DebugConsole.tsx:64 | the logs are emptied |
| Onboarding.Tour.CurrentStep | hooks/useOnboarding.ts:84 | the step at the current index, undefined only without steps |
| Onboarding.Tour.constructor | hooks/useOnboarding.ts:17-19 | inactive at step 0, with the given storage |
| Onboarding.Tour.Start | hooks/useOnboarding.ts:31-34 | active at the first step |
| Onboarding.Tour.Dismiss | hooks/useOnboarding.ts:36-39 | inactive, and the seen key is stored |
| Onboarding.Tour.Next | hooks/useOnboarding.ts:41-47 | one step on, or a dismissal on the last step |
| Onboarding.Tour.AutoStart | hooks/useOnboarding.ts:50-54 | starts only when the seen key is not stored |
| Onboarding.RunKeepsIndexInRange | hooks/useOnboarding.ts:31-47 | any run of start, next and dismiss keeps the index in range, and a seen tour stays seen |
| Highlights.FindPreset | data/highlights.ts:97 | the first preset with the id, and nothing only when no preset has it |
| Highlights.KnownIds | data/highlights.ts:95-100 | the ids the catalogue knows: each listed id is featured and known, and every featured known id is listed |
| Highlights.KnownIdsFirst | data/highlights.ts:95-100 | the first known id is the first featured id the catalogue knows |
| Highlights.ResolveMeaning | data/highlights.ts:95-100 | resolution gives one preset per known id, in order: the resolved first catalogue entry with that id |
| Highlights.GetPresetsForHighlight | data/highlights.ts:95-100 | one resolved preset per featured id the catalogue knows, in the order of the ids |
| Highlights.ResolvePresets | data/highlights.ts:95-100 | at most one preset per id |
| Highlights.ResolveAppend | data/highlights.ts:95-100 | ids resolve one by one, in order |
| Highlights.ResolveAllFound | data/highlights.ts:95-100 | when every id is known, the i-th result is the resolved first match of the i-th id |
| Highlights.ResolveDropsUnknown | data/highlights.ts:98 | an unknown id contributes nothing |
| Highlights.HighlightPresetIdsDistinct | data/highlight_presets.ts:7-129 | the shipped preset ids are distinct |
| Highlights.ConfigFeatures | data/highlights.ts:8-90 | the i-th collection features exactly the i-th preset |
| Highlights.ShippedHighlightResolves | data/highlights.ts:8-100 | each shipped collection yields exactly its featured preset |
| Highlights.FindPresetAt | data/highlights.ts:97 | with distinct ids, looking up entry i's id finds entry i |
| VirtualPhotography.PresetFieldOr | pages/VirtualPhotography.tsx:20-28 | the preset's truthy value for the field, else the fallback |
| VirtualPhotography.PrimaryPreset | pages/VirtualPhotography.tsx:15 | `getPresetsForHighlight(config)[0]`: undefined exactly when the catalogue knows no featured id; otherwise the resolved preset of the first known id |
| VirtualPhotography.CreateSessionFromHighlight | pages/VirtualPhotography.tsx:14-37 | the session takes the collection's id and title, its camera and persona come from the primary preset with fixed fallbacks, and it has three numbered shots previewing the cover |
| VirtualPhotography.ShotIdsDistinct | pages/VirtualPhotography.tsx:31-35 | the three shot ids of a session differ |
| VirtualPhotography.MonochromeSession | pages/VirtualPhotography.tsx:14-37 | the monochrome collection's session uses the preset's camera, lighting and subject and falls back for lens and outfit |
| VirtualPhotography.MonochromeFields | data/highlight_presets.ts:7-129 | the monochrome data gives camera, lighting and subject and leaves lens and outfit to the fallbacks |
| VirtualPhotography.PrimaryOfShipped | pages/VirtualPhotography.tsx:15 | a shipped collection's primary preset is its featured preset |
| VirtualPhotography.FindFirst | pages/VirtualPhotography.tsx:53-54 | `find` returns the first item with the id, and nothing exactly when no item has it |
| VirtualPhotography.ActiveSession | pages/VirtualPhotography.tsx:53 | one of the sessions; when some session has the id, the first one that has it; otherwise the first session |
| VirtualPhotography.ActiveShot | pages/VirtualPhotography.tsx:54 | one of the shots; when some shot has the id, the first one that has it; otherwise the session's first shot |
| VirtualPhotography.ResultKeysSeparateShots | pages/VirtualPhotography.tsx:72 | different shots of one session never share a result key |
| VirtualPhotography.Page.constructor | pages/VirtualPhotography.tsx:40-51 | one session per collection; the first session and its first shot; script mode; no results and no reference image |
| VirtualPhotography.Page.SelectSession | pages/VirtualPhotography.tsx:56-64 | a new session id moves to that session's first shot |
| VirtualPhotography.Page.SelectShot | pages/VirtualPhotography.tsx:151 | the shot id is set |
| VirtualPhotography.Page.SetMode | pages/VirtualPhotography.tsx:127-131 | the mode is set |
| VirtualPhotography.Page.OnImageUpload | pages/VirtualPhotography.tsx:155 | the image is stored and the page locks |
| VirtualPhotography.Page.HandleShoot | pages/VirtualPhotography.tsx:66-76 | blocked in portrait mode without a reference image; otherwise the compiled prompt is sent, a success is stored under the session-shot key with other results kept, and rendering ends either way |

## Left out

- The optimizer and image-generator services are outside this model. Their answers are method parameters: `answer` in `HandleOptimize`, `outcome` in `HandleRender` and `HandleShoot`.
- `compilePhotographyPrompt` is the `compile` parameter of `HandleShoot`.
- `resolvePresetMedia` (`data/presets.ts`) is the `resolve` parameter wherever presets are resolved.
- PromptStudioHook.PromptStudio.HandleOptimize: does not model the raw-input text or the debug-log events it dispatches. The optimizer is assumed never to throw, as its service returns an empty record on failure.
- PromptStudioHook.PromptStudio.HandleRenderSuccess: the random id and the clock time are parameters.
- DebugConsole.Console.HandleLog: the random id and the locale time are parts of the log parameter. The log content, any JSON value in the source, is kept as text.
- JsStrings.WeightText: rounds tenths half away from zero. Binary floating point, which can round some halves differently, is not modelled. The exact-text lemma covers only weights that are multiples of ten.
- Timers are collapsed into direct calls: the 2-second copy reset (`CopyTimeout`), the 50 ms delay before a reused preset switches mode, and the tour's auto-start delay.
- The window event bus (`app:mode-change`, `app:reuse-preset`, `app:debug-log`) becomes direct method calls.
- DOM measurement, scrolling, `requestAnimationFrame` and the tour's target rectangle are not modelled.
- The API-key prompt in the photography page's session effect is not modelled.
- Pure UI toggles are not modelled: `showDsl`, `isLookbookOpen`, `isPreviewOpen`, `previewOpen`, `showSessionPicker`, the colour map, and the draft label.
- In `HandleRender` and `HandleShoot`, an exception from the generator is the outcome `None`. `handleRender` catches it and logs it to the console; the log is not modelled. `handleShoot` has no `catch`, so the exception reaches its caller after `finally`; that propagation is not modelled.
- The `Highlight`, session and shot types are not in `types.ts`. They are the shapes the code builds and reads.
- The extra preset fields of the highlight catalogue (`likes`, `prompt`) are not carried. Presets keep their id, title, scene, data and author.
- Scene definitions other than portrait, and the official presets, are constructor parameters. The portrait scene is a fixture.
- `localStorage` is a `map<string, string>` field of the tour. Other keys and storage failures are not modelled.
