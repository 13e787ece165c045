/** `components/PromptOutputPanel.tsx`: the two prompt compilers the panel holds side by side,
    the protocol renderer (value or default per field, ghost marks, expert weight
    annotations) and the merged ordered text that is copied and sent to rendering, plus the
    panel's own state. The two compilers are kept as written; the lemmas at the end of the
    pure part say where they agree and where they do not. */
module PromptOutputPanel {
  import opened JsStrings
  import opened PromptTypes
  import opened FieldRules

  /** One item of `renderEntries`. */
  datatype Entry = Entry(key: FieldKey, value: string, isGhost: bool)

  /** A key survives the renderer's filter: its user value or its default is truthy. */
  predicate Shown(data: StructuredPrompt, defaults: StructuredPrompt, k: FieldKey) {
    Truthy(data, k) || Truthy(defaults, k)
  }

  function EntryKeys(es: seq<Entry>): (r: seq<FieldKey>)
    ensures |r| == |es|
    ensures forall i :: 0 <= i < |es| ==> r[i] == es[i].key
  {
    if es == [] then [] else [es[0].key] + EntryKeys(es[1..])
  }

  function EntryValues(es: seq<Entry>): (r: seq<string>)
    ensures |r| == |es|
    ensures forall i :: 0 <= i < |es| ==> r[i] == es[i].value
  {
    if es == [] then [] else [es[0].value] + EntryValues(es[1..])
  }

  /** `renderEntries`: walk `fieldOrder`, take `data[k] || defaults[k]`, drop falsy ones.
      The result keeps the order of `fieldOrder`, has an entry for exactly the shown keys,
      carries the user value when that is truthy (white space included) and the default
      otherwise, and is ghost exactly when it carries the default. */
  function RenderEntries(data: StructuredPrompt, defaults: StructuredPrompt, order: seq<FieldKey>)
    : (r: seq<Entry>)
    ensures IsSubsequence(EntryKeys(r), order)
    ensures forall k :: k in EntryKeys(r) <==> k in order && Shown(data, defaults, k)
    ensures forall i :: 0 <= i < |r| ==>
      && Shown(data, defaults, r[i].key)
      && r[i].value == (if Truthy(data, r[i].key) then data[r[i].key] else defaults[r[i].key])
      && r[i].value != ""
      && (r[i].isGhost <==> !Truthy(data, r[i].key))
  {
    if order == [] then []
    else
      var k := order[0];
      var rest := RenderEntries(data, defaults, order[1..]);
      var r :=
        if Truthy(data, k) then [Entry(k, data[k], false)] + rest
        else if Truthy(defaults, k) then [Entry(k, defaults[k], true)] + rest
        else rest;
      assert Shown(data, defaults, k) ==> EntryKeys(r) == [k] + EntryKeys(rest);
      if !Shown(data, defaults, k) then
        SubsequenceDrop(EntryKeys(r), order);
        r
      else
        r
  }

  /** `weights?.[key]`: the base view passes the weights, the enhanced view passes none. */
  function WeightOf(weights: Option<PromptWeights>, k: FieldKey): Option<int> {
    if weights.Some? && k in weights.value then Some(weights.value[k]) else None
  }

  /** The annotation condition `mode === 'expert' && weight && weight !== 100`. */
  predicate Annotated(mode: UserMode, weight: Option<int>) {
    mode == Expert && weight.Some? && weight.value != 0 && weight.value != 100
  }

  /** `displayVal`: the bare value unless annotated; an annotated value is `(value:t)` where
      `t` is the weight's `toFixed(1)` text of w / 100 (see `WeightTextExact`). Only expert
      mode annotates, and only a weight that is defined, non-zero and not 100. */
  function DisplayVal(mode: UserMode, weight: Option<int>, value: string): (s: string)
    ensures !Annotated(mode, weight) ==> s == value
    ensures Annotated(mode, weight) ==>
      && |s| == |value| + |WeightText(weight.value)| + 3
      && s[0] == '(' && s[1..|value| + 1] == value && s[|value| + 1] == ':'
      && s[|value| + 2..|s| - 1] == WeightText(weight.value) && s[|s| - 1] == ')'
  {
    if Annotated(mode, weight) then "(" + value + ":" + WeightText(weight.value) + ")" else value
  }

  /** An expert weight of 150 is written `(cat:1.5)`; the same value is bare in advanced
      mode and at the neutral weight 100. */
  lemma DisplayValExamples()
    ensures DisplayVal(Expert, Some(150), "cat") == "(cat:1.5)"
    ensures DisplayVal(Advanced, Some(150), "cat") == "cat"
    ensures DisplayVal(Expert, Some(100), "cat") == "cat"
  {
    WeightText150();
  }

  function EntryText(mode: UserMode, weights: Option<PromptWeights>, e: Entry): string {
    DisplayVal(mode, WeightOf(weights, e.key), e.value)
  }

  /** The visible text of each rendered entry: its display value, then a comma unless it is
      the last entry (`index < renderEntries.length - 1`). */
  function RenderLines(es: seq<Entry>, mode: UserMode, weights: Option<PromptWeights>)
    : (r: seq<string>)
    ensures |r| == |es|
    ensures forall i :: 0 <= i < |es| - 1 ==> r[i] == EntryText(mode, weights, es[i]) + ","
    ensures |es| > 0 ==> r[|es| - 1] == EntryText(mode, weights, es[|es| - 1])
  {
    if |es| == 0 then []
    else if |es| == 1 then [EntryText(mode, weights, es[0])]
    else [EntryText(mode, weights, es[0]) + ","] + RenderLines(es[1..], mode, weights)
  }

  function Concat(lines: seq<string>): string {
    if lines == [] then "" else lines[0] + Concat(lines[1..])
  }

  function EntryTexts(es: seq<Entry>, mode: UserMode, weights: Option<PromptWeights>): (r: seq<string>)
    ensures |r| == |es|
    ensures forall i :: 0 <= i < |es| ==> r[i] == EntryText(mode, weights, es[i])
  {
    if es == [] then [] else [EntryText(mode, weights, es[0])] + EntryTexts(es[1..], mode, weights)
  }

  /** Read one after the other, the rendered lines are the display values joined by commas. */
  lemma {:induction false} RenderLinesJoin(es: seq<Entry>, mode: UserMode, weights: Option<PromptWeights>)
    ensures Concat(RenderLines(es, mode, weights)) == Join(EntryTexts(es, mode, weights), ",")
  {
    if |es| > 1 {
      RenderLinesJoin(es[1..], mode, weights);
      assert EntryTexts(es, mode, weights)[1..] == EntryTexts(es[1..], mode, weights);
      assert RenderLines(es, mode, weights)[1..] == RenderLines(es[1..], mode, weights);
    } else if |es| == 1 {
      assert Concat(RenderLines(es, mode, weights)) == RenderLines(es, mode, weights)[0];
    }
  }

  /** `ProtocolRenderer`: nothing (`null`) when no entry survives, else the lines. */
  function ProtocolRenderer(data: StructuredPrompt, defaults: StructuredPrompt, mode: UserMode,
                            weights: Option<PromptWeights>, order: seq<FieldKey>)
    : (r: Option<seq<string>>)
    ensures r.None? <==> forall k :: k in order ==> !Shown(data, defaults, k)
    ensures r.Some? ==> |r.value| == |RenderEntries(data, defaults, order)| > 0
    ensures r.Some? ==> r.value == RenderLines(RenderEntries(data, defaults, order), mode, weights)
  {
    var es := RenderEntries(data, defaults, order);
    if es == [] then None
    else
      assert es[0].key in EntryKeys(es);
      Some(RenderLines(es, mode, weights))
  }

  /** Empty data over empty defaults renders nothing. */
  lemma RenderNothingOnEmpty(mode: UserMode, weights: Option<PromptWeights>, order: seq<FieldKey>)
    ensures ProtocolRenderer(map[], map[], mode, weights, order) == None
  {
  }

  /** The enhanced view renders the optimized data with no defaults and no weights: no entry
      is ghost and every line is the bare value, comma-terminated except the last. */
  lemma EnhancedViewIsPlain(optimized: StructuredPrompt, mode: UserMode, order: seq<FieldKey>)
    ensures var es := RenderEntries(optimized, map[], order);
      && (forall i :: 0 <= i < |es| ==> !es[i].isGhost && es[i].value == optimized[es[i].key])
      && (forall i :: 0 <= i < |es| - 1 ==> RenderLines(es, mode, None)[i] == es[i].value + ",")
      && (|es| > 0 ==> RenderLines(es, mode, None)[|es| - 1] == es[|es| - 1].value)
  {
  }

  /** The values of `src` along `order`, falsy ones dropped: the values the renderer shows for
      `src` with no defaults, in order. */
  function PresentValues(src: StructuredPrompt, order: seq<FieldKey>): (r: seq<string>)
    ensures |r| <= |order|
    ensures forall i :: 0 <= i < |r| ==> r[i] != ""
    ensures r == [] <==> forall k :: k in order ==> !Truthy(src, k)
    ensures r == EntryValues(RenderEntries(src, map[], order))
  {
    if order == [] then []
    else
      var rest := PresentValues(src, order[1..]);
      var k := order[0];
      if Truthy(src, k) then
        var es := RenderEntries(src, map[], order);
        assert es == [Entry(k, src[k], false)] + RenderEntries(src, map[], order[1..]);
        assert EntryValues(es) == [src[k]] + EntryValues(es[1..]);
        [src[k]] + rest
      else
        rest
  }

  /** `getMergedOrderedText(data)`: `{...defaults, ...data}` along `fieldOrder`, falsy values
      dropped, joined with ", ": the values of exactly the keys of `fieldOrder` whose merged
      value is truthy, in that order (`RenderEntries`' contract). It is empty exactly when no
      merged value is truthy. */
  function GetMergedOrderedText(defaults: StructuredPrompt, data: StructuredPrompt,
                                order: seq<FieldKey>): (r: string)
    ensures r == "" <==> forall k :: k in order ==> !Truthy(defaults + data, k)
    ensures r == Join(EntryValues(RenderEntries(defaults + data, map[], order)), ", ")
  {
    var parts := PresentValues(defaults + data, order);
    JoinEmptyIff(parts, ", ");
    Join(parts, ", ")
  }

  /** When the user data holds no explicit empty string, the copied text lists exactly the
      values the renderer shows, in the same order. */
  lemma {:induction false} MergedTextMatchesRenderer(defaults: StructuredPrompt, data: StructuredPrompt,
                                                     order: seq<FieldKey>)
    requires forall k :: k in data ==> data[k] != ""
    ensures PresentValues(defaults + data, order) == EntryValues(RenderEntries(data, defaults, order))
    ensures GetMergedOrderedText(defaults, data, order)
         == Join(EntryValues(RenderEntries(data, defaults, order)), ", ")
  {
    if order != [] {
      MergedTextMatchesRenderer(defaults, data, order[1..]);
      var k := order[0];
      var rest := RenderEntries(data, defaults, order[1..]);
      if Shown(data, defaults, k) {
        var es := RenderEntries(data, defaults, order);
        assert es == [es[0]] + rest;
        assert EntryValues(es) == [es[0].value] + EntryValues(rest);
      }
    }
  }

  /** An explicit `''` for a key hides its default in the copied text (no part of the text
      comes from that key), while the renderer falls back to the default as a ghost entry and
      `getMergedData` keeps the default. */
  lemma ClearedFieldHidesDefault(defaults: StructuredPrompt, data: StructuredPrompt,
                                 order: seq<FieldKey>, k: FieldKey)
    requires k in data && data[k] == ""
    ensures k !in EntryKeys(RenderEntries(defaults + data, map[], order))
    ensures Truthy(defaults, k) && k in order ==>
      Entry(k, defaults[k], true) in RenderEntries(data, defaults, order)
    ensures k in defaults ==> k in MergedData(defaults, data) && MergedData(defaults, data)[k] == defaults[k]
  {
    assert !Truthy(defaults + data, k) && !Truthy(map[], k);
    if Truthy(defaults, k) && k in order {
      GhostEntryOfDefault(data, defaults, order, k);
    }
    if k in defaults {
      assert Blank(data[k]);
    }
  }

  /** A key whose user value is falsy and whose default is truthy shows the default as a
      ghost entry. */
  lemma GhostEntryOfDefault(data: StructuredPrompt, defaults: StructuredPrompt,
                            order: seq<FieldKey>, k: FieldKey)
    requires !Truthy(data, k) && Truthy(defaults, k) && k in order
    ensures Entry(k, defaults[k], true) in RenderEntries(data, defaults, order)
  {
    var es := RenderEntries(data, defaults, order);
    var ks := EntryKeys(es);
    assert k in ks;
    var i :| 0 <= i < |ks| && ks[i] == k;
    assert es[i].key == k;
    assert es[i] == Entry(k, defaults[k], true);
  }

  /** A white-space value is kept by both compilers but `getMergedData` replaces it with the
      default. */
  lemma BlankFieldDiffersFromMerge()
    ensures var d := map[Subject := "woman"];
      var u := map[Subject := " "];
      && GetMergedOrderedText(d, u, [Subject]) == " "
      && RenderEntries(u, d, [Subject]) == [Entry(Subject, " ", false)]
      && MergedData(d, u) == d
  {
    var d := map[Subject := "woman"];
    var u := map[Subject := " "];
    assert (d + u)[Subject] == " ";
    assert PresentValues(d + u, [Subject]) == [" "];
    assert Blank(u[Subject]);
    assert MergedData(d, u).Keys == d.Keys;
  }

  datatype ViewMode = Base | Enhanced | Visual

  /** The data `handleCopy` compiles: the optimized data only in the enhanced view and when
      there is some. */
  function CopySource(view: ViewMode, optimized: StructuredPrompt, prompt: StructuredPrompt)
    : (r: StructuredPrompt)
    ensures r == optimized || r == prompt
    ensures view != Enhanced ==> r == prompt
  {
    if view == Enhanced && optimized != map[] then optimized else prompt
  }

  /** Copy and render compile the same data in the enhanced view, but outside it copy falls
      back on the user data while render still takes non-empty optimized data. */
  lemma CopyAndRenderSources(view: ViewMode, optimized: StructuredPrompt, prompt: StructuredPrompt)
    ensures view == Enhanced ==> CopySource(view, optimized, prompt) == PreferOptimized(optimized, prompt)
    ensures view != Enhanced && optimized != map[] ==>
      CopySource(view, optimized, prompt) == prompt && PreferOptimized(optimized, prompt) == optimized
  {
  }

  /** The panel's own `useState` slots. */
  class OutputPanel {
    var viewMode: ViewMode
    var copied: bool
    var isRendering: bool
    var generatedImageUrl: Option<string>
    var simulationMode: bool

    constructor ()
      ensures viewMode == Base && !copied && !isRendering
      ensures generatedImageUrl == None && simulationMode
    {
      viewMode := Base;
      copied := false;
      isRendering := false;
      generatedImageUrl := None;
      simulationMode := true;
    }

    /** The effect on `optimizedData`: non-empty optimized data switches to the enhanced view. */
    method OnOptimizedDataChange(optimized: StructuredPrompt)
      modifies this`viewMode
      ensures optimized != map[] ==> viewMode == Enhanced
      ensures optimized == map[] ==> viewMode == old(viewMode)
    {
      if |optimized| > 0 {
        viewMode := Enhanced;
      }
    }

    /** A tab click. */
    method SetViewMode(v: ViewMode)
      modifies this`viewMode
      ensures viewMode == v
    {
      viewMode := v;
    }

    /** The simulation switch. */
    method ToggleSimulation()
      modifies this`simulationMode
      ensures simulationMode == !old(simulationMode)
    {
      simulationMode := !simulationMode;
    }

    /** `handleCopy`: returns the text handed to `onCopy` and marks the copy. */
    method HandleCopy(defaults: StructuredPrompt, prompt: StructuredPrompt,
                      optimized: StructuredPrompt, order: seq<FieldKey>) returns (text: string)
      modifies this`copied
      ensures text == GetMergedOrderedText(defaults, CopySource(viewMode, optimized, prompt), order)
      ensures copied
    {
      var activeData := if viewMode == Enhanced && |optimized| > 0 then optimized else prompt;
      text := GetMergedOrderedText(defaults, activeData, order);
      copied := true;
    }

    /** The two-second timer after a copy. */
    method CopyTimeout()
      modifies this`copied
      ensures !copied
    {
      copied := false;
    }

    /** `handleRender`, with the image generator's outcome as a parameter (`None` when it
        throws). Returns the prompt sent to the generator and the url passed to
        `onRenderSuccess`, if any. The view switches to visual; the image url changes only on
        success; the rendering flag ends false either way. */
    method HandleRender(defaults: StructuredPrompt, prompt: StructuredPrompt,
                        optimized: StructuredPrompt, order: seq<FieldKey>, outcome: Option<string>)
      returns (finalPrompt: string, rendered: Option<string>)
      modifies this`viewMode, this`isRendering, this`generatedImageUrl
      ensures finalPrompt == GetMergedOrderedText(defaults, PreferOptimized(optimized, prompt), order)
      ensures viewMode == Visual && !isRendering
      ensures rendered == outcome
      ensures outcome.Some? ==> generatedImageUrl == outcome
      ensures outcome.None? ==> generatedImageUrl == old(generatedImageUrl)
    {
      viewMode := Visual;
      isRendering := true;
      var activeData := if |optimized| > 0 then optimized else prompt;
      finalPrompt := GetMergedOrderedText(defaults, activeData, order);
      rendered := None;
      if outcome.Some? {
        generatedImageUrl := outcome;
        rendered := outcome;
      }
      isRendering := false;
    }
  }
}
