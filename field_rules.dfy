/** The pure rules of the prompt-studio hook (`hooks/usePromptStudio.ts`): the mode rank
    behind visibility and editability, the priority order of fields, the required-field check,
    option weights, the merge of defaults with user values, and the capped render history. */
module FieldRules {
  import opened JsStrings
  import opened PromptTypes

  // ---------------------------------------------------------------------------------------
  // Mode rank, visibility and editability

  /** `MODE_RANK` */
  function Rank(m: UserMode): nat {
    match m
    case Beginner => 1
    case Advanced => 2
    case Expert => 3
  }

  /** Reference order, stated without numbers: `mode` reaches `min` in
      beginner < advanced < expert. */
  predicate Reaches(mode: UserMode, min: UserMode) {
    match min
    case Beginner => true
    case Advanced => mode != Beginner
    case Expert => mode == Expert
  }

  /** `isFieldVisible` */
  function IsFieldVisible(mode: UserMode, schema: FieldSchema): (r: bool)
    ensures r <==> Reaches(mode, schema.minVisibility)
  {
    Rank(mode) >= Rank(schema.minVisibility)
  }

  /** `canEditField` */
  function CanEditField(mode: UserMode, schema: FieldSchema): (r: bool)
    ensures r <==> Reaches(mode, schema.minEditable)
  {
    Rank(mode) >= Rank(schema.minEditable)
  }

  /** Raising the mode never hides or locks a field, and expert sees and edits every field. */
  lemma ModeMonotone(m1: UserMode, m2: UserMode, schema: FieldSchema)
    requires Rank(m1) <= Rank(m2)
    ensures IsFieldVisible(m1, schema) ==> IsFieldVisible(m2, schema)
    ensures CanEditField(m1, schema) ==> CanEditField(m2, schema)
    ensures IsFieldVisible(Expert, schema) && CanEditField(Expert, schema)
  {
  }

  // ---------------------------------------------------------------------------------------
  // Priority order: `Object.entries(scene.fields).sort((a, b) => a.priority - b.priority)`,
  // a stable sort, written as an insertion sort.

  predicate SortedByPriority(s: seq<FieldEntry>) {
    forall i, j :: 0 <= i < j < |s| ==> s[i].schema.priority <= s[j].schema.priority
  }

  /** The entries of priority `p`, in their order in `s`. */
  function WithPriority(s: seq<FieldEntry>, p: int): seq<FieldEntry> {
    if s == [] then []
    else (if s[0].schema.priority == p then [s[0]] else []) + WithPriority(s[1..], p)
  }

  /** Places `e` before the first entry whose priority is not lower. */
  function InsertByPriority(e: FieldEntry, s: seq<FieldEntry>): (r: seq<FieldEntry>)
    ensures multiset(r) == multiset(s) + multiset{e}
  {
    if s == [] || e.schema.priority <= s[0].schema.priority then [e] + s
    else
      assert s == [s[0]] + s[1..];
      [s[0]] + InsertByPriority(e, s[1..])
  }

  /** The sorted entries: ordered by non-decreasing priority and a permutation of the input.
      `SortStable` adds that entries of equal priority keep their order. */
  function SortByPriority(s: seq<FieldEntry>): (r: seq<FieldEntry>)
    ensures SortedByPriority(r)
    ensures multiset(r) == multiset(s)
  {
    if s == [] then []
    else
      var rest := SortByPriority(s[1..]);
      InsertKeepsSorted(s[0], rest);
      assert s == [s[0]] + s[1..];
      InsertByPriority(s[0], rest)
  }

  lemma {:induction false} InsertKeepsSorted(e: FieldEntry, s: seq<FieldEntry>)
    requires SortedByPriority(s)
    ensures SortedByPriority(InsertByPriority(e, s))
  {
    if s != [] && e.schema.priority > s[0].schema.priority {
      InsertKeepsSorted(e, s[1..]);
      var t := InsertByPriority(e, s[1..]);
      forall j | 0 <= j < |t|
        ensures s[0].schema.priority <= t[j].schema.priority
      {
        assert t[j] in multiset(t);
        assert t[j] == e || t[j] in multiset(s[1..]);
      }
    }
  }

  lemma {:induction false} InsertWithPriority(e: FieldEntry, s: seq<FieldEntry>, p: int)
    ensures WithPriority(InsertByPriority(e, s), p)
         == (if e.schema.priority == p then [e] else []) + WithPriority(s, p)
  {
    var r := InsertByPriority(e, s);
    var mine := if e.schema.priority == p then [e] else [];
    if s == [] || e.schema.priority <= s[0].schema.priority {
      assert r == [e] + s && r[1..] == s;
      assert WithPriority(r, p) == mine + WithPriority(s, p);
    } else {
      var t := InsertByPriority(e, s[1..]);
      InsertWithPriority(e, s[1..], p);
      assert r == [s[0]] + t && r[0] == s[0] && r[1..] == t;
      var first := if s[0].schema.priority == p then [s[0]] else [];
      assert WithPriority(r, p) == first + WithPriority(t, p);
      assert WithPriority(s, p) == first + WithPriority(s[1..], p);
      SwapDisjoint(first, mine, WithPriority(s[1..], p));
    }
  }

  /** Two pieces of which one is empty can be swapped. */
  lemma SwapDisjoint(a: seq<FieldEntry>, b: seq<FieldEntry>, rest: seq<FieldEntry>)
    requires a == [] || b == []
    ensures a + (b + rest) == b + (a + rest)
  {
  }

  lemma {:induction false} KeysConcat(a: seq<FieldEntry>, b: seq<FieldEntry>)
    ensures Keys(a + b) == Keys(a) + Keys(b)
  {
  }

  lemma KeysCons(x: FieldEntry, s: seq<FieldEntry>)
    ensures Keys([x] + s) == [x.key] + Keys(s)
  {
    assert ([x] + s)[1..] == s;
  }

  lemma {:induction false} InsertKeys(e: FieldEntry, s: seq<FieldEntry>)
    ensures multiset(Keys(InsertByPriority(e, s))) == multiset(Keys(s)) + multiset{e.key}
  {
    if s == [] || e.schema.priority <= s[0].schema.priority {
      KeysCons(e, s);
    } else {
      var t := InsertByPriority(e, s[1..]);
      InsertKeys(e, s[1..]);
      KeysCons(s[0], t);
      KeysCons(s[0], s[1..]);
      assert s == [s[0]] + s[1..];
    }
  }

  lemma {:induction false} SortPermutesKeys(s: seq<FieldEntry>)
    ensures multiset(Keys(SortByPriority(s))) == multiset(Keys(s))
  {
    if s != [] {
      var t := SortByPriority(s[1..]);
      assert SortByPriority(s) == InsertByPriority(s[0], t);
      InsertKeys(s[0], t);
      SortPermutesKeys(s[1..]);
      assert Keys(s) == [s[0].key] + Keys(s[1..]);
    }
  }

  lemma {:induction false} SortStable(s: seq<FieldEntry>, p: int)
    ensures WithPriority(SortByPriority(s), p) == WithPriority(s, p)
  {
    if s != [] {
      SortStable(s[1..], p);
      InsertWithPriority(s[0], SortByPriority(s[1..]), p);
    }
  }

  /** The sort is correct and stable: the result is ordered by non-decreasing priority, is a
      permutation of the input, and keeps the entries of each priority in input order. */
  lemma SortByPriorityCorrect(s: seq<FieldEntry>)
    ensures SortedByPriority(SortByPriority(s))
    ensures multiset(SortByPriority(s)) == multiset(s)
    ensures multiset(Keys(SortByPriority(s))) == multiset(Keys(s))
    ensures forall p :: WithPriority(SortByPriority(s), p) == WithPriority(s, p)
  {
    SortPermutesKeys(s);
    forall p ensures WithPriority(SortByPriority(s), p) == WithPriority(s, p) {
      SortStable(s, p);
    }
  }

  /** `fieldPriority`: the scene's field keys in priority order. */
  function FieldPriority(fields: seq<FieldEntry>): (r: seq<FieldKey>)
    ensures |r| == |fields|
    ensures multiset(r) == multiset(Keys(fields))
  {
    var sorted := SortByPriority(fields);
    SortPermutesKeys(fields);
    assert |sorted| == |multiset(sorted)| == |multiset(fields)| == |fields|;
    Keys(sorted)
  }

  /** Fields already in priority order keep their declaration order. */
  lemma FieldPriorityOfSorted(fields: seq<FieldEntry>)
    requires SortByPriority(fields) == fields
    ensures FieldPriority(fields) == Keys(fields)
  {
  }

  /** `fieldPriority` is a permutation of the declared keys, ordered by priority, with
      ties in declaration order. */
  lemma FieldPriorityOrder(fields: seq<FieldEntry>)
    ensures multiset(FieldPriority(fields)) == multiset(Keys(fields))
    ensures var sorted := SortByPriority(fields);
      && Keys(sorted) == FieldPriority(fields)
      && SortedByPriority(sorted)
      && forall p :: WithPriority(sorted, p) == WithPriority(fields, p)
  {
    SortByPriorityCorrect(fields);
  }

  // ---------------------------------------------------------------------------------------
  // Required fields

  /** `schema.isRequired && !promptData[key]?.trim()` */
  predicate IsMissingEntry(e: FieldEntry, data: StructuredPrompt) {
    e.schema.isRequired && !(e.key in data && Trim(data[e.key]) != "")
  }

  /** The number of missing fields. */
  function CountMissing(fields: seq<FieldEntry>, data: StructuredPrompt): (n: nat)
    ensures n <= |fields|
  {
    if fields == [] then 0
    else (if IsMissingEntry(fields[0], data) then 1 else 0) + CountMissing(fields[1..], data)
  }

  /** None is missing exactly when the count is 0. */
  lemma {:induction false} CountMissingZero(fields: seq<FieldEntry>, data: StructuredPrompt)
    ensures CountMissing(fields, data) == 0 <==> forall i :: 0 <= i < |fields| ==> !IsMissingEntry(fields[i], data)
  {
    if fields != [] {
      CountMissingZero(fields[1..], data);
      assert forall i :: 1 <= i < |fields| ==> fields[i] == fields[1..][i - 1];
    }
  }

  /** The number of missing fields among the first `i`. */
  function MissingBefore(fields: seq<FieldEntry>, data: StructuredPrompt, i: nat): nat
    requires i <= |fields|
  {
    CountMissing(fields[..i], data)
  }

  /** `missingFields`: the labels of the required fields left blank, one per such field, in
      declaration order: the label of a missing field sits after those of the missing fields
      declared before it. */
  function MissingFields(fields: seq<FieldEntry>, data: StructuredPrompt): (r: seq<string>)
    ensures |r| == CountMissing(fields, data)
    ensures forall i :: 0 <= i < |fields| && IsMissingEntry(fields[i], data) ==>
      MissingBefore(fields, data, i) < |r| && r[MissingBefore(fields, data, i)] == fields[i].schema.displayLabel
  {
    if fields == [] then []
    else
      var rest := MissingFields(fields[1..], data);
      var h := if IsMissingEntry(fields[0], data) then 1 else 0;
      var r := if h == 1 then [fields[0].schema.displayLabel] + rest else rest;
      assert r[h..] == rest;
      MissingFieldsCons(fields, fields[1..], data, rest, h, r);
      r
  }

  lemma MissingBeforeCons(fields: seq<FieldEntry>, data: StructuredPrompt, i: nat)
    requires 0 < i <= |fields|
    ensures MissingBefore(fields, data, i) ==
      (if IsMissingEntry(fields[0], data) then 1 else 0) + MissingBefore(fields[1..], data, i - 1)
  {
    assert fields[..i][1..] == fields[1..][..i - 1];
  }

  lemma MissingFieldsCons(fields: seq<FieldEntry>, tail: seq<FieldEntry>, data: StructuredPrompt,
                          rest: seq<string>, h: nat, r: seq<string>)
    requires fields != [] && tail == fields[1..]
    requires |rest| == CountMissing(tail, data)
    requires forall i :: 0 <= i < |tail| && IsMissingEntry(tail[i], data) ==>
      MissingBefore(tail, data, i) < |rest| && rest[MissingBefore(tail, data, i)] == tail[i].schema.displayLabel
    requires h == if IsMissingEntry(fields[0], data) then 1 else 0
    requires h <= |r| && r[h..] == rest && (h == 1 ==> r[0] == fields[0].schema.displayLabel)
    ensures |r| == CountMissing(fields, data)
    ensures forall i :: 0 <= i < |fields| && IsMissingEntry(fields[i], data) ==>
      MissingBefore(fields, data, i) < |r| && r[MissingBefore(fields, data, i)] == fields[i].schema.displayLabel
  {
    forall i | 0 <= i < |fields| && IsMissingEntry(fields[i], data)
      ensures MissingBefore(fields, data, i) < |r|
      ensures r[MissingBefore(fields, data, i)] == fields[i].schema.displayLabel
    {
      if i == 0 {
        assert fields[..0] == [];
        assert MissingBefore(fields, data, 0) == 0 && h == 1;
        assert r[0] == fields[i].schema.displayLabel;
      } else {
        MissingBeforeCons(fields, data, i);
        assert tail[i - 1] == fields[i];
        var c := MissingBefore(tail, data, i - 1);
        assert c < |rest| && rest[c] == tail[i - 1].schema.displayLabel;
        assert MissingBefore(fields, data, i) == h + c;
        assert r[h + c] == r[h..][c] == fields[i].schema.displayLabel;
      }
    }
  }

  /** `isValid`: no required field is left blank. */
  predicate IsValid(fields: seq<FieldEntry>, data: StructuredPrompt)
    ensures IsValid(fields, data) <==> forall i :: 0 <= i < |fields| ==> !IsMissingEntry(fields[i], data)
  {
    CountMissingZero(fields, data);
    |MissingFields(fields, data)| == 0
  }

  /** A required field is missing exactly when its value is absent or white space only;
      every such field contributes its label, and the prompt is valid iff there is none. */
  lemma {:induction false} MissingFieldsMeaning(fields: seq<FieldEntry>, data: StructuredPrompt)
    ensures forall i :: 0 <= i < |fields| ==>
      (IsMissingEntry(fields[i], data) <==>
        fields[i].schema.isRequired && (fields[i].key !in data || Blank(data[fields[i].key])))
    ensures forall i :: 0 <= i < |fields| && IsMissingEntry(fields[i], data) ==>
      fields[i].schema.displayLabel in MissingFields(fields, data)
    ensures IsValid(fields, data) <==> forall i :: 0 <= i < |fields| ==> !IsMissingEntry(fields[i], data)
  {
    CountMissingZero(fields, data);
    forall i | 0 <= i < |fields| && fields[i].key in data {
      TrimEmptyIffBlank(data[fields[i].key]);
    }
    if fields != [] {
      MissingFieldsMeaning(fields[1..], data);
      assert forall i :: 1 <= i < |fields| ==> fields[1..][i - 1] == fields[i];
    }
  }

  // ---------------------------------------------------------------------------------------
  // Options and weights

  /** `options.find(o => o.value === v)`, as an index. */
  function FindOption(options: seq<FieldOption>, v: string): (r: Option<nat>)
    ensures r.Some? ==> r.value < |options| && options[r.value].value == v
    ensures r.Some? ==> forall j :: 0 <= j < r.value ==> options[j].value != v
    ensures r.None? ==> forall j :: 0 <= j < |options| ==> options[j].value != v
  {
    if options == [] then None
    else if options[0].value == v then Some(0)
    else match FindOption(options[1..], v)
      case None => None
      case Some(i) => Some(i + 1)
  }

  /** The weight `handleInputChange(k, v)` writes: the `defaultWeight` of the first option of
      `k` whose value is `v`, when that weight is truthy (defined and non-zero). It belongs to
      a declared field, and a value no option carries changes no weight. */
  function ChosenWeight(fields: seq<FieldEntry>, k: FieldKey, v: string): (r: Option<int>)
    ensures r.Some? ==>
      && r.value != 0
      && k in Keys(fields)
      && LookupSchema(fields, k).Some?
      && var options := LookupSchema(fields, k).value.options;
         && FindOption(options, v).Some?
         && options[FindOption(options, v).value].defaultWeight == r
    ensures LookupSchema(fields, k).Some? && FindOption(LookupSchema(fields, k).value.options, v).Some? ==>
      var w := LookupSchema(fields, k).value.options[FindOption(LookupSchema(fields, k).value.options, v).value].defaultWeight;
      w.Some? && w.value != 0 ==> r == w
    ensures (LookupSchema(fields, k).Some? &&
             forall j :: 0 <= j < |LookupSchema(fields, k).value.options| ==>
               LookupSchema(fields, k).value.options[j].value != v)
      ==> r.None?
  {
    assert forall i :: 0 <= i < |fields| ==> Keys(fields)[i] == fields[i].key;
    match LookupSchema(fields, k)
    case None => None
    case Some(schema) =>
      match FindOption(schema.options, v)
      case None => None
      case Some(i) =>
        var w := schema.options[i].defaultWeight;
        if w.Some? && w.value != 0 then w else None
  }

  // ---------------------------------------------------------------------------------------
  // Merge of defaults and user values

  /** `getMergedData()`: the defaults, overridden by every user value whose trim is non-empty. */
  function MergedData(defaults: StructuredPrompt, data: StructuredPrompt): (r: StructuredPrompt)
    ensures forall k :: k in r <==> k in defaults || (k in data && !Blank(data[k]))
    ensures forall k :: k in data && !Blank(data[k]) ==> r[k] == data[k]
    ensures forall k :: k in defaults && (k !in data || Blank(data[k])) ==> r[k] == defaults[k]
  {
    TrimEmptyIffBlankAll();
    map k | k in defaults.Keys + data.Keys && (k in defaults || (k in data && Trim(data[k]) != ""))
      :: if k in data && Trim(data[k]) != "" then data[k] else defaults[k]
  }

  lemma TrimEmptyIffBlankAll()
    ensures forall s {:trigger Trim(s)} :: Trim(s) == "" <==> Blank(s)
  {
    forall s ensures Trim(s) == "" <==> Blank(s) {
      TrimEmptyIffBlank(s);
    }
  }

  /** The data both the render-success handler and the render button use:
      `Object.keys(optimizedData).length > 0 ? optimizedData : promptData`. */
  function PreferOptimized(optimized: StructuredPrompt, prompt: StructuredPrompt): (r: StructuredPrompt)
    ensures r == optimized || r == prompt
    ensures r == prompt <== optimized == map[]
    ensures r == optimized <== optimized != map[]
  {
    if |optimized| > 0 then optimized else prompt
  }

  // ---------------------------------------------------------------------------------------
  // Render history

  /** `HistoryItem` of `components/RenderingHistory.tsx`. */
  datatype HistoryItem = HistoryItem(id: string, url: string, data: StructuredPrompt, timestamp: int)

  const HistoryCap: nat := 10

  /** `[newItem, ...prev].slice(0, 10)` */
  function PushHistory(item: HistoryItem, h: seq<HistoryItem>): (r: seq<HistoryItem>)
    ensures |r| == if |h| < HistoryCap then |h| + 1 else HistoryCap
    ensures r[0] == item && r[1..] == h[..|r| - 1]
  {
    var all := [item] + h;
    all[..if |all| < HistoryCap then |all| else HistoryCap]
  }

  function Reverse<T>(s: seq<T>): (r: seq<T>)
    ensures |r| == |s|
    ensures forall i :: 0 <= i < |s| ==> r[i] == s[|s| - 1 - i]
  {
    if s == [] then [] else Reverse(s[1..]) + [s[0]]
  }

  /** The history after rendering `items` one after another, oldest first, from empty. */
  function HistoryAfter(items: seq<HistoryItem>): seq<HistoryItem> {
    if items == [] then [] else PushHistory(items[|items| - 1], HistoryAfter(items[..|items| - 1]))
  }

  /** The history holds the ten most recent renders, newest first. */
  lemma {:induction false} HistoryKeepsNewest(items: seq<HistoryItem>)
    ensures var n := if |items| < HistoryCap then |items| else HistoryCap;
      HistoryAfter(items) == Reverse(items)[..n]
  {
    if items != [] {
      var init := items[..|items| - 1];
      HistoryKeepsNewest(init);
      var r := Reverse(items);
      assert r == [items[|items| - 1]] + Reverse(init);
    }
  }
}
