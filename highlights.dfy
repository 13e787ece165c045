/** `data/highlights.ts`: the eight community highlight collections and the resolution of a
    collection's featured preset ids against `HIGHLIGHT_PRESETS` (`data/highlight_presets.ts`).
    `resolvePresetMedia` is imported from `data/presets.ts` but not defined there, so it is a
    parameter here. */
module Highlights {
  import opened PromptTypes

  /** A highlight collection, with the fields the configurations declare. */
  datatype Highlight = Highlight(
    id: string,
    title: string,
    subTitle: string,
    description: string,
    featuredPresetIds: seq<string>,
    tags: seq<string>,
    coverUrl: string,
    issueNumber: string)

  /** `HIGHLIGHT_CONFIGS` */
  const HighlightConfigs: seq<Highlight> := [
    Highlight("col-shanshui", "山水诗意", "Shanshui Poeticism",
      "人在画中，虚实相生。利用丁达尔效应与意境留白，构建具有东方神韵的宏大视觉。",
      ["cp-shanshui"], ["意境山水", "虚实相生"],
      "https://images.unsplash.com/photo-1542332213-31f87348057f?auto=format&fit=crop&q=80&w=1200", "SH"),
    Highlight("col-crimson", "锦瓷红妆", "Crimson Splendor",
      "极致骨相，高定质感。模拟中画幅的哑光瓷肌质感，定义当代东方美学人像。",
      ["cp-crimson"], ["极致骨相", "高定质感"],
      "https://images.unsplash.com/photo-1524250502761-1ac6f2e30d43?auto=format&fit=crop&q=80&w=1200", "CR"),
    Highlight("col-garden", "庭院清雅", "Garden Elegance",
      "文艺清新，园林留白。捕捉苏州园林中的月窗与斑驳竹影，呈现诗意的文学质感。",
      ["cp-garden"], ["文艺清新", "园林留白"],
      "https://images.unsplash.com/photo-1505245208761-baad325e92fe?auto=format&fit=crop&q=80&w=1200", "GE"),
    Highlight("col-ink", "墨影骨相", "Ink Shadow",
      "水墨影调，写意人像。大虚大实的影调控制，让人物在墨色渲染中呈现深邃的哲思。",
      ["cp-ink-shadow"], ["水墨影调", "写意人像"],
      "https://images.unsplash.com/photo-1519750783826-e2420f4d687f?auto=format&fit=crop&q=80&w=1200", "IS"),
    Highlight("col-red-snow", "朱墙白雪", "Imperial Snow",
      "极简建筑，冷峻叙事。红墙与积雪的极致对比，利用几何构图表达空间的诗意。",
      ["cp-red-snow"], ["极简建筑", "冷峻叙事"],
      "https://images.unsplash.com/photo-1552334405-4929565998d5?auto=format&fit=crop&q=80&w=1200", "RW"),
    Highlight("col-dunhuang", "敦煌绝响", "Dunhuang Echo",
      "艺术插画级人像。利用矿物颜料、金箔与飞天绸带，将东方神韵推向神性美学。",
      ["cp-dunhuang"], ["艺术插画", "神性美学"],
      "https://images.unsplash.com/photo-1579783902614-a3fb3927b6a5?auto=format&fit=crop&q=80&w=1200", "DH"),
    Highlight("col-monochrome", "纯影骨相", "Studio Monochrome",
      "极致清晰的黑白商业人像。模拟徕卡 M11M 影调，聚焦面部微运动与骨骼转折。",
      ["cp-monochrome"], ["黑白影像", "商业质感"],
      "https://images.unsplash.com/photo-1531746020798-e6953c6e8e04?auto=format&fit=crop&q=80&w=1200", "SM"),
    Highlight("col-youth", "芳华映画", "Youthful Narrative",
      "捕捉具有“清涩感”与“呼吸感”的瞬间，光影通透、肤质柔和，文艺感十足。",
      ["cp-youth"], ["文艺写真", "呼吸感"],
      "https://images.unsplash.com/photo-1517604931442-7e0c8ed2963c?auto=format&fit=crop&q=80&w=1200", "YN")
  ]

  /** The entries of `HIGHLIGHT_PRESETS`, with the fields of `Preset` (asset id, likes and
      prompt text are not read by the core). */
  const ShanshuiPreset := Preset("cp-shanshui", "墨染·山河", Nature, map[
    Subject := "A refined 25-year-old Chinese woman in minimalist flowing white silk robes",
    Environment := "vast Guilin landscape, heavy morning mist, ink-wash mountains",
    Style := "Oriental Shanshui aesthetic, virtual-real fusion",
    Quality := "masterpiece, high-end poetic mood"], "PromptStudio Curator")
  const CrimsonPreset := Preset("cp-crimson", "锦瓷·红妆", Portrait, map[
    Subject := "25-year-old Chinese model with high-bone structure, cinnabar red lips",
    Lighting := "Rembrandt lighting, deep shadows",
    Medium := "high-end fashion editorial",
    Quality := "flawless porcelain skin texture"], "PromptStudio Curator")
  const GardenPreset := Preset("cp-garden", "疏影·园林", Fresh, map[
    Subject := "graceful 25-year-old Chinese girl with clear eyes",
    Environment := "Suzhou garden, circular moon window, bamboo shadows",
    Composition := "zen-style negative space",
    Style := "literary fresh aesthetic"], "PromptStudio Curator")
  const InkShadowPreset := Preset("cp-ink-shadow", "墨影·骨相", Emotional, map[
    Subject := "25-year-old Chinese man, scholarly elegance",
    Style := "Freehand ink-wash shadow, poetic monochrome",
    Lighting := "dramatic side light, high contrast",
    Mood := "philosophical silence"], "Aesthetic Lab")
  const RedSnowPreset := Preset("cp-red-snow", "朱墙·白雪", Space, map[
    Subject := "Forbidden City red walls with thick white snow",
    Composition := "majestic symmetry, minimalist architectural lines",
    Mood := "cold and silent narrative",
    Color := "cinnabar red and snow white"], "Architecture Lead")
  const DunhuangPreset := Preset("cp-dunhuang", "敦煌·绝响", Artistic, map[
    Subject := "25-year-old Oriental goddess in divine pose",
    Medium := "Mineral pigment texture, gold foil accents",
    Style := "Dunhuang Re-echo, sacred aesthetic",
    Quality := "artistic illustration level"], "Digital Artist")
  const MonochromePreset := Preset("cp-monochrome", "纯影·骨相", Commercial, map[
    Subject := "Extreme detail of 25-year-old male face, bone structure focus",
    Camera := "Leica M11 Monochrom",
    Lighting := "precise studio key light",
    Quality := "silver gelatin print texture, high-end grain"], "Pro Photographer")
  const YouthPreset := Preset("cp-youth", "芳华·映画", Narrative, map[
    Subject := "25-year-old girl with \"breathing\" skin texture",
    Environment := "rainy old street library, soft natural light",
    Mood := "nostalgic, youthful longing",
    Quality := "translucent air quality, soft focus"], "Storyteller")

  /** `HIGHLIGHT_PRESETS` */
  const HighlightPresets: seq<Preset> := [
    ShanshuiPreset,
    CrimsonPreset,
    GardenPreset,
    InkShadowPreset,
    RedSnowPreset,
    DunhuangPreset,
    MonochromePreset,
    YouthPreset]

  /** `catalogue.find(p => p.id === id)`: the first preset with that id. */
  function FindPreset(catalogue: seq<Preset>, id: string): (r: Option<Preset>)
    ensures r.Some? ==>
      exists i :: 0 <= i < |catalogue| && catalogue[i] == r.value && r.value.id == id &&
        (forall j :: 0 <= j < i ==> catalogue[j].id != id)
    ensures r.None? <==> forall j :: 0 <= j < |catalogue| ==> catalogue[j].id != id
  {
    if catalogue == [] then None
    else if catalogue[0].id == id then Some(catalogue[0])
    else
      var r := FindPreset(catalogue[1..], id);
      assert forall j :: 1 <= j < |catalogue| ==> catalogue[j] == catalogue[1..][j - 1];
      if r.Some? then
        var i :| 0 <= i < |catalogue| - 1 && catalogue[1..][i] == r.value && r.value.id == id
          && forall j :: 0 <= j < i ==> catalogue[1..][j].id != id;
        assert catalogue[i + 1] == r.value;
        r
      else
        r
  }

  /** `ids.map(find).filter(defined).map(resolve)` */
  function ResolvePresets(ids: seq<string>, catalogue: seq<Preset>, resolve: Preset -> Preset)
    : (r: seq<Preset>)
    ensures |r| <= |ids|
  {
    if ids == [] then []
    else
      match FindPreset(catalogue, ids[0])
      case None => ResolvePresets(ids[1..], catalogue, resolve)
      case Some(p) => [resolve(p)] + ResolvePresets(ids[1..], catalogue, resolve)
  }

  /** `getPresetsForHighlight(highlight)`: one resolved preset per featured id that
      `HIGHLIGHT_PRESETS` knows, in the order of the ids. */
  function GetPresetsForHighlight(h: Highlight, resolve: Preset -> Preset): (r: seq<Preset>)
    ensures var k := KnownIds(h.featuredPresetIds, HighlightPresets);
      && |r| == |k|
      && forall i :: 0 <= i < |r| ==> r[i] == resolve(FindPreset(HighlightPresets, k[i]).value)
  {
    ResolveMeaning(h.featuredPresetIds, HighlightPresets, resolve);
    ResolvePresets(h.featuredPresetIds, HighlightPresets, resolve)
  }

  /** The catalogue knows none of the first `j` ids. */
  ghost predicate NoneKnownBefore(ids: seq<string>, j: int, catalogue: seq<Preset>) {
    forall k :: 0 <= k < j && k < |ids| ==> FindPreset(catalogue, ids[k]).None?
  }

  /** The ids the catalogue knows, in their order: each is one of the ids and known, and
      every known id is among them. */
  function KnownIds(ids: seq<string>, catalogue: seq<Preset>): (k: seq<string>)
    ensures forall i :: 0 <= i < |k| ==> k[i] in ids && FindPreset(catalogue, k[i]).Some?
    ensures forall id :: id in ids && FindPreset(catalogue, id).Some? ==> id in k
  {
    if ids == [] then []
    else
      var rest := KnownIds(ids[1..], catalogue);
      assert forall id :: id in ids ==> id == ids[0] || id in ids[1..];
      if FindPreset(catalogue, ids[0]).Some? then [ids[0]] + rest else rest
  }

  /** The first known id is the first id the catalogue knows. */
  lemma {:induction false} KnownIdsFirst(ids: seq<string>, catalogue: seq<Preset>)
    ensures var k := KnownIds(ids, catalogue);
      k != [] ==> exists j :: 0 <= j < |ids| && ids[j] == k[0] && NoneKnownBefore(ids, j, catalogue)
  {
    if ids != [] {
      var k, rest := KnownIds(ids, catalogue), KnownIds(ids[1..], catalogue);
      if FindPreset(catalogue, ids[0]).Some? {
        assert k[0] == ids[0] && NoneKnownBefore(ids, 0, catalogue);
      } else if k != [] {
        KnownIdsFirst(ids[1..], catalogue);
        assert k == rest;
        var j :| 0 <= j < |ids| - 1 && ids[1..][j] == rest[0] && NoneKnownBefore(ids[1..], j, catalogue);
        assert forall i :: 1 <= i < |ids| ==> ids[i] == ids[1..][i - 1];
        assert ids[j + 1] == k[0] && NoneKnownBefore(ids, j + 1, catalogue);
      }
    }
  }

  /** Resolution is the known ids, each replaced by its resolved first match: finding,
      dropping the misses and resolving keep the order of the ids. */
  lemma {:induction false} ResolveMeaning(ids: seq<string>, catalogue: seq<Preset>,
                                          resolve: Preset -> Preset)
    ensures var r, k := ResolvePresets(ids, catalogue, resolve), KnownIds(ids, catalogue);
      && |r| == |k|
      && forall i :: 0 <= i < |r| ==> r[i] == resolve(FindPreset(catalogue, k[i]).value)
  {
    if ids != [] {
      ResolveMeaning(ids[1..], catalogue, resolve);
      var r, k := ResolvePresets(ids, catalogue, resolve), KnownIds(ids, catalogue);
      var rt, kt := ResolvePresets(ids[1..], catalogue, resolve), KnownIds(ids[1..], catalogue);
      if FindPreset(catalogue, ids[0]).Some? {
        ResolvedCons(r, k, rt, kt, ids[0], catalogue, resolve);
      } else {
        assert r == rt && k == kt;
      }
    }
  }

  lemma ResolvedCons(r: seq<Preset>, k: seq<string>, rt: seq<Preset>, kt: seq<string>, id: string,
                     catalogue: seq<Preset>, resolve: Preset -> Preset)
    requires FindPreset(catalogue, id).Some?
    requires r != [] && r[0] == resolve(FindPreset(catalogue, id).value) && r[1..] == rt
    requires k != [] && k[0] == id && k[1..] == kt
    requires forall i :: 0 <= i < |kt| ==> FindPreset(catalogue, kt[i]).Some?
    requires |rt| == |kt| && forall i :: 0 <= i < |rt| ==> rt[i] == resolve(FindPreset(catalogue, kt[i]).value)
    ensures |r| == |k| && forall i :: 0 <= i < |r| ==> r[i] == resolve(FindPreset(catalogue, k[i]).value)
  {
    forall i | 1 <= i < |r|
      ensures r[i] == resolve(FindPreset(catalogue, k[i]).value)
    {
      assert r[i] == r[1..][i - 1];
      assert k[i] == k[1..][i - 1];
    }
    assert r[0] == resolve(FindPreset(catalogue, k[0]).value);
  }

  /** Resolution works id by id: the presets for `a + b` are those for `a` followed by those
      for `b`, so the order of the ids is kept. */
  lemma {:induction false} ResolveAppend(a: seq<string>, b: seq<string>, catalogue: seq<Preset>,
                                         resolve: Preset -> Preset)
    ensures ResolvePresets(a + b, catalogue, resolve)
         == ResolvePresets(a, catalogue, resolve) + ResolvePresets(b, catalogue, resolve)
  {
    if a != [] {
      assert (a + b)[0] == a[0];
      assert (a + b)[1..] == a[1..] + b;
      ResolveAppend(a[1..], b, catalogue, resolve);
      var tail := ResolvePresets(a[1..], catalogue, resolve);
      var rb := ResolvePresets(b, catalogue, resolve);
      match FindPreset(catalogue, a[0])
      case None =>
      case Some(p) =>
        assert [resolve(p)] + (tail + rb) == ([resolve(p)] + tail) + rb;
    } else {
      assert a + b == b;
    }
  }

  /** When every id is in the catalogue, nothing is dropped and the i-th result is the
      resolved first match of the i-th id. */
  lemma {:induction false} ResolveAllFound(ids: seq<string>, catalogue: seq<Preset>, resolve: Preset -> Preset)
    requires forall i :: 0 <= i < |ids| ==> FindPreset(catalogue, ids[i]).Some?
    ensures var r := ResolvePresets(ids, catalogue, resolve);
      && |r| == |ids|
      && forall i :: 0 <= i < |ids| ==> r[i] == resolve(FindPreset(catalogue, ids[i]).value)
  {
    if ids != [] {
      ResolveAllFound(ids[1..], catalogue, resolve);
      var r := ResolvePresets(ids, catalogue, resolve);
      assert r[1..] == ResolvePresets(ids[1..], catalogue, resolve);
      forall i | 1 <= i < |ids|
        ensures r[i] == resolve(FindPreset(catalogue, ids[i]).value)
      {
        assert ids[1..][i - 1] == ids[i];
      }
    }
  }

  /** An id with no match contributes nothing, and no ids give no presets. */
  lemma ResolveDropsUnknown(id: string, catalogue: seq<Preset>, resolve: Preset -> Preset)
    requires forall j :: 0 <= j < |catalogue| ==> catalogue[j].id != id
    ensures ResolvePresets([id], catalogue, resolve) == []
    ensures ResolvePresets([], catalogue, resolve) == []
  {
  }

  /** The ids of `HIGHLIGHT_PRESETS` are distinct. */
  lemma HighlightPresetIdsDistinct()
    ensures forall j, k :: 0 <= j < k < |HighlightPresets| ==> HighlightPresets[j].id != HighlightPresets[k].id
  {
  }

  /** The i-th collection features exactly the i-th preset. */
  lemma ConfigFeatures(i: nat)
    requires i < |HighlightConfigs|
    ensures |HighlightPresets| == |HighlightConfigs|
    ensures HighlightConfigs[i].featuredPresetIds == [HighlightPresets[i].id]
  {
  }

  /** Each shipped collection features one id that `HIGHLIGHT_PRESETS` holds, so each
      yields exactly one preset: the one whose id it names. */
  lemma ShippedHighlightResolves(i: nat, resolve: Preset -> Preset)
    requires i < |HighlightConfigs|
    ensures |HighlightConfigs[i].featuredPresetIds| == 1
    ensures GetPresetsForHighlight(HighlightConfigs[i], resolve) == [resolve(HighlightPresets[i])]
  {
    ConfigFeatures(i);
    HighlightPresetIdsDistinct();
    FindPresetAt(HighlightPresets, i);
    var ids := HighlightConfigs[i].featuredPresetIds;
    assert ids[1..] == [];
  }

  /** In a catalogue with distinct ids, looking up the id of entry `i` finds entry `i`. */
  lemma FindPresetAt(catalogue: seq<Preset>, i: nat)
    requires i < |catalogue|
    requires forall j, k :: 0 <= j < k < |catalogue| ==> catalogue[j].id != catalogue[k].id
    ensures FindPreset(catalogue, catalogue[i].id) == Some(catalogue[i])
  {
  }
}
