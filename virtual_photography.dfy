/** `pages/VirtualPhotography.tsx`: photography sessions built from the highlight
    collections, the active session and shot with their fallbacks, and the shoot action that
    records one generated image per session and shot. The session types are the ones the page
    builds; the prompt compiler and the image generator are parameters. */
module VirtualPhotography {
  import opened PromptTypes
  import opened Highlights

  datatype CameraSystem = CameraSystem(cameraBody: string, lens: string, lightingRig: string,
                                       colorScience: string)

  datatype Persona = Persona(modelId: string, features: string, outfit: string, temperament: string)

  datatype Shot = Shot(id: string, displayLabel: string, composition: string, pose: string,
                       narrative: string, previewUrl: string)

  datatype Session = Session(id: string, title: string, system: CameraSystem, persona: Persona,
                             shots: seq<Shot>)

  datatype PhotographyMode = ScriptMode | PortraitMode

  /** `primaryPreset?.data[k] || fallback` */
  function PresetFieldOr(primary: Option<Preset>, k: FieldKey, fallback: string): (r: string)
    ensures primary.Some? && Truthy(primary.value.data, k) ==> r == primary.value.data[k]
    ensures !(primary.Some? && Truthy(primary.value.data, k)) ==> r == fallback
  {
    if primary.Some? && Truthy(primary.value.data, k) then primary.value.data[k] else fallback
  }

  /** `getPresetsForHighlight(config)[0]`: the resolved preset of the first featured id that
      `HIGHLIGHT_PRESETS` knows, undefined when it knows none of them. */
  function PrimaryPreset(config: Highlight, resolve: Preset -> Preset): (r: Option<Preset>)
    ensures var k := KnownIds(config.featuredPresetIds, HighlightPresets);
      && (r.None? <==> k == [])
      && (r.Some? ==> r.value == resolve(FindPreset(HighlightPresets, k[0]).value))
  {
    var presets := GetPresetsForHighlight(config, resolve);
    if |presets| > 0 then Some(presets[0]) else None
  }

  /** `createSessionFromHighlight`: the collection's id and title, a camera system and a
      persona taken from the primary preset where it says something and from fixed
      defaults elsewhere, and three shots numbered after the collection, all previewing its
      cover. */
  function CreateSessionFromHighlight(config: Highlight, resolve: Preset -> Preset): (s: Session)
    ensures s.id == config.id && s.title == config.title
    ensures |s.shots| == 3
    ensures s.shots[0].id == config.id + "-1" && s.shots[1].id == config.id + "-2"
         && s.shots[2].id == config.id + "-3"
    ensures forall i :: 0 <= i < 3 ==> s.shots[i].previewUrl == config.coverUrl
    ensures var p := PrimaryPreset(config, resolve);
      && s.system == CameraSystem(PresetFieldOr(p, Camera, "Hasselblad H6D-100c"),
                                  PresetFieldOr(p, CameraSettings, "HC 80mm f/1.9"),
                                  PresetFieldOr(p, Lighting, "Cinematic Studio Light"),
                                  "Professional Color Matrix")
      && s.persona == Persona("default-model",
                              PresetFieldOr(p, Subject, "Refined Oriental model"),
                              PresetFieldOr(p, Style, "High-end fashion"),
                              config.subTitle)
  {
    var p := PrimaryPreset(config, resolve);
    Session(
      config.id,
      config.title,
      CameraSystem(PresetFieldOr(p, Camera, "Hasselblad H6D-100c"),
                   PresetFieldOr(p, CameraSettings, "HC 80mm f/1.9"),
                   PresetFieldOr(p, Lighting, "Cinematic Studio Light"),
                   "Professional Color Matrix"),
      Persona("default-model",
              PresetFieldOr(p, Subject, "Refined Oriental model"),
              PresetFieldOr(p, Style, "High-end fashion"),
              config.subTitle),
      [ Shot(config.id + "-1", "分镜 - 特写", "Extreme Close-up", "Facing Camera", "聚焦神韵与细节", config.coverUrl),
        Shot(config.id + "-2", "分镜 - 中景", "Medium Shot", "Side Profile", "展现姿态与环境互动", config.coverUrl),
        Shot(config.id + "-3", "分镜 - 远景", "Wide Shot", "Atmospheric", "整体氛围与叙事", config.coverUrl) ])
  }

  /** The three shots of a session have distinct ids. */
  lemma ShotIdsDistinct(config: Highlight, resolve: Preset -> Preset)
    ensures var s := CreateSessionFromHighlight(config, resolve);
      forall i, j :: 0 <= i < j < 3 ==> s.shots[i].id != s.shots[j].id
  {
    var s := CreateSessionFromHighlight(config, resolve);
    var n := |config.id|;
    assert s.shots[0].id[n + 1] == '1';
    assert s.shots[1].id[n + 1] == '2';
    assert s.shots[2].id[n + 1] == '3';
  }

  /** For the shipped monochrome collection, whose preset names a camera, lighting and
      subject but no camera settings or style, the session takes the preset's values and
      falls back for the rest (media resolution leaves a preset's data alone). */
  lemma MonochromeSession(resolve: Preset -> Preset)
    requires forall p :: resolve(p).data == p.data
    ensures var s := CreateSessionFromHighlight(HighlightConfigs[6], resolve);
      && s.system == CameraSystem("Leica M11 Monochrom", "HC 80mm f/1.9",
                                  "precise studio key light", "Professional Color Matrix")
      && s.persona == Persona("default-model",
                              "Extreme detail of 25-year-old male face, bone structure focus",
                              "High-end fashion", "Studio Monochrome")
  {
    PrimaryOfShipped(6, resolve);
    assert HighlightPresets[6] == MonochromePreset;
    MonochromeFields(resolve(MonochromePreset));
  }

  /** What a preset carrying the monochrome data gives each field of a session. */
  lemma MonochromeFields(q: Preset)
    requires q.data == MonochromePreset.data
    ensures PresetFieldOr(Some(q), Camera, "Hasselblad H6D-100c") == "Leica M11 Monochrom"
    ensures PresetFieldOr(Some(q), CameraSettings, "HC 80mm f/1.9") == "HC 80mm f/1.9"
    ensures PresetFieldOr(Some(q), Lighting, "Cinematic Studio Light") == "precise studio key light"
    ensures PresetFieldOr(Some(q), Subject, "Refined Oriental model")
      == "Extreme detail of 25-year-old male face, bone structure focus"
    ensures PresetFieldOr(Some(q), Style, "High-end fashion") == "High-end fashion"
  {
    var data := MonochromePreset.data;
    assert data[Camera] == "Leica M11 Monochrom" && data[Lighting] == "precise studio key light";
    assert data[Subject] == "Extreme detail of 25-year-old male face, bone structure focus";
    assert CameraSettings !in data && Style !in data;
  }

  /** The primary preset of a shipped collection is its featured preset, resolved. */
  lemma PrimaryOfShipped(i: nat, resolve: Preset -> Preset)
    requires i < |HighlightConfigs|
    ensures PrimaryPreset(HighlightConfigs[i], resolve) == Some(resolve(HighlightPresets[i]))
  {
    ShippedHighlightResolves(i, resolve);
  }

  /** `items.find(x => idOf(x) === id)`: the first item with that id, if any. */
  function FindFirst<T(==)>(items: seq<T>, idOf: T -> string, id: string): (r: Option<T>)
    ensures r.Some? ==>
      exists i :: 0 <= i < |items| && items[i] == r.value && idOf(r.value) == id &&
        (forall j :: 0 <= j < i ==> idOf(items[j]) != id)
    ensures r.None? <==> forall j :: 0 <= j < |items| ==> idOf(items[j]) != id
  {
    if items == [] then None
    else if idOf(items[0]) == id then Some(items[0])
    else
      var r := FindFirst(items[1..], idOf, id);
      assert forall j :: 1 <= j < |items| ==> items[j] == items[1..][j - 1];
      if r.Some? then
        var i :| 0 <= i < |items| - 1 && items[1..][i] == r.value && idOf(r.value) == id
          && forall j :: 0 <= j < i ==> idOf(items[1..][j]) != id;
        assert items[i + 1] == r.value;
        r
      else
        r
  }

  /** `sessions.find(s => s.id === id) || sessions[0]`: the first session with that id, or
      the first session when none has it. */
  function ActiveSession(sessions: seq<Session>, id: string): (r: Session)
    requires |sessions| > 0
    ensures r in sessions
    ensures (exists i :: 0 <= i < |sessions| && sessions[i].id == id) ==>
      exists i :: 0 <= i < |sessions| && sessions[i] == r && r.id == id &&
        (forall j :: 0 <= j < i ==> sessions[j].id != id)
    ensures (forall i :: 0 <= i < |sessions| ==> sessions[i].id != id) ==> r == sessions[0]
  {
    match FindFirst(sessions, (s: Session) => s.id, id)
    case Some(s) => s
    case None => sessions[0]
  }

  /** `session.shots.find(s => s.id === id) || session.shots[0]`: the first shot with that
      id, or the first shot when none has it. */
  function ActiveShot(session: Session, id: string): (r: Shot)
    requires |session.shots| > 0
    ensures r in session.shots
    ensures (exists i :: 0 <= i < |session.shots| && session.shots[i].id == id) ==>
      exists i :: 0 <= i < |session.shots| && session.shots[i] == r && r.id == id &&
        (forall j :: 0 <= j < i ==> session.shots[j].id != id)
    ensures (forall i :: 0 <= i < |session.shots| ==> session.shots[i].id != id) ==>
      r == session.shots[0]
  {
    match FindFirst(session.shots, (s: Shot) => s.id, id)
    case Some(s) => s
    case None => session.shots[0]
  }

  /** The key of a result: `${activeSessionId}-${activeShotId}`. */
  function ResultKey(sessionId: string, shotId: string): string {
    sessionId + "-" + shotId
  }

  /** Within one session, different shots never share a result key. */
  lemma ResultKeysSeparateShots(sessionId: string, a: string, b: string)
    requires a != b
    ensures ResultKey(sessionId, a) != ResultKey(sessionId, b)
  {
    var p := sessionId + "-";
    assert (p + a)[|p|..] == a;
    assert (p + b)[|p|..] == b;
  }

  /** The page's `useState` slots; `sessions` never changes after the first render. */
  class Page {
    const sessions: seq<Session>
    var activeSessionId: string
    var mode: PhotographyMode
    var activeShotId: string
    var isRendering: bool
    var sessionResults: map<string, string>
    var refImage: Option<string>
    var isLocked: bool

    ghost predicate Valid()
      reads this
    {
      |sessions| > 0 && forall i :: 0 <= i < |sessions| ==> |sessions[i].shots| > 0
    }

    function CurrentSession(): Session
      reads this
      requires Valid()
    {
      ActiveSession(sessions, activeSessionId)
    }

    function CurrentShot(): Shot
      reads this
      requires Valid()
    {
      var s := CurrentSession();
      assert s in sessions;
      ActiveShot(s, activeShotId)
    }

    /** The initial state: one session per collection, the first session and its first shot,
        script mode, no results and no reference image. */
    constructor (configs: seq<Highlight>, resolve: Preset -> Preset)
      requires |configs| > 0
      ensures Valid()
      ensures |sessions| == |configs|
      ensures forall i :: 0 <= i < |configs| ==> sessions[i] == CreateSessionFromHighlight(configs[i], resolve)
      ensures activeSessionId == configs[0].id && activeShotId == configs[0].id + "-1"
      ensures mode == ScriptMode && !isRendering && sessionResults == map[]
      ensures refImage == None && !isLocked
    {
      sessions := seq(|configs|, i requires 0 <= i < |configs| => CreateSessionFromHighlight(configs[i], resolve));
      activeSessionId := configs[0].id;
      mode := ScriptMode;
      activeShotId := configs[0].id + "-1";
      isRendering := false;
      sessionResults := map[];
      refImage := None;
      isLocked := false;
    }

    /** Picking a session; when the id changes, the effect moves to that session's first
        shot. */
    method SelectSession(id: string)
      requires Valid()
      modifies this`activeSessionId, this`activeShotId
      ensures Valid()
      ensures activeSessionId == id
      ensures id != old(activeSessionId) ==> activeShotId == CurrentSession().shots[0].id
      ensures id == old(activeSessionId) ==> activeShotId == old(activeShotId)
    {
      if id != activeSessionId {
        activeSessionId := id;
        var s := CurrentSession();
        assert s in sessions;
        activeShotId := s.shots[0].id;
      }
    }

    /** `onShotSelect` */
    method SelectShot(id: string)
      requires Valid()
      modifies this`activeShotId
      ensures Valid()
      ensures activeShotId == id
    {
      activeShotId := id;
    }

    /** The script/portrait switch. */
    method SetMode(m: PhotographyMode)
      requires Valid()
      modifies this`mode
      ensures Valid()
      ensures mode == m
    {
      mode := m;
    }

    /** `onImageUpload`: stores the image and locks, even when the image is cleared. */
    method OnImageUpload(img: string)
      requires Valid()
      modifies this`refImage, this`isLocked
      ensures Valid()
      ensures refImage == Some(img) && isLocked
    {
      refImage := Some(img);
      isLocked := true;
    }

    /** In portrait mode, shooting needs a truthy reference image. */
    predicate ShootBlocked()
      reads this
    {
      mode == PortraitMode && (refImage.None? || refImage.value == "")
    }

    /** `handleShoot`, with the prompt compiler and the generator's outcome as parameters
        (`None` when generation throws). Returns the compiled prompt, or nothing when
        blocked. A success records the url under the current session and shot and keeps
        every other result; the rendering flag ends false either way. */
    method HandleShoot(compile: (Session, Shot) -> string, outcome: Option<string>)
      returns (prompt: Option<string>)
      requires Valid()
      modifies this`isRendering, this`sessionResults
      ensures Valid()
      ensures old(ShootBlocked()) ==>
        prompt == None && isRendering == old(isRendering) && sessionResults == old(sessionResults)
      ensures !old(ShootBlocked()) ==>
        && prompt == Some(compile(CurrentSession(), CurrentShot()))
        && !isRendering
        && (outcome.Some? ==>
              sessionResults == old(sessionResults)[ResultKey(activeSessionId, activeShotId) := outcome.value])
        && (outcome.None? ==> sessionResults == old(sessionResults))
    {
      if ShootBlocked() {
        return None;
      }
      isRendering := true;
      var finalPrompt := compile(CurrentSession(), CurrentShot());
      if outcome.Some? {
        sessionResults := sessionResults[ResultKey(activeSessionId, activeShotId) := outcome.value];
      }
      isRendering := false;
      prompt := Some(finalPrompt);
    }
  }
}
