/** `WWTDataViewerBase`: the viewer that keeps the renderer client in step
    with the viewer state, routes data layers to layer artists, and records
    and restores the camera in saved sessions. The renderer client is modelled
    as the ordered log of the writes the viewer makes to it. */
module DataViewer {
  import opened Wrappers

  /** The part of the viewer state that the synchronisation reads. */
  datatype ViewState = ViewState(
    mode: string,
    foreground: string,
    background: string,
    foregroundOpacity: real,
    galactic: bool,
    imageryLayers: seq<string>)

  /** One attribute write or call on the renderer client, in issue order. */
  datatype Write =
    | ActualPlanetScale(on: bool)
    | SetView(mode: string)
    | Cosmos(shown: bool)
    | Stars(shown: bool)
    | Foreground(name: string)
    | Background(name: string)
    | ForegroundOpacity(opacity: real)
    | GalacticMode(on: bool)
    | CenterOnCoordinates(ra: real, dec: real, fov: real, instant: bool)

  /** The name of a view-state setting, as `_update_wwt` receives it among
      its keyword arguments: the five that the synchronisation reads, and any
      other attribute of the state. */
  datatype Setting =
    | ModeSetting            // 'mode'
    | ForegroundSetting      // 'foreground'
    | BackgroundSetting      // 'background'
    | OpacitySetting         // 'foreground_opacity'
    | GalacticSetting        // 'galactic'
    | OtherSetting(name: string)

  /** The settings whose change re-applies an imagery attribute. */
  const ImagerySettings: set<Setting> := {ForegroundSetting, BackgroundSetting, OpacitySetting, GalacticSetting}

  predicate IsImagery(w: Write) {
    w.Foreground? || w.Background? || w.ForegroundOpacity? || w.GalacticMode?
  }

  /** The state setting whose value a synchronisation write carries. */
  function SettingOf(w: Write): Setting {
    match w
    case Foreground(_) => ForegroundSetting
    case Background(_) => BackgroundSetting
    case ForegroundOpacity(_) => OpacitySetting
    case GalacticMode(_) => GalacticSetting
    case _ => ModeSetting
  }

  /** The place of a write in the fixed order of one synchronisation. */
  function Rank(w: Write): nat {
    match w
    case SetView(_) => 0
    case Cosmos(_) => 1
    case Stars(_) => 2
    case Foreground(_) => 3
    case Background(_) => 4
    case ForegroundOpacity(_) => 5
    case GalacticMode(_) => 6
    case _ => 7
  }

  /** The view mode and the two solar-system flags derived from it: SDSS
      galaxies only in Universe mode, nearby stars except in Universe and
      Milky Way modes. */
  function ModeSync(st: ViewState): seq<Write> {
    [ SetView(st.mode),
      Cosmos(st.mode == "Universe"),
      Stars(st.mode != "Universe" && st.mode != "Milky Way") ]
  }

  /** The four imagery attributes, foreground before background. */
  function ImagerySync(st: ViewState): seq<Write> {
    [ Foreground(st.foreground),
      Background(st.background),
      ForegroundOpacity(st.foregroundOpacity),
      GalacticMode(st.galactic) ]
  }

  /** Every write a synchronisation can issue for state `st`, in issue order. */
  function FullSync(st: ViewState): seq<Write> {
    ModeSync(st) + ImagerySync(st)
  }

  /** Whether a call with these arguments issues the write `w` of `FullSync`:
      mode writes on a forced or mode-changing call; an imagery write only in
      Sky mode, and then when the call is forced, changes the mode, or changes
      that write's own setting. */
  predicate Selected(w: Write, force: bool, changed: set<Setting>, st: ViewState) {
    var modeSync := force || ModeSetting in changed;
    if IsImagery(w) then st.mode == "Sky" && (modeSync || SettingOf(w) in changed)
    else modeSync
  }

  /** The writes of `ws` that are selected, in their order in `ws`. */
  function Keep(ws: seq<Write>, force: bool, changed: set<Setting>, st: ViewState): seq<Write> {
    if ws == [] then []
    else (if Selected(ws[0], force, changed, st) then [ws[0]] else []) + Keep(ws[1..], force, changed, st)
  }

  /** The writes of one `_update_wwt(force, **changed)` call in state `st`. */
  function SyncWrites(force: bool, changed: set<Setting>, st: ViewState): seq<Write> {
    Keep(FullSync(st), force, changed, st)
  }

  /** `Keep` keeps exactly the selected writes. */
  lemma {:induction false} KeepMembers(ws: seq<Write>, force: bool, changed: set<Setting>, st: ViewState)
    ensures forall i :: 0 <= i < |Keep(ws, force, changed, st)| ==>
      Keep(ws, force, changed, st)[i] in ws && Selected(Keep(ws, force, changed, st)[i], force, changed, st)
    ensures forall w :: w in ws && Selected(w, force, changed, st) ==> w in Keep(ws, force, changed, st)
  {
    if ws != [] {
      KeepMembers(ws[1..], force, changed, st);
      var tail := Keep(ws[1..], force, changed, st);
      var r := Keep(ws, force, changed, st);
      var head := if Selected(ws[0], force, changed, st) then [ws[0]] else [];
      assert r == head + tail;
      forall i | 0 <= i < |r| ensures r[i] in ws && Selected(r[i], force, changed, st) {
        if i >= |head| {
          assert r[i] == tail[i - |head|];
          assert tail[i - |head|] in ws[1..];
        }
      }
      forall w | w in ws && Selected(w, force, changed, st) ensures w in r {
        if w != ws[0] {
          assert w in ws[1..];
        }
      }
    }
  }

  lemma {:induction false} KeepAppend(a: seq<Write>, b: seq<Write>, force: bool, changed: set<Setting>, st: ViewState)
    ensures Keep(a + b, force, changed, st) == Keep(a, force, changed, st) + Keep(b, force, changed, st)
  {
    if a == [] {
      assert a + b == b;
    } else {
      assert (a + b)[0] == a[0];
      assert (a + b)[1..] == a[1..] + b;
      KeepAppend(a[1..], b, force, changed, st);
    }
  }

  lemma SeqAssoc<T>(a: seq<T>, b: seq<T>, c: seq<T>)
    ensures a + b + c == a + (b + c)
  {
  }

  function Opt(b: bool, w: Write): seq<Write> {
    if b then [w] else []
  }

  /** The selected writes, spelled out write by write in the order of
      `FullSync`. */
  lemma SyncWritesSteps(force: bool, changed: set<Setting>, st: ViewState)
    ensures var m := force || ModeSetting in changed;
      var sky := st.mode == "Sky";
      SyncWrites(force, changed, st)
      == (if m then ModeSync(st) else [])
         + Opt(sky && (m || ForegroundSetting in changed), Foreground(st.foreground))
         + Opt(sky && (m || BackgroundSetting in changed), Background(st.background))
         + Opt(sky && (m || OpacitySetting in changed), ForegroundOpacity(st.foregroundOpacity))
         + Opt(sky && (m || GalacticSetting in changed), GalacticMode(st.galactic))
  {
    KeepAppend(ModeSync(st), ImagerySync(st), force, changed, st);
    ModeSteps(force, changed, st);
    ImagerySteps(force, changed, st);
  }

  lemma ModeSteps(force: bool, changed: set<Setting>, st: ViewState)
    ensures Keep(ModeSync(st), force, changed, st)
            == if force || ModeSetting in changed then ModeSync(st) else []
  {
    var ms := ModeSync(st);
    assert ms[1..][1..][1..] == [];
    assert Keep(ms[1..][1..], force, changed, st) == Opt(force || ModeSetting in changed, ms[2]);
  }

  lemma ImagerySteps(force: bool, changed: set<Setting>, st: ViewState)
    ensures var m := force || ModeSetting in changed;
      var sky := st.mode == "Sky";
      Keep(ImagerySync(st), force, changed, st)
      == Opt(sky && (m || ForegroundSetting in changed), Foreground(st.foreground))
         + (Opt(sky && (m || BackgroundSetting in changed), Background(st.background))
         + (Opt(sky && (m || OpacitySetting in changed), ForegroundOpacity(st.foregroundOpacity))
         + Opt(sky && (m || GalacticSetting in changed), GalacticMode(st.galactic))))
  {
    var im := ImagerySync(st);
    KeepCons(im, force, changed, st);
    KeepCons(im[1..], force, changed, st);
    KeepCons(im[2..], force, changed, st);
    KeepCons(im[3..], force, changed, st);
    assert im[1..][1..] == im[2..];
    assert im[2..][1..] == im[3..];
    assert im[3..][1..] == [];
  }

  lemma KeepCons(ws: seq<Write>, force: bool, changed: set<Setting>, st: ViewState)
    requires ws != []
    ensures Keep(ws, force, changed, st)
            == Opt(Selected(ws[0], force, changed, st), ws[0]) + Keep(ws[1..], force, changed, st)
  {
  }

  predicate RankIncreasing(ws: seq<Write>) {
    forall i, j :: 0 <= i < j < |ws| ==> Rank(ws[i]) < Rank(ws[j])
  }

  lemma {:induction false} KeepIncreasing(ws: seq<Write>, force: bool, changed: set<Setting>, st: ViewState)
    requires RankIncreasing(ws)
    ensures RankIncreasing(Keep(ws, force, changed, st))
  {
    if ws != [] {
      var tail := Keep(ws[1..], force, changed, st);
      KeepIncreasing(ws[1..], force, changed, st);
      KeepMembers(ws[1..], force, changed, st);
      forall i | 0 <= i < |tail| ensures Rank(ws[0]) < Rank(tail[i]) {
        assert tail[i] in ws[1..];
        var k :| 0 <= k < |ws[1..]| && ws[1..][k] == tail[i];
        assert ws[k + 1] == tail[i];
      }
    }
  }

  /** Writes come in the fixed order set_view, cosmos, stars, foreground,
      background, foreground_opacity, galactic_mode, each at most once. */
  lemma SyncOrder(force: bool, changed: set<Setting>, st: ViewState)
    ensures RankIncreasing(SyncWrites(force, changed, st))
  {
    KeepIncreasing(FullSync(st), force, changed, st);
  }

  /** A forced or mode-changing call starts with set_view and the two derived
      flags; any other call issues none of the three. */
  lemma SyncModeWrites(force: bool, changed: set<Setting>, st: ViewState)
    ensures var w := SyncWrites(force, changed, st);
      (force || ModeSetting in changed ==>
        |w| >= 3 &&
        w[..3] == [SetView(st.mode),
                   Cosmos(st.mode == "Universe"),
                   Stars(st.mode !in {"Universe", "Milky Way"})])
      && (!(force || ModeSetting in changed) ==> forall i :: 0 <= i < |w| ==> IsImagery(w[i]))
  {
    SyncWritesSteps(force, changed, st);
  }

  /** Every write carries the current state's value, and no imagery attribute
      is written outside Sky mode. */
  lemma SyncValues(force: bool, changed: set<Setting>, st: ViewState)
    ensures var w := SyncWrites(force, changed, st);
      forall i :: 0 <= i < |w| ==> w[i] in FullSync(st) && (IsImagery(w[i]) ==> st.mode == "Sky")
  {
    var w := SyncWrites(force, changed, st);
    KeepMembers(FullSync(st), force, changed, st);
    forall i | 0 <= i < |w| ensures w[i] in FullSync(st) && (IsImagery(w[i]) ==> st.mode == "Sky") {
      assert Selected(w[i], force, changed, st);
    }
  }

  /** An imagery attribute is written exactly when the mode is Sky and the call
      is forced, changes the mode, or changes that attribute's setting. */
  lemma SyncImageryGate(force: bool, changed: set<Setting>, st: ViewState, name: Setting)
    requires name in ImagerySettings
    ensures var w := SyncWrites(force, changed, st);
      (exists i :: 0 <= i < |w| && IsImagery(w[i]) && SettingOf(w[i]) == name)
      <==> st.mode == "Sky" && (force || ModeSetting in changed || name in changed)
  {
    var w := SyncWrites(force, changed, st);
    var full := FullSync(st);
    var k := match name
      case ForegroundSetting => 3
      case BackgroundSetting => 4
      case OpacitySetting => 5
      case _ => 6;
    assert IsImagery(full[k]) && SettingOf(full[k]) == name;
    KeepMembers(full, force, changed, st);
    if st.mode == "Sky" && (force || ModeSetting in changed || name in changed) {
      assert full[k] in w;
    }
  }

  /** A mode change escalates to a forced update: in every mode it issues
      exactly the writes of a forced call. */
  lemma SyncModeChangeIsForced(changed: set<Setting>, st: ViewState)
    requires ModeSetting in changed
    ensures SyncWrites(false, changed, st) == SyncWrites(true, {}, st)
  {
    SyncWritesSteps(false, changed, st);
    SyncWritesSteps(true, {}, st);
  }

  /** In Sky mode a mode change therefore rewrites everything. */
  lemma SyncModeChangeInSky(changed: set<Setting>, st: ViewState)
    requires ModeSetting in changed && st.mode == "Sky"
    ensures SyncWrites(false, changed, st) == FullSync(st)
  {
    SyncModeChangeIsForced(changed, st);
    SyncWritesSteps(true, {}, st);
  }

  /** A call issues nothing exactly when it is neither forced nor changes the
      mode, and either the mode is not Sky or no imagery setting changed. */
  lemma SyncQuiet(force: bool, changed: set<Setting>, st: ViewState)
    ensures SyncWrites(force, changed, st) == []
            <==> !(force || ModeSetting in changed)
                 && (st.mode != "Sky" || forall n :: n in ImagerySettings ==> n !in changed)
  {
    SyncWritesSteps(force, changed, st);
  }

  /** What the renderer shows after the writes, for the attributes this
      viewer synchronises. */
  datatype Renderer = Renderer(
    view: string,
    cosmos: bool,
    stars: bool,
    foreground: string,
    background: string,
    foregroundOpacity: real,
    galacticMode: bool)

  function Apply(r: Renderer, w: Write): Renderer {
    match w
    case SetView(m) => r.(view := m)
    case Cosmos(b) => r.(cosmos := b)
    case Stars(b) => r.(stars := b)
    case Foreground(n) => r.(foreground := n)
    case Background(n) => r.(background := n)
    case ForegroundOpacity(o) => r.(foregroundOpacity := o)
    case GalacticMode(b) => r.(galacticMode := b)
    case _ => r
  }

  function ApplyAll(r: Renderer, ws: seq<Write>): Renderer
    decreases |ws|
  {
    if ws == [] then r else ApplyAll(Apply(r, ws[0]), ws[1..])
  }

  /** The renderer shows state `st`: its mode and derived flags, and in Sky
      mode its imagery. */
  predicate Shows(r: Renderer, st: ViewState) {
    && r.view == st.mode
    && r.cosmos == (st.mode == "Universe")
    && r.stars == (st.mode != "Universe" && st.mode != "Milky Way")
    && (st.mode == "Sky" ==>
          r.foreground == st.foreground && r.background == st.background
          && r.foregroundOpacity == st.foregroundOpacity && r.galacticMode == st.galactic)
  }

  /** After a forced call the renderer shows the state, whatever it showed
      before; outside Sky mode the imagery attributes are left as they were. */
  lemma ForcedSyncShows(r: Renderer, changed: set<Setting>, st: ViewState)
    ensures var r' := ApplyAll(r, SyncWrites(true, changed, st));
      Shows(r', st)
      && (st.mode != "Sky" ==>
            r'.foreground == r.foreground && r'.background == r.background
            && r'.foregroundOpacity == r.foregroundOpacity && r'.galacticMode == r.galacticMode)
  {
    SyncWritesSteps(true, changed, st);
    var ms := ModeSync(st);
    var im := if st.mode == "Sky" then ImagerySync(st) else [];
    assert SyncWrites(true, changed, st) == ms + im;
    ApplyAllAppend(r, ms, im);
    ApplyAllMode(r, st);
    if st.mode == "Sky" {
      ApplyAllImagery(ApplyAll(r, ms), st);
    }
  }

  lemma ApplyAllMode(r: Renderer, st: ViewState)
    ensures ApplyAll(r, ModeSync(st))
            == r.(view := st.mode, cosmos := st.mode == "Universe",
                  stars := st.mode != "Universe" && st.mode != "Milky Way")
  {
    var ms := ModeSync(st);
    var r1 := Apply(r, ms[0]);
    var r2 := Apply(r1, ms[1]);
    var r3 := Apply(r2, ms[2]);
    assert ApplyAll(r, ms) == ApplyAll(r1, ms[1..]);
    assert ApplyAll(r1, ms[1..]) == ApplyAll(r2, ms[2..]);
    assert ApplyAll(r2, ms[2..]) == ApplyAll(r3, ms[3..]);
    assert ms[3..] == [];
  }

  lemma ApplyAllImagery(r: Renderer, st: ViewState)
    ensures ApplyAll(r, ImagerySync(st))
            == r.(foreground := st.foreground, background := st.background,
                  foregroundOpacity := st.foregroundOpacity, galacticMode := st.galactic)
  {
    var im := ImagerySync(st);
    var r1 := Apply(r, im[0]);
    var r2 := Apply(r1, im[1]);
    var r3 := Apply(r2, im[2]);
    var r4 := Apply(r3, im[3]);
    assert ApplyAll(r, im) == ApplyAll(r1, im[1..]);
    assert ApplyAll(r1, im[1..]) == ApplyAll(r2, im[2..]);
    assert ApplyAll(r2, im[2..]) == ApplyAll(r3, im[3..]);
    assert ApplyAll(r3, im[3..]) == ApplyAll(r4, im[4..]);
    assert im[4..] == [];
  }

  lemma {:induction false} ApplyAllAppend(r: Renderer, a: seq<Write>, b: seq<Write>)
    ensures ApplyAll(r, a + b) == ApplyAll(ApplyAll(r, a), b)
    decreases |a|
  {
    if a == [] {
      assert a + b == b;
    } else {
      assert (a + b)[0] == a[0];
      assert (a + b)[1..] == a[1..] + b;
      ApplyAllAppend(Apply(r, a[0]), a[1..], b);
    }
  }

  lemma {:induction false} ApplyAllStable(r: Renderer, ws: seq<Write>, st: ViewState)
    requires Shows(r, st)
    requires forall i :: 0 <= i < |ws| ==> ws[i] in FullSync(st) && (IsImagery(ws[i]) ==> st.mode == "Sky")
    ensures ApplyAll(r, ws) == r
  {
    if ws != [] {
      assert ws[0] in FullSync(st);
      assert Apply(r, ws[0]) == r;
      ApplyAllStable(r, ws[1..], st);
    }
  }

  /** Once the renderer shows the state, any further call for the same state,
      forced or not, leaves it as it is; in particular forcing twice is the
      same as forcing once. */
  lemma SyncIdempotent(r: Renderer, force: bool, changed: set<Setting>, st: ViewState)
    requires Shows(r, st)
    ensures ApplyAll(r, SyncWrites(force, changed, st)) == r
  {
    SyncValues(force, changed, st);
    ApplyAllStable(r, SyncWrites(force, changed, st), st);
  }

  /** The viewer: its state and the writes it has made to the renderer. */
  class Viewer {
    var state: ViewState
    var log: seq<Write>

    /** `__init__`: the planet-scale flag, the imagery list taken from the
        renderer, then a forced synchronisation. */
    constructor(st: ViewState, availableLayers: seq<string>)
      ensures state == st.(imageryLayers := availableLayers)
      ensures log == [ActualPlanetScale(true)] + SyncWrites(true, {}, state)
    {
      log := [ActualPlanetScale(true)];
      state := st.(imageryLayers := availableLayers);
      new;
      UpdateWwt(true, {});
    }

    /** `_update_wwt(force, **changed)`: a forced or mode-changing call sets
        the mode and its two derived flags and then forces the imagery; in Sky
        mode each imagery attribute is set when forced or when its own setting
        changed. */
    method UpdateWwt(force: bool, changed: set<Setting>)
      modifies this`log
      ensures log == old(log) + SyncWrites(force, changed, state)
    {
      var forced := force;
      ghost var emitted: seq<Write> := [];
      if force || ModeSetting in changed {
        log := log + [SetView(state.mode)];
        log := log + [Cosmos(state.mode == "Universe")];
        log := log + [Stars(state.mode !in ["Universe", "Milky Way"])];
        forced := true;
        emitted := ModeSync(state);
      }
      assert log == old(log) + emitted;
      var showImagery := state.mode == "Sky";
      ghost var w := Opt(showImagery && (forced || ForegroundSetting in changed), Foreground(state.foreground));
      WriteIf(showImagery && (forced || ForegroundSetting in changed), Foreground(state.foreground));
      SeqAssoc(old(log), emitted, w);
      emitted := emitted + w;
      w := Opt(showImagery && (forced || BackgroundSetting in changed), Background(state.background));
      WriteIf(showImagery && (forced || BackgroundSetting in changed), Background(state.background));
      SeqAssoc(old(log), emitted, w);
      emitted := emitted + w;
      w := Opt(showImagery && (forced || OpacitySetting in changed), ForegroundOpacity(state.foregroundOpacity));
      WriteIf(showImagery && (forced || OpacitySetting in changed), ForegroundOpacity(state.foregroundOpacity));
      SeqAssoc(old(log), emitted, w);
      emitted := emitted + w;
      w := Opt(showImagery && (forced || GalacticSetting in changed), GalacticMode(state.galactic));
      WriteIf(showImagery && (forced || GalacticSetting in changed), GalacticMode(state.galactic));
      SeqAssoc(old(log), emitted, w);
      emitted := emitted + w;
      SyncWritesSteps(force, changed, state);
    }

    /** One guarded assignment to a renderer attribute. */
    method WriteIf(cond: bool, w: Write)
      modifies this`log
      ensures log == old(log) + Opt(cond, w)
    {
      if cond {
        log := log + [w];
      }
    }
  }

  /** What a data layer offers to the routing decision. */
  datatype Layer = Layer(layerLabel: string, pixelComponentIds: nat, coordsAreWcs: bool, ndim: nat)

  datatype ArtistClass = ImageLayerArtist | TableLayerArtist

  /** `get_data_layer_artist`: two pixel components make an image layer, which
      needs WCS coordinates; otherwise a one-dimensional layer is a table. */
  function DataLayerArtist(layer: Layer): (r: Result<ArtistClass, PyError>)
    ensures r == Ok(ImageLayerArtist) <==> layer.pixelComponentIds == 2 && layer.coordsAreWcs
    ensures r == Ok(TableLayerArtist) <==> layer.pixelComponentIds != 2 && layer.ndim == 1
    ensures r.Err? ==> r.error.ValueError?
    ensures layer.pixelComponentIds == 2 && !layer.coordsAreWcs ==>
      r == Err(ValueError("WWT cannot render image layer " + layer.layerLabel + ": it must have WCS coordinates"))
  {
    if layer.pixelComponentIds == 2 then
      if !layer.coordsAreWcs then
        Err(ValueError("WWT cannot render image layer " + layer.layerLabel + ": it must have WCS coordinates"))
      else Ok(ImageLayerArtist)
    else if layer.ndim == 1 then Ok(TableLayerArtist)
    else Err(ValueError("WWT does not know how to render the data of " + layer.layerLabel))
  }

  /** `get_subset_layer_artist`: a subset is routed exactly as its data. */
  function SubsetLayerArtist(layer: Layer): (r: Result<ArtistClass, PyError>)
    ensures r == DataLayerArtist(layer)
  {
    DataLayerArtist(layer)
  }

  /** A value stored in a saved session record: a dictionary of numbers (such
      as the camera entry) or anything else. */
  datatype RecordValue = Dict(fields: map<string, real>) | OtherValue

  /** `dict.get(key, default)`. */
  function Get(m: map<string, real>, key: string, default: real): real {
    if key in m then m[key] else default
  }

  /** `__gluestate__`: the session record gains a `"camera"` entry holding the
      renderer's centre and field of view; the other entries are kept. */
  function SaveGlueState(base: map<string, RecordValue>, ra: real, dec: real, fov: real): (rec: map<string, RecordValue>)
    ensures rec.Keys == base.Keys + {"camera"}
    ensures rec["camera"] == Dict(map["ra" := ra, "dec" := dec, "fov" := fov])
    ensures forall k :: k in base && k != "camera" ==> rec[k] == base[k]
  {
    base["camera" := Dict(map["ra" := ra, "dec" := dec, "fov" := fov])]
  }

  /** The declination is checked when `SkyCoord` builds the position: a
      latitude outside [-90, 90] degrees is a ValueError. */
  predicate LatitudeInRange(dec: real) {
    -90.0 <= dec <= 90.0
  }

  const LatitudeError := "Latitude angle(s) must be within -90 deg <= angle <= 90 deg"

  /** `__setgluestate__`, camera part: without a `"camera"` entry nothing is
      done; otherwise the renderer is centred on the stored position at once,
      with ra 0, dec 0 and fov 60 for fields that are missing. A camera entry
      that is not a dictionary fails on `.get`, and a declination outside
      [-90, 90] fails when the `SkyCoord` is built. */
  function RestoreCamera(rec: map<string, RecordValue>): (r: Result<Option<Write>, PyError>)
    ensures "camera" !in rec ==> r == Ok(None)
    ensures "camera" in rec && rec["camera"].OtherValue? ==> r == Err(AttributeError("get"))
    ensures "camera" in rec && rec["camera"].Dict? ==>
      (r.Err? <==> !LatitudeInRange(Get(rec["camera"].fields, "dec", 0.0)))
    ensures "camera" in rec && rec["camera"].Dict? && r.Err? ==> r == Err(ValueError(LatitudeError))
    ensures "camera" in rec && rec["camera"].Dict? && r.Ok? ==> r.value.Some?
    ensures r.Ok? && r.value.Some? ==>
      r.value.value.CenterOnCoordinates? && r.value.value.instant && LatitudeInRange(r.value.value.dec)
  {
    if "camera" !in rec then Ok(None)
    else match rec["camera"]
      case Dict(camera) =>
        var ra := Get(camera, "ra", 0.0);
        var dec := Get(camera, "dec", 0.0);
        var fov := Get(camera, "fov", 60.0);
        if !LatitudeInRange(dec) then Err(ValueError(LatitudeError))
        else Ok(Some(CenterOnCoordinates(ra, dec, fov, true)))
      case OtherValue => Err(AttributeError("get"))
  }

  /** Restoring a saved session puts the camera back where it was saved. The
      saved declination is the renderer's own, so it is a valid latitude. */
  lemma CameraRoundTrip(base: map<string, RecordValue>, ra: real, dec: real, fov: real)
    requires LatitudeInRange(dec)
    ensures RestoreCamera(SaveGlueState(base, ra, dec, fov)) == Ok(Some(CenterOnCoordinates(ra, dec, fov, true)))
  {
  }

  /** Missing camera fields take the defaults ra 0, dec 0, fov 60; fields that
      are present are used as stored. */
  lemma CameraDefaults(rec: map<string, RecordValue>, camera: map<string, real>)
    requires "camera" in rec && rec["camera"] == Dict(camera)
    ensures var dec := if "dec" in camera then camera["dec"] else 0.0;
      RestoreCamera(rec).Ok? <==> LatitudeInRange(dec)
    ensures RestoreCamera(rec).Ok? ==>
      var w := RestoreCamera(rec).value.value;
      && w.ra == (if "ra" in camera then camera["ra"] else 0.0)
      && w.dec == (if "dec" in camera then camera["dec"] else 0.0)
      && w.fov == (if "fov" in camera then camera["fov"] else 60.0)
  {
  }
}
