/** The Qt driver of the sky renderer: the table of imagery layers the
    renderer offers, the marker collection that draws circles for selected
    sources, the web page that polls the renderer until it is ready, and the
    widget whose property setters check their values before sending a command.
    Every piece of JavaScript sent to the page is modelled as one entry of the
    page's script log. */
module WwtDriver {
  import opened Wrappers
  import opened Text

  /** One circle of a marker batch: its label, centre and style. */
  datatype Circle = Circle(markerLabel: string, ra: real, dec: real, color: string, radius: int)

  /** One `runJavaScript` call on the page. */
  datatype Js =
    | AddCircles(circles: seq<Circle>)            // the concatenated circle snippets of one `draw`
    | RemoveAnnotations(labels: seq<string>)      // one `wwt.removeAnnotation(label);` per label, joined by newlines
    | SetForegroundOpacity(value: real)
    | SetGalacticMode(arg: string)
    | SetForegroundImageByName(name: string)
    | SetBackgroundImageByName(name: string)
    | ReadyQuery                                  // `wwt_ready;`, whose value comes back to the ready callback

  // ---------------------------------------------------------------------
  // The page and its readiness polling
  // ---------------------------------------------------------------------

  /** Whether the page prints a console message: always, except a message
      mentioning `wwt_ready` while a readiness check is running. */
  predicate Prints(checkRunning: bool, message: string) {
    !checkRunning || !Contains(message, "wwt_ready")
  }

  /** A message is suppressed exactly when a check is running and
      `wwt_ready` occurs somewhere in it. */
  lemma PrintsExactly(checkRunning: bool, message: string)
    ensures !Prints(checkRunning, message)
            <==> checkRunning && exists i :: 0 <= i <= |message| && "wwt_ready" <= message[i..]
  {
    ContainsAt(message, "wwt_ready");
  }

  /** `WWTQWebEnginePage`. */
  class Page {
    var scripts: seq<Js>
    var checkRunning: bool
    var timerActive: bool
    var readyEmitted: nat
    var printed: seq<string>
    /** Readiness queries sent whose callback has not come back yet. */
    ghost var outstanding: nat

    /** At most one readiness query is ever outstanding, and `_check_running`
        says whether there is one. */
    ghost predicate Valid()
      reads this
    {
      outstanding <= 1 && (checkRunning <==> outstanding == 1)
    }

    /** `__init__`: the half-second timer is started; no check is running. */
    constructor()
      ensures Valid()
      ensures scripts == [] && printed == [] && readyEmitted == 0
      ensures timerActive && !checkRunning
    {
      scripts := [];
      checkRunning := false;
      timerActive := true;
      readyEmitted := 0;
      printed := [];
      outstanding := 0;
    }

    /** `runJavaScript` without a callback. */
    method RunJavaScript(js: Js)
      modifies this`scripts
      ensures scripts == old(scripts) + [js]
    {
      scripts := scripts + [js];
    }

    /** `_check_ready`: a readiness query is sent only when none is running. */
    method CheckReady()
      requires Valid()
      modifies this`checkRunning, this`scripts, this`outstanding
      ensures Valid()
      ensures checkRunning
      ensures scripts == if old(checkRunning) then old(scripts) else old(scripts) + [ReadyQuery]
      ensures outstanding == 1
    {
      if !checkRunning {
        checkRunning := true;
        scripts := scripts + [ReadyQuery];
        outstanding := outstanding + 1;
      }
    }

    /** One timeout of the timer, which is connected to `_check_ready`; a
        stopped timer does not fire. */
    method Tick()
      requires Valid()
      modifies this`checkRunning, this`scripts, this`outstanding
      ensures Valid()
      ensures !old(timerActive) ==> checkRunning == old(checkRunning) && scripts == old(scripts)
      ensures old(timerActive) ==> checkRunning
      ensures old(timerActive) && !old(checkRunning) ==> scripts == old(scripts) + [ReadyQuery]
      ensures old(checkRunning) ==> scripts == old(scripts)
    {
      if timerActive {
        CheckReady();
      }
    }

    /** `_wwt_ready_callback(result)`: the answer to the outstanding query.
        The flag is always cleared; only an answer of 1 stops the timer and
        emits `wwt_ready`. */
    method ReadyCallback(result: int)
      requires Valid() && checkRunning
      modifies this`checkRunning, this`timerActive, this`readyEmitted, this`outstanding
      ensures Valid()
      ensures !checkRunning && outstanding == 0
      ensures timerActive == (old(timerActive) && result != 1)
      ensures readyEmitted == old(readyEmitted) + (if result == 1 then 1 else 0)
    {
      if result == 1 {
        timerActive := false;
        readyEmitted := readyEmitted + 1;
      }
      checkRunning := false;
      outstanding := outstanding - 1;
    }

    /** `javaScriptConsoleMessage`: the message is printed unless it is the
        echo of a running readiness check. */
    method ConsoleMessage(message: string)
      modifies this`printed
      ensures printed == old(printed) + (if Prints(checkRunning, message) then [message] else [])
    {
      if !checkRunning || !Contains(message, "wwt_ready") {
        printed := printed + [message];
      }
    }
  }

  // ---------------------------------------------------------------------
  // The imagery table
  // ---------------------------------------------------------------------

  /** One `ImageSet` at the root of the surveys catalogue: its `Name`
      attribute and the text of its `ThumbnailUrl` element (`None` when the
      element has no text). */
  datatype Survey = Survey(name: string, thumbnailUrl: Option<string>)

  /** A missing or empty thumbnail URL is stored as `None`. */
  function Thumbnail(url: Option<string>): (t: Option<string>)
    ensures t == None <==> url == None || url == Some("")
    ensures t.Some? ==> t == url
  {
    if url == None || url == Some("") then None else url
  }

  /** The table after storing the surveys one after the other into `m`. */
  function Catalog(m: map<string, Option<string>>, surveys: seq<Survey>): map<string, Option<string>>
    decreases |surveys|
  {
    if surveys == [] then m
    else
      var last := surveys[|surveys| - 1];
      Catalog(m, surveys[..|surveys| - 1])[last.name := Thumbnail(last.thumbnailUrl)]
  }

  /** The table's key order after the same stores: a name is placed when it
      is first stored and keeps its place afterwards. */
  function Order(order: seq<string>, surveys: seq<Survey>): seq<string>
    decreases |surveys|
  {
    if surveys == [] then order
    else
      var last := surveys[|surveys| - 1];
      var before := Order(order, surveys[..|surveys| - 1]);
      if last.name in before then before else before + [last.name]
  }

  /** The names of a list of surveys. */
  function Names(surveys: seq<Survey>): set<string> {
    set i | 0 <= i < |surveys| :: surveys[i].name
  }

  /** The table holds exactly the names it held and the names stored. */
  lemma {:induction false} CatalogKeys(m: map<string, Option<string>>, surveys: seq<Survey>)
    ensures Catalog(m, surveys).Keys == m.Keys + Names(surveys)
    decreases |surveys|
  {
    if surveys != [] {
      var init := surveys[..|surveys| - 1];
      CatalogKeys(m, init);
      assert Names(surveys) == Names(init) + {surveys[|surveys| - 1].name} by {
        forall n | n in Names(surveys) ensures n in Names(init) + {surveys[|surveys| - 1].name} {
          var i :| 0 <= i < |surveys| && surveys[i].name == n;
          if i < |surveys| - 1 {
            assert init[i] == surveys[i];
          }
        }
        forall n | n in Names(init) ensures n in Names(surveys) {
          var i :| 0 <= i < |init| && init[i].name == n;
          assert surveys[i] == init[i];
        }
      }
    }
  }

  /** The last survey stored under a name decides its thumbnail. */
  lemma {:induction false} CatalogLastWins(m: map<string, Option<string>>, surveys: seq<Survey>, i: nat)
    requires i < |surveys|
    requires forall j :: i < j < |surveys| ==> surveys[j].name != surveys[i].name
    ensures surveys[i].name in Catalog(m, surveys)
    ensures Catalog(m, surveys)[surveys[i].name] == Thumbnail(surveys[i].thumbnailUrl)
    decreases |surveys|
  {
    var init := surveys[..|surveys| - 1];
    if i < |surveys| - 1 {
      forall j | i < j < |init| ensures init[j].name != init[i].name {
        assert init[j] == surveys[j];
      }
      CatalogLastWins(m, init, i);
    }
  }

  /** A name that no survey carries keeps what it had. */
  lemma {:induction false} CatalogKeeps(m: map<string, Option<string>>, surveys: seq<Survey>, n: string)
    requires n in m && n !in Names(surveys)
    ensures n in Catalog(m, surveys) && Catalog(m, surveys)[n] == m[n]
    decreases |surveys|
  {
    if surveys != [] {
      var init := surveys[..|surveys| - 1];
      assert surveys[|surveys| - 1].name in Names(surveys);
      assert Names(init) <= Names(surveys) by {
        forall k | k in Names(init) ensures k in Names(surveys) {
          var i :| 0 <= i < |init| && init[i].name == k;
          assert surveys[i] == init[i];
        }
      }
      CatalogKeeps(m, init, n);
    }
  }

  /** Names listed once each, and exactly the table's keys. */
  ghost predicate OrderMatches(order: seq<string>, m: map<string, Option<string>>) {
    (forall i, j :: 0 <= i < j < |order| ==> order[i] != order[j])
    && (forall n :: n in m <==> n in order)
  }

  /** Storing keeps the key order in line with the table. */
  lemma {:induction false} OrderMatchesCatalog(order: seq<string>, m: map<string, Option<string>>, surveys: seq<Survey>)
    requires OrderMatches(order, m)
    ensures OrderMatches(Order(order, surveys), Catalog(m, surveys))
    decreases |surveys|
  {
    if surveys != [] {
      OrderMatchesCatalog(order, m, surveys[..|surveys| - 1]);
    }
  }

  /** A name already in the table keeps its place in the key order. */
  lemma {:induction false} OrderKeepsPlace(order: seq<string>, surveys: seq<Survey>)
    ensures |Order(order, surveys)| >= |order|
    ensures Order(order, surveys)[..|order|] == order
    decreases |surveys|
  {
    if surveys != [] {
      var before := Order(order, surveys[..|surveys| - 1]);
      OrderKeepsPlace(order, surveys[..|surveys| - 1]);
      assert (before + [surveys[|surveys| - 1].name])[..|order|] == before[..|order|];
    }
  }

  /** `WWTImageryLayers`: the `_available_layers` dictionary, with its keys
      in insertion order as Python dictionaries keep them. */
  class ImageryLayers {
    var available: map<string, Option<string>>
    var order: seq<string>

    ghost predicate Valid()
      reads this
    {
      OrderMatches(order, available)
    }

    /** `__init__`: an empty table filled from the catalogue. */
    constructor(surveys: seq<Survey>)
      ensures Valid()
      ensures available == Catalog(map[], surveys)
      ensures order == Order([], surveys)
    {
      available := map[];
      order := [];
      new;
      FetchAvailableLayers(surveys);
    }

    /** `fetch_available_layers`, after the catalogue has been downloaded and
        parsed: each survey's name is stored with its thumbnail URL. */
    method FetchAvailableLayers(surveys: seq<Survey>)
      requires Valid()
      modifies this`available, this`order
      ensures Valid()
      ensures available == Catalog(old(available), surveys)
      ensures order == Order(old(order), surveys)
    {
      ghost var m0, o0 := available, order;
      OrderMatchesCatalog(o0, m0, surveys);
      for i := 0 to |surveys|
        invariant available == Catalog(m0, surveys[..i])
        invariant order == Order(o0, surveys[..i])
        invariant OrderMatches(order, available)
      {
        assert surveys[..i + 1][..i] == surveys[..i];
        OrderMatchesCatalog(o0, m0, surveys[..i + 1]);
        var name := surveys[i].name;
        var thumbnailUrl := surveys[i].thumbnailUrl;
        if thumbnailUrl == None || thumbnailUrl == Some("") {
          thumbnailUrl := None;
        }
        if name !in available {
          order := order + [name];
        }
        available := available[name := thumbnailUrl];
      }
      assert surveys[..|surveys|] == surveys;
    }

    /** `__contains__`: the name is a key of the table. */
    function Contains(name: string): (r: bool)
      requires Valid()
      reads this
      ensures r <==> exists i :: 0 <= i < |order| && order[i] == name
    {
      name in available
    }

    /** `iter_name_thumbnail`: every entry once, in key order. */
    function NameThumbnails(): (pairs: seq<(string, Option<string>)>)
      requires Valid()
      reads this
      ensures |pairs| == |available| == |order|
      ensures forall i :: 0 <= i < |pairs| ==> pairs[i].0 == order[i]
      ensures forall i, j :: 0 <= i < j < |pairs| ==> pairs[i].0 != pairs[j].0
      ensures forall n :: n in available <==> exists i :: 0 <= i < |pairs| && pairs[i].0 == n
      ensures forall i :: 0 <= i < |pairs| ==> pairs[i].0 in available && pairs[i].1 == available[pairs[i].0]
    {
      DistinctCard(order, available);
      var o, m := order, available;
      var pairs := seq(|o|, i requires 0 <= i < |o| && o[i] in m => (o[i], m[o[i]]));
      assert forall i :: 0 <= i < |o| ==> pairs[i].0 == o[i];
      pairs
    }
  }

  /** A list of distinct names is as long as the set of its names. */
  lemma {:induction false} DistinctCard(order: seq<string>, m: map<string, Option<string>>)
    requires OrderMatches(order, m)
    ensures |order| == |m|
    decreases |order|
  {
    if order == [] {
      assert m.Keys == {};
    } else {
      var last := order[|order| - 1];
      var init := order[..|order| - 1];
      var m' := m - {last};
      assert OrderMatches(init, m') by {
        forall i, j | 0 <= i < j < |init| ensures init[i] != init[j] {
          assert init[i] == order[i] && init[j] == order[j];
        }
        forall n ensures n in m' <==> n in init {
          if n in m' {
            var i :| 0 <= i < |order| && order[i] == n;
            assert i != |order| - 1;
            assert init[i] == n;
          }
          if n in init {
            var i :| 0 <= i < |init| && init[i] == n;
            assert order[i] == n;
          }
        }
      }
      DistinctCard(init, m');
      assert m.Keys == m'.Keys + {last};
    }
  }

  // ---------------------------------------------------------------------
  // The widget
  // ---------------------------------------------------------------------

  /** A Python value assigned to the `galactic` property. */
  datatype PyValue = BoolValue(b: bool) | NonBool

  /** `str(value).lower()` for a boolean. */
  function GalacticArg(b: bool): (arg: string)
    ensures arg == (if b then "true" else "false")
  {
    Lower(if b then "True" else "False")
  }

  /** `WWTQtWidget`. */
  class WwtWidget {
    const page: Page
    const imageryLayers: ImageryLayers
    /** `_opacity`: absent until the setter first succeeds. */
    var opacity: Option<real>

    ghost predicate Valid()
      reads this, page, imageryLayers
    {
      page.Valid() && imageryLayers.Valid()
    }

    /** `__init__`: a fresh page and the imagery table of the catalogue. */
    constructor(surveys: seq<Survey>)
      ensures Valid() && fresh(page) && fresh(imageryLayers)
      ensures page.scripts == [] && page.printed == [] && page.readyEmitted == 0
      ensures page.timerActive && !page.checkRunning
      ensures opacity == None
      ensures imageryLayers.available == Catalog(map[], surveys)
      ensures imageryLayers.order == Order([], surveys)
    {
      page := new Page();
      imageryLayers := new ImageryLayers(surveys);
      opacity := None;
    }

    /** `run_js`. */
    method RunJs(js: Js)
      modifies page`scripts
      ensures page.scripts == old(page.scripts) + [js]
    {
      page.RunJavaScript(js);
    }

    /** The `opacity` getter: fails until a value has been set. */
    function Opacity(): (r: Result<real, PyError>)
      reads this
      ensures r.Ok? <==> opacity.Some?
      ensures r.Err? ==> r.error == AttributeError("_opacity")
    {
      if opacity.Some? then Ok(opacity.value) else Err(AttributeError("_opacity"))
    }

    /** The `opacity` setter: values outside [0, 100] are refused and nothing
        changes; any other value is sent in one command and stored. */
    method SetOpacity(value: real) returns (r: Outcome<PyError>)
      modifies page`scripts, this`opacity
      ensures value < 0.0 || value > 100.0 ==>
        r == Fail(ValueError("opacity should be in the range [0:100]"))
        && page.scripts == old(page.scripts) && opacity == old(opacity)
      ensures 0.0 <= value <= 100.0 ==>
        r == Pass && page.scripts == old(page.scripts) + [SetForegroundOpacity(value)]
        && Opacity() == Ok(value)
    {
      if value < 0.0 || value > 100.0 {
        return Fail(ValueError("opacity should be in the range [0:100]"));
      }
      RunJs(SetForegroundOpacity(value));
      opacity := Some(value);
      return Pass;
    }

    /** The `galactic` setter: only a boolean is accepted, and it is sent as
        the lower-case JavaScript literal. */
    method SetGalactic(value: PyValue) returns (r: Outcome<PyError>)
      modifies page`scripts
      ensures value.NonBool? ==>
        r == Fail(TypeError("galactic should be set to a boolean value")) && page.scripts == old(page.scripts)
      ensures value.BoolValue? ==>
        r == Pass && page.scripts == old(page.scripts) + [SetGalacticMode(if value.b then "true" else "false")]
    {
      if !value.BoolValue? {
        return Fail(TypeError("galactic should be set to a boolean value"));
      }
      RunJs(SetGalacticMode(GalacticArg(value.b)));
      return Pass;
    }

    /** The `foreground` setter: only a layer of the imagery table is
        accepted. */
    method SetForeground(name: string) returns (r: Outcome<PyError>)
      requires Valid()
      modifies page`scripts
      ensures !imageryLayers.Contains(name) ==>
        r == Fail(ValueError("unknown foreground: " + name)) && page.scripts == old(page.scripts)
      ensures imageryLayers.Contains(name) ==>
        r == Pass && page.scripts == old(page.scripts) + [SetForegroundImageByName(name)]
    {
      if !imageryLayers.Contains(name) {
        return Fail(ValueError("unknown foreground: " + name));
      }
      RunJs(SetForegroundImageByName(name));
      return Pass;
    }

    /** The `background` setter: only a layer of the imagery table is
        accepted. */
    method SetBackground(name: string) returns (r: Outcome<PyError>)
      requires Valid()
      modifies page`scripts
      ensures !imageryLayers.Contains(name) ==>
        r == Fail(ValueError("unknown background: " + name)) && page.scripts == old(page.scripts)
      ensures imageryLayers.Contains(name) ==>
        r == Pass && page.scripts == old(page.scripts) + [SetBackgroundImageByName(name)]
    {
      if !imageryLayers.Contains(name) {
        return Fail(ValueError("unknown background: " + name));
      }
      RunJs(SetBackgroundImageByName(name));
      return Pass;
    }
  }

  // ---------------------------------------------------------------------
  // Markers
  // ---------------------------------------------------------------------

  /** `"{0:08x}".format(bits)`: eight lower-case hexadecimal digits. */
  function LayerId(bits: nat): (id: string)
    requires bits < 0x1_0000_0000
    ensures |id| == 8 && HexValue(id) == bits
    ensures forall i :: 0 <= i < |id| ==> id[i] in "0123456789abcdef"
  {
    assert Pow16(8) == 0x1_0000_0000;
    HexRoundTrip(bits, 8);
    HexFixed(bits, 8)
  }

  /** `"marker_{0}_{1}".format(layerId, i)`. */
  function MarkerLabel(layerId: string, i: nat): string {
    "marker_" + layerId + "_" + Decimal(i)
  }

  /** The labels of one draw of `n` sources. */
  function MarkerLabels(layerId: string, n: nat): (labels: seq<string>)
    ensures |labels| == n
    ensures forall i :: 0 <= i < n ==> labels[i] == MarkerLabel(layerId, i)
  {
    seq(n, i requires 0 <= i < n => MarkerLabel(layerId, i))
  }

  /** Within one collection, labels for different source indices differ. */
  lemma MarkerLabelsDistinct(layerId: string, i: nat, j: nat)
    ensures MarkerLabel(layerId, i) == MarkerLabel(layerId, j) <==> i == j
  {
    var p := "marker_" + layerId + "_";
    if MarkerLabel(layerId, i) == MarkerLabel(layerId, j) {
      assert Decimal(i) == MarkerLabel(layerId, i)[|p|..];
      assert Decimal(j) == MarkerLabel(layerId, j)[|p|..];
      DecimalInjective(i, j);
    }
  }

  /** Labels repeat across draws: after two draws of `n` and `k` sources the
      stored list holds `marker_<id>_0` at both positions 0 and `n`. */
  lemma RedrawRepeatsLabels(layerId: string, stored: seq<string>, n: nat, k: nat)
    requires 1 <= n && 1 <= k
    ensures var ls := stored + MarkerLabels(layerId, n) + MarkerLabels(layerId, k);
      ls[|stored|] == ls[|stored| + n] == MarkerLabel(layerId, 0)
  {
  }

  /** The circles of one draw, source `i` labelled as the `i`-th marker. */
  function Circles(layerId: string, ra: seq<real>, dec: seq<real>, color: string, radius: int): (cs: seq<Circle>)
    requires |ra| == |dec|
    ensures |cs| == |ra|
    ensures forall i :: 0 <= i < |cs| ==> cs[i] == Circle(MarkerLabel(layerId, i), ra[i], dec[i], color, radius)
  {
    seq(|ra|, i requires 0 <= i < |ra| => Circle(MarkerLabel(layerId, i), ra[i], dec[i], color, radius))
  }

  /** `WWTMarkerCollection`. */
  class MarkerCollection {
    const widget: WwtWidget
    const layerId: string
    var labels: seq<string>

    /** `__init__`, with the 32 random bits of the layer id as a parameter. */
    constructor(widget: WwtWidget, randomBits: nat)
      requires randomBits < 0x1_0000_0000
      ensures this.widget == widget && layerId == LayerId(randomBits) && labels == []
    {
      this.widget := widget;
      layerId := LayerId(randomBits);
      labels := [];
    }

    /** `draw`: one circle per source, all sent in a single command; the new
        labels are appended to the stored ones. Numbering restarts at 0 on
        every call, so a second draw stores labels the first one already
        holds (see `RedrawRepeatsLabels`). */
    method Draw(ra: seq<real>, dec: seq<real>, color: string, radius: int)
      requires |ra| == |dec|
      modifies this`labels, widget.page`scripts
      ensures labels == old(labels) + MarkerLabels(layerId, |ra|)
      ensures widget.page.scripts == old(widget.page.scripts) + [AddCircles(Circles(layerId, ra, dec, color, radius))]
    {
      var jsCode: seq<Circle> := [];
      for i := 0 to |ra|
        invariant jsCode == Circles(layerId, ra[..i], dec[..i], color, radius)
        invariant labels == old(labels) + MarkerLabels(layerId, i)
        invariant widget.page.scripts == old(widget.page.scripts)
      {
        var markerLabel := MarkerLabel(layerId, i);
        jsCode := jsCode + [Circle(markerLabel, ra[i], dec[i], color, radius)];
        labels := labels + [markerLabel];
      }
      assert ra[..|ra|] == ra && dec[..|dec|] == dec;
      widget.RunJs(AddCircles(jsCode));
    }

    /** `clear`: one command that removes every stored label, in stored
        order; the stored labels are kept. */
    method Clear()
      modifies widget.page`scripts
      ensures widget.page.scripts == old(widget.page.scripts) + [RemoveAnnotations(labels)]
    {
      widget.RunJs(RemoveAnnotations(labels));
    }
  }
}
