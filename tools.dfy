/** The viewer's toolbar tools: saving the view as an image, saving the view
    as a tour file, and the point-source selection tool that ties clicks in
    the renderer to subsets of a table layer. File dialogs, the renderer and
    the event loop are outside the model: their answers are parameters. */
module Tools {
  import opened Wrappers
  import opened Text
  import DataViewer
  import TourPatch

  // ---------------------------------------------------------------------
  // Saving the view
  // ---------------------------------------------------------------------

  /** `SaveTool.activate`: the file name the renderer is asked to render to,
      or nothing when the dialog was cancelled (an empty name). */
  function SaveView(filename: string): (target: Option<string>)
    ensures target == None <==> filename == ""
    ensures target.Some? ==> target.value == filename
  {
    if filename == "" then None else Some(filename)
  }

  /** The `.wtt` rule of `SaveTourTool.activate`. */
  function WithTourSuffix(filename: string): (r: string)
    ensures EndsWith(r, ".wtt")
    ensures EndsWith(filename, ".wtt") ==> r == filename
    ensures !EndsWith(filename, ".wtt") ==> r == filename + ".wtt"
  {
    if EndsWith(filename, ".wtt") then filename
    else
      assert (filename + ".wtt")[|filename|..] == ".wtt";
      filename + ".wtt"
  }

  /** Normalising a name twice is the same as normalising it once. */
  lemma TourSuffixIdempotent(filename: string)
    ensures WithTourSuffix(WithTourSuffix(filename)) == WithTourSuffix(filename)
  {
  }

  /** Normalising only ever appends: the chosen name is a prefix of the file
      written. */
  lemma TourSuffixExtends(filename: string)
    ensures filename <= WithTourSuffix(filename)
    ensures |WithTourSuffix(filename)| <= |filename| + 4
  {
  }

  /** How one activation of the tour tool ends. */
  datatype TourOutcome =
    | Cancelled
    | Failed(error: PyError)
    | Written(path: string, content: string)

  /** The first non-empty tour text among the answers to `tourxml;` read
      during the wait, which stops at the first such answer. */
  function FirstTour(polls: seq<Option<string>>): (r: Option<string>)
    ensures r.Some? ==> r.value != ""
    ensures r.Some? ==>
      exists i :: 0 <= i < |polls| && polls[i] == r
        && forall j :: 0 <= j < i ==> polls[j] == None || polls[j] == Some("")
    ensures r.None? ==> forall i :: 0 <= i < |polls| ==> polls[i] == None || polls[i] == Some("")
    decreases |polls|
  {
    if polls == [] then None
    else if polls[0].Some? && polls[0].value != "" then
      assert polls[0] == Some(polls[0].value);
      polls[0]
    else
      var r := FirstTour(polls[1..]);
      if r.Some? then
        var i :| 0 <= i < |polls[1..]| && polls[1..][i] == r
                 && forall j :: 0 <= j < i ==> polls[1..][j] == None || polls[1..][j] == Some("");
        assert polls[i + 1] == r;
        assert forall j :: 1 <= j < i + 1 ==> polls[j] == polls[1..][j - 1];
        r
      else
        r
  }

  /** `SaveTourTool.activate`. `filename` is the dialog's answer; `polls` are
      the successive answers to `tourxml;` that the ten-second wait manages
      to read. A cancelled dialog ends the activation; a wait with no
      non-empty answer fails and writes nothing; otherwise the patched tour
      is written to the normalised file name. */
  method SaveTour(filename: string, polls: seq<Option<string>>) returns (outcome: TourOutcome)
    ensures filename == "" <==> outcome == Cancelled
    ensures filename != "" && FirstTour(polls) == None ==>
      outcome == Failed(Exception("Failed to save tour"))
    ensures filename != "" && FirstTour(polls).Some? ==>
      outcome == Written(WithTourSuffix(filename), TourPatch.Patch(FirstTour(polls).value))
  {
    if filename == "" {
      return Cancelled;
    }
    var path := filename;
    if !EndsWith(path, ".wtt") {
      path := path + ".wtt";
    }
    var tourxml: Option<string> := None;
    var i := 0;
    while i < |polls|
      invariant 0 <= i <= |polls|
      invariant FirstTour(polls) == FirstTour(polls[i..])
      invariant tourxml == None || tourxml == Some("")
    {
      tourxml := polls[i];
      assert polls[i..][1..] == polls[i + 1..];
      if tourxml.Some? && tourxml.value != "" {
        break;
      }
      i := i + 1;
    }
    if tourxml == None || tourxml == Some("") {
      assert polls[i..] == [];
      return Failed(Exception("Failed to save tour"));
    }
    var patched := TourPatch.PatchAltUnits(tourxml.value);
    return Written(path, patched);
  }

  // ---------------------------------------------------------------------
  // Point-source selection
  // ---------------------------------------------------------------------

  /** The kind of glue layer a layer artist draws. */
  datatype LayerKind = DataLayer | SubsetLayer

  /** A layer artist of the viewer: its class, the kind of its layer, and
      whether it currently reacts to clicks. */
  class LayerArtist {
    const cls: DataViewer.ArtistClass
    const layer: LayerKind
    var selectable: bool

    constructor(cls: DataViewer.ArtistClass, layer: LayerKind)
      ensures this.cls == cls && this.layer == layer && !selectable
    {
      this.cls := cls;
      this.layer := layer;
      selectable := false;
    }
  }

  /** A table artist on a Data layer: the only artist selection can use. */
  predicate TableOnData(a: LayerArtist) {
    a.cls == DataViewer.TableLayerArtist && a.layer == DataLayer
  }

  /** The guard of `PointSourceSelectionTool.activate` as written: the
      artist's layer is a Subset (a layer is never itself an image artist, so
      the second half of the `isinstance` test never holds). */
  predicate NeedsFallbackAsWritten(a: LayerArtist) {
    a.layer == SubsetLayer
  }

  /** The guard as its comment describes it: the current artist is not usable
      when it draws a Subset or is an image artist. */
  predicate NeedsFallback(a: LayerArtist) {
    a.layer == SubsetLayer || a.cls == DataViewer.ImageLayerArtist
  }

  /** With the corrected guard, an artist that is kept is always a table
      artist on a Data layer. */
  lemma FallbackExactlyUnusable(a: LayerArtist)
    ensures !NeedsFallback(a) <==> TableOnData(a)
  {
  }

  /** An image artist on a Data layer passes the written guard, so it would be
      made the active, selectable artist. */
  lemma ImageArtistSlipsThrough(a: LayerArtist)
    requires a.cls == DataViewer.ImageLayerArtist && a.layer == DataLayer
    ensures !NeedsFallbackAsWritten(a) && NeedsFallback(a)
  {
  }

  /** The index of the first table artist on a Data layer, if any. */
  function FirstTableOnData(artists: seq<LayerArtist>): (r: Option<nat>)
    ensures r.Some? ==> r.value < |artists| && TableOnData(artists[r.value])
                        && forall j :: 0 <= j < r.value ==> !TableOnData(artists[j])
    ensures r.None? ==> forall j :: 0 <= j < |artists| ==> !TableOnData(artists[j])
    decreases |artists|
  {
    if artists == [] then None
    else if TableOnData(artists[0]) then Some(0)
    else
      var r := FirstTableOnData(artists[1..]);
      if r.Some? then
        assert forall j :: 1 <= j < r.value + 1 ==> artists[j] == artists[1..][j - 1];
        Some(r.value + 1)
      else
        assert forall j :: 1 <= j < |artists| ==> artists[j] == artists[1..][j - 1];
        None
  }

  /** The artist that activation makes active, if any. */
  function Chosen(current: LayerArtist, dataArtists: seq<LayerArtist>): (r: Option<LayerArtist>)
    ensures r.Some? ==> TableOnData(r.value) && (r.value == current || r.value in dataArtists)
    ensures r.None? <==> NeedsFallback(current) && forall a :: a in dataArtists ==> !TableOnData(a)
    ensures !NeedsFallback(current) ==> r == Some(current)
    ensures NeedsFallback(current) && r.Some? ==>
              FirstTableOnData(dataArtists).Some? && r.value == dataArtists[FirstTableOnData(dataArtists).value]
  {
    if !NeedsFallback(current) then Some(current)
    else match FirstTableOnData(dataArtists)
      case None => None
      case Some(i) => Some(dataArtists[i])
  }

  /** A request to the viewer to apply an element subset on the active
      layer. */
  datatype SubsetRequest = ElementSubset(indices: seq<Option<nat>>)

  /** One table layer's data: its row count, its main components and each
      component's column. */
  datatype Dataset<V> = Dataset(size: nat, mainComponents: seq<string>, columns: map<string, seq<V>>)

  /** Every main component has a column of `size` values. */
  predicate WellFormed<V>(data: Dataset<V>) {
    forall k :: 0 <= k < |data.mainComponents| ==>
      data.mainComponents[k] in data.columns && |data.columns[data.mainComponents[k]]| == data.size
  }

  /** The item gives a value for every main component. */
  predicate Describes<V>(data: Dataset<V>, item: map<string, V>) {
    forall k :: 0 <= k < |data.mainComponents| ==> data.mainComponents[k] in item
  }

  /** Row `i` equals the item on all main components. */
  predicate RowMatches<V(==)>(data: Dataset<V>, item: map<string, V>, i: nat)
    requires WellFormed(data) && Describes(data, item) && i < data.size
  {
    forall k :: 0 <= k < |data.mainComponents| ==>
      data.columns[data.mainComponents[k]][i] == item[data.mainComponents[k]]
  }

  /** The first matching row from `i` on. */
  function SearchFrom<V(==)>(data: Dataset<V>, item: map<string, V>, i: nat): (r: Option<nat>)
    requires WellFormed(data) && Describes(data, item) && i <= data.size
    ensures r.Some? ==> i <= r.value < data.size && RowMatches(data, item, r.value)
                        && forall j :: i <= j < r.value ==> !RowMatches(data, item, j)
    ensures r.None? ==> forall j :: i <= j < data.size ==> !RowMatches(data, item, j)
    decreases data.size - i
  {
    if i == data.size then None
    else if RowMatches(data, item, i) then Some(i)
    else SearchFrom(data, item, i + 1)
  }

  /** `_get_index`: the least row index matching the item on all main
      components, or `None` when no row matches. */
  function GetIndex<V(==)>(data: Dataset<V>, item: map<string, V>): (r: Option<nat>)
    requires WellFormed(data) && Describes(data, item)
    ensures r.Some? ==> r.value < data.size && RowMatches(data, item, r.value)
                        && forall j :: 0 <= j < r.value ==> !RowMatches(data, item, j)
    ensures r.None? <==> forall j :: 0 <= j < data.size ==> !RowMatches(data, item, j)
  {
    SearchFrom(data, item, 0)
  }

  /** `on_selected` as written: it calls `self._get_index`, but `_get_index`
      is a local function of `activate`, not an attribute of the tool, so
      every selection fails. */
  function OnSelectedAsWritten<V(==)>(updated: set<string>, data: Dataset<V>, item: map<string, V>): (r: Result<Option<SubsetRequest>, PyError>)
    ensures "most_recent_source" !in updated ==> r == Ok(None)
    ensures "most_recent_source" in updated ==> r.Err?
  {
    if "most_recent_source" in updated then Err(AttributeError("_get_index")) else Ok(None)
  }

  /** `on_selected` with the local search called as intended: a change of the
      most recent source selects the matching row of the active layer. */
  function OnSelected<V(==)>(updated: set<string>, data: Dataset<V>, item: map<string, V>): (r: Result<Option<SubsetRequest>, PyError>)
    requires WellFormed(data) && Describes(data, item)
    ensures "most_recent_source" !in updated ==> r == Ok(None)
    ensures "most_recent_source" in updated ==> r == Ok(Some(ElementSubset([GetIndex(data, item)])))
  {
    if "most_recent_source" in updated then Ok(Some(ElementSubset([GetIndex(data, item)]))) else Ok(None)
  }

  /** A click on a source fails as written and selects its row once
      corrected. */
  lemma SelectionFailsAsWritten<V>(updated: set<string>, data: Dataset<V>, item: map<string, V>)
    requires WellFormed(data) && Describes(data, item)
    requires "most_recent_source" in updated
    ensures OnSelectedAsWritten(updated, data, item) == Err(AttributeError("_get_index"))
    ensures OnSelected(updated, data, item).Ok?
  {
  }

  /** A click on a row of the table selects exactly that row when no earlier
      row has the same values. */
  lemma {:induction false} SelectionFindsRow<V>(data: Dataset<V>, item: map<string, V>, i: nat)
    requires WellFormed(data) && Describes(data, item) && i < data.size
    requires RowMatches(data, item, i)
    requires forall j :: 0 <= j < i ==> !RowMatches(data, item, j)
    ensures GetIndex(data, item) == Some(i)
  {
    assert GetIndex(data, item).Some?;
  }

  /** `PointSourceSelectionTool`. */
  class PointSourceSelectionTool {
    var activeLayerArtist: Option<LayerArtist>
    /** Whether `on_selected` is registered with the renderer. */
    var callbackRegistered: bool

    constructor()
      ensures activeLayerArtist == None && !callbackRegistered
    {
      activeLayerArtist := None;
      callbackRegistered := false;
    }

    /** `activate`, with the corrected guard. `current` is the artist selected
        in the layer list and `dataArtists` the artists the fallback looks
        through. A current artist that cannot be used is replaced by the
        first table artist on a Data layer; when there is none, activation
        ends with nothing changed. Otherwise the chosen artist becomes the
        active one and selectable, and the selection callback is
        registered. */
    method Activate(current: Option<LayerArtist>, dataArtists: seq<LayerArtist>) returns (r: Outcome<PyError>)
      modifies this, (if current.Some? then {current.value} else {}), set a | a in dataArtists
      ensures current == None ==> r == Fail(AttributeError("layer"))
      ensures current.Some? ==> r == Pass
      ensures current == None || Chosen(current.value, dataArtists) == None ==>
        activeLayerArtist == old(activeLayerArtist) && callbackRegistered == old(callbackRegistered)
        && (forall a :: a in dataArtists ==> a.selectable == old(a.selectable))
        && (current.Some? ==> current.value.selectable == old(current.value.selectable))
      ensures current.Some? && Chosen(current.value, dataArtists).Some? ==>
        var chosen := Chosen(current.value, dataArtists).value;
        activeLayerArtist == Some(chosen) && chosen.selectable && callbackRegistered
        && (forall a :: a in dataArtists && a != chosen ==> a.selectable == old(a.selectable))
        && (current.value != chosen ==> current.value.selectable == old(current.value.selectable))
    {
      if current == None {
        return Fail(AttributeError("layer"));
      }
      var layerArtist := current.value;
      if NeedsFallback(layerArtist) {
        var i := 0;
        while i < |dataArtists| && !TableOnData(dataArtists[i])
          invariant 0 <= i <= |dataArtists|
          invariant forall j :: 0 <= j < i ==> !TableOnData(dataArtists[j])
        {
          i := i + 1;
        }
        if i == |dataArtists| {
          return Pass;
        }
        assert FirstTableOnData(dataArtists) == Some(i);
        layerArtist := dataArtists[i];
      }
      activeLayerArtist := Some(layerArtist);
      layerArtist.selectable := true;
      callbackRegistered := true;
      return Pass;
    }

    /** `deactivate`: the active artist, if any, stops being selectable, and
        no artist is active afterwards. */
    method Deactivate()
      modifies this`activeLayerArtist, if activeLayerArtist.Some? then {activeLayerArtist.value} else {}
      ensures activeLayerArtist == None
      ensures old(activeLayerArtist).Some? ==> !old(activeLayerArtist).value.selectable
    {
      if activeLayerArtist.Some? {
        activeLayerArtist.value.selectable := false;
      }
      activeLayerArtist := None;
    }
  }
}
