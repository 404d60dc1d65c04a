# glue-wwt viewer core, modelled in Dafny

This project models the logic at the heart of the glue plugin that shows data
in the WorldWide Telescope (WWT) sky renderer:

- **The data viewer** (`WWTDataViewerBase`). `_update_wwt` keeps the renderer
  client in step with the viewer state (view mode, solar-system flags,
  foreground and background imagery, foreground opacity, galactic mode).
  The model also covers the routing of data and subset layers to image or
  table layer artists, and the camera entry of saved sessions. The renderer
  client is the ordered log of the writes the viewer makes to it
  (`DataViewer.Viewer.log`).
- **The Qt driver** (`wwt_driver.py`):
  - the imagery table built from the surveys catalogue;
  - the marker collection that draws and clears circles;
  - the web page that polls the renderer until `wwt_ready`, and filters the
    console messages that polling produces;
  - the widget's validating setters for opacity, galactic mode, foreground
    and background.

  Every piece of JavaScript sent to the page is one entry of the page's
  script log (`WwtDriver.Page.scripts`).
- **The tools** (`tools.py`):
  - saving the view as an image;
  - saving the view as a `.wtt` tour, including the `AltUnit` patch applied
    to the tour XML;
  - the point-source selection tool's choice of active layer artist, its row
    search and its `deactivate` bookkeeping.

Layout, one module per file:

- `wrappers.dfy`: `Option`, `Result`, `Outcome`, and the Python exceptions
  raised, as values.
- `text.dfy`: the Python string operations the code relies on. These are
  `in`, `str.replace`, `endswith`, `lower`, `"{0}"` and `"{0:08x}"`.
- `data_viewer.dfy`: the viewer.
- `wwt_driver.dfy`: the driver.
- `tour_patch.dfy`: the `AltUnit` loop of `SaveTourTool.activate`.
- `tools.dfy`: the tools.

How the main pieces are specified:

- **The synchronisation.** `DataViewer.SyncWrites` is the specification: the
  writes of a full synchronisation (`FullSync`) filtered by a per-write
  selection rule. `Viewer.UpdateWwt` follows the source step by step, with
  its local `force` reassigned after a mode change, and is proved to append
  exactly `SyncWrites`. The lemmas beside it state the ordering, gating,
  escalation and idempotence properties.
- **The tour patch.** `TourPatch.PatchAltUnits` is the loop as written: up to
  ten `str.replace` calls, for `AltUnit="1"` to `AltUnit="10"`, each guarded
  by `in`. It is proved equal to `TourPatch.Patch`, an independent single
  left-to-right pass that decrements each unit it meets exactly once.

Later glue-wwt releases behave differently in places. The model follows the
code of this version, which does the following:

- **Imagery order.** `_update_wwt` writes the foreground before the
  background (data_viewer.py:44-48), not background first.
- **Features absent from this version.** The code has none of these:
  - an "echo" of change listeners when entering Sky mode;
  - constellation-boundary flags;
  - clock start/pause and clock read-back polling;
  - a generic overlay-settings pass.

  A mode change always re-issues `set_view`, and in Sky mode it then forces
  the imagery.
- **Opacity.** The widget's opacity setter accepts values in [0, 100]. The
  viewer passes the state's `foreground_opacity` on unchanged
  (data_viewer.py:51).
- **Marker labels.** `draw` numbers its labels from 0 on every call, so a
  second draw on one collection stores labels that the first draw already
  holds (`WwtDriver.RedrawRepeatsLabels`).

## Model

| member | source | states |
|---|---|---|
| DataViewer.Viewer.UpdateWwt | glue_wwt/viewer/data_viewer.py:33-54 | the call appends to the renderer log exactly the writes `SyncWrites(force, changed, state)`, and nothing else changes |
| DataViewer.Viewer.constructor | glue_wwt/viewer/data_viewer.py:22-28 | the first write is `actual_planet_scale = True`; the state's imagery list becomes the renderer's layer list; a forced synchronisation follows |
| DataViewer.SyncWritesSteps | glue_wwt/viewer/data_viewer.py:33-54 | set_view, cosmos and stars are written iff the call is forced or changes the mode; each imagery write follows iff the mode is Sky and the call is forced, changes the mode, or changes that write's own setting; foreground comes before background |
| DataViewer.SyncModeWrites | glue_wwt/viewer/data_viewer.py:34-39 | a forced or mode-changing call starts with `set_view(mode)`, `cosmos == (mode == "Universe")` and `stars == (mode not in {"Universe", "Milky Way"})`; any other call writes imagery only |
| DataViewer.SyncModeChangeIsForced | glue_wwt/viewer/data_viewer.py:34-54 | in every mode, a mode change issues the same writes as a forced call |
| DataViewer.SyncModeChangeInSky | glue_wwt/viewer/data_viewer.py:34-54 | in Sky mode, a mode change issues all seven writes |
| DataViewer.SyncValues | glue_wwt/viewer/data_viewer.py:42-54 | every write carries the current state's value, and no imagery attribute is written outside Sky mode |
| DataViewer.SyncImageryGate | glue_wwt/viewer/data_viewer.py:42-54 | an imagery attribute is written iff the mode is Sky and the call is forced, changes the mode, or changes that attribute |
| DataViewer.SyncOrder | glue_wwt/viewer/data_viewer.py:33-54 | writes come in the fixed order set_view, cosmos, stars, foreground, background, foreground_opacity, galactic_mode, each at most once |
| DataViewer.SyncQuiet | glue_wwt/viewer/data_viewer.py:33-54 | a call writes nothing iff it is neither forced nor mode-changing, and either the mode is not Sky or no imagery setting changed |
| DataViewer.ForcedSyncShows | glue_wwt/viewer/data_viewer.py:33-54 | after a forced call the renderer shows the state, whatever it showed before; outside Sky mode the renderer's imagery is left as it was |
| DataViewer.SyncIdempotent | glue_wwt/viewer/data_viewer.py:33-54 | once the renderer shows the state, any further call for the same state leaves it unchanged, so forcing twice equals forcing once |
| DataViewer.DataLayerArtist | glue_wwt/viewer/data_viewer.py:60-70 | two pixel components with WCS coordinates give the image artist; two without WCS raise the WCS ValueError; otherwise a one-dimensional layer gives the table artist and anything else raises ValueError; the pixel test comes first |
| DataViewer.SubsetLayerArtist | glue_wwt/viewer/data_viewer.py:72-74 | a subset is routed exactly as its data |
| DataViewer.SaveGlueState | glue_wwt/viewer/data_viewer.py:76-85 | the session record gains a `camera` entry with ra, dec and fov; every other entry is kept |
| DataViewer.RestoreCamera | glue_wwt/viewer/data_viewer.py:87-96 | without `camera` nothing is done; an entry that is not a dictionary fails with AttributeError on `get`; a dictionary entry fails with the `SkyCoord` ValueError exactly when its declination is outside [-90, 90], and otherwise yields one instant `center_on_coordinates` write |
| DataViewer.CameraRoundTrip | glue_wwt/viewer/data_viewer.py:76-95 | restoring a saved record whose declination is a valid latitude centres the renderer on exactly the saved ra, dec and fov |
| DataViewer.CameraDefaults | glue_wwt/viewer/data_viewer.py:90-95 | missing fields default to ra 0, dec 0 and fov 60; present fields are used as stored; the call succeeds iff the resulting declination is in [-90, 90] |
| DataViewer.Get | glue_wwt/viewer/data_viewer.py:92-94 | `dict.get(key, default)`: the stored value when the key is present, else the default |
| TourPatch.PatchAltUnits | glue_wwt/viewer/tools.py:111-116 | the ascending loop of ten guarded replacements computes `Patch(tourxml)` |
| TourPatch.Step | glue_wwt/viewer/tools.py:111-116 | replacing `AltUnit="m+1"` after the passes for 1..m have run is the pass for 1..m+1, so no unit is decremented twice |
| TourPatch.PatchDecrements | glue_wwt/viewer/tools.py:111-116 | every `AltUnit="k"` with 1 <= k <= 10 becomes `AltUnit="k-1"`, and the text after it is patched on its own |
| TourPatch.PatchKeepsZero | glue_wwt/viewer/tools.py:111-116 | `AltUnit="0"` is left alone |
| TourPatch.PatchWithoutUnits | glue_wwt/viewer/tools.py:111-116 | text containing none of the ten patterns is left unchanged |
| TourPatch.PatchVerbatim | glue_wwt/viewer/tools.py:111-116 | a block in which no unit starts is copied unchanged |
| TourPatch.AltUnit | glue_wwt/viewer/tools.py:112-114 | the pattern for k has 11 characters (12 for 10), and `A` appears only at its start |
| TourPatch.AltUnitFormat | glue_wwt/viewer/tools.py:112-114 | the pattern is `AltUnit="` then `"{0}".format(k)` then `"` |
| TourPatch.UnitsDistinct | glue_wwt/viewer/tools.py:112-116 | two different units never start at the same place, since the closing quote is part of the pattern |
| TourPatch.LeadingUnit | glue_wwt/viewer/tools.py:111-116 | a non-zero answer is a unit 1..10 that starts the text |
| TourPatch.NoLeadingUnit | glue_wwt/viewer/tools.py:111-116 | a zero answer means none of the ten units starts the text |
| WwtDriver.Page.constructor | glue_wwt/viewer/wwt_driver.py:100-105 | the timer is running, no check is running, nothing was sent |
| WwtDriver.Page.Tick | glue_wwt/viewer/wwt_driver.py:102-104 | a timeout of a running timer runs `_check_ready`; a stopped timer does nothing |
| WwtDriver.Page.CheckReady | glue_wwt/viewer/wwt_driver.py:117-120 | a readiness query is sent only when no check is running, then the flag is set; the guard keeps the count of unanswered queries at most one |
| WwtDriver.Page.ReadyCallback | glue_wwt/viewer/wwt_driver.py:107-111 | the flag is always cleared; only a result of 1 stops the timer and emits `wwt_ready` |
| WwtDriver.Page.ConsoleMessage | glue_wwt/viewer/wwt_driver.py:113-115 | a message is printed unless a check is running and it mentions `wwt_ready` |
| WwtDriver.PrintsExactly | glue_wwt/viewer/wwt_driver.py:113-115 | a message is suppressed iff a check is running and `wwt_ready` occurs at some position in it |
| WwtDriver.Thumbnail | glue_wwt/viewer/wwt_driver.py:48-50 | a missing or empty thumbnail URL becomes None; any other URL is kept |
| WwtDriver.ImageryLayers.constructor | glue_wwt/viewer/wwt_driver.py:31-33 | the table starts empty and is filled from the catalogue |
| WwtDriver.ImageryLayers.FetchAvailableLayers | glue_wwt/viewer/wwt_driver.py:35-51 | the loop stores every survey's name with its thumbnail, in catalogue order, and keeps the key order in line with the table |
| WwtDriver.CatalogKeys | glue_wwt/viewer/wwt_driver.py:46-51 | the table holds exactly the names it held plus the names of the surveys |
| WwtDriver.CatalogLastWins | glue_wwt/viewer/wwt_driver.py:46-51 | a name's thumbnail is that of the last survey with that name |
| WwtDriver.CatalogKeeps | glue_wwt/viewer/wwt_driver.py:46-51 | a name no survey carries keeps its entry |
| WwtDriver.OrderMatchesCatalog | glue_wwt/viewer/wwt_driver.py:46-55 | the key order lists every key of the table exactly once |
| WwtDriver.OrderKeepsPlace | glue_wwt/viewer/wwt_driver.py:51-55 | re-storing a name keeps its place in the iteration order; new names go at the end |
| WwtDriver.ImageryLayers.Contains | glue_wwt/viewer/wwt_driver.py:57-58 | membership is being a key, i.e. occurring in the iteration order |
| WwtDriver.ImageryLayers.NameThumbnails | glue_wwt/viewer/wwt_driver.py:53-55 | yields each entry once, with its stored thumbnail, in key order |
| WwtDriver.WwtWidget.constructor | glue_wwt/viewer/wwt_driver.py:125-136 | a fresh page with its timer running, no check running and empty logs; the imagery table of the catalogue, keys in catalogue order; no opacity yet |
| WwtDriver.WwtWidget.RunJs | glue_wwt/viewer/wwt_driver.py:179-181 | one script is sent to the page |
| WwtDriver.WwtWidget.Opacity | glue_wwt/viewer/wwt_driver.py:138-140 | the getter fails with AttributeError until a value has been set |
| WwtDriver.WwtWidget.SetOpacity | glue_wwt/viewer/wwt_driver.py:142-147 | outside [0, 100]: ValueError, no command, opacity unchanged; otherwise exactly one command and the getter returns the value |
| WwtDriver.GalacticArg | glue_wwt/viewer/wwt_driver.py:157 | `str(b).lower()` is `true` or `false` |
| WwtDriver.WwtWidget.SetGalactic | glue_wwt/viewer/wwt_driver.py:153-157 | a non-boolean raises TypeError and sends nothing; a boolean sends one command with `true` or `false` |
| WwtDriver.WwtWidget.SetForeground | glue_wwt/viewer/wwt_driver.py:163-167 | an unknown name raises ValueError and sends nothing; a known name sends one command naming it |
| WwtDriver.WwtWidget.SetBackground | glue_wwt/viewer/wwt_driver.py:173-177 | an unknown name raises ValueError and sends nothing; a known name sends one command naming it |
| WwtDriver.LayerId | glue_wwt/viewer/wwt_driver.py:66 | eight lower-case hexadecimal digits that read back as the random bits |
| WwtDriver.MarkerLabels | glue_wwt/viewer/wwt_driver.py:77-78 | label i of a draw is `marker_<layer_id>_<i>` |
| WwtDriver.MarkerLabelsDistinct | glue_wwt/viewer/wwt_driver.py:78 | labels of different source indices differ |
| WwtDriver.RedrawRepeatsLabels | glue_wwt/viewer/wwt_driver.py:77-84 | numbering restarts at 0 on each draw, so after two non-empty draws the stored labels hold `marker_<id>_0` twice |
| WwtDriver.Circles | glue_wwt/viewer/wwt_driver.py:77-81 | one circle per source, labelled as its marker, with the given colour and radius |
| WwtDriver.MarkerCollection.constructor | glue_wwt/viewer/wwt_driver.py:63-67 | the layer id is formatted from the random bits; no labels yet |
| WwtDriver.MarkerCollection.Draw | glue_wwt/viewer/wwt_driver.py:69-84 | exactly one label per source is appended after the stored ones, and one command sends all circles |
| WwtDriver.MarkerCollection.Clear | glue_wwt/viewer/wwt_driver.py:86-89 | one command removes every stored label in stored order; the labels are kept |
| Tools.SaveView | glue_wwt/viewer/tools.py:25-37 | an empty file name cancels; any other is rendered to |
| Tools.WithTourSuffix | glue_wwt/viewer/tools.py:88-89 | the name ends in `.wtt`; a name that already did is unchanged; otherwise `.wtt` is appended |
| Tools.TourSuffixIdempotent | glue_wwt/viewer/tools.py:88-89 | normalising twice equals normalising once |
| Tools.TourSuffixExtends | glue_wwt/viewer/tools.py:88-89 | normalising only appends, at most four characters |
| Tools.FirstTour | glue_wwt/viewer/tools.py:96-103 | the wait ends with the first non-empty answer, if there is one |
| Tools.SaveTour | glue_wwt/viewer/tools.py:75-119 | an empty name cancels; no non-empty tour text raises "Failed to save tour" and writes nothing; otherwise the patched tour is written under the normalised name |
| Tools.FirstTableOnData | glue_wwt/viewer/tools.py:141-145 | the least index of a table artist on a Data layer, or none when there is none |
| Tools.Chosen | glue_wwt/viewer/tools.py:137-147 | a usable current artist is kept; otherwise the first table artist on a Data layer is taken; the artist picked is always a table artist on Data, and there is none exactly when the current artist is unusable and no fallback exists |
| Tools.FallbackExactlyUnusable | glue_wwt/viewer/tools.py:137-143 | an artist is kept exactly when it is a table artist on a Data layer |
| Tools.ImageArtistSlipsThrough | glue_wwt/viewer/tools.py:140 | an image artist on a Data layer passes the written guard but not the intended one |
| Tools.GetIndex | glue_wwt/viewer/tools.py:150-152 | the least row index equal to the item on all main components, or None iff no row matches |
| Tools.SelectionFindsRow | glue_wwt/viewer/tools.py:150-152 | the first row equal to the item is the one found |
| Tools.OnSelectedAsWritten | glue_wwt/viewer/tools.py:154-158 | a change of `most_recent_source` always fails; other changes do nothing |
| Tools.OnSelected | glue_wwt/viewer/tools.py:154-158 | a change of `most_recent_source` requests the element subset of the matching row; other changes do nothing |
| Tools.SelectionFailsAsWritten | glue_wwt/viewer/tools.py:150-158 | as written, a click fails with AttributeError; corrected, it succeeds |
| Tools.PointSourceSelectionTool.constructor | glue_wwt/viewer/tools.py:129 | no active artist |
| Tools.PointSourceSelectionTool.Activate | glue_wwt/viewer/tools.py:131-163 | an unusable current artist is replaced by the first table artist on a Data layer; with none, nothing changes; otherwise the chosen artist becomes active and selectable and the callback is registered; other artists are untouched |
| Tools.PointSourceSelectionTool.Deactivate | glue_wwt/viewer/tools.py:165-169 | the active artist, if any, becomes unselectable, and no artist is active afterwards |
| Text.Contains | glue_wwt/viewer/tools.py:113 | Python's `pat in s`: the empty pattern is in every string; otherwise `pat` is a prefix of `s` or is in `s[1..]` |
| Text.ContainsAt | glue_wwt/viewer/tools.py:113 | `pat in s` holds iff `pat` starts at some position of `s` |
| Text.Replace | glue_wwt/viewer/tools.py:116 | Python's `str.replace`: non-overlapping left-to-right replacement; an empty pattern inserts `rep` before every character and at the end |
| Text.EndsWith | glue_wwt/viewer/tools.py:88 | Python's `str.endswith`: the suffix is no longer than the string and equals its tail |
| Text.Lower | glue_wwt/viewer/wwt_driver.py:157 | Python's `str.lower` on ASCII: upper-case letters mapped to lower case, every other character kept, same length |
| Text.ReplaceAbsent | glue_wwt/viewer/tools.py:116 | replacing a pattern that does not occur leaves the text unchanged |
| Text.ReplaceSkip | glue_wwt/viewer/tools.py:116 | replacement passes over a block in which the pattern does not start |
| Text.Decimal | glue_wwt/viewer/tools.py:112 | `"{0}".format(n)` is a non-empty string of decimal digits |
| Text.DecimalInjective | glue_wwt/viewer/wwt_driver.py:78 | different numbers print differently |
| Text.HexFixed | glue_wwt/viewer/wwt_driver.py:66 | `"{0:08x}"` gives exactly eight lower-case hexadecimal digits for a 32-bit value |
| Text.HexRoundTrip | glue_wwt/viewer/wwt_driver.py:66 | the hexadecimal digits read back as the value |

## Left out

- Qt, ipywidgets, QWebEngine and the timer machinery. Signals, the event loop and `processEvents` are outside the model. The timer is its running flag, and a timeout is `Page.Tick`.
- The JavaScript source strings (`CIRCLE_JS`, `SAVE_TOUR_CODE`, the `removeAnnotation` join). Each `run_js` or `runJavaScript` call is one opaque `Js` command.
- The three `runJavaScript` calls that reset, read and start the tour export before the wait. Only the answers read during the wait are modelled, as the `polls` parameter of `SaveTour`.
- The ten-second wall-clock limit, the `time.sleep` between reads, and the file dialog. The dialog's file name is a parameter.
- Writing the tour file. It is the `Written(path, content)` outcome.
- The `print` of each `AltUnit` change.
- Downloading and parsing the surveys catalogue in `fetch_available_layers`. Its result is the `surveys` list.
- `random.getrandbits(32)` for the marker layer id. The bits are a parameter.
- Astropy `SkyCoord` conversion to ICRS degrees in `draw`. `draw` takes the right ascensions and declinations in degrees.
- The `markers` dictionary of `WWTMarkerCollection`, which is never used.
- The `wwt_widget=None` default of the marker collection. The model always has a widget.
- WwtDriver.WwtWidget.RunJs: the `logger.debug` line before each script is sent. Logging has no effect on the page.
- WwtDriver.MarkerCollection.Draw: the `radius=3` default of `draw`. The model's `Draw` always takes the radius as an argument.
- DataViewer.RestoreCamera: the rest of `SkyCoord`'s handling. The wrapping of ra into [0, 360) is not modelled, so ra is passed on as stored. The astropy error text is shortened to its fixed part, without the value that follows "got".
- Floating point. Opacity, ra, dec and fov are `real`, so NaN and rounding are not modelled.
- WwtDriver.Page.ReadyCallback: the JavaScript value of `wwt_ready` is taken as an integer.
- WwtDriver.Page.ReadyCallback: it requires a query to be outstanding, since the page only calls it back for one.
- The `galactic`, `foreground` and `background` getters. They read `_galactic`, `_foreground` and `_background`, which nothing in `WWTQtWidget` ever assigns.
- `get_layer_artist`, and the artist objects built by `get_data_layer_artist`. Routing returns the artist class.
- The rest of a saved session record beyond its `camera` entry. Base-class state is any map.
- The `super()` calls of the tools and of `__gluestate__` / `__setgluestate__`.
- The keyword names of `_update_wwt` become the `Setting` datatype. Any other state attribute is `OtherSetting`.
- DataViewer.Viewer.UpdateWwt: `state` is read but never changed by the call. Changes to the viewer state itself belong to the state class, which is not part of this model.
- Tools.GetIndex: requires every main component to have a column of the data's length, and the item to have a value for each. glue's data objects guarantee the first. A missing key in the item, which would raise KeyError in Python, is not modelled.
- Tools.PointSourceSelectionTool.Activate: `iter_data_layer_artists` is not defined in the files modelled. The artists it yields are the `dataArtists` parameter.
- `glue_wwt/viewer/jupyter_viewer.py`, `glue_wwt/__init__.py` and the tests. These are widget layout and plugin registration, not logic.

## Findings

| source | as written | input that shows it | evidently intended | confidence | as-written member | corrected member |
|---|---|---|---|---|---|---|
| glue_wwt/viewer/tools.py:140 | `isinstance(layer_artist.layer, (Subset, WWTImageLayerArtist))`: a layer is Data or a Subset and never an artist, so the image-artist half never holds | the current artist is an image artist on a Data layer; it is made the active, selectable artist | replace an image artist by the first table artist on Data, as the comment above the test says ("make sure that the layer is a table layer") | medium, not executed | Tools.ImageArtistSlipsThrough | Tools.PointSourceSelectionTool.Activate |
| glue_wwt/viewer/tools.py:150-156 | `_get_index` is a local function of `activate`, but `on_selected` calls `self._get_index`, an attribute the tool does not have | any selection change with `most_recent_source` among the updated names raises AttributeError | look up the clicked source's row with the local search and apply its element subset | high, not executed | Tools.OnSelectedAsWritten | Tools.OnSelected |
