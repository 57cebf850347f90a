# A verified model of the live 3D-brain dashboard

The dashboard records EEG headset readings (attention, meditation, signal strength and eight
frequency bands per sensor) into SQLite and shows them live in Dash: line, bar and heatmap
graphs, a rolling timeline that can be paused or clicked to replay a past snapshot, and a 3D
brain whose two hemispheres are coloured by activation fields synthesised from the readings.
This project models the decision and state code behind those views in Dafny and proves what
that code promises.

Python values are modelled as follows:

- Dash stores and Plotly event payloads are `JsonValues.Json`.
- Dictionaries are `Dicts.Dict`, ordered association lists with distinct keys. Insertion order
  matters in the source, for example for the order of the snapshot, the camera parts and the
  title.
- A Python exception is an explicit result (`Outcome.Raises`, `Reply.Uncaught`, an `Option`),
  never a precondition.
- Clock readings, database write results and sensor readings are parameters.

| module | file | what it models |
|---|---|---|
| `CleanBrainCallbacks` | `live_brain_callbacks_clean.dfy` | The current brain-view controller. It covers the interaction gate, the per-tick decision of what the brain graph shows, and the capture of camera changes from relayout events. The capture is a loop through the dotted keys. |
| `SimpleBrainCallbacks` | `live_brain_callbacks_simple.dfy` | The simple controller: the same selection, no gating, the stored camera copied verbatim, and a whole-object camera capture. |
| `LiveBrainCallbacks` | `live_brain_callbacks.dfy` | The first controller, handing the visualiser the selected data. |
| `BrainPanel` | `brain_panel.dfy` | The replies of the controllers and the sensor-selection rule they share. |
| `BrainVisualizer` | `brain_visualizer.dfy` | The metric normalisation, the coverage factor, the region table and the radial decay. Also the additive field synthesis as a loop, the lazily initialised visualiser as a class, and the figure and title rules. |
| `TimelineCallbacks` | `simple_timeline_callbacks.dfy` | The rolling session buffer, as a class whose update appends to five parallel lists and trims them. Also the `extendData` payload and the live/paused/historical mode machine. |
| `SimpleTimeline` | `simple_timeline.dfy` | The timeline's initial stores and its extend payload. |
| `Utils` | `utils.dfy` | Column-wise averaging, the session id taken from a file name, the trace, heatmap and event factories, and the static plots' column names. |
| `LegacyUtils` | `legacy_utils.dfy` | The first `get_data` with its fallback. |
| `Database` | `database.dfy` | The column header, the placeholder string made by the regular-expression substitution, and the flattening of a row. |
| `LegacyDatabase` | `legacy_database.dfy` | The first recorder with its fixed eleven parameters. |
| `LiveApp` | `live_app.dfy` | The live dashboard's snapshot assembly, the line, bar and heatmap payloads, and the small selection and toggle callbacks. |
| `App` | `app.dfy` | The first dashboard's record-then-mask refresh. |
| `Dicts`, `JsonValues`, `Text`, `Numbers`, `ExtendData`, `Wrappers` | | The Python semantics the above rely on: dictionary assignment and comprehension; `in`, `.get` and indexing; `str.split`, `str.replace` and `str(int)`; `sum`/`len` and `np.average`; the `extendData` shape. |

Where the prose description of the system and the code differ, the model follows the code:

- A captured camera replaces the stored one; it is not merged into it.
- Timer ticks do not suppress historical mode.
- A failed lazy initialisation is not remembered, so the next call tries again.
- A click on an empty timeline still enters historical mode, with no snapshot.
- A truthy stored 'camera' that is not a dictionary makes the controller show the error placeholder rather than apply no camera.

## Model

| member | source | states |
|---|---|---|
| App.IndexIn | app.py:113 | the position found holds the selected sensor and no earlier key does; there is none exactly when the sensor is not among the keys (`.index` raises) |
| App.PyPos | app.py:117 | an array index is valid exactly in -n..n-1, negative indices counting from the end |
| App.MaskedUpTo | app.py:115-117 | the masking loop keeps the array's length |
| App.MaskFail | app.py:115-117 | once a step of the masking loop raises, the whole loop raises |
| App.MaskedAt | app.py:115-117 | after the loop, each position is 0 if it is the slot of an unchecked parameter, and keeps its reading otherwise |
| App.MaskedDefined | app.py:115-117 | the loop succeeds exactly when every key can be looked up in the checklist and every unchecked key's slot lies in the array |
| App.PayloadsOf | app.py:119-123 | the line payload puts every value at x = n_intervals on traces 0..size-1 with cap 10; the bar payload puts value i at x = i on traces size..2size-1 with cap 1 |
| App.MaskInPlace | app.py:115-117 | the in-place loop succeeds exactly when the masking specification does, and then leaves the array equal to it |
| App.UpdateGraphLive | app.py:105-123 | the row handed to the database holds every sensor's readings unmasked, in order; the graphs get the payloads of the selected sensor's masked readings; a failed insert, an unknown sensor or a failed mask raises |
| Utils.Column | src/py/utils/utils.py:62-64 | the i-th column holds the i-th entry of every array, in order |
| Utils.AvgData | src/py/utils/utils.py:52-64 | every argument is kept (`.any()` on a numeric array is never None); the result has the common length and entry i is the mean of the i-th entries; the empty call gives NaN; arrays of different lengths raise; the older `avg_data` in utils/utils.py is the same code |
| Utils.AverageOfOne | src/py/utils/utils.py:52-64 | averaging a single array gives that array, value for value (in both copies of `avg_data`) |
| Utils.AverageWithin | src/py/utils/utils.py:62-64 | each averaged entry lies between the smallest and largest reading at that position |
| Utils.LeadingDigits | src/py/utils/utils.py:152 | the leading digit run of a string is all digits and is followed by a non-digit or the end |
| Utils.DigitRuns | src/py/utils/utils.py:151-152 | every run `\d+` finds is non-empty and all digits |
| Utils.RunsCoverDigits | src/py/utils/utils.py:151-152 | the runs, concatenated, are exactly the name's digits in order |
| Utils.RunsSplitAtNonDigit | src/py/utils/utils.py:151-152 | a non-digit separates runs: the runs of `a c b` are those of `a` followed by those of `b`, so runs are maximal and left to right |
| Utils.AllDigitsOneRun | src/py/utils/utils.py:151-152 | a name made only of digits is one run |
| Utils.HeatFactory | src/py/utils/utils.py:104-129 | n sensors give 2n heatmaps, the k-th at x = k, with "sunsetdark" at even x and "deep" at odd x, all with z range 0..100 |
| Utils.EventFactory | src/py/utils/utils.py:131-149 | one button per event, in order, labelled and identified by its key and styled by its value; the inputs are the start and end buttons followed by one per event, 2 + n in all; button ids are distinct |
| Utils.ScatterFactory | src/py/utils/utils.py:77-88 | one empty scatter trace per parameter, in order, named after it and drawn in the given mode |
| Utils.BarFactory | src/py/utils/utils.py:91-101 | one empty bar trace per parameter, in order, named after it; the mode is ignored |
| Utils.Suffixed | src/py/utils/utils.py:166-169 | every parameter name followed by the sensor's number, in parameter order |
| Utils.ColumnNamesLength | src/py/utils/utils.py:164-169 | the index has len(sensors) x len(params) names |
| Utils.ColumnNameAt | src/py/utils/utils.py:164-169 | name s x len(params) + p is parameter p followed by str(SENSORS_MAP[sensor s]): sensor-major, then parameters |
| Utils.ExtendSuffixed | src/py/utils/utils.py:166-169 | `index += map(...)` appends the suffixed parameter names after the existing ones |
| Utils.ColumnIndex | src/py/utils/utils.py:164-169 | the index loop returns the column names when every sensor is in the map, and raises (`KeyError`) otherwise; the heat plot repeats the same loop at lines 205-210 |
| BrainVisualizer.NormalizeLandmarks | src/py/brain_viz/brain_visualizer.py:207-209 | the normalisation sends 0 to -6, 50 to 0 and 100 to 6, the colour-scale bounds of both surfaces |
| BrainVisualizer.NormalizeIncreasing | src/py/brain_viz/brain_visualizer.py:207-209 | the normalisation is strictly increasing |
| BrainVisualizer.CoverageLandmarks | src/py/brain_viz/brain_visualizer.py:211-212 | coverage is 0.1 at signal strength 0 and 1.0 at 100 |
| BrainVisualizer.CoverageMonotone | src/py/brain_viz/brain_visualizer.py:211-212 | coverage never decreases as signal strength grows |
| BrainVisualizer.RadiusMonotone | src/py/brain_viz/brain_visualizer.py:222 | for a non-negative brain size and factor, the decay radius size x factor x coverage never shrinks as the signal grows |
| BrainVisualizer.FadeShape | src/py/brain_viz/brain_visualizer.py:224-226 | the fade gives the full normalised value at distance 0, exactly 0 at and past the radius, and for a positive value strictly less than it, but not below zero, at any positive distance |
| BrainVisualizer.Regions | src/py/brain_viz/brain_visualizer.py:215-295 | each entry of the sensor table has its anchor on the hemisphere it paints and a positive radius factor; "uid" and unknown names have no entry |
| BrainVisualizer.MinOf | src/py/brain_viz/brain_visualizer.py:185-191 | the coordinate minimum is one of the coordinates and at most every one of them |
| BrainVisualizer.MaxOf | src/py/brain_viz/brain_visualizer.py:185-191 | the coordinate maximum is one of the coordinates and at least every one of them |
| BrainVisualizer.ReadSensor | src/py/brain_viz/brain_visualizer.py:203-205 | an empty record reads as attention, meditation and signal strength 50; a record that is not a dictionary cannot be read (Python raises on `.get`) |
| BrainVisualizer.RegionField | src/py/brain_viz/brain_visualizer.py:221-226 | the fade field around one anchor has one value per vertex |
| BrainVisualizer.AddRegions | src/py/brain_viz/brain_visualizer.py:215-295 | adding a sensor's regions onto a field keeps one value per vertex |
| BrainVisualizer.Contribution | src/py/brain_viz/brain_visualizer.py:198-200 | the field one snapshot entry adds has one value per vertex; "uid" adds nothing |
| BrainVisualizer.Field | src/py/brain_viz/brain_visualizer.py:176-297 | a hemisphere's field in snapshot order has one value per vertex |
| BrainVisualizer.AddRegionsOnto | src/py/brain_viz/brain_visualizer.py:215-295 | adding regions with `+=` onto an accumulator equals adding their own field to it |
| BrainVisualizer.FieldRemove | src/py/brain_viz/brain_visualizer.py:198-295 | taking one entry out of a snapshot, anywhere, takes away exactly its contribution |
| BrainVisualizer.FieldOrderIndependent | src/py/brain_viz/brain_visualizer.py:177-295 | the field depends on the multiset of snapshot entries, not on their order |
| BrainVisualizer.IntensityOrderIndependent | src/py/brain_viz/brain_visualizer.py:153-297 | reordering a snapshot changes neither the two intensities nor whether they can be computed |
| BrainVisualizer.NoRegionNoContribution | src/py/brain_viz/brain_visualizer.py:199-295 | an entry without regions, such as "uid" or an unknown sensor, leaves the field unchanged |
| BrainVisualizer.FieldStep | src/py/brain_viz/brain_visualizer.py:198 | processing one more entry adds its contribution to the field |
| BrainVisualizer.FieldOfOne | src/py/brain_viz/brain_visualizer.py:176-227 | the field of a one-entry snapshot is that entry's contribution |
| BrainVisualizer.SingleSensorAField | src/py/brain_viz/brain_visualizer.py:215-227 | a lone sensor_a record leaves the right hemisphere at zero and paints the left one with a single fade around P3, with radius size x 0.25 x coverage and peak at the normalised attention |
| BrainVisualizer.AddSensor | src/py/brain_viz/brain_visualizer.py:198-212 | one snapshot entry is skipped if it is "uid", fails if its record cannot be read, and otherwise adds its contribution to both fields |
| BrainVisualizer.AddSensorRegions | src/py/brain_viz/brain_visualizer.py:215-295 | the per-sensor branch adds each of its regions' fades into the field of that region's hemisphere |
| BrainVisualizer.SensorKeys | src/py/brain_viz/brain_visualizer.py:315 | the sensor names are exactly the snapshot keys other than "uid" |
| BrainVisualizer.TitleOfOneSensor | src/py/brain_viz/brain_visualizer.py:316-318 | one sensor beside "uid", in either order, gives the suffix " - " plus the upper-cased name |
| BrainVisualizer.TitleOfSeveralSensors | src/py/brain_viz/brain_visualizer.py:319-320 | any other count n gives " - Todos los Sensores (n)" |
| BrainVisualizer.InitAfter | src/py/brain_viz/brain_visualizer.py:24-51 | once initialised the state is kept; otherwise a successful load is stored and a failed one leaves the visualiser uninitialised |
| BrainVisualizer.LiveFigureOnceLoaded | src/py/brain_viz/brain_visualizer.py:299-322 | once loaded, the live figure is produced exactly when every sensor record is readable, and then it is the brain with the synthesised fields and the title suffix |
| BrainVisualizer.Visualizer.constructor | src/py/brain_viz/brain_visualizer.py:14-22 | a new visualiser is uninitialised, with no assets and no figure |
| BrainVisualizer.Visualizer.LazyInit | src/py/brain_viz/brain_visualizer.py:24-51 | returns True at once when initialised; otherwise it stores a successful load and returns True, or returns False and stays uninitialised so the next call retries |
| BrainVisualizer.Visualizer.UpdateBrainIntensity | src/py/brain_viz/brain_visualizer.py:153-297 | before initialisation the result is (None, None); after it, the loop's two arrays are the (right, left) fields of the snapshot, or an unreadable record raises |
| BrainVisualizer.Visualizer.CreateBrainFigure | src/py/brain_viz/brain_visualizer.py:53-131 | uninitialised gives the fallback figure; otherwise a missing intensity is replaced by the reference map, the title gets the suffix, and the figure is kept as the last one built |
| BrainVisualizer.Visualizer.CreateLiveBrainFigure | src/py/brain_viz/brain_visualizer.py:299-322 | the result is the live-figure specification of the state before the call, and the visualiser's initialisation follows the lazy-init rule |
| Database.Quotes | src/py/database/database.py:26-27 | sensor i contributes one quoted column `"<param><i>"` per parameter, in parameter order |
| Database.ColumnsLength | src/py/database/database.py:24-28 | the header has len(sensors) x len(params) columns |
| Database.ColumnAt | src/py/database/database.py:25-27 | column i x len(params) + k is parameter k of sensor i: sensors in the outer loop, parameters in the inner one |
| Database.TerminatedJoin | src/py/database/database.py:27-28 | dropping the last character of the accumulated `col,col,...,` leaves the columns joined by commas, with no trailing comma |
| Database.HeaderStep | src/py/database/database.py:27 | one step of the inner loop appends one quoted column and a comma |
| Database.GetHeader | src/py/database/database.py:19-28 | the first string is the columns joined by commas; the second is the regular-expression substitution applied to it; the older copy in database/database.py is the same code |
| Database.TryWords | src/py/database/database.py:28 | a match of `.\w{j}\d.` found by backtracking is at least 3 characters long and inside the string |
| Database.MatchLength | src/py/database/database.py:28 | a greedy match of `.\w{0,20}\d.` at the start of the string is at least 3 characters and inside the string |
| Database.QuotedMatches | src/py/database/database.py:28 | a quoted column whose body is word characters ending in a digit, at most 21 long, is matched as a whole, whatever follows |
| Database.QuotedThenComma | src/py/database/database.py:28 | such a column followed by a comma and the next quote becomes `?` and the comma is kept |
| Database.CommaKept | src/py/database/database.py:28 | a comma before a quote starts no match and is kept |
| Database.SubOfColumns | src/py/database/database.py:28 | the substitution turns comma-joined recognisable quoted columns into as many `?` joined by commas |
| Database.Bodies | src/py/database/database.py:25-27 | quoting the column bodies gives exactly the header's columns |
| Database.BodiesReplaceable | src/py/database/database.py:27-28 | when parameters are word characters and short enough for `\w{0,20}\d`, every column body is recognised by the pattern |
| Database.Placeholders | src/py/database/database.py:28 | under that condition the placeholder string is n x len(params) `?` joined by commas, one per column |
| Database.EmptyHeader | src/py/database/database.py:24-28 | no sensors or no parameters give two empty strings |
| Database.CountPlaceholders | src/py/database/database.py:28 | n question marks joined by commas hold exactly n `?` |
| Database.Flatten | src/py/database/database.py:84-87 | the row is the arrays concatenated in order, as in the older copy in database/database.py |
| Database.FlatLength | src/py/database/database.py:84-87 | the row holds as many values as the arrays together |
| Database.FlatUniform | src/py/database/database.py:84-87 | with m values per sensor, the row has len(data) x m values and value k x m + j is value j of sensor k |
| Database.ValuesFillPlaceholders | src/py/database/database.py:76-87 | one array of len(params) readings per sensor gives exactly as many values as the placeholder string has `?` |
| LegacyDatabase.SensorParamsFixed | database/database.py:6-18 | the built-in parameter list has eleven names, beginning signal_strength, attention, meditation |
| LegacyDatabase.ParamsAreWords | database/database.py:6-18 | every built-in parameter is made of word characters and at most 15 long |
| LegacyDatabase.DigitCount | database/database.py:47 | a sensor number below 10^k is written with at most k digits |
| LegacyDatabase.BuiltInParamsShort | database/database.py:44-48 | with up to a million sensors every built-in column is recognised by the placeholder pattern |
| LegacyDatabase.BuiltInHeader | database/database.py:44-48 | with the built-in parameters, k sensors give 11k columns and a placeholder string of 11k `?` joined by commas |
| LegacyUtils.GetData | utils/utils.py:37-44 | a sensor that answers gives its readings value for value; a failed request gives len(TEST_PARAMS) = 2 missing values |
| LegacyUtils.FallbackOnlyOnFailure | utils/utils.py:42-44 | the result holds a missing value exactly when the request failed |
| LiveApp.SelectQuantity | live_app.py:44-48 | 'individual' gives the single-sensor graphs captioned with the sensor, 'todos' gives all graphs captioned "Todos los sensores", and any other value returns nothing |
| LiveApp.OnStartup | live_app.py:55-57 | the title is "session_" followed by the uid, and the memory store is exactly {'uid': uid} |
| LiveApp.ToggleOffcanvas | live_app.py:181-184 | a truthy click count flips whether the panel is open; a falsy one returns `is_open` unchanged |
| LiveApp.ToggleTwice | live_app.py:181-184 | two clicks bring the panel back to its original state |
| LiveApp.Records | live_app.py:76-81 | one record per sensor's readings, in order |
| LiveApp.BuildRecord | live_app.py:77-81 | the inner loop's record is the parameter keys updated one by one with the readings, up to the shorter of the two |
| LiveApp.StoreData | live_app.py:66-83 | the store is the snapshot of this tick's readings under the incoming uid; a store without 'uid', or a failed database insert, raises |
| LiveApp.ZipAt | live_app.py:76-78 | `zip` pairs the i-th key with the i-th value, up to the shorter sequence |
| LiveApp.PutAllAppends | live_app.py:76-81 | updating a dictionary with distinct fresh keys appends them in order |
| LiveApp.RecordIsZip | live_app.py:78-81 | with distinct parameter names, a record is the positional zip of names and readings, truncated to the shorter side |
| LiveApp.RecordGet | live_app.py:78-81 | parameter i of a record holds reading i |
| LiveApp.SnapshotIsZip | live_app.py:72-81 | with distinct sensor keys other than 'uid', the snapshot is the uid followed by one record per sensor, in configuration order |
| LiveApp.SnapshotShape | live_app.py:72-81 | the snapshot's keys are 'uid' and then the sensors the zip reaches; it keeps the incoming uid and sensor k's entry is its record |
| LiveApp.SnapshotGet | live_app.py:76-81 | sensor k's entry of the snapshot is its record |
| LiveApp.StartupThenStore | live_app.py:55-83 | the store `on_startup` writes has the uid `store_data` reads, and the snapshot carries that uid on |
| LiveApp.SensorRecord | live_app.py:97 | `data[sensor].items()` can be read exactly when the sensor is present and its entry is a dictionary |
| LiveApp.MaskRecord | live_app.py:95-101 | one row per key of the record: `[value]` if the key is checked, `[None]` otherwise; an unsearchable checklist raises unless the record is empty |
| LiveApp.UpdateLines | live_app.py:93-105 | one row per key of the selected record, masked by the checklist, all at x = timer, traces 0..n-1, cap 15; a missing record raises |
| LiveApp.UpdateBars | live_app.py:115-127 | the same rows, bar i at x = i, traces 0..n-1, cap 1 |
| LiveApp.StoredRecord | live_app.py:72-97 | a snapshot `store_data` built hands `update_lines` the sensor's own record |
| LiveApp.Checklist | live_app.py:98 | a checklist value lists the checked names in order |
| LiveApp.CheckedRow | live_app.py:98-101 | against a checklist, a row holds the value exactly when its key is checked |
| LiveApp.StoredRowsMasked | live_app.py:76-101 | drawn from a stored snapshot, row i of a sensor's lines and bars is reading i when parameter i is checked and a gap otherwise |
| LiveApp.SensorCells | live_app.py:139-140 | one sensor gives `[[attention]]` then `[[meditation]]`, and fails when either reading is missing |
| LiveApp.UpdateHeatmap | live_app.py:136-151 | z is the cells of every configured sensor in order, y is the timer for each of the 2n cells, traces 0..2n-1, cap 30; a sensor without either reading raises |
| LiveApp.CellsFail | live_app.py:138-140 | once one sensor fails, the whole heatmap fails |
| LiveApp.CellsShape | live_app.py:137-140 | the cells exist exactly when every sensor has both readings, and there are then 2n of them |
| LiveApp.CellAt | live_app.py:137-140 | cell 2k is sensor k's attention and cell 2k+1 its meditation |
| LiveApp.StoredHeatReady | live_app.py:72-140 | a snapshot built from parameters that name attention and meditation is always drawable, and cell 2k holds sensor k's attention reading |
| LiveApp.StoredMetrics | live_app.py:72-140 | in a stored snapshot, sensor k's attention and meditation are its readings at those parameters' positions |
| CleanBrainCallbacks.GateState | src/py/brain_viz/live_brain_callbacks_clean.py:99-102 | the gate state is a dictionary of exactly 'is_interacting' and 'last_interaction', in that order |
| CleanBrainCallbacks.GateKeepsReady | src/py/brain_viz/live_brain_callbacks_clean.py:85-120 | from an empty store or one whose last interaction time is a number, the gate never raises, and the state it returns is again one it can work with |
| CleanBrainCallbacks.GateStateReady | src/py/brain_viz/live_brain_callbacks_clean.py:99-115 | a gate state written with a numeric time is one the gate can work with |
| CleanBrainCallbacks.GateStartsPause | src/py/brain_viz/live_brain_callbacks_clean.py:95-102 | a graph relayout with data starts a pause stamped with the current clock reading |
| CleanBrainCallbacks.GateResumesAfterQuiet | src/py/brain_viz/live_brain_callbacks_clean.py:104-117 | while interacting, a timer tick resumes exactly when more than two seconds passed since the last interaction, keeping that time; otherwise the state is returned unchanged |
| CleanBrainCallbacks.GateOtherwiseUnchanged | src/py/brain_viz/live_brain_callbacks_clean.py:92-120 | any other trigger, or a graph event without relayout data, returns the stored state, or the idle default for an empty store |
| CleanBrainCallbacks.ModeOf | src/py/brain_viz/live_brain_callbacks_clean.py:146 | without a timeline store the mode is 'live'; a truthy store that is not a dictionary makes the lookup raise |
| CleanBrainCallbacks.PauseFlag | src/py/brain_viz/live_brain_callbacks_clean.py:154-156 | an empty interaction store never pauses |
| CleanBrainCallbacks.Restrict | src/py/brain_viz/live_brain_callbacks_clean.py:241-246 | a camera applied from a configuration is non-empty and holds exactly the configuration's keys that are one of eye, center, up, projection |
| CleanBrainCallbacks.Render | src/py/brain_viz/live_brain_callbacks_clean.py:168-209 | every placeholder reply writes the camera store back unchanged; a plan to build carries the camera chosen from the store |
| CleanBrainCallbacks.Decide | src/py/brain_viz/live_brain_callbacks_clean.py:145-209 | every reply echoes the camera store, a plan to build applies the camera chosen from the store, and skipping the update happens only on a timer or memory tick |
| CleanBrainCallbacks.Finish | src/py/brain_viz/live_brain_callbacks_clean.py:209-259 | once the figure is built the reply always updates both outputs and echoes the camera store; a builder failure becomes the error placeholder |
| CleanBrainCallbacks.UpdateBrainVisualization | src/py/brain_viz/live_brain_callbacks_clean.py:133-259 | the reply is the decision's reply, finished with the figure the shared visualiser builds; a decision that answers at once leaves the visualiser (initialisation, assets, last figure) alone; a build initialises it as `_lazy_init` does and records the figure exactly when it is initialised and the build produced one |
| CleanBrainCallbacks.CameraStoreEchoed | src/py/brain_viz/live_brain_callbacks_clean.py:174-259 | every reply that updates the outputs writes the incoming camera store back unchanged |
| CleanBrainCallbacks.NoUpdateExactly | src/py/brain_viz/live_brain_callbacks_clean.py:154-166 | the update is skipped exactly on a timer or memory tick in paused mode, or in live mode while the user interacts |
| CleanBrainCallbacks.NoUpdateOnlyOnLiveOrPausedTicks | src/py/brain_viz/live_brain_callbacks_clean.py:158-166 | sensor, quantity and timeline changes, and historical mode, are never skipped |
| CleanBrainCallbacks.HistoricalIgnoresLiveData | src/py/brain_viz/live_brain_callbacks_clean.py:148-150 | in historical mode with a selected snapshot the live data plays no part in what is drawn |
| CleanBrainCallbacks.HistoricalWithoutSelectionUsesLive | src/py/brain_viz/live_brain_callbacks_clean.py:145-222 | historical mode without a truthy selection draws the live data, marked with the selected time |
| CleanBrainCallbacks.RenderSelected | src/py/brain_viz/live_brain_callbacks_clean.py:168-209 | data with 'uid' whose sensors are selected is built with the playback mark and the store's camera |
| CleanBrainCallbacks.WaitingWithoutUid | src/py/brain_viz/live_brain_callbacks_clean.py:168-174 | data without 'uid', or no data, shows the waiting placeholder whenever the update is not skipped |
| CleanBrainCallbacks.NestedCameraApplied | src/py/brain_viz/live_brain_callbacks_clean.py:234-247 | a stored 'camera' sub-dictionary wins; the applied camera exists exactly when it names a camera part, and holds exactly those parts with their values |
| CleanBrainCallbacks.RestrictDict | src/py/brain_viz/live_brain_callbacks_clean.py:241-247 | restricting a dictionary keeps exactly its camera parts with their values, or applies nothing if it has none |
| CleanBrainCallbacks.FlatCameraApplied | src/py/brain_viz/live_brain_callbacks_clean.py:236-247 | without 'camera', a store naming any camera part is applied itself, restricted to the four parts |
| CleanBrainCallbacks.UnrelatedCameraIgnored | src/py/brain_viz/live_brain_callbacks_clean.py:238-241 | a store with neither 'camera' nor any camera part applies no camera |
| CleanBrainCallbacks.SceneCameraFromStore | src/py/brain_viz/live_brain_callbacks_clean.py:225-251 | every drawn scene carries the camera chosen from the store at that moment, and the store is echoed |
| CleanBrainCallbacks.TicksResumeAfterQuiet | src/py/brain_viz/live_brain_callbacks_clean.py:95-166 | ticks while the user holds the camera are skipped; half a second later the gate still holds, after more than two seconds it resumes and the next tick redraws |
| CleanBrainCallbacks.HeldTicksSkipped | src/py/brain_viz/live_brain_callbacks_clean.py:158-161 | timer and memory ticks while interacting in live mode are skipped |
| CleanBrainCallbacks.FreeTickRedraws | src/py/brain_viz/live_brain_callbacks_clean.py:158-209 | a timer tick after the pause ended redraws the live data without a mark |
| CleanBrainCallbacks.LiveWithoutTimeline | src/py/brain_viz/live_brain_callbacks_clean.py:145-150 | without a timeline store the controller is live, draws the live data and marks nothing |
| CleanBrainCallbacks.GateFlag | src/py/brain_viz/live_brain_callbacks_clean.py:155-156 | the gate state's interaction flag reads back as written |
| CleanBrainCallbacks.SetPath | src/py/brain_viz/live_brain_callbacks_clean.py:289-294 | filing a value along a key path adds at most the path's first key to the dictionary and keeps every key it had |
| CleanBrainCallbacks.CameraPath | src/py/brain_viz/live_brain_callbacks_clean.py:285-286 | the key path of an entry is never empty |
| CleanBrainCallbacks.StoreBrainCameraState | src/py/brain_viz/live_brain_callbacks_clean.py:268-306 | the capture loop returns what the specification of the capture gives: the filed camera restricted to its four parts when any camera entry was seen and something is left, else the current store or an empty dictionary |
| CleanBrainCallbacks.CollectRaisesForever | src/py/brain_viz/live_brain_callbacks_clean.py:280-294 | once filing an entry raised, the whole walk raises |
| CleanBrainCallbacks.DottedKeyPath | src/py/brain_viz/live_brain_callbacks_clean.py:281-286 | a key 'scene.camera.<part>.<axis>' mentions the camera and its path is [part, axis] |
| CleanBrainCallbacks.DottedUnprefixed | src/py/brain_viz/live_brain_callbacks_clean.py:285 | removing the 'scene.camera.' prefix from a per-axis key leaves '<part>.<axis>' |
| CleanBrainCallbacks.WholeKeyPath | src/py/brain_viz/live_brain_callbacks_clean.py:281-286 | the whole-object key 'scene.camera' is kept as it is by the replacement and its path is ['scene', 'camera'] |
| CleanBrainCallbacks.SetTwoLevels | src/py/brain_viz/live_brain_callbacks_clean.py:289-294 | filing a value under two missing levels creates the two nested dictionaries |
| CleanBrainCallbacks.CollectOne | src/py/brain_viz/live_brain_callbacks_clean.py:280-294 | a single relayout entry that mentions the camera is filed by its path |
| CleanBrainCallbacks.CaptureDottedKey | src/py/brain_viz/live_brain_callbacks_clean.py:273-303 | a single entry 'scene.camera.<part>.<axis>' for a camera part becomes the store {part: {axis: value}} |
| CleanBrainCallbacks.CollectEdits | src/py/brain_viz/live_brain_callbacks_clean.py:280-294 | for any number of relayout entries 'scene.camera.<part>.<axis>' (no dots in part or axis) the walk never raises, reports a camera entry exactly when there was one, and builds a dictionary whose keys are exactly the parts named, each holding a dictionary, where [part][axis] is the value of the last entry naming that pair and absent when no entry names it |
| CleanBrainCallbacks.CollectSnoc | src/py/brain_viz/live_brain_callbacks_clean.py:280-294 | one more entry whose key mentions the camera is filed into the dictionary built so far and sets the seen-camera flag |
| CleanBrainCallbacks.SetPathTwo | src/py/brain_viz/live_brain_callbacks_clean.py:289-294 | where every top-level value is a dictionary, filing along [part, axis] creates the level part when it is missing, reuses it when present, and sets axis in it |
| CleanBrainCallbacks.EditStep | src/py/brain_viz/live_brain_callbacks_clean.py:289-294 | filing one more edit into a camera built from earlier edits succeeds and gives the camera built from all of them: a second axis of the same part joins the existing level, a repeated pair is overwritten |
| CleanBrainCallbacks.KeepEdited | src/py/brain_viz/live_brain_callbacks_clean.py:296-301 | when every edit names one of the four camera parts, the restriction keeps the whole built camera and it is not empty |
| CleanBrainCallbacks.CaptureCollected | src/py/brain_viz/live_brain_callbacks_clean.py:296-303 | a walk that saw a camera key and whose filtered result is not empty makes the capture return that filtered result |
| CleanBrainCallbacks.CaptureEdits | src/py/brain_viz/live_brain_callbacks_clean.py:273-303 | any non-empty relayout of plain 'scene.camera.<part>.<axis>' entries for the four camera parts is captured as the camera those entries build: keys exactly the parts named, [part][axis] the last value given for it, whatever the store held |
| CleanBrainCallbacks.CaptureTwoAxes | src/py/brain_viz/live_brain_callbacks_clean.py:273-303 | the relayout {'scene.camera.eye.x': x, 'scene.camera.eye.y': y} is stored as {'eye': {...}} with eye.x = x and eye.y = y |
| CleanBrainCallbacks.KeepOneCameraPart | src/py/brain_viz/live_brain_callbacks_clean.py:298-299 | a single entry under one of the four camera parts survives the restriction |
| CleanBrainCallbacks.CaptureOtherLevelKeeps | src/py/brain_viz/live_brain_callbacks_clean.py:296-306 | an entry filed under a level other than the four camera parts is dropped and the current store kept |
| CleanBrainCallbacks.CaptureWholeCameraKeyKeeps | src/py/brain_viz/live_brain_callbacks_clean.py:280-306 | a whole-object 'scene.camera' entry is filed under 'scene' and dropped, so the current store is kept |
| CleanBrainCallbacks.CaptureReplaces | src/py/brain_viz/live_brain_callbacks_clean.py:296-303 | a captured camera replaces the store: it does not depend on what the store held |
| CleanBrainCallbacks.CaptureKeepsOnlyCameraParts | src/py/brain_viz/live_brain_callbacks_clean.py:273-306 | the capture returns the current store, an empty dictionary, or a non-empty camera of the four parts only |
| SimpleBrainCallbacks.Decide | src/py/brain_viz/live_brain_callbacks_simple.py:32-66 | every placeholder reply writes the camera store back unchanged, and a plan to build carries that store |
| SimpleBrainCallbacks.CopyCamera | src/py/brain_viz/live_brain_callbacks_simple.py:69-74 | a truthy stored camera dictionary is copied as it is; an empty store applies nothing |
| SimpleBrainCallbacks.Finish | src/py/brain_viz/live_brain_callbacks_simple.py:66-83 | once the figure is built the reply updates both outputs and echoes the camera store; a builder failure becomes the error placeholder |
| SimpleBrainCallbacks.UpdateBrainVisualization | src/py/brain_viz/live_brain_callbacks_simple.py:23-83 | the reply is the decision's reply, finished with the figure the shared visualiser builds; a decision that answers at once leaves the visualiser (initialisation, assets, last figure) alone; a build initialises it as `_lazy_init` does and records the figure exactly when it is initialised and the build produced one |
| SimpleBrainCallbacks.NeverNoUpdate | src/py/brain_viz/live_brain_callbacks_simple.py:23-83 | this controller never skips an update, and every reply echoes the camera store |
| SimpleBrainCallbacks.OnlyCleanSkips | src/py/brain_viz/live_brain_callbacks_clean.py:158-161 | the clean controller, unlike this one, skips a live timer tick while the user interacts |
| SimpleBrainCallbacks.CameraCopiedVerbatim | src/py/brain_viz/live_brain_callbacks_simple.py:69-76 | a stored camera dictionary is put into the scene whole, without keeping only the camera parts |
| SimpleBrainCallbacks.WaitingWithoutUid | src/py/brain_viz/live_brain_callbacks_simple.py:32-37 | data without 'uid', or no data, shows the waiting placeholder |
| SimpleBrainCallbacks.SameSelectionAsClean | src/py/brain_viz/live_brain_callbacks_simple.py:32-63 | with no timeline store and no interaction the clean controller gives the same placeholders and builds from the same sensors |
| SimpleBrainCallbacks.CaptureWholeObject | src/py/brain_viz/live_brain_callbacks_simple.py:97-110 | a 'scene.camera' entry replaces the store when truthy, else the store is kept |
| SimpleBrainCallbacks.CaptureNestedObject | src/py/brain_viz/live_brain_callbacks_simple.py:104-110 | without 'scene.camera', a nested scene camera replaces the store when truthy, else the store is kept |
| SimpleBrainCallbacks.CaptureIgnoresDottedKeys | src/py/brain_viz/live_brain_callbacks_simple.py:100-110 | per-axis keys such as 'scene.camera.eye.x' are not looked at: the store is kept |
| SimpleBrainCallbacks.CapturesDisagreeOnWholeKey | src/py/brain_viz/live_brain_callbacks_simple.py:102-108 | on the whole-object key this capture stores the camera, while the clean capture keeps the current store |
| LiveBrainCallbacks.UpdateBrainVisualization | src/py/brain_viz/live_brain_callbacks.py:15-44 | the callback asks the visualiser for the figure the selection rule chooses; when the selection itself raises, the visualiser is not touched; otherwise it is initialised as `_lazy_init` does and its last figure becomes the returned figure exactly when it is initialised and the call returns |
| LiveBrainCallbacks.NoDataGivesDefault | src/py/brain_viz/live_brain_callbacks.py:29-31 | falsy data gives the default (reference-map) figure |
| LiveBrainCallbacks.IndividualPassesRecordAndUid | src/py/brain_viz/live_brain_callbacks.py:33-37 | in 'individual' mode with the sensor present, the builder gets exactly {sensor: data[sensor], 'uid': data.get('uid', '')} |
| LiveBrainCallbacks.IndividualAbsentGivesDefault | src/py/brain_viz/live_brain_callbacks.py:38-39 | in 'individual' mode with the sensor absent, the default figure is drawn |
| LiveBrainCallbacks.OtherModesPassWholeData | src/py/brain_viz/live_brain_callbacks.py:40-42 | any other mode passes the whole data, 'uid' included, unchanged |
| LiveBrainCallbacks.UnloadedGivesFallback | src/py/brain_viz/live_brain_callbacks.py:15-44 | while the assets cannot be loaded, every redraw is the fallback figure |
| BrainPanel.CheckCount | src/py/brain_viz/live_brain_callbacks_clean.py:199-205 | a snapshot is drawn exactly when it holds more than the 'uid' entry |
| BrainPanel.TodosSelection | src/py/brain_viz/live_brain_callbacks_clean.py:183-205 | in 'todos' mode a snapshot is drawn exactly when some non-uid entry is not None; it then holds exactly those entries and 'uid', each with its value from the data, and otherwise the no-sensors placeholder is shown |
| BrainPanel.TodosSnapshot | src/py/brain_viz/live_brain_callbacks_clean.py:183-186 | the 'todos' snapshot is the kept entries with 'uid' appended after them, every value taken from the data |
| BrainPanel.TodosNonEmpty | src/py/brain_viz/live_brain_callbacks_clean.py:185 | something is kept exactly when some non-uid entry is not None |
| BrainPanel.IndividualSelection | src/py/brain_viz/live_brain_callbacks_clean.py:187-205 | in any other mode a present sensor gives the snapshot {sensor, 'uid'} in that order; selecting 'uid' itself leaves nothing to draw; an absent sensor shows the missing-sensor message naming it |
| SimpleTimeline.EmptySession | src/py/brain_viz/simple_timeline.py:124-132 | a fresh session store has five empty parallel lists, the given start and a history length of 120 |
| SimpleTimeline.ModeStore | src/py/brain_viz/simple_timeline.py:133-137 | the playback-mode store holds exactly 'mode', 'selected_time' and 'selected_data', in that order |
| SimpleTimeline.GetTimelineExtendData | src/py/brain_viz/simple_timeline.py:162-178 | the extend payload has one x list and one y list per trace; every x list is the single new time and every y list one value |
| SimpleTimeline.ExtendMatchesTraces | src/py/brain_viz/simple_timeline.py:22-178 | the i-th y list of the payload is the value of the i-th trace of the timeline: Attention, Meditation, Signal Strength |
| SimpleTimeline.InitialStores | src/py/brain_viz/simple_timeline.py:124-137 | the layout starts with an empty session of length 120 and no start, in live mode with no selected time or snapshot |
| TimelineCallbacks.ControlNamesDistinct | src/py/brain_viz/simple_timeline_callbacks.py:14-19 | the ids of the reset button, the timeline graph and the pause and resume buttons are pairwise different, so each trigger test picks one branch |
| TimelineCallbacks.MetricOf | src/py/brain_viz/simple_timeline_callbacks.py:70-72 | a metric missing from a sensor dictionary counts as 0; a record that is not a dictionary makes the callback raise |
| TimelineCallbacks.PointOf | src/py/brain_viz/simple_timeline_callbacks.py:69-72 | a record yields a point exactly when all three of its metrics can be read, and the point holds those three values |
| TimelineCallbacks.PointsFailForever | src/py/brain_viz/simple_timeline_callbacks.py:68-72 | once a record raised, the whole averaging loop raises |
| TimelineCallbacks.Attentions | src/py/brain_viz/simple_timeline_callbacks.py:70 | the attention list has one value per point, in order |
| TimelineCallbacks.Meditations | src/py/brain_viz/simple_timeline_callbacks.py:71 | the meditation list has one value per point, in order |
| TimelineCallbacks.Signals | src/py/brain_viz/simple_timeline_callbacks.py:72 | the signal list has one value per point, in order |
| TimelineCallbacks.PyTail | src/py/brain_viz/simple_timeline_callbacks.py:89-93 | Python's l[-n:] is a suffix of the list, never longer than it |
| TimelineCallbacks.TrimWindow | src/py/brain_viz/simple_timeline_callbacks.py:86-93 | the cut keeps the lists parallel, the start and the cap; each list becomes its newest entries in order, exactly the cap many once it outgrew the cap |
| TimelineCallbacks.Base | src/py/brain_viz/simple_timeline_callbacks.py:48-58 | the session an append starts from always has a start |
| TimelineCallbacks.InLiveMode | src/py/brain_viz/simple_timeline_callbacks.py:44-46 | a missing or empty mode store counts as live, a dictionary is live exactly when its mode is 'live', and a store of another kind makes the lookup raise |
| TimelineCallbacks.AverageSensors | src/py/brain_viz/simple_timeline_callbacks.py:63-77 | the averaging loop succeeds exactly when every counted record can be read, and then gives the means of the three metric lists of those records |
| TimelineCallbacks.PointsExtend | src/py/brain_viz/simple_timeline_callbacks.py:68-72 | one more entry is skipped if not counted, else its point is appended or the loop raises |
| TimelineCallbacks.PointColumns | src/py/brain_viz/simple_timeline_callbacks.py:70-72 | appending a point appends its three metrics to the three lists |
| TimelineCallbacks.SessionStore.constructor | src/py/brain_viz/simple_timeline.py:124-132 | the store starts as the layout's empty session, a well-formed buffer |
| TimelineCallbacks.SessionStore.UpdateSessionData | src/py/brain_viz/simple_timeline_callbacks.py:22-98 | the callback keeps the buffer well formed; it succeeds exactly when the specification of the update returns, the new store is that result, and a raising call leaves the store unchanged |
| TimelineCallbacks.SessionStore.AppendSample | src/py/brain_viz/simple_timeline_callbacks.py:48-93 | starting the session if needed, appending the sample at the time since the start and cutting to the cap gives the cut of the appended base session |
| TimelineCallbacks.SessionStore.StartIfNeeded | src/py/brain_viz/simple_timeline_callbacks.py:48-58 | a missing or zero start begins a fresh empty session now; otherwise the store is unchanged |
| TimelineCallbacks.SessionStore.ResetSession | src/py/brain_viz/simple_timeline_callbacks.py:28-38 | the store becomes the empty session started at this call's clock reading, with the cap of 120 |
| TimelineCallbacks.SessionStore.AppendAverage | src/py/brain_viz/simple_timeline_callbacks.py:48-93 | succeeds exactly when every counted record reads; the store is then the base session with the averaged sample appended at the time since its start, cut to the cap, and is otherwise unchanged |
| TimelineCallbacks.SessionStore.AddSample | src/py/brain_viz/simple_timeline_callbacks.py:79-84 | one entry is appended to each of the five lists |
| TimelineCallbacks.SessionStore.TrimToCap | src/py/brain_viz/simple_timeline_callbacks.py:86-93 | every list is cut to its last max_points entries once the timestamps outgrow the cap |
| TimelineCallbacks.ResetStartsOver | src/py/brain_viz/simple_timeline_callbacks.py:27-38 | the reset button discards the session and starts a new, empty, well-formed one now with a cap of 120 |
| TimelineCallbacks.UpdateSpecKeeps | src/py/brain_viz/simple_timeline_callbacks.py:40-46 | apart from the reset button, a falsy snapshot, one without 'uid', or a mode store that reads as not live returns the buffer unchanged |
| TimelineCallbacks.UpdateSpecRaises | src/py/brain_viz/simple_timeline_callbacks.py:40-72 | apart from the reset button, a 'uid' test on a snapshot that is no container, a mode store that is no dictionary, a live snapshot that is no dictionary, or an unreadable counted record makes the update raise |
| TimelineCallbacks.UpdateSpecSamples | src/py/brain_viz/simple_timeline_callbacks.py:48-93 | past every early return, the update returns the base session with the averaged sample appended, cut to the cap |
| TimelineCallbacks.KeptWithoutUid | src/py/brain_viz/simple_timeline_callbacks.py:40-42 | a snapshot that is empty or carries no 'uid' leaves the buffer as it is |
| TimelineCallbacks.KeptOutsideLive | src/py/brain_viz/simple_timeline_callbacks.py:44-46 | outside live mode the buffer is frozen |
| TimelineCallbacks.UpdateKeepsBuffer | src/py/brain_viz/simple_timeline_callbacks.py:22-98 | every outcome of the update is a well-formed buffer again: parallel lists no longer than the cap |
| TimelineCallbacks.AppendGrows | src/py/brain_viz/simple_timeline_callbacks.py:60-84 | below the cap a live snapshot adds exactly one sample at the end of each list: the time since the start, the three means, and the snapshot |
| TimelineCallbacks.AppendDropsOldest | src/py/brain_viz/simple_timeline_callbacks.py:79-93 | at the cap the oldest sample goes and the new one is appended, so the length stays at the cap |
| TimelineCallbacks.AppendStartsSession | src/py/brain_viz/simple_timeline_callbacks.py:48-84 | a session without a start begins now, with this snapshot as its first sample at time 0 |
| TimelineCallbacks.BadRecordRaises | src/py/brain_viz/simple_timeline_callbacks.py:68-72 | a counted record that is not a dictionary, or holds a metric that is not a number, makes the update raise |
| TimelineCallbacks.BadRecordPoints | src/py/brain_viz/simple_timeline_callbacks.py:68-72 | a counted record whose metrics cannot be read makes the averaging loop raise |
| TimelineCallbacks.OneSensorAverages | src/py/brain_viz/simple_timeline_callbacks.py:68-77 | a snapshot of 'uid' and one sensor record averages to exactly that record's metrics |
| TimelineCallbacks.NoRecordsGiveZero | src/py/brain_viz/simple_timeline_callbacks.py:75-77 | a snapshot with no counted record averages to zeros |
| TimelineCallbacks.GraphSkips | src/py/brain_viz/simple_timeline_callbacks.py:110-119 | nothing is extended while the buffer is empty or the mode is not live |
| TimelineCallbacks.GraphExtendsNewest | src/py/brain_viz/simple_timeline_callbacks.py:107-136 | in live mode the chart gets the buffer's newest point for each of the three traces, in the traces' order, keeping 60 points visible |
| TimelineCallbacks.AppendThenExtend | src/py/brain_viz/simple_timeline_callbacks.py:22-136 | the point a live snapshot appends is the point the chart is extended with next |
| TimelineCallbacks.NearestIndex | src/py/brain_viz/simple_timeline_callbacks.py:169-170 | the chosen index is nearest to the clicked time, and no earlier index is as near |
| TimelineCallbacks.NearestSample | src/py/brain_viz/simple_timeline_callbacks.py:169-171 | illustration of NearestIndex: a click at 12.3 s over samples at 10, 12 and 13 s selects the sample at 12 s |
| TimelineCallbacks.NearestTieGoesEarlier | src/py/brain_viz/simple_timeline_callbacks.py:169-170 | illustration of NearestIndex's tie rule: of two equally near samples the earlier one is selected |
| TimelineCallbacks.Select | src/py/brain_viz/simple_timeline_callbacks.py:173-177 | the update sets mode, selected time and selected data, and keeps every other key with its value |
| TimelineCallbacks.ClickSelectsNearest | src/py/brain_viz/simple_timeline_callbacks.py:161-180 | a click on the timeline enters historical mode at the clicked time, with the snapshot of the first nearest sample, and the badge shows that time |
| TimelineCallbacks.HistoricalSelects | src/py/brain_viz/simple_timeline_callbacks.py:165-177 | over a non-empty buffer a click stores the clicked time and the nearest sample's snapshot |
| TimelineCallbacks.ClickResult | src/py/brain_viz/simple_timeline_callbacks.py:156-163 | a click acts on the stored mode, or on the default one when the store is empty |
| TimelineCallbacks.ClickOnEmptyBuffer | src/py/brain_viz/simple_timeline_callbacks.py:161-177 | a click on an empty buffer still enters historical mode, with no snapshot |
| TimelineCallbacks.PauseAndResumeClear | src/py/brain_viz/simple_timeline_callbacks.py:184-206 | pause and resume set their mode and badge, clear the selected time and data, and keep every other key |
| TimelineCallbacks.PauseSelects | src/py/brain_viz/simple_timeline_callbacks.py:184-192 | the pause button selects paused mode with no selection |
| TimelineCallbacks.ResumeSelects | src/py/brain_viz/simple_timeline_callbacks.py:196-204 | the resume button selects live mode with no selection |
| TimelineCallbacks.OtherTriggersKeepMode | src/py/brain_viz/simple_timeline_callbacks.py:208-221 | any other trigger keeps the mode store and shows the badge of its live or paused mode |
| TimelineCallbacks.EmptyModeStartsLive | src/py/brain_viz/simple_timeline_callbacks.py:156-211 | with no mode store yet, any other trigger yields the live default |
| Dicts.Put | src/py/brain_viz/live_brain_callbacks_clean.py:292-294 | a dictionary assignment replaces the value of a present key in place, or appends a new key last; every other key keeps its value |
| Dicts.Filter | src/py/brain_viz/live_brain_callbacks_clean.py:298-299 | a dictionary comprehension with a condition keeps exactly the entries satisfying it, with their values, in their order |
| JsonValues.PyIn | src/py/brain_viz/live_brain_callbacks_clean.py:168 | the 'in' test on a dictionary asks for a key, and raises on None, booleans and numbers |
| JsonValues.PyGet | src/py/brain_viz/live_brain_callbacks_clean.py:146 | '.get' exists only on dictionaries, and gives the stored value or the default |
| JsonValues.PyIndex | src/py/brain_viz/live_brain_callbacks_clean.py:235 | indexing by a key succeeds exactly on a dictionary holding that key |
| JsonValues.AsNumber | src/py/brain_viz/live_brain_callbacks_clean.py:110 | arithmetic accepts numbers and booleans only, and a number is its own value |
| Text.Split | src/py/brain_viz/live_brain_callbacks_clean.py:286 | splitting a string always gives at least one piece |

## Left out

- SQLite statements, connections and `config.json` loading are not modelled. Where a callback writes to the database, whether the write returned is a parameter (`written` in `App.UpdateGraphLive` and `LiveApp.StoreData`).
- As written, `record_data` and `record_session_info` in src/py/database/database.py commit through `self.conn`, an attribute the class never sets. So every insert raises. The model leaves this to the `written` parameter instead of fixing it to false.
- LiveApp.OnStartup models only the returned title and memory store. The session-info insert before them is not modelled, and as written it raises for the reason above.
- live_app.py calls `Database.get_params_header`, which the class does not define, so the module fails when it is imported. Its callbacks are modelled as if the header had been built by `get_header`. In the same way, app.py calls `session_table_exists` and `session_exists`, which the `Database` class of src/py/database/database.py does not define either, so app.py also fails when it is imported; its callbacks are modelled as if those checks had passed.
- The HTTP readings of `get_data` in src/py/utils/utils.py are parameters. The older utils/utils.py `get_data` is modelled with its request outcome as a parameter.
- The Dash wiring is not modelled: decorators, `ctx.triggered_id`, and which inputs fire a callback. This includes live_brain_callbacks.py redrawing only on memory changes, because its selectors are `State`. The trigger is a parameter and `no_update` is a reply constructor.
- The clientside JavaScript mouse tracker of the clean controller is not modelled. It is browser code held in a string.
- Plotly and nilearn are not modelled: figures, traces, layouts, annotations, mesh loading. A figure is an abstract value that keeps what the callbacks decide: the two intensity fields, the title, the mark and the applied camera. `update_timeline_marker` and the layout-only modules are left out for the same reason.
- Floating point is modelled as `real`. Rounding, `:.1f` formatting, the text of "Error: ..." messages and `time_text` are not modelled. Vertex distances are given as non-negative reals instead of computed with `sqrt`.
- BrainVisualizer.Contribution: a decay radius of 0 contributes 0, where numpy would divide 0 by 0 at distance 0.
- Utils.AvgData: arrays holding None, as the `get_data` fallback returns, are not representable. They are where numpy's `.any()` would matter. The empty call gives `NotANumber`, a marker for numpy's NaN (reals have no NaN); the RuntimeWarning numpy prints is not modelled. Arrays of different lengths make numpy raise, and the model gives `Ragged`.
- numpy arrays shared between callers (`to_plot` aliasing the readings row in app.py) are modelled as values. The model records the unmasked row and masks a copy, which is what the order of the statements gives.
- Text: `\w`, `\d` and `str.upper` are modelled on ASCII only.
- Python list membership compares values by `==`, so `1 == True`. The model compares JSON values structurally.
- Dropdown values are `Option<string>`. The session store is assumed to always be a dictionary, because only the timeline callbacks write it.
- Each call of a callback reads the clock once. Where the source calls `time.time()` twice in one call, both readings are the same.
- BrainVisualizer.Visualizer.LazyInit: a failed initialisation leaves the fields exactly as they were. The source may have assigned some of them before the exception.
- CleanBrainCallbacks.StoreBrainCameraState walks the nested dictionary with `SetPath` on values rather than through a `current` reference into it. The result is the same dictionary.
- `get_date`, the pandas normalisation of the static heat plot, and the `test_*.py` and server scripts are not part of this model. They are date formatting, pandas, or code that only prints.
