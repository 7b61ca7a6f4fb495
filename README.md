# IonoViewie in Dafny

IonoViewie is a viewer for vertical ionospheric soundings. It reads a
sounding file into a height-by-frequency grid, and it shows the grid as an
ionogram. The operator clicks points and critical frequencies onto three
layers (E, F1 and F2). Those annotations are saved to and restored from a
companion `.STD` text file. This project models two parts of it.

- **`Iono` (iono.dfy), the sounding object of rian_iono.py.**
  - `RianIono` is a class whose fields `load` assigns.
  - It models the four marker lookups of `load`.
  - It models the scan of every line, with three parts:
    - the `z0`, `dz`, `Nstrob`, `Nsound` and `TIME` header fields;
    - the frequency list;
    - the placement of data records into slots, kept in an array.
  - It models the grid build into an `array2`: a transpose with the height order reversed, and the contrast cell (0, 0) set to minus the largest value.
  - It models the height axis and the sunspot lookup by date.
  - Beside the class are the pure accessors `get_extent`, `get_freq_labels` and `get_freq_tics`.
  - Each imperative step is proved against a function on the input lines: `Freqs`, `HeaderAfter`, `Slots`, `Cell`, `SunspotScan`.
  - The properties the source promises are proved about those functions as lemmas.
- **`Viewer` (viewer.dfy), the annotation side of the main window of app.py.**
  - `MainWindow` is a class holding the layer mode, the enabled flags, three critical frequencies, three "m" boxes (which button 2 sets to the clicked frequency), three point lists, the open file name and the loaded sounding.
  - Its methods are `change_mode`, `change_layer`, `clear_all`, `close_file` and `open_file`, plus the annotation effects of `onclick` and `delete_menu`.
  - It models `save_std`, which produces the lines of the `.STD` file, and `load_text_info`, which reads them back.
  - It models `get_filelist` and the four navigation actions.
  - `StdLines` and `ReadStd` are the writer and the reader of the `.STD` format. `SaveLoadRoundTrip` proves that reading what was written restores the point lists, and which critical frequencies it restores.

Three supporting modules complete the project:
- `Text` (text.dfy) models the Python string operations the parsers use: `split()`, `strip()`, `startswith`, `split('=')[-1]` and `list.index`.
- `Conversions` (conversions.dfy) holds the numeric conversions and formats as uninterpreted functions. `float()`, `int()`, `strptime`, `log`, `**`, `str()`, `'{:.0f}'`, `'{:5.2f} {:5.1f}'`, `strftime` and `round(x, 2)` are each a function field of the record `Conv`. A field's result is `None` exactly where the Python call raises.
- `Wrappers` (wrappers.dfy) holds `Option`.

Files are sequences of lines. A sounding file arrives already stripped, as `load` strips it on reading (rian_iono.py:19). Where the Python code raises, the model returns an error outcome: `None`, `Malformed`, `MarkerMissing`, `LoadFailed`, `PlotFailed`, `TextMalformed`, `NotListed` or `NoFiles`.

## Model

| member | source | states |
|---|---|---|
| Text.IndexOf | rian_iono.py:21-28 | `list.index`: `None` exactly when the element is absent, otherwise the position of its first occurrence |
| Text.AfterLastSuffix | rian_iono.py:34 | `split('=')[-1]` is the suffix after the last `=`: it holds no `=`, and the character before it is `=` |
| Text.SplitTokens | rian_iono.py:46 | every token of `split()` is non-empty and free of white space |
| Text.StripTrims | app.py:375 | `strip()` gives a slice of the text with only white space cut before and after it, neither starting nor ending with white space; text already so is unchanged |
| Conversions.Trunc | rian_iono.py:104-105 | `int()` of a float truncates toward zero, for both signs |
| Iono.FindMarkers | rian_iono.py:21-28 | fails exactly when `Frequency Set`, `END` or `DATA` is missing, or no `END` follows the header `END`; otherwise the first occurrences, with the data end the first `END` strictly after the header `END` |
| Iono.NextEnd | rian_iono.py:28 | the first `END` after a given line, or none exactly when there is no later `END` |
| Text.StartsWithPrefix | rian_iono.py:33 | `startswith(p)` holds exactly when `p` is no longer than the line and is its prefix |
| Iono.FirstKey | rian_iono.py:33-41 | a header key is found exactly when the line starts with one of the prefixes |
| Iono.FirstKeyFirstMatch | rian_iono.py:33-41 | the first prefix in `if/elif` order that the line starts with gives the key, whatever later prefixes also match |
| Iono.KeyOfPrefixes | rian_iono.py:33-41 | a line is a `z0`, `dz`, `Nstrob`, `Nsound` or `TIME` line exactly when it starts with that prefix |
| Iono.Assign | rian_iono.py:33-43 | a header line sets only its own attribute, to the converted value text |
| Iono.ParseAll | rian_iono.py:49 | `[float(x) for x in ...]` succeeds with one value per token, and fails exactly when one conversion raises |
| Iono.PrefixOkAll | rian_iono.py:32-50 | the first `n` lines pass the scan exactly when each of them does |
| Iono.SlotsUpToEnd | rian_iono.py:48-50 | once all lines are scanned, the slots are the data records, in data-line order |
| Iono.RianIono.constructor | rian_iono.py:7-15 | the defaults: no data, no date, lat 49.676, lon 36.292, gyro 1.2, dip 66.7, sunspot 0, station `IION` |
| Iono.RianIono.ApplyHeaderLine | rian_iono.py:33-43 | the `if/elif` chain on one line: fails exactly when the matched value does not convert; otherwise the header moves to `ApplyLine` of it |
| Iono.RianIono.ScanSections | rian_iono.py:45-50 | a frequency line appends its last token's value; a data line fills slot `i - index_data - 1`; fails exactly on an unparsable line or a slot past `n_freq` |
| Iono.RianIono.ScanLines | rian_iono.py:32-50 | the scan succeeds exactly when every line passes; then the header is `HeaderAfter` all lines, the frequencies are `Freqs`, and the slots are `Slots` |
| Iono.FillColumn | rian_iono.py:60-63 | column `f` gets the record in reversed height order and no other column changes; the running maximum covers the column and is attained in it when it changes |
| Iono.Transpose | rian_iono.py:55-63 | the nested loops succeed exactly when every record is long enough; then every cell is `Cell` (record `f`, height reversed), and the maximum is the largest cell |
| Iono.RianIono.BuildGrid | rian_iono.py:52-64 | succeeds exactly when `GridOk`; then `n_rang` is the first record's length, `ranges[h] = z0 + dz*h`, the grid is `n_rang` by `n_freq`, every cell other than (0, 0) is `Cell`, and (0, 0) is minus the maximum |
| Iono.RianIono.LoadSounding | rian_iono.py:24-64 | with the markers found: succeeds exactly when the scan passes and the grid builds, leaving the state `SoundingFrom` the lines |
| Iono.LookupSunspot | rian_iono.py:69-73 | the table loop computes `SunspotScan` and fails where a line raises |
| Iono.RianIono.Load | rian_iono.py:17-73 | `MarkerMissing` exactly when a marker lookup raises; `Loaded` exactly when `LoadOk`; then the sounding is built from the lines and the sunspot number comes from the table |
| Iono.FreqsShape | rian_iono.py:45-46 | after `n` lines the frequency list holds one entry per frequency line seen so far, in file order |
| Iono.FrequencyList | rian_iono.py:25-46 | on a passing scan there are exactly `n_freq` frequencies: the last token of each line strictly between the markers, in file order |
| Iono.DataLinesMatchFrequencies | rian_iono.py:48-52 | a load that succeeds has exactly `n_freq >= 1` data lines |
| Iono.LastFieldWins | rian_iono.py:33-43 | a header field takes the value of the last line with its prefix |
| Iono.LastFieldAbsent | rian_iono.py:33-43 | a header field no line names keeps its previous value |
| Iono.HeaderAfterFields | rian_iono.py:32-43 | each header attribute after the scan is the last value of its own key, independently of the others |
| Iono.SunspotNoMatch | rian_iono.py:69-73 | with no matching table line the sunspot number stays as it was (0 after `__init__`) |
| Iono.SunspotLastMatchWins | rian_iono.py:69-73 | otherwise it is the last field of the last line matching the date's year, month and day |
| Iono.LoadedExtent | rian_iono.py:93-98 | the extent of a loaded sounding: left and right from the first and last frequency, bottom `z0`, top `z0 + dz*(n_rang-1)`, and bottom below top when `dz > 0` |
| Iono.Ranges | rian_iono.py:53 | `n_rang` heights starting at `z0`, strictly increasing when `dz > 0` |
| Iono.FreqToCoord | rian_iono.py:110-112 | defined exactly when there are two frequencies, the first non-zero, the frequency positive and the step positive and not 1; then the logarithm of the frequency to the base of the step |
| Iono.CoordToFreq | rian_iono.py:114-116 | undefined with fewer than two frequencies or a zero first one; otherwise the step raised to the coordinate |
| Iono.FreqCoordRoundTrip | rian_iono.py:110-116 | assuming `b ** log(x, b) == x` holds exactly (floats do not guarantee it), `coord_to_freq` undoes `freq_to_coord` |
| Iono.CoordFreqRoundTrip | rian_iono.py:110-116 | assuming `log(b ** c, b) == c` holds exactly (floats do not guarantee it), `freq_to_coord` undoes `coord_to_freq` for a usable step |
| Iono.GetExtent | rian_iono.py:93-98 | defined exactly when both lists are non-empty and the first and last frequency have coordinates; then left and right are those coordinates, bottom and top the first and last height |
| Iono.LabelsFrom | rian_iono.py:106 | the comprehension fails exactly when one conversion fails; otherwise one label per integer coordinate in `range(lo, hi)`, in order |
| Iono.Dedup | rian_iono.py:107 | `list(set(...))` holds exactly the same labels, each once |
| Iono.LabelsFromMembers | rian_iono.py:106 | the labels are exactly the rounded frequencies of the integer coordinates from `lo` up to `hi` |
| Iono.GetFreqLabels | rian_iono.py:103-108 | defined exactly when the extent is and every integer coordinate from `int(left)` below `int(right)` has a frequency; no label twice |
| Iono.FreqLabelsDistinct | rian_iono.py:103-108 | `get_freq_labels` has no duplicates, and its labels are exactly the rounded frequencies of the coordinates from `int(left)` up to `int(right)` |
| Iono.TicsOf | rian_iono.py:101 | the comprehension fails exactly when one tick fails; otherwise one tick per label, `freq_to_coord` of that label |
| Iono.GetFreqTics | rian_iono.py:100-101 | defined exactly when the labels are and each label converts to a coordinate; then one tick per label, `freq_to_coord` of that label |
| Viewer.ActiveLayer | app.py:148-156 | mode 0 selects exactly F2, mode 1 exactly F1, mode 2 exactly E; any other mode selects no layer |
| Viewer.NextMode | app.py:93 | from a mode in 0..2, the next mode is again in 0..2 and differs |
| Viewer.ChangeLayerCycle | app.py:93-99 | `change_layer` goes F2 to F1 to E to F2, and three steps restore the mode |
| Viewer.StdLines | app.py:468-485 | the `.STD` file has 9 lines plus one per point and starts with the station, coordinates and date lines |
| Viewer.StdLayout | app.py:468-485 | the `.STD` lines: station, coordinates and date, then for E, F1 and F2 a critical line, the points in list order and `END`; 9 lines plus one per point |
| Viewer.PointBlock | app.py:428-446 | the point loop writes each list item once, in list order |
| Viewer.ReadPoints | app.py:381-387 | when reading succeeds it resumes on a later line within the file |
| Viewer.PointOf | app.py:385-386 | a point line reads exactly when it has two or more tokens and the first two are floats; then it is those two floats formatted again |
| Viewer.ReadBlock | app.py:378-387 | when a block is read, reading resumes on a later line within the file; only the block's layer changes, its points are only appended to, and its critical changes only to a value more than 1 from 99 |
| Viewer.ReadBlocks | app.py:378-409 | reading blocks in turn only appends to point lists, changes criticals only to applicable values, and leaves layers outside the blocks alone |
| Viewer.ReadStd | app.py:371-409 | a coordinates line without exactly five tokens changes nothing and fails; otherwise the lists only grow and a critical changes only to a value more than 1 from 99 |
| Viewer.Reread | app.py:386 | the reformatted points, one per point line, each the reformat of its own line |
| Viewer.ReadPointsOfWritten | app.py:381-387 | written point lines followed by `END` read back as those points, reformatted, and reading resumes after the `END` |
| Viewer.CriticalLineReadBack | app.py:424-442 | the sentinel `99.0` is written exactly for a critical with `abs(fo-99) < 1` or `abs(fo) < 0.1`; the critical line reads back as the value (99.0 for the sentinel), and is applied exactly when the value is restorable |
| Viewer.ReadBlockOfWritten | app.py:378-387 | one written block reads back: its critical applied when restorable, its points appended to the layer |
| Viewer.StdBlockRead | app.py:378-409 | each layer's block of a saved file reads back from where it starts |
| Viewer.StdBlockWritten | app.py:468-485 | in a saved file each layer's block starts at the line `BlockStart` gives |
| Viewer.ReadStdWritten | app.py:371-409 | lines with five coordinate tokens and the three blocks in place read back as those blocks, applied E, then F1, then F2 |
| Viewer.ReadTailWritten | app.py:389-409 | the F1 and F2 blocks written one after the other read back in turn |
| Viewer.SaveLoadRoundTrip | app.py:367-485 | loading a saved file appends every layer's points, reformatted and in order, and restores exactly the restorable criticals; the others keep their previous value |
| Viewer.RestoredCritical | app.py:379 | a critical comes back exactly when `abs(v-99) > 1` and `abs(v) >= 0.1` |
| Viewer.BoundaryCriticalLost | app.py:425 | a critical of 98.0 or 100.0 is written as itself but not restored |
| Viewer.SplitJoinSpaces | app.py:456-462 | tokens joined by single spaces split back into those tokens |
| Viewer.JoinSpacesEnds | app.py:456-462 | the joined line starts with the first token's first character and ends with the last token's last character |
| Viewer.CoordinatesTokens | app.py:456-462 | a coordinates line written from five space-free values strips and splits into exactly those five tokens |
| Viewer.IonNamePattern | app.py:288-290 | the base-name test is `fnmatch` with `????????_????_iono.ion` as on POSIX: each `?` one character, the rest literal and case-sensitive |
| Viewer.IonFilesMembers | app.py:360-365 | the filter keeps exactly the listed names of the pattern `????????_????_iono.ion` |
| Viewer.IonFilesAppend | app.py:360-365 | the filter works piecewise, so it keeps the listing order |
| Viewer.GetFileList | app.py:360-365 | the loop builds exactly `IonFiles` of the listing |
| Viewer.MainWindow.constructor | app.py:26-82 | `__init__` leaves mode F2 with only F2's widgets enabled, no annotations and no file |
| Viewer.MainWindow.ChangeMode | app.py:139-156 | the mode is set, and exactly the spin box and list of the layer of the mode are enabled |
| Viewer.MainWindow.ChangeLayer | app.py:92-99 | the mode becomes the next mode, with its widgets enabled |
| Viewer.MainWindow.ClearAll | app.py:101-123 | mode F2 with only its widgets enabled, zero criticals, empty lists, no sounding, no file |
| Viewer.MainWindow.CloseFile | app.py:274-280 | the same cleared state |
| Viewer.MainWindow.OnClick | app.py:158-184 | with both coordinates non-zero and a valid frequency, only the active layer changes: button 1 appends a point, button 3 sets the critical, button 2 sets the layer's "m" box to the frequency; the other layers are unchanged |
| Viewer.MainWindow.DeleteMenu | app.py:125-137 | only the clicked list changes: the item at the row is removed, or all items, or nothing |
| Viewer.MainWindow.SaveStd | app.py:422-485 | the lines written are `StdLines` of the sounding's station, coordinates line, date and the current annotations; fails exactly without a sounding or a date |
| Viewer.MainWindow.ReadPointLines | app.py:381-387 | the `while True` loop appends `ReadPoints` to the layer's list, also on a malformed line, and stops where it does |
| Viewer.MainWindow.ReadLayer | app.py:378-387 | one layer's critical and points as `ReadBlock` reads them |
| Viewer.MainWindow.LoadTextInfo | app.py:367-414 | a missing file changes nothing; otherwise the annotations become `ReadStd` of the lines, and the outcome says whether all of it was read |
| Viewer.MainWindow.LoadSounding | app.py:293-295 | a fresh `RianIono` loads exactly when `Loads` holds |
| Viewer.MainWindow.OpenFile | app.py:282-322 | closes first; rejects exactly an empty name or a base name not of the pattern; fails the load exactly when the lines do not load; on success keeps the name and plots; then reads the `.STD` file into cleared annotations |
| Viewer.MainWindow.OpenSounding | app.py:290-322 | for an accepted name: cleared state, then load, plot and `.STD` read, as for `OpenFile` |
| Viewer.MainWindow.LoadAndShow | app.py:293-322 | a new sounding is loaded; on success the name is kept and the plot and the `.STD` file follow; on failure nothing else changes |
| Viewer.MainWindow.ShowSounding | app.py:297-322 | the name is kept; the plot fails exactly when the extent, tics or labels fail; otherwise the `.STD` file is read over the current annotations |
| Viewer.MainWindow.OpenNextFile | app.py:324-331 | with a file open: not listed exactly when its base name is not a sounding file of the listing; otherwise the entry after its first occurrence, only when there is one; never out of bounds |
| Viewer.MainWindow.OpenPrevFile | app.py:333-340 | the entry before the first occurrence, only when there is one; not listed as for next |
| Viewer.MainWindow.OpenFirstFile | app.py:349-354 | the first sounding file of the listing, or `NoFiles` exactly when there is none |
| Viewer.MainWindow.OpenLastFile | app.py:342-347 | the last sounding file of the listing, or `NoFiles` exactly when there is none |

## Left out

- File I/O: reading the sounding file, `sn.dat` and the `.STD` file, and writing the `.STD` file. Each is a sequence of lines passed in or returned. An absent `.STD` file (the `IOError` branch) is `None`.
- `FileList.get` and `os.path.dirname`/`join` are not part of this model. The directory listing is a parameter, and a base name is the text after the last `/`.
- Rendering is not modelled, because it draws and does not annotate: `plot_scatters`, `plot_lines`, `imshow`, ticks, `tight_layout`, `onmove`, the window title, the status bar and the cursor.
- `save_file`, `save_image`, `reopen_file`, `open_file_dialog` and `png_state_changed` are not modelled; they only combine modelled operations with I/O or the GUI.
- Floating-point arithmetic is not modelled: `float`, `int`, `log`, `**`, `round`, the formats and `strptime`/`strftime` are uninterpreted functions of `Conv`. Reals stand in for floats, without infinities or NaN. The running maximum starts at "no value" instead of `float('-inf')`.
- Iono.RianIono.Load: the state after a failed load is not stated. Python leaves the assignments made before the exception, such as `frequencies` and `n_freq` or a partial grid. The window keeps that sounding (app.py:293-295), so later operations see its unstated state.
- Viewer.IonNamePattern: `fnmatch` normalises case on Windows; the model is the case-sensitive POSIX match.
- Iono.Dedup: Python's `set` iteration order is unspecified, so the order of the labels is not stated. The model keeps the last occurrence of each label, and only membership and uniqueness are proved.
- Viewer.MainWindow.LoadTextInfo: the five coordinate tokens are checked by count but not assigned into the sounding. Viewer.MainWindow.SaveStd therefore writes the sounding's own values, where the source after a `.STD` load writes back those tokens through `str` (app.py:458-462), with `lon` at its default. The source assigns them as strings to `lat`, `long` (not `lon`), `gyro`, `dip` and `sunspot`. Too few or too many tokens raise a `ValueError` that the `IOError` handler does not catch; the model reports it as `TextMalformed`, and the `float` failures of a block likewise.
- Viewer.MainWindow.OnClick: a spin box's clamping to its range and rounding to its decimals are not modelled. The value set is the rounded frequency itself. The initial values of the "m" boxes are taken as 0.
- Viewer.MainWindow.LoadTextInfo: the critical it applies (app.py:380, 391, 402) is stored as read; the spin box's clamping and rounding on `setValue` are not modelled. The same holds for Viewer.SaveLoadRoundTrip and Viewer.ReadStd, whose restored criticals are the values read.
- Viewer.MainWindow.OnClick: a click with no sounding loaded raises in the source; the model leaves the state unchanged.
- Viewer.MainWindow.OpenFile: a failing `load` raises out of `open_file` in the source; the model returns `LoadFailed`, with the window cleared and the new, unloaded sounding set. `clear_all` sets the file name to `None`; the model uses the empty name for it.
- Viewer.MainWindow.OpenNextFile: the navigation actions return the file to open (`Open(name)`) instead of calling `open_file`. The open itself is `OpenFile` of that name, with the directory joined in front. The same holds for OpenPrevFile, OpenFirstFile and OpenLastFile.
- Viewer.MainWindow.ChangeLayer: checking a radio button reaches `change_mode` through Qt's `toggled` signal; the model calls `ChangeMode` with the next mode directly.
- Viewer.MainWindow.DeleteMenu: the Qt menu and the row under the mouse are the parameter `choice`. Qt opens a context menu only on an enabled list; that is not modelled, so any layer's list may be given.
- The three copies of the block reader in `load_text_info` (app.py:378-409) are one `ReadBlock`, applied in `ReadStd` to E, F1 and F2 in turn.
