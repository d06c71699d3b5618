# Pump-probe transient scans

A model of the `Transient` class of `functionlibrary/transient.py`. One object holds one
pump-probe scan:

- the raw delay-time axis and the raw signal, index-aligned;
- cleaned copies of both arrays;
- the experiment parameters (material, powers, spot sizes, excitation densities,
  polarizations, temperature, R0, ...);
- the analysis bookkeeping written by `log_it`.

The class (module `Transients`) keeps these as fields and its methods update them in place:

- the cleaning steps `cropTimeScale`, `shiftTime`, `flipTime`, `flipTrace`, `removeDC`,
  `normalizeToParameter` and `cleanData`;
- the bookkeeping `log_it`, `calcEnergyDensities`, `initMetadata_filename` and
  `fetchMetadata`;
- the import dispatch of `importFile`, with the header rule of `importCSV` and the field
  assignments of `importMatFile`.

Each method is proved against a pure specification function in a module of its own, and
the lemmas there state what the code promises:

| module | what it specifies |
|---|---|
| `Values` | the Python values an attribute holds, `bool(v)` and `v != 0` |
| `Series` | the whole-array expressions `a - d`, `-a`, `a[::-1]`, `a / x` and `np.average` |
| `Crop` | the window `cropTimeScale` keeps |
| `AnalysisLog` | the `log_it` entries |
| `Cleaning` | every cleaning step as a function of the state it reads and writes, and their composition `cleanData` |
| `Metadata` | the defaults, `getUnit`, `fetchMetadata`, the file-name dispatch and `calcEnergyDensities` |
| `Header` | the header loop of `importCSV` |
| `ImportRoute` | `os.path.splitext` / `basename` and the `.mat` / `.txt` dispatch |

Behaviour of the code as written that the model keeps:

- **The crop fails on a monotonic axis.** The crop opens at the first occurrence of one
  extreme and closes at the first later occurrence of the other. On a strictly rising or
  falling axis the second scan runs off the end, which raises IndexError. An empty axis
  raises ValueError from `max`. Equal first samples keep nothing.
- **A repeated log key is ignored.** `log_it` stores its entry as an attribute named
  `analysis_log[<key>]`, and only when that attribute does not exist yet.
  - The flag entry is spelled `'Boolean'` but compared with `'boolean'`.
  - `entry is list` and `entry is dict` are always false.
  - So a repeated key changes nothing and `overwrite` plays no part.
  - `shiftTime` passes the shift in the `overwrite` position, so only a flag is logged.
- **`removeDC` always averages the tail.** The `analysis_log` dictionary is never written,
  only reset to `{}` by the crop. So the `'Flip Time'` lookup in `removeDC` fails and the
  baseline is the tail of the trace even after `flipTime`.
- **`calcEnergyDensities` has two slips.**
  - A zero pump power re-assigns `pump_power` and leaves `pump_energy` as it was.
  - A zero probe power zeroes `pump_energy` instead of `probe_energy`.
- **`initMetadata_filename` raises when no key is known.** If no key of the file-name
  dictionary is known, the closing message reads the missing attribute
  `original_filename`, which raises AttributeError before the densities are recalculated.
- **`R0` is never set from a header.** Header names are lower-cased, so `R0` never matches.
  Header values are stored as raw strings, so normalising by a parameter that a header set
  to a non-empty string raises TypeError.
- **`importFile` cleans after every branch.** It runs `cleanData` after the skipped
  `t-cal.mat` and after an unknown extension too. Only an exception escaping the import
  stops it.

External collaborators are parameters of the model:

- `gfs.getEnergyDensity` is the `density` function.
- `gfs.name_to_info` is the `info` dictionary, given as its key/value pairs in iteration
  order.
- Python's `float` on strings is `parse`.
- The Butterworth low-pass filter and `gfs.nyqistFreq` are `lowPass` and `nyquist`.
- What `loadmat` read is a `MatContents` value.
- The header lines are every line of the file as `for l in f` yields them, data lines
  included, each with its line ending. A last line without a line ending and without a tab
  therefore raises IndexError when it names an attribute.
- The data rows `loadtxt` read are a sequence of four-column rows. With no data row
  `loadtxt` returns an empty array; with one it returns a flat array of four numbers. In
  both cases `print(len(data[0]))` raises, IndexError or TypeError, so `importCSV` appends
  nothing and `importFile` does not clean.

## Model

| member | source | states |
|---|---|---|
| Values.Truthy | functionlibrary/transient.py:418 | no contract of its own; Python's `bool(v)`, whose table ZeroTests states |
| Values.DiffersFromZero | functionlibrary/transient.py:419 | no contract of its own; Python's `v != 0`, also the tests at lines 157, 164 and 171, whose table ZeroTests states |
| Values.ZeroTests | functionlibrary/transient.py:418-419 | a true value differs from 0; numbers and flags pass both tests exactly when non-zero or `True`; NaN passes both; a value false yet different from 0 is exactly an empty string, list or dictionary |
| Series.Shift | functionlibrary/transient.py:370 | every sample is moved by -d and the length is kept |
| Series.Negate | functionlibrary/transient.py:378 | every sample is negated and the length is kept |
| Series.Reverse | functionlibrary/transient.py:377 | sample i comes from the mirrored position |
| Series.Divide | functionlibrary/transient.py:420 | every sample is divided by the non-zero divisor |
| Series.NegateInvolution | functionlibrary/transient.py:384 | negating twice gives the samples back |
| Series.ReverseInvolution | functionlibrary/transient.py:377-379 | reversing twice gives the samples back |
| Series.NegateReverseCommute | functionlibrary/transient.py:377-378 | negation and reversal commute |
| Series.ShiftInverse | functionlibrary/transient.py:370 | shifting by d and then by -d gives the samples back |
| Series.ShiftSlice | functionlibrary/transient.py:395-399 | a slice of the shifted array is the shifted slice |
| Series.Sum | functionlibrary/transient.py:398 | no contract of its own; the sum `np.average` divides, whose effect SumShift and MeanRemoved state |
| Series.Mean | functionlibrary/transient.py:395-398 | `np.average` of a non-empty slice; MeanRemoved and Cleaning.RemoveDcZeroTail state what subtracting it does |
| Series.SumShift | functionlibrary/transient.py:395-399 | subtracting d from every sample lowers the sum by n*d |
| Series.MeanRemoved | functionlibrary/transient.py:395-399 | after subtracting its own mean a non-empty array averages to 0 |
| Text.Split | functionlibrary/transient.py:285 | `split` gives at least one piece and no piece holds the separator |
| Text.JoinSplit | functionlibrary/transient.py:285 | joining the pieces of a split gives the string back |
| Text.SplitJoin | functionlibrary/transient.py:285 | splitting a join of separator-free pieces gives the pieces back |
| Text.SplitAround | functionlibrary/transient.py:285 | a separator splits the text before it from the text after it |
| Text.LastPieceAfterSeparator | functionlibrary/transient.py:285-286 | `split(sep)[-1]` is what follows the last separator |
| Text.LastPiece | functionlibrary/transient.py:285-286 | `split(sep)[-1]` holds no separator |
| Text.LastPieceWhole | functionlibrary/transient.py:285-286 | a string without the separator is its own last piece |
| Text.Lower | functionlibrary/transient.py:498 | `lower()` keeps the length and leaves no upper-case letter |
| Text.LowerAppend | functionlibrary/transient.py:447 | lower-casing distributes over concatenation |
| Text.Replace | functionlibrary/transient.py:498 | the length is kept, each occurrence of the replaced character becomes the replacement and every other character is kept |
| Text.ReplaceRemoves | functionlibrary/transient.py:498 | `replace(' ', '_')` leaves no space and changes only spaces |
| Text.RFind | functionlibrary/transient.py:447-448 | the index of the last occurrence, or -1 when there is none |
| Crop.Max | functionlibrary/transient.py:336 | `max` is an element no smaller than any other |
| Crop.Min | functionlibrary/transient.py:337 | `min` is an element no larger than any other |
| Crop.FirstFrom | functionlibrary/transient.py:341-345 | the scan stops at the first index at or after `from` holding the target, or at the end when there is none |
| Crop.FirstFromFound | functionlibrary/transient.py:344-345 | the scan stays inside the array exactly when the target occurs in the scanned part |
| Crop.ScanFinds | functionlibrary/transient.py:340-345 | the window opens at the first opening extreme, closes at the first closing extreme after it, and fails exactly when none follows |
| Crop.TwoScans | functionlibrary/transient.py:339-358 | a window that both scans find lies inside the array |
| Crop.CropWindow | functionlibrary/transient.py:336-364 | a found window lies inside the array |
| Crop.CropErrors | functionlibrary/transient.py:336-344 | ValueError exactly for an empty axis, IndexError for one sample, no other exception |
| Crop.AscendingWindow | functionlibrary/transient.py:339-351 | rising start: window from the first maximum to the first minimum after it, succeeding iff such a minimum exists; earlier samples below the maximum, kept samples above the minimum |
| Crop.DescendingWindow | functionlibrary/transient.py:352-364 | falling start: the mirror image, from the first minimum to the next maximum |
| Crop.FlatStartEmpty | functionlibrary/transient.py:339-352 | equal first samples keep nothing |
| Crop.FirstFromIs | functionlibrary/transient.py:341-345 | an index with the scan's stopping property is where the scan stops |
| Crop.StrictlyAscendingFails | functionlibrary/transient.py:344 | a strictly increasing axis raises IndexError |
| Crop.StrictlyDescendingFails | functionlibrary/transient.py:357 | a strictly decreasing axis raises IndexError |
| Crop.TriangleSweep | functionlibrary/transient.py:339-351 | a rising-then-falling sweep is cut from its peak to its last sample |
| Crop.TriangleExtremes | functionlibrary/transient.py:336-337 | a triangular sweep has its maximum at the peak and its minimum at the end |
| Crop.MaxAt | functionlibrary/transient.py:336 | an element no smaller than every other is the maximum |
| Crop.MinAt | functionlibrary/transient.py:337 | an element no larger than every other is the minimum |
| AnalysisLog.AttrName | functionlibrary/transient.py:228 | the attribute name is `analysis_log[` + key + `]` |
| AnalysisLog.AttrNamesDiffer | functionlibrary/transient.py:228 | different keys never share an attribute |
| AnalysisLog.EntryFor | functionlibrary/transient.py:230-239 | a dict of the keyword arguments if any, else a list of the extras if any, else `'Boolean'` |
| AnalysisLog.Record | functionlibrary/transient.py:242-267 | the entry is stored when the attribute is absent; otherwise nothing changes; no other attribute changes |
| AnalysisLog.FlagNeverToggles | functionlibrary/transient.py:239-246 | the entry is never `'boolean'`, so the toggle branch is dead |
| AnalysisLog.FirstEntryWins | functionlibrary/transient.py:242-265 | once the attribute exists any series of calls with its key changes nothing |
| AnalysisLog.RepeatedKeyKeepsFirst | functionlibrary/transient.py:242-267 | after a series of calls with one key the attribute holds the first call's entry |
| AnalysisLog.OverwriteInert | functionlibrary/transient.py:217-267 | `overwrite` never changes what is stored |
| Cleaning.CropStep | functionlibrary/transient.py:325-365 | reset axes and log dictionary; on success the raw slices of the window and the logged extremes; on an exception the reset state |
| Cleaning.ShiftStep | functionlibrary/transient.py:367-371 | every time moves by -tshift, the trace stays, the shift goes in the overwrite slot |
| Cleaning.FlipTimeStep | functionlibrary/transient.py:374-380 | time is the negated mirror, trace the mirror, and 'Flip Time' is logged |
| Cleaning.FlipTraceStep | functionlibrary/transient.py:382-385 | trace negated, time unchanged, 'Flip Trace' logged |
| Cleaning.SliceBound | functionlibrary/transient.py:395-398 | Python's slice-bound normalisation stays within the length and keeps an in-range bound |
| Cleaning.BaselineRange | functionlibrary/transient.py:393-398 | head `[0, window)` when 'Flip Time' is logged, else tail `[n-window, n)`, with Python's handling of an over-long window |
| Cleaning.RemoveDcStep | functionlibrary/transient.py:387-400 | every sample minus the baseline mean, window and shift logged; NaN logged for an empty trace |
| Cleaning.FilterFrequency | functionlibrary/transient.py:410 | no contract of its own: the Nyquist frequency of the time axis scaled by `cutHigh`, which FilterStep logs |
| Cleaning.FilterStep | functionlibrary/transient.py:403-413 | the trace is filtered, the time stays, and the frequency, factor and order are logged |
| Cleaning.NormalizeKey | functionlibrary/transient.py:422 | the key is 'Normalized by ' followed by as many characters as the name has, none of them '_' |
| Cleaning.NormalizeKeySpelling | functionlibrary/transient.py:422 | after the prefix, each '_' of the name reads ' ' and every other character of the name is kept in place |
| Cleaning.NormalizeStep | functionlibrary/transient.py:416-423 | AttributeError for a missing attribute; TypeError for a non-empty string; otherwise divided by a non-zero number, unchanged for a falsy value or True, and logged |
| Cleaning.AlignTime | functionlibrary/transient.py:314-317 | the shift and the time flip keep the arrays aligned |
| Cleaning.CleanTrace | functionlibrary/transient.py:318-323 | removeDC, the filter and the trace flip keep the arrays aligned |
| Cleaning.CleanAfterCrop | functionlibrary/transient.py:314-323 | the steps after the crop keep the arrays aligned |
| Cleaning.Clean | functionlibrary/transient.py:303-323 | the enabled steps in order keep the arrays aligned; a crop exception ends it |
| Cleaning.CropForgetsHistory | functionlibrary/transient.py:332-364 | the crop's arrays, log dictionary and outcome depend on the raw arrays only |
| Cleaning.CropIdempotent | functionlibrary/transient.py:332-365 | cropping twice is cropping once, log included |
| Cleaning.FlipTimeInvolution | functionlibrary/transient.py:377-379 | flipping time twice restores both arrays |
| Cleaning.FlipTraceInvolution | functionlibrary/transient.py:384 | flipping the trace twice restores it |
| Cleaning.ShiftUndone | functionlibrary/transient.py:370 | shifting back by the same amount restores the time axis |
| Cleaning.RemoveDcZeroTail | functionlibrary/transient.py:396-399 | without 'Flip Time' every sample loses the tail mean and the tail then averages to 0 |
| Cleaning.CleanLogDictionary | functionlibrary/transient.py:332 | only the crop touches the log dictionary, and it empties it |
| Cleaning.DefaultCleanUsesTail | functionlibrary/transient.py:393-396 | after the crop and flipTime 'Flip Time' is still absent from the log dictionary |
| Cleaning.CleanEmptyRaw | functionlibrary/transient.py:336 | cropping an empty axis raises ValueError and leaves empty axes |
| Cleaning.CleanAscendingRawFails | functionlibrary/transient.py:344 | cleaning a strictly increasing raw axis raises IndexError |
| Cleaning.NormalizeByFalsyLogs | functionlibrary/transient.py:418-423 | a zero or empty parameter leaves the trace and still logs |
| Metadata.DefaultsCoverParameters | functionlibrary/transient.py:53-87 | the defaults cover exactly the parameters and all are falsy scalars |
| Metadata.UnitOfSuffix | functionlibrary/transient.py:286-297 | a unit exists exactly for the seven words of the table |
| Metadata.Unit | functionlibrary/transient.py:283-297 | `getUnit` names a unit exactly when the text after the last '_' is one of the seven words |
| Metadata.UnitBySuffix | functionlibrary/transient.py:285-297 | only the part after the last '_' decides the unit |
| Metadata.UnitTable | functionlibrary/transient.py:285-297 | a word has the same unit alone and after any prefix: power mW, energy mJ/cm^2, polarization and orientation deg, R0 V, time ps, trace the empty unit, any other word (spot, say) None |
| Metadata.NonDefault | functionlibrary/transient.py:186-215 | kept iff not an array and a non-zero number, a non-zero numeric string or non-empty; values copied |
| Metadata.DefaultsNotFetched | functionlibrary/transient.py:194-213 | a scan at its defaults reports nothing |
| Metadata.FetchKeepsNonZero | functionlibrary/transient.py:200-207 | a number or numeric string is kept iff non-zero, other strings iff non-empty |
| Metadata.LogEntriesFetched | functionlibrary/transient.py:203-213 | every `log_it` attribute is reported |
| Metadata.FilenameField | functionlibrary/transient.py:116-146 | a known key names a parameter or `other` |
| Metadata.FilenameFieldInjective | functionlibrary/transient.py:116-144 | no two keys fill the same parameter |
| Metadata.Kept | functionlibrary/transient.py:198-213 | no contract of its own; FetchKeepsNonZero and LogEntriesFetched state which values pass the `float` test and the two length tests |
| Metadata.Dispatch | functionlibrary/transient.py:116-146 | one pass of the loop: a known key sets its parameter to the value and adds it if absent; every other parameter keeps its value; an unknown key changes nothing |
| Metadata.FromFilename | functionlibrary/transient.py:116-146 | the loop never removes a parameter |
| Metadata.FromFilenameKeys | functionlibrary/transient.py:116-146 | the loop adds exactly the parameters the known keys name |
| Metadata.FromFilenameKeeps | functionlibrary/transient.py:116-146 | a parameter no key names keeps its value |
| Metadata.FromFilenameSets | functionlibrary/transient.py:116-146 | each known key leaves its value in its parameter |
| Metadata.NoKnownKeyChangesNothing | functionlibrary/transient.py:116-148 | without a known key nothing is set |
| Metadata.EnergyStep | functionlibrary/transient.py:157-176 | one branch changes no key set; EnergyOutcome states the three instances |
| Metadata.EnergyUpdate | functionlibrary/transient.py:151-176 | the key set is unchanged |
| Metadata.EnergyOutcome | functionlibrary/transient.py:156-176 | final pump power and the three densities at rates 141500 and 283000, with the two slips; all else unchanged |
| Metadata.EnergyIdempotent | functionlibrary/transient.py:151-176 | recomputing the densities a second time changes nothing |
| Header.HeaderValue | functionlibrary/transient.py:497-500 | `line[1]`: the second tab field, which holds no tab |
| Header.HeaderValueFound | functionlibrary/transient.py:497-500 | `line[1]` exists exactly when the line holds a tab |
| Header.HeaderName | functionlibrary/transient.py:497-498 | the name has no space and no upper-case letter |
| Header.HeaderScan | functionlibrary/transient.py:494-500 | only existing names are assigned, each named by some line; the loop completes or raises IndexError |
| Header.HeaderStep | functionlibrary/transient.py:496-500 | one more line extends the scan as the loop body does |
| Header.ReflectivityNeverAssigned | functionlibrary/transient.py:498 | `R0` is never assigned from a header |
| Header.UnmatchedLineIgnored | functionlibrary/transient.py:499 | a line naming no attribute changes nothing |
| Header.StopsAtError | functionlibrary/transient.py:500 | after the IndexError no later line is read |
| Header.LastLineWins | functionlibrary/transient.py:496-500 | a completed loop leaves each attribute with the value of the last line naming it |
| Header.AssignedFromSomeLine | functionlibrary/transient.py:496-500 | each assigned value is the second field of a line naming it |
| ImportRoute.SplitExt | functionlibrary/transient.py:447 | no contract of its own; ExtensionShape and NamedFileParts state what `os.path.splitext` returns |
| ImportRoute.Route | functionlibrary/transient.py:447-456 | no contract of its own; MatFileRouted, CalibrationFileSkipped, TextFileRouted and HiddenFileInvalid state the four branches |
| ImportRoute.Basename | functionlibrary/transient.py:449 | the basename contains no '/' |
| ImportRoute.ExtensionShape | functionlibrary/transient.py:447 | stem plus extension is the path; an extension is '.' then neither '.' nor '/' |
| ImportRoute.RFindSkips | functionlibrary/transient.py:447 | text without the character does not move its last occurrence |
| ImportRoute.RFindLast | functionlibrary/transient.py:447 | the last occurrence is the one before a character-free tail |
| ImportRoute.NamedFileParts | functionlibrary/transient.py:447-449 | `dir/stem.ext` splits into `dir/stem` and `.ext`, with basename `stem.ext` |
| ImportRoute.MatFileRouted | functionlibrary/transient.py:448-450 | `.mat` and `.MAT` files other than t-cal go to the mat importer |
| ImportRoute.CalibrationFileSkipped | functionlibrary/transient.py:449-452 | t-cal.mat in any letter case is skipped |
| ImportRoute.TextFileRouted | functionlibrary/transient.py:453-454 | `.txt` and `.TXT` files go to the text importer |
| ImportRoute.HiddenFileInvalid | functionlibrary/transient.py:447-456 | `.mat` alone has no extension and is an invalid format |
| Transients.LoadedStatus | functionlibrary/transient.py:509-510 | the data read completes exactly when there are at least two rows; none raises IndexError, one raises TypeError |
| Transients.RawTimes | functionlibrary/transient.py:521 | column 0 of each row, in order; the closed form AppendRows is proved against |
| Transients.RawTraces | functionlibrary/transient.py:522 | column 1 of each row, in order; the closed form AppendRows is proved against |
| Transients.Times | functionlibrary/transient.py:523 | column 2 of each row, in order; the closed form AppendRows is proved against |
| Transients.Traces | functionlibrary/transient.py:524 | column 3 of each row, in order; the closed form AppendRows is proved against |
| Transients.AttributeMap | functionlibrary/transient.py:192 | no contract of its own: `self.__dict__`, the parameters, the log attributes, the log dictionary and the four arrays by name |
| Transients.IsClassAttribute | functionlibrary/transient.py:416-418 | no contract of its own: the methods of the class and the dunder names, which `getattr` finds on the class |
| Transients.MatMetadata | functionlibrary/transient.py:469-475 | the path is recorded; R0 becomes `DC[0][0]` when both matrices are present; every other parameter keeps its value |
| Transients.FreshScanFetchesNothing | functionlibrary/transient.py:186-215 | `fetchMetadata` of a fresh scan is empty |
| Transients.AssignText | functionlibrary/transient.py:499-500 | assigned names hold their raw text, others keep their value, no key added |
| Transients.AssignStep | functionlibrary/transient.py:500 | assigning one more name changes at most that entry |
| Transients.CollectNonDefault | functionlibrary/transient.py:191-215 | the loop over the attributes returns exactly `NonDefault` |
| Transients.CsvStatus | functionlibrary/transient.py:494-510 | `importCSV` completes exactly when the header loop completes and there are at least two data rows |
| Transients.ImportedStage | functionlibrary/transient.py:494-524 | the text import keeps the cleaned arrays aligned |
| Transients.ShortDataAppendsNothing | functionlibrary/transient.py:509-524 | after a complete header, no data row raises IndexError and one raises TypeError; the header texts are assigned and no sample reaches the arrays |
| Transients.Transient.constructor | functionlibrary/transient.py:37-87 | empty arrays, default parameters, empty log dictionary, no log attributes |
| Transients.Transient.LogIt | functionlibrary/transient.py:217-267 | the log attributes become `Record` of the old ones |
| Transients.Transient.Scan | functionlibrary/transient.py:341-358 | the while loop stops at `FirstFrom` |
| Transients.Transient.FindWindow | functionlibrary/transient.py:336-358 | returns `CropWindow` of the raw axis |
| Transients.Transient.CropTimeScale | functionlibrary/transient.py:325-365 | the new state and outcome are `CropStep` of the old state |
| Transients.Transient.CopyWindow | functionlibrary/transient.py:347-364 | the axes become the window slices of the raw arrays |
| Transients.Transient.ShiftTime | functionlibrary/transient.py:367-371 | the new state is `ShiftStep` of the old |
| Transients.Transient.FlipTime | functionlibrary/transient.py:374-380 | the new state is `FlipTimeStep` of the old |
| Transients.Transient.FlipTrace | functionlibrary/transient.py:382-385 | the new state is `FlipTraceStep` of the old |
| Transients.Transient.RemoveDC | functionlibrary/transient.py:387-400 | the new state is `RemoveDcStep` of the old |
| Transients.Transient.Baseline | functionlibrary/transient.py:393-398 | the averaged slice is `BaselineRange`, empty only for an empty trace |
| Transients.Transient.FilterLowPass | functionlibrary/transient.py:403-413 | the new state is `FilterStep` of the old, and the frequency is returned |
| Transients.Transient.NormalizeToParameter | functionlibrary/transient.py:416-423 | the new state and outcome are `NormalizeStep` of the old state and the attribute's value |
| Transients.Transient.NormalizeByValue | functionlibrary/transient.py:418-423 | for a value `getattr` found, the new state and outcome are `NormalizeStep` of the old state and that value |
| Transients.Transient.CleanData | functionlibrary/transient.py:303-323 | the new state and outcome are `Clean` of the old state |
| Transients.Transient.CleanCropped | functionlibrary/transient.py:314-323 | the new state is `CleanAfterCrop` of the old |
| Transients.Transient.AlignCropped | functionlibrary/transient.py:314-317 | the new state is `AlignTime` of the old |
| Transients.Transient.CleanCroppedTrace | functionlibrary/transient.py:318-323 | the new state is `CleanTrace` of the old |
| Transients.Transient.CalcEnergyDensities | functionlibrary/transient.py:151-176 | the parameters become `EnergyUpdate` of the old ones |
| Transients.Transient.EnergyBranch | functionlibrary/transient.py:157-176 | the parameters become `EnergyStep` of the old ones for the branch's power, spot, energy, rate and zeroed attribute |
| Transients.Transient.ApplyFilenameInfo | functionlibrary/transient.py:114-146 | the parameters become `FromFilename` of the old ones; `noinfo` iff no key is known |
| Transients.Transient.InitMetadataFilename | functionlibrary/transient.py:111-149 | no known key: nothing changes and AttributeError; else the dispatch then the density update |
| Transients.Transient.FetchMetadata | functionlibrary/transient.py:186-215 | returns `NonDefault` of the attributes |
| Transients.Transient.AssignHeader | functionlibrary/transient.py:494-500 | parameters and log attributes take the raw texts `HeaderScan` assigns; the status is the scan's |
| Transients.Transient.ImportHeader | functionlibrary/transient.py:494-500 | the header loop over the attributes present when it starts |
| Transients.Transient.AppendRows | functionlibrary/transient.py:520-524 | each array gains its column of the rows, in order |
| Transients.Transient.ImportMatFile | functionlibrary/transient.py:464-478 | path recorded; raw arrays from Daten rows 2 and 0; R0 from DC when both are present |
| Transients.Transient.ImportCSV | functionlibrary/transient.py:481-524 | the header texts assigned; the status is `CsvStatus`; the rows appended when it completes, else the raw arrays unchanged |
| Transients.Transient.ImportRouted | functionlibrary/transient.py:447-456 | per route: mat importer, skip, text importer (raising as `CsvStatus` says) or nothing |
| Transients.Transient.ImportFile | functionlibrary/transient.py:444-460 | route by extension; per route the parameters and raw arrays the importer leaves; when the text import raises (a header line without a tab, fewer than two data rows) that exception ends it; otherwise `Clean` with the defaults follows when asked |

## Left out

- Plotting (`quickplot`), `exportCSV`, `writeMetadata_fromDict`, the `initMetadata` stub
  and `main` are not modelled. They are plotting, file output, code that always raises,
  a print-only stub and a demonstration entry point.
- File reading is not modelled. `open`, `loadmat`, `loadtxt` and its skip-rows retry loop
  are replaced by their results. FileNotFoundError and `print` output are not modelled; the
  exceptions `print(len(data[0]))` raises are.
- The Butterworth design and `lfilter` of `filterLowPass` are an uninterpreted
  length-preserving function. `gfs.nyqistFreq`, `gfs.getEnergyDensity` and
  `gfs.name_to_info` are also uninterpreted; their source is not part of this model.
- Numbers are unbounded reals, not IEEE doubles. NaN appears only as the mean of an empty
  baseline; its propagation through later arithmetic is not modelled.
- The difference between Python lists and numpy arrays is not modelled. For example,
  negating a plain list raises TypeError in Python, but the model negates it.
- `lower()` is modelled on ASCII letters only. Paths are '/'-separated.
- Transients.Transient.NormalizeToParameter: requires that the parameter is not one of the
  four arrays, the log dictionary or a log attribute, and that it holds a number, a flag
  or a string. Dividing by a list or a dictionary is not modelled. It also requires that
  the name is not a method of the class or a dunder name: `getattr` finds those on the
  class, so a method name raises TypeError at the division and `__doc__` (None here) logs
  and completes. The model holds no class attributes.
- Cleaning.NormalizeStep: requires the value to be a number, a flag or a string, for the
  same reason as NormalizeToParameter.
- Transients.Transient.NormalizeByValue: requires the value to be a number, a flag or a
  string, for the same reason.
- Transients.Transient.ImportHeader: requires that no header line names one of the four
  arrays or the `analysis_log` dictionary. A header line naming one of them replaces
  array data with text; the model does not follow that case.
- Transients.Transient.ImportCSV: has the same requirement on header lines.
- Transients.Transient.ImportRouted: has the same requirement on header lines.
- Transients.Transient.ImportFile: has the same requirement on header lines.
- Transients.Transient.RemoveDC: requires a positive window. `cleanData` always passes 40.
  A window of zero or less makes the tail slice empty, so the mean is NaN and every sample
  would become NaN; a sequence of reals cannot hold that. In the head branch a negative
  window would drop samples from the end instead.
- Transients.Transient.Baseline: requires a positive window, for the same reason.
- Cleaning.RemoveDcStep: requires a positive window, for the same reason.
- Cleaning.BaselineRange: requires a positive window, for the same reason.
- Transients.Transient.ImportMatFile: requires the two `Daten` rows to have equal length,
  as the rows of one matrix do. A `Daten` matrix with fewer than three rows, or an empty
  `DC`, raises IndexError in the source; that error escapes `importFile` and skips the
  clean. A `MatContents` value holds whole rows and cannot express such a file.
- Transients.Transient.FilterLowPass: always returns the frequency. The source returns it
  only when `return_frequency` is true and returns None otherwise; the flag is not modelled.
- Whether a header name is both a parameter and a log attribute is not tracked. The two
  name spaces are kept apart.
