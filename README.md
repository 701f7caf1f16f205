# irvsp report parser and OUTCAR rewriter, in Dafny

pytopomat runs the external program irvsp. irvsp reads a VASP calculation and writes a text report of the irreducible representations of the electronic states at each k-point. This project models the text processing around that report, in `pytopomat/irvsp_caller.py`:

- **`IRVSPOutput._parse_stdout`** turns the report into `parity_eigenvals`. It reads four header flags from fixed lines: symmorphic, inversion, spin-orbit coupling and spin polarisation. It inverts the KPOINTS labels into a map from rounded k-point to label. It skips to the first `*****` line. It then walks the rest of the report as a state machine. A `k = ` line selects a labelled k-point. A point-group line and the character-table rows follow. A `bnd ndg` line starts the trace block, and each complete trace line adds one band. Each later `*****` line that reaches the end-of-block check stores the block under the current label. A `*****` line is skipped when it is a `k = ` line that does not select, or when the trace-line `continue` cuts its processing short; if a name the store needs is still unbound, it raises NameError. In a spin-polarised run the store goes into an "up"/"down" slot pair.
- **`IRVSPOutputAll._parse_stdout`** does the same, but keys every k-point by the `str` of its vector.
- **`IRVSPCaller.modify_outcar`** makes one pass over OUTCAR. It drops the `num_ops` symmetry operations listed after the `irot` line. In their place it writes the identity, the inversion and a blank line.

Modules:

- `wrappers.dfy` (`Wrappers`): Option and Result.
- `text.dfy` (`PyText`): the Python `str` operations the code uses, with CPython's meaning: `in`, `find`, `startswith`, `split(sep)`, `split()`, `strip()` and slicing.
- `labels.dfy` (`TrimLabels`): the label map `trim_dict`.
  - `dict(zip(...))` is an insertion-ordered list of items.
  - The "None" and None labels are removed.
  - A KPOINTS without labels raises TypeError, because `zip` is given None.
  - A blank label raises KeyError, because the code pops `None`.
  - The comprehension inverts the dict into a map from rounded point to label.
- `report.dfy` (`Report`): the scan as pure functions over an explicit state.
  - Each `if` of the loop body is one stage.
  - `continue` is a `Stop` flow.
  - Each local that may still be unbound is an `Option`; reading an unbound one is `Failure(Unbound(name))`.
  - The character tables are kept in a heap of lists, and a stored record holds an index into it. So a row appended after a store still shows in the record, as it does in Python.
- `parser.dfy` (`Parser`): the two parser classes and their loops, written as methods. Each is proved to compute the functions of `Report`.
- `report_props.dfy` (`ReportProps`): what the scan guarantees.
- `outcar.dfy` (`Outcar`): `modify_outcar` as a loop over the lines, and the lines it writes.

Numeric conversions are parameters:

- `int(...)` and `float(...)` are partial functions; None stands for a ValueError.
- `round(x, 3)` and the `str` of a vector are total functions.

A missing file is an `Option` input that is None. Each exception the code can raise is a value of an error datatype.

## Model

| member | source | states |
|---|---|---|
| PyText.SplitInTwo | pytopomat/irvsp_caller.py:307 | `line.split("=")` has exactly two pieces iff the line holds exactly one "=" |
| PyText.FirstWord | pytopomat/irvsp_caller.py:295-299 | `line.split()[0]` raises exactly for an all-whitespace line; otherwise it is a non-empty word without whitespace that follows only whitespace in the line and ends at whitespace or at the end of the line |
| PyText.TrimLeftSpec | pytopomat/irvsp_caller.py:278 | `lstrip` removes exactly the leading whitespace |
| PyText.TrimRightSpec | pytopomat/irvsp_caller.py:278 | `rstrip` removes exactly the trailing whitespace |
| Parser.ReadFlags | pytopomat/irvsp_caller.py:198-220 | the four header flags: symmorphic iff the line at index 7 lacks "Non-symmorphic", inversion iff it lacks "without", soc and spin-polarised iff the lines at indices 9 and 10 lack "No"; an IndexError for a report shorter than 11 lines |
| TrimLabels.DictOfShape | pytopomat/irvsp_caller.py:242 | `dict(zip(labels, kpts))` has distinct keys, namely the zipped labels; each label holds the point of its last occurrence; items are in the order of first occurrence |
| TrimLabels.NamedMembers | pytopomat/irvsp_caller.py:243-246 | after the pops, exactly the items whose label is a string other than "None" remain |
| TrimLabels.NamedOrder | pytopomat/irvsp_caller.py:243-246 | the pops keep the order of the remaining items |
| TrimLabels.TrimDictFails | pytopomat/irvsp_caller.py:242-250 | building the map raises exactly when the KPOINTS has no labels (TypeError of `zip`) or some zipped label is "" or " " (KeyError of `pop(None)`), and the error says which |
| TrimLabels.PointMapLastWins | pytopomat/irvsp_caller.py:252-253 | in the inverting comprehension the label under a rounded point is that of the last item with that point |
| TrimLabels.TrimDictKeys | pytopomat/irvsp_caller.py:242-253 | the map's keys are exactly the rounded points of the kept labels, each label taken with the point of its last occurrence |
| TrimLabels.TrimDictWinner | pytopomat/irvsp_caller.py:242-253 | the label under a point is a kept label whose point rounds to it; of all such labels it is the one whose first occurrence comes last |
| Report.ParseVector | pytopomat/irvsp_caller.py:267-271 | the vector of a `k = ` line parses iff every piece parses as a float; its entries are then the rounded floats, piece by piece |
| Report.FirstMarked | pytopomat/irvsp_caller.py:259-262 | the index of the first line holding "*****", or none when no line holds it |
| Parser.FindBlockStart | pytopomat/irvsp_caller.py:259-262 | the loop finds the line after the first "*****", and leaves `block_start` unbound when there is none |
| Parser.KPointLine | pytopomat/irvsp_caller.py:266-275 | the `k = ` check of one line, as the function KPointStage |
| Parser.PointGroupLines | pytopomat/irvsp_caller.py:277-283 | the point-group and character-table checks of one line, as PointGroupStage then TableStage |
| Parser.TraceLines | pytopomat/irvsp_caller.py:286-321 | the band-header and trace-line checks of one line, as BandHeaderStage then TraceStage |
| Parser.EndLine | pytopomat/irvsp_caller.py:323-341 | the end-of-block check of one line, as EndStage |
| Parser.ScanBlocks | pytopomat/irvsp_caller.py:264-341 | the loop over the lines after the first "*****" computes the scan `Scan` and resolves the stored table references |
| Parser.ScanReport | pytopomat/irvsp_caller.py:258-341 | the search for the first "*****" followed by the scan, or the NameError on `block_start` |
| Parser.IrvspOutput.ParseStdout | pytopomat/irvsp_caller.py:191-343 | the flags are set once the header is read; `parity_eigenvals` is set to the parsed store exactly when parsing succeeds; otherwise the raised error is returned and the store is unchanged |
| Parser.IrvspOutput.Create | pytopomat/irvsp_caller.py:156-189 | the constructor followed by `_parse_stdout`: a fresh object holding the parsed flags and store, or the error |
| Parser.IrvspOutputAll.ParseStdout | pytopomat/irvsp_caller.py:385-535 | as for IrvspOutput, with every parsable k-vector keyed by its `str` |
| Parser.IrvspOutputAll.Create | pytopomat/irvsp_caller.py:352-383 | a fresh object holding the parsed flags and store, or the error |
| ReportProps.SkippedKLine | pytopomat/irvsp_caller.py:266-273 | a `k = ` line whose vector does not parse, or has no label, leaves the whole state unchanged, including any "*****" it holds |
| ReportProps.StepSelection | pytopomat/irvsp_caller.py:266-275 | after one line, blocks are wanted iff they were before or the line selects; the label changes only on a selecting line, and then to that line's label |
| ReportProps.ScanSelection | pytopomat/irvsp_caller.py:264-325 | at the end of a scan blocks are wanted iff they were at its start or some line selects: `kpt_wanted` is never cleared, since line 324 assigns `kpt_start` |
| ReportProps.TraceStageAppends | pytopomat/irvsp_caller.py:294-321 | a trace line appends one entry to each band list: the band index from columns 0-3, the degeneracy from 3-6, the eigenvalue from 6-16 and the text after "=". The trace-line step raises ValueError only on a trace line, and only when one of those three columns does not parse. It ends the line's processing (`continue`) exactly when blocks are wanted, the trace block has started, the line has a "0" and its first word is not an int. Any other line leaves the state unchanged |
| ReportProps.PushAligned | pytopomat/irvsp_caller.py:317-321 | the four appends keep the lists aligned, grow each by one, keep every earlier entry and put the new band index, degeneracy, eigenvalue and irrep last |
| ReportProps.KPointFlags | pytopomat/irvsp_caller.py:266-275 | the `k = ` check skips the line exactly when it is a `k = ` line that does not select. A selecting line sets `kpt_wanted` and makes its label current and changes nothing else; any other line changes nothing |
| ReportProps.PointGroupFresh | pytopomat/irvsp_caller.py:277-279 | a point-group line of a wanted block sets the point group to the stripped text after the first marker. It makes a new, empty table current and leaves the tables already made, and so every stored record, as they were. Nothing else changes. Any other line changes nothing |
| ReportProps.ExtendedTablesKeepRecords | pytopomat/irvsp_caller.py:279 | binding `pg_character_table` to a new list leaves every stored record's rows as they were |
| ReportProps.TableStageRows | pytopomat/irvsp_caller.py:280-283 | while blocks are wanted, a line holding the identity marker, and then one holding the class marker, each append the stripped line to the current table and to no other table. Nothing else changes. The step raises NameError on `pg_character_table` exactly when there is a row but no table is bound |
| ReportProps.BandHeaderStarts | pytopomat/irvsp_caller.py:286-292 | a `bnd ndg` line of a wanted block raises ValueError exactly when no space-separated piece of the stripped line is "E". Otherwise it sets `trace_start` and binds four new empty band lists, and changes nothing else. Any other line changes nothing |
| ReportProps.MiddleStagesFlags | pytopomat/irvsp_caller.py:277-293 | the point-group, table and band-header checks keep `kpt_wanted`; `trace_start` becomes set exactly on a `bnd ndg` line of a wanted block |
| ReportProps.Stages | pytopomat/irvsp_caller.py:266-341 | a line reaches the end-of-block check exactly when it passes both `continue`s (lines 271-273 and 299) |
| ReportProps.EndStageStores | pytopomat/irvsp_caller.py:323-341 | a "*****" line raises NameError exactly when the band lists, the point group, the table or the label is unbound; otherwise it ends the trace block and stores the current lists, point group and table under the current label, and changes nothing else. Any other line passes unchanged |
| ReportProps.StepStore | pytopomat/irvsp_caller.py:323-341 | a line changes the store only when it holds "*****", and then by storing the current block under the current label |
| ReportProps.StepStoresReached | pytopomat/irvsp_caller.py:266-341 | a line stores its block exactly when it holds "*****" and passes both `continue`s; the block, point group and table go under the current label and the trace block ends. Every other line leaves the store unchanged |
| ReportProps.StepSlots | pytopomat/irvsp_caller.py:323-341 | at a reached "*****" line in a plain run, the block replaces any earlier record under the current label. In a spin-polarised run the first block under a label fills "up" and every later one overwrites "down". No other label's record changes |
| ReportProps.ContinueKeepsStore | pytopomat/irvsp_caller.py:294-299 | a line with a "0" whose first word is not an int, while blocks are wanted and the trace block has started, leaves the store unchanged even when it holds "*****" |
| ReportProps.ScanStoredLabels | pytopomat/irvsp_caller.py:264-341 | after a scan a label has a record iff it had one before or some reached "*****" line stored a block under it |
| ReportProps.ParseBlocksLabels | pytopomat/irvsp_caller.py:258-343 | the labels of the parsed report are exactly those under which some reached "*****" line after the first one stored a block |
| ReportProps.ScanKeepsUps | pytopomat/irvsp_caller.py:335-341 | a label once stored stays stored; in a spin-polarised run, the first record stored under a label stays its "up" record |
| ReportProps.ScanCoherent | pytopomat/irvsp_caller.py:286-341 | the current band lists and every stored block keep equal lengths throughout the scan |
| ReportProps.ParseLabelledAligned | pytopomat/irvsp_caller.py:191-343 | in every record of `IRVSPOutput.parity_eigenvals`, the four band lists have the same length |
| ReportProps.ParseAllAligned | pytopomat/irvsp_caller.py:385-535 | the same for `IRVSPOutputAll` |
| ReportProps.IdleScan | pytopomat/irvsp_caller.py:264-331 | while nothing has selected and no band list is bound, lines change nothing; the first "*****" line outside a `k = ` line raises NameError on `bnds` |
| ReportProps.UnselectedReport | pytopomat/irvsp_caller.py:258-331 | when no `k = ` line after the first "*****" selects, the result is an empty store if no later line ends a block; otherwise it is the NameError on `bnds` |
| ReportProps.PrefixIgnored | pytopomat/irvsp_caller.py:258-265 | lines without "*****" put before a report do not change its parsed blocks |
| ReportProps.AppendShowsInRecord | pytopomat/irvsp_caller.py:277-333 | a character-table row appended while a stored record's table is still current shows in that record, because the record shares the list; it does not show in a record of another table, and nothing else in the record changes |
| ReportProps.AppendShowsInSpinRecord | pytopomat/irvsp_caller.py:277-341 | the same for a spin-polarised store, for the "up" record and for the "down" record when there is one |
| Outcar.Range | pytopomat/irvsp_caller.py:142 | `list(range(lo, hi))` holds exactly the integers from lo up to hi |
| Outcar.RewriteStep | pytopomat/irvsp_caller.py:136-148 | one iteration of the loop, as the function RewriteLine |
| Outcar.RewriteLines | pytopomat/irvsp_caller.py:134-148 | the loop writes exactly the lines of the specification fold `Rewritten`, or raises its error |
| Outcar.ModifyOutcar | pytopomat/irvsp_caller.py:119-148 | FileNotFoundError without OUTCAR; otherwise the lines the loop writes |
| Outcar.RewriteLineFails | pytopomat/irvsp_caller.py:137-139 | an iteration raises exactly on an INISYM line with no fifth word, or with a fifth word that is not an int |
| Outcar.LoopFails | pytopomat/irvsp_caller.py:136-148 | the loop raises exactly when one of its lines makes an iteration raise |
| Outcar.ModifyOutcarFails | pytopomat/irvsp_caller.py:119-148 | the rewrite raises exactly when OUTCAR is missing or has a bad INISYM line |
| Outcar.ModifyOutcarOneTable | pytopomat/irvsp_caller.py:123-148 | for an OUTCAR with one INISYM line announcing n operations and one later "irot" line: the output is the lines up to "irot" inclusive, then the identity, the inversion and a blank line in place of the n operation lines, then the rest in order. The replacement is also written before line n-1 when that line lies between the INISYM and "irot" lines, because `irot_start` is still -1 there |
| Outcar.ModifyOutcarReplaces | pytopomat/irvsp_caller.py:106-148 | when line n-1 comes before the INISYM line, the output is the input with exactly the n lines after "irot" replaced by the identity, the inversion and a blank line |

## Left out

- `IRVSPCaller.__init__` (pytopomat/irvsp_caller.py:40-103) is not modelled. It checks files and changes directory, runs pymatgen's symmetry analysis and `loadfn`, starts irvsp as a subprocess, and falls back to `IRVSPOutputAll`. All of that is external.
- File reading and writing are left out; inputs and outputs are sequences of lines. This covers the `with open`, the `readlines`, the temporary file `temp.txt` and the two `os.rename` calls of `modify_outcar` (pytopomat/irvsp_caller.py:151-152).
- The `print(line)` at pytopomat/irvsp_caller.py:287 is left out. It has no effect on the result.
- `float`, `int`, `round(x, 3)` and the `str` of a tuple of floats are parameters, not implementations. Floating-point arithmetic is not modelled.
- `inv_num`, `num_ops` and `inv_evs` of the band-header line are computed but never used. Only the ValueError of `symmops.index("E")` is kept.
- MSONable serialisation and the `_irvsp_output` attribute are not modelled.
- The workflow scripts under pytopomat/workflows and the test script are not part of this model. They drive external services and hold no logic of their own.
- A k-point is a `Vec3` of exactly three coordinates. The IndexError that `pt[1]` or `pt[2]` raises for a KPOINTS point with fewer coordinates (pytopomat/irvsp_caller.py:252) cannot occur in the model.
- The order of `parity_eigenvals`' keys is not modelled. It is a map, because nothing in the core reads that order.
- Parser.IrvspOutput.ParseStdout: when a report's header is read but later parsing raises, the flags keep the values just read, and `parity_eigenvals` keeps its value from before the call. In Python the exception leaves the object half-initialised, and only `IRVSPCaller.__init__`, which is not modelled, catches it.
- Outcar.ModifyOutcarOneTable: the layout of the output is proved only for an OUTCAR with exactly one INISYM line, announcing n >= 1 operations, one later "irot" line, and at least n lines after it. Other layouts are covered only by the loop's specification `Rewritten`.
