# openmm_orion core in Dafny

This project models three parts of the openmm_orion repository: the
OpenMM/Orion cubes and floes for molecular-dynamics preparation and
binding-free-energy workflows.

- **`SimTools`** covers `OpenMMCubes/simtools.py`:
  - how `combinePositions` stacks the protein and ligand coordinates into a
    zeroed n x 3 array, row by row, in angstrom;
  - how `mergeStructure` builds the complex and forces the protein's box
    onto it;
  - the SEQRES scan and the temporary file names of
    `solvateComplexStructure`;
  - the decisions of `simulation`: barostat, platform, velocities,
    reporters and run kind, and its write-back of positions, box and
    velocities into the structure;
  - `getReporters` and the `traj_dict` lookup of `mdTrajConvert`.

  The MD engine is a parameter: the platforms it can construct and the
  final state it reports.
- **`BindingFreeEnergyFloe`** covers `floes/binding_free_energy.py`. The job
  is a class with the list of cubes added and the list of connections made;
  the script's module-level code becomes methods that grow it. Proved about
  the result:
  - the shape of `cube_list`;
  - the YANK chunk schedule: iterations, and the rerun, minimize and
    analyze flags;
  - cube names are unique;
  - the fixed wiring;
  - the index-based chain of success links, and the single failure link
    from the last chunk to the failure writer.
- **`FloeReport`** covers `TrjAnalysisCubes/MDTrajAnalysisFloeReport.py`. A
  record is a map from field name to a typed value. Modelled:
  - `CheckAndGetValue` and `CheckAndGetValueFull`;
  - the order in which `process` reads fields and checks the analyses,
    with its error messages;
  - the regular-expression substitution and the slice of `_trim_svg`;
  - the cluster summary lines;
  - the cube's routing of a record to its success or failure port, and the
    pages it appends to the report file.

  The unit test's record is rebuilt as a value and shown to be accepted.
- **`Strings`** holds the pieces of Python string behaviour the code uses:
  `find`, `in` and `str(int)`.
- **`Wrappers`** holds `Option` and `Result`.

The substitution `re.sub('(<script[^>]*> *<!\[CDATA\[)', r'\1' + run_init, svg)`
becomes three definitions:
- `OpenerEnd`, a character-by-character scan that matches the pattern at
  the start of a text. `[^>]*` can only stop at the first `>`, and ` *`
  only after the last of the spaces that follow it, so the scan never
  backtracks. `OpenerEndIsMatch` proves the scan finds exactly the matches
  of the pattern.
- `InsertAfterOpeners`, the left-to-right substitution.
- `EraseAfterOpeners`, its inverse.

Two halves say what the substitution does:
- `InsertAfterEveryOpener` and `InsertCount` say that the snippet is put
  in. `MatchEnds(s)` is the set of indices where a match ends, wherever
  it starts. The snippet occurs right after the image of each of them.
  That image is the end's own index moved on by one snippet per end
  before it. The output is one snippet longer per end.
- The round trip `EraseInsertAfterOpeners` says that nothing else
  changes: removing the snippets after the matches gives back the text.

`combinePositions` raises `ValueError` when either list of positions is
empty. With one list empty, `np.vstack` (`OpenMMCubes/simtools.py:62-63`)
stacks a row of width 0 onto rows of width 3. With both empty,
unpacking `(x, y, z)` from the first, empty row (line 67) fails. The
model follows the code and returns an error there. It does not follow
the design's reading, in which an empty list is left out of the
combination.

## Model

| member | source | states |
|---|---|---|
| Strings.Find | TrjAnalysisCubes/MDTrajAnalysisFloeReport.py:108 | `str.find`: -1 exactly when the pattern occurs nowhere, otherwise an index where it occurs with no occurrence before it |
| Strings.Contains | OpenMMCubes/simtools.py:140 | `p in s` holds exactly when `p` occurs at some index of `s` |
| Strings.NatToString | floes/binding_free_energy.py:269 | `str(n)` for n >= 0 is a non-empty string of decimal digits |
| Strings.DecimalRoundTrip | floes/binding_free_energy.py:269 | reading the digits of `str(n)` back gives `n` |
| Strings.NatToStringInjective | floes/binding_free_energy.py:269 | different chunk numbers give different strings, so the "ABFE" names differ |
| Strings.IntToString | TrjAnalysisCubes/MDTrajAnalysisFloeReport.py:200-208 | `'{}'.format(i)` of an integer: its digits, with a minus sign when it is negative |
| Strings.IntToStringInjective | TrjAnalysisCubes/MDTrajAnalysisFloeReport.py:200-208 | different integers give different `'{}'.format` texts |
| Strings.NumeralLengthOf | TrjAnalysisCubes/MDTrajAnalysisFloeReport.py:200-208 | a number's text followed by text starting with neither sign nor digit is exactly the leading run of signs and digits |
| Strings.ReadNumeral | TrjAnalysisCubes/MDTrajAnalysisFloeReport.py:200-208 | after a common prefix, a number's text followed by a word is determined by the whole text, and so is the word |
| Strings.Join | TrjAnalysisCubes/MDTrajAnalysisFloeReport.py:220 | `"".join` of no parts is empty, of one part is that part |
| Strings.JoinAppend | TrjAnalysisCubes/MDTrajAnalysisFloeReport.py:220 | joining two lists of parts one after the other is joining each and concatenating |
| SimTools.InAngstroms | OpenMMCubes/simtools.py:59-61 | `positions / unit.angstroms` keeps one row per position; a quantity in angstrom comes out unchanged, one in nanometre with every coordinate times 10 |
| SimTools.CombinePositions | OpenMMCubes/simtools.py:59-72 | fails exactly when either list of positions is empty: the stack width error of lines 62-63 when one is, the unpacking error of line 67 when both are; otherwise the result is tagged in angstrom and has `len(protein) + len(mol)` rows; row k is protein row k (in angstrom) for k < len(protein), otherwise ligand row k - len(protein); proved through the row-filling loop's invariant |
| SimTools.Structure.PositionsQuantity | OpenMMCubes/simtools.py:94 | reading `structure.positions` gives the stored rows tagged in angstrom |
| SimTools.Structure.SetPositions | OpenMMCubes/simtools.py:96 | assigning positions stores them in angstrom and changes no other field |
| SimTools.AddStructures | OpenMMCubes/simtools.py:93 | the sum has the atoms and positions of the first structure followed by those of the second |
| SimTools.MergeStructure | OpenMMCubes/simtools.py:93-99 | fails, with the error `combinePositions` raises, exactly when either structure has no positions; otherwise the complex is fresh, has the protein's atoms and then the ligand's, positions equal to the combined positions, and the protein's box whatever the ligand's box was; the ligand's residue names are kept; consistent inputs give as many positions as atoms |
| SimTools.SolvationTempFiles | OpenMMCubes/simtools.py:134-187 | the two temporary files are `outfname` with `-pl.tmp` (the complex written before PDBFixer) and `outfname` with `-nomol.tmp` (the stripped, solvated protein), two different files, the same two that are removed at the end |
| SimTools.ScanSeqres | OpenMMCubes/simtools.py:137-144 | the flag is true iff some line contains `SEQRES`; the scan stops at the first such line; the warning is produced iff the flag is false |
| SimTools.SelectPlatform | OpenMMCubes/simtools.py:225-232 | 'Auto' gives the default platform; any other name gives that platform when the engine has it, otherwise the invalid-platform `ValueError` |
| SimTools.GetReporters | OpenMMCubes/simtools.py:313-356 | three reporters (state log, progress, NetCDF trajectory) in that order; missing `totalSteps`/`outfname` default to the options; the energies go to the prefix with `.log` and the trajectory to the prefix with `.nc`, two different files; the intervals come from the options |
| SimTools.PlanRun | OpenMMCubes/simtools.py:203-297 | the error order of the source: an unavailable platform gives the invalid-platform error; then a structure without a box fails as `box[0]` does at line 238; then nvt/npt without a logger fails; min, or nvt/npt with a logger, succeeds. A barostat `MonteCarloBarostat(pressure, temperature, 25)` iff npt; dynamics of `StepsForTime(time)` steps with the reporters `getReporters` gives for that many steps iff nvt/npt; otherwise minimisation with `steps` iterations; the velocities are restored iff given, else drawn at the temperature |
| SimTools.Simulation | OpenMMCubes/simtools.py:193-309 | the outcome is the plan for the structure's velocities and box (`mdData` read at lines 208-212), so a structure without a box fails; on error the structure is unchanged; on success positions and box always come from the final state, velocities only after dynamics |
| SimTools.TrajectoryFile | OpenMMCubes/simtools.py:387-404 | a file exists exactly for HDF5, DCD and NetCDF; it is `outfname` with `.h5`, `.dcd` or `.nc` respectively, the extension by which `traj.save` picks the format written |
| SimTools.TrajectoryFilesDistinct | OpenMMCubes/simtools.py:387-389 | the three formats are written to three different files |
| BindingFreeEnergyFloe.WorkFloe.constructor | floes/binding_free_energy.py:49 | a new job has its title and no cubes or connections |
| BindingFreeEnergyFloe.WorkFloe.AddCube | floes/binding_free_energy.py:75 | `add_cube` appends one cube and changes nothing else |
| BindingFreeEnergyFloe.WorkFloe.Connect | floes/binding_free_energy.py:299 | `connect` appends one connection and changes nothing else |
| BindingFreeEnergyFloe.SuccessEdgesAppend | floes/binding_free_energy.py:324-327 | the success and failure connections of two connection lists appended are those of each, appended |
| BindingFreeEnergyFloe.StepEdgesParts | floes/binding_free_energy.py:324-327 | one iteration of the index loop links `cube_list[i]` to `cube_list[i+1]` on success, and makes its failure link only when i is `len - 3` |
| BindingFreeEnergyFloe.LoopSuccessLinks | floes/binding_free_energy.py:324-325 | after n iterations of the index loop the success links are exactly `cube_list[i] -> cube_list[i+1]` for i < n, in order |
| BindingFreeEnergyFloe.LoopSuccessStep | floes/binding_free_energy.py:324-325 | each iteration of the index loop adds exactly its own link to the success links |
| BindingFreeEnergyFloe.LoopFailureStep | floes/binding_free_energy.py:324-327 | while earlier iterations made no failure link, the failure links after iteration n - 1 are exactly the one it makes when it is the last |
| BindingFreeEnergyFloe.LoopFailureLinks | floes/binding_free_energy.py:326-327 | the loop makes no failure link until its last iteration, which links `cube_list[len-3]` to `cube_list[len-1]` |
| BindingFreeEnergyFloe.ChainEdgesLinks | floes/binding_free_energy.py:324-327 | the whole index loop chains every cube but the last two to its successor, and makes exactly one failure link, from index len-3 to len-1 |
| BindingFreeEnergyFloe.YankSchedule | floes/binding_free_energy.py:120-147 | there are max(chunks, 1) chunks; chunk i runs `per_chunk * (i+1)` iterations; only chunk 0 minimises and does not rerun; a chunk analyses iff it is a later chunk and the last one |
| BindingFreeEnergyFloe.IterationsIncrease | floes/binding_free_energy.py:268-270 | with positive iterations per chunk the schedule is strictly increasing |
| BindingFreeEnergyFloe.AnalysingChunks | floes/binding_free_energy.py:268-282 | exactly the last chunk analyses when there are two or more chunks; with one chunk none does |
| BindingFreeEnergyFloe.YankChunkNames | floes/binding_free_energy.py:268-269 | chunk i is named "ABFE" followed by the digits of i |
| BindingFreeEnergyFloe.CubeListShape | floes/binding_free_energy.py:261-296 | `cube_list` is sync, the chunks in order, ofs, fail: length max(chunks, 1) + 3 |
| BindingFreeEnergyFloe.CubeListNamesDistinct | floes/binding_free_energy.py:261-296 | no two cubes of `cube_list` share a name |
| BindingFreeEnergyFloe.OtherCubesNames | floes/binding_free_energy.py:75-296 | the cubes that are not YANK chunks have distinct names, none starting with "A" |
| BindingFreeEnergyFloe.YankChunkNamesDistinct | floes/binding_free_energy.py:268-285 | the YANK chunks have distinct names, all starting with "A" of "ABFE" |
| BindingFreeEnergyFloe.JobParts | floes/binding_free_energy.py:75-296 | the job's cubes are the twenty preparation cubes, the chunks after ABFE0, then ofs and fail |
| BindingFreeEnergyFloe.JobSlotAt | floes/binding_free_energy.py:75-296 | each place of the job holds either a YANK chunk or one of the other cubes, in the order they are added |
| BindingFreeEnergyFloe.JobCubesNamesDistinct | floes/binding_free_energy.py:75-296 | no two cubes added to the job share a name, so the connections, recorded by name, each join the cubes intended |
| BindingFreeEnergyFloe.BindingFloeRouting | floes/binding_free_energy.py:299-327 | the job's success links are the fixed wiring followed by sync -> ABFE0 -> ... -> last chunk -> ofs; its only failure link goes from the last chunk to fail; fail receives no success link from the chain |
| BindingFreeEnergyFloe.ComplexBranch | floes/binding_free_energy.py:307-314 | the complex branch is a chain of success links from `Complex` to the synchroniser's intake |
| BindingFreeEnergyFloe.LigandBranch | floes/binding_free_energy.py:316-321 | the ligand branch is a chain of success links from `LigandSetting` to the synchroniser's solvated-ligand port |
| BindingFreeEnergyFloe.FixedWiring | floes/binding_free_energy.py:299-321 | all fixed links are success links; the ligand settings feed exactly the complex and the ligand hydration; the complex branch is a chain ending at the synchroniser's intake and the ligand branch a chain ending at its solvated-ligand port; nothing else enters the synchroniser |
| BindingFreeEnergyFloe.DefaultSettings | floes/binding_free_energy.py:43-44 | the script's settings give five chunks, the last, ABFE4, running 1000 iterations and the only one that analyses |
| BindingFreeEnergyFloe.AddSetupCubes | floes/binding_free_energy.py:73-117 | the readers, the settings cubes and the complex preparation are added in order |
| BindingFreeEnergyFloe.AddComplexMDCubes | floes/binding_free_energy.py:149-214 | ABFE0 and the complex's minimisation, warm-up and three equilibrations are added in order |
| BindingFreeEnergyFloe.AddLigandCubes | floes/binding_free_energy.py:219-262 | the ligand's hydration, parametrisation, minimisation, warm-up and equilibration, then the synchroniser, are added in order |
| BindingFreeEnergyFloe.AddPreparationCubes | floes/binding_free_energy.py:73-262 | every cube before the chunk loop is added, in order |
| BindingFreeEnergyFloe.AddYankChunks | floes/binding_free_energy.py:268-285 | the chunk loop adds ABFE1 .. ABFE(chunks-1), configured as the schedule says, to both the job and `cube_list` |
| BindingFreeEnergyFloe.AddAllCubes | floes/binding_free_energy.py:73-296 | every `add_cube` call in order, and `cube_list` built as sync, chunks, ofs, fail |
| BindingFreeEnergyFloe.ConnectInputs | floes/binding_free_energy.py:299-304 | the reader and settings connections are made in order |
| BindingFreeEnergyFloe.ConnectComplexBranch | floes/binding_free_energy.py:307-314 | the complex branch's connections are made in order |
| BindingFreeEnergyFloe.ConnectLigandBranch | floes/binding_free_energy.py:316-321 | the ligand branch's connections are made in order |
| BindingFreeEnergyFloe.ConnectCubeList | floes/binding_free_energy.py:324-327 | the index loop over `cube_list` appends exactly the chain connections |
| BindingFreeEnergyFloe.ConnectAll | floes/binding_free_energy.py:299-327 | all connections of the script: the fixed wiring, then the chain |
| BindingFreeEnergyFloe.BuildBindingAffinityFloe | floes/binding_free_energy.py:47-327 | the job "Binding Affinity" holds every cube in `add_cube` order, and the fixed wiring followed by the chain through `cube_list` |
| FloeReport.SetValue | tests/test_mdtraj_floe_report.py:40-67 | `set_value` stores the value under the field's name and keeps every other field |
| FloeReport.GetAfterSet | tests/test_mdtraj_floe_report.py:40-67 | a value set on a record is what the checked lookup returns for that field; other fields read as before |
| FloeReport.CheckAndGetValue | TrjAnalysisCubes/MDTrajAnalysisFloeReport.py:119-125 | succeeds iff the record has a value of the field's type, returning it; otherwise `ValueError` naming the field |
| FloeReport.CheckAndGetValueFull | TrjAnalysisCubes/MDTrajAnalysisFloeReport.py:111-117 | the same lookup with the field given by name and type |
| FloeReport.FirstFrom | TrjAnalysisCubes/MDTrajAnalysisFloeReport.py:106 | the position of the first `>` from a start, which is where `[^>]*` must stop |
| FloeReport.SkipSpaces | TrjAnalysisCubes/MDTrajAnalysisFloeReport.py:106 | the first non-space from a start, which is where ` *` must stop |
| FloeReport.ScanFrom | TrjAnalysisCubes/MDTrajAnalysisFloeReport.py:106 | a match found from index i in a phase ends within the text, at least the rest of the pattern beyond i |
| FloeReport.OpenerEnd | TrjAnalysisCubes/MDTrajAnalysisFloeReport.py:106 | a match at the start is at least as long as `<script`, `>` and `<![CDATA[` together and ends within the text (exactness: `OpenerEndIsMatch`) |
| FloeReport.OpenerEndIsMatch | TrjAnalysisCubes/MDTrajAnalysisFloeReport.py:106 | the scan ends at n exactly when `<script[^>]*> *<!\[CDATA\[` matches the text's start up to n |
| FloeReport.OpenerEndSound | TrjAnalysisCubes/MDTrajAnalysisFloeReport.py:106 | what the scan finds is a match of the pattern, with its `>` and `<![CDATA[` located |
| FloeReport.OpenerEndComplete | TrjAnalysisCubes/MDTrajAnalysisFloeReport.py:106 | every match of the pattern at the start is the one the scan finds |
| FloeReport.OpenerEndPrefix | TrjAnalysisCubes/MDTrajAnalysisFloeReport.py:106 | a match depends only on the text it covers |
| FloeReport.MatchStopsAtNewline | TrjAnalysisCubes/MDTrajAnalysisFloeReport.py:106 | a match ends before a newline that follows a `>` of its tag |
| FloeReport.InsertKeepsMatch | TrjAnalysisCubes/MDTrajAnalysisFloeReport.py:106 | the substitution keeps a match at the start where it was |
| FloeReport.InsertAfterOpeners | TrjAnalysisCubes/MDTrajAnalysisFloeReport.py:106 | the substitution never shortens the text (exactly how much it adds: `InsertCount`; where: `InsertAfterEveryOpener`; that it only inserts: `EraseInsertAfterOpeners`) |
| FloeReport.SnippetAfterOpener | TrjAnalysisCubes/MDTrajAnalysisFloeReport.py:106 | a match followed by the snippet leaves room for the snippet in the text |
| FloeReport.NoNewOpener | TrjAnalysisCubes/MDTrajAnalysisFloeReport.py:105-106 | inserting the snippet (which opens with a newline) creates no new match |
| FloeReport.EraseInsertAfterOpeners | TrjAnalysisCubes/MDTrajAnalysisFloeReport.py:105-106 | removing the snippets after the matches gives back the original text, so the substitution changes nothing but what it inserts |
| FloeReport.InsertNoScript | TrjAnalysisCubes/MDTrajAnalysisFloeReport.py:106 | text holding no `<script` comes out of the substitution unchanged |
| FloeReport.ShiftCard | TrjAnalysisCubes/MDTrajAnalysisFloeReport.py:106 | moving a set of match ends along the text keeps how many there are |
| FloeReport.InsideMatchSameEnd | TrjAnalysisCubes/MDTrajAnalysisFloeReport.py:106 | a match starting inside another match ends where that one does, so `re.sub`'s left-to-right scan, which resumes after a match, misses no match end |
| FloeReport.MatchEndsNoMatch | TrjAnalysisCubes/MDTrajAnalysisFloeReport.py:106 | without a match at the start, the match ends are those of the rest of the text, one further on |
| FloeReport.MatchEndsAtMatch | TrjAnalysisCubes/MDTrajAnalysisFloeReport.py:106 | with a match ending at n at the start, the match ends are n and those of the text after it, moved on by n |
| FloeReport.InsertCount | TrjAnalysisCubes/MDTrajAnalysisFloeReport.py:106 | the substitution makes the text longer by exactly one snippet per match end |
| FloeReport.InsertAfterEveryOpener | TrjAnalysisCubes/MDTrajAnalysisFloeReport.py:105-106 | the snippet occurs right after every match end, at the end's index moved on by one snippet per earlier end |
| FloeReport.InsertInit | TrjAnalysisCubes/MDTrajAnalysisFloeReport.py:105-106 | the substitution with the actual `run_init` snippet: the snippet occurs right after the image of every match end, the text grows by one snippet per end, removing the snippets gives back the original text, and text without `<script` is unchanged |
| FloeReport.SliceFrom | TrjAnalysisCubes/MDTrajAnalysisFloeReport.py:109 | Python's `s[i:]` for any integer, negative indices counting from the end |
| FloeReport.TrimSvg | TrjAnalysisCubes/MDTrajAnalysisFloeReport.py:102-109 | the result is a suffix of the substituted text; with `<svg` present it starts at its first occurrence; without it only the last character is left, or nothing for empty text |
| FloeReport.ExtractClusterResults | TrjAnalysisCubes/MDTrajAnalysisFloeReport.py:189-206 | reading the clustering sub-record succeeds iff all eight fields are present with their types, and then returns exactly those eight values (the three plots, frame count, method, alpha, cluster count, counts); a missing one fails with its `ValueError` message |
| FloeReport.ReadTrajectory | TrjAnalysisCubes/MDTrajAnalysisFloeReport.py:166-180 | reading title, ligand, analyses done and the trajectory picture succeeds iff all are present and `OETraj` is listed as done |
| FloeReport.Extract | TrjAnalysisCubes/MDTrajAnalysisFloeReport.py:166-206 | all reads of `process` succeed iff the record is ready: every field present with its type, and both `OETraj` and `TrajClus` listed as done; the title, ligand, trajectory picture and clustering values returned are those of the record |
| FloeReport.ExtractNoTitle | TrjAnalysisCubes/MDTrajAnalysisFloeReport.py:166 | a record without a title fails with the missing-field message for `Title_OPLMD` |
| FloeReport.ExtractNoTrajAnalysis | TrjAnalysisCubes/MDTrajAnalysisFloeReport.py:172-174 | a record not listing `OETraj` as done fails with the message naming its title |
| FloeReport.ExtractNoClustering | TrjAnalysisCubes/MDTrajAnalysisFloeReport.py:183-185 | a record not listing `TrajClus` as done fails with the message naming its title |
| FloeReport.NumberLine | TrjAnalysisCubes/MDTrajAnalysisFloeReport.py:200-205 | the frame-count line (`'Clustering {} frames\n'`, line 200, `FramesLine`) and the cluster-count line (`'produced {} clusters:\n'`, line 205, `ProducedLine`): one line starting with its fixed words, with exactly the count's digits between them and the tail |
| FloeReport.NumberLineInjective | TrjAnalysisCubes/MDTrajAnalysisFloeReport.py:200-205 | the count can be read back from its line: different counts give different lines |
| FloeReport.MethodLine | TrjAnalysisCubes/MDTrajAnalysisFloeReport.py:203 | starts with "Cluster method ", the method and " with alpha ", holds exactly the alpha's text after that, and ends with a newline |
| FloeReport.ClusterLine | TrjAnalysisCubes/MDTrajAnalysisFloeReport.py:208 | `cluster {} contains {} frames\n`: one line starting with "cluster " (its two numbers: `ClusterLineFields`) |
| FloeReport.ClusterLineFields | TrjAnalysisCubes/MDTrajAnalysisFloeReport.py:208 | the line holds exactly the cluster index's digits after "cluster ", and exactly the frame count's digits between " contains " and " frames\n" |
| FloeReport.ClusterLineInjective | TrjAnalysisCubes/MDTrajAnalysisFloeReport.py:208 | the cluster index and its frame count can both be read back from the cluster's line |
| FloeReport.ClusterLines | TrjAnalysisCubes/MDTrajAnalysisFloeReport.py:207-208 | one line per cluster count; line i is the line for cluster i and its count |
| FloeReport.AnalysisLines | TrjAnalysisCubes/MDTrajAnalysisFloeReport.py:198-208 | 3 + len(counts) lines: frames, method, clusters, then line i + 3 for cluster i |
| FloeReport.AnalysisText | TrjAnalysisCubes/MDTrajAnalysisFloeReport.py:198-220 | the joined text is the three header lines followed by the cluster lines joined, in that order |
| FloeReport.ClusterLinesSnoc | TrjAnalysisCubes/MDTrajAnalysisFloeReport.py:207-208 | one more iteration of the loop adds exactly the line of the next cluster |
| FloeReport.BuildClusterLines | TrjAnalysisCubes/MDTrajAnalysisFloeReport.py:207-208 | the loop builds `ClusterLines(counts)`: one line per cluster count, in index order |
| FloeReport.BuildAnalysisText | TrjAnalysisCubes/MDTrajAnalysisFloeReport.py:198-208 | the list built is `AnalysisLines`: the three header lines, then the cluster lines |
| FloeReport.PageContents | TrjAnalysisCubes/MDTrajAnalysisFloeReport.py:216-224 | the page has `rmsd_hist`, `clusters`, `traj` and `rmsdInit` set to the trimmed plots, each in its own slot, and `analysis` set to the frame, method and cluster-count lines followed by one line per cluster |
| FloeReport.RenderPage | TrjAnalysisCubes/MDTrajAnalysisFloeReport.py:198-224 | the page filled imperatively is `PageOf` |
| FloeReport.ClusterReportCube.constructor | TrjAnalysisCubes/MDTrajAnalysisFloeReport.py:129 | a new cube has emitted nothing and written no page |
| FloeReport.ClusterReportCube.Publish | TrjAnalysisCubes/MDTrajAnalysisFloeReport.py:216-244 | the record goes to the success port iff rendering and upload complete, and to the failure port otherwise; once rendering completes exactly the filled page is appended, otherwise the report is unchanged |
| FloeReport.ClusterReportCube.Process | TrjAnalysisCubes/MDTrajAnalysisFloeReport.py:157-246 | the identical record is emitted on success iff it is ready and rendering and upload complete, and on the failure port otherwise; when it is ready and rendering completes the page appended is `PageOf` of what `Extract` read (its slots: `PageContents`), and otherwise the report is unchanged |
| FloeReport.TestClusterReady | tests/test_mdtraj_floe_report.py:50-58 | the test's clustering sub-record holds all eight fields the report reads, with their types |
| FloeReport.TestClusterResults | tests/test_mdtraj_floe_report.py:50-58 | the test's clustering sub-record reads as one frame and three clusters of 1, 2 and 3 frames |
| FloeReport.TestTrajectoryReady | tests/test_mdtraj_floe_report.py:46-68 | the test's record holds title, ligand and trajectory analysis, and lists `TrajClus` as done |
| FloeReport.TestRecordReady | tests/test_mdtraj_floe_report.py:70-83 | the test's record is ready, so with rendering and upload completing `process` emits it on the success port |
| FloeReport.TestClusterLine | tests/test_mdtraj_floe_report.py:58 | the test's third cluster gives the line "cluster 2 contains 3 frames" |

## Left out

- Floating point and units are not modelled. Coordinates are exact reals.
  The `float32` cast of `combinePositions` is not modelled. Only angstrom
  and nanometre quantities are represented.
- The conversion of run time to steps, `int(round(time/0.002))`, is kept
  symbolic (`StepsForTime`).
- The `{:.2f}` formatting of the clustering alpha is not modelled. It is a
  parameter (`formatAlpha`) of the report cube.
- The MD engine is not modelled:
  - system creation, integrator, context, `step`, `minimizeEnergy`,
    `getState` and the platform property printout;
  - the engine's final state is a parameter of `Simulation`;
  - the platforms it can construct are a set.
- The host and platform information printed under `verbose` is not
  modelled.
- The `convert` branch of `simulation` is not modelled. It calls
  `simtools.mdTrajConvert`, which is not imported. Nor is the body of
  `mdTrajConvert` beyond its `traj_dict` lookup, because it reads an
  undefined `opt`.
- PDBFixer repair and solvation, ParmEd loading and stripping, and the
  force field are not modelled. `solvateComplexStructure` is modelled
  only as its SEQRES scan and its temporary file names. The lines of the
  saved PDB file are a parameter.
- Files are not modelled: the temporary files and their removal through
  `utils.cleanup`, nor writing the HTML report. Removal happens only on
  the normal path, not in a `finally`, and the model claims nothing about
  it.
- The ParmEd structure sum is not modelled beyond appending atoms and
  positions. What the library does with the sum's box and velocities is
  outside this model.
- Aliasing between structures is not modelled. `MergeStructure` returns
  a fresh structure.
- The workflow framework is not modelled: cube classes, parameters other
  than the YANK chunk settings, `promote_parameter`, the UI description
  and running the job. Connections are recorded by cube name and port.
  ABFE0's `iterations` is promoted with the per-chunk count as its default
  (`floes/binding_free_energy.py:121`), so a user can override it when the
  job runs. The later chunks keep the count set at line 270.
  `YankSchedule`, `IterationsIncrease` and `DefaultSettings` hold for the
  promoted default only.
- The YANK, synchroniser and writer cubes are not modelled: the YAML
  template, the subprocess runs and the free-energy arithmetic. They run
  external programs.
- `SyncBindingFECube` and `YankBindingFECube` are imported at
  `floes/binding_free_energy.py:36-37`, but `YankCubes/cubes.py` defines
  only `YankHydrationCube` (line 90), so that import fails as the
  repository stands. The model assumes the two classes exist. It records
  only the parameters the script sets on them.
- The cube titles of `LigCharge`, `LigandSetting`, `ProteinSetting` and
  `Complex` are placeholders equal to their names: the script gives these
  cubes no title.
- Simulation: `mdData` (`OpenMMCubes/simtools.py:208-212`) is identified
  with one `Structure`. Its positions, velocities and box are those of the
  structure, and its topology is not modelled. A structure without a box
  is the `BoxMissing` error, which is where `box[0]` at line 238 raises.
- `TrjAnalysisCubes/sstmap.py` is not part of this model: its code is all
  commented out.
- `extract_record.py` is not part of this model: it is a one-off
  record-dumping script.
- The report cube's ligand depiction, the HTML template, the Orion upload
  and tagging, and the logger and `print` output are not modelled. Their
  success or failure is the `Environment` parameter of the cube.
- `record.has_value(OEField(name, type))` is modelled as "the record
  holds a value of that type under that name". The field standards
  `Fields.title` and `Fields.ligand` are taken as `Title_OPLMD` (a
  string) and `Ligand_OPLMD` (a molecule), as the unit test sets them.
  A molecule is carried as its SMILES text.
- `process` builds the summary lines between reads of the clustering
  record. The model reads first and then builds the lines. On an error
  the lines are discarded either way, so the outcome is the same.
- Strings are sequences of characters. Python's `str.find` and `in` are
  modelled on them, with no Unicode normalisation.
