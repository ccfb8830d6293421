/**
  The structure-merge and simulation-driver logic of `OpenMMCubes/simtools.py`.

  The MD engine (system creation, integrators, platforms, stepping,
  minimisation, state queries) is not modelled: where its outcome matters
  it is a parameter (the platforms it can construct, the final state it
  reports).
 */
module SimTools {
  import opened Wrappers
  import opened Strings

  // ---------------------------------------------------------------------
  // Coordinates and units
  // ---------------------------------------------------------------------

  datatype Coord = Coord(x: real, y: real, z: real)

  datatype LengthUnit = Angstrom | Nanometer

  /** A list of 3-vectors tagged with a length unit (an OpenMM Quantity). */
  datatype Quantity = Quantity(rows: seq<Coord>, unit: LengthUnit)

  function AngstromsPer(u: LengthUnit): real {
    match u
    case Angstrom => 1.0
    case Nanometer => 10.0
  }

  function Scale(c: Coord, f: real): Coord {
    Coord(c.x * f, c.y * f, c.z * f)
  }

  /**
    `q / unit.angstroms`: the bare numbers of `q` expressed in angstrom. A
    quantity already in angstrom keeps its numbers; one in nanometre has
    each coordinate multiplied by ten.
   */
  function InAngstroms(q: Quantity): (r: seq<Coord>)
    ensures |r| == |q.rows|
    ensures q.unit == Angstrom ==> r == q.rows
    ensures q.unit == Nanometer ==> forall i :: 0 <= i < |r| ==>
              r[i].x == 10.0 * q.rows[i].x && r[i].y == 10.0 * q.rows[i].y && r[i].z == 10.0 * q.rows[i].z
  {
    var r := seq(|q.rows|, i requires 0 <= i < |q.rows| => Scale(q.rows[i], AngstromsPer(q.unit)));
    assert q.unit == Angstrom ==> forall i :: 0 <= i < |r| ==> r[i] == q.rows[i];
    r
  }

  /** The rows of an n x 3 array as coordinate triples. */
  function Rows(a: array2<real>): seq<Coord>
    requires a.Length1 == 3
    reads a
  {
    seq(a.Length0, i requires 0 <= i < a.Length0 reads a => Coord(a[i, 0], a[i, 1], a[i, 2]))
  }

  /**
    The two ways `combinePositions` raises `ValueError`: an empty position
    list becomes a row of width 0 in the stack, which does not match rows
    of width 3; with both lists empty the stack has two such rows and
    unpacking the first into `(x, y, z)` fails.
   */
  datatype CombineError = StackWidthMismatch | UnpackEmptyRow

  /**
    `combinePositions`: stack the protein rows on top of the ligand rows,
    both expressed in angstrom, by filling a zeroed n x 3 array row by row,
    and tag the result with the angstrom unit.
   */
  method CombinePositions(proteinPositions: Quantity, molPositions: Quantity) returns (r: Result<Quantity, CombineError>)
    ensures r.Failure? <==> |proteinPositions.rows| == 0 || |molPositions.rows| == 0
    ensures r.Failure? ==>
              r.error == if |proteinPositions.rows| == 0 && |molPositions.rows| == 0 then UnpackEmptyRow else StackWidthMismatch
    ensures r.Success? ==> r.value.unit == Angstrom
    ensures r.Success? ==> |r.value.rows| == |proteinPositions.rows| + |molPositions.rows|
    ensures r.Success? ==> forall k :: 0 <= k < |proteinPositions.rows| ==>
              r.value.rows[k] == Scale(proteinPositions.rows[k], AngstromsPer(proteinPositions.unit))
    ensures r.Success? ==> forall k :: |proteinPositions.rows| <= k < |r.value.rows| ==>
              r.value.rows[k] == Scale(molPositions.rows[k - |proteinPositions.rows|], AngstromsPer(molPositions.unit))
  {
    var positions0 := InAngstroms(proteinPositions);
    var positions1 := InAngstroms(molPositions);
    if |positions0| == 0 && |positions1| == 0 {
      return Failure(UnpackEmptyRow);
    } else if |positions0| == 0 || |positions1| == 0 {
      return Failure(StackWidthMismatch);
    }
    var coordinates := positions0 + positions1;
    var natoms := |coordinates|;
    var table := new real[natoms, 3];
    var index := 0;
    while index < natoms
      invariant 0 <= index <= natoms
      invariant forall k :: 0 <= k < index ==>
                  table[k, 0] == coordinates[k].x && table[k, 1] == coordinates[k].y && table[k, 2] == coordinates[k].z
    {
      var c := coordinates[index];
      table[index, 0] := c.x;
      table[index, 1] := c.y;
      table[index, 2] := c.z;
      index := index + 1;
    }
    r := Success(Quantity(Rows(table), Angstrom));
  }

  // ---------------------------------------------------------------------
  // Structures
  // ---------------------------------------------------------------------

  /** An atom as far as the merge is concerned: its name and its residue's name. */
  datatype Atom = Atom(name: string, residueName: string)

  /** A periodic box given by its three vectors (ParmEd keeps `box` and `box_vectors` in step). */
  datatype Box = Box(a: Coord, b: Coord, c: Coord)

  /** A parameterised ParmEd structure: the fields this code reads and overwrites. */
  class Structure {
    var atoms: seq<Atom>
    var positions: seq<Coord>            // in angstrom
    var box: Option<Box>
    var velocities: Option<seq<Coord>>

    /** One position (and, when present, one velocity) per atom. */
    ghost predicate Consistent()
      reads this
    {
      |positions| == |atoms| && (velocities.Some? ==> |velocities.value| == |atoms|)
    }

    constructor (atoms: seq<Atom>, positions: seq<Coord>, box: Option<Box>, velocities: Option<seq<Coord>>)
      ensures this.atoms == atoms && this.positions == positions
      ensures this.box == box && this.velocities == velocities
    {
      this.atoms := atoms;
      this.positions := positions;
      this.box := box;
      this.velocities := velocities;
    }

    /** `structure.positions` as read: a quantity in angstrom. */
    function PositionsQuantity(): (q: Quantity)
      reads this
      ensures q.unit == Angstrom && q.rows == positions
    {
      Quantity(positions, Angstrom)
    }

    /** `structure.positions = q`: the numbers are stored in angstrom. */
    method SetPositions(q: Quantity)
      modifies this
      ensures positions == InAngstroms(q)
      ensures atoms == old(atoms) && box == old(box) && velocities == old(velocities)
    {
      positions := InAngstroms(q);
    }
  }

  /**
    ParmEd's `proteinStructure + molStructure`, only as far as the merge
    relies on it: the atoms of the second follow those of the first. What
    the library does with the box and velocities of the sum is not part of
    this model; the sum starts with neither.
   */
  method AddStructures(first: Structure, second: Structure) returns (sum: Structure)
    ensures fresh(sum)
    ensures sum.atoms == first.atoms + second.atoms
    ensures sum.positions == first.positions + second.positions
  {
    sum := new Structure(first.atoms + second.atoms, first.positions + second.positions, None, None);
  }

  /**
    `mergeStructure`: the complex has the protein's atoms followed by the
    ligand's, the positions produced by `combinePositions`, and the
    protein's box whatever the ligand's box was. It raises where
    `combinePositions` does, when either structure has no positions.
   */
  method MergeStructure(proteinStructure: Structure, molStructure: Structure) returns (r: Result<Structure, CombineError>)
    ensures r.Failure? <==> |proteinStructure.positions| == 0 || |molStructure.positions| == 0
    ensures r.Failure? ==>
              r.error == if |proteinStructure.positions| == 0 && |molStructure.positions| == 0 then UnpackEmptyRow else StackWidthMismatch
    ensures r.Success? ==> fresh(r.value)
    ensures r.Success? ==> r.value.atoms == proteinStructure.atoms + molStructure.atoms
    ensures r.Success? ==> r.value.positions == proteinStructure.positions + molStructure.positions
    ensures r.Success? ==> r.value.box == proteinStructure.box
    ensures r.Success? ==> forall i :: 0 <= i < |molStructure.atoms| ==>
              r.value.atoms[|proteinStructure.atoms| + i].residueName == molStructure.atoms[i].residueName
    ensures r.Success? && proteinStructure.Consistent() && molStructure.Consistent() ==>
              |r.value.positions| == |r.value.atoms|
  {
    var structure := AddStructures(proteinStructure, molStructure);
    var positions := CombinePositions(proteinStructure.PositionsQuantity(), molStructure.PositionsQuantity());
    if positions.Failure? {
      return Failure(positions.error);
    }
    structure.SetPositions(positions.value);
    structure.box := proteinStructure.box;
    assert structure.positions == proteinStructure.positions + molStructure.positions;
    r := Success(structure);
  }

  // ---------------------------------------------------------------------
  // Solvation: temporary files and the SEQRES scan
  // ---------------------------------------------------------------------

  /** The two temporary PDB files `solvateComplexStructure` writes and later removes. */
  function SolvationTempFiles(outfname: string): (files: seq<string>)
    ensures |files| == 2
    ensures StartsWith(files[0], outfname) && StartsWith(files[1], outfname)
    ensures files[0] != files[1]
    ensures files[0] == outfname + "-pl.tmp" && files[1] == outfname + "-nomol.tmp"
  {
    var pl := outfname + "-pl.tmp";
    var nomol := outfname + "-nomol.tmp";
    assert pl[|outfname| + 1] == 'p' && nomol[|outfname| + 1] == 'n';
    [pl, nomol]
  }

  const MissingSeqresWarning := "Did not find SEQRES in PDB. PDBFixer will not find missing Residues."

  /**
    The SEQRES scan over the lines of the complex's PDB file: it stops at the
    first line containing `SEQRES`; the warning is produced iff none does.
    `linesRead` is how many lines the scan consumed.
   */
  method ScanSeqres(lines: seq<string>) returns (seqres: bool, linesRead: nat, warning: Option<string>)
    ensures linesRead <= |lines|
    ensures seqres <==> exists i :: 0 <= i < |lines| && Contains(lines[i], "SEQRES")
    ensures seqres ==> 1 <= linesRead && Contains(lines[linesRead - 1], "SEQRES")
    ensures forall i :: 0 <= i < linesRead - 1 ==> !Contains(lines[i], "SEQRES")
    ensures !seqres ==> linesRead == |lines|
    ensures warning == if seqres then None else Some(MissingSeqresWarning)
  {
    seqres := false;
    linesRead := 0;
    while linesRead < |lines|
      invariant 0 <= linesRead <= |lines|
      invariant forall i :: 0 <= i < linesRead ==> !Contains(lines[i], "SEQRES")
      invariant !seqres
    {
      var line := lines[linesRead];
      linesRead := linesRead + 1;
      if Contains(line, "SEQRES") {
        seqres := true;
        break;
      }
    }
    warning := if seqres then None else Some(MissingSeqresWarning);
  }

  // ---------------------------------------------------------------------
  // The simulation driver
  // ---------------------------------------------------------------------

  /**
    A step count. `StepsForTime(ps)` stands for `int(round(ps / 0.002))`,
    the conversion of a run time to 2 fs steps, which is not computed here.
   */
  datatype StepCount = StepsForTime(ps: real) | StepCountOf(n: int)

  /** The entries of `opt` that `simulation` and `getReporters` consult. */
  datatype SimOptions = SimOptions(
    simType: string,
    platform: string,
    temperature: real,
    pressure: real,
    time: real,
    steps: StepCount,
    outfname: string,
    reporterInterval: int,
    trajectoryInterval: int,
    hasLogger: bool)

  datatype PlatformChoice = DefaultPlatform | NamedPlatform(name: string)

  datatype VelocityInit = NoVelocities | Restore(velocities: seq<Coord>) | ThermalizeAt(temperature: real)

  datatype Reporter =
    | StateLog(file: string, interval: int)
    | Progress(totalSteps: StepCount, interval: int)
    | NetCDFTrajectory(file: string, interval: int)

  datatype Barostat = MonteCarloBarostat(pressure: real, temperature: real, frequency: int)

  datatype RunKind = Dynamics(steps: StepCount) | Minimization(maxIterations: StepCount)

  /** What a run of `simulation` does with the engine, decided from its options. */
  datatype RunPlan = RunPlan(
    barostat: Option<Barostat>,
    platform: PlatformChoice,
    velocities: VelocityInit,
    reporters: seq<Reporter>,
    run: RunKind)

  datatype SimError =
    | InvalidPlatform(name: string)     // ValueError('The selected platform is invalid: ...')
    | LoggerMissing                     // opt['Logger'].info on a None logger
    | BoxMissing                        // `box[0]` on a structure without a box
    | StateUnbound(simType: string)     // `state` read at the write-back but never assigned

  predicate IsDynamics(simType: string) {
    simType == "nvt" || simType == "npt"
  }

  /**
    Platform selection: 'Auto' lets the engine choose; any other name must
    be one the engine can look up and construct a simulation on.
   */
  function SelectPlatform(name: string, available: set<string>): (r: Result<PlatformChoice, SimError>)
    ensures name == "Auto" ==> r == Success(DefaultPlatform)
    ensures name != "Auto" && name in available ==> r == Success(NamedPlatform(name))
    ensures name != "Auto" && name !in available ==> r == Failure(InvalidPlatform(name))
  {
    if name == "Auto" then Success(DefaultPlatform)
    else if name in available then Success(NamedPlatform(name))
    else Failure(InvalidPlatform(name))
  }

  /**
    `getReporters`: missing `totalSteps` and `outfname` default to
    `opt['steps']` and `opt['outfname']`; the reporters are the energy log,
    the progress stream and the NetCDF trajectory, in that order.
   */
  function GetReporters(totalSteps: Option<StepCount>, outfname: Option<string>, opt: SimOptions): (r: seq<Reporter>)
    ensures |r| == 3
    ensures r[0].StateLog? && r[1].Progress? && r[2].NetCDFTrajectory?
    ensures r[1].totalSteps == (if totalSteps.Some? then totalSteps.value else opt.steps)
    ensures var prefix := if outfname.Some? then outfname.value else opt.outfname;
            StartsWith(r[0].file, prefix) && StartsWith(r[2].file, prefix) && r[0].file != r[2].file
    ensures var prefix := if outfname.Some? then outfname.value else opt.outfname;
            r[0].file == prefix + ".log" && r[2].file == prefix + ".nc"
    ensures r[0].interval == r[1].interval == opt.reporterInterval && r[2].interval == opt.trajectoryInterval
  {
    var total := totalSteps.GetOr(opt.steps);
    var prefix := outfname.GetOr(opt.outfname);
    var log := prefix + ".log";
    var nc := prefix + ".nc";
    assert log[|prefix| + 1] == 'l' && nc[|prefix| + 1] == 'n';
    [StateLog(log, opt.reporterInterval), Progress(total, opt.reporterInterval), NetCDFTrajectory(nc, opt.trajectoryInterval)]
  }

  /**
    The decisions `simulation` takes before and around stepping. A
    barostat exists only for npt; velocities and reporters only for nvt and
    npt, with velocities restored iff the data carries some. The errors
    come in the order the run meets them: a failed platform, then a data
    set without a periodic box, then a missing logger on a dynamics run,
    then an unknown run type.
   */
  function PlanRun(opt: SimOptions, velocities: Option<seq<Coord>>, box: Option<Box>, available: set<string>)
    : (r: Result<RunPlan, SimError>)
    ensures r.Success? <==>
              (opt.platform == "Auto" || opt.platform in available) && box.Some?
              && ((IsDynamics(opt.simType) && opt.hasLogger) || opt.simType == "min")
    ensures opt.platform != "Auto" && opt.platform !in available ==> r == Failure(InvalidPlatform(opt.platform))
    ensures (opt.platform == "Auto" || opt.platform in available) && box.None? ==> r == Failure(BoxMissing)
    ensures r.Success? ==> r.value.platform == SelectPlatform(opt.platform, available).value
    ensures r.Success? ==> (r.value.barostat.Some? <==> opt.simType == "npt")
    ensures r.Success? && opt.simType == "npt" ==>
              r.value.barostat == Some(MonteCarloBarostat(opt.pressure, opt.temperature, 25))
    ensures r.Success? ==> (r.value.run.Dynamics? <==> IsDynamics(opt.simType))
    ensures r.Success? && IsDynamics(opt.simType) ==>
              r.value.run == Dynamics(StepsForTime(opt.time))
              && r.value.reporters == GetReporters(None, None, opt.(steps := StepsForTime(opt.time)))
    ensures r.Success? && opt.simType == "min" ==> r.value.run == Minimization(opt.steps)
    ensures r.Success? ==> (r.value.velocities.NoVelocities? <==> opt.simType == "min")
    ensures r.Success? ==> (r.value.reporters == [] <==> opt.simType == "min")
    ensures r.Success? && IsDynamics(opt.simType) ==>
              (r.value.velocities.Restore? <==> velocities.Some?)
              && (velocities.Some? ==> r.value.velocities == Restore(velocities.value))
              && (velocities.None? ==> r.value.velocities == ThermalizeAt(opt.temperature))
  {
    var barostat := if opt.simType == "npt" then Some(MonteCarloBarostat(opt.pressure, opt.temperature, 25)) else None;
    var platform :- SelectPlatform(opt.platform, available);
    if box.None? then Failure(BoxMissing)
    else if IsDynamics(opt.simType) then
      if !opt.hasLogger then Failure(LoggerMissing)
      else
        var init := if velocities.Some? then Restore(velocities.value) else ThermalizeAt(opt.temperature);
        var opt' := opt.(steps := StepsForTime(opt.time));
        Success(RunPlan(barostat, platform, init, GetReporters(None, None, opt'), Dynamics(opt'.steps)))
    else if opt.simType == "min" then
      Success(RunPlan(barostat, platform, NoVelocities, [], Minimization(opt.steps)))
    else
      Failure(StateUnbound(opt.simType))
  }

  /** What the engine reports at the end of a run (`context.getState`). */
  datatype EngineState = EngineState(positions: seq<Coord>, box: Box, velocities: seq<Coord>)

  /**
    `simulation`: take the run's decisions, let the engine run, and write the
    final positions and box (always) and velocities (nvt and npt only) back
    into the structure. On an error nothing is written back. The data set
    `mdData` is its structure: positions, velocities and box are read from it.
   */
  method Simulation(structure: Structure, opt: SimOptions, available: set<string>, final: EngineState)
    returns (outcome: Result<RunPlan, SimError>)
    modifies structure
    ensures outcome == PlanRun(opt, old(structure.velocities), old(structure.box), available)
    ensures outcome.Failure? ==> unchanged(structure)
    ensures outcome.Success? ==>
              structure.positions == final.positions
              && structure.box == Some(final.box)
              && structure.velocities == (if IsDynamics(opt.simType) then Some(final.velocities) else old(structure.velocities))
              && structure.atoms == old(structure.atoms)
  {
    var opt := opt;
    var velocities := structure.velocities;
    var barostat := if opt.simType == "npt" then Some(MonteCarloBarostat(opt.pressure, opt.temperature, 25)) else None;

    var platform;
    if opt.platform == "Auto" {
      platform := DefaultPlatform;
    } else if opt.platform in available {
      platform := NamedPlatform(opt.platform);
    } else {
      return Failure(InvalidPlatform(opt.platform));
    }

    if structure.box.None? {
      return Failure(BoxMissing);
    }

    var init := NoVelocities;
    var reporters := [];
    if IsDynamics(opt.simType) {
      if !opt.hasLogger {
        return Failure(LoggerMissing);
      }
      init := if velocities.Some? then Restore(velocities.value) else ThermalizeAt(opt.temperature);
      opt := opt.(steps := StepsForTime(opt.time));
      reporters := GetReporters(None, None, opt);
    }

    var run;
    if IsDynamics(opt.simType) {
      run := Dynamics(opt.steps);
    } else if opt.simType == "min" {
      run := Minimization(opt.steps);
    } else {
      return Failure(StateUnbound(opt.simType));
    }

    structure.positions := final.positions;
    structure.box := Some(final.box);
    if IsDynamics(opt.simType) {
      structure.velocities := Some(final.velocities);
    }
    outcome := Success(RunPlan(barostat, platform, init, reporters, run));
  }

  /**
    The `traj_dict` lookup of `mdTrajConvert`: the output file for a
    trajectory format, if the format is one of the three known ones.
   */
  function TrajectoryFile(outfname: string, filetype: string): (r: Option<string>)
    ensures r.Some? <==> filetype in {"HDF5", "DCD", "NetCDF"}
    ensures r.Some? ==> StartsWith(r.value, outfname)
    ensures filetype == "HDF5" ==> r == Some(outfname + ".h5")
    ensures filetype == "DCD" ==> r == Some(outfname + ".dcd")
    ensures filetype == "NetCDF" ==> r == Some(outfname + ".nc")
  {
    if filetype == "HDF5" then Some(outfname + ".h5")
    else if filetype == "DCD" then Some(outfname + ".dcd")
    else if filetype == "NetCDF" then Some(outfname + ".nc")
    else None
  }

  /** The three trajectory formats are written to three different files. */
  lemma TrajectoryFilesDistinct(outfname: string)
    ensures TrajectoryFile(outfname, "HDF5") != TrajectoryFile(outfname, "DCD")
    ensures TrajectoryFile(outfname, "HDF5") != TrajectoryFile(outfname, "NetCDF")
    ensures TrajectoryFile(outfname, "DCD") != TrajectoryFile(outfname, "NetCDF")
  {
    var h, d, n := outfname + ".h5", outfname + ".dcd", outfname + ".nc";
    assert h[|outfname| + 1] == 'h' && d[|outfname| + 1] == 'd' && n[|outfname| + 1] == 'n';
  }
}
