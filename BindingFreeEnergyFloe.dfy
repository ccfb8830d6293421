/**
  The workflow that `floes/binding_free_energy.py` assembles: the cubes it
  adds to the job, the list of YANK chunk cubes with their iteration
  schedule and flags, and the success/failure connections between them.
  Only the cube list and the connection graph are modelled; what the cubes
  compute belongs to the workflow framework and the cubes' own packages.
 */
module BindingFreeEnergyFloe {
  import opened Strings

  /** The user settings at the top of the script. */
  const YankIterationPerChunk := 200
  const DefaultChunks := 5

  datatype CubeKind =
    | DataSetReader
    | LigandCharge
    | LigandSetting
    | ProteinSetting
    | ComplexPrep
    | Solvation
    | ForceField
    | OpenMMMinimize
    | OpenMMNvt
    | OpenMMNpt
    | SyncBindingFE
    | YankBindingFE(iterations: int, rerun: bool, minimize: bool, analyze: bool)
    | DataSetWriter

  datatype Cube = Cube(name: string, title: string, kind: CubeKind)

  datatype OutPort = Success | Failure
  datatype InPort = Intake | ProteinPort | SolvatedLigandInPort

  /** `src.<out>.connect(dst.<inPort>)`, cubes named by their (unique) names. */
  datatype Edge = Edge(src: string, out: OutPort, dst: string, inPort: InPort)

  /** The job being assembled: the cubes added so far and the connections made so far. */
  class WorkFloe {
    var title: string
    var cubes: seq<Cube>
    var edges: seq<Edge>

    constructor (title: string)
      ensures this.title == title && cubes == [] && edges == []
    {
      this.title := title;
      cubes := [];
      edges := [];
    }

    /** `job.add_cube(c)` */
    method AddCube(c: Cube)
      modifies this
      ensures cubes == old(cubes) + [c]
      ensures title == old(title) && edges == old(edges)
    {
      cubes := cubes + [c];
    }

    /** `src.<out>.connect(dst.<inPort>)` */
    method Connect(src: Cube, out: OutPort, dst: Cube, inPort: InPort)
      modifies this
      ensures edges == old(edges) + [Edge(src.name, out, dst.name, inPort)]
      ensures title == old(title) && cubes == old(cubes)
    {
      edges := edges + [Edge(src.name, out, dst.name, inPort)];
    }
  }

  // ---------------------------------------------------------------------
  // The cubes
  // ---------------------------------------------------------------------

  const LigandReader := Cube("LigandReader", "Ligand Reader", DataSetReader)
  const LigCharge := Cube("LigCharge", "LigCharge", LigandCharge)
  const LigSetting := Cube("LigandSetting", "LigandSetting", LigandSetting)
  const ProteinReader := Cube("ProteinReader", "Protein Reader", DataSetReader)
  const ProtSetting := Cube("ProteinSetting", "ProteinSetting", ProteinSetting)
  const Complex := Cube("Complex", "Complex", ComplexPrep)
  const SolvateComplex := Cube("HydrationComplex", "Complex Hydration", Solvation)
  const FFComplex := Cube("ForceFieldComplex", "Complex Parametrization", ForceField)
  const MinComplex := Cube("minComplex", "Complex Minimization", OpenMMMinimize)
  const WarmupComplex := Cube("warmupComplex", "Complex Warm Up", OpenMMNvt)
  const Equil1Complex := Cube("equil1Complex", "Complex Equilibration I", OpenMMNpt)
  const Equil2Complex := Cube("equil2Complex", "Complex Equilibration II", OpenMMNpt)
  const Equil3Complex := Cube("equil3Complex", "Complex Equilibration III", OpenMMNpt)
  const SolvateLigand := Cube("HydrationLigand", "Unbounded Ligand Hydration", Solvation)
  const FFLigand := Cube("ForceFieldLigand", "Unbounded Ligand Parametrization", ForceField)
  const MinimizeLigand := Cube("MinimizeLigand", "Unbounded Ligand Minimization", OpenMMMinimize)
  const WarmupLigand := Cube("warmupLigand", "Unbounded Ligand Warm Up", OpenMMNvt)
  const EquilLigand := Cube("equilLigand", "Unbounded Ligand Equilibration", OpenMMNpt)
  const Sync := Cube("SyncCube", "Unbounded and Bonded Synchronization", SyncBindingFE)
  const Ofs := Cube("ofs", "Out", DataSetWriter)
  const Fail := Cube("fail", "Failures", DataSetWriter)

  /** The first YANK cube: the promoted default of its iterations, minimising, not rerunning, not analysing. */
  function Abfe0(perChunk: int): Cube {
    Cube("ABFE0", "ABFE", YankBindingFE(perChunk, false, true, false))
  }

  /** YANK chunk `i` (i >= 1) as the loop configures it. */
  function AbfeChunk(perChunk: int, chunks: int, i: nat): Cube {
    Cube("ABFE" + NatToString(i), "ABFE" + NatToString(i), YankBindingFE(perChunk * (i + 1), true, false, i == chunks - 1))
  }

  /** The first `n` YANK chunk cubes as the loop leaves them: ABFE0, then ABFE1 .. ABFE(n-1). */
  function YankChunksPrefix(perChunk: int, chunks: int, n: nat): seq<Cube>
    requires n >= 1
  {
    [Abfe0(perChunk)] + seq(n - 1, j requires 0 <= j => AbfeChunk(perChunk, chunks, j + 1))
  }

  /** The number of YANK chunk cubes: ABFE0 is there even when `chunks` is below 1. */
  function ChunkCount(chunks: int): nat {
    if chunks >= 1 then chunks else 1
  }

  /** The YANK chunk cubes in order. */
  function YankChunks(perChunk: int, chunks: int): seq<Cube> {
    YankChunksPrefix(perChunk, chunks, ChunkCount(chunks))
  }

  /** `cube_list` once built: the synchroniser, the YANK chunks, the output writer and the failure writer. */
  function CubeList(perChunk: int, chunks: int): seq<Cube> {
    [Sync] + YankChunks(perChunk, chunks) + [Ofs, Fail]
  }

  /** The cubes added before the YANK chunk loop, in the order of the `job.add_cube` calls. */
  function PreparationCubes(perChunk: int): seq<Cube> {
    [LigandReader, LigCharge, LigSetting, ProteinReader, ProtSetting, Complex, SolvateComplex, FFComplex,
     Abfe0(perChunk), MinComplex, WarmupComplex, Equil1Complex, Equil2Complex, Equil3Complex,
     SolvateLigand, FFLigand, MinimizeLigand, WarmupLigand, EquilLigand, Sync]
  }

  /** Every cube in the order of the `job.add_cube` calls. */
  function JobCubes(perChunk: int, chunks: int): seq<Cube> {
    PreparationCubes(perChunk) + YankChunks(perChunk, chunks)[1..] + [Ofs, Fail]
  }

  // ---------------------------------------------------------------------
  // The connections
  // ---------------------------------------------------------------------

  function SuccessEdge(src: Cube, dst: Cube, inPort: InPort): Edge {
    Edge(src.name, Success, dst.name, inPort)
  }

  /** The fixed connections, in the order they are made. */
  const FixedEdges: seq<Edge> := [
    SuccessEdge(LigandReader, LigCharge, Intake),
    SuccessEdge(LigCharge, LigSetting, Intake),
    SuccessEdge(LigSetting, Complex, Intake),
    SuccessEdge(ProteinReader, ProtSetting, Intake),
    SuccessEdge(ProtSetting, Complex, ProteinPort),
    SuccessEdge(Complex, SolvateComplex, Intake),
    SuccessEdge(SolvateComplex, FFComplex, Intake),
    SuccessEdge(FFComplex, MinComplex, Intake),
    SuccessEdge(MinComplex, WarmupComplex, Intake),
    SuccessEdge(WarmupComplex, Equil1Complex, Intake),
    SuccessEdge(Equil1Complex, Equil2Complex, Intake),
    SuccessEdge(Equil2Complex, Equil3Complex, Intake),
    SuccessEdge(Equil3Complex, Sync, Intake),
    SuccessEdge(LigSetting, SolvateLigand, Intake),
    SuccessEdge(SolvateLigand, FFLigand, Intake),
    SuccessEdge(FFLigand, MinimizeLigand, Intake),
    SuccessEdge(MinimizeLigand, WarmupLigand, Intake),
    SuccessEdge(WarmupLigand, EquilLigand, Intake),
    SuccessEdge(EquilLigand, Sync, SolvatedLigandInPort)
  ]

  /** The connections made by iteration `i` of the index loop over `cube_list`. */
  function StepEdges(list: seq<Cube>, i: nat): seq<Edge>
    requires i + 2 <= |list|
  {
    [Edge(list[i].name, Success, list[i + 1].name, Intake)]
    + if i == |list| - 3 then [Edge(list[i].name, Failure, list[i + 2].name, Intake)] else []
  }

  /** The connections made by the first `n` iterations of the index loop. */
  function LoopEdges(list: seq<Cube>, n: nat): seq<Edge>
    requires n + 2 <= |list|
  {
    if n == 0 then [] else LoopEdges(list, n - 1) + StepEdges(list, n - 1)
  }

  /** All connections the index loop makes. */
  function ChainEdges(list: seq<Cube>): seq<Edge>
    requires |list| >= 2
  {
    LoopEdges(list, |list| - 2)
  }

  function SuccessEdges(edges: seq<Edge>): seq<Edge> {
    if |edges| == 0 then []
    else SuccessEdges(edges[..|edges| - 1]) + if edges[|edges| - 1].out == Success then [edges[|edges| - 1]] else []
  }

  function FailureEdges(edges: seq<Edge>): seq<Edge> {
    if |edges| == 0 then []
    else FailureEdges(edges[..|edges| - 1]) + if edges[|edges| - 1].out == Failure then [edges[|edges| - 1]] else []
  }

  lemma SuccessEdgesAppend(a: seq<Edge>, b: seq<Edge>)
    ensures SuccessEdges(a + b) == SuccessEdges(a) + SuccessEdges(b)
    ensures FailureEdges(a + b) == FailureEdges(a) + FailureEdges(b)
    decreases |b|
  {
    if |b| > 0 {
      assert (a + b)[..|a + b| - 1] == a + b[..|b| - 1];
      SuccessEdgesAppend(a, b[..|b| - 1]);
    } else {
      assert a + b == a;
    }
  }

  /** Connections that are all success links are their own success part and have no failure part. */
  lemma {:induction false} AllSuccess(edges: seq<Edge>)
    requires forall k :: 0 <= k < |edges| ==> edges[k].out == Success
    ensures SuccessEdges(edges) == edges && FailureEdges(edges) == []
    decreases |edges|
  {
    if |edges| > 0 {
      AllSuccess(edges[..|edges| - 1]);
      assert edges == edges[..|edges| - 1] + [edges[|edges| - 1]];
    }
  }

  /** The link the index loop makes from `list[i]` on success. */
  function ChainLink(list: seq<Cube>, i: nat): Edge
    requires i + 1 < |list|
  {
    Edge(list[i].name, Success, list[i + 1].name, Intake)
  }

  /** The success and failure parts of a single connection. */
  lemma SingleEdge(e: Edge)
    ensures SuccessEdges([e]) == if e.out == Success then [e] else []
    ensures FailureEdges([e]) == if e.out == Failure then [e] else []
  {
    assert [e][..0] == [];
  }

  /** One iteration of the index loop: its success link, and its failure link when it is the last one. */
  lemma StepEdgesParts(list: seq<Cube>, i: nat)
    requires i + 2 <= |list|
    ensures SuccessEdges(StepEdges(list, i)) == [ChainLink(list, i)]
    ensures FailureEdges(StepEdges(list, i)) ==
      if i == |list| - 3 then [Edge(list[i].name, Failure, list[i + 2].name, Intake)] else []
  {
    var link := ChainLink(list, i);
    SingleEdge(link);
    if i == |list| - 3 {
      var fail := Edge(list[i].name, Failure, list[i + 2].name, Intake);
      assert StepEdges(list, i) == [link] + [fail];
      SingleEdge(fail);
      SuccessEdgesAppend([link], [fail]);
    } else {
      assert StepEdges(list, i) == [link];
    }
  }

  /** Appending the next link to the first `n - 1` links of the chain gives the first `n`. */
  lemma ExtendLinks(list: seq<Cube>, prev: seq<Edge>, n: nat)
    requires 1 <= n && n + 1 <= |list| && |prev| == n - 1
    requires forall i :: 0 <= i < n - 1 ==> prev[i] == ChainLink(list, i)
    ensures forall i :: 0 <= i < n ==> (prev + [ChainLink(list, n - 1)])[i] == ChainLink(list, i)
  {
  }

  /** After `n` iterations of the index loop, the success links join each of the first `n` cubes to the next one. */
  lemma {:induction false} LoopSuccessLinks(list: seq<Cube>, n: nat)
    requires n + 2 <= |list|
    ensures |SuccessEdges(LoopEdges(list, n))| == n
    ensures forall i :: 0 <= i < n ==> SuccessEdges(LoopEdges(list, n))[i] == ChainLink(list, i)
    decreases n
  {
    if n > 0 {
      LoopSuccessLinks(list, n - 1);
      LoopSuccessStep(list, n);
      ExtendLinks(list, SuccessEdges(LoopEdges(list, n - 1)), n);
    }
  }

  /** Each iteration of the index loop adds exactly its own link to the success links. */
  lemma LoopSuccessStep(list: seq<Cube>, n: nat)
    requires 1 <= n && n + 2 <= |list|
    ensures SuccessEdges(LoopEdges(list, n)) == SuccessEdges(LoopEdges(list, n - 1)) + [ChainLink(list, n - 1)]
  {
    var prev, step := LoopEdges(list, n - 1), StepEdges(list, n - 1);
    SuccessEdgesAppend(prev, step);
    StepEdgesParts(list, n - 1);
    calc {
      SuccessEdges(LoopEdges(list, n));
      SuccessEdges(prev + step);
      SuccessEdges(prev) + SuccessEdges(step);
    }
  }

  /** While the earlier iterations made no failure link, the failure links are those the latest iteration makes. */
  lemma LoopFailureStep(list: seq<Cube>, n: nat)
    requires 1 <= n && n + 2 <= |list| && FailureEdges(LoopEdges(list, n - 1)) == []
    ensures FailureEdges(LoopEdges(list, n)) ==
      if n == |list| - 2 then [Edge(list[n - 1].name, Failure, list[n + 1].name, Intake)] else []
  {
    var prev, step := LoopEdges(list, n - 1), StepEdges(list, n - 1);
    assert LoopEdges(list, n) == prev + step;
    SuccessEdgesAppend(prev, step);
    StepEdgesParts(list, n - 1);
  }

  /** A failure link exists only once the index loop has reached `list[|list| - 3]`, and it leads to the last cube. */
  lemma {:induction false} LoopFailureLinks(list: seq<Cube>, n: nat)
    requires n + 2 <= |list|
    ensures FailureEdges(LoopEdges(list, n)) ==
      if n >= 1 && n == |list| - 2 then [Edge(list[n - 1].name, Failure, list[n + 1].name, Intake)] else []
    decreases n
  {
    if n > 0 {
      LoopFailureLinks(list, n - 1);
      LoopFailureStep(list, n);
    }
  }

  /**
    The index loop over a list of at least three cubes chains every cube
    but the last two to its successor on success, and routes the failures
    of the cube two from the end, and only those, to the last cube.
   */
  lemma ChainEdgesLinks(list: seq<Cube>)
    requires |list| >= 3
    ensures |SuccessEdges(ChainEdges(list))| == |list| - 2
    ensures forall i :: 0 <= i < |list| - 2 ==> SuccessEdges(ChainEdges(list))[i] == ChainLink(list, i)
    ensures FailureEdges(ChainEdges(list)) == [Edge(list[|list| - 3].name, Failure, list[|list| - 1].name, Intake)]
  {
    LoopSuccessLinks(list, |list| - 2);
    LoopFailureLinks(list, |list| - 2);
  }

  // ---------------------------------------------------------------------
  // Properties of the assembled workflow
  // ---------------------------------------------------------------------

  /**
    The YANK chunks: chunk `i` runs up to `(i + 1) * yank_iteration_per_chunk`
    iterations; only the first minimises and does not rerun; only the last
    of two or more chunks analyses.
   */
  lemma YankSchedule(perChunk: int, chunks: int)
    ensures |YankChunks(perChunk, chunks)| == ChunkCount(chunks)
    ensures forall i :: 0 <= i < ChunkCount(chunks) ==>
      var k := YankChunks(perChunk, chunks)[i].kind;
      k.YankBindingFE? && k.iterations == perChunk * (i + 1)
      && (k.minimize <==> i == 0) && (k.rerun <==> i > 0)
      && (k.analyze <==> i > 0 && i == chunks - 1)
  {
    var ys := YankChunks(perChunk, chunks);
    forall i | 0 <= i < ChunkCount(chunks)
      ensures ys[i].kind.YankBindingFE? && ys[i].kind.iterations == perChunk * (i + 1)
    {
      if i == 0 {
        assert ys[0] == Abfe0(perChunk);
      } else {
        assert ys[i] == AbfeChunk(perChunk, chunks, i);
      }
    }
  }

  /** With a positive number of iterations per chunk, every chunk runs further than the one before it. */
  lemma {:induction false} IterationsIncrease(perChunk: int, chunks: int, i: nat, j: nat)
    requires perChunk > 0 && i < j < ChunkCount(chunks)
    ensures YankChunks(perChunk, chunks)[i].kind.iterations < YankChunks(perChunk, chunks)[j].kind.iterations
  {
    YankSchedule(perChunk, chunks);
    assert perChunk * (j + 1) == perChunk * (i + 1) + perChunk * (j - i);
    assert perChunk * (j - i) > 0;
  }

  /** Exactly one chunk analyses when there are two or more of them, and none otherwise. */
  lemma AnalysingChunks(perChunk: int, chunks: int)
    ensures var ys := YankChunks(perChunk, chunks);
      forall i :: 0 <= i < |ys| ==> (ys[i].kind.analyze <==> chunks >= 2 && i == |ys| - 1)
  {
    YankSchedule(perChunk, chunks);
  }

  /** The names of the YANK chunks: "ABFE" followed by the chunk number. */
  lemma YankChunkNames(perChunk: int, chunks: int)
    ensures forall i :: 0 <= i < |YankChunks(perChunk, chunks)| ==>
      YankChunks(perChunk, chunks)[i].name == "ABFE" + NatToString(i)
  {
    var ys := YankChunks(perChunk, chunks);
    forall i | 0 <= i < |ys|
      ensures ys[i].name == "ABFE" + NatToString(i)
    {
      if i == 0 {
        assert NatToString(0) == "0";
        assert ys[0] == Abfe0(perChunk);
      } else {
        assert ys[i] == AbfeChunk(perChunk, chunks, i);
      }
    }
  }

  /** The shape of `cube_list`: the synchroniser, the YANK chunks, then the output and the failure writers. */
  lemma CubeListShape(perChunk: int, chunks: int)
    ensures var l := CubeList(perChunk, chunks);
      |l| == ChunkCount(chunks) + 3 && l[0] == Sync && l[|l| - 2] == Ofs && l[|l| - 1] == Fail
      && l[1..|l| - 2] == YankChunks(perChunk, chunks)
  {
    var l := CubeList(perChunk, chunks);
    assert l[1..|l| - 2] == YankChunks(perChunk, chunks);
  }

  /** No two cubes of `cube_list` share a name, so the links between names are links between cubes. */
  lemma CubeListNamesDistinct(perChunk: int, chunks: int)
    ensures var l := CubeList(perChunk, chunks);
      forall i, j :: 0 <= i < j < |l| ==> l[i].name != l[j].name
  {
    var l := CubeList(perChunk, chunks);
    var ys := YankChunks(perChunk, chunks);
    CubeListShape(perChunk, chunks);
    YankChunkNames(perChunk, chunks);
    forall i, j | 0 <= i < j < |l|
      ensures l[i].name != l[j].name
    {
      if 1 <= i && j < |l| - 2 {
        assert l[i] == ys[i - 1] && l[j] == ys[j - 1];
        if l[i].name == l[j].name {
          PrefixCancel("ABFE", NatToString(i - 1), NatToString(j - 1));
          NatToStringInjective(i - 1, j - 1);
        }
      } else if 1 <= i < |l| - 2 {
        assert l[i] == ys[i - 1];
        assert l[i].name[0] == 'A';
      } else if 1 <= j < |l| - 2 {
        assert l[j] == ys[j - 1];
        assert l[j].name[0] == 'A';
      }
    }
  }

  /** No two cubes of `l` share a name. */
  predicate NamesDistinct(l: seq<Cube>) {
    forall i, j :: 0 <= i < j < |l| ==> l[i].name != l[j].name
  }

  /** The cubes of the job that are not YANK chunks, in the order they are added. */
  const OtherCubes: seq<Cube> := [LigandReader, LigCharge, LigSetting, ProteinReader, ProtSetting, Complex,
    SolvateComplex, FFComplex, MinComplex, WarmupComplex, Equil1Complex, Equil2Complex, Equil3Complex,
    SolvateLigand, FFLigand, MinimizeLigand, WarmupLigand, EquilLigand, Sync, Ofs, Fail]

  /** The names of `OtherCubes`, in their order. */
  const OtherNames: seq<string> := ["LigandReader", "LigCharge", "LigandSetting", "ProteinReader", "ProteinSetting",
    "Complex", "HydrationComplex", "ForceFieldComplex", "minComplex", "warmupComplex", "equil1Complex", "equil2Complex",
    "equil3Complex", "HydrationLigand", "ForceFieldLigand", "MinimizeLigand", "warmupLigand", "equilLigand", "SyncCube",
    "ofs", "fail"]

  lemma OtherCubesNamed()
    ensures |OtherCubes| == |OtherNames| && forall i :: 0 <= i < |OtherCubes| ==> OtherCubes[i].name == OtherNames[i]
  {
  }

  /** The cubes that are not YANK chunks have distinct names, none starting like "ABFE". */
  lemma OtherCubesNames()
    ensures NamesDistinct(OtherCubes)
    ensures forall i :: 0 <= i < |OtherCubes| ==> |OtherCubes[i].name| > 0 && OtherCubes[i].name[0] != 'A'
  {
    OtherCubesNamed();
    OtherNamesDistinct();
  }

  lemma OtherNamesDistinct()
    ensures forall i, j :: 0 <= i < j < |OtherNames| ==> OtherNames[i] != OtherNames[j]
    ensures forall i :: 0 <= i < |OtherNames| ==> |OtherNames[i]| > 0 && OtherNames[i][0] != 'A'
  {
  }

  /** The YANK chunks have distinct names. */
  lemma YankChunkNamesDistinct(perChunk: int, chunks: int)
    ensures NamesDistinct(YankChunks(perChunk, chunks))
    ensures forall i :: 0 <= i < |YankChunks(perChunk, chunks)| ==> YankChunks(perChunk, chunks)[i].name[0] == 'A'
  {
    var ys := YankChunks(perChunk, chunks);
    YankChunkNames(perChunk, chunks);
    forall i, j | 0 <= i < j < |ys|
      ensures ys[i].name != ys[j].name
    {
      if ys[i].name == ys[j].name {
        PrefixCancel("ABFE", NatToString(i), NatToString(j));
        NatToStringInjective(i, j);
      }
    }
  }

  /** Where a cube of the job comes from: a YANK chunk, by its number, or one of the other cubes, by its place among them. */
  datatype Slot = ChunkSlot(chunk: nat) | OtherSlot(other: nat)

  /** The slot of place `i` of the job when there are `k` YANK chunks. */
  function SlotOf(i: nat, k: nat): Slot {
    if i < 8 then OtherSlot(i)
    else if i == 8 then ChunkSlot(0)
    else if i < 20 then OtherSlot(i - 1)
    else if i < 19 + k then ChunkSlot(i - 19)
    else OtherSlot(i - k)
  }

  /** The job's cubes: the preparation cubes, the YANK chunks after the first, the two writers. */
  lemma JobParts(perChunk: int, chunks: int)
    ensures var job := JobCubes(perChunk, chunks); var ys := YankChunks(perChunk, chunks);
      |job| == |ys| + 21 && job[..20] == PreparationCubes(perChunk)
      && (forall i :: 20 <= i < 19 + |ys| ==> job[i] == ys[i - 19])
      && job[19 + |ys|] == Ofs && job[20 + |ys|] == Fail
  {
    var job := JobCubes(perChunk, chunks);
    var ys := YankChunks(perChunk, chunks);
    forall i | 20 <= i < 19 + |ys|
      ensures job[i] == ys[i - 19]
    {
      assert job[i] == ys[1..][i - 20];
    }
  }

  /** The preparation cubes are the first twenty of the other cubes with ABFE0 at place 8. */
  lemma PreparationSlots(perChunk: int)
    ensures var prep := PreparationCubes(perChunk);
      |prep| == 20 && prep[8] == Abfe0(perChunk)
      && (forall i :: 0 <= i < 8 ==> prep[i] == OtherCubes[i])
      && (forall i :: 9 <= i < 20 ==> prep[i] == OtherCubes[i - 1])
  {
  }

  /** Place `i` of the job holds the cube its slot names. */
  lemma JobSlotAt(perChunk: int, chunks: int, i: nat)
    requires i < |JobCubes(perChunk, chunks)|
    ensures InSlot(JobCubes(perChunk, chunks)[i], SlotOf(i, |YankChunks(perChunk, chunks)|), YankChunks(perChunk, chunks))
  {
    var job := JobCubes(perChunk, chunks);
    JobParts(perChunk, chunks);
    PreparationSlots(perChunk);
    if i < 20 {
      assert job[i] == job[..20][i];
    }
  }

  /** The cube a slot names, among the YANK chunks `ys` and the other cubes. */
  predicate InSlot(c: Cube, s: Slot, ys: seq<Cube>) {
    match s
    case ChunkSlot(n) => n < |ys| && c == ys[n]
    case OtherSlot(o) => o < |OtherCubes| && c == OtherCubes[o]
  }

  /** Slots of the same kind come in the order of their numbers. */
  predicate SlotBefore(a: Slot, b: Slot) {
    (a.ChunkSlot? && b.ChunkSlot? ==> a.chunk < b.chunk) && (a.OtherSlot? && b.OtherSlot? ==> a.other < b.other)
  }

  lemma SlotOrder(i: nat, j: nat, k: nat)
    requires i < j
    ensures SlotBefore(SlotOf(i, k), SlotOf(j, k))
  {
  }

  /** Cubes in two different slots have different names. */
  lemma SlotNamesDiffer(ys: seq<Cube>, x: Cube, y: Cube, a: Slot, b: Slot)
    requires NamesDistinct(ys) && forall n :: 0 <= n < |ys| ==> |ys[n].name| > 0 && ys[n].name[0] == 'A'
    requires InSlot(x, a, ys) && InSlot(y, b, ys) && SlotBefore(a, b)
    ensures x.name != y.name
  {
    OtherCubesNames();
  }

  /**
    No two cubes of the whole job share a name, so the connections, which
    name their ends, each join the cubes intended.
   */
  lemma JobCubesNamesDistinct(perChunk: int, chunks: int)
    ensures NamesDistinct(JobCubes(perChunk, chunks))
  {
    var job := JobCubes(perChunk, chunks);
    var ys := YankChunks(perChunk, chunks);
    YankChunkNamesDistinct(perChunk, chunks);
    forall i, j | 0 <= i < j < |job|
      ensures job[i].name != job[j].name
    {
      JobSlotAt(perChunk, chunks, i);
      JobSlotAt(perChunk, chunks, j);
      SlotOrder(i, j, |ys|);
      SlotNamesDiffer(ys, job[i], job[j], SlotOf(i, |ys|), SlotOf(j, |ys|));
    }
  }

  /**
    How the assembled job routes results through the YANK chunks: from the
    synchroniser through every chunk in order to the output writer, and the
    failures of the last chunk, the only failure connection of the job, to
    the failure writer.
   */
  lemma BindingFloeRouting(perChunk: int, chunks: int)
    ensures var ys := YankChunks(perChunk, chunks);
      var edges := FixedEdges + ChainEdges(CubeList(perChunk, chunks));
      |SuccessEdges(edges)| == |FixedEdges| + |ys| + 1
      && SuccessEdges(edges)[..|FixedEdges|] == FixedEdges
      && var chain := SuccessEdges(edges)[|FixedEdges|..];
      (chain[0] == Edge("SyncCube", Success, "ABFE0", Intake)
      && (forall i :: 0 <= i < |ys| - 1 ==> chain[i + 1] == Edge(ys[i].name, Success, ys[i + 1].name, Intake))
      && chain[|ys|] == Edge(ys[|ys| - 1].name, Success, "ofs", Intake)
      && FailureEdges(edges) == [Edge(ys[|ys| - 1].name, Failure, "fail", Intake)])
  {
    var l := CubeList(perChunk, chunks);
    var ys := YankChunks(perChunk, chunks);
    CubeListShape(perChunk, chunks);
    YankChunkNames(perChunk, chunks);
    assert NatToString(0) == "0";
    AllSuccess(FixedEdges);
    SuccessEdgesAppend(FixedEdges, ChainEdges(l));
    ChainEdgesLinks(l);
    var chain := SuccessEdges(FixedEdges + ChainEdges(l))[|FixedEdges|..];
    assert chain == SuccessEdges(ChainEdges(l));
    assert chain[0] == ChainLink(l, 0);
    forall i | 0 <= i < |ys| - 1
      ensures chain[i + 1] == Edge(ys[i].name, Success, ys[i + 1].name, Intake)
    {
      assert chain[i + 1] == ChainLink(l, i + 1);
      assert l[i + 1] == ys[i] && l[i + 2] == ys[i + 1];
    }
    assert chain[|ys|] == ChainLink(l, |ys|);
    assert l[|ys|] == ys[|ys| - 1];
  }

  /** The complex branch: a chain from the complex to the synchroniser's intake. */
  lemma ComplexBranch()
    ensures FixedEdges[5].src == "Complex" && FixedEdges[12] == Edge("equil3Complex", Success, "SyncCube", Intake)
    ensures forall k :: 5 <= k < 12 ==> FixedEdges[k].dst == FixedEdges[k + 1].src
  {
  }

  /** The ligand branch: a chain from the ligand settings to the synchroniser's solvated-ligand port. */
  lemma LigandBranch()
    ensures FixedEdges[13].src == "LigandSetting"
      && FixedEdges[18] == Edge("equilLigand", Success, "SyncCube", SolvatedLigandInPort)
    ensures forall k :: 13 <= k < 18 ==> FixedEdges[k].dst == FixedEdges[k + 1].src
  {
  }

  /**
    The fixed wiring: all of it on success ports; the ligand settings feed
    both the complex and the unbound ligand's hydration; the complex branch
    runs as a chain from the complex to the synchroniser's intake, and the
    ligand branch as a chain to its solvated-ligand port.
   */
  lemma FixedWiring()
    ensures forall k :: 0 <= k < |FixedEdges| ==> FixedEdges[k].out == Success
    ensures forall k :: 0 <= k < |FixedEdges| && FixedEdges[k].src == "LigandSetting" ==>
      FixedEdges[k].dst == "Complex" || FixedEdges[k].dst == "HydrationLigand"
    ensures FixedEdges[2].dst == "Complex" && FixedEdges[13].dst == "HydrationLigand"
    ensures FixedEdges[5].src == "Complex" && FixedEdges[12] == Edge("equil3Complex", Success, "SyncCube", Intake)
    ensures forall k :: 5 <= k < 12 ==> FixedEdges[k].dst == FixedEdges[k + 1].src
    ensures FixedEdges[13].src == "LigandSetting"
      && FixedEdges[18] == Edge("equilLigand", Success, "SyncCube", SolvatedLigandInPort)
    ensures forall k :: 13 <= k < 18 ==> FixedEdges[k].dst == FixedEdges[k + 1].src
    ensures forall k :: 0 <= k < |FixedEdges| && FixedEdges[k].dst == "SyncCube" ==> k == 12 || k == 18
  {
    ComplexBranch();
    LigandBranch();
  }

  /** The script's own settings: five chunks of 200 iterations, the last, ABFE4, running to 1000 and analysing. */
  lemma DefaultSettings()
    ensures var ys := YankChunks(YankIterationPerChunk, DefaultChunks);
      |ys| == 5 && ys[4].name == "ABFE4" && ys[4].kind.iterations == 1000 && ys[4].kind.analyze
      && forall i :: 0 <= i < 4 ==> !ys[i].kind.analyze
  {
    YankSchedule(YankIterationPerChunk, DefaultChunks);
    YankChunkNames(YankIterationPerChunk, DefaultChunks);
    assert NatToString(4) == "4";
  }

  // ---------------------------------------------------------------------
  // Building the job
  // ---------------------------------------------------------------------

  /** The `job.add_cube` calls for the readers, the settings cubes and the complex preparation. */
  method AddSetupCubes(job: WorkFloe)
    modifies job
    ensures job.cubes == old(job.cubes) + [LigandReader, LigCharge, LigSetting, ProteinReader, ProtSetting,
      Complex, SolvateComplex, FFComplex]
    ensures job.edges == old(job.edges) && job.title == old(job.title)
  {
    job.AddCube(LigandReader);
    job.AddCube(LigCharge);
    job.AddCube(LigSetting);
    job.AddCube(ProteinReader);
    job.AddCube(ProtSetting);
    job.AddCube(Complex);
    job.AddCube(SolvateComplex);
    job.AddCube(FFComplex);
  }

  /** The `job.add_cube` calls for the first YANK cube and the complex's MD stages. */
  method AddComplexMDCubes(job: WorkFloe, abfe0: Cube)
    modifies job
    ensures job.cubes == old(job.cubes) + [abfe0, MinComplex, WarmupComplex, Equil1Complex, Equil2Complex, Equil3Complex]
    ensures job.edges == old(job.edges) && job.title == old(job.title)
  {
    job.AddCube(abfe0);
    job.AddCube(MinComplex);
    job.AddCube(WarmupComplex);
    job.AddCube(Equil1Complex);
    job.AddCube(Equil2Complex);
    job.AddCube(Equil3Complex);
  }

  /** The `job.add_cube` calls for the unbound ligand's stages and the synchroniser. */
  method AddLigandCubes(job: WorkFloe)
    modifies job
    ensures job.cubes == old(job.cubes) + [SolvateLigand, FFLigand, MinimizeLigand, WarmupLigand, EquilLigand, Sync]
    ensures job.edges == old(job.edges) && job.title == old(job.title)
  {
    job.AddCube(SolvateLigand);
    job.AddCube(FFLigand);
    job.AddCube(MinimizeLigand);
    job.AddCube(WarmupLigand);
    job.AddCube(EquilLigand);
    job.AddCube(Sync);
  }

  /** The input connections: the readers into the settings cubes and into the complex. */
  method ConnectInputs(job: WorkFloe)
    modifies job
    ensures job.edges == old(job.edges) + FixedEdges[..5]
    ensures job.cubes == old(job.cubes) && job.title == old(job.title)
  {
    job.Connect(LigandReader, Success, LigCharge, Intake);
    job.Connect(LigCharge, Success, LigSetting, Intake);
    job.Connect(LigSetting, Success, Complex, Intake);
    job.Connect(ProteinReader, Success, ProtSetting, Intake);
    job.Connect(ProtSetting, Success, Complex, ProteinPort);
  }

  /** The complex branch, from the complex to the synchroniser's intake. */
  method ConnectComplexBranch(job: WorkFloe)
    modifies job
    ensures job.edges == old(job.edges) + FixedEdges[5..13]
    ensures job.cubes == old(job.cubes) && job.title == old(job.title)
  {
    job.Connect(Complex, Success, SolvateComplex, Intake);
    job.Connect(SolvateComplex, Success, FFComplex, Intake);
    job.Connect(FFComplex, Success, MinComplex, Intake);
    job.Connect(MinComplex, Success, WarmupComplex, Intake);
    job.Connect(WarmupComplex, Success, Equil1Complex, Intake);
    job.Connect(Equil1Complex, Success, Equil2Complex, Intake);
    job.Connect(Equil2Complex, Success, Equil3Complex, Intake);
    job.Connect(Equil3Complex, Success, Sync, Intake);
  }

  /** The ligand branch, from the ligand settings to the synchroniser's ligand port. */
  method ConnectLigandBranch(job: WorkFloe)
    modifies job
    ensures job.edges == old(job.edges) + FixedEdges[13..]
    ensures job.cubes == old(job.cubes) && job.title == old(job.title)
  {
    job.Connect(LigSetting, Success, SolvateLigand, Intake);
    job.Connect(SolvateLigand, Success, FFLigand, Intake);
    job.Connect(FFLigand, Success, MinimizeLigand, Intake);
    job.Connect(MinimizeLigand, Success, WarmupLigand, Intake);
    job.Connect(WarmupLigand, Success, EquilLigand, Intake);
    job.Connect(EquilLigand, Success, Sync, SolvatedLigandInPort);
  }

  /** The index loop over `cube_list`: success to the next cube, and one failure link. */
  method ConnectCubeList(job: WorkFloe, cubeList: seq<Cube>)
    requires |cubeList| >= 2
    modifies job
    ensures job.edges == old(job.edges) + ChainEdges(cubeList)
    ensures job.cubes == old(job.cubes) && job.title == old(job.title)
  {
    var i := 0;
    while i < |cubeList| - 2
      invariant 0 <= i <= |cubeList| - 2
      invariant job.edges == old(job.edges) + LoopEdges(cubeList, i)
      invariant job.cubes == old(job.cubes) && job.title == old(job.title)
    {
      job.Connect(cubeList[i], Success, cubeList[i + 1], Intake);
      if i == |cubeList| - 3 {
        job.Connect(cubeList[i], Failure, cubeList[i + 2], Intake);
      }
      i := i + 1;
    }
  }

  /** The YANK chunk loop: ABFE1 .. ABFE(chunks-1), each added to the job and appended to `cube_list`. */
  method AddYankChunks(job: WorkFloe, perChunk: int, chunks: int, listIn: seq<Cube>) returns (cubeList: seq<Cube>)
    modifies job
    ensures cubeList == listIn + YankChunks(perChunk, chunks)[1..]
    ensures job.cubes == old(job.cubes) + YankChunks(perChunk, chunks)[1..]
    ensures job.edges == old(job.edges) && job.title == old(job.title)
  {
    cubeList := listIn;
    var i := 1;
    while i < chunks
      invariant 1 <= i <= ChunkCount(chunks)
      invariant cubeList == listIn + YankChunksPrefix(perChunk, chunks, i)[1..]
      invariant job.cubes == old(job.cubes) + YankChunksPrefix(perChunk, chunks, i)[1..]
      invariant job.edges == old(job.edges) && job.title == old(job.title)
    {
      var name := "ABFE" + NatToString(i);
      var abfe := Cube(name, name, YankBindingFE(perChunk * (i + 1), false, false, false));
      abfe := abfe.(kind := abfe.kind.(rerun := true));
      abfe := abfe.(kind := abfe.kind.(minimize := false));
      abfe := abfe.(kind := abfe.kind.(analyze := false));
      if i == chunks - 1 {
        abfe := abfe.(kind := abfe.kind.(analyze := true));
      }
      job.AddCube(abfe);
      cubeList := cubeList + [abfe];
      assert YankChunksPrefix(perChunk, chunks, i + 1)[1..] == YankChunksPrefix(perChunk, chunks, i)[1..] + [abfe];
      i := i + 1;
    }
  }

  /** The `add_cube` calls before the YANK chunk loop. */
  method AddPreparationCubes(job: WorkFloe, perChunk: int, abfe0: Cube)
    requires abfe0 == Abfe0(perChunk)
    modifies job
    ensures job.cubes == old(job.cubes) + PreparationCubes(perChunk)
    ensures job.edges == old(job.edges) && job.title == old(job.title)
  {
    AddSetupCubes(job);
    AddComplexMDCubes(job, abfe0);
    AddLigandCubes(job);
  }

  /** The `add_cube` calls of the floe, in their order; the list gets the chained cubes. */
  method AddAllCubes(job: WorkFloe, perChunk: int, chunks: int) returns (cubeList: seq<Cube>)
    modifies job
    ensures cubeList == CubeList(perChunk, chunks)
    ensures job.cubes == old(job.cubes) + JobCubes(perChunk, chunks)
    ensures job.edges == old(job.edges) && job.title == old(job.title)
  {
    cubeList := [];
    var abfe0 := Cube("ABFE0", "ABFE", YankBindingFE(perChunk, false, false, false));
    abfe0 := abfe0.(kind := abfe0.kind.(rerun := false));
    abfe0 := abfe0.(kind := abfe0.kind.(minimize := true));
    abfe0 := abfe0.(kind := abfe0.kind.(analyze := false));
    AddPreparationCubes(job, perChunk, abfe0);

    cubeList := cubeList + [Sync];
    cubeList := cubeList + [abfe0];
    ghost var preparation := job.cubes;
    cubeList := AddYankChunks(job, perChunk, chunks, cubeList);

    job.AddCube(Ofs);
    cubeList := cubeList + [Ofs];
    job.AddCube(Fail);
    cubeList := cubeList + [Fail];
    assert job.cubes == preparation + YankChunks(perChunk, chunks)[1..] + [Ofs, Fail];
    assert YankChunks(perChunk, chunks) == [abfe0] + YankChunks(perChunk, chunks)[1..];
  }

  /** The `connect` calls of the floe: the fixed wiring, then the chain through the cube list. */
  method ConnectAll(job: WorkFloe, cubeList: seq<Cube>)
    requires |cubeList| >= 2
    modifies job
    ensures job.edges == old(job.edges) + FixedEdges + ChainEdges(cubeList)
    ensures job.cubes == old(job.cubes) && job.title == old(job.title)
  {
    ConnectInputs(job);
    ConnectComplexBranch(job);
    ConnectLigandBranch(job);
    assert FixedEdges[..5] + FixedEdges[5..13] + FixedEdges[13..] == FixedEdges;
    ConnectCubeList(job, cubeList);
  }

  /**
    The script's module-level code for the given user settings: add the
    cubes, build `cube_list` with the YANK chunk loop, make the fixed
    connections and then the index-based ones.
   */
  method BuildBindingAffinityFloe(perChunk: int, chunks: int) returns (job: WorkFloe, cubeList: seq<Cube>)
    ensures cubeList == CubeList(perChunk, chunks)
    ensures job.title == "Binding Affinity"
    ensures job.cubes == JobCubes(perChunk, chunks)
    ensures job.edges == FixedEdges + ChainEdges(cubeList)
  {
    job := new WorkFloe("Binding Affinity");
    cubeList := AddAllCubes(job, perChunk, chunks);
    ConnectAll(job, cubeList);
  }
}
