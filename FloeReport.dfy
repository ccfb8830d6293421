/**
  The trajectory-analysis report cube of `TrjAnalysisCubes/MDTrajAnalysisFloeReport.py`:
  reading the analysis results out of a record, trimming the SVG plots,
  writing the cluster summary, and routing the record to the success or
  the failure port.  A record is a map from field name to a typed value.
 */
module FloeReport {
  import opened Wrappers
  import opened Strings

  // ---------------------------------------------------------------------
  // Records and fields
  // ---------------------------------------------------------------------

  datatype FieldType = StringT | StringVecT | RecordT | IntT | FloatT | IntVecT | MolT

  datatype Value =
    | StringV(str: string)
    | StringVecV(strs: seq<string>)
    | RecordV(fields: map<string, Value>)
    | IntV(num: int)
    | FloatV(x: real)
    | IntVecV(nums: seq<int>)
    | MolV(smiles: string)

  type Record = map<string, Value>

  /** A field of a record: its name and the type of its value. */
  datatype Field = Field(name: string, ftype: FieldType)

  datatype Error = ValueError(message: string)

  function TypeOf(v: Value): FieldType {
    match v
    case StringV(_) => StringT
    case StringVecV(_) => StringVecT
    case RecordV(_) => RecordT
    case IntV(_) => IntT
    case FloatV(_) => FloatT
    case IntVecV(_) => IntVecT
    case MolV(_) => MolT
  }

  /** `record.has_value(field)`: the record holds a value of the field's type under the field's name. */
  predicate HasValue(record: Record, f: Field) {
    f.name in record && TypeOf(record[f.name]) == f.ftype
  }

  /** The title and the ligand fields of the shared field standards. */
  const TitleField := Field("Title_OPLMD", StringT)
  const LigandField := Field("Ligand_OPLMD", MolT)

  function MissingFieldMessage(name: string): string {
    "The record does not have field " + name
  }

  /** `CheckAndGetValue(record, field)`: the stored value, or a `ValueError` naming the missing field. */
  function CheckAndGetValue(record: Record, f: Field): (r: Result<Value, Error>)
    ensures r.Success? <==> HasValue(record, f)
    ensures r.Success? ==> r.value == record[f.name] && TypeOf(r.value) == f.ftype
    ensures r.Failure? ==> r.error == ValueError(MissingFieldMessage(f.name))
  {
    if !HasValue(record, f) then Failure(ValueError(MissingFieldMessage(f.name)))
    else Success(record[f.name])
  }

  /** `CheckAndGetValueFull(record, name, type)`: the same lookup with the field given by name and type. */
  function CheckAndGetValueFull(record: Record, name: string, t: FieldType): (r: Result<Value, Error>)
    ensures r == CheckAndGetValue(record, Field(name, t))
  {
    CheckAndGetValue(record, Field(name, t))
  }

  // ---------------------------------------------------------------------
  // Trimming the SVG plots
  // ---------------------------------------------------------------------

  const ScriptTag := "<script"
  const CdataOpen := "<![CDATA["

  /** The snippet `_trim_svg` inserts so that the plot's `init` function runs. */
  const RunInit := "\n" + "if (init != null) { try {init() } catch(error) {  true; } };" + "\n"

  /** The first index from `i` on holding `c`, or `|s|`. */
  function FirstFrom(s: string, i: nat, c: char): (r: nat)
    requires i <= |s|
    ensures i <= r <= |s|
    ensures r < |s| ==> s[r] == c
    ensures forall j :: i <= j < r ==> s[j] != c
    decreases |s| - i
  {
    if i == |s| || s[i] == c then i else FirstFrom(s, i + 1, c)
  }

  /** The first index from `i` on not holding a space, or `|s|`. */
  function SkipSpaces(s: string, i: nat): (r: nat)
    requires i <= |s|
    ensures i <= r <= |s|
    ensures r < |s| ==> s[r] != ' '
    ensures forall j :: i <= j < r ==> s[j] == ' '
    decreases |s| - i
  {
    if i == |s| || s[i] != ' ' then i else SkipSpaces(s, i + 1)
  }

  /**
    A match of the pattern `<script[^>]*> *<!\[CDATA\[` at the start of `s`:
    the `>` at `g`, the `<![CDATA[` at `e`, the match ending at `n`.
   */
  predicate OpenerMatch(s: string, g: nat, e: nat, n: nat) {
    StartsWith(s, ScriptTag) && |ScriptTag| <= g < e && n == e + |CdataOpen| && n <= |s|
    && (forall j :: |ScriptTag| <= j < g ==> s[j] != '>') && s[g] == '>'
    && (forall j :: g < j < e ==> s[j] == ' ')
    && s[e..n] == CdataOpen
  }

  /**
    Where the scan of the pattern stands: `k` characters of `<script` read,
    inside the tag up to its `>`, in the spaces after it, or `k` characters
    of `<![CDATA[` read.
   */
  datatype Phase = InTag(k: nat) | InAttrs | InSpaces | InCdata(k: nat)

  /** The phases still to come, for termination. */
  function Rank(ph: Phase): nat {
    match ph
    case InTag(_) => 3
    case InAttrs => 2
    case InSpaces => 1
    case InCdata(_) => 0
  }

  /** The fewest characters a match still has to read from phase `ph`. */
  function MinRest(ph: Phase): nat {
    match ph
    case InTag(k) => (if k < |ScriptTag| then |ScriptTag| - k else 0) + 1 + |CdataOpen|
    case InAttrs => 1 + |CdataOpen|
    case InSpaces => |CdataOpen|
    case InCdata(k) => if k < |CdataOpen| then |CdataOpen| - k else 0
  }

  /**
    The pattern matched from index `i` in phase `ph`, one character at a
    time: `[^>]*` can only stop at the first `>`, and ` *` only after the
    last of the spaces that follow it, so the scan never has to go back.
   */
  function ScanFrom(s: string, i: nat, ph: Phase): (r: Option<nat>)
    requires i <= |s|
    ensures r.Some? ==> i + MinRest(ph) <= r.value <= |s|
    decreases |s| - i, Rank(ph)
  {
    match ph
    case InTag(k) =>
      if k >= |ScriptTag| then ScanFrom(s, i, InAttrs)
      else if i < |s| && s[i] == ScriptTag[k] then ScanFrom(s, i + 1, InTag(k + 1))
      else None
    case InAttrs =>
      if i == |s| then None
      else if s[i] == '>' then ScanFrom(s, i + 1, InSpaces)
      else ScanFrom(s, i + 1, InAttrs)
    case InSpaces =>
      if i < |s| && s[i] == ' ' then ScanFrom(s, i + 1, InSpaces) else ScanFrom(s, i, InCdata(0))
    case InCdata(k) =>
      if k >= |CdataOpen| then Some(i)
      else if i < |s| && s[i] == CdataOpen[k] then ScanFrom(s, i + 1, InCdata(k + 1))
      else None
  }

  /** Where the pattern matches at the start of `s`, the end of the match. */
  function OpenerEnd(s: string): (r: Option<nat>)
    ensures r.Some? ==> |ScriptTag| + 1 + |CdataOpen| <= r.value <= |s|
  {
    ScanFrom(s, 0, InTag(0))
  }

  /** `s` from index `i` on spells `w[k..]`. */
  predicate Spells(s: string, i: nat, w: string, k: nat) {
    k <= |w| && i + (|w| - k) <= |s| && forall j :: k <= j < |w| ==> s[i + (j - k)] == w[j]
  }

  /** Reading the rest of `<script` from phase `InTag(k)`. */
  lemma {:induction false} TagRun(s: string, i: nat, k: nat)
    requires i <= |s| && k <= |ScriptTag|
    ensures ScanFrom(s, i, InTag(k))
      == if Spells(s, i, ScriptTag, k) then ScanFrom(s, i + (|ScriptTag| - k), InAttrs) else None
    decreases |ScriptTag| - k
  {
    if k < |ScriptTag| {
      if i < |s| && s[i] == ScriptTag[k] {
        TagRun(s, i + 1, k + 1);
        assert Spells(s, i, ScriptTag, k) <==> Spells(s, i + 1, ScriptTag, k + 1) by {
          if Spells(s, i + 1, ScriptTag, k + 1) {
            assert forall j :: k + 1 <= j < |ScriptTag| ==> s[i + (j - k)] == ScriptTag[j];
          }
        }
      } else if i < |s| {
        assert !Spells(s, i, ScriptTag, k) by {
          assert s[i + (k - k)] != ScriptTag[k];
        }
      }
    }
  }

  /** Reading the rest of `<![CDATA[` from phase `InCdata(k)`. */
  lemma {:induction false} CdataRun(s: string, i: nat, k: nat)
    requires i <= |s| && k <= |CdataOpen|
    ensures ScanFrom(s, i, InCdata(k))
      == if Spells(s, i, CdataOpen, k) then Some(i + (|CdataOpen| - k)) else None
    decreases |CdataOpen| - k
  {
    if k < |CdataOpen| {
      if i < |s| && s[i] == CdataOpen[k] {
        CdataRun(s, i + 1, k + 1);
        assert Spells(s, i, CdataOpen, k) <==> Spells(s, i + 1, CdataOpen, k + 1) by {
          if Spells(s, i + 1, CdataOpen, k + 1) {
            assert forall j :: k + 1 <= j < |CdataOpen| ==> s[i + (j - k)] == CdataOpen[j];
          }
        }
      } else if i < |s| {
        assert !Spells(s, i, CdataOpen, k) by {
          assert s[i + (k - k)] != CdataOpen[k];
        }
      }
    }
  }

  /** Inside the tag the scan goes on to the first `>`. */
  lemma {:induction false} AttrsRun(s: string, i: nat)
    requires i <= |s|
    ensures ScanFrom(s, i, InAttrs)
      == if FirstFrom(s, i, '>') == |s| then None else ScanFrom(s, FirstFrom(s, i, '>') + 1, InSpaces)
    decreases |s| - i
  {
    if i < |s| && s[i] != '>' {
      AttrsRun(s, i + 1);
    }
  }

  /** After the `>` the scan skips every space. */
  lemma {:induction false} SpacesRun(s: string, i: nat)
    requires i <= |s|
    ensures ScanFrom(s, i, InSpaces) == ScanFrom(s, SkipSpaces(s, i), InCdata(0))
    decreases |s| - i
  {
    if i < |s| && s[i] == ' ' {
      SpacesRun(s, i + 1);
    }
  }

  /** A string starting with `w` spells it from index 0, and the other way round. */
  lemma StartsWithSpells(s: string, w: string)
    ensures StartsWith(s, w) <==> Spells(s, 0, w, 0)
  {
    if Spells(s, 0, w, 0) {
      assert forall j :: 0 <= j < |w| ==> s[..|w|][j] == w[j];
    }
  }

  /** A slice equal to `w` spells it, and the other way round. */
  lemma SliceSpells(s: string, e: nat, w: string)
    requires e + |w| <= |s|
    ensures s[e..e + |w|] == w <==> Spells(s, e, w, 0)
  {
    if Spells(s, e, w, 0) {
      assert forall j :: 0 <= j < |w| ==> s[e..e + |w|][j] == w[j];
    }
  }

  /** Text that does not start with `<script` has no match at its start. */
  lemma NoTagNoOpener(s: string)
    requires !StartsWith(s, ScriptTag)
    ensures OpenerEnd(s) == None
  {
    StartsWithSpells(s, ScriptTag);
    TagRun(s, 0, 0);
  }

  /** A match found from the start spells `<script` and goes on inside the tag. */
  lemma TagFound(s: string, n: nat)
    requires ScanFrom(s, 0, InTag(0)) == Some(n)
    ensures Spells(s, 0, ScriptTag, 0) && ScanFrom(s, |ScriptTag|, InAttrs) == Some(n)
  {
    TagRun(s, 0, 0);
  }

  /** A match found inside the tag goes on after the first `>`. */
  lemma AttrsFound(s: string, i: nat, n: nat)
    requires i <= |s| && ScanFrom(s, i, InAttrs) == Some(n)
    ensures FirstFrom(s, i, '>') < |s| && ScanFrom(s, FirstFrom(s, i, '>') + 1, InSpaces) == Some(n)
  {
    AttrsRun(s, i);
  }

  /** A match found at `<![CDATA[` spells it and ends right after it. */
  lemma CdataFound(s: string, e: nat, n: nat)
    requires e <= |s| && ScanFrom(s, e, InCdata(0)) == Some(n)
    ensures Spells(s, e, CdataOpen, 0) && n == e + |CdataOpen|
  {
    CdataRun(s, e, 0);
  }

  /** What the scan reads on the way to a match, phase by phase. */
  lemma OpenerEndRuns(s: string, n: nat)
    requires OpenerEnd(s) == Some(n)
    ensures |ScriptTag| < |s| && Spells(s, 0, ScriptTag, 0)
    ensures FirstFrom(s, |ScriptTag|, '>') < |s|
    ensures var e := SkipSpaces(s, FirstFrom(s, |ScriptTag|, '>') + 1);
      Spells(s, e, CdataOpen, 0) && n == e + |CdataOpen|
  {
    TagFound(s, n);
    AttrsFound(s, |ScriptTag|, n);
    var g := FirstFrom(s, |ScriptTag|, '>');
    SpacesRun(s, g + 1);
    CdataFound(s, SkipSpaces(s, g + 1), n);
  }

  /** What the scan finds is a match of the pattern. */
  lemma OpenerEndSound(s: string, n: nat)
    requires OpenerEnd(s) == Some(n)
    ensures |ScriptTag| < |s| && FirstFrom(s, |ScriptTag|, '>') < |s|
    ensures OpenerMatch(s, FirstFrom(s, |ScriptTag|, '>'), SkipSpaces(s, FirstFrom(s, |ScriptTag|, '>') + 1), n)
  {
    OpenerEndRuns(s, n);
    StartsWithSpells(s, ScriptTag);
    var g := FirstFrom(s, |ScriptTag|, '>');
    SliceSpells(s, SkipSpaces(s, g + 1), CdataOpen);
  }

  /** The scan reaches the end of a match given phase by phase. */
  lemma OpenerEndFromRuns(s: string, g: nat, e: nat)
    requires |ScriptTag| <= g < e && e + |CdataOpen| <= |s| && Spells(s, 0, ScriptTag, 0)
    requires FirstFrom(s, |ScriptTag|, '>') == g && SkipSpaces(s, g + 1) == e && Spells(s, e, CdataOpen, 0)
    ensures OpenerEnd(s) == Some(e + |CdataOpen|)
  {
    TagRun(s, 0, 0);
    AttrsRun(s, |ScriptTag|);
    SpacesRun(s, g + 1);
    CdataRun(s, e, 0);
  }

  /** Every match of the pattern is the one the scan finds. */
  lemma OpenerEndComplete(s: string, g: nat, e: nat, n: nat)
    requires OpenerMatch(s, g, e, n)
    ensures OpenerEnd(s) == Some(n)
  {
    StartsWithSpells(s, ScriptTag);
    assert FirstFrom(s, |ScriptTag|, '>') == g;
    assert s[e] == '<' by { assert s[e..n][0] == '<'; }
    assert SkipSpaces(s, g + 1) == e;
    SliceSpells(s, e, CdataOpen);
    OpenerEndFromRuns(s, g, e);
  }

  /** The scan finds exactly the matches of the pattern. */
  lemma OpenerEndIsMatch(s: string, n: nat)
    ensures OpenerEnd(s) == Some(n) <==> exists g, e :: OpenerMatch(s, g, e, n)
  {
    if OpenerEnd(s) == Some(n) {
      OpenerEndSound(s, n);
    }
    if exists g, e :: OpenerMatch(s, g, e, n) {
      var g: nat, e: nat :| OpenerMatch(s, g, e, n);
      OpenerEndComplete(s, g, e, n);
    }
  }

  /** Inserted text that opens with a newline, as the snippet does. */
  predicate NewlineFirst(ins: string) {
    |ins| > 0 && ins[0] == '\n'
  }

  /**
    `re.sub` of the pattern by the match followed by `ins`: scanning left to
    right, each match is kept and `ins` put after it, and the scan resumes
    where the match ended.
   */
  function InsertAfterOpeners(s: string, ins: string): (r: string)
    ensures |s| <= |r|
    decreases |s|
  {
    if |s| == 0 then ""
    else match OpenerEnd(s)
      case Some(n) => s[..n] + ins + InsertAfterOpeners(s[n..], ins)
      case None => [s[0]] + InsertAfterOpeners(s[1..], ins)
  }

  /** Where `t` starts with a match directly followed by `ins`, the end of the match. */
  function SnippetAfterOpener(t: string, ins: string): (r: Option<nat>)
    ensures r.Some? ==> 1 <= r.value && r.value + |ins| <= |t|
  {
    match OpenerEnd(t)
    case Some(n) => if OccursAt(t, ins, n) then Some(n) else None
    case None => None
  }

  /** Removes `ins` wherever it directly follows a match of the pattern. */
  function EraseAfterOpeners(t: string, ins: string): (r: string)
    decreases |t|
  {
    if |t| == 0 then ""
    else match SnippetAfterOpener(t, ins)
      case Some(n) => t[..n] + EraseAfterOpeners(t[n + |ins|..], ins)
      case None => [t[0]] + EraseAfterOpeners(t[1..], ins)
  }

  /** `a` and `b` hold the same characters below `k`. */
  predicate Agree(a: string, b: string, k: nat) {
    k <= |a| && k <= |b| && forall j :: 0 <= j < k ==> a[j] == b[j]
  }

  /** A match depends only on the text it covers. */
  lemma OpenerEndPrefix(a: string, b: string, n: nat)
    requires OpenerEnd(a) == Some(n) && Agree(a, b, n)
    ensures OpenerEnd(b) == Some(n)
  {
    OpenerEndSound(a, n);
    var g := FirstFrom(a, |ScriptTag|, '>');
    var e := SkipSpaces(a, g + 1);
    assert b[..|ScriptTag|] == a[..|ScriptTag|];
    assert b[e..n] == a[e..n];
    OpenerEndComplete(b, g, e, n);
  }

  /** The first `c` from `i` on is no later than any `c` from `i` on. */
  lemma {:induction false} FirstFromBound(s: string, i: nat, c: char, j: nat)
    requires i <= j < |s| && s[j] == c
    ensures FirstFrom(s, i, c) <= j
    decreases j - i
  {
    if s[i] != c {
      FirstFromBound(s, i + 1, c, j);
    }
  }

  /** `<![CDATA[` holds no newline, so neither does a match's last part. */
  lemma CdataNoNewline(s: string, g: nat, e: nat, n: nat)
    requires OpenerMatch(s, g, e, n)
    ensures forall j :: e <= j < n ==> s[j] != '\n'
  {
    forall j | e <= j < n
      ensures s[j] != '\n'
    {
      assert s[j] == s[e..n][j - e];
    }
  }

  /**
    A match ends before a newline that follows a `>` of the tag: it ends
    at the first `>`'s spaces and `<![CDATA[`, and the newline is neither a
    space nor part of `<![CDATA[`.
   */
  lemma MatchStopsAtNewline(a: string, p: nat, gt: nat, n: nat)
    requires p < |a| && a[p] == '\n'
    requires |ScriptTag| <= gt < p && a[gt] == '>'
    requires OpenerEnd(a) == Some(n)
    ensures n <= p
  {
    OpenerEndSound(a, n);
    var g := FirstFrom(a, |ScriptTag|, '>');
    FirstFromBound(a, |ScriptTag|, '>', gt);
    CdataNoNewline(a, g, SkipSpaces(a, g + 1), n);
  }

  /**
    Text `a` that agrees with `b` up to a newline at `p`, with a `>` before
    `p`, has no match at its start when `b` has none: a match would end
    before the newline, where the two texts agree.
   */
  lemma NoOpenerAcrossNewline(a: string, b: string, p: nat, gt: nat)
    requires p < |a| && Agree(a, b, p) && a[p] == '\n'
    requires |ScriptTag| <= gt < p && a[gt] == '>'
    requires OpenerEnd(b) == None
    ensures OpenerEnd(a) == None
  {
    if OpenerEnd(a).Some? {
      var n := OpenerEnd(a).value;
      MatchStopsAtNewline(a, p, gt, n);
      OpenerEndPrefix(a, b, n);
    }
  }

  /** How `InsertInit` continues after a match at the start. */
  lemma {:induction false} InsertAtMatch(s: string, ins: string, n: nat)
    requires OpenerEnd(s) == Some(n)
    ensures InsertAfterOpeners(s, ins) == s[..n] + ins + InsertAfterOpeners(s[n..], ins)
  {
  }

  /** How `InsertInit` continues without a match at the start. */
  lemma {:induction false} InsertNoMatch(s: string, ins: string)
    requires |s| > 0 && OpenerEnd(s) == None
    ensures InsertAfterOpeners(s, ins) == [s[0]] + InsertAfterOpeners(s[1..], ins)
  {
  }

  lemma PrefixAgree(x: string, u: string, v1: string, v2: string, w: string)
    requires |u| <= |w| && u == w[..|u|] && |v1| > 0
    ensures Agree(x + (u + v1 + v2), x + w, |x| + |u|)
    ensures (x + (u + v1 + v2))[|x| + |u|] == v1[0]
  {
    forall k | 0 <= k < |x| + |u|
      ensures (x + (u + v1 + v2))[k] == (x + w)[k]
    {
      if k >= |x| {
        assert (x + (u + v1 + v2))[k] == u[k - |x|] == w[..|u|][k - |x|];
      }
    }
  }

  /** After a match ending at `m`, the inserted text agrees with the original up to the snippet's newline. */
  lemma SnippetAfterMatch(x: string, r: string, ins: string, m: nat)
    requires NewlineFirst(ins) && OpenerEnd(r) == Some(m)
    ensures |x| + m < |x + InsertAfterOpeners(r, ins)|
    ensures Agree(x + InsertAfterOpeners(r, ins), x + r, |x| + m) && (x + InsertAfterOpeners(r, ins))[|x| + m] == '\n'
  {
    InsertAtMatch(r, ins, m);
    PrefixAgree(x, r[..m], ins, InsertAfterOpeners(r[m..], ins), r);
  }

  /** The case of `NoNewOpener` where `r` starts with a match ending at `m`. */
  lemma NoNewOpenerAtMatch(x: string, r: string, ins: string, m: nat)
    requires NewlineFirst(ins) && |x| >= 1 && OpenerEnd(x + r) == None && OpenerEnd(r) == Some(m)
    ensures OpenerEnd(x + InsertAfterOpeners(r, ins)) == None
  {
    OpenerEndIsMatch(r, m);
    var g: nat, e: nat :| OpenerMatch(r, g, e, m);
    SnippetAfterMatch(x, r, ins, m);
    var t := x + InsertAfterOpeners(r, ins);
    assert t[|x| + g] == (x + r)[|x| + g] == '>';
    NoOpenerAcrossNewline(t, x + r, |x| + m, |x| + g);
  }

  /**
    Inserting the snippet after the matches in `r` creates no match at the
    start of `x + r` where there was none.
   */
  lemma {:induction false} NoNewOpener(x: string, r: string, ins: string)
    requires NewlineFirst(ins) && |x| >= 1 && OpenerEnd(x + r) == None
    ensures OpenerEnd(x + InsertAfterOpeners(r, ins)) == None
    decreases |r|
  {
    if |r| == 0 {
      assert x + InsertAfterOpeners(r, ins) == x + r;
    } else if OpenerEnd(r).Some? {
      NoNewOpenerAtMatch(x, r, ins, OpenerEnd(r).value);
    } else {
      var y := x + [r[0]];
      assert x + r == y + r[1..];
      NoNewOpener(y, r[1..], ins);
      InsertNoMatch(r, ins);
      assert x + InsertAfterOpeners(r, ins) == y + InsertAfterOpeners(r[1..], ins);
    }
  }

  lemma ThreeParts(u: string, v1: string, v2: string)
    ensures (u + v1 + v2)[..|u|] == u
    ensures OccursAt(u + v1 + v2, v1, |u|)
    ensures (u + v1 + v2)[|u| + |v1|..] == v2
  {
    assert (u + v1 + v2)[|u|..|u| + |v1|] == v1;
  }

  /** How `Erase` continues after a match followed by the snippet. */
  lemma {:induction false} EraseAtMatch(t: string, ins: string, n: nat)
    requires SnippetAfterOpener(t, ins) == Some(n)
    ensures n + |ins| <= |t|
    ensures EraseAfterOpeners(t, ins) == t[..n] + EraseAfterOpeners(t[n + |ins|..], ins)
  {
  }

  /** A match directly followed by `ins` is what `SnippetAfterOpener` finds. */
  lemma SnippetAt(t: string, ins: string, n: nat)
    requires OpenerEnd(t) == Some(n) && OccursAt(t, ins, n)
    ensures SnippetAfterOpener(t, ins) == Some(n)
  {
  }

  /** How `Erase` continues without a match at the start. */
  lemma {:induction false} EraseNoMatch(t: string, ins: string)
    requires |t| > 0 && SnippetAfterOpener(t, ins) == None
    ensures EraseAfterOpeners(t, ins) == [t[0]] + EraseAfterOpeners(t[1..], ins)
  {
  }

  /** Erasing from a match directly followed by `ins` keeps the match and drops `ins`. */
  lemma EraseAfterKnownMatch(t: string, ins: string, u: string, tail: string)
    requires t == u + ins + tail && OpenerEnd(t) == Some(|u|)
    ensures EraseAfterOpeners(t, ins) == u + EraseAfterOpeners(tail, ins)
  {
    ThreeParts(u, ins, tail);
    SnippetAt(t, ins, |u|);
    EraseAtMatch(t, ins, |u|);
  }

  /** The insertion keeps a match at the start where it was. */
  lemma InsertKeepsMatch(s: string, ins: string, n: nat)
    requires NewlineFirst(ins) && OpenerEnd(s) == Some(n)
    ensures OpenerEnd(InsertAfterOpeners(s, ins)) == Some(n)
  {
    var t := InsertAfterOpeners(s, ins);
    InsertAtMatch(s, ins, n);
    PrefixAgree("", s[..n], ins, InsertAfterOpeners(s[n..], ins), s);
    assert "" + t == t && "" + s == s;
    OpenerEndPrefix(s, t, n);
  }

  /** Erasing from text made of the match, `ins` and a tail whose erasure is the rest gives the whole back. */
  lemma EraseMatchThenRest(s: string, ins: string, n: nat, t: string, tail: string)
    requires n <= |s| && t == s[..n] + ins + tail && OpenerEnd(t) == Some(n)
    requires EraseAfterOpeners(tail, ins) == s[n..]
    ensures EraseAfterOpeners(t, ins) == s
  {
    EraseAfterKnownMatch(t, ins, s[..n], tail);
    assert s[..n] + s[n..] == s;
  }

  /** The round trip over a match at the start, given the round trip for the rest. */
  lemma EraseInsertAtMatch(s: string, ins: string, n: nat)
    requires NewlineFirst(ins) && OpenerEnd(s) == Some(n)
    requires EraseAfterOpeners(InsertAfterOpeners(s[n..], ins), ins) == s[n..]
    ensures EraseAfterOpeners(InsertAfterOpeners(s, ins), ins) == s
  {
    InsertKeepsMatch(s, ins, n);
    InsertAtMatch(s, ins, n);
    EraseMatchThenRest(s, ins, n, InsertAfterOpeners(s, ins), InsertAfterOpeners(s[n..], ins));
  }

  /** The round trip over a first character that starts no match, given the round trip for the rest. */
  lemma EraseInsertNoMatch(s: string, ins: string)
    requires NewlineFirst(ins) && |s| > 0 && OpenerEnd(s) == None
    requires EraseAfterOpeners(InsertAfterOpeners(s[1..], ins), ins) == s[1..]
    ensures EraseAfterOpeners(InsertAfterOpeners(s, ins), ins) == s
  {
    var t := InsertAfterOpeners(s, ins);
    InsertNoMatch(s, ins);
    assert [s[0]] + s[1..] == s;
    NoNewOpener([s[0]], s[1..], ins);
    assert t[1..] == InsertAfterOpeners(s[1..], ins);
    EraseNoMatch(t, ins);
  }

  /** Removing the inserted snippets gives back the original text: nothing else is changed. */
  lemma {:induction false} EraseInsertAfterOpeners(s: string, ins: string)
    requires NewlineFirst(ins)
    ensures EraseAfterOpeners(InsertAfterOpeners(s, ins), ins) == s
    decreases |s|
  {
    if |s| > 0 {
      match OpenerEnd(s)
      case Some(n) =>
        EraseInsertAfterOpeners(s[n..], ins);
        EraseInsertAtMatch(s, ins, n);
      case None =>
        EraseInsertAfterOpeners(s[1..], ins);
        EraseInsertNoMatch(s, ins);
    }
  }

  // ---------------------------------------------------------------------
  // Where the snippet goes
  // ---------------------------------------------------------------------

  /** Every index of `s` at which a match of the pattern ends, wherever in `s` the match starts. */
  function MatchEnds(s: string): set<nat> {
    set p: nat | p < |s| && OpenerEnd(s[p..]).Some? :: p + OpenerEnd(s[p..]).value
  }

  /** The elements of `a` below `e`. */
  function Below(a: set<nat>, e: nat): set<nat> {
    set x | x in a && x < e
  }

  /** `a` moved up by `k`. */
  function Shift(a: set<nat>, k: nat): set<nat> {
    set x | x in a :: x + k
  }

  lemma {:induction false} ShiftCard(a: set<nat>, k: nat)
    ensures |Shift(a, k)| == |a|
    decreases a
  {
    if a != {} {
      var x :| x in a;
      ShiftCard(a - {x}, k);
      forall y | y in Shift(a, k)
        ensures y in Shift(a - {x}, k) + {x + k}
      {
        var z :| z in a && y == z + k;
        if z != x {
          assert z in a - {x};
        }
      }
      forall y | y in Shift(a - {x}, k) + {x + k}
        ensures y in Shift(a, k)
      {
        if y == x + k {
          assert x in a;
        } else {
          var z :| z in a - {x} && y == z + k;
        }
      }
      assert Shift(a, k) == Shift(a - {x}, k) + {x + k};
      assert x + k !in Shift(a - {x}, k);
    }
  }

  lemma ShiftBelow(a: set<nat>, k: nat, e: nat)
    ensures Below(Shift(a, k), e + k) == Shift(Below(a, e), k)
  {
    forall y | y in Below(Shift(a, k), e + k)
      ensures y in Shift(Below(a, e), k)
    {
      var z :| z in a && y == z + k;
      assert z in Below(a, e);
    }
    forall y | y in Shift(Below(a, e), k)
      ensures y in Below(Shift(a, k), e + k)
    {
      var z :| z in Below(a, e) && y == z + k;
      assert y in Shift(a, k);
    }
  }

  /** The only `<` in a match are its first character, the one of `<![CDATA[`, and those inside the tag. */
  lemma OpenerLessThans(s: string, g: nat, e: nat, n: nat)
    requires OpenerMatch(s, g, e, n)
    ensures forall j :: 0 < j < n && s[j] == '<' ==> j == e || |ScriptTag| <= j < g
    ensures s[e + 1] == '!'
  {
    assert s[e + 1] == s[e..n][1];
    forall j | 0 < j < |ScriptTag|
      ensures s[j] != '<'
    {
      assert s[j] == s[..|ScriptTag|][j];
    }
    forall j | e < j < n
      ensures s[j] != '<'
    {
      assert s[j] == s[e..n][j - e];
    }
  }

  /** A match at the start of `t` begins with `<script`. */
  lemma MatchStartsWithTag(t: string, m: nat)
    requires OpenerEnd(t) == Some(m)
    ensures |ScriptTag| < |t| && t[..|ScriptTag|] == ScriptTag
  {
    OpenerEndSound(t, m);
  }

  /**
    A `<script` inside a match can only sit inside the tag, before its `>`;
    the match from there has the same `>`, spaces and `<![CDATA[`.
   */
  lemma NestedMatch(s: string, g: nat, e: nat, n: nat, q: nat)
    requires OpenerMatch(s, g, e, n) && 0 < q < n
    requires q + |ScriptTag| <= |s| && s[q..q + |ScriptTag|] == ScriptTag
    ensures q + |ScriptTag| <= g
    ensures OpenerMatch(s[q..], g - q, e - q, n - q)
  {
    OpenerLessThans(s, g, e, n);
    assert s[q] == s[q..q + |ScriptTag|][0] && s[q + 1] == s[q..q + |ScriptTag|][1];
    assert |ScriptTag| <= q < g;
    assert q + |ScriptTag| <= g by {
      forall j | q <= j < q + |ScriptTag|
        ensures s[j] != '>'
      {
        assert s[j] == s[q..q + |ScriptTag|][j - q];
      }
    }
    var t := s[q..];
    assert t[..|ScriptTag|] == s[q..q + |ScriptTag|];
    assert t[e - q..n - q] == s[e..n];
  }

  /** A match starting inside another match ends where that one does. */
  lemma InsideMatchSameEnd(s: string, n: nat, q: nat, m: nat)
    requires OpenerEnd(s) == Some(n) && 0 < q < n && OpenerEnd(s[q..]) == Some(m)
    ensures q + m == n
  {
    var t := s[q..];
    OpenerEndSound(s, n);
    MatchStartsWithTag(t, m);
    var g := FirstFrom(s, |ScriptTag|, '>');
    var e := SkipSpaces(s, g + 1);
    assert s[q..q + |ScriptTag|] == t[..|ScriptTag|];
    NestedMatch(s, g, e, n, q);
    OpenerEndComplete(t, g - q, e - q, n - q);
  }

  /** Every match end is past the start. */
  lemma MatchEndsPositive(s: string)
    ensures forall x :: x in MatchEnds(s) ==> x >= 1
  {
  }

  /** Without a match at the start, the ends are those of the rest, one further on. */
  lemma MatchEndsNoMatch(s: string)
    requires |s| > 0 && OpenerEnd(s) == None
    ensures MatchEnds(s) == Shift(MatchEnds(s[1..]), 1)
  {
    var rest := s[1..];
    assert s[0..] == s;
    forall x | x in MatchEnds(s)
      ensures x in Shift(MatchEnds(rest), 1)
    {
      var p: nat :| p < |s| && OpenerEnd(s[p..]).Some? && x == p + OpenerEnd(s[p..]).value;
      assert s[p..] == rest[p - 1..];
      assert x - 1 in MatchEnds(rest);
    }
    forall x | x in Shift(MatchEnds(rest), 1)
      ensures x in MatchEnds(s)
    {
      var p: nat :| p < |rest| && OpenerEnd(rest[p..]).Some? && x == p + OpenerEnd(rest[p..]).value + 1;
      assert s[p + 1..] == rest[p..];
    }
  }

  /** With a match ending at `n` at the start, the ends are `n` and those of the text after it, moved on by `n`. */
  lemma MatchEndsAtMatch(s: string, n: nat)
    requires OpenerEnd(s) == Some(n)
    ensures MatchEnds(s) == {n} + Shift(MatchEnds(s[n..]), n)
    ensures n !in Shift(MatchEnds(s[n..]), n)
  {
    var rest := s[n..];
    assert s[0..] == s;
    forall x | x in MatchEnds(s)
      ensures x in {n} + Shift(MatchEnds(rest), n)
    {
      var p: nat :| p < |s| && OpenerEnd(s[p..]).Some? && x == p + OpenerEnd(s[p..]).value;
      if 0 < p < n {
        InsideMatchSameEnd(s, n, p, OpenerEnd(s[p..]).value);
      } else if n <= p {
        assert s[p..] == rest[p - n..];
        assert x - n in MatchEnds(rest);
      }
    }
    forall x | x in Shift(MatchEnds(rest), n)
      ensures x in MatchEnds(s)
    {
      var p: nat :| p < |rest| && OpenerEnd(rest[p..]).Some? && x == p + OpenerEnd(rest[p..]).value + n;
      assert s[p + n..] == rest[p..];
    }
    assert n in MatchEnds(s);
    MatchEndsPositive(rest);
  }

  lemma MatchEndsEmpty(s: string)
    requires |s| == 0
    ensures MatchEnds(s) == {}
  {
  }

  /** A snippet found in `r` is found at the same place after `x` is put in front. */
  lemma OccursAfterPrefix(x: string, r: string, ins: string, j: nat)
    requires OccursAt(r, ins, j)
    ensures OccursAt(x + r, ins, |x| + j)
  {
    assert (x + r)[|x| + j..|x| + j + |ins|] == r[j..j + |ins|];
  }

  lemma MulSucc(w: nat, k: nat)
    ensures w * (k + 1) == w * k + w
  {
  }

  /** The count over a match at the start, given the count for the text after it. */
  lemma InsertCountAtMatch(s: string, ins: string, n: nat)
    requires OpenerEnd(s) == Some(n)
    requires |InsertAfterOpeners(s[n..], ins)| == |s[n..]| + |ins| * |MatchEnds(s[n..])|
    ensures |InsertAfterOpeners(s, ins)| == |s| + |ins| * |MatchEnds(s)|
  {
    var a := MatchEnds(s[n..]);
    InsertAtMatch(s, ins, n);
    MatchEndsAtMatch(s, n);
    ShiftCard(a, n);
    assert |MatchEnds(s)| == |a| + 1;
    MulSucc(|ins|, |a|);
  }

  /** The count over a first character that starts no match, given the count for the rest. */
  lemma InsertCountNoMatch(s: string, ins: string)
    requires |s| > 0 && OpenerEnd(s) == None
    requires |InsertAfterOpeners(s[1..], ins)| == |s[1..]| + |ins| * |MatchEnds(s[1..])|
    ensures |InsertAfterOpeners(s, ins)| == |s| + |ins| * |MatchEnds(s)|
  {
    InsertNoMatch(s, ins);
    MatchEndsNoMatch(s);
    ShiftCard(MatchEnds(s[1..]), 1);
  }

  /** The substitution makes the text longer by one snippet per match end. */
  lemma {:induction false} InsertCount(s: string, ins: string)
    ensures |InsertAfterOpeners(s, ins)| == |s| + |ins| * |MatchEnds(s)|
    decreases |s|
  {
    if |s| == 0 {
      MatchEndsEmpty(s);
    } else if OpenerEnd(s).Some? {
      InsertCount(s[OpenerEnd(s).value..], ins);
      InsertCountAtMatch(s, ins, OpenerEnd(s).value);
    } else {
      InsertCount(s[1..], ins);
      InsertCountNoMatch(s, ins);
    }
  }

  /** Where the output position of the text's index `e` is, given the snippets inserted before it. */
  function ImageOf(s: string, ins: string, e: nat): nat {
    e + |ins| * |Below(MatchEnds(s), e)|
  }

  /** Without a match at the start, an index's image is one past its image in the rest. */
  lemma ImageNoMatch(s: string, ins: string, e: nat)
    requires |s| > 0 && OpenerEnd(s) == None && e >= 1
    ensures ImageOf(s, ins, e) == 1 + ImageOf(s[1..], ins, e - 1)
  {
    MatchEndsNoMatch(s);
    ShiftBelow(MatchEnds(s[1..]), 1, e - 1);
    ShiftCard(Below(MatchEnds(s[1..]), e - 1), 1);
  }

  /** Below `n + d`, the set `{n}` joined to `a` moved up by `n` has one more element than `a` below `d`. */
  lemma BelowAddShift(a: set<nat>, n: nat, d: nat)
    requires d >= 1 && forall x :: x in a ==> x >= 1
    ensures |Below({n} + Shift(a, n), n + d)| == |Below(a, d)| + 1
  {
    ShiftBelow(a, n, d);
    assert Below({n} + Shift(a, n), n + d) == {n} + Shift(Below(a, d), n);
    ShiftCard(Below(a, d), n);
  }

  /** Past a match at the start, an index's image is past the match and one snippet. */
  lemma ImageAtMatch(s: string, ins: string, n: nat, e: nat)
    requires OpenerEnd(s) == Some(n) && n < e
    ensures ImageOf(s, ins, e) == n + |ins| + ImageOf(s[n..], ins, e - n)
  {
    var a := MatchEnds(s[n..]);
    MatchEndsAtMatch(s, n);
    MatchEndsPositive(s[n..]);
    BelowAddShift(a, n, e - n);
    MulSucc(|ins|, |Below(a, e - n)|);
  }

  /** The case of `InsertAfterEveryOpener` without a match at the start. */
  lemma SnippetAfterEndNoMatch(s: string, ins: string, e: nat)
    requires |s| > 0 && OpenerEnd(s) == None && e >= 1
    requires OccursAt(InsertAfterOpeners(s[1..], ins), ins, ImageOf(s[1..], ins, e - 1))
    ensures OccursAt(InsertAfterOpeners(s, ins), ins, ImageOf(s, ins, e))
  {
    InsertNoMatch(s, ins);
    ImageNoMatch(s, ins, e);
    OccursAfterPrefix([s[0]], InsertAfterOpeners(s[1..], ins), ins, ImageOf(s[1..], ins, e - 1));
  }

  /** The case of `InsertAfterEveryOpener` for an end past the match at the start. */
  lemma SnippetAfterLaterEnd(s: string, ins: string, n: nat, e: nat)
    requires OpenerEnd(s) == Some(n) && n < e
    requires OccursAt(InsertAfterOpeners(s[n..], ins), ins, ImageOf(s[n..], ins, e - n))
    ensures OccursAt(InsertAfterOpeners(s, ins), ins, ImageOf(s, ins, e))
  {
    InsertAtMatch(s, ins, n);
    ImageAtMatch(s, ins, n, e);
    OccursAfterPrefix(s[..n] + ins, InsertAfterOpeners(s[n..], ins), ins, ImageOf(s[n..], ins, e - n));
  }

  /** The case of `InsertAfterEveryOpener` for the match at the start. */
  lemma SnippetAfterFirstEnd(s: string, ins: string, n: nat)
    requires OpenerEnd(s) == Some(n)
    ensures OccursAt(InsertAfterOpeners(s, ins), ins, ImageOf(s, ins, n))
  {
    InsertAtMatch(s, ins, n);
    MatchEndsAtMatch(s, n);
    MatchEndsPositive(s[n..]);
    assert Below(MatchEnds(s), n) == {};
    ThreeParts(s[..n], ins, InsertAfterOpeners(s[n..], ins));
  }

  /**
    The substitution puts the snippet right after every match end: at the
    end's own index moved on by the snippets inserted before it.
   */
  lemma {:induction false} InsertAfterEveryOpener(s: string, ins: string)
    ensures forall e :: e in MatchEnds(s) ==> OccursAt(InsertAfterOpeners(s, ins), ins, ImageOf(s, ins, e))
    decreases |s|
  {
    if |s| == 0 {
      MatchEndsEmpty(s);
    } else if OpenerEnd(s).Some? {
      var n := OpenerEnd(s).value;
      InsertAfterEveryOpener(s[n..], ins);
      MatchEndsAtMatch(s, n);
      forall e | e in MatchEnds(s)
        ensures OccursAt(InsertAfterOpeners(s, ins), ins, ImageOf(s, ins, e))
      {
        if e == n {
          SnippetAfterFirstEnd(s, ins, n);
        } else {
          assert e - n in MatchEnds(s[n..]);
          SnippetAfterLaterEnd(s, ins, n, e);
        }
      }
    } else {
      InsertAfterEveryOpener(s[1..], ins);
      MatchEndsNoMatch(s);
      forall e | e in MatchEnds(s)
        ensures OccursAt(InsertAfterOpeners(s, ins), ins, ImageOf(s, ins, e))
      {
        assert e >= 1 && e - 1 in MatchEnds(s[1..]);
        SnippetAfterEndNoMatch(s, ins, e);
      }
    }
  }

  /** Text holding no `<script` is left as it is. */
  lemma {:induction false} InsertNoScript(s: string, ins: string)
    requires !Contains(s, ScriptTag)
    ensures InsertAfterOpeners(s, ins) == s
    decreases |s|
  {
    if |s| > 0 {
      assert !OccursAt(s, ScriptTag, 0);
      assert StartsWith(s, ScriptTag) ==> OccursAt(s, ScriptTag, 0);
      NoTagNoOpener(s);
      OccursAtShift(s, ScriptTag);
      assert !Contains(s[1..], ScriptTag) by {
        forall i | 0 <= i
          ensures !OccursAt(s[1..], ScriptTag, i)
        {
          assert !OccursAt(s, ScriptTag, i + 1);
        }
      }
      InsertNoScript(s[1..], ins);
    }
  }

  /**
    The substitution `_trim_svg` makes: the snippet right after every end
    of a script opener, one snippet per end. Removing the snippets gives
    back the original text, so nothing else is changed; text holding no
    `<script` comes out as it went in.
   */
  function InsertInit(s: string): (r: string)
    ensures forall e :: e in MatchEnds(s) ==> OccursAt(r, RunInit, ImageOf(s, RunInit, e))
    ensures |r| == |s| + |RunInit| * |MatchEnds(s)|
    ensures EraseAfterOpeners(r, RunInit) == s
    ensures !Contains(s, ScriptTag) ==> r == s
  {
    assert RunInit[0] == '\n';
    InsertAfterEveryOpener(s, RunInit);
    InsertCount(s, RunInit);
    EraseInsertAfterOpeners(s, RunInit);
    if !Contains(s, ScriptTag) then InsertNoScript(s, RunInit); InsertAfterOpeners(s, RunInit)
    else InsertAfterOpeners(s, RunInit)
  }

  /** Python's `s[i:]` for any integer `i`. */
  function SliceFrom(s: string, i: int): (r: string)
    ensures 0 <= i <= |s| ==> r == s[i..]
    ensures i < 0 ==> r == s[if |s| + i < 0 then 0 else |s| + i..]
    ensures i > |s| ==> r == ""
  {
    if i > |s| then ""
    else if i >= 0 then s[i..]
    else if |s| + i < 0 then s
    else s[|s| + i..]
  }

  /**
    `_trim_svg(svg)`: the text from the first `<svg` on, after the snippet
    has been inserted; with no `<svg`, `find` gives -1 and only the last
    character (nothing, for empty text) is kept.
   */
  function TrimSvg(svg: string): (r: string)
    ensures var t := InsertInit(svg);
      |r| <= |t| && r == t[|t| - |r|..]
      && (Contains(t, "<svg") ==>
            StartsWith(r, "<svg") && forall j :: 0 <= j < |t| - |r| ==> !OccursAt(t, "<svg", j))
      && (!Contains(t, "<svg") ==> |r| == if |t| == 0 then 0 else 1)
  {
    var t := InsertInit(svg);
    var idx := Find(t, "<svg");
    assert idx >= 0 ==> t[idx..][..|"<svg"|] == t[idx..idx + |"<svg"|];
    SliceFrom(t, idx)
  }

  // ---------------------------------------------------------------------
  // Reading the analysis results
  // ---------------------------------------------------------------------

  /** What the report reads from the clustering sub-record. */
  datatype ClusterResults = ClusterResults(
    histSvg: string, clusSvg: string, rmsdInitSvg: string,
    nFrames: int, clusterMethod: string, alpha: real, nClusters: int, clusterCounts: seq<int>)

  /** Everything the report is built from. */
  datatype ReportInputs = ReportInputs(title: string, ligand: string, trajSvg: string, clusters: ClusterResults)

  /** The clustering sub-record holds every field the report reads, each with its type. */
  predicate ClusterResultsReady(clus: Record) {
    HasValue(clus, Field("HistSVG", StringT)) && HasValue(clus, Field("ClusSVG", StringT))
    && HasValue(clus, Field("rmsdInitPose", StringT)) && HasValue(clus, Field("nFrames", IntT))
    && HasValue(clus, Field("ClusterMethod", StringT)) && HasValue(clus, Field("HDBSCAN_alpha", FloatT))
    && HasValue(clus, Field("nClusters", IntT)) && HasValue(clus, Field("ClusterCounts", IntVecT))
  }

  /** The reads from the clustering sub-record, in order, raising at the first field missing. */
  function ExtractClusterResults(clus: Record): (r: Result<ClusterResults, Error>)
    ensures r.Success? <==> ClusterResultsReady(clus)
    ensures r.Success? ==>
      r.value == ClusterResults(clus["HistSVG"].str, clus["ClusSVG"].str, clus["rmsdInitPose"].str,
        clus["nFrames"].num, clus["ClusterMethod"].str, clus["HDBSCAN_alpha"].x, clus["nClusters"].num,
        clus["ClusterCounts"].nums)
  {
    var hist :- CheckAndGetValue(clus, Field("HistSVG", StringT));
    var clusSvg :- CheckAndGetValue(clus, Field("ClusSVG", StringT));
    var init :- CheckAndGetValue(clus, Field("rmsdInitPose", StringT));
    var nFrames :- CheckAndGetValue(clus, Field("nFrames", IntT));
    var clusMethod :- CheckAndGetValue(clus, Field("ClusterMethod", StringT));
    var alpha :- CheckAndGetValue(clus, Field("HDBSCAN_alpha", FloatT));
    var nClusters :- CheckAndGetValue(clus, Field("nClusters", IntT));
    var counts :- CheckAndGetValue(clus, Field("ClusterCounts", IntVecT));
    Success(ClusterResults(hist.str, clusSvg.str, init.str, nFrames.num, clusMethod.str, alpha.x, nClusters.num, counts.nums))
  }

  /** The record holds the title, the ligand and the trajectory analysis, and lists that analysis as done. */
  predicate TrajectoryReady(record: Record) {
    HasValue(record, TitleField) && HasValue(record, LigandField)
    && HasValue(record, Field("AnalysesDone", StringVecT)) && "OETraj" in record["AnalysesDone"].strs
    && HasValue(record, Field("OETraj", RecordT)) && HasValue(record["OETraj"].fields, Field("TrajSVG", StringT))
  }

  /** A record the report can be built from: every field present with its type, both analyses listed as done. */
  predicate ReportReady(record: Record) {
    TrajectoryReady(record) && "TrajClus" in record["AnalysesDone"].strs
    && HasValue(record, Field("TrajClus", RecordT)) && ClusterResultsReady(record["TrajClus"].fields)
  }

  /** What `process` reads before it looks at the clustering. */
  datatype TrajectoryInputs = TrajectoryInputs(title: string, ligand: string, analysesDone: seq<string>, trajSvg: string)

  /** The first half of the reads in `process`: title, ligand, the analyses done and the trajectory picture. */
  function ReadTrajectory(record: Record): (r: Result<TrajectoryInputs, Error>)
    ensures r.Success? <==> TrajectoryReady(record)
    ensures r.Success? ==>
      r.value.title == record["Title_OPLMD"].str && r.value.ligand == record["Ligand_OPLMD"].smiles
      && r.value.analysesDone == record["AnalysesDone"].strs && r.value.trajSvg == record["OETraj"].fields["TrajSVG"].str
  {
    var title :- CheckAndGetValue(record, TitleField);
    var ligand :- CheckAndGetValue(record, LigandField);
    var done :- CheckAndGetValueFull(record, "AnalysesDone", StringVecT);
    if "OETraj" !in done.strs then Failure(ValueError(title.str + " does not have OETraj analyses done"))
    else
      var oetraj :- CheckAndGetValueFull(record, "OETraj", RecordT);
      var trajSvg :- CheckAndGetValueFull(oetraj.fields, "TrajSVG", StringT);
      Success(TrajectoryInputs(title.str, ligand.smiles, done.strs, trajSvg.str))
  }

  /** The part of `process` that reads the record, in its order, raising at the first field missing. */
  function Extract(record: Record): (r: Result<ReportInputs, Error>)
    ensures r.Success? <==> ReportReady(record)
    ensures r.Success? ==>
      r.value.title == record["Title_OPLMD"].str && r.value.ligand == record["Ligand_OPLMD"].smiles
      && r.value.trajSvg == record["OETraj"].fields["TrajSVG"].str
      && r.value.clusters == ExtractClusterResults(record["TrajClus"].fields).value
  {
    var head :- ReadTrajectory(record);
    if "TrajClus" !in head.analysesDone then Failure(ValueError(head.title + " does not have TrajClus analyses done"))
    else
      var clus :- CheckAndGetValueFull(record, "TrajClus", RecordT);
      var results :- ExtractClusterResults(clus.fields);
      Success(ReportInputs(head.title, head.ligand, head.trajSvg, results))
  }

  /** A record without a title is refused with the missing-field message before anything else is read. */
  lemma ExtractNoTitle(record: Record)
    requires !HasValue(record, TitleField)
    ensures Extract(record) == Failure(ValueError(MissingFieldMessage("Title_OPLMD")))
  {
  }

  /** A record whose trajectory analysis is not listed as done is refused, naming the title. */
  lemma ExtractNoTrajAnalysis(record: Record)
    requires HasValue(record, TitleField) && HasValue(record, LigandField)
    requires HasValue(record, Field("AnalysesDone", StringVecT)) && "OETraj" !in record["AnalysesDone"].strs
    ensures Extract(record) == Failure(ValueError(record["Title_OPLMD"].str + " does not have OETraj analyses done"))
  {
  }

  /** A record whose clustering is not listed as done is refused, naming the title. */
  lemma ExtractNoClustering(record: Record)
    requires HasValue(record, TitleField) && HasValue(record, LigandField)
    requires HasValue(record, Field("AnalysesDone", StringVecT)) && "OETraj" in record["AnalysesDone"].strs
    requires HasValue(record, Field("OETraj", RecordT)) && HasValue(record["OETraj"].fields, Field("TrajSVG", StringT))
    requires "TrajClus" !in record["AnalysesDone"].strs
    ensures Extract(record) == Failure(ValueError(record["Title_OPLMD"].str + " does not have TrajClus analyses done"))
  {
  }

  // ---------------------------------------------------------------------
  // The cluster summary
  // ---------------------------------------------------------------------

  /** A text line: it ends with its one newline. */
  predicate IsLine(l: string) {
    |l| > 0 && l[|l| - 1] == '\n' && forall j :: 0 <= j < |l| - 1 ==> l[j] != '\n'
  }

  /**
    A summary line made of a prefix, an integer's digits and a tail that
    ends the line, as `'prefix{}tail'.format(n)` builds it.
   */
  function NumberLine(prefix: string, n: int, tail: string): (r: string)
    requires forall j :: 0 <= j < |prefix| ==> prefix[j] != '\n'
    requires IsLine(tail)
    ensures StartsWith(r, prefix) && IsLine(r)
    ensures |prefix| + |tail| <= |r| && r[|prefix|..|r| - |tail|] == IntToString(n)
  {
    var r := prefix + IntToString(n) + tail;
    MiddleSlice(prefix, IntToString(n), tail);
    assert r[..|prefix|] == prefix;
    r
  }

  /** The number can be read back from its line when the tail starts with neither sign nor digit. */
  lemma NumberLineInjective(prefix: string, tail: string, n1: int, n2: int)
    requires forall j :: 0 <= j < |prefix| ==> prefix[j] != '\n'
    requires IsLine(tail) && !IsNumeral(tail[0])
    ensures NumberLine(prefix, n1, tail) == NumberLine(prefix, n2, tail) ==> n1 == n2
  {
    if NumberLine(prefix, n1, tail) == NumberLine(prefix, n2, tail) {
      ReadNumeral(prefix, IntToString(n1), tail, IntToString(n2), tail);
      IntToStringInjective(n1, n2);
    }
  }

  /** `'Clustering {} frames\n'.format(nFrames)`. */
  function FramesLine(nFrames: int): string {
    NumberLine("Clustering ", nFrames, " frames\n")
  }

  /** `'Cluster method {} with alpha {:.2f}\n'`, with the alpha already formatted: the method, then the alpha text. */
  function MethodLine(clusterMethod: string, alphaText: string): (r: string)
    ensures StartsWith(r, "Cluster method " + clusterMethod + " with alpha ") && r[|r| - 1] == '\n'
    ensures r[|"Cluster method " + clusterMethod + " with alpha "|..|r| - 1] == alphaText
  {
    var head := "Cluster method " + clusterMethod + " with alpha ";
    var r := head + alphaText + "\n";
    assert r[|head|..|r| - 1] == alphaText;
    r
  }

  /** `'produced {} clusters:\n'.format(nClusters)`. */
  function ProducedLine(nClusters: int): string {
    NumberLine("produced ", nClusters, " clusters:\n")
  }

  /** `'cluster {} contains {} frames\n'.format(i, count)`: the index's digits, then the count's. */
  function ClusterLine(i: int, count: int): (r: string)
    ensures StartsWith(r, "cluster ") && IsLine(r)
  {
    "cluster " + IntToString(i) + " contains " + IntToString(count) + " frames\n"
  }

  /** The cluster's line holds the index's digits after "cluster ", and the count's digits between " contains " and " frames\n". */
  lemma ClusterLineFields(i: int, count: int)
    ensures var r, a := ClusterLine(i, count), |"cluster "| + |IntToString(i)|;
      a + |" contains "| <= |r| - |" frames\n"|
      && r[|"cluster "|..a] == IntToString(i)
      && r[a + |" contains "|..|r| - |" frames\n"|] == IntToString(count)
  {
    var head := "cluster " + IntToString(i) + " contains ";
    ClusterLineParts(i, count);
    MiddleSlice("cluster ", IntToString(i), ClusterLineTail(count));
    MiddleSlice(head, IntToString(count), " frames\n");
    assert ClusterLine(i, count) == head + IntToString(count) + " frames\n";
  }

  /** What follows the cluster index in its line. */
  function ClusterLineTail(count: int): string {
    " contains " + IntToString(count) + " frames\n"
  }

  lemma ClusterLineParts(i: int, count: int)
    ensures ClusterLine(i, count) == "cluster " + IntToString(i) + ClusterLineTail(count)
    ensures ClusterLineTail(count)[0] == ' '
  {
  }

  /** The cluster index and its frame count can both be read back from the cluster's line. */
  lemma ClusterLineInjective(i1: int, c1: int, i2: int, c2: int)
    ensures ClusterLine(i1, c1) == ClusterLine(i2, c2) ==> i1 == i2 && c1 == c2
  {
    if ClusterLine(i1, c1) == ClusterLine(i2, c2) {
      ClusterLineParts(i1, c1);
      ClusterLineParts(i2, c2);
      ReadNumeral("cluster ", IntToString(i1), ClusterLineTail(c1), IntToString(i2), ClusterLineTail(c2));
      IntToStringInjective(i1, i2);
      ReadNumeral(" contains ", IntToString(c1), " frames\n", IntToString(c2), " frames\n");
      IntToStringInjective(c1, c2);
    }
  }

  /** One line per cluster count, in index order. */
  function ClusterLines(counts: seq<int>): (r: seq<string>)
    ensures |r| == |counts|
    ensures forall i :: 0 <= i < |counts| ==> r[i] == ClusterLine(i, counts[i])
  {
    seq(|counts|, i requires 0 <= i < |counts| => ClusterLine(i, counts[i]))
  }

  /** `analysis_txt`: the three header lines, then one line per cluster count, in index order. */
  function AnalysisLines(nFrames: int, clusterMethod: string, alphaText: string, nClusters: int, counts: seq<int>)
    : (lines: seq<string>)
    ensures |lines| == 3 + |counts|
    ensures lines[0] == FramesLine(nFrames) && lines[1] == MethodLine(clusterMethod, alphaText)
      && lines[2] == ProducedLine(nClusters)
    ensures forall i :: 0 <= i < |counts| ==> lines[3 + i] == ClusterLine(i, counts[i])
  {
    [FramesLine(nFrames), MethodLine(clusterMethod, alphaText), ProducedLine(nClusters)] + ClusterLines(counts)
  }

  /** The text of the summary: the three header lines, then the cluster lines joined. */
  lemma AnalysisText(nFrames: int, clusterMethod: string, alphaText: string, nClusters: int, counts: seq<int>)
    ensures Join(AnalysisLines(nFrames, clusterMethod, alphaText, nClusters, counts))
      == FramesLine(nFrames) + MethodLine(clusterMethod, alphaText) + ProducedLine(nClusters) + Join(ClusterLines(counts))
  {
    var header := [FramesLine(nFrames), MethodLine(clusterMethod, alphaText), ProducedLine(nClusters)];
    JoinAppend(header, ClusterLines(counts));
    JoinAppend([FramesLine(nFrames), MethodLine(clusterMethod, alphaText)], [ProducedLine(nClusters)]);
    JoinAppend([FramesLine(nFrames)], [MethodLine(clusterMethod, alphaText)]);
    assert header == [FramesLine(nFrames), MethodLine(clusterMethod, alphaText)] + [ProducedLine(nClusters)];
    assert [FramesLine(nFrames), MethodLine(clusterMethod, alphaText)] == [FramesLine(nFrames)] + [MethodLine(clusterMethod, alphaText)];
  }

  /** The loop of `analysis_txt` over the cluster counts. */
  method BuildClusterLines(counts: seq<int>) returns (body: seq<string>)
    ensures body == ClusterLines(counts)
  {
    body := [];
    var i := 0;
    while i < |counts|
      invariant 0 <= i <= |counts|
      invariant body == ClusterLines(counts[..i])
    {
      ClusterLinesSnoc(counts, i, ClusterLine(i, counts[i]));
      body := body + [ClusterLine(i, counts[i])];
      i := i + 1;
    }
    assert counts[..i] == counts;
  }

  /** The lines of the first `i + 1` counts extend those of the first `i` by one line. */
  lemma ClusterLinesSnoc(counts: seq<int>, i: nat, line: string)
    requires i < |counts| && line == ClusterLine(i, counts[i])
    ensures ClusterLines(counts[..i + 1]) == ClusterLines(counts[..i]) + [line]
  {
    var prefix := counts[..i + 1];
    assert prefix[..i] == counts[..i];
    assert prefix[i] == counts[i];
  }

  /** `analysis_txt` as `process` builds it, line by line. */
  method BuildAnalysisText(nFrames: int, clusterMethod: string, alphaText: string, nClusters: int, counts: seq<int>)
    returns (lines: seq<string>)
    ensures lines == AnalysisLines(nFrames, clusterMethod, alphaText, nClusters, counts)
  {
    var body := BuildClusterLines(counts);
    lines := [FramesLine(nFrames), MethodLine(clusterMethod, alphaText), ProducedLine(nClusters)] + body;
  }

  // ---------------------------------------------------------------------
  // The cube
  // ---------------------------------------------------------------------

  /** The parts of the report page built from the record; the ligand depiction is not part of this model. */
  datatype ReportPage = ReportPage(rmsdHist: string, analysis: string, clusters: string, traj: string, rmsdInit: string)

  /** The page the template is filled with. */
  function PageOf(inp: ReportInputs, formatAlpha: real -> string): ReportPage {
    var c := inp.clusters;
    ReportPage(TrimSvg(c.histSvg), Join(AnalysisLines(c.nFrames, c.clusterMethod, formatAlpha(c.alpha), c.nClusters, c.clusterCounts)),
      TrimSvg(c.clusSvg), TrimSvg(inp.trajSvg), TrimSvg(c.rmsdInitSvg))
  }

  /**
    The page shows the four trimmed plots, and its analysis text is the
    frame count, the method, the cluster count and one line per cluster,
    in that order.
   */
  lemma PageContents(inp: ReportInputs, formatAlpha: real -> string)
    ensures var page := PageOf(inp, formatAlpha); var c := inp.clusters;
      page.rmsdHist == TrimSvg(c.histSvg) && page.clusters == TrimSvg(c.clusSvg)
      && page.traj == TrimSvg(inp.trajSvg) && page.rmsdInit == TrimSvg(c.rmsdInitSvg)
      && page.analysis == FramesLine(c.nFrames) + MethodLine(c.clusterMethod, formatAlpha(c.alpha))
           + ProducedLine(c.nClusters) + Join(ClusterLines(c.clusterCounts))
  {
    var c := inp.clusters;
    AnalysisText(c.nFrames, c.clusterMethod, formatAlpha(c.alpha), c.nClusters, c.clusterCounts);
  }

  /** Fills the page: the summary lines are built one cluster at a time. */
  method RenderPage(inp: ReportInputs, formatAlpha: real -> string) returns (page: ReportPage)
    ensures page == PageOf(inp, formatAlpha)
  {
    var c := inp.clusters;
    var lines := BuildAnalysisText(c.nFrames, c.clusterMethod, formatAlpha(c.alpha), c.nClusters, c.clusterCounts);
    page := ReportPage(TrimSvg(c.histSvg), Join(lines), TrimSvg(c.clusSvg), TrimSvg(inp.trajSvg), TrimSvg(c.rmsdInitSvg));
  }

  /**
    What the calls outside the model do: `rendered` when depicting the ligand
    and appending to the report file complete, `uploaded` when the upload
    and tagging in Orion complete (or the cube does not run in Orion).
   */
  datatype Environment = Environment(rendered: bool, uploaded: bool)

  class ClusterReportCube {
    var successPort: seq<Record>
    var failurePort: seq<Record>
    /** The pages appended to `md_clus_report.html`. */
    var reportFile: seq<ReportPage>

    constructor ()
      ensures successPort == [] && failurePort == [] && reportFile == []
    {
      successPort := [];
      failurePort := [];
      reportFile := [];
    }

    /**
      The part of `process` after the page has been filled: append it to
      the report, upload it; the record leaves on the success port only
      when both complete.
     */
    method Publish(record: Record, page: ReportPage, env: Environment)
      modifies this
      ensures var ok := env.rendered && env.uploaded;
        successPort == old(successPort) + (if ok then [record] else [])
        && failurePort == old(failurePort) + (if ok then [] else [record])
      ensures env.rendered ==> reportFile == old(reportFile) + [page]
      ensures !env.rendered ==> reportFile == old(reportFile)
    {
      if !env.rendered {
        failurePort := failurePort + [record];
        return;
      }
      reportFile := reportFile + [page];
      if !env.uploaded {
        failurePort := failurePort + [record];
        return;
      }
      successPort := successPort + [record];
    }

    /**
      `process(record, port)`: a record whose analyses can be read, and
      whose report is rendered and uploaded, leaves on the success port;
      any error raised on the way sends it to the failure port instead.
      The page is appended once rendering completes, even if the upload
      then fails.
     */
    method Process(record: Record, formatAlpha: real -> string, env: Environment)
      modifies this
      ensures var ok := ReportReady(record) && env.rendered && env.uploaded;
        successPort == old(successPort) + (if ok then [record] else [])
        && failurePort == old(failurePort) + (if ok then [] else [record])
      ensures ReportReady(record) && env.rendered ==>
        reportFile == old(reportFile) + [PageOf(Extract(record).value, formatAlpha)]
      ensures !(ReportReady(record) && env.rendered) ==> reportFile == old(reportFile)
    {
      var extracted := Extract(record);
      if extracted.Failure? {
        failurePort := failurePort + [record];
        return;
      }
      var page := RenderPage(extracted.value, formatAlpha);
      Publish(record, page, env);
    }
  }

  // ---------------------------------------------------------------------
  // The record of the unit test
  // ---------------------------------------------------------------------

  /** `record.set_value(field, v)` */
  function SetValue(record: Record, f: Field, v: Value): (r: Record)
    requires TypeOf(v) == f.ftype
    ensures HasValue(r, f) && r[f.name] == v
    ensures forall name :: name in record && name != f.name ==> name in r && r[name] == record[name]
  {
    record[f.name := v]
  }

  /** A value set on a record is what the checked lookup returns for that field afterwards. */
  lemma GetAfterSet(record: Record, f: Field, v: Value, other: Field)
    requires TypeOf(v) == f.ftype
    ensures CheckAndGetValue(SetValue(record, f, v), f) == Success(v)
    ensures other.name != f.name ==> CheckAndGetValue(SetValue(record, f, v), other) == CheckAndGetValue(record, other)
  {
    var r := SetValue(record, f, v);
    if other.name != f.name {
      assert other.name in r <==> other.name in record;
    }
  }

  /** The clustering sub-record `build_traj_record` assembles, with its SVG file contents as parameters. */
  function TestClusterRecord(histSvg: string, clusSvg: string, initSvg: string): Record {
    map["HistSVG" := StringV(histSvg), "ClusSVG" := StringV(clusSvg), "rmsdInitPose" := StringV(initSvg),
        "nFrames" := IntV(1), "HDBSCAN_alpha" := FloatV(1.0), "ClusterMethod" := StringV("method"),
        "nClusters" := IntV(3), "ClusterCounts" := IntVecV([1, 2, 3])]
  }

  /** The record `build_traj_record` assembles, with the contents of its four SVG files as parameters. */
  function TestRecord(trajSvg: string, histSvg: string, clusSvg: string, initSvg: string): Record {
    map["AnalysesDone" := StringVecV(["OETraj", "TrajClus"]), "OETraj" := RecordV(map["TrajSVG" := StringV(trajSvg)]),
        "TrajClus" := RecordV(TestClusterRecord(histSvg, clusSvg, initSvg)), "Title_OPLMD" := StringV("Title"),
        "Ligand_OPLMD" := MolV("c1ccccc1")]
  }

  /** The unit test's clustering sub-record holds every field the report reads. */
  lemma TestClusterReady(histSvg: string, clusSvg: string, initSvg: string)
    ensures ClusterResultsReady(TestClusterRecord(histSvg, clusSvg, initSvg))
  {
  }

  /** The unit test's clustering results can be read: one frame, three clusters of 1, 2 and 3 frames. */
  lemma TestClusterResults(histSvg: string, clusSvg: string, initSvg: string)
    ensures var r := ExtractClusterResults(TestClusterRecord(histSvg, clusSvg, initSvg));
      r.Success? && r.value.nFrames == 1 && r.value.nClusters == 3 && r.value.clusterCounts == [1, 2, 3]
  {
    TestClusterReady(histSvg, clusSvg, initSvg);
  }

  /** The unit test's record holds the title, the ligand and the trajectory analysis. */
  lemma TestTrajectoryReady(trajSvg: string, histSvg: string, clusSvg: string, initSvg: string)
    ensures TrajectoryReady(TestRecord(trajSvg, histSvg, clusSvg, initSvg))
    ensures "TrajClus" in TestRecord(trajSvg, histSvg, clusSvg, initSvg)["AnalysesDone"].strs
    ensures TestRecord(trajSvg, histSvg, clusSvg, initSvg)["TrajClus"] == RecordV(TestClusterRecord(histSvg, clusSvg, initSvg))
  {
  }

  /** The unit test's record can be read, so with rendering and upload completing it leaves on the success port. */
  lemma TestRecordReady(trajSvg: string, histSvg: string, clusSvg: string, initSvg: string)
    ensures ReportReady(TestRecord(trajSvg, histSvg, clusSvg, initSvg))
  {
    TestTrajectoryReady(trajSvg, histSvg, clusSvg, initSvg);
    TestClusterResults(histSvg, clusSvg, initSvg);
  }

  /** The line for the unit test's third cluster. */
  lemma TestClusterLine()
    ensures ClusterLine(2, 3) == "cluster 2 contains 3 frames\n"
  {
    assert NatToString(2) == "2" && NatToString(3) == "3";
    assert IntToString(2) == "2" && IntToString(3) == "3";
  }
}
