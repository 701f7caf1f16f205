/** `IRVSPCaller.modify_outcar` (pytopomat/irvsp_caller.py:119-148): a
    single pass over the lines of OUTCAR that drops the space-group
    operations listed after the "irot" line and writes the identity and the
    inversion in their place, so that irvsp computes inversion eigenvalues
    only. The lines written to the temporary file are the result. */
module Outcar {
  import opened Wrappers
  import opened PyText

  /** The identity operation, as OUTCAR lists it. */
  const IdentityOp: string := "    1     1.000000     0.000000     1.000000     0.000000     0.000000     0.000000     0.000000     0.000000\n"

  /** The inversion operation, as OUTCAR lists it. */
  const InversionOp: string := "    2    -1.000000     0.000000     1.000000     0.000000     0.000000     0.000000     0.000000     0.000000\n"

  /** What is written in place of the dropped operations. */
  const Replacement: seq<string> := [IdentityOp, InversionOp, "\n"]

  /** The exception `modify_outcar` raises. */
  datatype OutcarError =
    | FileNotFound      // there is no OUTCAR
    | ShortInisymLine   // IndexError: an INISYM line with fewer than five words
    | BadOpCount        // ValueError: its fifth word is not an int

  /** `list(range(lo, hi))`. */
  function Range(lo: int, hi: int): (r: seq<int>)
    ensures forall x :: x in r <==> lo <= x < hi
    decreases hi - lo
  {
    if lo >= hi then [] else [lo] + Range(lo + 1, hi)
  }

  /** `int(line_list[4])` for the words of an INISYM line. */
  function OpCount(line: string, parseInt: string -> Option<int>): Result<int, OutcarError>
  {
    var words := Tokens(line);
    if |words| < 5 then Failure(ShortInisymLine)
    else
      match parseInt(words[4])
      case None => Failure(BadOpCount)
      case Some(n) => Success(n)
  }

  /** The loop's variables: `irot_start`, `num_ops`, `sgo_lines` and the
      lines written so far. */
  datatype Rewrite = Rewrite(irotStart: int, numOps: int, sgoLines: seq<int>, out: seq<string>)

  /** The writes of an iteration once its variables are set: `rep` when
      `idx == irot_start + num_ops`, then the line itself unless its index is
      in `sgo_lines`. */
  function Emit(s: Rewrite, idx: int, line: string, rep: seq<string>): Rewrite
  {
    var out := if idx == s.irotStart + s.numOps then s.out + rep else s.out;
    s.(out := if idx in s.sgoLines then out else out + [line])
  }

  /** One iteration of the loop, for the line at index `idx`; `rep` stands
      for the lines written in place of the operations (Replacement), so
      that the proofs about the loop do not depend on their text. */
  function RewriteLine(s: Rewrite, idx: int, line: string, rep: seq<string>, parseInt: string -> Option<int>): Result<Rewrite, OutcarError>
  {
    var numOps :- if Contains(line, "INISYM") then OpCount(line, parseInt) else Success(s.numOps);
    var irotStart := if Contains(line, "irot") then idx else s.irotStart;
    var sgoLines := if Contains(line, "irot") then Range(idx + 1, idx + numOps + 1) else s.sgoLines;
    Success(Emit(Rewrite(irotStart, numOps, sgoLines, s.out), idx, line, rep))
  }

  /** An iteration of the loop: the variables before it, the index and the
      line in, the variables after it or the exception out. */
  type Iteration = (Rewrite, int, string) -> Result<Rewrite, OutcarError>

  /** The iteration `modify_outcar` performs. */
  function Step(rep: seq<string>, parseInt: string -> Option<int>): Iteration
  {
    (s, idx, line) => RewriteLine(s, idx, line, rep, parseInt)
  }

  /** `for idx, line in enumerate(lines)` over the first `k` lines, from
      `irot_start = num_ops = -1`, `sgo_lines = []` and nothing written, up to
      the first iteration that raises. */
  function Loop(lines: seq<string>, k: nat, step: Iteration): Result<Rewrite, OutcarError>
    requires k <= |lines|
  {
    if k == 0 then Success(Rewrite(-1, -1, [], []))
    else
      var s :- Loop(lines, k - 1, step);
      step(s, k - 1, lines[k - 1])
  }

  /** The lines the loop writes over all of `lines`. */
  function Rewritten(lines: seq<string>, rep: seq<string>, parseInt: string -> Option<int>): Result<seq<string>, OutcarError>
  {
    var s :- Loop(lines, |lines|, Step(rep, parseInt));
    Success(s.out)
  }

  /** The lines `modify_outcar` writes, given OUTCAR's lines (None when
      there is no OUTCAR). */
  function ModifiedOutcar(outcar: Option<seq<string>>, parseInt: string -> Option<int>): Result<seq<string>, OutcarError>
  {
    if outcar.None? then Failure(FileNotFound) else Rewritten(outcar.value, Replacement, parseInt)
  }

  lemma LoopStep(lines: seq<string>, k: nat, step: Iteration)
    requires k < |lines| && Loop(lines, k, step).Success?
    ensures Loop(lines, k + 1, step) == step(Loop(lines, k, step).value, k, lines[k])
  {
  }

  /** Once an iteration has raised, the loop's result is that exception. */
  lemma {:induction false} FailurePersists(lines: seq<string>, k: nat, m: nat, step: Iteration)
    requires k <= m <= |lines| && Loop(lines, k, step).Failure?
    ensures Loop(lines, m, step) == Loop(lines, k, step)
    decreases m - k
  {
    if k < m {
      FailurePersists(lines, k, m - 1, step);
    }
  }

  /** The body of the loop of `modify_outcar`, for the line at `idx`. */
  method RewriteStep(s: Rewrite, idx: int, line: string, rep: seq<string>, parseInt: string -> Option<int>)
    returns (r: Result<Rewrite, OutcarError>)
    ensures r == RewriteLine(s, idx, line, rep, parseInt)
  {
    var irotStart, numOps, sgoLines, output := s.irotStart, s.numOps, s.sgoLines, s.out;
    if Contains(line, "INISYM") {
      match OpCount(line, parseInt)
      case Failure(e) =>
        return Failure(e);
      case Success(n) =>
        numOps := n;
    }
    if Contains(line, "irot") {
      irotStart := idx;
      sgoLines := Range(idx + 1, idx + numOps + 1);
    }
    if idx == irotStart + numOps {
      output := output + rep;
    }
    if idx !in sgoLines {
      output := output + [line];
    }
    return Success(Rewrite(irotStart, numOps, sgoLines, output));
  }

  /** The loop of `modify_outcar` over the lines of OUTCAR, writing `rep` in
      place of the operations. */
  method RewriteLines(lines: seq<string>, rep: seq<string>, parseInt: string -> Option<int>)
    returns (written: Result<seq<string>, OutcarError>)
    ensures written == Rewritten(lines, rep, parseInt)
  {
    var st := Rewrite(-1, -1, [], []);
    for idx := 0 to |lines|
      invariant Loop(lines, idx, Step(rep, parseInt)) == Success(st)
    {
      LoopStep(lines, idx, Step(rep, parseInt));
      var next := RewriteStep(st, idx, lines[idx], rep, parseInt);
      match next
      case Failure(e) =>
        FailurePersists(lines, idx + 1, |lines|, Step(rep, parseInt));
        return Failure(e);
      case Success(s) =>
        st := s;
    }
    written := Success(st.out);
  }

  /** `modify_outcar`, its writes collected in order. */
  method ModifyOutcar(outcar: Option<seq<string>>, parseInt: string -> Option<int>)
    returns (written: Result<seq<string>, OutcarError>)
    ensures written == ModifiedOutcar(outcar, parseInt)
  {
    if outcar.None? {
      return Failure(FileNotFound);
    }
    written := RewriteLines(outcar.value, Replacement, parseInt);
  }

  /** An INISYM line whose operation count cannot be read. */
  predicate BadInisym(line: string, parseInt: string -> Option<int>)
  {
    Contains(line, "INISYM") && OpCount(line, parseInt).Failure?
  }

  /** Only an INISYM line can make an iteration raise, and a bad one does. */
  lemma RewriteLineFails(s: Rewrite, idx: int, line: string, rep: seq<string>, parseInt: string -> Option<int>)
    ensures RewriteLine(s, idx, line, rep, parseInt).Failure? <==> BadInisym(line, parseInt)
  {
  }

  /** One of the first `k` lines satisfies `p`. */
  predicate AnyOf(lines: seq<string>, k: nat, p: string -> bool)
    requires k <= |lines|
  {
    k > 0 && (AnyOf(lines, k - 1, p) || p(lines[k - 1]))
  }

  lemma {:induction false} AnyOfMeans(lines: seq<string>, k: nat, p: string -> bool)
    requires k <= |lines|
    ensures AnyOf(lines, k, p) <==> exists j :: 0 <= j < k && p(lines[j])
  {
    if k > 0 {
      AnyOfMeans(lines, k - 1, p);
    }
  }

  /** The loop raises exactly when one of its lines makes an iteration
      raise, if whether an iteration raises depends on its line alone. */
  lemma {:induction false} LoopFails(lines: seq<string>, k: nat, step: Iteration, bad: string -> bool)
    requires k <= |lines|
    requires forall s, i, line :: step(s, i, line).Failure? <==> bad(line)
    ensures Loop(lines, k, step).Failure? <==> AnyOf(lines, k, bad)
  {
    if k > 0 {
      LoopFails(lines, k - 1, step, bad);
    }
  }

  /** BadInisym, as a predicate on lines. */
  function IsBad(parseInt: string -> Option<int>): string -> bool
  {
    line => BadInisym(line, parseInt)
  }

  /** The rewrite raises exactly when OUTCAR is missing or one of its INISYM
      lines has no fifth word or a fifth word that is not an int. */
  lemma ModifyOutcarFails(outcar: Option<seq<string>>, parseInt: string -> Option<int>)
    ensures ModifiedOutcar(outcar, parseInt).Failure? <==>
              outcar.None? || exists j :: 0 <= j < |outcar.value| && BadInisym(outcar.value[j], parseInt)
  {
    if outcar.Some? {
      var step := Step(Replacement, parseInt);
      forall s, i, line ensures step(s, i, line).Failure? <==> IsBad(parseInt)(line) {
        RewriteLineFails(s, i, line, Replacement, parseInt);
      }
      LoopFails(outcar.value, |outcar.value|, step, IsBad(parseInt));
      AnyOfMeans(outcar.value, |outcar.value|, IsBad(parseInt));
    }
  }

  /** The shape of OUTCAR the rewrite is meant for: one INISYM line at `a`
      announcing `n` operations, and after it one "irot" line at `r`
      followed by at least `n` lines. */
  ghost predicate OneTable(lines: seq<string>, a: nat, r: nat, n: int, parseInt: string -> Option<int>)
  {
    && a < r && n >= 1 && r + n < |lines|
    && Contains(lines[a], "INISYM") && OpCount(lines[a], parseInt) == Success(n)
    && (forall j :: 0 <= j < |lines| && j != a ==> !Contains(lines[j], "INISYM"))
    && Contains(lines[r], "irot")
    && (forall j :: 0 <= j < |lines| && j != r ==> !Contains(lines[j], "irot"))
  }

  /** What has been written after the first `k <= r` lines: the lines
      themselves, with `rep` also written before line `n - 1` when that line
      lies between the INISYM and the "irot" line, because `irot_start` is
      still -1 there. */
  function Before(lines: seq<string>, a: nat, r: nat, n: int, k: nat, rep: seq<string>): seq<string>
    requires k <= r < |lines|
  {
    if a <= n - 1 < k then lines[..n - 1] + rep + lines[n - 1..k] else lines[..k]
  }

  /** The loop's variables after the first `k` lines of a OneTable OUTCAR. */
  function Expected(lines: seq<string>, a: nat, r: nat, n: int, k: nat, rep: seq<string>): Rewrite
    requires a < r && n >= 1 && r + n < |lines| && k <= |lines|
  {
    if k <= a then Rewrite(-1, -1, [], lines[..k])
    else if k <= r then Rewrite(-1, n, [], Before(lines, a, r, n, k, rep))
    else if k <= r + n then Rewrite(r, n, Range(r + 1, r + n + 1), Before(lines, a, r, n, r, rep) + [lines[r]])
    else Rewrite(r, n, Range(r + 1, r + n + 1), Before(lines, a, r, n, r, rep) + [lines[r]] + rep + lines[r + n + 1..k])
  }

  /** A line without INISYM and "irot" changes only the output. */
  lemma StepPlain(s: Rewrite, idx: int, line: string, rep: seq<string>, parseInt: string -> Option<int>)
    requires !Contains(line, "INISYM") && !Contains(line, "irot")
    ensures RewriteLine(s, idx, line, rep, parseInt) == Success(Emit(s, idx, line, rep))
  {
  }

  /** The INISYM line sets the operation count. */
  lemma StepInisym(s: Rewrite, idx: int, line: string, rep: seq<string>, n: int, parseInt: string -> Option<int>)
    requires Contains(line, "INISYM") && OpCount(line, parseInt) == Success(n) && !Contains(line, "irot")
    ensures RewriteLine(s, idx, line, rep, parseInt) == Success(Emit(s.(numOps := n), idx, line, rep))
  {
  }

  /** The "irot" line starts the operations after it. */
  lemma StepIrot(s: Rewrite, idx: int, line: string, rep: seq<string>, parseInt: string -> Option<int>)
    requires !Contains(line, "INISYM") && Contains(line, "irot")
    ensures RewriteLine(s, idx, line, rep, parseInt) ==
              Success(Emit(s.(irotStart := idx, sgoLines := Range(idx + 1, idx + s.numOps + 1)), idx, line, rep))
  {
  }

  /** Before the "irot" line, other than at the INISYM line. */
  lemma EmitBeforeIrot(lines: seq<string>, a: nat, r: nat, n: int, k: nat, rep: seq<string>)
    requires a < r && n >= 1 && r + n < |lines| && k < r && k != a
    ensures Emit(Expected(lines, a, r, n, k, rep), k, lines[k], rep) == Expected(lines, a, r, n, k + 1, rep)
  {
    var line := lines[k];
    var s := Expected(lines, a, r, n, k, rep);
    if k < a {
      assert lines[..k + 1] == lines[..k] + [line];
    } else if a <= n - 1 < k {
      assert lines[n - 1..k + 1] == lines[n - 1..k] + [line];
      assert s.out + [line] == lines[..n - 1] + rep + lines[n - 1..k + 1];
    } else if k == n - 1 {
      assert lines[n - 1..k + 1] == [line];
    } else {
      assert lines[..k + 1] == lines[..k] + [line];
    }
  }

  /** At the INISYM line. */
  lemma EmitAtInisym(lines: seq<string>, a: nat, r: nat, n: int, rep: seq<string>)
    requires a < r && n >= 1 && r + n < |lines|
    ensures Emit(Expected(lines, a, r, n, a, rep).(numOps := n), a, lines[a], rep) == Expected(lines, a, r, n, a + 1, rep)
  {
    var line := lines[a];
    if a == n - 1 {
      assert lines[n - 1..a + 1] == [line];
    } else {
      assert lines[..a + 1] == lines[..a] + [line];
    }
  }

  /** At the "irot" line. */
  lemma EmitAtIrot(lines: seq<string>, a: nat, r: nat, n: int, rep: seq<string>)
    requires a < r && n >= 1 && r + n < |lines|
    ensures var s := Expected(lines, a, r, n, r, rep);
            Emit(s.(irotStart := r, sgoLines := Range(r + 1, r + s.numOps + 1)), r, lines[r], rep) == Expected(lines, a, r, n, r + 1, rep)
  {
    var before := Before(lines, a, r, n, r, rep);
    assert Expected(lines, a, r, n, r, rep) == Rewrite(-1, n, [], before);
    assert Expected(lines, a, r, n, r + 1, rep) == Rewrite(r, n, Range(r + 1, r + n + 1), before + [lines[r]]);
    assert r !in Range(r + 1, r + n + 1);
  }

  /** After the "irot" line. */
  lemma EmitAfterIrot(lines: seq<string>, a: nat, r: nat, n: int, k: nat, rep: seq<string>)
    requires a < r && n >= 1 && r + n < |lines| && r < k < |lines|
    ensures Emit(Expected(lines, a, r, n, k, rep), k, lines[k], rep) == Expected(lines, a, r, n, k + 1, rep)
  {
    var line := lines[k];
    var s := Expected(lines, a, r, n, k, rep);
    if k > r + n {
      assert k !in s.sgoLines;
      var head := Before(lines, a, r, n, r, rep) + [lines[r]] + rep;
      assert lines[r + n + 1..k + 1] == lines[r + n + 1..k] + [line];
      assert s.out + [line] == head + lines[r + n + 1..k + 1];
    } else if k == r + n {
      assert k in s.sgoLines;
      assert lines[r + n + 1..k + 1] == [];
      assert s.out + rep == s.out + rep + lines[r + n + 1..k + 1];
    } else {
      assert k in s.sgoLines;
    }
  }

  lemma ExpectedStep(lines: seq<string>, a: nat, r: nat, n: int, k: nat, rep: seq<string>, parseInt: string -> Option<int>)
    requires OneTable(lines, a, r, n, parseInt) && k < |lines|
    ensures RewriteLine(Expected(lines, a, r, n, k, rep), k, lines[k], rep, parseInt) == Success(Expected(lines, a, r, n, k + 1, rep))
  {
    var s := Expected(lines, a, r, n, k, rep);
    if k == a {
      StepInisym(s, k, lines[k], rep, n, parseInt);
      EmitAtInisym(lines, a, r, n, rep);
    } else if k == r {
      StepIrot(s, k, lines[k], rep, parseInt);
      EmitAtIrot(lines, a, r, n, rep);
    } else {
      StepPlain(s, k, lines[k], rep, parseInt);
      if k < r {
        EmitBeforeIrot(lines, a, r, n, k, rep);
      } else {
        EmitAfterIrot(lines, a, r, n, k, rep);
      }
    }
  }

  lemma {:induction false} ExpectedPrefix(lines: seq<string>, a: nat, r: nat, n: int, k: nat, rep: seq<string>, parseInt: string -> Option<int>)
    requires OneTable(lines, a, r, n, parseInt) && k <= |lines|
    ensures Loop(lines, k, Step(rep, parseInt)) == Success(Expected(lines, a, r, n, k, rep))
  {
    if k > 0 {
      var step := Step(rep, parseInt);
      ExpectedPrefix(lines, a, r, n, k - 1, rep, parseInt);
      LoopStep(lines, k - 1, step);
      ExpectedStep(lines, a, r, n, k - 1, rep, parseInt);
      assert step(Expected(lines, a, r, n, k - 1, rep), k - 1, lines[k - 1])
          == RewriteLine(Expected(lines, a, r, n, k - 1, rep), k - 1, lines[k - 1], rep, parseInt);
    }
  }

  /** On a OneTable OUTCAR every line up to and including the "irot" line is
      copied in order, the `n` operation lines after it are replaced by the
      identity, the inversion and a blank line, and every later line is
      copied in order; the replacement is written a second time before line
      `n - 1` when that line lies between the INISYM and the "irot" line. */
  lemma ModifyOutcarOneTable(lines: seq<string>, a: nat, r: nat, n: int, parseInt: string -> Option<int>)
    requires OneTable(lines, a, r, n, parseInt)
    ensures ModifiedOutcar(Some(lines), parseInt) ==
              Success(Before(lines, a, r, n, r, Replacement) + [lines[r]] + Replacement + lines[r + n + 1..])
  {
    ExpectedPrefix(lines, a, r, n, |lines|, Replacement, parseInt);
    assert lines[r + n + 1..|lines|] == lines[r + n + 1..];
  }

  /** Where line `n - 1` comes before the INISYM line, as in an OUTCAR whose
      header is longer than its list of operations, the output is the input
      with exactly the `n` lines after "irot" replaced. */
  lemma ModifyOutcarReplaces(lines: seq<string>, a: nat, r: nat, n: int, parseInt: string -> Option<int>)
    requires OneTable(lines, a, r, n, parseInt) && n - 1 < a
    ensures ModifiedOutcar(Some(lines), parseInt) == Success(lines[..r + 1] + Replacement + lines[r + n + 1..])
  {
    ModifyOutcarOneTable(lines, a, r, n, parseInt);
    assert lines[..r] + [lines[r]] == lines[..r + 1];
  }
}
