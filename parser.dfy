/** The two irvsp report parsers, `IRVSPOutput` and `IRVSPOutputAll`
    (pytopomat/irvsp_caller.py:155-343 and 351-535): objects whose
    `_parse_stdout` reads a report and sets their attributes. The loops are
    written as in Python and proved to compute the scan of module Report. */
module Parser {
  import opened Wrappers
  import opened PyText
  import opened TrimLabels
  import opened Report

  /** The loop that finds the line after the first "*****"; None where
      there is no such line, so that `block_start` stays unbound. */
  method FindBlockStart(lines: seq<string>) returns (blockStart: Option<nat>)
    ensures blockStart.Some? <==> FirstMarked(lines).Some?
    ensures blockStart.Some? ==> blockStart.value == FirstMarked(lines).value + 1
  {
    for idx := 0 to |lines|
      invariant forall i :: 0 <= i < idx ==> !Contains(lines[i], BlockMarker)
    {
      if Contains(lines[idx], BlockMarker) {
        return Some(idx + 1);
      }
    }
    return None;
  }

  /** One more line of the scan is one more step. */
  lemma ScanUnfold(st: ScanState, lines: seq<string>, idx: nat, keying: Keying, nums: Numerals)
    requires Wf(st) && idx < |lines|
    ensures Scan(st, lines[idx..], keying, nums) ==
              match Step(st, lines[idx], keying, nums)
              case Failure(e) => Failure(e)
              case Success(next) => Scan(next, lines[idx + 1..], keying, nums)
  {
    assert lines[idx..][1..] == lines[idx + 1..];
  }

  /** A "k = " line (pytopomat/irvsp_caller.py:266-275); `Stop` is the
      `continue`. */
  method KPointLine(st: ScanState, line: string, keying: Keying, nums: Numerals) returns (flow: Flow)
    requires Wf(st)
    ensures flow == KPointStage(st, line, keying, nums)
  {
    if !StartsWith(line, KMarker) {
      return Go(st);
    }
    var kvec := KVector(line, nums);
    if kvec.None? {
      return Stop(st);
    }
    var trimLabel: string;
    match keying {
      case ByLabel(trim) =>
        if kvec.value !in trim {
          return Stop(st);
        }
        trimLabel := trim[kvec.value];
      case ByVector =>
        trimLabel := nums.show(kvec.value);
    }
    flow := Go(st.(trimLabel := Some(trimLabel), kptWanted := true));
  }

  /** The point-group line and the character-table rows
      (pytopomat/irvsp_caller.py:277-283). */
  method PointGroupLines(st: ScanState, line: string) returns (r: Result<ScanState, ParseError>)
    requires Wf(st)
    ensures r == TableStage(PointGroupStage(st, line), line)
  {
    var pointGroup, table, tables := st.pointGroup, st.table, st.tables;
    if Contains(line, PointGroupMarker) && st.kptWanted {
      SplitSpec(line, PointGroupMarker);
      pointGroup := Some(Strip(Split(line, PointGroupMarker)[1]));
      table := Some(|tables|);
      tables := tables + [[]];
    }
    if Contains(line, IdentityMarker) && st.kptWanted {
      if table.None? {
        return Failure(Unbound("pg_character_table"));
      }
      tables := tables[table.value := tables[table.value] + [Strip(line)]];
    }
    if Contains(line, ClassMarker) && st.kptWanted {
      if table.None? {
        return Failure(Unbound("pg_character_table"));
      }
      tables := tables[table.value := tables[table.value] + [Strip(line)]];
    }
    r := Success(st.(pointGroup := pointGroup, table := table, tables := tables));
  }

  /** The band header and trace lines (pytopomat/irvsp_caller.py:286-321);
      `Stop` is the `continue`. */
  method TraceLines(st: ScanState, line: string, nums: Numerals) returns (r: Result<Flow, ParseError>)
    requires Wf(st)
    ensures r == (var s :- BandHeaderStage(st, line); TraceStage(s, line, nums))
  {
    var traceStart, block := st.traceStart, st.block;
    if Contains(line, BandHeaderMarker) && st.kptWanted {
      traceStart := true;
      block := Some(EmptyBlock);
      if "E" !in Tokens(line) {
        return Failure(NoIdentityColumn);
      }
    }
    var s := st.(traceStart := traceStart, block := block);
    if st.kptWanted && traceStart && Contains(line, "0") {
      var head := FirstWord(line);
      if head.None? || nums.parseInt(head.value).None? {
        return Success(Stop(s));
      }
      if TraceComplete(line) {
        var bnd := nums.parseInt(Strip(Slice(line, 0, 3)));
        if bnd.None? {
          return Failure(BadTraceNumber);
        }
        var ndg := nums.parseInt(Strip(Slice(line, 3, 6)));
        if ndg.None? {
          return Failure(BadTraceNumber);
        }
        var ev := nums.parseFloat(Strip(Slice(line, 6, 16)));
        if ev.None? {
          return Failure(BadTraceNumber);
        }
        var irs := Split(line, "=")[1];
        var b := block.value;
        block := Some(Block(b.bandIndex + [bnd.value], b.bandDegeneracy + [ndg.value],
                            b.bandEigenval + [ev.value], b.irreducibleReps + [irs]));
      }
    }
    r := Success(Go(s.(block := block)));
  }

  /** The end of a block (pytopomat/irvsp_caller.py:323-341). */
  method EndLine(st: ScanState, line: string) returns (r: Result<ScanState, ParseError>)
    requires Wf(st)
    ensures r == EndStage(st, line)
  {
    if !Contains(line, BlockMarker) {
      return Success(st);
    }
    if st.block.None? {
      return Failure(Unbound("bnds"));
    }
    if st.pointGroup.None? {
      return Failure(Unbound("point_gp_at_k"));
    }
    if st.table.None? {
      return Failure(Unbound("pg_character_table"));
    }
    if st.trimLabel.None? {
      return Failure(Unbound("trim_label"));
    }
    var kvecData := Stored(st.block.value, st.pointGroup.value, st.table.value);
    var key := st.trimLabel.value;
    var store := st.store;
    match store {
      case Plain(m) =>
        store := Plain(m[key := kvecData]);
      case Spin(m) =>
        if key in m {
          store := Spin(m[key := m[key].(down := Some(kvecData))]);
        } else {
          store := Spin(m[key := Slots(kvecData, None)]);
        }
    }
    r := Success(st.(traceStart := false, store := store));
  }

  /** The loop over the lines after the first "*****". */
  method ScanBlocks(lines: seq<string>, keying: Keying, spinPolarized: bool, nums: Numerals)
    returns (result: Result<Store<Record>, ParseError>)
    ensures result == Finish(Scan(Initial(spinPolarized), lines, keying, nums))
  {
    var st := Initial(spinPolarized);
    for idx := 0 to |lines|
      invariant Wf(st)
      invariant Scan(Initial(spinPolarized), lines, keying, nums) == Scan(st, lines[idx..], keying, nums)
    {
      var line := lines[idx];
      ScanUnfold(st, lines, idx, keying, nums);
      var k := KPointLine(st, line, keying, nums);
      if k.Stop? {
        continue;
      }
      var tabled := PointGroupLines(k.state, line);
      if tabled.Failure? {
        return Failure(tabled.error);
      }
      var traced := TraceLines(tabled.value, line, nums);
      if traced.Failure? {
        return Failure(traced.error);
      }
      if traced.value.Stop? {
        st := traced.value.state;
        continue;
      }
      var ended := EndLine(traced.value.state, line);
      if ended.Failure? {
        return Failure(ended.error);
      }
      st := ended.value;
    }
    result := Success(Resolve(st));
  }

  /** From the search for the first "*****" to the end of the scan
      (pytopomat/irvsp_caller.py:256-341). */
  method ScanReport(lines: seq<string>, keying: Keying, spinPolarized: bool, nums: Numerals)
    returns (result: Result<Store<Record>, ParseError>)
    ensures result == ParseBlocks(lines, keying, spinPolarized, nums)
  {
    var blockStart := FindBlockStart(lines);
    if blockStart.None? {
      return Failure(Unbound("block_start"));
    }
    result := ScanBlocks(lines[blockStart.value..], keying, spinPolarized, nums);
  }

  /** The flags read from lines 8, 10 and 11 of the report, or the
      IndexError of a report with fewer than eleven lines. */
  method ReadFlags(lines: seq<string>) returns (h: Result<Header, ParseError>)
    ensures h == ReadHeader(lines)
  {
    if |lines| <= 10 {
      return Failure(MissingHeaderLine);
    }
    var symmLine := lines[7];
    var symm := true;
    if Contains(symmLine, "Non-symmorphic") {
      symm := false;
    }
    var inv := true;
    if Contains(symmLine, "without") {
      inv := false;
    }
    var socFlag := true;
    if Contains(lines[9], "No") {
      socFlag := false;
    }
    var sp := true;
    if Contains(lines[10], "No") {
      sp := false;
    }
    return Success(Header(symm, inv, socFlag, sp));
  }

  /** `IRVSPOutput`: the parsed header flags and records, by KPOINTS label. */
  class IrvspOutput {
    var symmorphic: Option<bool>
    var inversion: Option<bool>
    var soc: Option<bool>
    var spinPolarized: Option<bool>
    var parityEigenvals: Option<Store<Record>>
    var kpoints: Kpoints

    /** The four flag attributes hold the flags of `h`. */
    predicate HasHeader(h: Header)
      reads this
    {
      symmorphic == Some(h.symmorphic) && inversion == Some(h.inversion)
      && soc == Some(h.soc) && spinPolarized == Some(h.spinPolarized)
    }

    /** The attribute assignments of `__init__`, before it parses. */
    constructor (kpoints: Kpoints, symmorphic: Option<bool>, inversion: Option<bool>, soc: Option<bool>,
                 spinPolarized: Option<bool>, parityEigenvals: Option<Store<Record>>)
      ensures this.kpoints == kpoints && this.parityEigenvals == parityEigenvals
      ensures this.symmorphic == symmorphic && this.inversion == inversion
      ensures this.soc == soc && this.spinPolarized == spinPolarized
    {
      this.symmorphic := symmorphic;
      this.inversion := inversion;
      this.soc := soc;
      this.spinPolarized := spinPolarized;
      this.parityEigenvals := parityEigenvals;
      this.kpoints := kpoints;
    }

    /** `_parse_stdout`: the header flags are set as soon as the header has
        been read, `parity_eigenvals` only when the whole report parses; the
        exception raised, if any, is returned. */
    method ParseStdout(output: Option<seq<string>>, kpoints: Kpoints, nums: Numerals) returns (raised: Option<ParseError>)
      modifies this
      ensures raised.None? <==> ParseLabelled(output, kpoints, nums).Success?
      ensures raised.Some? ==> raised.value == ParseLabelled(output, kpoints, nums).error
      ensures raised.None? ==> parityEigenvals == Some(ParseLabelled(output, kpoints, nums).value)
      ensures raised.Some? ==> parityEigenvals == old(parityEigenvals)
      ensures HeaderOf(output).Some? ==> HasHeader(HeaderOf(output).value)
      ensures HeaderOf(output).None? ==> symmorphic == old(symmorphic) && inversion == old(inversion)
                                         && soc == old(soc) && spinPolarized == old(spinPolarized)
      ensures this.kpoints == old(this.kpoints)
    {
      if output.None? {
        return Some(FileNotFound);
      }
      var lines := output.value;
      var header := ReadFlags(lines);
      if header.Failure? {
        return Some(header.error);
      }
      var h := header.value;
      symmorphic, inversion, soc, spinPolarized := Some(h.symmorphic), Some(h.inversion), Some(h.soc), Some(h.spinPolarized);

      var trim := TrimDict(kpoints, nums.round3);
      if trim.Failure? {
        return Some(TrimFailure(trim.error));
      }
      var result := ScanReport(lines, ByLabel(trim.value), h.spinPolarized, nums);
      if result.Failure? {
        return Some(result.error);
      }
      parityEigenvals := Some(result.value);
      return None;
    }

    /** `IRVSPOutput(...)`: the object, or the exception its parse raised. */
    static method Create(output: Option<seq<string>>, kpoints: Kpoints, symmorphic: Option<bool>,
                         inversion: Option<bool>, soc: Option<bool>, spinPolarized: Option<bool>,
                         parityEigenvals: Option<Store<Record>>, nums: Numerals)
      returns (r: Result<IrvspOutput, ParseError>)
      ensures r.Failure? <==> ParseLabelled(output, kpoints, nums).Failure?
      ensures r.Failure? ==> r.error == ParseLabelled(output, kpoints, nums).error
      ensures r.Success? ==> fresh(r.value) && r.value.kpoints == kpoints
      ensures r.Success? ==> r.value.parityEigenvals == Some(ParseLabelled(output, kpoints, nums).value)
      ensures r.Success? ==> HeaderOf(output).Some? && r.value.HasHeader(HeaderOf(output).value)
    {
      var o := new IrvspOutput(kpoints, symmorphic, inversion, soc, spinPolarized, parityEigenvals);
      var raised := o.ParseStdout(output, kpoints, nums);
      if raised.Some? {
        return Failure(raised.value);
      }
      return Success(o);
    }
  }

  /** `IRVSPOutputAll`: the parsed header flags and records, keyed by the
      `str` of every k-vector of the report. */
  class IrvspOutputAll {
    var symmorphic: Option<bool>
    var inversion: Option<bool>
    var soc: Option<bool>
    var spinPolarized: Option<bool>
    var parityEigenvals: Option<Store<Record>>

    /** The four flag attributes hold the flags of `h`. */
    predicate HasHeader(h: Header)
      reads this
    {
      symmorphic == Some(h.symmorphic) && inversion == Some(h.inversion)
      && soc == Some(h.soc) && spinPolarized == Some(h.spinPolarized)
    }

    /** The attribute assignments of `__init__`, before it parses. */
    constructor (symmorphic: Option<bool>, inversion: Option<bool>, soc: Option<bool>,
                 spinPolarized: Option<bool>, parityEigenvals: Option<Store<Record>>)
      ensures this.parityEigenvals == parityEigenvals
      ensures this.symmorphic == symmorphic && this.inversion == inversion
      ensures this.soc == soc && this.spinPolarized == spinPolarized
    {
      this.symmorphic := symmorphic;
      this.inversion := inversion;
      this.soc := soc;
      this.spinPolarized := spinPolarized;
      this.parityEigenvals := parityEigenvals;
    }

    /** `_parse_stdout`, as for `IRVSPOutput` but without a label map. */
    method ParseStdout(output: Option<seq<string>>, nums: Numerals) returns (raised: Option<ParseError>)
      modifies this
      ensures raised.None? <==> ParseAll(output, nums).Success?
      ensures raised.Some? ==> raised.value == ParseAll(output, nums).error
      ensures raised.None? ==> parityEigenvals == Some(ParseAll(output, nums).value)
      ensures raised.Some? ==> parityEigenvals == old(parityEigenvals)
      ensures HeaderOf(output).Some? ==> HasHeader(HeaderOf(output).value)
      ensures HeaderOf(output).None? ==> symmorphic == old(symmorphic) && inversion == old(inversion)
                                         && soc == old(soc) && spinPolarized == old(spinPolarized)
    {
      if output.None? {
        return Some(FileNotFound);
      }
      var lines := output.value;
      var header := ReadFlags(lines);
      if header.Failure? {
        return Some(header.error);
      }
      var h := header.value;
      symmorphic, inversion, soc, spinPolarized := Some(h.symmorphic), Some(h.inversion), Some(h.soc), Some(h.spinPolarized);

      var result := ScanReport(lines, ByVector, h.spinPolarized, nums);
      if result.Failure? {
        return Some(result.error);
      }
      parityEigenvals := Some(result.value);
      return None;
    }

    /** `IRVSPOutputAll(...)`: the object, or the exception its parse raised. */
    static method Create(output: Option<seq<string>>, symmorphic: Option<bool>, inversion: Option<bool>,
                         soc: Option<bool>, spinPolarized: Option<bool>,
                         parityEigenvals: Option<Store<Record>>, nums: Numerals)
      returns (r: Result<IrvspOutputAll, ParseError>)
      ensures r.Failure? <==> ParseAll(output, nums).Failure?
      ensures r.Failure? ==> r.error == ParseAll(output, nums).error
      ensures r.Success? ==> fresh(r.value)
      ensures r.Success? ==> r.value.parityEigenvals == Some(ParseAll(output, nums).value)
      ensures r.Success? ==> HeaderOf(output).Some? && r.value.HasHeader(HeaderOf(output).value)
    {
      var o := new IrvspOutputAll(symmorphic, inversion, soc, spinPolarized, parityEigenvals);
      var raised := o.ParseStdout(output, nums);
      if raised.Some? {
        return Failure(raised.value);
      }
      return Success(o);
    }
  }
}
