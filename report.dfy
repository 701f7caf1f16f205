/** The scan of an irvsp report that `IRVSPOutput._parse_stdout` and
    `IRVSPOutputAll._parse_stdout` perform (pytopomat/irvsp_caller.py:190-343
    and 385-535), written as a state machine over the report's lines.

    The Python loop keeps its state in local variables, some of which are
    unbound until a particular kind of line has been seen; reading one of
    those before it is bound is a NameError. Here every such variable is an
    Option, and reading a None one yields `Failure(Unbound(name))`.

    `pg_character_table` is a list that a stored record shares with the
    scan: rows appended after the store still show up in the record. The
    state therefore keeps all character tables in `tables` and a record
    keeps an index into it; `Resolve` replaces the index by the table's
    final contents. The four band lists are never appended to once they
    are stored (a fresh set is bound before the next append), so a record
    keeps them by value. */
module Report {
  import opened Wrappers
  import opened PyText
  import opened TrimLabels

  /** Python's numeric conversions, left abstract: `int(s)` and `float(s)`
      (None where Python raises ValueError), `round(x, 3)` and the `str` of a
      tuple of floats. */
  datatype Numerals = Numerals(
    parseInt: string -> Option<int>,
    parseFloat: string -> Option<real>,
    round3: real -> real,
    show: seq<real> -> string)

  const KMarker: string := "k = "
  const PointGroupMarker: string := "The point group is"
  /** Nineteen spaces and "E": the header row of a character table. */
  const IdentityMarker: string := "                   E"
  /** Seven spaces and "G": a class row of a character table. */
  const ClassMarker: string := "       G"
  const BandHeaderMarker: string := "bnd ndg"
  const BlockMarker: string := "*****"

  /** The exception `_parse_stdout` raises. */
  datatype ParseError =
    | FileNotFound       // `open` of a missing report
    | MissingHeaderLine  // IndexError: the report has fewer than 11 lines
    | NoLabels           // TypeError: `zip` over the labels None of a KPOINTS without labels
    | BlankLabel         // KeyError: `trim_dict.pop(None)` for a label "" or " "
    | Unbound(name: string)  // NameError: a local read before it was bound
    | NoIdentityColumn   // ValueError: `symmops.index("E")` on a band header
    | BadTraceNumber     // ValueError: `int`/`float` of a trace-line column

  /** The four flags of the report's header. */
  datatype Header = Header(symmorphic: bool, inversion: bool, soc: bool, spinPolarized: bool)

  /** The header flags, read from the lines at indices 7, 9 and 10. */
  function ReadHeader(lines: seq<string>): Result<Header, ParseError>
  {
    if |lines| < 11 then Failure(MissingHeaderLine)
    else Success(Header(
      !Contains(lines[7], "Non-symmorphic"),
      !Contains(lines[7], "without"),
      !Contains(lines[9], "No"),
      !Contains(lines[10], "No")))
  }

  /** The header of a report that exists and has one. */
  function HeaderOf(output: Option<seq<string>>): Option<Header>
  {
    if output.Some? && ReadHeader(output.value).Success? then Some(ReadHeader(output.value).value) else None
  }

  /** `bnds`, `ndgs`, `bnd_evs` and `reps`. */
  datatype Block = Block(bandIndex: seq<int>, bandDegeneracy: seq<int>, bandEigenval: seq<real>, irreducibleReps: seq<string>)

  const EmptyBlock: Block := Block([], [], [], [])

  /** The four lists have one entry per accepted trace line. */
  predicate Aligned(b: Block)
  {
    |b.bandDegeneracy| == |b.bandIndex| && |b.bandEigenval| == |b.bandIndex| && |b.irreducibleReps| == |b.bandIndex|
  }

  /** A record as stored by the scan: its character table is a reference. */
  datatype Stored = Stored(block: Block, pointGroup: string, table: nat)

  /** `kvec_data`: the record of one k-point block. */
  datatype Record = Record(
    bandIndex: seq<int>,
    bandDegeneracy: seq<int>,
    bandEigenval: seq<real>,
    irreducibleReps: seq<string>,
    pointGroup: string,
    pgCharacterTable: seq<string>)

  /** `{"up": ..., "down": ...}` of a spin-polarised run; "down" may be absent. */
  datatype Slots<T> = Slots(up: T, down: Option<T>)

  /** `parity_eigenvals`: records by label, or slot pairs by label when the
      run is spin-polarised. */
  datatype Store<T> = Plain(plain: map<string, T>) | Spin(spin: map<string, Slots<T>>)

  /** Storing a record under a label. */
  function Put<T>(s: Store<T>, key: string, v: T): Store<T>
  {
    match s
    case Plain(m) => Plain(m[key := v])
    case Spin(m) =>
      if key in m then Spin(m[key := m[key].(down := Some(v))])
      else Spin(m[key := Slots(v, None)])
  }

  /** The loop's variables: the two flags, the bound-or-not locals, the
      character tables created so far and the records stored so far. */
  datatype ScanState = ScanState(
    kptWanted: bool,
    traceStart: bool,
    trimLabel: Option<string>,
    pointGroup: Option<string>,
    table: Option<nat>,
    tables: seq<seq<string>>,
    block: Option<Block>,
    store: Store<Stored>)

  /** The state when the scan starts; the store's kind follows the header's
      spin-polarisation flag. */
  function Initial(spinPolarized: bool): ScanState
  {
    ScanState(false, false, None, None, None, [], None, if spinPolarized then Spin(map[]) else Plain(map[]))
  }

  /** Every table reference of the store is below `n`. */
  predicate RefsBelow(s: Store<Stored>, n: nat)
  {
    match s
    case Plain(m) => forall k :: k in m ==> m[k].table < n
    case Spin(m) => forall k :: k in m ==> m[k].up.table < n && (m[k].down.Some? ==> m[k].down.value.table < n)
  }

  /** What holds of every state the scan reaches: references point into the
      tables, and `trace_start` is only set once the band lists are bound. */
  predicate Wf(st: ScanState)
  {
    && (st.table.Some? ==> st.table.value < |st.tables|)
    && (st.traceStart ==> st.block.Some?)
    && RefsBelow(st.store, |st.tables|)
  }

  /** How k-point lines select blocks: through the map from rounded point to
      label, or, in `IRVSPOutputAll`, by the `str` of every vector. */
  datatype Keying = ByLabel(trim: map<seq<real>, string>) | ByVector

  /** The state after part of a line, and whether the rest of the line is
      still examined (`Go`) or skipped by `continue` (`Stop`). */
  datatype Flow = Go(state: ScanState) | Stop(state: ScanState)

  /** `s[n:]` on a list. */
  function From<T>(s: seq<T>, n: nat): (r: seq<T>)
    ensures n <= |s| ==> r == s[n..]
    ensures n > |s| ==> r == []
  {
    if n <= |s| then s[n..] else []
  }

  /** `tuple([round(float(i), 3) for i in pieces])`, or None where a
      `float` raises. */
  function ParseVector(pieces: seq<string>, nums: Numerals): (r: Option<seq<real>>)
    ensures r.Some? <==> forall i :: 0 <= i < |pieces| ==> nums.parseFloat(pieces[i]).Some?
    ensures r.Some? ==> |r.value| == |pieces|
    ensures r.Some? ==> forall i :: 0 <= i < |pieces| ==> r.value[i] == nums.round3(nums.parseFloat(pieces[i]).value)
    decreases |pieces|
  {
    if pieces == [] then Some([])
    else
      var x :- nums.parseFloat(pieces[0]);
      var rest :- ParseVector(pieces[1..], nums);
      assert forall i :: 1 <= i < |pieces| ==> pieces[i] == pieces[1..][i - 1];
      Some([nums.round3(x)] + rest)
  }

  /** The vector of a "k = " line: the pieces after the first two of
      `line.split(" ")`. */
  function KVector(line: string, nums: Numerals): Option<seq<real>>
  {
    ParseVector(From(Split(line, " "), 2), nums)
  }

  /** A "k = " line: an unparsable vector, or one that has no label, ends the
      line's processing; otherwise the vector's label becomes current and
      blocks are wanted from now on. */
  function KPointStage(st: ScanState, line: string, keying: Keying, nums: Numerals): (r: Flow)
    requires Wf(st)
    ensures Wf(r.state)
  {
    if !StartsWith(line, KMarker) then Go(st)
    else
      match KVector(line, nums)
      case None => Stop(st)
      case Some(kvec) =>
        match keying
        case ByLabel(trim) =>
          if kvec in trim then Go(st.(trimLabel := Some(trim[kvec]), kptWanted := true)) else Stop(st)
        case ByVector => Go(st.(trimLabel := Some(nums.show(kvec)), kptWanted := true))
  }

  /** "The point group is" line: the stripped text after the marker becomes
      the point group, and a new, empty character table becomes current. */
  function PointGroupStage(st: ScanState, line: string): (r: ScanState)
    requires Wf(st)
    ensures Wf(r)
  {
    if Contains(line, PointGroupMarker) && st.kptWanted then
      SplitSpec(line, PointGroupMarker);
      st.(pointGroup := Some(Strip(Split(line, PointGroupMarker)[1])),
          table := Some(|st.tables|),
          tables := st.tables + [[]])
    else st
  }

  /** `pg_character_table.append(row)`. */
  function AppendRow(st: ScanState, row: string): (r: Result<ScanState, ParseError>)
    requires Wf(st)
    ensures r.Success? ==> Wf(r.value)
  {
    match st.table
    case None => Failure(Unbound("pg_character_table"))
    case Some(t) => Success(st.(tables := st.tables[t := st.tables[t] + [row]]))
  }

  /** Character-table rows: a line holding the identity marker, and then one
      holding the class marker, are each appended stripped. */
  function TableStage(st: ScanState, line: string): (r: Result<ScanState, ParseError>)
    requires Wf(st)
    ensures r.Success? ==> Wf(r.value)
  {
    var s1 :- if Contains(line, IdentityMarker) && st.kptWanted then AppendRow(st, Strip(line)) else Success(st);
    if Contains(line, ClassMarker) && s1.kptWanted then AppendRow(s1, Strip(line)) else Success(s1)
  }

  /** "bnd ndg" line: the trace block starts with empty band lists; the line
      must have "E" among its whitespace-separated tokens. */
  function BandHeaderStage(st: ScanState, line: string): (r: Result<ScanState, ParseError>)
    requires Wf(st)
    ensures r.Success? ==> Wf(r.value)
  {
    if Contains(line, BandHeaderMarker) && st.kptWanted then
      if "E" in Tokens(line) then Success(st.(traceStart := true, block := Some(EmptyBlock)))
      else Failure(NoIdentityColumn)
    else Success(st)
  }

  /** The first whitespace-separated word parses as an int. */
  predicate IntHead(line: string, nums: Numerals)
  {
    var w := FirstWord(line);
    w.Some? && nums.parseInt(w.value).Some?
  }

  /** The completeness test of a trace line: more than 30 characters from
      column 6 up to the first "=", and exactly two pieces around "=". */
  predicate TraceComplete(line: string)
  {
    |Split(Strip(Drop(line, 6)), "=")[0]| > 30 && |Split(line, "=")| == 2
  }

  /** A trace-line column that must parse. */
  function Column<T>(v: Option<T>): (r: Result<T, ParseError>)
    ensures r.Failure? <==> v.None?
    ensures r.Failure? ==> r.error == BadTraceNumber
    ensures r.Success? ==> r.value == v.value
  {
    match v
    case None => Failure(BadTraceNumber)
    case Some(x) => Success(x)
  }

  /** Append one entry to each band list. */
  function Push(b: Block, bnd: int, ndg: int, ev: real, irs: string): Block
  {
    Block(b.bandIndex + [bnd], b.bandDegeneracy + [ndg], b.bandEigenval + [ev], b.irreducibleReps + [irs])
  }

  /** Trace lines: while blocks are wanted and the trace block has started, a
      line with a "0" whose first word is not an int ends the line's
      processing; a complete one appends its band index (columns 0-3),
      degeneracy (3-6), eigenvalue (6-16) and the text after "=". */
  function TraceStage(st: ScanState, line: string, nums: Numerals): (r: Result<Flow, ParseError>)
    requires Wf(st)
    ensures r.Success? ==> Wf(r.value.state)
  {
    if !(st.kptWanted && st.traceStart && Contains(line, "0")) then Success(Go(st))
    else if !IntHead(line, nums) then Success(Stop(st))
    else if !TraceComplete(line) then Success(Go(st))
    else
      var bnd :- Column(nums.parseInt(Strip(Slice(line, 0, 3))));
      var ndg :- Column(nums.parseInt(Strip(Slice(line, 3, 6))));
      var ev :- Column(nums.parseFloat(Strip(Slice(line, 6, 16))));
      var irs := Split(line, "=")[1];
      Success(Go(st.(block := Some(Push(st.block.value, bnd, ndg, ev, irs)))))
  }

  /** "*****" line: the trace block ends and the current lists, point group
      and table are stored under the current label. */
  function EndStage(st: ScanState, line: string): (r: Result<ScanState, ParseError>)
    requires Wf(st)
    ensures r.Success? ==> Wf(r.value)
  {
    if !Contains(line, BlockMarker) then Success(st)
    else if st.block.None? then Failure(Unbound("bnds"))
    else if st.pointGroup.None? then Failure(Unbound("point_gp_at_k"))
    else if st.table.None? then Failure(Unbound("pg_character_table"))
    else if st.trimLabel.None? then Failure(Unbound("trim_label"))
    else
      var rec := Stored(st.block.value, st.pointGroup.value, st.table.value);
      Success(st.(traceStart := false, store := Put(st.store, st.trimLabel.value, rec)))
  }

  /** One iteration of the loop: the checks in the order the loop makes
      them, a `continue` skipping all later ones. */
  function Step(st: ScanState, line: string, keying: Keying, nums: Numerals): (r: Result<ScanState, ParseError>)
    requires Wf(st)
    ensures r.Success? ==> Wf(r.value)
  {
    match KPointStage(st, line, keying, nums)
    case Stop(s) => Success(s)
    case Go(s0) =>
      var s1 := PointGroupStage(s0, line);
      var s2 :- TableStage(s1, line);
      var s3 :- BandHeaderStage(s2, line);
      var t :- TraceStage(s3, line, nums);
      match t
      case Stop(s4) => Success(s4)
      case Go(s4) => EndStage(s4, line)
  }

  /** The loop over `lines`, from state `st`; the first exception ends it. */
  function Scan(st: ScanState, lines: seq<string>, keying: Keying, nums: Numerals): (r: Result<ScanState, ParseError>)
    requires Wf(st)
    ensures r.Success? ==> Wf(r.value)
    decreases |lines|
  {
    if lines == [] then Success(st)
    else
      var next :- Step(st, lines[0], keying, nums);
      Scan(next, lines[1..], keying, nums)
  }

  /** A stored record with its table's contents. */
  function Materialize(s: Stored, tables: seq<seq<string>>): Record
    requires s.table < |tables|
  {
    Record(s.block.bandIndex, s.block.bandDegeneracy, s.block.bandEigenval, s.block.irreducibleReps,
           s.pointGroup, tables[s.table])
  }

  /** `parity_eigenvals` as it is when the loop ends. */
  function Resolve(st: ScanState): Store<Record>
    requires Wf(st)
  {
    match st.store
    case Plain(m) => Plain(map k | k in m :: Materialize(m[k], st.tables))
    case Spin(m) =>
      Spin(map k | k in m ::
        Slots(Materialize(m[k].up, st.tables),
              if m[k].down.Some? then Some(Materialize(m[k].down.value, st.tables)) else None))
  }

  /** The store a finished scan leaves, or its exception. */
  function Finish(r: Result<ScanState, ParseError>): Result<Store<Record>, ParseError>
    requires r.Success? ==> Wf(r.value)
  {
    match r
    case Failure(e) => Failure(e)
    case Success(st) => Success(Resolve(st))
  }

  /** The index of the first line holding "*****". */
  function FirstMarked(lines: seq<string>): (r: Option<nat>)
    ensures r.Some? ==> r.value < |lines| && Contains(lines[r.value], BlockMarker)
    ensures r.Some? ==> forall i :: 0 <= i < r.value ==> !Contains(lines[i], BlockMarker)
    ensures r.None? ==> forall i :: 0 <= i < |lines| ==> !Contains(lines[i], BlockMarker)
    decreases |lines|
  {
    if lines == [] then None
    else if Contains(lines[0], BlockMarker) then Some(0)
    else
      var rest := FirstMarked(lines[1..]);
      assert forall i :: 1 <= i < |lines| ==> lines[i] == lines[1..][i - 1];
      match rest
      case None => None
      case Some(i) => Some(i + 1)
  }

  /** The blocks of a report: the scan of the lines after the first
      "*****"; with no such line, `block_start` is never bound. */
  function ParseBlocks(lines: seq<string>, keying: Keying, spinPolarized: bool, nums: Numerals): Result<Store<Record>, ParseError>
  {
    match FirstMarked(lines)
    case None => Failure(Unbound("block_start"))
    case Some(i) => Finish(Scan(Initial(spinPolarized), lines[i + 1..], keying, nums))
  }

  /** The exception building the label map raises. */
  function TrimFailure(e: TrimError): ParseError
  {
    match e
    case ZipOfNone => NoLabels
    case PopOfNone => BlankLabel
  }

  /** `IRVSPOutput._parse_stdout`: the report's records by KPOINTS label. */
  function ParseLabelled(output: Option<seq<string>>, kp: Kpoints, nums: Numerals): Result<Store<Record>, ParseError>
  {
    if output.None? then Failure(FileNotFound)
    else
      var h :- ReadHeader(output.value);
      var trim := TrimDict(kp, nums.round3);
      if trim.Failure? then Failure(TrimFailure(trim.error))
      else ParseBlocks(output.value, ByLabel(trim.value), h.spinPolarized, nums)
  }

  /** `IRVSPOutputAll._parse_stdout`: the report's records by the `str` of
      each k-vector. */
  function ParseAll(output: Option<seq<string>>, nums: Numerals): Result<Store<Record>, ParseError>
  {
    if output.None? then Failure(FileNotFound)
    else
      var h :- ReadHeader(output.value);
      ParseBlocks(output.value, ByVector, h.spinPolarized, nums)
  }
}
