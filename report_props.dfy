/** What the scan of an irvsp report guarantees: which "k = " lines select
    the blocks that follow, that selection is never withdrawn, which lines
    are trace lines, that the four band lists stay aligned, where a block is
    stored, and that nothing before the first "*****" matters. */
module ReportProps {
  import opened Wrappers
  import opened PyText
  import opened TrimLabels
  import opened Report

  /** A "k = " line whose vector parses and, when blocks are keyed by
      KPOINTS label, has a label. */
  predicate Selects(line: string, keying: Keying, nums: Numerals)
  {
    && StartsWith(line, KMarker)
    && KVector(line, nums).Some?
    && (keying.ByLabel? ==> KVector(line, nums).value in keying.trim)
  }

  /** The label a selecting line makes current. */
  function LabelOf(line: string, keying: Keying, nums: Numerals): string
    requires Selects(line, keying, nums)
  {
    match keying
    case ByLabel(trim) => trim[KVector(line, nums).value]
    case ByVector => nums.show(KVector(line, nums).value)
  }

  /** A "k = " line that does not select is skipped as a whole, even when it
      holds a marker that a later check would have acted on. */
  lemma SkippedKLine(st: ScanState, line: string, keying: Keying, nums: Numerals)
    requires Wf(st)
    requires StartsWith(line, KMarker) && !Selects(line, keying, nums)
    ensures Step(st, line, keying, nums) == Success(st)
  {
  }

  /** The band lists, where bound, have one entry per trace line. */
  predicate BlockAligned(st: ScanState)
  {
    st.block.Some? ==> Aligned(st.block.value)
  }

  /** What the stages before the end-of-block check never change: the
      selection flag, the current label and the store; and they keep the
      band lists aligned. */
  predicate Kept(before: ScanState, after: ScanState)
  {
    && after.kptWanted == before.kptWanted
    && after.trimLabel == before.trimLabel
    && after.store == before.store
    && (BlockAligned(before) ==> BlockAligned(after))
  }

  lemma TableStageKept(st: ScanState, line: string)
    requires Wf(st) && TableStage(st, line).Success?
    ensures Kept(st, TableStage(st, line).value)
  {
  }

  lemma TraceStageKept(st: ScanState, line: string, nums: Numerals)
    requires Wf(st) && TraceStage(st, line, nums).Success?
    ensures Kept(st, TraceStage(st, line, nums).value.state)
  {
    if st.kptWanted && st.traceStart && Contains(line, "0") && IntHead(line, nums) && TraceComplete(line) {
      var bnd := nums.parseInt(Strip(Slice(line, 0, 3))).value;
      var ndg := nums.parseInt(Strip(Slice(line, 3, 6))).value;
      var ev := nums.parseFloat(Strip(Slice(line, 6, 16))).value;
      var b := Push(st.block.value, bnd, ndg, ev, Split(line, "=")[1]);
      assert TraceStage(st, line, nums).value.state == st.(block := Some(b));
      if Aligned(st.block.value) {
        PushAligned(st.block.value, bnd, ndg, ev, Split(line, "=")[1]);
      }
    }
  }

  /** A line reaches the end-of-block check unless one of the loop's two
      `continue`s skips it: the one for a "k = " line that does not select,
      and the one for a line with a "0" whose first word is not an int while
      blocks are wanted and the trace block has started (counting what this
      line itself does to those two flags). */
  predicate Passes(st: ScanState, line: string, keying: Keying, nums: Numerals)
  {
    && !(StartsWith(line, KMarker) && !Selects(line, keying, nums))
    && !(&& (st.kptWanted || Selects(line, keying, nums))
         && (st.traceStart || Contains(line, BandHeaderMarker))
         && Contains(line, "0") && !IntHead(line, nums))
  }

  /** The k-point check skips the line exactly when it is a "k = " line that
      does not select; afterwards blocks are wanted when they were before or
      the line selects. */
  lemma KPointFlags(st: ScanState, line: string, keying: Keying, nums: Numerals)
    requires Wf(st)
    ensures KPointStage(st, line, keying, nums).Stop? <==> StartsWith(line, KMarker) && !Selects(line, keying, nums)
    ensures KPointStage(st, line, keying, nums).state.kptWanted == (st.kptWanted || Selects(line, keying, nums))
    ensures KPointStage(st, line, keying, nums).state.traceStart == st.traceStart
    ensures KPointStage(st, line, keying, nums).state ==
              if Selects(line, keying, nums)
              then st.(kptWanted := true, trimLabel := Some(LabelOf(line, keying, nums)))
              else st
  {
  }

  /** The point-group, table and band-header checks keep the selection
      flag; only a "bnd ndg" line of a wanted block starts the trace block. */
  lemma MiddleStagesFlags(st: ScanState, line: string)
    requires Wf(st)
    requires TableStage(PointGroupStage(st, line), line).Success?
    requires BandHeaderStage(TableStage(PointGroupStage(st, line), line).value, line).Success?
    ensures var r := BandHeaderStage(TableStage(PointGroupStage(st, line), line).value, line).value;
            && r.kptWanted == st.kptWanted
            && r.traceStart == (st.traceStart || (Contains(line, BandHeaderMarker) && st.kptWanted))
  {
  }

  /** A "The point group is" line of a wanted block makes the stripped
      text after the marker the point group and a new, empty table the
      current one; the tables already made, and so every stored record, are
      left as they were. Any other line changes nothing. */
  lemma PointGroupFresh(st: ScanState, line: string)
    requires Wf(st)
    ensures var r := PointGroupStage(st, line);
            Contains(line, PointGroupMarker) && st.kptWanted ==>
              && |Split(line, PointGroupMarker)| >= 2
              && r.pointGroup == Some(Strip(Split(line, PointGroupMarker)[1]))
              && r.table == Some(|st.tables|) && r.tables[|st.tables|] == []
              && r.tables[..|st.tables|] == st.tables
              && r == st.(pointGroup := r.pointGroup, table := r.table, tables := r.tables)
              && Resolve(r) == Resolve(st)
    ensures !(Contains(line, PointGroupMarker) && st.kptWanted) ==> PointGroupStage(st, line) == st
  {
    var r := PointGroupStage(st, line);
    if Contains(line, PointGroupMarker) && st.kptWanted {
      SplitSpec(line, PointGroupMarker);
      assert r.tables[..|st.tables|] == st.tables;
      ExtendedTablesKeepRecords(st, r);
    }
  }

  /** Tables added after the existing ones change no stored record. */
  lemma ExtendedTablesKeepRecords(st: ScanState, r: ScanState)
    requires Wf(st) && Wf(r) && r.store == st.store
    requires |st.tables| <= |r.tables| && r.tables[..|st.tables|] == st.tables
    ensures Resolve(r) == Resolve(st)
  {
    forall u | 0 <= u < |st.tables|
      ensures r.tables[u] == st.tables[u]
    {
      assert r.tables[..|st.tables|][u] == r.tables[u];
    }
    match st.store
    case Plain(m) => PlainRecordsKept(m, st.tables, r.tables);
    case Spin(m) => SpinRecordsKept(m, st.tables, r.tables);
  }

  /** The records of a plain store read the same from a table heap and
      from any extension of it. */
  lemma PlainRecordsKept(m: map<string, Stored>, a: seq<seq<string>>, b: seq<seq<string>>)
    requires forall k :: k in m ==> m[k].table < |a|
    requires |a| <= |b| && forall u :: 0 <= u < |a| ==> b[u] == a[u]
    ensures (map k | k in m :: Materialize(m[k], b)) == (map k | k in m :: Materialize(m[k], a))
  {
    forall k | k in m
      ensures Materialize(m[k], b) == Materialize(m[k], a)
    {
      assert b[m[k].table] == a[m[k].table];
    }
  }

  /** The same for a spin-polarised store. */
  lemma SpinRecordsKept(m: map<string, Slots<Stored>>, a: seq<seq<string>>, b: seq<seq<string>>)
    requires forall k :: k in m ==> m[k].up.table < |a| && (m[k].down.Some? ==> m[k].down.value.table < |a|)
    requires |a| <= |b| && forall u :: 0 <= u < |a| ==> b[u] == a[u]
    ensures (map k | k in m :: Slots(Materialize(m[k].up, b),
               if m[k].down.Some? then Some(Materialize(m[k].down.value, b)) else None))
         == (map k | k in m :: Slots(Materialize(m[k].up, a),
               if m[k].down.Some? then Some(Materialize(m[k].down.value, a)) else None))
  {
    forall k | k in m
      ensures Materialize(m[k].up, b) == Materialize(m[k].up, a)
      ensures m[k].down.Some? ==> Materialize(m[k].down.value, b) == Materialize(m[k].down.value, a)
    {
      assert b[m[k].up.table] == a[m[k].up.table];
    }
  }

  /** The rows a line adds to the current character table: the stripped
      line once if it holds the identity marker, and once more if it holds
      the class marker, each only while blocks are wanted. */
  function TableRows(st: ScanState, line: string): seq<string>
  {
    (if Contains(line, IdentityMarker) && st.kptWanted then [Strip(line)] else [])
    + (if Contains(line, ClassMarker) && st.kptWanted then [Strip(line)] else [])
  }

  /** The table check appends the line's rows to the current table and to
      no other, and raises the NameError on `pg_character_table` exactly
      when there are rows but no table is bound. */
  lemma TableStageRows(st: ScanState, line: string)
    requires Wf(st)
    ensures TableStage(st, line).Failure? <==> TableRows(st, line) != [] && st.table.None?
    ensures TableStage(st, line).Failure? ==> TableStage(st, line).error == Unbound("pg_character_table")
    ensures TableStage(st, line).Success? && TableRows(st, line) == [] ==> TableStage(st, line).value == st
    ensures TableStage(st, line).Success? && TableRows(st, line) != [] ==>
              var r, t := TableStage(st, line).value, st.table.value;
              && |r.tables| == |st.tables|
              && r.tables[t] == st.tables[t] + TableRows(st, line)
              && (forall u :: 0 <= u < |st.tables| && u != t ==> r.tables[u] == st.tables[u])
              && r == st.(tables := r.tables)
  {
  }

  /** A "bnd ndg" line of a wanted block raises ValueError exactly when no
      space-separated piece of the stripped line is "E"; otherwise it starts
      the trace block with four empty band lists. Any other line changes
      nothing. */
  lemma BandHeaderStarts(st: ScanState, line: string)
    requires Wf(st)
    ensures Contains(line, BandHeaderMarker) && st.kptWanted ==>
              && (BandHeaderStage(st, line).Failure? <==> "E" !in Split(Strip(line), " "))
              && (BandHeaderStage(st, line).Failure? ==> BandHeaderStage(st, line).error == NoIdentityColumn)
              && (BandHeaderStage(st, line).Success? ==>
                    BandHeaderStage(st, line).value == st.(traceStart := true, block := Some(Block([], [], [], []))))
    ensures !(Contains(line, BandHeaderMarker) && st.kptWanted) ==> BandHeaderStage(st, line) == Success(st)
  {
    NonEmptyMembers(Split(Strip(line), " "), "E");
  }

  /** A successful step is the stages up to the end-of-block check, which
      keep what `Kept` names, followed by that check exactly when the line
      passes both `continue`s. */
  lemma Stages(st: ScanState, line: string, keying: Keying, nums: Numerals) returns (s4: ScanState, ends: bool)
    requires Wf(st) && Step(st, line, keying, nums).Success?
    ensures Wf(s4) && Kept(KPointStage(st, line, keying, nums).state, s4)
    ensures Step(st, line, keying, nums) == if ends then EndStage(s4, line) else Success(s4)
    ensures ends <==> Passes(st, line, keying, nums)
  {
    var k := KPointStage(st, line, keying, nums);
    if k.Stop? {
      return k.state, false;
    }
    var s1 := PointGroupStage(k.state, line);
    TableStageKept(s1, line);
    var s2 := TableStage(s1, line).value;
    var s3 := BandHeaderStage(s2, line).value;
    KPointFlags(st, line, keying, nums);
    MiddleStagesFlags(k.state, line);
    TraceStageAppends(s3, line, nums);
    TraceStageKept(s3, line, nums);
    var t := TraceStage(s3, line, nums).value;
    return t.state, t.Go?;
  }

  /** The end-of-block check: a line without "*****" changes nothing;
      one with it raises NameError unless the band lists, the point group,
      the table and the label are all bound, and otherwise stores the
      current lists, point group and table under the current label and ends
      the trace block, changing nothing else. */
  lemma EndStageStores(st: ScanState, line: string)
    requires Wf(st)
    ensures EndStage(st, line).Success? <==>
              !Contains(line, BlockMarker) || (st.block.Some? && st.pointGroup.Some? && st.table.Some? && st.trimLabel.Some?)
    ensures EndStage(st, line).Failure? ==> EndStage(st, line).error.Unbound?
    ensures EndStage(st, line).Success? ==>
              var r := EndStage(st, line).value;
              && SameSelection(st, r) && r.block == st.block
              && r.pointGroup == st.pointGroup && r.table == st.table && r.tables == st.tables
    ensures EndStage(st, line).Success? && !Contains(line, BlockMarker) ==> EndStage(st, line).value == st
    ensures EndStage(st, line).Success? && Contains(line, BlockMarker) ==>
              && !EndStage(st, line).value.traceStart
              && EndStage(st, line).value.store == Put(st.store, st.trimLabel.value, Stored(st.block.value, st.pointGroup.value, st.table.value))
  {
  }

  /** Two states that agree on the selection flag and the current label. */
  predicate SameSelection(a: ScanState, b: ScanState)
  {
    a.kptWanted == b.kptWanted && a.trimLabel == b.trimLabel
  }

  /** One line: blocks are wanted afterwards exactly when they were before
      or the line selects; the label changes only on a selecting line, to
      that line's label. */
  lemma StepSelection(st: ScanState, line: string, keying: Keying, nums: Numerals)
    requires Wf(st) && Step(st, line, keying, nums).Success?
    ensures Step(st, line, keying, nums).value.kptWanted <==> st.kptWanted || Selects(line, keying, nums)
    ensures Selects(line, keying, nums) ==> Step(st, line, keying, nums).value.trimLabel == Some(LabelOf(line, keying, nums))
    ensures !Selects(line, keying, nums) ==> Step(st, line, keying, nums).value.trimLabel == st.trimLabel
  {
    var s4, ends := Stages(st, line, keying, nums);
    if ends {
      EndStageStores(s4, line);
    }
  }

  /** Some line of `lines` selects. */
  predicate AnySelects(lines: seq<string>, keying: Keying, nums: Numerals)
  {
    exists i :: 0 <= i < |lines| && Selects(lines[i], keying, nums)
  }

  /** The scan wants blocks at its end exactly when it did at its start or
      one of its lines selects: nothing ever withdraws the selection (the
      end of a block clears `kpt_start`, a name nothing reads). */
  lemma {:induction false} ScanSelection(st: ScanState, lines: seq<string>, keying: Keying, nums: Numerals)
    requires Wf(st) && Scan(st, lines, keying, nums).Success?
    ensures Scan(st, lines, keying, nums).value.kptWanted <==> st.kptWanted || AnySelects(lines, keying, nums)
    decreases |lines|
  {
    if lines != [] {
      var next := Step(st, lines[0], keying, nums).value;
      StepSelection(st, lines[0], keying, nums);
      ScanSelection(next, lines[1..], keying, nums);
      assert AnySelects(lines, keying, nums) <==> Selects(lines[0], keying, nums) || AnySelects(lines[1..], keying, nums) by {
        if AnySelects(lines[1..], keying, nums) {
          var i :| 0 <= i < |lines[1..]| && Selects(lines[1..][i], keying, nums);
          assert Selects(lines[i + 1], keying, nums);
        }
        if AnySelects(lines, keying, nums) && !Selects(lines[0], keying, nums) {
          var i :| 0 <= i < |lines| && Selects(lines[i], keying, nums);
          assert lines[1..][i - 1] == lines[i];
        }
      }
    }
  }

  /** A trace line, as the loop accepts one: blocks are wanted, the trace
      block has started, the line has a "0", its first word is an int, the
      text from column 6 up to the first "=" is longer than 30 characters
      and the line holds exactly one "=". */
  predicate TraceLine(st: ScanState, line: string, nums: Numerals)
  {
    && st.kptWanted && st.traceStart && Contains(line, "0")
    && IntHead(line, nums)
    && |Split(Strip(Drop(line, 6)), "=")[0]| > 30
    && multiset(line)['='] == 1
  }

  /** The trace check appends one entry to each band list for a trace line
      (band index from columns 0-3, degeneracy from 3-6, eigenvalue from
      6-16, irrep after the "="), fails only when one of those columns does
      not parse, and leaves every other line's state as it was. */
  lemma TraceStageAppends(st: ScanState, line: string, nums: Numerals)
    requires Wf(st)
    ensures TraceStage(st, line, nums).Failure? ==> TraceLine(st, line, nums) && TraceStage(st, line, nums).error == BadTraceNumber
    ensures TraceStage(st, line, nums).Failure? ==>
              || nums.parseInt(Strip(Slice(line, 0, 3))).None?
              || nums.parseInt(Strip(Slice(line, 3, 6))).None?
              || nums.parseFloat(Strip(Slice(line, 6, 16))).None?
    ensures TraceStage(st, line, nums).Success? ==>
              (TraceStage(st, line, nums).value.Stop? <==>
               st.kptWanted && st.traceStart && Contains(line, "0") && !IntHead(line, nums))
    ensures !TraceLine(st, line, nums) && TraceStage(st, line, nums).Success? ==> TraceStage(st, line, nums).value.state == st
    ensures TraceLine(st, line, nums) && TraceStage(st, line, nums).Success? ==>
              && nums.parseInt(Strip(Slice(line, 0, 3))).Some?
              && nums.parseInt(Strip(Slice(line, 3, 6))).Some?
              && nums.parseFloat(Strip(Slice(line, 6, 16))).Some?
              && |Split(line, "=")| == 2
              && TraceStage(st, line, nums).value.state == st.(block := Some(Push(st.block.value,
                   nums.parseInt(Strip(Slice(line, 0, 3))).value,
                   nums.parseInt(Strip(Slice(line, 3, 6))).value,
                   nums.parseFloat(Strip(Slice(line, 6, 16))).value,
                   Split(line, "=")[1])))
  {
    SplitInTwo(line, '=');
  }

  /** Appending one entry to each list keeps them aligned, grows each by
      one, keeps every earlier entry and puts the new values last. */
  lemma PushAligned(b: Block, bnd: int, ndg: int, ev: real, irs: string)
    requires Aligned(b)
    ensures Aligned(Push(b, bnd, ndg, ev, irs))
    ensures var p, n := Push(b, bnd, ndg, ev, irs), |b.bandIndex|;
            && |p.bandIndex| == n + 1
            && p.bandIndex[..n] == b.bandIndex && p.bandDegeneracy[..n] == b.bandDegeneracy
            && p.bandEigenval[..n] == b.bandEigenval && p.irreducibleReps[..n] == b.irreducibleReps
            && p.bandIndex[n] == bnd && p.bandDegeneracy[n] == ndg
            && p.bandEigenval[n] == ev && p.irreducibleReps[n] == irs
  {
  }

  /** Every stored record has aligned band lists. */
  predicate StoreAligned(s: Store<Stored>)
  {
    match s
    case Plain(m) => forall k :: k in m ==> Aligned(m[k].block)
    case Spin(m) => forall k :: k in m ==> Aligned(m[k].up.block) && (m[k].down.Some? ==> Aligned(m[k].down.value.block))
  }

  lemma PutAligned(s: Store<Stored>, key: string, v: Stored)
    requires StoreAligned(s) && Aligned(v.block)
    ensures StoreAligned(Put(s, key, v))
  {
  }

  /** The scan's lists, current and stored, are aligned. */
  predicate Coherent(st: ScanState)
  {
    BlockAligned(st) && StoreAligned(st.store)
  }

  lemma StepCoherent(st: ScanState, line: string, keying: Keying, nums: Numerals)
    requires Wf(st) && Coherent(st) && Step(st, line, keying, nums).Success?
    ensures Coherent(Step(st, line, keying, nums).value)
  {
    var s4, ends := Stages(st, line, keying, nums);
    if ends {
      EndStageStores(s4, line);
      if Contains(line, BlockMarker) {
        PutAligned(s4.store, s4.trimLabel.value, Stored(s4.block.value, s4.pointGroup.value, s4.table.value));
      }
    }
  }

  lemma {:induction false} ScanCoherent(st: ScanState, lines: seq<string>, keying: Keying, nums: Numerals)
    requires Wf(st) && Coherent(st) && Scan(st, lines, keying, nums).Success?
    ensures Coherent(Scan(st, lines, keying, nums).value)
    decreases |lines|
  {
    if lines != [] {
      StepCoherent(st, lines[0], keying, nums);
      ScanCoherent(Step(st, lines[0], keying, nums).value, lines[1..], keying, nums);
    }
  }

  /** A record's four band lists have the same length. */
  predicate RecordAligned(r: Record)
  {
    |r.bandDegeneracy| == |r.bandIndex| && |r.bandEigenval| == |r.bandIndex| && |r.irreducibleReps| == |r.bandIndex|
  }

  /** Every record of `parity_eigenvals` is aligned. */
  predicate RecordsAligned(s: Store<Record>)
  {
    match s
    case Plain(m) => forall k :: k in m ==> RecordAligned(m[k])
    case Spin(m) => forall k :: k in m ==> RecordAligned(m[k].up) && (m[k].down.Some? ==> RecordAligned(m[k].down.value))
  }

  /** In every record of a parsed report, `band_index`, `band_degeneracy`,
      `band_eigenval` and `irreducible_reps` have the same length. */
  lemma ParseBlocksAligned(lines: seq<string>, keying: Keying, spinPolarized: bool, nums: Numerals)
    requires ParseBlocks(lines, keying, spinPolarized, nums).Success?
    ensures RecordsAligned(ParseBlocks(lines, keying, spinPolarized, nums).value)
  {
    var i := FirstMarked(lines).value;
    ScanCoherent(Initial(spinPolarized), lines[i + 1..], keying, nums);
  }

  lemma ParseLabelledAligned(output: Option<seq<string>>, kp: Kpoints, nums: Numerals)
    requires ParseLabelled(output, kp, nums).Success?
    ensures RecordsAligned(ParseLabelled(output, kp, nums).value)
  {
    var h := ReadHeader(output.value).value;
    ParseBlocksAligned(output.value, ByLabel(TrimDict(kp, nums.round3).value), h.spinPolarized, nums);
  }

  lemma ParseAllAligned(output: Option<seq<string>>, nums: Numerals)
    requires ParseAll(output, nums).Success?
    ensures RecordsAligned(ParseAll(output, nums).value)
  {
    ParseBlocksAligned(output.value, ByVector, ReadHeader(output.value).value.spinPolarized, nums);
  }

  /** A line changes the store only when it holds "*****", and then by
      storing the current band lists, point group and table under the
      current label, which ends the trace block. */
  lemma StepStore(st: ScanState, line: string, keying: Keying, nums: Numerals)
    requires Wf(st) && Step(st, line, keying, nums).Success?
    ensures var r := Step(st, line, keying, nums).value;
            || r.store == st.store
            || (&& Contains(line, BlockMarker) && !r.traceStart
                && r.trimLabel.Some? && r.block.Some? && r.pointGroup.Some? && r.table.Some?
                && r.store == Put(st.store, r.trimLabel.value, Stored(r.block.value, r.pointGroup.value, r.table.value)))
    ensures !Contains(line, BlockMarker) ==> Step(st, line, keying, nums).value.store == st.store
  {
    var s4, ends := Stages(st, line, keying, nums);
    if ends {
      EndStageStores(s4, line);
    }
  }

  /** A line that holds "*****" and passes both `continue`s. */
  predicate Reached(st: ScanState, line: string, keying: Keying, nums: Numerals)
  {
    Contains(line, BlockMarker) && Passes(st, line, keying, nums)
  }

  /** One line stores its block exactly when it is a reached "*****" line:
      then the trace block ends and the current lists, point group and
      table go under the current label; otherwise the store is unchanged. */
  lemma StepStoresReached(st: ScanState, line: string, keying: Keying, nums: Numerals)
    requires Wf(st) && Step(st, line, keying, nums).Success?
    ensures var r := Step(st, line, keying, nums).value;
            Reached(st, line, keying, nums) ==>
              && !r.traceStart
              && r.trimLabel.Some? && r.block.Some? && r.pointGroup.Some? && r.table.Some?
              && r.store == Put(st.store, r.trimLabel.value, Stored(r.block.value, r.pointGroup.value, r.table.value))
    ensures !Reached(st, line, keying, nums) ==> Step(st, line, keying, nums).value.store == st.store
  {
    var s4, ends := Stages(st, line, keying, nums);
    EndStageStores(s4, line);
  }

  /** Where a reached "*****" line puts its block. In a plain store it
      replaces any earlier record under the current label. In a
      spin-polarised store the first block under a label fills "up" and
      every later one overwrites "down". No other label changes. */
  lemma StepSlots(st: ScanState, line: string, keying: Keying, nums: Numerals)
    requires Wf(st) && Step(st, line, keying, nums).Success? && Reached(st, line, keying, nums)
    ensures var r := Step(st, line, keying, nums).value;
            && r.trimLabel.Some? && r.block.Some? && r.pointGroup.Some? && r.table.Some?
            && r.store.Plain? == st.store.Plain?
            && var key, rec := r.trimLabel.value, Stored(r.block.value, r.pointGroup.value, r.table.value);
               && (st.store.Plain? ==>
                     && key in r.store.plain && r.store.plain[key] == rec
                     && (forall k :: k != key ==> (k in r.store.plain <==> k in st.store.plain))
                     && (forall k :: k != key && k in st.store.plain ==> r.store.plain[k] == st.store.plain[k]))
               && (st.store.Spin? ==>
                     && key in r.store.spin
                     && r.store.spin[key] == (if key in st.store.spin then Slots(st.store.spin[key].up, Some(rec))
                                              else Slots(rec, None))
                     && (forall k :: k != key ==> (k in r.store.spin <==> k in st.store.spin))
                     && (forall k :: k != key && k in st.store.spin ==> r.store.spin[k] == st.store.spin[k]))
  {
    StepStoresReached(st, line, keying, nums);
  }

  /** The `continue` of a line with a "0" whose first word is not an int,
      while blocks are wanted and the trace block has started, skips the
      end-of-block check even when the line holds "*****". */
  lemma ContinueKeepsStore(st: ScanState, line: string, keying: Keying, nums: Numerals)
    requires Wf(st) && Step(st, line, keying, nums).Success?
    requires st.kptWanted && st.traceStart && Contains(line, "0") && !IntHead(line, nums)
    ensures Step(st, line, keying, nums).value.store == st.store
  {
    StepStoresReached(st, line, keying, nums);
  }

  /** The labels a store holds records under. */
  function Labels<T>(s: Store<T>): set<string>
  {
    match s
    case Plain(m) => m.Keys
    case Spin(m) => m.Keys
  }

  /** Some reached "*****" line of the scan stores a block under `key`. */
  predicate StoresUnder(st: ScanState, lines: seq<string>, keying: Keying, nums: Numerals, key: string)
    requires Wf(st)
    decreases |lines|
  {
    && lines != []
    && Step(st, lines[0], keying, nums).Success?
    && ((Reached(st, lines[0], keying, nums) && Step(st, lines[0], keying, nums).value.trimLabel == Some(key))
        || StoresUnder(Step(st, lines[0], keying, nums).value, lines[1..], keying, nums, key))
  }

  /** After a scan a label has a record exactly when it had one before or
      some reached "*****" line stored a block under it. */
  lemma {:induction false} ScanStoredLabels(st: ScanState, lines: seq<string>, keying: Keying, nums: Numerals, key: string)
    requires Wf(st) && Scan(st, lines, keying, nums).Success?
    ensures key in Labels(Scan(st, lines, keying, nums).value.store) <==>
              key in Labels(st.store) || StoresUnder(st, lines, keying, nums, key)
    decreases |lines|
  {
    if lines != [] {
      var next := Step(st, lines[0], keying, nums).value;
      StepStoresReached(st, lines[0], keying, nums);
      ScanStoredLabels(next, lines[1..], keying, nums, key);
      if Reached(st, lines[0], keying, nums) {
        assert Labels(next.store) == Labels(st.store) + {next.trimLabel.value};
      }
    }
  }

  /** The labels of a parsed report are those under which some reached
      "*****" line after the first one stored a block. */
  lemma ParseBlocksLabels(lines: seq<string>, keying: Keying, spinPolarized: bool, nums: Numerals, key: string)
    requires ParseBlocks(lines, keying, spinPolarized, nums).Success?
    ensures FirstMarked(lines).Some?
    ensures key in Labels(ParseBlocks(lines, keying, spinPolarized, nums).value) <==>
              StoresUnder(Initial(spinPolarized), lines[FirstMarked(lines).value + 1..], keying, nums, key)
  {
    var i := FirstMarked(lines).value;
    var final := Scan(Initial(spinPolarized), lines[i + 1..], keying, nums).value;
    ScanStoredLabels(Initial(spinPolarized), lines[i + 1..], keying, nums, key);
    assert Labels(Resolve(final)) == Labels(final.store);
  }

  /** `b` has every label of `a`, of the same kind, and a spin-polarised
      label's "up" record is the one it had in `a`. */
  predicate UpsKept(a: Store<Stored>, b: Store<Stored>)
  {
    match a
    case Plain(m) => b.Plain? && m.Keys <= b.plain.Keys
    case Spin(m) => b.Spin? && forall k :: k in m ==> k in b.spin && b.spin[k].up == m[k].up
  }

  /** Once a label has a record it keeps one; in a spin-polarised run the
      first record stored under a label stays its "up" record and every
      later one goes to "down". */
  lemma {:induction false} ScanKeepsUps(st: ScanState, lines: seq<string>, keying: Keying, nums: Numerals)
    requires Wf(st) && Scan(st, lines, keying, nums).Success?
    ensures UpsKept(st.store, Scan(st, lines, keying, nums).value.store)
    decreases |lines|
  {
    if lines != [] {
      var next := Step(st, lines[0], keying, nums).value;
      StepStore(st, lines[0], keying, nums);
      ScanKeepsUps(next, lines[1..], keying, nums);
    }
  }

  /** A "*****" line that no "k = " check skips. */
  predicate EndsBlock(line: string)
  {
    Contains(line, BlockMarker) && !StartsWith(line, KMarker)
  }

  /** Before any line has selected, and before any band lists are bound,
      a line leaves the state as it is, unless it ends a block: reading
      `bnds` then raises a NameError. */
  lemma IdleStep(st: ScanState, line: string, keying: Keying, nums: Numerals)
    requires Wf(st) && !st.kptWanted && st.block.None? && !Selects(line, keying, nums)
    ensures Step(st, line, keying, nums) == if EndsBlock(line) then Failure(Unbound("bnds")) else Success(st)
  {
  }

  /** No line of `lines` selects. */
  predicate NoneSelects(lines: seq<string>, keying: Keying, nums: Numerals)
    decreases |lines|
  {
    lines == [] || (!Selects(lines[0], keying, nums) && NoneSelects(lines[1..], keying, nums))
  }

  /** No line of `lines` ends a block. */
  predicate NoneEnds(lines: seq<string>)
    decreases |lines|
  {
    lines == [] || (!EndsBlock(lines[0]) && NoneEnds(lines[1..]))
  }

  lemma {:induction false} NoneSelectsMeans(lines: seq<string>, keying: Keying, nums: Numerals)
    ensures NoneSelects(lines, keying, nums) <==> !AnySelects(lines, keying, nums)
    decreases |lines|
  {
    if lines != [] {
      NoneSelectsMeans(lines[1..], keying, nums);
      if AnySelects(lines, keying, nums) && !Selects(lines[0], keying, nums) {
        var i :| 0 <= i < |lines| && Selects(lines[i], keying, nums);
        assert Selects(lines[1..][i - 1], keying, nums);
      }
      if AnySelects(lines[1..], keying, nums) {
        var i :| 0 <= i < |lines[1..]| && Selects(lines[1..][i], keying, nums);
        assert Selects(lines[i + 1], keying, nums);
      }
    }
  }

  lemma {:induction false} NoneEndsMeans(lines: seq<string>)
    ensures NoneEnds(lines) <==> forall i :: 0 <= i < |lines| ==> !EndsBlock(lines[i])
    decreases |lines|
  {
    if lines != [] {
      NoneEndsMeans(lines[1..]);
      if NoneEnds(lines) {
        forall i | 1 <= i < |lines| ensures !EndsBlock(lines[i]) {
          assert lines[i] == lines[1..][i - 1];
        }
      }
    }
  }

  /** From a state in which nothing has selected and no band list is bound,
      a scan none of whose lines selects changes nothing, unless one of its
      lines ends a block: then it raises the NameError on `bnds`. */
  lemma {:induction false} IdleScan(st: ScanState, lines: seq<string>, keying: Keying, nums: Numerals)
    requires Wf(st) && !st.kptWanted && st.block.None? && NoneSelects(lines, keying, nums)
    ensures Scan(st, lines, keying, nums) == if NoneEnds(lines) then Success(st) else Failure(Unbound("bnds"))
    decreases |lines|
  {
    if lines != [] {
      IdleStep(st, lines[0], keying, nums);
      if !EndsBlock(lines[0]) {
        IdleScan(st, lines[1..], keying, nums);
      }
    }
  }

  /** The store of a report none of whose blocks was selected. */
  function EmptyStore(spinPolarized: bool): Store<Record>
  {
    if spinPolarized then Spin(map[]) else Plain(map[])
  }

  /** The scan starts after the first "*****". */
  lemma ParseBlocksAt(lines: seq<string>, keying: Keying, spinPolarized: bool, nums: Numerals, i: nat, rest: seq<string>)
    requires FirstMarked(lines) == Some(i) && rest == lines[i + 1..]
    ensures ParseBlocks(lines, keying, spinPolarized, nums) == Finish(Scan(Initial(spinPolarized), rest, keying, nums))
  {
  }

  /** A scan that stored nothing resolves to an empty store. */
  lemma ResolveInitial(spinPolarized: bool)
    ensures Resolve(Initial(spinPolarized)) == EmptyStore(spinPolarized)
  {
  }

  /** When no "k = " line after the first "*****" selects, the report
      parses to an empty `parity_eigenvals` if no later line ends a block,
      and otherwise fails on the unbound `bnds`. */
  lemma UnselectedReport(lines: seq<string>, keying: Keying, spinPolarized: bool, nums: Numerals, i: nat)
    requires FirstMarked(lines) == Some(i) && NoneSelects(lines[i + 1..], keying, nums)
    ensures ParseBlocks(lines, keying, spinPolarized, nums)
            == if NoneEnds(lines[i + 1..]) then Success(EmptyStore(spinPolarized)) else Failure(Unbound("bnds"))
  {
    var rest := lines[i + 1..];
    ParseBlocksAt(lines, keying, spinPolarized, nums, i, rest);
    IdleScan(Initial(spinPolarized), rest, keying, nums);
    ResolveInitial(spinPolarized);
  }

  /** Lines without "*****" put in front of a report shift its first
      "*****" line and nothing else. */
  lemma FirstMarkedShift(pre: seq<string>, lines: seq<string>)
    requires forall i :: 0 <= i < |pre| ==> !Contains(pre[i], BlockMarker)
    ensures FirstMarked(lines).None? ==> FirstMarked(pre + lines).None?
    ensures FirstMarked(lines).Some? ==> FirstMarked(pre + lines) == Some(|pre| + FirstMarked(lines).value)
  {
    var all := pre + lines;
    assert forall i :: 0 <= i < |lines| ==> all[|pre| + i] == lines[i];
    if FirstMarked(all).Some? {
      var j := FirstMarked(all).value;
      assert j >= |pre|;
      assert lines[j - |pre|] == all[j];
    }
  }

  /** Lines before the first "*****" play no part in the scan. */
  lemma PrefixIgnored(pre: seq<string>, lines: seq<string>, keying: Keying, spinPolarized: bool, nums: Numerals)
    requires forall i :: 0 <= i < |pre| ==> !Contains(pre[i], BlockMarker)
    ensures ParseBlocks(pre + lines, keying, spinPolarized, nums) == ParseBlocks(lines, keying, spinPolarized, nums)
  {
    FirstMarkedShift(pre, lines);
    if FirstMarked(lines).Some? {
      var i := FirstMarked(lines).value;
      var rest := lines[i + 1..];
      assert (pre + lines)[|pre| + i + 1..] == rest;
      ParseBlocksAt(lines, keying, spinPolarized, nums, i, rest);
      ParseBlocksAt(pre + lines, keying, spinPolarized, nums, |pre| + i, rest);
    }
  }

  /** A row appended to the record `s` refers to shows in it, as the loop
      leaves it, when `s`'s table is the current one, and not otherwise;
      nothing else in the record changes. */
  predicate AppendedTo(before: Record, after: Record, s: Stored, t: nat, row: string)
  {
    && after.pgCharacterTable == (if s.table == t then before.pgCharacterTable + [row] else before.pgCharacterTable)
    && after == before.(pgCharacterTable := after.pgCharacterTable)
  }

  /** A stored record shares its character table with the scan: a row
      appended while that table is still current shows up in the record as
      the loop leaves it, and in no record whose table is another one. */
  lemma AppendShowsInRecord(st: ScanState, row: string, key: string)
    requires Wf(st) && st.table.Some? && st.store.Plain? && key in st.store.plain
    ensures AppendRow(st, row).Success?
    ensures AppendedTo(Resolve(st).plain[key], Resolve(AppendRow(st, row).value).plain[key],
                       st.store.plain[key], st.table.value, row)
  {
  }

  /** The same for a spin-polarised store: the "up" record and, when
      present, the "down" record each share their own table. */
  lemma AppendShowsInSpinRecord(st: ScanState, row: string, key: string)
    requires Wf(st) && st.table.Some? && st.store.Spin? && key in st.store.spin
    ensures AppendRow(st, row).Success?
    ensures var before, after, s := Resolve(st).spin[key], Resolve(AppendRow(st, row).value).spin[key], st.store.spin[key];
            && AppendedTo(before.up, after.up, s.up, st.table.value, row)
            && after.down.Some? == s.down.Some?
            && (s.down.Some? ==> AppendedTo(before.down.value, after.down.value, s.down.value, st.table.value, row))
  {
  }
}
