/** The map from high-symmetry k-point to KPOINTS label that
    `IRVSPOutput._parse_stdout` builds before it scans the report
    (pytopomat/irvsp_caller.py:242-253).

    Python builds it in three steps: `dict(zip(labels, kpts))`, an
    insertion-ordered dict from label to point (a repeated label keeps its
    first place and takes its last point); the removal of the labels "None"
    and None; and a comprehension that inverts the dict into a map from the
    rounded point to the label, in which a later item overwrites an earlier
    one with the same rounded point. */
module TrimLabels {
  import opened Wrappers

  /** A KPOINTS label: a string, or Python's None. */
  type Label = Option<string>

  /** A k-point in fractional coordinates. */
  datatype Vec3 = Vec3(x: real, y: real, z: real)

  /** The two lists of a KPOINTS object that the parser reads. A KPOINTS
      file without labels has `labels` None. */
  datatype Kpoints = Kpoints(labels: Option<seq<Label>>, kpts: seq<Vec3>)

  /** Why the map cannot be built: the TypeError of `zip` over labels that
      are None, or the KeyError of `trim_dict.pop(None)`. */
  datatype TrimError = ZipOfNone | PopOfNone

  /** The rounded point used as a key: `(round(pt[0], 3), round(pt[1], 3), round(pt[2], 3))`. */
  function Rounded(pt: Vec3, round3: real -> real): seq<real>
  {
    [round3(pt.x), round3(pt.y), round3(pt.z)]
  }

  /** The number of pairs `zip` produces. */
  function ZipLength(kp: Kpoints): nat
  {
    match kp.labels
    case None => 0
    case Some(ls) => if |ls| <= |kp.kpts| then |ls| else |kp.kpts|
  }

  /** The labels that take part in the zip. */
  function Zipped(kp: Kpoints): seq<Label>
  {
    match kp.labels
    case None => []
    case Some(ls) => ls[..ZipLength(kp)]
  }

  /** The index of the first occurrence of `x` in `s`. */
  function FirstIndex<T(==)>(s: seq<T>, x: T): (i: nat)
    requires x in s
    ensures i < |s| && s[i] == x
    ensures forall j :: 0 <= j < i ==> s[j] != x
  {
    if s[0] == x then 0 else FirstIndex(s[1..], x) + 1
  }

  /** The index of the last occurrence of `x` in `s`. */
  function LastIndex<T(==)>(s: seq<T>, x: T): (i: nat)
    requires x in s
    ensures i < |s| && s[i] == x
    ensures forall j :: i < j < |s| ==> s[j] != x
  {
    if s[|s| - 1] == x then |s| - 1 else LastIndex(s[..|s| - 1], x)
  }

  /** The keys of a dict held as its list of items. */
  function Keys<K, V>(d: seq<(K, V)>): (ks: seq<K>)
    ensures |ks| == |d| && forall p :: 0 <= p < |d| ==> ks[p] == d[p].0
  {
    if d == [] then [] else [d[0].0] + Keys(d[1..])
  }

  predicate DistinctKeys<K(==), V>(d: seq<(K, V)>)
  {
    forall p, q :: 0 <= p < q < |d| ==> d[p].0 != d[q].0
  }

  /** `d[k] = v` on an insertion-ordered dict: an existing key keeps its
      place and takes the new value, a new key goes at the end. */
  function DictSet<K(==), V>(d: seq<(K, V)>, k: K, v: V): (r: seq<(K, V)>)
    requires DistinctKeys(d)
    ensures DistinctKeys(r)
  {
    if k in Keys(d) then d[FirstIndex(Keys(d), k) := (k, v)] else d + [(k, v)]
  }

  /** The keys of `d` are exactly the labels of `ls`. */
  ghost predicate KeysAre(ls: seq<Label>, d: seq<(Label, Vec3)>)
  {
    forall l :: l in Keys(d) <==> l in ls
  }

  /** Each label of `d` holds the point of its last occurrence in `ls`. */
  ghost predicate ValuesAre(ls: seq<Label>, ks: seq<Vec3>, d: seq<(Label, Vec3)>)
    requires |ls| == |ks|
  {
    forall p :: 0 <= p < |d| ==> d[p].0 in ls && d[p].1 == ks[LastIndex(ls, d[p].0)]
  }

  /** The items of `d` are in the order in which their labels first occur
      in `ls`. */
  ghost predicate OrderIs(ls: seq<Label>, d: seq<(Label, Vec3)>)
  {
    forall p, q :: 0 <= p < q < |d| && d[p].0 in ls && d[q].0 in ls ==> FirstIndex(ls, d[p].0) < FirstIndex(ls, d[q].0)
  }

  /** What `dict(zip(ls, ks))` is, for lists of equal length: the keys are
      distinct and are exactly the labels of `ls`, each label holds the point
      of its last occurrence, and the items are in the order in which their
      labels first occur. */
  ghost predicate ZipShape(ls: seq<Label>, ks: seq<Vec3>, d: seq<(Label, Vec3)>)
    requires |ls| == |ks|
  {
    DistinctKeys(d) && KeysAre(ls, d) && ValuesAre(ls, ks, d) && OrderIs(ls, d)
  }

  /** `dict(zip(ls, ks))` for lists of equal length, item by item. */
  function DictOf(ls: seq<Label>, ks: seq<Vec3>): (d: seq<(Label, Vec3)>)
    requires |ls| == |ks|
    ensures DistinctKeys(d)
    decreases |ls|
  {
    if ls == [] then []
    else
      var n := |ls|;
      DictSet(DictOf(ls[..n - 1], ks[..n - 1]), ls[n - 1], ks[n - 1])
  }

  /** DictOf builds the dict that ZipShape describes. */
  lemma {:induction false} DictOfShape(ls: seq<Label>, ks: seq<Vec3>)
    requires |ls| == |ks|
    ensures ZipShape(ls, ks, DictOf(ls, ks))
    decreases |ls|
  {
    if ls != [] {
      var n := |ls|;
      var ls', ks' := ls[..n - 1], ks[..n - 1];
      var d' := DictOf(ls', ks');
      DictOfShape(ls', ks');
      assert ls == ls' + [ls[n - 1]] && ks == ks' + [ks[n - 1]];
      StepKeys(ls', d', ls[n - 1], ks[n - 1]);
      StepValues(ls', ks', d', ls[n - 1], ks[n - 1]);
      StepOrder(ls', d', ls[n - 1], ks[n - 1]);
    }
  }

  /** `dict(zip(labels, kpts))`; `zip` stops at the shorter list. */
  function ZipDict(kp: Kpoints): seq<(Label, Vec3)>
  {
    DictOf(Zipped(kp), kp.kpts[..ZipLength(kp)])
  }

  lemma AppendFirst<T>(s: seq<T>, y: T, x: T)
    requires x in s + [y]
    ensures FirstIndex(s + [y], x) == if x in s then FirstIndex(s, x) else |s|
  {
    if x in s {
      FirstIndexUnique(s + [y], x, FirstIndex(s, x));
    } else {
      FirstIndexUnique(s + [y], x, |s|);
    }
  }

  lemma AppendLast<T>(s: seq<T>, y: T, x: T)
    requires x in s + [y]
    ensures LastIndex(s + [y], x) == if x == y then |s| else LastIndex(s, x)
  {
    if x == y {
      LastIndexUnique(s + [y], x, |s|);
    } else {
      assert x in s;
      LastIndexUnique(s + [y], x, LastIndex(s, x));
    }
  }

  lemma StepKeys(ls: seq<Label>, d': seq<(Label, Vec3)>, l: Label, pt: Vec3)
    requires DistinctKeys(d') && KeysAre(ls, d')
    ensures KeysAre(ls + [l], DictSet(d', l, pt))
  {
    var d := DictSet(d', l, pt);
    if l in Keys(d') {
      assert Keys(d) == Keys(d');
    } else {
      assert Keys(d) == Keys(d') + [l];
    }
  }

  lemma StepValues(ls: seq<Label>, ks: seq<Vec3>, d': seq<(Label, Vec3)>, l: Label, pt: Vec3)
    requires |ls| == |ks| && DistinctKeys(d') && ValuesAre(ls, ks, d')
    ensures ValuesAre(ls + [l], ks + [pt], DictSet(d', l, pt))
  {
    var d := DictSet(d', l, pt);
    forall p | 0 <= p < |d|
      ensures d[p].0 in ls + [l] && d[p].1 == (ks + [pt])[LastIndex(ls + [l], d[p].0)]
    {
      if p < |d'| && d'[p].0 != l {
        assert d[p] == d'[p];
      }
      assert d[p].0 in ls + [l];
      AppendLast(ls, l, d[p].0);
    }
  }

  /** The labels of two items of `d'`, in order of first occurrence in
      `ls + [l]`. */
  lemma OrderKept(ls: seq<Label>, d': seq<(Label, Vec3)>, l: Label, p: nat, q: nat)
    requires KeysAre(ls, d') && OrderIs(ls, d') && p < q < |d'|
    ensures d'[p].0 in ls + [l] && d'[q].0 in ls + [l]
    ensures FirstIndex(ls + [l], d'[p].0) < FirstIndex(ls + [l], d'[q].0)
  {
    assert Keys(d')[p] == d'[p].0 && Keys(d')[q] == d'[q].0;
    AppendFirst(ls, l, d'[p].0);
    AppendFirst(ls, l, d'[q].0);
  }

  lemma StepOrderAt(ls: seq<Label>, d': seq<(Label, Vec3)>, l: Label, pt: Vec3, p: nat, q: nat)
    requires DistinctKeys(d') && KeysAre(ls, d') && OrderIs(ls, d')
    requires p < q < |DictSet(d', l, pt)|
    ensures var d := DictSet(d', l, pt);
            d[p].0 in ls + [l] && d[q].0 in ls + [l] &&
            FirstIndex(ls + [l], d[p].0) < FirstIndex(ls + [l], d[q].0)
  {
    var d := DictSet(d', l, pt);
    if l in Keys(d') {
      assert d[p].0 == d'[p].0 && d[q].0 == d'[q].0;
      OrderKept(ls, d', l, p, q);
    } else if q < |d'| {
      assert d[p] == d'[p] && d[q] == d'[q];
      OrderKept(ls, d', l, p, q);
    } else {
      assert d[p] == d'[p] && d[q].0 == l;
      assert Keys(d')[p] == d'[p].0;
      AppendFirst(ls, l, d[p].0);
      AppendFirst(ls, l, l);
    }
  }

  lemma StepOrder(ls: seq<Label>, d': seq<(Label, Vec3)>, l: Label, pt: Vec3)
    requires DistinctKeys(d') && KeysAre(ls, d') && OrderIs(ls, d')
    ensures OrderIs(ls + [l], DictSet(d', l, pt))
  {
    var d := DictSet(d', l, pt);
    forall p, q | 0 <= p < q < |d| && d[p].0 in ls + [l] && d[q].0 in ls + [l]
      ensures FirstIndex(ls + [l], d[p].0) < FirstIndex(ls + [l], d[q].0)
    {
      StepOrderAt(ls, d', l, pt, p, q);
    }
  }

  lemma FirstIndexUnique<T>(s: seq<T>, x: T, i: nat)
    requires i < |s| && s[i] == x
    requires forall j :: 0 <= j < i ==> s[j] != x
    ensures FirstIndex(s, x) == i
  {
  }

  lemma LastIndexUnique<T>(s: seq<T>, x: T, i: nat)
    requires i < |s| && s[i] == x
    requires forall j :: i < j < |s| ==> s[j] != x
    ensures LastIndex(s, x) == i
  {
  }

  /** A label that the parser drops: "None" or None. */
  predicate Dropped(l: Label)
  {
    l == None || l == Some("None")
  }

  /** A blank label, whose removal is written `trim_dict.pop(None)`. */
  predicate Blank(l: Label)
  {
    l == Some("") || l == Some(" ")
  }

  /** `trim_dict.pop("None")` and `trim_dict.pop(None)`: the items that
      remain, in order, with their labels unwrapped. */
  function Named(d: seq<(Label, Vec3)>): seq<(string, Vec3)>
  {
    if d == [] then []
    else if Dropped(d[0].0) then Named(d[1..])
    else [(d[0].0.value, d[0].1)] + Named(d[1..])
  }

  /** Named keeps exactly the items whose label is a string other than "None". */
  lemma {:induction false} NamedMembers(d: seq<(Label, Vec3)>, e: (string, Vec3))
    ensures e in Named(d) <==> (Some(e.0), e.1) in d && e.0 != "None"
  {
    if d != [] {
      NamedMembers(d[1..], e);
      assert d == [d[0]] + d[1..];
    }
  }

  /** Named keeps the order of the items. */
  lemma {:induction false} NamedOrder(d: seq<(Label, Vec3)>, q1: nat, q2: nat)
    requires q1 < q2 < |Named(d)|
    ensures exists p1, p2 :: 0 <= p1 < p2 < |d|
              && d[p1] == (Some(Named(d)[q1].0), Named(d)[q1].1)
              && d[p2] == (Some(Named(d)[q2].0), Named(d)[q2].1)
  {
    var rest := Named(d[1..]);
    if Dropped(d[0].0) {
      NamedOrder(d[1..], q1, q2);
      var p1, p2 :| 0 <= p1 < p2 < |d[1..]|
        && d[1..][p1] == (Some(rest[q1].0), rest[q1].1)
        && d[1..][p2] == (Some(rest[q2].0), rest[q2].1);
      assert d[p1 + 1] == d[1..][p1] && d[p2 + 1] == d[1..][p2];
    } else if q1 == 0 {
      NamedMembers(d[1..], rest[q2 - 1]);
      assert rest[q2 - 1] in rest;
      var p2 :| 0 <= p2 < |d[1..]| && d[1..][p2] == (Some(rest[q2 - 1].0), rest[q2 - 1].1);
      assert d[p2 + 1] == d[1..][p2];
    } else {
      NamedOrder(d[1..], q1 - 1, q2 - 1);
      var p1, p2 :| 0 <= p1 < p2 < |d[1..]|
        && d[1..][p1] == (Some(rest[q1 - 1].0), rest[q1 - 1].1)
        && d[1..][p2] == (Some(rest[q2 - 1].0), rest[q2 - 1].1);
      assert d[p1 + 1] == d[1..][p1] && d[p2 + 1] == d[1..][p2];
    }
  }

  /** `{pt: label for (pt, label) in zip(rounded points, labels)}`. */
  function PointMap(items: seq<(string, Vec3)>, round3: real -> real): (m: map<seq<real>, string>)
    decreases |items|
  {
    if items == [] then map[]
    else
      var last := items[|items| - 1];
      PointMap(items[..|items| - 1], round3)[Rounded(last.1, round3) := last.0]
  }

  /** The keys of the inverted map are the rounded points of the items. */
  lemma {:induction false} PointMapKeys(items: seq<(string, Vec3)>, round3: real -> real, pt: seq<real>)
    ensures pt in PointMap(items, round3) <==>
              exists j :: 0 <= j < |items| && Rounded(items[j].1, round3) == pt
    decreases |items|
  {
    if items != [] {
      var init := items[..|items| - 1];
      PointMapKeys(init, round3, pt);
      assert forall j :: 0 <= j < |init| ==> items[j] == init[j];
    }
  }

  /** The label under the rounded point of an item that no later item
      shares is that item's label. */
  lemma {:induction false} PointMapLatest(items: seq<(string, Vec3)>, round3: real -> real, j: nat)
    requires j < |items|
    requires forall j' :: j < j' < |items| ==> Rounded(items[j'].1, round3) != Rounded(items[j].1, round3)
    ensures Rounded(items[j].1, round3) in PointMap(items, round3)
    ensures PointMap(items, round3)[Rounded(items[j].1, round3)] == items[j].0
    decreases |items|
  {
    var n := |items|;
    if j < n - 1 {
      var init := items[..n - 1];
      assert init[j] == items[j];
      assert forall j' :: j < j' < n - 1 ==> init[j'] == items[j'];
      PointMapLatest(init, round3, j);
    }
  }

  /** Of the items with a given rounded point there is a last one. */
  lemma {:induction false} LastWithPoint(items: seq<(string, Vec3)>, round3: real -> real, pt: seq<real>, i: nat)
    requires i < |items| && Rounded(items[i].1, round3) == pt
    ensures exists j :: i <= j < |items| && Rounded(items[j].1, round3) == pt
              && forall j' :: j < j' < |items| ==> Rounded(items[j'].1, round3) != pt
    decreases |items| - i
  {
    if exists j' :: i < j' < |items| && Rounded(items[j'].1, round3) == pt {
      var j' :| i < j' < |items| && Rounded(items[j'].1, round3) == pt;
      LastWithPoint(items, round3, pt, j');
    }
  }

  /** The label under a key is that of the last item with this rounded
      point: a later item overwrites an earlier one. */
  lemma PointMapLastWins(items: seq<(string, Vec3)>, round3: real -> real, pt: seq<real>)
    requires pt in PointMap(items, round3)
    ensures exists j :: 0 <= j < |items| && Rounded(items[j].1, round3) == pt
              && PointMap(items, round3)[pt] == items[j].0
              && forall j' :: j < j' < |items| ==> Rounded(items[j'].1, round3) != pt
  {
    PointMapKeys(items, round3, pt);
    var i :| 0 <= i < |items| && Rounded(items[i].1, round3) == pt;
    LastWithPoint(items, round3, pt, i);
    var j :| i <= j < |items| && Rounded(items[j].1, round3) == pt
      && forall j' :: j < j' < |items| ==> Rounded(items[j'].1, round3) != pt;
    PointMapLatest(items, round3, j);
  }

  /** The map from rounded k-point to label; or the TypeError that `zip`
      raises when there are no labels, or the KeyError that
      `trim_dict.pop(None)` raises when a blank label is present. */
  function TrimDict(kp: Kpoints, round3: real -> real): Result<map<seq<real>, string>, TrimError>
  {
    var named := Named(ZipDict(kp));
    if kp.labels.None? then Failure(ZipOfNone)
    else if HasBlank(named) then Failure(PopOfNone)
    else Success(PointMap(named, round3))
  }

  /** Some remaining item carries a blank label. */
  predicate HasBlank(named: seq<(string, Vec3)>)
  {
    named != [] && (Blank(Some(named[0].0)) || HasBlank(named[1..]))
  }

  lemma {:induction false} HasBlankMeans(named: seq<(string, Vec3)>)
    ensures HasBlank(named) <==> exists e :: e in named && Blank(Some(e.0))
  {
    if named != [] {
      HasBlankMeans(named[1..]);
      assert named == [named[0]] + named[1..];
    }
  }

  /** The items of `dict(zip(labels, kpts))`, by membership. */
  lemma ZipItems(kp: Kpoints)
    ensures var d, ls := ZipDict(kp), Zipped(kp);
            && (forall l :: l in Keys(d) <==> l in ls)
            && (forall e :: e in d ==> e.0 in ls && e.1 == kp.kpts[LastIndex(ls, e.0)])
            && (forall p, q :: 0 <= p < q < |d| ==> FirstIndex(ls, d[p].0) < FirstIndex(ls, d[q].0))
  {
    var d, ls, ks := ZipDict(kp), Zipped(kp), kp.kpts[..ZipLength(kp)];
    DictOfShape(ls, ks);
    forall e | e in d ensures e.0 in ls && e.1 == kp.kpts[LastIndex(ls, e.0)] {
      var p :| 0 <= p < |d| && d[p] == e;
    }
  }

  /** An item left after the removals is a kept label with the point of
      its last occurrence. */
  lemma NamedItem(kp: Kpoints, e: (string, Vec3))
    requires e in Named(ZipDict(kp))
    ensures Some(e.0) in Zipped(kp) && e.0 != "None"
    ensures e.1 == kp.kpts[LastIndex(Zipped(kp), Some(e.0))]
  {
    NamedMembers(ZipDict(kp), e);
    ZipItems(kp);
  }

  /** Every kept label has an item after the removals. */
  lemma KeptItem(kp: Kpoints, i: nat)
    requires i < |Zipped(kp)| && !Dropped(Zipped(kp)[i])
    ensures (Zipped(kp)[i].value, kp.kpts[LastIndex(Zipped(kp), Zipped(kp)[i])]) in Named(ZipDict(kp))
  {
    var d, ls := ZipDict(kp), Zipped(kp);
    ZipItems(kp);
    assert ls[i] in Keys(d);
    var p :| 0 <= p < |d| && Keys(d)[p] == ls[i];
    assert d[p] in d;
    NamedMembers(d, (ls[i].value, d[p].1));
  }

  /** The items left after the removals keep the order of first occurrence. */
  lemma NamedFirstOrder(kp: Kpoints, q: nat, j: nat)
    requires q < j < |Named(ZipDict(kp))|
    ensures var named := Named(ZipDict(kp));
            Some(named[q].0) in Zipped(kp) && Some(named[j].0) in Zipped(kp) &&
            FirstIndex(Zipped(kp), Some(named[q].0)) < FirstIndex(Zipped(kp), Some(named[j].0))
  {
    var d := ZipDict(kp);
    var named := Named(d);
    NamedOrder(d, q, j);
    var p1, p2 :| 0 <= p1 < p2 < |d|
      && d[p1] == (Some(named[q].0), named[q].1) && d[p2] == (Some(named[j].0), named[j].1);
    ZipItems(kp);
    assert d[p1] in d && d[p2] in d;
  }

  /** Some zipped label is "" or " ". */
  predicate HasBlankLabel(kp: Kpoints)
  {
    exists i :: 0 <= i < |Zipped(kp)| && Blank(Zipped(kp)[i])
  }

  lemma BlankLabelFails(kp: Kpoints, round3: real -> real)
    requires HasBlankLabel(kp)
    ensures TrimDict(kp, round3).Failure?
  {
    var named, ls := Named(ZipDict(kp)), Zipped(kp);
    var i :| 0 <= i < |ls| && Blank(ls[i]);
    KeptItem(kp, i);
    HasBlankMeans(named);
  }

  lemma FailureHasBlankLabel(kp: Kpoints, round3: real -> real)
    requires TrimDict(kp, round3).Failure? && kp.labels.Some?
    ensures HasBlankLabel(kp)
  {
    var named, ls := Named(ZipDict(kp)), Zipped(kp);
    HasBlankMeans(named);
    var e :| e in named && Blank(Some(e.0));
    NamedItem(kp, e);
    var i :| 0 <= i < |ls| && ls[i] == Some(e.0);
  }

  /** Construction fails exactly when there are no labels (the TypeError of
      `zip(None, kpts)`) or when a zipped label is "" or " " (the KeyError of
      `trim_dict.pop(None)`), and the error tells the two apart. */
  lemma TrimDictFails(kp: Kpoints, round3: real -> real)
    ensures TrimDict(kp, round3).Failure? <==> kp.labels.None? || HasBlankLabel(kp)
    ensures TrimDict(kp, round3).Failure? ==>
              (TrimDict(kp, round3).error == ZipOfNone <==> kp.labels.None?)
  {
    if kp.labels.Some? && HasBlankLabel(kp) {
      BlankLabelFails(kp, round3);
    }
    if kp.labels.Some? && TrimDict(kp, round3).Failure? {
      FailureHasBlankLabel(kp, round3);
    }
  }

  /** The keys of the label map are exactly the rounded points of the labels
      that are neither "None" nor None, each label taken with the point of its
      last occurrence. */
  lemma TrimDictKeys(kp: Kpoints, round3: real -> real, pt: seq<real>)
    requires TrimDict(kp, round3).Success?
    ensures var ls := Zipped(kp);
            pt in TrimDict(kp, round3).value <==>
              exists i :: 0 <= i < |ls| && !Dropped(ls[i])
                && Rounded(kp.kpts[LastIndex(ls, ls[i])], round3) == pt
  {
    var named, ls := Named(ZipDict(kp)), Zipped(kp);
    PointMapKeys(named, round3, pt);
    if pt in PointMap(named, round3) {
      var j :| 0 <= j < |named| && Rounded(named[j].1, round3) == pt;
      assert named[j] in named;
      NamedItem(kp, named[j]);
      var i := LastIndex(ls, Some(named[j].0));
      assert !Dropped(ls[i]) && Rounded(kp.kpts[LastIndex(ls, ls[i])], round3) == pt;
    }
    if exists i :: 0 <= i < |ls| && !Dropped(ls[i]) && Rounded(kp.kpts[LastIndex(ls, ls[i])], round3) == pt {
      var i :| 0 <= i < |ls| && !Dropped(ls[i]) && Rounded(kp.kpts[LastIndex(ls, ls[i])], round3) == pt;
      KeptItem(kp, i);
      var e := (ls[i].value, kp.kpts[LastIndex(ls, ls[i])]);
      var q :| 0 <= q < |named| && named[q] == e;
    }
  }

  /** The position, after the removals, of the item of a kept label. */
  lemma KeptPosition(kp: Kpoints, i: nat) returns (q: nat)
    requires i < |Zipped(kp)| && !Dropped(Zipped(kp)[i])
    ensures var named, ls := Named(ZipDict(kp)), Zipped(kp);
            q < |named| && named[q] == (ls[i].value, kp.kpts[LastIndex(ls, ls[i])])
  {
    KeptItem(kp, i);
    var named, ls := Named(ZipDict(kp)), Zipped(kp);
    var e := (ls[i].value, kp.kpts[LastIndex(ls, ls[i])]);
    q :| 0 <= q < |named| && named[q] == e;
  }

  /** The position, after the removals, of the item whose label the map
      keeps under `pt`. */
  lemma WinnerPosition(kp: Kpoints, round3: real -> real, pt: seq<real>) returns (j: nat)
    requires TrimDict(kp, round3).Success? && pt in TrimDict(kp, round3).value
    ensures var named := Named(ZipDict(kp));
            && j < |named| && Rounded(named[j].1, round3) == pt
            && TrimDict(kp, round3).value[pt] == named[j].0
            && forall j' :: j < j' < |named| ==> Rounded(named[j'].1, round3) != pt
  {
    var named := Named(ZipDict(kp));
    PointMapLastWins(named, round3, pt);
    j :| 0 <= j < |named| && Rounded(named[j].1, round3) == pt && PointMap(named, round3)[pt] == named[j].0
      && forall j' :: j < j' < |named| ==> Rounded(named[j'].1, round3) != pt;
  }

  /** Of two kept labels whose points round alike, the map keeps the one
      whose first occurrence comes later. */
  lemma WinnerIsLatest(kp: Kpoints, round3: real -> real, pt: seq<real>, i: nat)
    requires TrimDict(kp, round3).Success? && pt in TrimDict(kp, round3).value
    requires i < |Zipped(kp)| && !Dropped(Zipped(kp)[i])
    requires Rounded(kp.kpts[LastIndex(Zipped(kp), Zipped(kp)[i])], round3) == pt
    ensures var m, ls := TrimDict(kp, round3).value, Zipped(kp);
            Some(m[pt]) in ls && FirstIndex(ls, ls[i]) <= FirstIndex(ls, Some(m[pt]))
  {
    var named := Named(ZipDict(kp));
    var j := WinnerPosition(kp, round3, pt);
    var q := KeptPosition(kp, i);
    assert named[j] in named;
    NamedItem(kp, named[j]);
    if q < j {
      NamedFirstOrder(kp, q, j);
    }
  }

  /** The label stored under a point is a kept label whose point rounds to
      it, and of all kept labels with that rounded point it is the one whose
      first occurrence comes last: a later dict item overwrites an earlier
      one. */
  lemma TrimDictWinner(kp: Kpoints, round3: real -> real, pt: seq<real>)
    requires TrimDict(kp, round3).Success? && pt in TrimDict(kp, round3).value
    ensures var m, ls := TrimDict(kp, round3).value, Zipped(kp);
            && Some(m[pt]) in ls && !Dropped(Some(m[pt]))
            && Rounded(kp.kpts[LastIndex(ls, Some(m[pt]))], round3) == pt
            && forall i :: 0 <= i < |ls| && !Dropped(ls[i])
                 && Rounded(kp.kpts[LastIndex(ls, ls[i])], round3) == pt
                 ==> FirstIndex(ls, ls[i]) <= FirstIndex(ls, Some(m[pt]))
  {
    var named, ls := Named(ZipDict(kp)), Zipped(kp);
    var m := PointMap(named, round3);
    PointMapLastWins(named, round3, pt);
    var j :| 0 <= j < |named| && Rounded(named[j].1, round3) == pt && m[pt] == named[j].0;
    assert named[j] in named;
    NamedItem(kp, named[j]);
    forall i | 0 <= i < |ls| && !Dropped(ls[i]) && Rounded(kp.kpts[LastIndex(ls, ls[i])], round3) == pt
      ensures FirstIndex(ls, ls[i]) <= FirstIndex(ls, Some(m[pt]))
    {
      WinnerIsLatest(kp, round3, pt, i);
    }
  }
}
