/** The Python `str` operations the irvsp report parser and the OUTCAR
    rewriter rely on, with the meaning CPython gives them: `in`, `find`,
    `startswith`, `split(sep)`, `split()`, `strip()` and slicing. */
module PyText {
  import opened Wrappers

  /** `c.isspace()`: the ASCII controls TAB..CR and FS..US, SPACE, NEL,
      NO-BREAK SPACE and the Unicode space separators. */
  predicate IsSpace(c: char)
  {
    var n := c as int;
    (9 <= n <= 13) || (28 <= n <= 32) || n == 0x85 || n == 0xA0 || n == 0x1680
    || (0x2000 <= n <= 0x200A) || n == 0x2028 || n == 0x2029 || n == 0x202F
    || n == 0x205F || n == 0x3000
  }

  /** `pat` occurs in `s` at index `k`. */
  predicate MatchAt(s: string, pat: string, k: nat)
  {
    k + |pat| <= |s| && s[k..k + |pat|] == pat
  }

  lemma MatchAtTail(s: string, pat: string, k: nat)
    requires s != []
    ensures MatchAt(s, pat, k + 1) <==> MatchAt(s[1..], pat, k)
  {
    if k + 1 + |pat| <= |s| {
      assert s[1..][k..k + |pat|] == s[k + 1..k + 1 + |pat|];
    }
  }

  /** `s.find(pat)`, None standing for -1. */
  function Find(s: string, pat: string): Option<nat>
    decreases |s|
  {
    if |s| < |pat| then None
    else if s[..|pat|] == pat then Some(0)
    else match Find(s[1..], pat)
      case None => None
      case Some(k) => Some(k + 1)
  }

  /** `find` returns the first index at which `pat` occurs, and -1 only
      when it occurs nowhere. */
  lemma {:induction false} FindSpec(s: string, pat: string)
    ensures Find(s, pat).Some? ==> MatchAt(s, pat, Find(s, pat).value)
    ensures Find(s, pat).Some? ==> forall k: nat :: k < Find(s, pat).value ==> !MatchAt(s, pat, k)
    ensures Find(s, pat).None? ==> forall k: nat :: !MatchAt(s, pat, k)
    decreases |s|
  {
    if |s| >= |pat| && s[..|pat|] != pat {
      FindSpec(s[1..], pat);
      assert !MatchAt(s, pat, 0);
      forall k: nat | 1 <= k ensures MatchAt(s, pat, k) <==> MatchAt(s[1..], pat, k - 1) {
        MatchAtTail(s, pat, k - 1);
      }
    }
  }

  /** `pat in s`. */
  predicate Contains(s: string, pat: string)
  {
    exists k: nat | k <= |s| :: MatchAt(s, pat, k)
  }

  /** `pat in s` exactly when `s.find(pat)` is not -1. */
  lemma ContainsFind(s: string, pat: string)
    ensures Contains(s, pat) <==> Find(s, pat).Some?
  {
    FindSpec(s, pat);
  }

  /** `s.startswith(p)`. */
  predicate StartsWith(s: string, p: string)
  {
    |p| <= |s| && s[..|p|] == p
  }

  /** `s.split(sep)` for a non-empty separator: the pieces between successive
      left-most, non-overlapping occurrences of `sep`. */
  function Split(s: string, sep: string): seq<string>
    requires sep != []
    decreases |s|
  {
    FindSpec(s, sep);
    match Find(s, sep)
    case None => [s]
    case Some(k) => [s[..k]] + Split(s[k + |sep|..], sep)
  }

  /** `split` yields at least one piece, and more than one exactly when the
      separator occurs. */
  lemma SplitSpec(s: string, sep: string)
    requires sep != []
    ensures |Split(s, sep)| >= 1
    ensures |Split(s, sep)| >= 2 <==> Contains(s, sep)
  {
    ContainsFind(s, sep);
  }

  /** A one-character separator splits `s` into one more piece than there
      are occurrences of that character. */
  lemma {:induction false} SplitCharCount(s: string, c: char)
    ensures |Split(s, [c])| == multiset(s)[c] + 1
    decreases |s|
  {
    FindSpec(s, [c]);
    match Find(s, [c])
    case None =>
      forall j | 0 <= j < |s| ensures s[j] != c {
        assert !MatchAt(s, [c], j) && s[j..j + 1] == [s[j]];
      }
      assert c !in s;
    case Some(k) =>
      var rest := s[k + 1..];
      SplitCharCount(rest, c);
      forall j | 0 <= j < k ensures s[j] != c {
        assert !MatchAt(s, [c], j) && s[j..j + 1] == [s[j]];
      }
      assert c !in s[..k];
      assert s[k..k + 1] == [c];
      assert s == s[..k] + [c] + rest;
      calc {
        multiset(s)[c];
        == multiset(s[..k])[c] + multiset([c])[c] + multiset(rest)[c];
        == 1 + multiset(rest)[c];
      }
  }

  /** `s.split(sep)` yields exactly two pieces exactly when `s` holds one
      `sep` character. */
  lemma SplitInTwo(s: string, c: char)
    ensures |Split(s, [c])| == 2 <==> multiset(s)[c] == 1
  {
    SplitCharCount(s, c);
  }

  /** `s.lstrip()`. */
  function TrimLeft(s: string): string
    decreases |s|
  {
    if s != [] && IsSpace(s[0]) then TrimLeft(s[1..]) else s
  }

  /** `s.rstrip()`. */
  function TrimRight(s: string): string
    decreases |s|
  {
    if s != [] && IsSpace(s[|s| - 1]) then TrimRight(s[..|s| - 1]) else s
  }

  /** `lstrip` removes the leading whitespace and nothing else: what it keeps
      is a suffix that does not start with whitespace. */
  lemma {:induction false} TrimLeftSpec(s: string)
    ensures |TrimLeft(s)| <= |s| && TrimLeft(s) == s[|s| - |TrimLeft(s)|..]
    ensures forall k :: 0 <= k < |s| - |TrimLeft(s)| ==> IsSpace(s[k])
    ensures TrimLeft(s) != [] ==> !IsSpace(TrimLeft(s)[0])
    decreases |s|
  {
    if s != [] && IsSpace(s[0]) {
      TrimLeftSpec(s[1..]);
    }
  }

  /** `rstrip` removes the trailing whitespace and nothing else: what it
      keeps is a prefix that does not end with whitespace. */
  lemma {:induction false} TrimRightSpec(s: string)
    ensures |TrimRight(s)| <= |s| && TrimRight(s) == s[..|TrimRight(s)|]
    ensures forall k :: |TrimRight(s)| <= k < |s| ==> IsSpace(s[k])
    ensures TrimRight(s) != [] ==> !IsSpace(TrimRight(s)[|TrimRight(s)| - 1])
    decreases |s|
  {
    if s != [] && IsSpace(s[|s| - 1]) {
      TrimRightSpec(s[..|s| - 1]);
    }
  }

  /** `s.strip()`. */
  function Strip(s: string): string
  {
    TrimRight(TrimLeft(s))
  }

  /** The longest prefix of `s` without a whitespace character. */
  function TakeWord(s: string): (w: string)
    ensures |w| <= |s| && w == s[..|w|]
    ensures forall k :: 0 <= k < |w| ==> !IsSpace(w[k])
    ensures |w| < |s| ==> IsSpace(s[|w|])
    decreases |s|
  {
    if s == [] || IsSpace(s[0]) then [] else [s[0]] + TakeWord(s[1..])
  }

  /** `s.split()[0]`, or None where `s.split()` is empty (an IndexError). */
  function FirstWord(s: string): (w: Option<string>)
    ensures w.None? <==> forall k :: 0 <= k < |s| ==> IsSpace(s[k])
    ensures w.Some? ==> w.value != [] && forall k :: 0 <= k < |w.value| ==> !IsSpace(w.value[k])
    ensures w.Some? ==>
              exists j :: && 0 <= j <= |s| && |w.value| <= |s[j..]|
                          && (forall k :: 0 <= k < j ==> IsSpace(s[k]))
                          && s[j..][..|w.value|] == w.value
                          && (|w.value| == |s[j..]| || IsSpace(s[j..][|w.value|]))
  {
    var t := TrimLeft(s);
    TrimLeftSpec(s);
    if t == [] then None
    else
      var w, j := TakeWord(t), |s| - |t|;
      assert s[j..] == t;
      Some(w)
  }

  /** The non-empty pieces, in order. */
  function NonEmpty(parts: seq<string>): seq<string>
  {
    if parts == [] then []
    else if parts[0] == [] then NonEmpty(parts[1..])
    else [parts[0]] + NonEmpty(parts[1..])
  }

  /** NonEmpty keeps exactly the pieces that are not empty. */
  lemma {:induction false} NonEmptyMembers(parts: seq<string>, p: string)
    ensures p in NonEmpty(parts) <==> p in parts && p != []
  {
    if parts != [] {
      NonEmptyMembers(parts[1..], p);
      assert parts == [parts[0]] + parts[1..];
    }
  }

  /** `[i for i in s.strip().split(" ") if i]`. */
  function Tokens(s: string): seq<string>
  {
    NonEmpty(Split(Strip(s), " "))
  }

  /** `s[lo:hi]` for non-negative bounds, which Python clamps to the length. */
  function Slice(s: string, lo: nat, hi: nat): (r: string)
    ensures |r| <= |s|
  {
    var a := if lo < |s| then lo else |s|;
    var b := if hi < |s| then hi else |s|;
    if a <= b then s[a..b] else []
  }

  /** `s[n:]`. */
  function Drop(s: string, n: nat): string
  {
    Slice(s, n, |s|)
  }
}
