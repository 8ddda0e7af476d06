/** Strings as sequences of Unicode code points (Go runes): substring
    search as `strings.Contains` does it, the "followed later on the same
    line" search that a regular expression `a.*b` performs, the case
    folding that Go's `(?i)` flag applies to an ASCII pattern, and
    splitting on a separator as `strings.Split` does it. */
module Text {
  import opened Wrappers

  // ---------------------------------------------------------------------
  // Substring search

  /** `w` occurs in `s` at index `i`. */
  predicate Occurs(s: string, w: string, i: int) {
    0 <= i && i + |w| <= |s| && s[i..i + |w|] == w
  }

  /** Reference definition of `strings.Contains(s, w)`. */
  ghost predicate Contains(s: string, w: string) {
    exists i :: Occurs(s, w, i)
  }

  /** The first occurrence of `w` in `s` at or after `from`, if any. */
  function Find(s: string, w: string, from: nat): (r: Option<nat>)
    ensures r.Some? ==> from <= r.value && Occurs(s, w, r.value)
    ensures r.Some? ==> forall i :: from <= i < r.value ==> !Occurs(s, w, i)
    ensures r.None? ==> forall i :: from <= i ==> !Occurs(s, w, i)
    decreases |s| - from
  {
    if from + |w| > |s| then None
    else if s[from..from + |w|] == w then Some(from)
    else Find(s, w, from + 1)
  }

  /** `strings.Contains(s, w)`. */
  predicate ContainsStr(s: string, w: string): (r: bool)
    ensures r <==> Contains(s, w)
  {
    Find(s, w, 0).Some?
  }

  /** An occurrence in `a` is one in `a + b`, at the same index. */
  lemma OccursInPrefix(a: string, b: string, w: string, i: int)
    requires Occurs(a, w, i)
    ensures Occurs(a + b, w, i)
  {
    assert (a + b)[i..i + |w|] == a[i..i + |w|];
  }

  /** An occurrence in `b` is one in `a + b`, shifted by `|a|`. */
  lemma OccursInSuffix(a: string, b: string, w: string, i: int)
    requires Occurs(b, w, i)
    ensures Occurs(a + b, w, |a| + i)
  {
    assert (a + b)[|a| + i..|a| + i + |w|] == b[i..i + |w|];
  }

  /** An occurrence in `a + b` lies in `a`, lies in `b`, or covers `b[0]`. */
  lemma OccursSplit(a: string, b: string, w: string, i: int)
    requires Occurs(a + b, w, i) && |b| > 0
    ensures Occurs(a, w, i) || Occurs(b, w, i - |a|) || (0 <= |a| - i < |w| && b[0] == w[|a| - i])
  {
    var s := a + b;
    if i + |w| <= |a| {
      assert a[i..i + |w|] == s[i..i + |w|];
    } else if i >= |a| {
      assert b[i - |a|..i - |a| + |w|] == s[i..i + |w|];
    } else {
      assert s[i..i + |w|][|a| - i] == s[|a|] == b[0];
    }
  }

  /** An occurrence of `w` in `a + b` lies inside `a` or inside `b` when
      the first character of `b` is not a character of `w`: no occurrence
      can straddle the seam. */
  lemma ContainsAcrossSeam(a: string, b: string, w: string)
    requires |b| > 0 && b[0] !in w
    ensures Contains(a + b, w) <==> Contains(a, w) || Contains(b, w)
  {
    if Contains(a + b, w) {
      var i :| Occurs(a + b, w, i);
      OccursSplit(a, b, w, i);
    }
    if Contains(a, w) {
      var i :| Occurs(a, w, i);
      OccursInPrefix(a, b, w, i);
    }
    if Contains(b, w) {
      var i :| Occurs(b, w, i);
      OccursInSuffix(a, b, w, i);
    }
  }

  /** `w` cannot occur in `s` when one of its characters is missing from `s`. */
  lemma AbsentWithoutCharacter(s: string, w: string, k: nat)
    requires k < |w| && w[k] !in s
    ensures !Contains(s, w)
  {
  }

  // ---------------------------------------------------------------------
  // `a.*b`: `a`, then later `b`, with no newline in between

  /** No newline among `s[lo..hi]` (the characters `.` may match). */
  predicate OnOneLine(s: string, lo: int, hi: int)
    requires 0 <= lo <= hi <= |s|
  {
    '\n' !in s[lo..hi]
  }

  /** `a` at `i`, `b` at `j`, and only non-newline characters between:
      the text the regular expression `a.*b` matches at `i`. */
  ghost predicate Spans(s: string, a: string, b: string, i: int, j: int) {
    Occurs(s, a, i) && i + |a| <= j && Occurs(s, b, j) && OnOneLine(s, i + |a|, j)
  }

  /** Reference definition: the unanchored regular expression `a.*b`
      matches somewhere in `s`. */
  ghost predicate FollowedBy(s: string, a: string, b: string) {
    exists i, j :: Spans(s, a, b, i, j)
  }

  /** Some occurrence of `b` starts at or after `from` with no newline
      between `from` and it. */
  predicate FindOnLine(s: string, b: string, from: nat) {
    match Find(s, b, from)
    case None => false
    case Some(j) => OnOneLine(s, from, j)
  }

  /** Some `b` starts at or after `from` on the line `from` is on. */
  ghost predicate OnLineFrom(s: string, b: string, from: nat) {
    exists j :: from <= j && Occurs(s, b, j) && OnOneLine(s, from, j)
  }

  lemma FindOnLineCorrect(s: string, b: string, from: nat)
    ensures FindOnLine(s, b, from) <==> OnLineFrom(s, b, from)
  {
    match Find(s, b, from)
    case None =>
    case Some(j0) =>
      forall j | from <= j && Occurs(s, b, j) && OnOneLine(s, from, j)
        ensures OnOneLine(s, from, j0)
      {
        assert j0 <= j;
        assert s[from..j0] == s[from..j][..j0 - from];
      }
  }

  /** Executable search for `a.*b` starting with an `a` at or after `from`. */
  function ScanFollowed(s: string, a: string, b: string, from: nat): bool
    decreases |s| - from
  {
    match Find(s, a, from)
    case None => false
    case Some(i) =>
      FindOnLine(s, b, i + |a|) || (i < |s| && ScanFollowed(s, a, b, i + 1))
  }

  /** Some `a.*b` match begins at or after `from`. */
  ghost predicate SpansFrom(s: string, a: string, b: string, from: int) {
    exists i, j :: from <= i && Spans(s, a, b, i, j)
  }

  /** An `a.*b` match at or after `from` uses the first `a` there or
      begins after it. */
  lemma SpansFromFirst(s: string, a: string, b: string, from: nat, i0: nat)
    requires Find(s, a, from) == Some(i0)
    ensures SpansFrom(s, a, b, from) <==>
            OnLineFrom(s, b, i0 + |a|)
            || (i0 < |s| && SpansFrom(s, a, b, i0 + 1))
  {
    if SpansFrom(s, a, b, from) {
      var i, j :| from <= i && Spans(s, a, b, i, j);
      assert i0 <= i;
      if i != i0 {
        assert SpansFrom(s, a, b, i0 + 1);
      }
    }
    if i0 < |s| && SpansFrom(s, a, b, i0 + 1) {
      var i, j :| i0 + 1 <= i && Spans(s, a, b, i, j);
      assert SpansFrom(s, a, b, from);
    }
    if OnLineFrom(s, b, i0 + |a|) {
      var j :| i0 + |a| <= j && Occurs(s, b, j) && OnOneLine(s, i0 + |a|, j);
      assert Spans(s, a, b, i0, j);
    }
  }

  /** The scan from `from` tries the first `a` there, then moves past it. */
  lemma ScanFollowedUnfold(s: string, a: string, b: string, from: nat, i0: nat)
    requires Find(s, a, from) == Some(i0)
    ensures ScanFollowed(s, a, b, from) <==>
            FindOnLine(s, b, i0 + |a|) || (i0 < |s| && ScanFollowed(s, a, b, i0 + 1))
  {
    assert ScanFollowed(s, a, b, from) ==
           (FindOnLine(s, b, i0 + |a|) || (i0 < |s| && ScanFollowed(s, a, b, i0 + 1)));
  }

  /** One step of the scan: given that it is right from just past the
      first `a`, it is right from `from`. */
  lemma ScanFollowedStep(s: string, a: string, b: string, from: nat, i0: nat)
    requires Find(s, a, from) == Some(i0)
    requires i0 < |s| ==> (ScanFollowed(s, a, b, i0 + 1) <==> SpansFrom(s, a, b, i0 + 1))
    ensures ScanFollowed(s, a, b, from) <==> SpansFrom(s, a, b, from)
  {
    ScanFollowedUnfold(s, a, b, from, i0);
    FindOnLineCorrect(s, b, i0 + |a|);
    SpansFromFirst(s, a, b, from, i0);
  }

  lemma {:induction false} ScanFollowedCorrect(s: string, a: string, b: string, from: nat)
    ensures ScanFollowed(s, a, b, from) <==> SpansFrom(s, a, b, from)
    decreases |s| - from
  {
    match Find(s, a, from)
    case None =>
    case Some(i0) =>
      if i0 < |s| {
        ScanFollowedCorrect(s, a, b, i0 + 1);
      }
      ScanFollowedStep(s, a, b, from, i0);
  }

  /** Executable `a.*b` search over the whole of `s`. */
  predicate MatchesFollowedBy(s: string, a: string, b: string): (r: bool)
    ensures r <==> FollowedBy(s, a, b)
  {
    assert FollowedBy(s, a, b) <==> SpansFrom(s, a, b, 0);
    ScanFollowedCorrect(s, a, b, 0);
    ScanFollowed(s, a, b, 0)
  }

  /** `a` with `b` somewhere later, newlines or not. */
  ghost predicate Later(s: string, a: string, b: string) {
    exists i, j :: Occurs(s, a, i) && i + |a| <= j && Occurs(s, b, j)
  }

  /** On text without newlines, `a.*b` means only "`a`, then later `b`". */
  lemma FollowedByWithoutNewlines(s: string, a: string, b: string)
    requires '\n' !in s
    ensures FollowedBy(s, a, b) <==> Later(s, a, b)
  {
    if Later(s, a, b) {
      var i, j :| Occurs(s, a, i) && i + |a| <= j && Occurs(s, b, j);
      assert forall k :: i + |a| <= k < j ==> s[i + |a|..j][k - (i + |a|)] == s[k];
      assert Spans(s, a, b, i, j);
    }
  }

  // ---------------------------------------------------------------------
  // Case folding of `(?i)` for ASCII patterns

  const KelvinSign: char := '\U{212A}'
  const LongS: char := '\U{017F}'

  /** The lower-case ASCII letter (or the character itself) that `c`
      matches under `(?i)` when the pattern is ASCII lower case: ASCII
      upper case folds to lower case, and the two non-ASCII members of
      ASCII letters' simple case-folding orbits, KELVIN SIGN and LATIN
      SMALL LETTER LONG S, fold to `k` and `s`. */
  function Fold(c: char): (r: char)
    ensures !('A' <= r <= 'Z') && r != KelvinSign && r != LongS
  {
    if 'A' <= c <= 'Z' then (c as int - 'A' as int + 'a' as int) as char
    else if c == KelvinSign then 'k'
    else if c == LongS then 's'
    else c
  }

  function Upper(x: char): char
    requires 'a' <= x <= 'z'
  {
    (x as int - 'a' as int + 'A' as int) as char
  }

  /** The characters Go's `(?i)` accepts for the pattern character `x`
      (a lower-case letter or any other ASCII character that is not an
      upper-case letter). */
  function CaseOrbit(x: char): set<char> {
    if 'a' <= x <= 'z' then
      {x, Upper(x)} + (if x == 'k' then {KelvinSign} else {}) + (if x == 's' then {LongS} else {})
    else {x}
  }

  /** `Fold` sends exactly the case-folding orbit of a pattern character to it. */
  lemma FoldMatchesOrbit(c: char, x: char)
    requires x as int < 128 && !('A' <= x <= 'Z')
    ensures Fold(c) == x <==> c in CaseOrbit(x)
  {
  }

  /** `s` with every character folded. */
  function FoldString(s: string): (r: string)
    ensures |r| == |s|
    ensures forall i :: 0 <= i < |s| ==> r[i] == Fold(s[i])
  {
    seq(|s|, i requires 0 <= i < |s| => Fold(s[i]))
  }

  lemma FoldAppend(a: string, b: string)
    ensures FoldString(a + b) == FoldString(a) + FoldString(b)
  {
    assert forall i :: 0 <= i < |a| ==> (a + b)[i] == a[i];
    assert forall i :: |a| <= i < |a| + |b| ==> (a + b)[i] == b[i - |a|];
  }

  /** A pattern letter none of whose orbit occurs in `s` is absent from
      the folded `s`. */
  lemma FoldedLacks(s: string, x: char)
    requires x as int < 128 && !('A' <= x <= 'Z')
    requires forall c :: c in CaseOrbit(x) ==> c !in s
    ensures x !in FoldString(s)
  {
    if x in FoldString(s) {
      var i :| 0 <= i < |s| && FoldString(s)[i] == x;
      FoldMatchesOrbit(s[i], x);
      assert false;
    }
  }

  /** Newlines survive folding, and nothing else becomes one. */
  lemma FoldKeepsNewlines(s: string)
    ensures '\n' in FoldString(s) <==> '\n' in s
  {
    if '\n' in s {
      var i :| 0 <= i < |s| && s[i] == '\n';
      assert FoldString(s)[i] == '\n';
    }
  }

  /** A pattern of ASCII characters none of which is an upper-case letter,
      the form every literal under `(?i)` in the classifier has. */
  predicate FoldedPattern(w: string) {
    forall k :: 0 <= k < |w| ==> w[k] as int < 128 && !('A' <= w[k] <= 'Z')
  }

  /** What `(?i)` accepts for the literal `w` at index `i` of `s`: every
      character lies in the case-folding orbit of the pattern's. */
  ghost predicate OccursIgnoringCase(s: string, w: string, i: int) {
    0 <= i && i + |w| <= |s| && forall k :: 0 <= k < |w| ==> s[i + k] in CaseOrbit(w[k])
  }

  /** The `(?i)` literal `w` matches somewhere in `s`. */
  ghost predicate ContainsIgnoringCase(s: string, w: string) {
    exists i :: OccursIgnoringCase(s, w, i)
  }

  /** What `(?i:a.*b)` accepts in `s`: `a`, then `b`, with no newline
      between them. */
  ghost predicate FollowedByIgnoringCase(s: string, a: string, b: string) {
    exists i, j :: OccursIgnoringCase(s, a, i) && i + |a| <= j && OccursIgnoringCase(s, b, j)
                   && OnOneLine(s, i + |a|, j)
  }

  /** Matching a folded pattern in the folded text is matching it in the
      original text up to case. */
  lemma FoldedOccurs(s: string, w: string, i: int)
    requires FoldedPattern(w)
    ensures Occurs(FoldString(s), w, i) <==> OccursIgnoringCase(s, w, i)
  {
    if 0 <= i && i + |w| <= |s| {
      var f := FoldString(s);
      forall k | 0 <= k < |w|
        ensures f[i + k] == w[k] <==> s[i + k] in CaseOrbit(w[k])
      {
        FoldMatchesOrbit(s[i + k], w[k]);
      }
      assert Occurs(f, w, i) <==> forall k :: 0 <= k < |w| ==> f[i + k] == w[k] by {
        if forall k :: 0 <= k < |w| ==> f[i + k] == w[k] {
          assert f[i..i + |w|] == w;
        }
      }
    }
  }

  lemma FoldedContains(s: string, w: string)
    requires FoldedPattern(w)
    ensures Contains(FoldString(s), w) <==> ContainsIgnoringCase(s, w)
  {
    if Contains(FoldString(s), w) {
      var i :| Occurs(FoldString(s), w, i);
      FoldedOccurs(s, w, i);
    }
    if ContainsIgnoringCase(s, w) {
      var i :| OccursIgnoringCase(s, w, i);
      FoldedOccurs(s, w, i);
    }
  }

  lemma FoldedOnOneLine(s: string, lo: int, hi: int)
    requires 0 <= lo <= hi <= |s|
    ensures OnOneLine(FoldString(s), lo, hi) <==> OnOneLine(s, lo, hi)
  {
    assert FoldString(s)[lo..hi] == FoldString(s[lo..hi]);
    FoldKeepsNewlines(s[lo..hi]);
  }

  lemma FoldedFollowedBy(s: string, a: string, b: string)
    requires FoldedPattern(a) && FoldedPattern(b)
    ensures FollowedBy(FoldString(s), a, b) <==> FollowedByIgnoringCase(s, a, b)
  {
    var f := FoldString(s);
    if FollowedBy(f, a, b) {
      var i, j :| Spans(f, a, b, i, j);
      FoldedOccurs(s, a, i);
      FoldedOccurs(s, b, j);
      FoldedOnOneLine(s, i + |a|, j);
    }
    if FollowedByIgnoringCase(s, a, b) {
      var i, j :| OccursIgnoringCase(s, a, i) && i + |a| <= j && OccursIgnoringCase(s, b, j)
                  && OnOneLine(s, i + |a|, j);
      FoldedOccurs(s, a, i);
      FoldedOccurs(s, b, j);
      FoldedOnOneLine(s, i + |a|, j);
      assert Spans(f, a, b, i, j);
    }
  }

  /** No character of `s` folds to `x`: none is accepted for `x` by `(?i)`. */
  predicate LacksIgnoringCase(s: string, x: char) {
    x !in FoldString(s)
  }

  /** A text lacking one of the pattern's characters cannot match it. */
  lemma AbsentIgnoringCase(s: string, w: string, x: char)
    requires FoldedPattern(w) && x in w
    requires LacksIgnoringCase(s, x)
    ensures !ContainsIgnoringCase(s, w)
  {
    FoldedContains(s, w);
    var k :| 0 <= k < |w| && w[k] == x;
    AbsentWithoutCharacter(FoldString(s), w, k);
  }

  /** A match cannot straddle a character that matches no character of
      the pattern. */
  lemma SeamIgnoringCase(a: string, b: string, w: string)
    requires FoldedPattern(w)
    requires |b| > 0 && Fold(b[0]) !in w
    ensures ContainsIgnoringCase(a + b, w) <==> ContainsIgnoringCase(a, w) || ContainsIgnoringCase(b, w)
  {
    FoldedContains(a + b, w);
    FoldedContains(a, w);
    FoldedContains(b, w);
    FoldAppend(a, b);
    ContainsAcrossSeam(FoldString(a), FoldString(b), w);
  }

  /** Extending a text that has no match by a piece that has none, across
      such a character, gives no match. */
  lemma AbsentAcrossSeam(a: string, b: string, w: string, x: char)
    requires FoldedPattern(w) && !ContainsIgnoringCase(a, w)
    requires |b| > 0 && Fold(b[0]) !in w
    requires x in w && LacksIgnoringCase(b, x)
    ensures !ContainsIgnoringCase(a + b, w)
  {
    AbsentIgnoringCase(b, w, x);
    SeamIgnoringCase(a, b, w);
  }

  /** A piece matching the pattern character by character is a match,
      wherever it is placed. */
  lemma FoundIgnoringCase(a: string, m: string, b: string, w: string)
    requires |m| == |w|
    requires forall k :: 0 <= k < |w| ==> m[k] in CaseOrbit(w[k])
    ensures ContainsIgnoringCase(a + m + b, w)
  {
    var s := a + m + b;
    assert forall k :: 0 <= k < |w| ==> s[|a| + k] == m[k];
    assert OccursIgnoringCase(s, w, |a|);
  }

  /** A match inside part of a text is a match in it. */
  lemma FoundInPrefix(a: string, b: string, w: string)
    requires ContainsIgnoringCase(a, w)
    ensures ContainsIgnoringCase(a + b, w)
  {
    var i :| OccursIgnoringCase(a, w, i);
    forall k | 0 <= k < |w|
      ensures (a + b)[i + k] in CaseOrbit(w[k])
    {
      assert (a + b)[i + k] == a[i + k];
    }
    assert OccursIgnoringCase(a + b, w, i);
  }

  lemma FoundInSuffix(a: string, b: string, w: string)
    requires ContainsIgnoringCase(b, w)
    ensures ContainsIgnoringCase(a + b, w)
  {
    var i :| OccursIgnoringCase(b, w, i);
    forall k | 0 <= k < |w|
      ensures (a + b)[|a| + i + k] in CaseOrbit(w[k])
    {
      assert (a + b)[|a| + i + k] == b[i + k];
    }
    assert OccursIgnoringCase(a + b, w, |a| + i);
  }

  /** Where a pattern matches, every part of it matches: a text in which
      part of a pattern has no match has no match for the whole. */
  lemma PartMatches(s: string, w: string, lo: int, hi: int)
    requires 0 <= lo <= hi <= |w|
    ensures ContainsIgnoringCase(s, w) ==> ContainsIgnoringCase(s, w[lo..hi])
  {
    if i :| OccursIgnoringCase(s, w, i) {
      forall k | 0 <= k < hi - lo
        ensures s[i + lo + k] in CaseOrbit(w[lo..hi][k])
      {
        assert w[lo..hi][k] == w[lo + k];
      }
      assert OccursIgnoringCase(s, w[lo..hi], i + lo);
    }
  }

  /** `(?i:a.*b)` needs both literals to match on their own. */
  lemma NotFollowedByIgnoringCase(s: string, a: string, b: string)
    requires !ContainsIgnoringCase(s, a) || !ContainsIgnoringCase(s, b)
    ensures !FollowedByIgnoringCase(s, a, b)
  {
  }

  /** Two matching pieces with a newline-free gap match `(?i:a.*b)`. */
  lemma FoundFollowedBy(pre: string, ma: string, gap: string, mb: string, post: string, a: string, b: string)
    requires |ma| == |a| && forall k :: 0 <= k < |a| ==> ma[k] in CaseOrbit(a[k])
    requires |mb| == |b| && forall k :: 0 <= k < |b| ==> mb[k] in CaseOrbit(b[k])
    requires '\n' !in gap
    ensures FollowedByIgnoringCase(pre + ma + gap + mb + post, a, b)
  {
    var s := pre + ma + gap + mb + post;
    var i := |pre|;
    var j := |pre| + |ma| + |gap|;
    assert forall k :: 0 <= k < |a| ==> s[i + k] == ma[k];
    assert forall k :: 0 <= k < |b| ==> s[j + k] == mb[k];
    assert s[i + |a|..j] == gap;
    assert OccursIgnoringCase(s, a, i) && OccursIgnoringCase(s, b, j) && OnOneLine(s, i + |a|, j);
  }

  // ---------------------------------------------------------------------
  // strings.Cut

  /** The result of `strings.Cut`: the text before and after the first
      separator, and whether there was one. */
  datatype Cut = Cut(before: string, after: string, found: bool)

  /** `strings.Cut(s, string(c))`. */
  function CutAt(s: string, c: char): (r: Cut)
    ensures r.found <==> c in s
    ensures r.found ==> s == r.before + [c] + r.after && c !in r.before
    ensures !r.found ==> r.before == s && r.after == ""
    decreases |s|
  {
    if |s| == 0 then Cut("", "", false)
    else if s[0] == c then Cut("", s[1..], true)
    else
      var r := CutAt(s[1..], c);
      assert s == [s[0]] + s[1..];
      Cut([s[0]] + r.before, r.after, r.found)
  }

  /** Cutting at the first separator recovers the two sides. */
  lemma {:induction false} CutAtFirst(a: string, b: string, c: char)
    requires c !in a
    ensures CutAt(a + [c] + b, c) == Cut(a, b, true)
    decreases |a|
  {
    var s := a + [c] + b;
    if |a| == 0 {
      assert s == [c] + b;
      assert s[1..] == b;
    } else {
      assert s[0] == a[0];
      assert s[1..] == a[1..] + [c] + b;
      CutAtFirst(a[1..], b, c);
      assert a == [a[0]] + a[1..];
    }
  }

  // ---------------------------------------------------------------------
  // strings.Split and its inverse

  /** `parts` separated by `sep`: the inverse of `SplitOn`. */
  function Join(parts: seq<string>, sep: string): string {
    if |parts| == 0 then ""
    else if |parts| == 1 then parts[0]
    else parts[0] + sep + Join(parts[1..], sep)
  }

  /** `strings.Split(s, string(c))`: the maximal runs of `s` free of `c`. */
  function SplitOn(s: string, c: char): (parts: seq<string>)
    ensures |parts| > 0
    ensures Join(parts, [c]) == s
    ensures forall k :: 0 <= k < |parts| ==> c !in parts[k]
    decreases |s|
  {
    if |s| == 0 then [""]
    else
      var rest := SplitOn(s[1..], c);
      if s[0] == c then
        assert s == [c] + s[1..];
        [""] + rest
      else
        var parts := [[s[0]] + rest[0]] + rest[1..];
        assert parts[1..] == rest[1..];
        assert s == [s[0]] + s[1..];
        parts
  }

  /** Splitting what `Join` produced gives the parts back. */
  lemma {:induction false} SplitJoin(parts: seq<string>, c: char)
    requires |parts| > 0
    requires forall k :: 0 <= k < |parts| ==> c !in parts[k]
    ensures SplitOn(Join(parts, [c]), c) == parts
    decreases |Join(parts, [c])|, |parts[0]|
  {
    var s := Join(parts, [c]);
    if |parts[0]| == 0 {
      if |parts| == 1 {
      } else {
        assert s == [c] + Join(parts[1..], [c]);
        assert s[1..] == Join(parts[1..], [c]);
        SplitJoin(parts[1..], c);
        assert parts == [""] + parts[1..];
      }
    } else {
      var tail := [parts[0][1..]] + parts[1..];
      assert tail[1..] == parts[1..];
      assert Join(tail, [c]) == s[1..] by {
        if |parts| > 1 {
          assert s == parts[0] + [c] + Join(parts[1..], [c]);
        }
      }
      SplitJoin(tail, c);
      assert parts[0] == [parts[0][0]] + parts[0][1..];
      assert parts == [[s[0]] + tail[0]] + tail[1..];
    }
  }

  /** Splitting a `c`-prefixed text whose second part is free of `c` and
      ends at another `c`: the first two parts are empty and that part. */
  lemma SplitLeadingSegment(t: string, x: string, c: char)
    requires c !in t
    requires |x| > 0 && x[0] == c
    ensures |SplitOn([c] + t + x, c)| >= 2
    ensures SplitOn([c] + t + x, c)[0] == "" && SplitOn([c] + t + x, c)[1] == t
  {
    var rest := SplitOn(x[1..], c);
    var parts := ["", t] + rest;
    assert parts[1..] == [t] + rest;
    assert parts[1..][1..] == rest;
    assert Join(parts[1..], [c]) == t + [c] + Join(rest, [c]);
    assert Join(parts, [c]) == "" + [c] + Join(parts[1..], [c]);
    assert x == [c] + x[1..];
    assert Join(parts, [c]) == [c] + t + x;
    SplitJoin(parts, c);
  }
}
