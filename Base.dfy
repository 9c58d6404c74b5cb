/** Building blocks shared by every module: an Option type for Python's
    None-or-value, and the handful of Python string operations the site
    relies on (lower(), strip(), slicing, `in`, replace(), split()[0],
    join(), str(int) and int(str)). Character classes are ASCII: Unicode
    case mapping and Unicode whitespace beyond the listed characters are
    not modelled. */
module Base {

  datatype Option<T> = None | Some(value: T)

  // ---------------------------------------------------------------------
  // Case mapping (ASCII part of str.lower())
  // ---------------------------------------------------------------------

  predicate IsUpper(c: char) { 'A' <= c <= 'Z' }

  predicate IsLowerLetter(c: char) { 'a' <= c <= 'z' }

  predicate IsDigit(c: char) { '0' <= c <= '9' }

  predicate IsAlnum(c: char) { IsUpper(c) || IsLowerLetter(c) || IsDigit(c) }

  function LowerChar(c: char): (r: char)
    ensures !IsUpper(r)
    ensures IsUpper(c) || r == c
  {
    if IsUpper(c) then (c as int - 'A' as int + 'a' as int) as char else c
  }

  function UpperChar(c: char): (r: char)
    ensures !IsLowerLetter(r)
    ensures IsLowerLetter(c) || r == c
  {
    if IsLowerLetter(c) then (c as int - 'a' as int + 'A' as int) as char else c
  }

  /** Python's s.lower(), restricted to ASCII letters. */
  function Lower(s: string): (r: string)
    ensures |r| == |s|
    ensures forall i :: 0 <= i < |s| ==> r[i] == LowerChar(s[i])
  {
    if s == [] then [] else [LowerChar(s[0])] + Lower(s[1..])
  }

  lemma {:induction false} LowerNoUpper(s: string)
    requires forall k :: 0 <= k < |s| ==> !IsUpper(s[k])
    ensures Lower(s) == s
  {
  }

  lemma {:induction false} LowerIdempotent(s: string)
    ensures Lower(Lower(s)) == Lower(s)
  {
    var l := Lower(s);
    assert forall i :: 0 <= i < |l| ==> Lower(l)[i] == l[i];
  }

  // ---------------------------------------------------------------------
  // Substrings
  // ---------------------------------------------------------------------

  /** `sub` occurs in `s` starting at index i. */
  predicate OccursAt(s: string, sub: string, i: int) {
    0 <= i && i + |sub| <= |s| && s[i..i + |sub|] == sub
  }

  /** Moving one character into s shifts every occurrence by one. */
  lemma OccursShift(s: string, sub: string)
    requires s != []
    ensures forall i :: 0 < i ==> (OccursAt(s, sub, i) <==> OccursAt(s[1..], sub, i - 1))
  {
    forall i | 0 < i ensures OccursAt(s, sub, i) <==> OccursAt(s[1..], sub, i - 1) {
      if i + |sub| <= |s| {
        assert s[1..][i - 1..i - 1 + |sub|] == s[i..i + |sub|];
      }
    }
  }

  /** Python's `sub in s`: checked by sliding over s. */
  function Contains(s: string, sub: string): (r: bool)
    ensures r <==> exists i :: OccursAt(s, sub, i)
    decreases |s|
  {
    if sub <= s then
      assert OccursAt(s, sub, 0);
      true
    else if s == [] then
      false
    else
      var rest := Contains(s[1..], sub);
      OccursShift(s, sub);
      assert !OccursAt(s, sub, 0);
      if rest then
        var j :| OccursAt(s[1..], sub, j);
        assert OccursAt(s, sub, j + 1);
        true
      else
        false
  }

  lemma ContainsPrefix(s: string, p: string)
    requires p <= s
    ensures Contains(s, p)
  {
    assert OccursAt(s, p, 0);
  }

  /** Anything found in a slice of s is found in s. */
  lemma ContainsInSlice(s: string, lo: int, hi: int, sub: string)
    requires 0 <= lo <= hi <= |s|
    requires Contains(s[lo..hi], sub)
    ensures Contains(s, sub)
  {
    var t := s[lo..hi];
    var j :| OccursAt(t, sub, j);
    forall k | 0 <= k < |sub| ensures s[lo + j + k] == sub[k] {
      assert t[j..j + |sub|][k] == t[j + k];
    }
    assert s[lo + j..lo + j + |sub|] == sub;
    assert OccursAt(s, sub, lo + j);
  }

  lemma ContainsTail(s: string, sub: string)
    requires s != []
    ensures Contains(s[1..], sub) ==> Contains(s, sub)
  {
    assert s[1..|s|] == s[1..];
    if Contains(s[1..], sub) { ContainsInSlice(s, 1, |s|, sub); }
  }

  /** Python's any(x in s for x in xs). */
  function ContainsAny(s: string, xs: seq<string>): (r: bool)
    ensures r <==> exists k :: 0 <= k < |xs| && Contains(s, xs[k])
  {
    if xs == [] then false
    else if Contains(s, xs[0]) then true
    else
      var rest := ContainsAny(s, xs[1..]);
      assert forall k :: 1 <= k < |xs| ==> xs[1..][k - 1] == xs[k];
      rest
  }

  /** Python's s[:n] on a string or a list. */
  function Take<T>(s: seq<T>, n: nat): (r: seq<T>)
    ensures |r| <= n && r <= s
    ensures |s| <= n ==> r == s
    ensures |s| > n ==> |r| == n
  {
    if |s| <= n then s else s[..n]
  }

  /** Python's s.replace(pat, rep): left to right, non-overlapping. */
  function ReplaceAll(s: string, pat: string, rep: string): (r: string)
    requires pat != []
    ensures !Contains(s, pat) ==> r == s
    decreases |s|
  {
    if |s| < |pat| then s
    else if pat <= s then
      ContainsPrefix(s, pat);
      rep + ReplaceAll(s[|pat|..], pat, rep)
    else
      ContainsTail(s, pat);
      [s[0]] + ReplaceAll(s[1..], pat, rep)
  }

  /** A character that cannot start the pattern is kept and skipped. */
  lemma ReplaceAllSkip(c: char, s: string, pat: string, rep: string)
    requires pat != [] && c != pat[0]
    ensures ReplaceAll([c] + s, pat, rep) == [c] + ReplaceAll(s, pat, rep)
  {
    var t := [c] + s;
    assert t[1..] == s;
    if |t| < |pat| {
      assert ReplaceAll(s, pat, rep) == s;
    }
  }

  /** An occurrence at the front is replaced. */
  lemma ReplaceAllHit(s: string, pat: string, rep: string)
    requires pat != []
    ensures ReplaceAll(pat + s, pat, rep) == rep + ReplaceAll(s, pat, rep)
  {
    assert (pat + s)[|pat|..] == s;
  }

  lemma Assoc<T>(x: seq<T>, y: seq<T>, z: seq<T>)
    ensures x + y + z == x + (y + z)
  {
  }

  /** Text free of the pattern's first character is kept as it is. */
  lemma {:induction false} ReplaceAllFreePrefix(a: string, w: string, pat: string, rep: string)
    requires pat != [] && pat[0] !in a
    ensures ReplaceAll(a + w, pat, rep) == a + ReplaceAll(w, pat, rep)
    decreases |a|
  {
    if a == [] {
      assert a + w == w;
    } else {
      var c, tail := a[0], a[1..];
      assert a == [c] + tail;
      ReplaceAllFreePrefix(tail, w, pat, rep);
      Assoc([c], tail, w);
      ReplaceAllSkip(c, tail + w, pat, rep);
      Assoc([c], tail, ReplaceAll(w, pat, rep));
    }
  }

  /** An occurrence after text free of the pattern's first character is
      replaced, the text before it kept. */
  lemma ReplaceAllAfter(a: string, b: string, pat: string, rep: string)
    requires pat != [] && pat[0] !in a
    ensures ReplaceAll(a + pat + b, pat, rep) == a + rep + ReplaceAll(b, pat, rep)
  {
    Assoc(a, pat, b);
    ReplaceAllFreePrefix(a, pat + b, pat, rep);
    ReplaceAllHit(b, pat, rep);
    Assoc(a, rep, ReplaceAll(b, pat, rep));
  }

  // ---------------------------------------------------------------------
  // Whitespace and splitting
  // ---------------------------------------------------------------------

  /** The characters Python's str.isspace() accepts among code points
      below 256. */
  predicate IsSpace(c: char) {
    c == ' ' || (9 <= c as int <= 13) || (0x1c <= c as int <= 0x1f)
    || c as int == 0x85 || c as int == 0xa0
  }

  function TrimLeft(s: string): (r: string)
    ensures |r| <= |s| && r == s[|s| - |r|..]
    ensures r == [] || !IsSpace(r[0])
    ensures forall i :: 0 <= i < |s| - |r| ==> IsSpace(s[i])
  {
    if s != [] && IsSpace(s[0]) then
      var r := TrimLeft(s[1..]);
      assert forall i :: 1 <= i < |s| - |r| ==> s[i] == s[1..][i - 1];
      r
    else s
  }

  function TrimRight(s: string): (r: string)
    ensures r <= s
    ensures r == [] || !IsSpace(r[|r| - 1])
    ensures forall i :: |r| <= i < |s| ==> IsSpace(s[i])
  {
    if s != [] && IsSpace(s[|s| - 1]) then TrimRight(s[..|s| - 1]) else s
  }

  /** Python's s.strip(). */
  function Strip(s: string): (r: string)
  {
    TrimRight(TrimLeft(s))
  }

  /** r is s with its leading and trailing white space removed: a
      contiguous slice of s, white space on either side of it, and no
      white space at either end of it. */
  ghost predicate IsStripOf(s: string, r: string) {
    && (r == [] || (!IsSpace(r[0]) && !IsSpace(r[|r| - 1])))
    && exists k :: StrippedAt(s, k, r)
  }

  /** r sits at offset k of s with only white space around it. */
  ghost predicate StrippedAt(s: string, k: int, r: string) {
    && 0 <= k <= |s| - |r|
    && (forall j :: 0 <= j < |r| ==> r[j] == s[k + j])
    && (forall i :: 0 <= i < k ==> IsSpace(s[i]))
    && (forall i :: k + |r| <= i < |s| ==> IsSpace(s[i]))
  }

  lemma StripShape(s: string)
    ensures IsStripOf(s, Strip(s))
  {
    var l := TrimLeft(s);
    StripOfParts(s, |s| - |l|, l, TrimRight(l));
  }

  /** Cutting the white space off s's left end (leaving l) and then off
      l's right end (leaving r) yields a strip of s. */
  lemma StripOfParts(s: string, k: int, l: string, r: string)
    requires 0 <= k <= |s| && l == s[k..] && r <= l
    requires forall i :: 0 <= i < k ==> IsSpace(s[i])
    requires forall i :: |r| <= i < |l| ==> IsSpace(l[i])
    requires l == [] || !IsSpace(l[0])
    requires r == [] || !IsSpace(r[|r| - 1])
    ensures IsStripOf(s, r)
  {
    SuffixAt(s, k, l);
    forall i | k + |r| <= i < |s|
      ensures IsSpace(s[i])
    {
      assert s[i] == l[i - k];
    }
    assert r == [] || r[0] == l[0];
    assert StrippedAt(s, k, r);
  }

  /** The suffix of s from k holds s's elements shifted by k. */
  lemma SuffixAt<T>(s: seq<T>, k: int, l: seq<T>)
    requires 0 <= k <= |s| && l == s[k..]
    ensures forall j :: 0 <= j < |l| ==> l[j] == s[k + j]
  {
  }

  /** s.split(sep)[0]: the text before the first `sep`, or all of s. */
  function BeforeFirst(s: string, sep: char): (r: string)
    ensures r <= s && sep !in r
    ensures r == s || s[|r|] == sep
  {
    if s == [] then []
    else if s[0] == sep then []
    else [s[0]] + BeforeFirst(s[1..], sep)
  }

  /** sep.join(parts). */
  function Join(parts: seq<string>, sep: string): (r: string)
    ensures parts == [] ==> r == []
    ensures |parts| == 1 ==> r == parts[0]
  {
    if parts == [] then []
    else if |parts| == 1 then parts[0]
    else parts[0] + sep + Join(parts[1..], sep)
  }

  // ---------------------------------------------------------------------
  // Decimal numerals: str(n) for n >= 0 and its inverse
  // ---------------------------------------------------------------------

  function DigitChar(d: nat): (c: char)
    requires d < 10
    ensures IsDigit(c)
  {
    ('0' as int + d) as char
  }

  function DigitValue(c: char): (d: nat)
    requires IsDigit(c)
    ensures d < 10
  {
    c as int - '0' as int
  }

  /** Python's str(n) for a non-negative int. */
  function NatToString(n: nat): (r: string)
    ensures r != []
    ensures forall k :: 0 <= k < |r| ==> IsDigit(r[k])
  {
    if n < 10 then [DigitChar(n)] else NatToString(n / 10) + [DigitChar(n % 10)]
  }

  /** Python's str(n) for any int. */
  function IntToString(n: int): (r: string)
    ensures n >= 0 ==> r == NatToString(n)
    ensures n < 0 ==> r == "-" + NatToString(-n)
  {
    if n >= 0 then NatToString(n) else "-" + NatToString(-n)
  }

  predicate AllDigits(s: string) {
    forall k :: 0 <= k < |s| ==> IsDigit(s[k])
  }

  /** The value of a non-empty run of decimal digits. */
  function DigitsValue(s: string): nat
    requires AllDigits(s)
  {
    if s == [] then 0 else DigitsValue(s[..|s| - 1]) * 10 + DigitValue(s[|s| - 1])
  }

  lemma {:induction false} DigitsValueOfNatToString(n: nat)
    ensures DigitsValue(NatToString(n)) == n
  {
    if n < 10 {
      assert NatToString(n)[..0] == [];
    } else {
      var p := NatToString(n / 10);
      var s := p + [DigitChar(n % 10)];
      assert s[..|s| - 1] == p;
      DigitsValueOfNatToString(n / 10);
    }
  }

  /** str() is injective on naturals, so "base-1", "base-2", ... differ. */
  lemma NatToStringInjective(a: nat, b: nat)
    requires NatToString(a) == NatToString(b)
    ensures a == b
  {
    DigitsValueOfNatToString(a);
    DigitsValueOfNatToString(b);
  }

  /** Python's int(s) on a string: surrounding whitespace, an optional
      sign and at least one ASCII digit. Underscore separators and
      non-ASCII digits are not modelled. */
  function ParseInt(s: string): (r: Option<int>)
    ensures r.Some? ==> Strip(s) != []
  {
    var t := Strip(s);
    if t == [] then None
    else if t[0] == '-' && |t| > 1 && AllDigits(t[1..]) then Some(-(DigitsValue(t[1..]) as int))
    else if t[0] == '+' && |t| > 1 && AllDigits(t[1..]) then Some(DigitsValue(t[1..]))
    else if AllDigits(t) then Some(DigitsValue(t))
    else None
  }

  lemma ParseIntOfNatToString(n: nat)
    ensures ParseInt(NatToString(n)) == Some(n)
  {
    var s := NatToString(n);
    assert !IsSpace(s[0]) && !IsSpace(s[|s| - 1]);
    assert TrimLeft(s) == s;
    assert TrimRight(s) == s;
    DigitsValueOfNatToString(n);
  }

  /** A subset is no larger than its superset. */
  lemma SubsetSize<T>(a: set<T>, b: set<T>)
    requires a <= b
    ensures |a| <= |b|
  {
    if a != {} {
      var x :| x in a;
      SubsetSize(a - {x}, b - {x});
    }
  }
}
