/** The string operations the generators use: decimal rendering of integers
    (f-string `{n}`), ASCII case mapping (`str.lower`, `str.upper`) and
    `str.replace`, together with their inverses or reference definitions. */
module Text {
  import opened Common

  // ---------------------------------------------------------------------
  // Decimal numerals
  // ---------------------------------------------------------------------

  predicate IsDigit(c: char) { '0' <= c <= '9' }

  predicate AllDigits(s: string) { forall i :: 0 <= i < |s| ==> IsDigit(s[i]) }

  function DigitChar(d: nat): (c: char)
    requires d < 10
    ensures IsDigit(c)
  {
    (d + '0' as int) as char
  }

  /** Decimal rendering of a natural number, most significant digit first,
      with no leading zero. */
  function NatToString(n: nat): (s: string)
    ensures |s| > 0 && AllDigits(s)
    ensures |s| > 1 ==> s[0] != '0'
  {
    if n < 10 then [DigitChar(n)] else NatToString(n / 10) + [DigitChar(n % 10)]
  }

  /** Decimal rendering of an integer, as Python's `str(int)` writes it. */
  function IntToString(i: int): (s: string)
  {
    if i < 0 then "-" + NatToString(-i) else NatToString(i)
  }

  /** The value of a string of decimal digits. */
  function ParseNat(s: string): nat
    requires AllDigits(s)
  {
    if |s| == 0 then 0 else ParseNat(s[..|s| - 1]) * 10 + (s[|s| - 1] as int - '0' as int)
  }

  /** The inverse of IntToString on the strings it produces. */
  function ParseInt(s: string): Option<int>
  {
    if |s| > 0 && s[0] == '-' && AllDigits(s[1..]) then Some(0 - ParseNat(s[1..]) as int)
    else if AllDigits(s) then Some(ParseNat(s))
    else None
  }

  lemma {:induction false} ParseNatToString(n: nat)
    ensures ParseNat(NatToString(n)) == n
  {
    var s := NatToString(n);
    if n >= 10 {
      assert s[..|s| - 1] == NatToString(n / 10);
      ParseNatToString(n / 10);
    }
  }

  lemma ParseIntToString(i: int)
    ensures ParseInt(IntToString(i)) == Some(i)
  {
    if i < 0 {
      assert IntToString(i)[1..] == NatToString(-i);
      ParseNatToString(-i);
    } else {
      ParseNatToString(i);
    }
  }

  /** Distinct integers are written differently. */
  lemma IntToStringInjective(i: int, j: int)
    requires IntToString(i) == IntToString(j)
    ensures i == j
  {
    ParseIntToString(i);
    ParseIntToString(j);
  }

  // ---------------------------------------------------------------------
  // ASCII case mapping
  // ---------------------------------------------------------------------

  predicate IsUpper(c: char) { 'A' <= c <= 'Z' }
  predicate IsLower(c: char) { 'a' <= c <= 'z' }

  function LowerChar(c: char): char
  {
    if IsUpper(c) then (c as int + 32) as char else c
  }

  function UpperChar(c: char): char
  {
    if IsLower(c) then (c as int - 32) as char else c
  }

  /** `str.lower()` on ASCII letters: same length, every upper-case letter
      becomes its lower-case partner (32 code points on), no upper-case
      letter left, every other character kept. */
  function ToLower(s: string): (r: string)
    ensures |r| == |s|
    ensures forall i :: 0 <= i < |s| && IsUpper(s[i]) ==> r[i] as int == s[i] as int + 32 && IsLower(r[i])
    ensures forall i :: 0 <= i < |s| ==> !IsUpper(r[i])
    ensures forall i :: 0 <= i < |s| && !IsUpper(s[i]) ==> r[i] == s[i]
  {
    seq(|s|, i requires 0 <= i < |s| => LowerChar(s[i]))
  }

  /** `str.upper()` on ASCII letters: every lower-case letter becomes its
      upper-case partner (32 code points back), every other character kept. */
  function ToUpper(s: string): (r: string)
    ensures |r| == |s|
    ensures forall i :: 0 <= i < |s| && IsLower(s[i]) ==> r[i] as int == s[i] as int - 32 && IsUpper(r[i])
    ensures forall i :: 0 <= i < |s| ==> !IsLower(r[i])
    ensures forall i :: 0 <= i < |s| && !IsLower(s[i]) ==> r[i] == s[i]
  {
    seq(|s|, i requires 0 <= i < |s| => UpperChar(s[i]))
  }

  // ---------------------------------------------------------------------
  // str.replace
  // ---------------------------------------------------------------------

  /** `p` occurs in `s` starting at index `i`. */
  predicate OccursAt(s: string, p: string, i: int)
  {
    0 <= i && i + |p| <= |s| && s[i..i + |p|] == p
  }

  predicate Occurs(s: string, p: string)
  {
    exists i | 0 <= i <= |s| :: OccursAt(s, p, i)
  }

  /** `s.replace(p, r)`: scan left to right, replace each occurrence of the
      non-empty pattern `p` and continue after it. */
  function ReplaceAll(s: string, p: string, r: string): string
    requires |p| > 0
    decreases |s|
  {
    if |s| < |p| then s
    else if s[..|p|] == p then r + ReplaceAll(s[|p|..], p, r)
    else [s[0]] + ReplaceAll(s[1..], p, r)
  }

  /** `s.split(p)`: the pieces between the occurrences of `p`. */
  function Split(s: string, p: string): (parts: seq<string>)
    requires |p| > 0
    ensures |parts| >= 1
    decreases |s|
  {
    if |s| < |p| then [s]
    else if s[..|p|] == p then [""] + Split(s[|p|..], p)
    else
      var rest := Split(s[1..], p);
      [[s[0]] + rest[0]] + rest[1..]
  }

  /** The first piece of a split is a prefix of the string. */
  lemma {:induction false} SplitFirstIsPrefix(s: string, p: string)
    requires |p| > 0
    ensures Split(s, p)[0] <= s
    decreases |s|
  {
    if |s| >= |p| && s[..|p|] != p {
      SplitFirstIsPrefix(s[1..], p);
    }
  }

  /** Every occurrence is cut: no piece of a split contains the pattern. */
  lemma {:induction false} SplitPiecesFree(s: string, p: string)
    requires |p| > 0
    ensures forall k :: 0 <= k < |Split(s, p)| ==> !Occurs(Split(s, p)[k], p)
    decreases |s|
  {
    if |s| < |p| {
      assert !Occurs(s, p);
    } else if s[..|p|] == p {
      SplitPiecesFree(s[|p|..], p);
      assert !Occurs("", p);
    } else {
      var rest := Split(s[1..], p);
      SplitPiecesFree(s[1..], p);
      SplitFirstIsPrefix(s[1..], p);
      var first := [s[0]] + rest[0];
      assert first <= s by {
        assert s == [s[0]] + s[1..];
      }
      if Occurs(first, p) {
        var i :| 0 <= i <= |first| && OccursAt(first, p, i);
        if i > 0 {
          assert first[i..i + |p|] == rest[0][i - 1..i - 1 + |p|];
          assert OccursAt(rest[0], p, i - 1);
        }
      }
      assert Split(s, p) == [first] + rest[1..];
    }
  }

  /** `sep.join(parts)`. */
  function Join(parts: seq<string>, sep: string): string
    requires |parts| >= 1
    decreases |parts|
  {
    if |parts| == 1 then parts[0] else parts[0] + sep + Join(parts[1..], sep)
  }

  lemma JoinExtendFirst(x: string, rest: seq<string>, sep: string)
    requires |rest| >= 1
    ensures Join([x + rest[0]] + rest[1..], sep) == x + Join(rest, sep)
  {
    var parts := [x + rest[0]] + rest[1..];
    if |rest| > 1 {
      assert parts[1..] == rest[1..];
    }
  }

  /** `s.replace(p, r)` agrees with `r.join(s.split(p))`. */
  lemma {:induction false} ReplaceAllIsJoinOfSplit(s: string, p: string, r: string)
    requires |p| > 0
    ensures ReplaceAll(s, p, r) == Join(Split(s, p), r)
    decreases |s|
  {
    if |s| < |p| {
    } else if s[..|p|] == p {
      var rest := Split(s[|p|..], p);
      ReplaceAllIsJoinOfSplit(s[|p|..], p, r);
      assert ([""] + rest)[1..] == rest;
    } else {
      var rest := Split(s[1..], p);
      ReplaceAllIsJoinOfSplit(s[1..], p, r);
      JoinExtendFirst([s[0]], rest, r);
    }
  }

  /** Splitting on `p` and joining with `p` gives back the string. */
  lemma {:induction false} JoinSplitRoundTrip(s: string, p: string)
    requires |p| > 0
    ensures Join(Split(s, p), p) == s
    decreases |s|
  {
    if |s| < |p| {
    } else if s[..|p|] == p {
      var rest := Split(s[|p|..], p);
      JoinSplitRoundTrip(s[|p|..], p);
      assert Split(s, p) == [""] + rest;
      assert ([""] + rest)[1..] == rest;
      assert Join(Split(s, p), p) == "" + p + Join(rest, p);
      assert s == s[..|p|] + s[|p|..];
    } else {
      var rest := Split(s[1..], p);
      JoinSplitRoundTrip(s[1..], p);
      assert Split(s, p) == [[s[0]] + rest[0]] + rest[1..];
      JoinExtendFirst([s[0]], rest, p);
      assert s == [s[0]] + s[1..];
    }
  }

  /** Replacing a pattern by itself changes nothing. */
  lemma ReplaceBySelf(s: string, p: string)
    requires |p| > 0
    ensures ReplaceAll(s, p, p) == s
  {
    ReplaceAllIsJoinOfSplit(s, p, p);
    JoinSplitRoundTrip(s, p);
  }

  /** A string that is exactly the pattern becomes exactly the replacement. */
  lemma ReplaceWhole(p: string, r: string)
    requires |p| > 0
    ensures ReplaceAll(p, p, r) == r
  {
    assert p[..|p|] == p;
    assert ReplaceAll(p[|p|..], p, r) == "";
  }

  /** A string in which the pattern does not occur comes back unchanged. */
  lemma {:induction false} ReplaceAbsent(s: string, p: string, r: string)
    requires |p| > 0
    requires !Occurs(s, p)
    ensures ReplaceAll(s, p, r) == s
    decreases |s|
  {
    if |s| >= |p| {
      assert !OccursAt(s, p, 0);
      assert s[0..|p|] == s[..|p|];
      if Occurs(s[1..], p) {
        var i :| 0 <= i <= |s[1..]| && OccursAt(s[1..], p, i);
        assert s[1..][i..i + |p|] == s[i + 1..i + 1 + |p|];
        assert OccursAt(s, p, i + 1);
      }
      ReplaceAbsent(s[1..], p, r);
      assert s == [s[0]] + s[1..];
    }
  }

  /** Replacing a single character by a single character is a pointwise
      substitution: the length is kept and no occurrence of the old
      character survives (when it differs from the new one). */
  lemma {:induction false} ReplaceOneChar(s: string, a: char, b: char)
    ensures |ReplaceAll(s, [a], [b])| == |s|
    ensures forall i :: 0 <= i < |s| ==>
              ReplaceAll(s, [a], [b])[i] == (if s[i] == a then b else s[i])
    decreases |s|
  {
    if |s| > 0 {
      ReplaceOneChar(s[1..], a, b);
      var t := ReplaceAll(s[1..], [a], [b]);
      assert s[..1] == [s[0]];
      assert ReplaceAll(s, [a], [b]) == [if s[0] == a then b else s[0]] + t;
    }
  }

  /** `s.replace(p, r)` replaces every occurrence: it cuts `s` into pieces
      that contain no `p` and re-join to `s` with `p`, and re-joins the
      same pieces with `r`. */
  lemma ReplaceEveryOccurrence(s: string, p: string, r: string)
    requires |p| > 0
    ensures var parts := Split(s, p);
            && Join(parts, p) == s
            && (forall k :: 0 <= k < |parts| ==> !Occurs(parts[k], p))
            && ReplaceAll(s, p, r) == Join(parts, r)
  {
    JoinSplitRoundTrip(s, p);
    SplitPiecesFree(s, p);
    ReplaceAllIsJoinOfSplit(s, p, r);
  }
}
