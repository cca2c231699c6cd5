/** The string rules the report relies on: Python's `str.upper`, `str.title`,
    `str.replace`, `in` and `split`, restricted to ASCII letters, plus the
    decimal rendering `str(n)` of a count or page number. */
module Text {
  import opened Common

  predicate IsLower(c: char) { 'a' <= c <= 'z' }
  predicate IsUpper(c: char) { 'A' <= c <= 'Z' }

  /** A cased character in the sense of `str.title` (ASCII letters only). */
  predicate IsLetter(c: char) { IsLower(c) || IsUpper(c) }

  function UpperChar(c: char): (u: char)
    ensures IsLetter(u) <==> IsLetter(c)
    ensures !IsLower(u)
    ensures !IsLetter(c) ==> u == c
  {
    if IsLower(c) then (c as int - 32) as char else c
  }

  function LowerChar(c: char): (l: char)
    ensures IsLetter(l) <==> IsLetter(c)
    ensures !IsUpper(l)
    ensures !IsLetter(c) ==> l == c
  {
    if IsUpper(c) then (c as int + 32) as char else c
  }

  /** `str.upper()`: every lower-case letter becomes upper case, nothing else changes. */
  function Upper(s: string): (r: string)
    ensures |r| == |s|
    ensures forall i :: 0 <= i < |s| ==> r[i] == UpperChar(s[i])
  {
    if s == [] then [] else [UpperChar(s[0])] + Upper(s[1..])
  }

  /** `str.replace(target, replacement)` for one-character target and replacement. */
  function ReplaceChar(s: string, target: char, replacement: char): (r: string)
    ensures |r| == |s|
    ensures forall i :: 0 <= i < |s| ==> r[i] == (if s[i] == target then replacement else s[i])
  {
    if s == [] then []
    else [if s[0] == target then replacement else s[0]] + ReplaceChar(s[1..], target, replacement)
  }

  /** Position i of s opens a word for `str.title`: it is first, or follows an uncased character. */
  predicate StartsWord(s: string, i: nat)
    requires i < |s|
  {
    i == 0 || !IsLetter(s[i - 1])
  }

  /** What `str.title` puts at position i of s. */
  function TitleCharAt(s: string, i: nat): char
    requires i < |s|
  {
    if !IsLetter(s[i]) then s[i]
    else if StartsWord(s, i) then UpperChar(s[i])
    else LowerChar(s[i])
  }

  /** The left-to-right scan of `str.title`: `prevCased` says whether the
      character before `s` was cased. */
  function TitleScan(s: string, prevCased: bool): string
  {
    if s == [] then []
    else if IsLetter(s[0]) then
      [if prevCased then LowerChar(s[0]) else UpperChar(s[0])] + TitleScan(s[1..], true)
    else [s[0]] + TitleScan(s[1..], false)
  }

  /** What the scan puts at position i of s, given whether the character before s was cased. */
  function ScanCharAt(s: string, prevCased: bool, i: nat): char
    requires i < |s|
  {
    if !IsLetter(s[i]) then s[i]
    else if (if i == 0 then !prevCased else !IsLetter(s[i - 1])) then UpperChar(s[i])
    else LowerChar(s[i])
  }

  lemma {:induction false} TitleScanAt(s: string, prevCased: bool)
    ensures |TitleScan(s, prevCased)| == |s|
    ensures forall i :: 0 <= i < |s| ==> TitleScan(s, prevCased)[i] == ScanCharAt(s, prevCased, i)
  {
    if s != [] {
      var rest := s[1..];
      TitleScanAt(rest, IsLetter(s[0]));
      var r := TitleScan(s, prevCased);
      assert r == [ScanCharAt(s, prevCased, 0)] + TitleScan(rest, IsLetter(s[0]));
      forall i | 0 <= i < |s|
        ensures r[i] == ScanCharAt(s, prevCased, i)
      {
        if i > 0 {
          assert r[i] == TitleScan(rest, IsLetter(s[0]))[i - 1];
          assert ScanCharAt(rest, IsLetter(s[0]), i - 1) == ScanCharAt(s, prevCased, i);
        }
      }
    }
  }

  /** `str.title()`: a letter that opens a word becomes upper case, every other letter lower case. */
  function Title(s: string): (r: string)
    ensures |r| == |s|
    ensures forall i :: 0 <= i < |s| ==> r[i] == TitleCharAt(s, i)
  {
    TitleScanAt(s, false);
    assert forall i :: 0 <= i < |s| ==> ScanCharAt(s, false, i) == TitleCharAt(s, i);
    TitleScan(s, false)
  }

  /** Applying `str.title` twice changes nothing more. */
  lemma TitleIdempotent(s: string)
    ensures Title(Title(s)) == Title(s)
  {
    var t := Title(s);
    forall i | 0 <= i < |s|
      ensures Title(t)[i] == t[i]
    {
      assert IsLetter(t[i]) <==> IsLetter(s[i]);
      if i > 0 {
        assert IsLetter(t[i - 1]) <==> IsLetter(s[i - 1]);
      }
    }
  }

  /** The category label of the analytics table and section headings:
      underscores become spaces, then the text is title-cased. */
  function Humanize(s: string): (r: string)
    ensures |r| == |s|
    ensures '_' !in r
    ensures forall i :: 0 <= i < |s| && s[i] == '_' ==> r[i] == ' '
    ensures forall i :: 0 <= i < |s| && !IsLetter(s[i]) && s[i] != '_' ==> r[i] == s[i]
    ensures forall i :: 0 <= i < |s| && IsLetter(s[i]) ==>
      LowerChar(r[i]) == LowerChar(s[i]) && (IsUpper(r[i]) <==> StartsWord(s, i))
  {
    var spaced := ReplaceChar(s, '_', ' ');
    var r := Title(spaced);
    assert forall i :: 0 <= i < |s| ==> (IsLetter(spaced[i]) <==> IsLetter(s[i]));
    assert forall i :: 0 <= i < |s| ==> r[i] != '_' by {
      forall i | 0 <= i < |s| ensures r[i] != '_' {
        assert spaced[i] != '_';
      }
    }
    r
  }

  // ---------------------------------------------------------------------------
  // Substring search: `pat in s` and `s.split(sep)`.

  /** pat occurs in s starting at index k. */
  predicate OccursAt(s: string, pat: string, k: nat)
  {
    k + |pat| <= |s| && s[k..k + |pat|] == pat
  }

  /** `s.find(pat, from)`: the first index at or after `from` where pat occurs. */
  function IndexFrom(s: string, pat: string, from: nat): (r: Option<nat>)
    decreases |s| - from
    ensures r.Some? ==> from <= r.value && OccursAt(s, pat, r.value)
    ensures r.Some? ==> forall k: nat :: from <= k < r.value ==> !OccursAt(s, pat, k)
    ensures r.None? ==> forall k: nat :: from <= k ==> !OccursAt(s, pat, k)
  {
    if from + |pat| > |s| then None
    else if OccursAt(s, pat, from) then Some(from)
    else IndexFrom(s, pat, from + 1)
  }

  /** `pat in s`. */
  predicate Contains(s: string, pat: string)
  {
    IndexFrom(s, pat, 0).Some?
  }

  lemma ContainsIff(s: string, pat: string)
    ensures Contains(s, pat) <==> exists k: nat :: OccursAt(s, pat, k)
  {
    if !Contains(s, pat) {
      assert forall k: nat :: !OccursAt(s, pat, k);
    }
  }

  /** `s.split(sep)[0]`: the text before the first occurrence of sep, or all of s. */
  function FirstPiece(s: string, sep: string): (r: string)
    requires sep != []
    ensures r <= s
    ensures |r| == |s| || OccursAt(s, sep, |r|)
    ensures forall k: nat :: k < |r| ==> !OccursAt(s, sep, k)
  {
    match IndexFrom(s, sep, 0)
    case None => s
    case Some(i) => s[..i]
  }

  /** Splitting at a single character c: the first piece holds no c and is
      followed by c or by the end of s. */
  lemma FirstPieceAtChar(s: string, c: char)
    ensures var r := FirstPiece(s, [c]);
      c !in r && r == s[..|r|] && (|r| == |s| || s[|r|] == c)
  {
    var r := FirstPiece(s, [c]);
    forall k | 0 <= k < |r|
      ensures r[k] != c
    {
      assert !OccursAt(s, [c], k);
      assert s[k..k + 1] == [s[k]];
    }
    if |r| < |s| {
      assert OccursAt(s, [c], |r|);
      assert s[|r|..|r| + 1] == [s[|r|]];
    }
  }

  /** `s.split(sep)[1]`: the text between the first and the second occurrence
      of sep (or the end); None where Python raises IndexError because sep
      does not occur. */
  function SecondPiece(s: string, sep: string): (r: Option<string>)
    requires sep != []
    ensures r.None? <==> !Contains(s, sep)
    ensures r.Some? ==> var i := IndexFrom(s, sep, 0).value; var e := i + |sep| + |r.value|;
      && e <= |s| && r.value == s[i + |sep|..e]
      && (e == |s| || OccursAt(s, sep, e))
      && (forall k: nat :: i + |sep| <= k < e ==> !OccursAt(s, sep, k))
  {
    match IndexFrom(s, sep, 0)
    case None => None
    case Some(i) =>
      match IndexFrom(s, sep, i + |sep|)
      case None => Some(s[i + |sep|..])
      case Some(j) => Some(s[i + |sep|..j])
  }

  // ---------------------------------------------------------------------------
  // Decimal rendering of counts and page numbers.

  function DigitChar(d: nat): (c: char)
    requires d < 10
    ensures '0' <= c <= '9'
  {
    ('0' as int + d) as char
  }

  /** `str(n)` for a non-negative integer: its decimal digits, no leading zero. */
  function NatToString(n: nat): (r: string)
    ensures |r| >= 1
    ensures forall i :: 0 <= i < |r| ==> '0' <= r[i] <= '9'
    ensures |r| > 1 ==> r[0] != '0'
  {
    if n < 10 then [DigitChar(n)] else NatToString(n / 10) + [DigitChar(n % 10)]
  }

  /** The number a string of decimal digits denotes. */
  function DecimalValue(s: string): nat
    requires forall i :: 0 <= i < |s| ==> '0' <= s[i] <= '9'
  {
    if s == [] then 0
    else 10 * DecimalValue(s[..|s| - 1]) + (s[|s| - 1] as int - '0' as int)
  }

  /** Reading back a rendered number gives the number: distinct counts and
      page numbers print differently. */
  lemma {:induction false} DecimalRoundTrip(n: nat)
    ensures DecimalValue(NatToString(n)) == n
  {
    if n >= 10 {
      var s := NatToString(n);
      assert s[..|s| - 1] == NatToString(n / 10);
      DecimalRoundTrip(n / 10);
    }
  }

  lemma NatToStringInjective(m: nat, n: nat)
    requires NatToString(m) == NatToString(n)
    ensures m == n
  {
    DecimalRoundTrip(m);
    DecimalRoundTrip(n);
  }
}
