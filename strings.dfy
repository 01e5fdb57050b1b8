/** The parts of Swift's `String` API the app relies on, over `seq<char>`:
    `split(separator:)`, `joined(separator:)`, `hasPrefix`, `hasSuffix`, `contains`,
    `replacingOccurrences(of:with: "")`, `lowercased()`, `trimmingCharacters(in: .whitespaces)`,
    `Int(String)` and `String(Int)`. */
module Strings {
  import opened Wrappers

  /** Index of the first `c` in `s`, or `|s|` when `s` has none. */
  function IndexOf(s: string, c: char): (k: nat)
    ensures k <= |s|
    ensures k < |s| ==> s[k] == c
    ensures forall j :: 0 <= j < k ==> s[j] != c
  {
    if s == [] then 0 else if s[0] == c then 0 else 1 + IndexOf(s[1..], c)
  }

  /** Index of the last `c` in `s`, or -1 when `s` has none. */
  function LastIndexOf(s: string, c: char): (k: int)
    ensures -1 <= k < |s|
    ensures 0 <= k ==> s[k] == c
    ensures forall j :: k < j < |s| ==> s[j] != c
  {
    if s == [] then -1
    else if s[|s| - 1] == c then |s| - 1
    else LastIndexOf(s[..|s| - 1], c)
  }

  /** Swift's `split(separator:)`, which omits empty pieces: the maximal runs
      of `s` free of `c`, in order. */
  function Split(s: string, c: char): (pieces: seq<string>)
    ensures forall p :: p in pieces ==> |p| > 0 && c !in p
    decreases |s|
  {
    if s == [] then []
    else
      var k := IndexOf(s, c);
      if k == |s| then [s]
      else if k == 0 then Split(s[1..], c)
      else [s[..k]] + Split(s[k + 1..], c)
  }

  /** Swift's `joined(separator:)`. */
  function Join(pieces: seq<string>, sep: string): string {
    if pieces == [] then ""
    else if |pieces| == 1 then pieces[0]
    else pieces[0] + sep + Join(pieces[1..], sep)
  }

  predicate HasPrefix(s: string, p: string) {
    |p| <= |s| && s[..|p|] == p
  }

  predicate HasSuffix(s: string, p: string) {
    |p| <= |s| && s[|s| - |p|..] == p
  }

  /** `t` occurs in `s` as a contiguous substring. */
  predicate Contains(s: string, t: string)
    decreases |s|
  {
    HasPrefix(s, t) || (s != [] && Contains(s[1..], t))
  }

  /** Swift's `replacingOccurrences(of: pat, with: "")`: occurrences are found
      left to right and do not overlap. */
  function RemovingOccurrences(s: string, pat: string): (r: string)
    requires |pat| > 0
    ensures forall ch :: ch in r ==> ch in s
    decreases |s|
  {
    if HasPrefix(s, pat) then
      assert s == s[..|pat|] + s[|pat|..];
      RemovingOccurrences(s[|pat|..], pat)
    else if s == [] then []
    else
      assert s == [s[0]] + s[1..];
      [s[0]] + RemovingOccurrences(s[1..], pat)
  }

  function LowerChar(ch: char): char {
    if 'A' <= ch <= 'Z' then (ch as int + 32) as char else ch
  }

  /** `lowercased()`, for the ASCII letters. */
  function Lowercased(s: string): (r: string)
    ensures |r| == |s|
  {
    seq(|s|, i requires 0 <= i < |s| => LowerChar(s[i]))
  }

  /** The characters of `CharacterSet.whitespaces` that the model knows: space and tab. */
  predicate IsSpace(ch: char) {
    ch == ' ' || ch == '\t'
  }

  predicate IsBlank(s: string) {
    forall i :: 0 <= i < |s| ==> IsSpace(s[i])
  }

  function TrimStart(s: string): (r: string)
    ensures |r| <= |s| && r == s[|s| - |r|..]
    ensures IsBlank(s[..|s| - |r|])
    ensures r != [] ==> !IsSpace(r[0])
  {
    if s != [] && IsSpace(s[0]) then
      var r := TrimStart(s[1..]);
      assert s[1..][..|s| - 1 - |r|] == s[1..|s| - |r|];
      r
    else s
  }

  function TrimEnd(s: string): (r: string)
    ensures |r| <= |s| && r == s[..|r|]
    ensures IsBlank(s[|r|..])
    ensures r != [] ==> !IsSpace(r[|r| - 1])
  {
    if s != [] && IsSpace(s[|s| - 1]) then TrimEnd(s[..|s| - 1]) else s
  }

  /** `trimmingCharacters(in: .whitespaces)`: the part of `s` between a blank
      prefix and a blank suffix; empty exactly when `s` is blank, otherwise
      starting and ending with a non-space. */
  function Trimmed(s: string): (r: string)
    ensures r == [] <==> IsBlank(s)
    ensures r != [] ==> !IsSpace(r[0]) && !IsSpace(r[|r| - 1])
    ensures exists a, b :: 0 <= a <= b <= |s| && r == s[a..b] && IsBlank(s[..a]) && IsBlank(s[b..])
  {
    var t := TrimStart(s);
    var r := TrimEnd(t);
    TrimmedIsInfix(s, t, r);
    if r == [] then
      assert t[|r|..] == t;
      BlankHalves(s, |s| - |t|);
      r
    else r
  }

  /** Trimming both ends leaves the part of `s` between a blank prefix and a
      blank suffix: `t` is `s` without a blank prefix, `r` is `t` without a
      blank suffix. */
  lemma TrimmedIsInfix(s: string, t: string, r: string)
    requires |t| <= |s| && t == s[|s| - |t|..] && IsBlank(s[..|s| - |t|])
    requires |r| <= |t| && r == t[..|r|] && IsBlank(t[|r|..])
    ensures exists a, b :: 0 <= a <= b <= |s| && r == s[a..b] && IsBlank(s[..a]) && IsBlank(s[b..])
  {
    var a := |s| - |t|;
    var b := a + |r|;
    forall k | 0 <= k < |r|
      ensures r[k] == s[a..b][k]
    {
      assert r[k] == t[k] == s[a + k];
    }
    forall k | 0 <= k < |s| - b
      ensures s[b..][k] == t[|r|..][k]
    {
      assert t[|r| + k] == s[a + |r| + k];
    }
    assert r == s[a..b];
    assert s[b..] == t[|r|..];
  }

  /** Trimming leaves a string that neither starts nor ends with a blank as it is. */
  lemma TrimmedUnchanged(s: string)
    requires s != [] && !IsSpace(s[0]) && !IsSpace(s[|s| - 1])
    ensures Trimmed(s) == s
  {
    assert TrimStart(s) == s;
    assert TrimEnd(s) == s;
  }

  /** Lower-casing leaves a string without capitals as it is. */
  lemma LowercasedUnchanged(s: string)
    requires forall i :: 0 <= i < |s| ==> !('A' <= s[i] <= 'Z')
    ensures Lowercased(s) == s
  {
  }

  /** A string whose two halves are blank is blank. */
  lemma BlankHalves(s: string, n: nat)
    requires n <= |s| && IsBlank(s[..n]) && IsBlank(s[n..])
    ensures IsBlank(s)
  {
    forall i | 0 <= i < |s| ensures IsSpace(s[i]) {
      if i < n {
        assert s[i] == s[..n][i];
      } else {
        assert s[i] == s[n..][i - n];
      }
    }
  }

  predicate IsDigit(ch: char) {
    '0' <= ch <= '9'
  }

  predicate AllDigits(s: string) {
    forall i :: 0 <= i < |s| ==> IsDigit(s[i])
  }

  /** The value of a string of decimal digits, most significant first. */
  function DigitsValue(s: string): nat
    requires AllDigits(s)
  {
    if s == [] then 0 else DigitsValue(s[..|s| - 1]) * 10 + (s[|s| - 1] as int - '0' as int)
  }

  /** `Int(String)`: an optional `+` or `-` followed by at least one decimal digit;
      anything else is `None`. */
  function ParseInt(s: string): (r: Option<int>)
    ensures r.Some? ==> |s| > 0 && forall i :: 0 < i < |s| ==> IsDigit(s[i])
    ensures r.Some? ==> IsDigit(s[0]) || (|s| > 1 && (s[0] == '-' || s[0] == '+'))
  {
    if |s| > 0 && (s[0] == '-' || s[0] == '+') then
      var ds := s[1..];
      if |ds| > 0 && AllDigits(ds) then
        assert forall i :: 0 < i < |s| ==> s[i] == ds[i - 1];
        var v: int := DigitsValue(ds);
        Some(if s[0] == '-' then -v else v)
      else None
    else if |s| > 0 && AllDigits(s) then Some(DigitsValue(s))
    else None
  }

  /** `Int(s) ?? -1`, the app's fallback for names that are not numbers. */
  function IntOr(s: string): int {
    match ParseInt(s)
    case Some(n) => n
    case None => -1
  }

  function DigitChar(d: nat): char
    requires d < 10
  {
    ('0' as int + d) as char
  }

  /** `String(n)` for a natural number: unpadded decimal digits that denote `n`. */
  function NatToString(n: nat): (s: string)
    ensures |s| > 0 && AllDigits(s)
    ensures DigitsValue(s) == n
    ensures |s| > 1 ==> s[0] != '0'
  {
    if n < 10 then [DigitChar(n)]
    else
      var s := NatToString(n / 10) + [DigitChar(n % 10)];
      assert s[..|s| - 1] == NatToString(n / 10);
      s
  }

  /** `String(n)`: a `-` before the digits of a negative number, no padding. */
  function IntToString(n: int): string {
    if n < 0 then "-" + NatToString(-n) else NatToString(n)
  }

  /** Formatting then parsing an integer gives it back. */
  lemma ParseIntToString(n: int)
    ensures ParseInt(IntToString(n)) == Some(n)
  {
    if n < 0 {
      var s := IntToString(n);
      assert s[1..] == NatToString(-n);
    }
  }

  /** Splitting on a separator character distributes over that character. */
  lemma {:induction false} SplitAround(a: string, b: string, c: char)
    ensures Split(a + [c] + b, c) == Split(a, c) + Split(b, c)
    decreases |a|
  {
    var s := a + [c] + b;
    if a == [] {
      assert s == [c] + b;
      assert s[1..] == b;
    } else {
      var k := IndexOf(a, c);
      IndexOfAround(a, b, c);
      if k == |a| {
        assert s[..k] == a;
        assert s[k + 1..] == b;
      } else if k == 0 {
        assert s[1..] == a[1..] + [c] + b;
        SplitAround(a[1..], b, c);
      } else {
        assert s[..k] == a[..k];
        assert s[k + 1..] == a[k + 1..] + [c] + b;
        SplitAround(a[k + 1..], b, c);
      }
    }
  }

  /** The first separator of `a + [c] + b` is the first one of `a`, or the
      added one when `a` has none. */
  lemma IndexOfAround(a: string, b: string, c: char)
    ensures IndexOf(a + [c] + b, c) == IndexOf(a, c)
  {
    var s := a + [c] + b;
    var k := IndexOf(a, c);
    assert forall j :: 0 <= j < |a| ==> s[j] == a[j];
    assert s[k] == c;
  }

  /** A non-empty string free of the separator splits into itself. */
  lemma SplitWhole(s: string, c: char)
    requires |s| > 0 && c !in s
    ensures Split(s, c) == [s]
  {
    assert IndexOf(s, c) == |s|;
  }

  /** Joining non-empty, separator-free pieces with that separator and splitting
      again gives the pieces back. */
  lemma {:induction false} SplitJoin(ws: seq<string>, c: char)
    requires forall w :: w in ws ==> |w| > 0 && c !in w
    ensures Split(Join(ws, [c]), c) == ws
  {
    if ws == [] {
    } else if |ws| == 1 {
      assert ws[0] in ws;
      SplitWhole(ws[0], c);
    } else {
      assert ws[0] in ws;
      SplitJoin(ws[1..], c);
      SplitAround(ws[0], Join(ws[1..], [c]), c);
      SplitWhole(ws[0], c);
      assert ws == [ws[0]] + ws[1..];
    }
  }

  /** A character absent from every piece and from the separator is absent from the join. */
  lemma {:induction false} JoinAvoids(ws: seq<string>, sep: string, x: char)
    requires x !in sep
    requires forall w :: w in ws ==> x !in w
    ensures x !in Join(ws, sep)
  {
    if |ws| > 1 {
      assert ws[0] in ws;
      JoinAvoids(ws[1..], sep, x);
    } else if |ws| == 1 {
      assert ws[0] in ws;
    }
  }
}
