/** Text handling the source table relies on: joining and splitting, stripping, printed numbers. */
module Text {
  import opened Wrappers

  // ---- joining and splitting -----------------------------------------------

  function Join(pieces: seq<string>, sep: string): string {
    if pieces == [] then ""
    else if |pieces| == 1 then pieces[0]
    else pieces[0] + sep + Join(pieces[1..], sep)
  }

  lemma JoinOfSeveral(pieces: seq<string>, sep: string)
    requires |pieces| > 1
    ensures |Join(pieces, sep)| >= |sep|
  {
  }

  predicate OccursAt(s: string, sep: string, i: nat) {
    i + |sep| <= |s| && s[i..i + |sep|] == sep
  }

  predicate Free(s: string, sep: string) {
    forall i: nat :: i <= |s| ==> !OccursAt(s, sep, i)
  }

  // The first occurrence of the separator at or after `from`, or the length of the text.
  function FirstAt(s: string, sep: string, from: nat): (i: nat)
    requires from <= |s|
    ensures from <= i <= |s| && (i < |s| ==> OccursAt(s, sep, i))
    ensures forall j: nat :: from <= j < i ==> !OccursAt(s, sep, j)
    decreases |s| - from
  {
    if from == |s| || OccursAt(s, sep, from) then from else FirstAt(s, sep, from + 1)
  }

  function Split(s: string, sep: string): (pieces: seq<string>)
    requires sep != ""
    ensures pieces != []
    decreases |s|
  {
    var i := FirstAt(s, sep, 0);
    if i == |s| then [s] else [s[..i]] + Split(s[i + |sep|..], sep)
  }

  // No part of the separator can be taken for its beginning.
  predicate Unbordered(sep: string) {
    sep != "" && forall i :: 0 < i < |sep| ==> sep[i] != sep[0]
  }

  // Where a text occurs inside another that occurs in a third.
  lemma OccurrenceInside(s: string, r: string, i: nat, sep: string, j: nat)
    requires OccursAt(s, r, i) && j + |sep| <= |r|
    ensures OccursAt(s, sep, i + j) <==> OccursAt(r, sep, j)
  {
    assert forall k :: 0 <= k < |r| ==> r[k] == s[i + k];
    assert s[i + j..i + j + |sep|] == r[j..j + |sep|];
  }

  lemma PartIsFree(s: string, r: string, i: nat, sep: string)
    requires OccursAt(s, r, i) && Free(s, sep)
    ensures Free(r, sep)
  {
    forall j: nat | j <= |r|
      ensures !OccursAt(r, sep, j)
    {
      if j + |sep| <= |r| {
        OccurrenceInside(s, r, i, sep, j);
      }
    }
  }

  lemma FirstSeparatorEndsThePiece(piece: string, sep: string, rest: string)
    requires Unbordered(sep) && Free(piece, sep)
    ensures FirstAt(piece + sep + rest, sep, 0) == |piece|
  {
    var s := piece + sep + rest;
    assert OccursAt(s, sep, |piece|) && OccursAt(s, piece, 0);
    forall j: nat | j < |piece|
      ensures !OccursAt(s, sep, j)
    {
      if j + |sep| <= |piece| {
        OccurrenceInside(s, piece, 0, sep, j);
      } else {
        assert s[j..j + |sep|][|piece| - j] == s[|piece|] == sep[0];
      }
    }
  }

  lemma {:induction false} SplitOfJoin(pieces: seq<string>, sep: string)
    requires Unbordered(sep) && pieces != [] && forall i :: 0 <= i < |pieces| ==> Free(pieces[i], sep)
    ensures Split(Join(pieces, sep), sep) == pieces
  {
    var piece := pieces[0];
    if |pieces| == 1 {
      SplitOfFree(piece, sep);
    } else {
      var rest := Join(pieces[1..], sep);
      var s := piece + sep + rest;
      FirstSeparatorEndsThePiece(piece, sep, rest);
      assert s[..|piece|] == piece && s[|piece| + |sep|..] == rest;
      SplitOfJoin(pieces[1..], sep);
    }
  }

  lemma SplitOfFree(s: string, sep: string)
    requires sep != "" && Free(s, sep)
    ensures Split(s, sep) == [s]
  {
  }

  lemma {:induction false} SplitPiecesAreFree(s: string, sep: string, k: nat)
    requires sep != "" && k < |Split(s, sep)|
    ensures Free(Split(s, sep)[k], sep)
    decreases |s|
  {
    var i := FirstAt(s, sep, 0);
    if i < |s| && k > 0 {
      SplitPiecesAreFree(s[i + |sep|..], sep, k - 1);
    } else {
      FirstPieceIsFree(s, sep);
    }
  }

  lemma FirstPieceIsFree(s: string, sep: string)
    requires sep != ""
    ensures Free(s[..FirstAt(s, sep, 0)], sep)
  {
    var piece := s[..FirstAt(s, sep, 0)];
    assert OccursAt(s, piece, 0);
    forall j: nat | j <= |piece|
      ensures !OccursAt(piece, sep, j)
    {
      if j + |sep| <= |piece| {
        OccurrenceInside(s, piece, 0, sep, j);
      }
    }
  }

  // Joining and splitting undo each other exactly on lists of pieces free of the separator.
  lemma SplitUndoesJoinIff(pieces: seq<string>, sep: string)
    requires Unbordered(sep) && pieces != []
    ensures Split(Join(pieces, sep), sep) == pieces <==> forall i :: 0 <= i < |pieces| ==> Free(pieces[i], sep)
  {
    if forall i :: 0 <= i < |pieces| ==> Free(pieces[i], sep) {
      SplitOfJoin(pieces, sep);
    } else if Split(Join(pieces, sep), sep) == pieces {
      forall i | 0 <= i < |pieces|
        ensures Free(pieces[i], sep)
      {
        SplitPiecesAreFree(Join(pieces, sep), sep, i);
      }
    }
  }

  // ---- stripping and upper case --------------------------------------------

  predicate IsSpace(c: char) {
    var code := c as int;
    || 0x09 <= code <= 0x0D || 0x1C <= code <= 0x20 || 0x2000 <= code <= 0x200A
    || code in {0x85, 0xA0, 0x1680, 0x2028, 0x2029, 0x202F, 0x205F, 0x3000}
  }

  function Strip(s: string): (r: string)
    ensures Trimmed(r) && |r| <= |s|
    ensures |r| == |s| ==> r == s
  {
    if s == "" then ""
    else if IsSpace(s[0]) then Strip(s[1..])
    else if IsSpace(s[|s| - 1]) then Strip(s[..|s| - 1])
    else s
  }

  predicate Trimmed(s: string) {
    s == "" || (!IsSpace(s[0]) && !IsSpace(s[|s| - 1]))
  }

  lemma StripKeepsTrimmed(s: string)
    ensures Strip(s) == s <==> Trimmed(s)
  {
  }

  // The text from i to j, with only blanks before and after it.
  predicate BaredAt(s: string, r: string, i: nat, j: nat) {
    i <= j <= |s| && r == s[i..j] && forall k :: 0 <= k < |s| && (k < i || k >= j) ==> IsSpace(s[k])
  }

  lemma BaredInFront(s: string, r: string, i: nat, j: nat)
    requires s != "" && IsSpace(s[0]) && BaredAt(s[1..], r, i, j)
    ensures BaredAt(s, r, i + 1, j + 1)
  {
    assert s[1..][i..j] == s[i + 1..j + 1];
    assert forall k :: 1 <= k < |s| ==> s[k] == s[1..][k - 1];
  }

  lemma BaredBehind(s: string, r: string, i: nat, j: nat)
    requires s != "" && IsSpace(s[|s| - 1]) && BaredAt(s[..|s| - 1], r, i, j)
    ensures BaredAt(s, r, i, j)
  {
    assert s[..|s| - 1][i..j] == s[i..j];
    assert forall k :: 0 <= k < |s| - 1 ==> s[k] == s[..|s| - 1][k];
  }

  // Stripping takes blanks off both ends, and nothing else.
  lemma {:induction false} StripTakesBlanks(s: string) returns (i: nat, j: nat)
    ensures BaredAt(s, Strip(s), i, j)
    decreases |s|
  {
    i, j := 0, |s|;
    if s != "" && IsSpace(s[0]) {
      i, j := StripTakesBlanks(s[1..]);
      BaredInFront(s, Strip(s[1..]), i, j);
      i, j := i + 1, j + 1;
    } else if s != "" && IsSpace(s[|s| - 1]) {
      i, j := StripTakesBlanks(s[..|s| - 1]);
      BaredBehind(s, Strip(s[..|s| - 1]), i, j);
    }
  }

  lemma {:induction false} StripKeepsFree(s: string, sep: string)
    requires Free(s, sep)
    ensures Free(Strip(s), sep)
    decreases |s|
  {
    if s != "" && IsSpace(s[0]) {
      PartIsFree(s, s[1..], 1, sep);
      StripKeepsFree(s[1..], sep);
    } else if s != "" && IsSpace(s[|s| - 1]) {
      PartIsFree(s, s[..|s| - 1], 0, sep);
      StripKeepsFree(s[..|s| - 1], sep);
    }
  }

  function UpperChar(c: char): char {
    if 'a' <= c <= 'z' then (c as int - 'a' as int + 'A' as int) as char else c
  }

  // Upper case of the ASCII letters; other characters stay.
  function Upper(s: string): (r: string)
    ensures |r| == |s|
  {
    seq(|s|, i requires 0 <= i < |s| => UpperChar(s[i]))
  }

  // ---- printed numbers -----------------------------------------------------

  predicate IsDigit(c: char) {
    '0' <= c <= '9'
  }

  function DigitChar(d: nat): (c: char)
    requires d < 10
    ensures IsDigit(c) && (c as int) - ('0' as int) == d
  {
    ('0' as int + d) as char
  }

  function PrintNat(n: nat): (s: string)
    ensures s != "" && forall i :: 0 <= i < |s| ==> IsDigit(s[i])
  {
    if n < 10 then [DigitChar(n)] else PrintNat(n / 10) + [DigitChar(n % 10)]
  }

  function Power10(k: nat): (n: nat)
    ensures n >= 1
  {
    if k == 0 then 1 else 10 * Power10(k - 1)
  }

  // Counting digits is comparing with a power of ten.
  lemma {:induction false} DigitsIff(n: nat, k: nat)
    requires k > 0
    ensures |PrintNat(n)| <= k <==> n < Power10(k)
  {
    if n >= 10 && k > 1 {
      DigitsIff(n / 10, k - 1);
    } else if k > 1 {
      assert Power10(k) == 10 * Power10(k - 1);
    } else {
      assert Power10(1) == 10;
    }
  }

  function PrintInt(n: int): string {
    if n < 0 then "-" + PrintNat(-n) else PrintNat(n)
  }

  // Reading plain decimal digits.
  function NatOf(s: string): Option<nat> {
    if s == "" || !IsDigit(s[|s| - 1]) then None
    else
      var d := s[|s| - 1] as int - '0' as int;
      if |s| == 1 then Some(d)
      else
        var high := NatOf(s[..|s| - 1]);
        if high.None? then None else Some(10 * high.value + d)
  }

  function IntOf(s: string): Option<int> {
    var negative := s != "" && s[0] == '-';
    var n := NatOf(if negative then s[1..] else s);
    if n.None? then None else Some(if negative then -(n.value as int) else n.value as int)
  }

  lemma {:induction false} NatRoundTrip(n: nat)
    ensures NatOf(PrintNat(n)) == Some(n)
  {
    if n >= 10 {
      NatRoundTrip(n / 10);
      var s := PrintNat(n);
      assert s[..|s| - 1] == PrintNat(n / 10);
    }
  }

  lemma IntRoundTrip(n: int)
    ensures IntOf(PrintInt(n)) == Some(n)
  {
    NatRoundTrip(if n < 0 then -n else n);
    if n < 0 {
      assert PrintInt(n)[1..] == PrintNat(-n);
    } else {
      assert PrintInt(n)[0] != '-';
    }
  }

  // To the nearest hundredth, ties to the even one.
  function Hundredths(a: real): (h: nat)
    requires a >= 0.0
    ensures -0.5 <= h as real - a * 100.0 <= 0.5
  {
    var low := (a * 100.0).Floor;
    var rest := a * 100.0 - low as real;
    if rest < 0.5 || (rest == 0.5 && low % 2 == 0) then low else low + 1
  }

  // Halfway between two hundredths the even one is taken.
  lemma TiesGoToEven(a: real, k: nat)
    requires a * 100.0 == k as real + 0.5
    ensures Hundredths(a) == if k % 2 == 0 then k else k + 1
  {
    assert (a * 100.0).Floor == k;
  }

  // A number with two decimals.
  function Fixed2(x: real): string {
    var h := Hundredths(if x < 0.0 then -x else x);
    (if x < 0.0 then "-" else "") + PrintNat(h / 100) + "." + [DigitChar(h / 10 % 10), DigitChar(h % 10)]
  }

  function Rounded(x: real): real {
    if x < 0.0 then -(Hundredths(-x) as real / 100.0) else Hundredths(x) as real / 100.0
  }

  predicate Whole(y: real) {
    y.Floor as real == y
  }

  predicate TwoDecimals(x: real) {
    Whole(x * 100.0)
  }

  lemma HundredthsIff(a: real)
    requires a >= 0.0
    ensures Hundredths(a) as real / 100.0 == a <==> TwoDecimals(a)
  {
    var low := (a * 100.0).Floor;
    assert low as real == a * 100.0 ==> Hundredths(a) == low;
  }

  lemma WholeNegates(y: real)
    ensures Whole(-y) <==> Whole(y)
  {
    if Whole(y) {
      assert (-y.Floor) as real == -y;
    }
    if Whole(-y) {
      assert (-(-y).Floor) as real == y;
    }
  }

  lemma RoundedIff(x: real)
    ensures Rounded(x) == x <==> TwoDecimals(x)
    ensures -0.005 <= Rounded(x) - x <= 0.005
  {
    if x < 0.0 {
      HundredthsIff(-x);
      assert (-x) * 100.0 == -(x * 100.0);
      WholeNegates(x * 100.0);
    } else {
      HundredthsIff(x);
    }
  }

  // Reading a plain number with two decimals.
  function UnsignedFixedOf(s: string): Option<real> {
    if |s| < 4 || s[|s| - 3] != '.' then None
    else
      var whole, cents := NatOf(s[..|s| - 3]), NatOf(s[|s| - 2..]);
      if whole.None? || cents.None? then None else Some((100 * whole.value + cents.value) as real / 100.0)
  }

  function FixedOf(s: string): Option<real> {
    if s != "" && s[0] == '-' then
      var r := UnsignedFixedOf(s[1..]);
      if r.None? then None else Some(-r.value)
    else UnsignedFixedOf(s)
  }

  lemma TwoDigits(a: nat, b: nat)
    requires a < 10 && b < 10
    ensures NatOf([DigitChar(a), DigitChar(b)]) == Some(10 * a + b)
  {
    var s := [DigitChar(a), DigitChar(b)];
    assert s[..1] == [DigitChar(a)];
  }

  lemma UnsignedFixedRoundTrip(h: nat)
    ensures UnsignedFixedOf(PrintNat(h / 100) + "." + [DigitChar(h / 10 % 10), DigitChar(h % 10)]) ==
        Some(h as real / 100.0)
  {
    var whole, cents := PrintNat(h / 100), [DigitChar(h / 10 % 10), DigitChar(h % 10)];
    var s := whole + "." + cents;
    assert s[..|s| - 3] == whole && s[|s| - 2..] == cents && s[|s| - 3] == '.';
    NatRoundTrip(h / 100);
    TwoDigits(h / 10 % 10, h % 10);
    assert h == 100 * (h / 100) + 10 * (h / 10 % 10) + h % 10;
  }

  lemma FixedRoundTrip(x: real)
    ensures FixedOf(Fixed2(x)) == Some(Rounded(x))
  {
    var h := Hundredths(if x < 0.0 then -x else x);
    var unsigned := PrintNat(h / 100) + "." + [DigitChar(h / 10 % 10), DigitChar(h % 10)];
    UnsignedFixedRoundTrip(h);
    if x < 0.0 {
      assert Fixed2(x) == "-" + unsigned;
      assert Fixed2(x)[1..] == unsigned;
    } else {
      assert Fixed2(x) == unsigned && unsigned[0] != '-';
    }
  }
}
