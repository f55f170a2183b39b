/** The Python built-ins the modelled code leans on, on `string = seq<char>`:
    `str.join`, repeated `+=`, `str.count` of one character, `str.split`,
    `str.replace`, `int()` of a string, `str()` of an integer and of a float
    rounded to three decimals, `list.index`, and the two kinds of SQLite cell
    value the result rows carry. */
module Builtins {
  import opened Base

  // ----- sep.join(parts) and text built with += -----

  /** `sep.join(parts)`. */
  function Join(parts: seq<string>, sep: string): string
    decreases |parts|
  {
    if |parts| == 0 then ""
    else if |parts| == 1 then parts[0]
    else parts[0] + sep + Join(parts[1..], sep)
  }

  /** The text a loop builds by appending `parts` in order with `+=`. */
  function Concat(parts: seq<string>): string
  {
    if |parts| == 0 then "" else Concat(parts[..|parts| - 1]) + parts[|parts| - 1]
  }

  lemma ConcatAppend(parts: seq<string>, x: string)
    ensures Concat(parts + [x]) == Concat(parts) + x
  {
    assert (parts + [x])[..|parts|] == parts;
  }

  /** Text appends regroup freely; stated once for arbitrary strings so the
      solver need not take long literals apart. */
  lemma AppendAssoc(a: string, b: string, c: string)
    ensures a + b + c == a + (b + c)
    ensures "" + a == a && a + "" == a
  {
  }

  /** A join of non-empty parts is empty exactly when there are no parts. */
  lemma {:induction false} JoinEmpty(parts: seq<string>, sep: string)
    requires forall i :: 0 <= i < |parts| ==> parts[i] != ""
    ensures Join(parts, sep) == "" <==> parts == []
  {
    if |parts| >= 2 {
      assert |Join(parts, sep)| >= |parts[0]| > 0;
    }
  }

  // ----- counting one character -----

  /** `s.count(c)` for a single character `c`. */
  function CountChar(s: string, c: char): nat
  {
    if |s| == 0 then 0 else (if s[0] == c then 1 else 0) + CountChar(s[1..], c)
  }

  lemma {:induction false} CountCharConcat(a: string, b: string, c: char)
    ensures CountChar(a + b, c) == CountChar(a, c) + CountChar(b, c)
  {
    if |a| == 0 {
      assert a + b == b;
    } else {
      assert (a + b)[1..] == a[1..] + b;
      CountCharConcat(a[1..], b, c);
    }
  }

  lemma {:induction false} CountCharAbsent(s: string, c: char)
    requires c !in s
    ensures CountChar(s, c) == 0
  {
    if |s| > 0 {
      assert c !in s[1..];
      CountCharAbsent(s[1..], c);
    }
  }

  /** A text free of `c` adds no `c` on either side. */
  lemma ConcatPlain(x: string, t: string, c: char)
    requires forall i :: 0 <= i < |t| ==> t[i] != c
    ensures CountChar(x + t, c) == CountChar(x, c)
    ensures CountChar(t + x, c) == CountChar(x, c)
  {
    CountCharAbsent(t, c);
    CountCharConcat(x, t, c);
    CountCharConcat(t, x, c);
  }

  /** A text with `c` at position `k` and nowhere else holds one `c`. */
  lemma CountCharOnce(s: string, k: nat, c: char)
    requires k < |s| && s[k] == c
    requires forall i :: 0 <= i < |s| && i != k ==> s[i] != c
    ensures CountChar(s, c) == 1
  {
    assert s == s[..k] + [c] + s[k + 1..];
    assert c !in s[..k];
    assert c !in s[k + 1..];
    CountCharAbsent(s[..k], c);
    CountCharAbsent(s[k + 1..], c);
    CountCharConcat(s[..k], [c], c);
    CountCharConcat(s[..k] + [c], s[k + 1..], c);
  }

  /** The number of `c` in all of `parts` together. */
  function SumCounts(parts: seq<string>, c: char): nat
  {
    if |parts| == 0 then 0 else CountChar(parts[0], c) + SumCounts(parts[1..], c)
  }

  /** Joining with a separator free of `c` adds no `c`. */
  lemma {:induction false} CountCharJoin(parts: seq<string>, sep: string, c: char)
    requires CountChar(sep, c) == 0
    ensures CountChar(Join(parts, sep), c) == SumCounts(parts, c)
    decreases |parts|
  {
    if |parts| >= 2 {
      CountCharJoin(parts[1..], sep, c);
      CountCharConcat(parts[0], sep, c);
      CountCharConcat(parts[0] + sep, Join(parts[1..], sep), c);
      assert SumCounts(parts[1..][1..], c) == SumCounts(parts[2..], c);
    }
  }

  lemma {:induction false} SumCountsAppend(parts: seq<string>, x: string, c: char)
    ensures SumCounts(parts + [x], c) == SumCounts(parts, c) + CountChar(x, c)
  {
    if |parts| > 0 {
      assert (parts + [x])[1..] == parts[1..] + [x];
      SumCountsAppend(parts[1..], x, c);
    }
  }

  lemma {:induction false} SumCountsAbsent(parts: seq<string>, c: char)
    requires forall i :: 0 <= i < |parts| ==> c !in parts[i]
    ensures SumCounts(parts, c) == 0
  {
    if |parts| > 0 {
      CountCharAbsent(parts[0], c);
      SumCountsAbsent(parts[1..], c);
    }
  }

  /** Joining texts free of `c` with a separator free of `c` gives a text free of `c`. */
  lemma JoinPlain(parts: seq<string>, sep: string, c: char)
    requires forall i :: 0 <= i < |parts| ==> c !in parts[i]
    requires c !in sep
    ensures CountChar(Join(parts, sep), c) == 0
  {
    SumCountsAbsent(parts, c);
    CountCharAbsent(sep, c);
    CountCharJoin(parts, sep, c);
  }

  // ----- str.split(pat) and str.replace(pat, rep) -----

  /** `pat` occurs in `s` at position `i`. */
  predicate OccursAt(s: string, pat: string, i: nat)
  {
    i + |pat| <= |s| && s[i..i + |pat|] == pat
  }

  /** `pat in s`. */
  predicate Contains(s: string, pat: string)
  {
    exists i: nat | i <= |s| :: OccursAt(s, pat, i)
  }

  /** `s.split(pat)`: the pieces between the leftmost non-overlapping
      occurrences of `pat`. */
  function SplitOn(s: string, pat: string): (pieces: seq<string>)
    requires |pat| > 0
    ensures |pieces| >= 1
    decreases |s|
  {
    if |s| < |pat| then [s]
    else if s[..|pat|] == pat then [""] + SplitOn(s[|pat|..], pat)
    else
      var rest := SplitOn(s[1..], pat);
      [[s[0]] + rest[0]] + rest[1..]
  }

  /** `s.replace(pat, rep)`: every leftmost non-overlapping occurrence of
      `pat`, scanning left to right, replaced by `rep`. */
  function ReplaceAll(s: string, pat: string, rep: string): string
    requires |pat| > 0
    decreases |s|
  {
    if |s| < |pat| then s
    else if s[..|pat|] == pat then rep + ReplaceAll(s[|pat|..], pat, rep)
    else [s[0]] + ReplaceAll(s[1..], pat, rep)
  }

  lemma JoinCons(first: string, rest: seq<string>, sep: string)
    requires |rest| >= 1
    ensures Join([first] + rest, sep) == first + sep + Join(rest, sep)
  {
    assert ([first] + rest)[1..] == rest;
  }

  /** Replacing is splitting at the occurrences and joining with `rep`. */
  lemma {:induction false} ReplaceIsSplitJoin(s: string, pat: string, rep: string)
    requires |pat| > 0
    ensures ReplaceAll(s, pat, rep) == Join(SplitOn(s, pat), rep)
    decreases |s|
  {
    if |s| < |pat| {
    } else if s[..|pat|] == pat {
      var rest := SplitOn(s[|pat|..], pat);
      ReplaceIsSplitJoin(s[|pat|..], pat, rep);
      assert SplitOn(s, pat) == [""] + rest;
      JoinCons("", rest, rep);
      assert ReplaceAll(s, pat, rep) == rep + ReplaceAll(s[|pat|..], pat, rep);
    } else {
      var rest := SplitOn(s[1..], pat);
      ReplaceIsSplitJoin(s[1..], pat, rep);
      assert SplitOn(s, pat) == [[s[0]] + rest[0]] + rest[1..];
      assert ReplaceAll(s, pat, rep) == [s[0]] + ReplaceAll(s[1..], pat, rep);
      JoinFirstPiece([s[0]], rest, rep);
    }
  }

  /** Text in front of a join lands in its first piece. */
  lemma JoinFirstPiece(x: string, pieces: seq<string>, sep: string)
    requires |pieces| >= 1
    ensures x + Join(pieces, sep) == Join([x + pieces[0]] + pieces[1..], sep)
  {
    if |pieces| >= 2 {
      JoinCons(x + pieces[0], pieces[1..], sep);
      JoinCons(pieces[0], pieces[1..], sep);
      assert pieces == [pieces[0]] + pieces[1..];
    } else {
      assert [x + pieces[0]] + pieces[1..] == [x + pieces[0]];
    }
  }

  /** Joining the pieces with `pat` again gives back the text. */
  lemma {:induction false} SplitJoinRoundTrip(s: string, pat: string)
    requires |pat| > 0
    ensures Join(SplitOn(s, pat), pat) == s
    decreases |s|
  {
    ReplaceIsSplitJoin(s, pat, pat);
    ReplaceWithItself(s, pat);
  }

  lemma {:induction false} ReplaceWithItself(s: string, pat: string)
    requires |pat| > 0
    ensures ReplaceAll(s, pat, pat) == s
    decreases |s|
  {
    if |s| < |pat| {
    } else if s[..|pat|] == pat {
      ReplaceWithItself(s[|pat|..], pat);
      assert s == s[..|pat|] + s[|pat|..];
    } else {
      ReplaceWithItself(s[1..], pat);
      assert s == [s[0]] + s[1..];
    }
  }

  /** A text without the first character of `pat` has nothing to replace. */
  lemma {:induction false} ReplaceAbsent(s: string, pat: string, rep: string)
    requires |pat| > 0 && pat[0] !in s
    ensures ReplaceAll(s, pat, rep) == s
    decreases |s|
  {
    if |s| >= |pat| {
      assert s[..|pat|][0] == s[0];
      assert pat[0] !in s[1..];
      ReplaceAbsent(s[1..], pat, rep);
      assert [s[0]] + s[1..] == s;
    }
  }

  /** The first piece is a prefix of the text. */
  lemma {:induction false} FirstPieceIsPrefix(s: string, pat: string)
    requires |pat| > 0
    ensures SplitOn(s, pat)[0] <= s
    decreases |s|
  {
    if |s| >= |pat| && s[..|pat|] != pat {
      FirstPieceIsPrefix(s[1..], pat);
    }
  }

  /** No piece of a split holds an occurrence of the separator: every
      occurrence was consumed. */
  lemma {:induction false} PiecesAreFree(s: string, pat: string)
    requires |pat| > 0
    ensures forall k :: 0 <= k < |SplitOn(s, pat)| ==> !Contains(SplitOn(s, pat)[k], pat)
    decreases |s|
  {
    var pieces := SplitOn(s, pat);
    if |s| < |pat| {
      forall i: nat ensures !OccursAt(s, pat, i) {}
    } else if s[..|pat|] == pat {
      PiecesAreFree(s[|pat|..], pat);
      var rest := SplitOn(s[|pat|..], pat);
      assert pieces == [""] + rest;
      forall k | 0 <= k < |pieces| ensures !Contains(pieces[k], pat) {
        if k == 0 {
          forall i: nat ensures !OccursAt("", pat, i) {}
        } else {
          assert pieces[k] == rest[k - 1];
        }
      }
    } else {
      var rest := SplitOn(s[1..], pat);
      PiecesAreFree(s[1..], pat);
      FirstPieceIsPrefix(s[1..], pat);
      var first := [s[0]] + rest[0];
      assert pieces == [first] + rest[1..];
      assert first <= s;
      forall i: nat ensures !OccursAt(first, pat, i) {
        if i > 0 && OccursAt(first, pat, i) {
          assert first[i..i + |pat|] == rest[0][i - 1..i - 1 + |pat|];
          assert OccursAt(rest[0], pat, i - 1);
          assert false;
        }
      }
      forall k | 0 <= k < |pieces| ensures !Contains(pieces[k], pat) {
        if k > 0 {
          assert pieces[k] == rest[k];
        }
      }
    }
  }

  /** A separator that is absent leaves the text in one piece. */
  lemma {:induction false} SplitAbsent(s: string, c: char)
    requires c !in s
    ensures SplitOn(s, [c]) == [s]
    decreases |s|
  {
    if |s| >= 1 {
      assert s[0] in s;
      assert s[..1] != [c] by { assert s[..1][0] == s[0]; }
      assert c !in s[1..];
      SplitAbsent(s[1..], c);
      assert [s[0]] + s[1..] == s;
    }
  }

  /** Splitting `x c y` at the only `c` gives `[x, y]`. */
  lemma {:induction false} SplitOnce(x: string, c: char, y: string)
    requires c !in x && c !in y
    ensures SplitOn(x + [c] + y, [c]) == [x, y]
    decreases |x|
  {
    var s := x + [c] + y;
    if |x| == 0 {
      assert s[..1] == [c] && s[1..] == y;
      SplitAbsent(y, c);
    } else {
      assert s[0] == x[0] && x[0] in x;
      assert s[..1] != [c] by { assert s[..1][0] == s[0]; }
      assert s[1..] == x[1..] + [c] + y;
      SplitOnce(x[1..], c, y);
      assert [s[0]] + x[1..] == x;
    }
  }

  // ----- int(str) and str(int) -----

  predicate IsDigit(ch: char)
  {
    '0' as int <= ch as int <= '9' as int
  }

  function DigitValue(ch: char): (d: nat)
    requires IsDigit(ch)
    ensures d < 10
  {
    ch as int - '0' as int
  }

  predicate AllDigits(s: string)
  {
    |s| > 0 && forall i :: 0 <= i < |s| ==> IsDigit(s[i])
  }

  function DigitChar(d: nat): (ch: char)
    requires d < 10
    ensures IsDigit(ch) && DigitValue(ch) == d
  {
    (d + '0' as int) as char
  }

  /** The number a string of decimal digits spells. */
  function DigitsValue(s: string): nat
    requires forall i :: 0 <= i < |s| ==> IsDigit(s[i])
  {
    if |s| == 0 then 0 else DigitsValue(s[..|s| - 1]) * 10 + DigitValue(s[|s| - 1])
  }

  /** `int(s)`: an optional sign followed by one or more decimal digits. */
  function ParseInt(s: string): Option<int>
  {
    if |s| > 0 && (s[0] == '-' || s[0] == '+') then
      if AllDigits(s[1..]) then
        var v: int := DigitsValue(s[1..]);
        Some(if s[0] == '-' then -v else v)
      else None
    else if AllDigits(s) then Some(DigitsValue(s))
    else None
  }

  /** `str(n)` for `n >= 0`. */
  function NatToString(n: nat): (r: string)
    ensures AllDigits(r)
  {
    if n < 10 then [DigitChar(n)] else NatToString(n / 10) + [DigitChar(n % 10)]
  }

  /** `str(n)`. */
  function IntToString(n: int): string
  {
    if n < 0 then "-" + NatToString(-n) else NatToString(n)
  }

  lemma {:induction false} NatToStringValue(n: nat)
    ensures DigitsValue(NatToString(n)) == n
  {
    if n >= 10 {
      var s := NatToString(n);
      NatToStringValue(n / 10);
      assert s[..|s| - 1] == NatToString(n / 10);
    }
  }

  /** `int(str(n)) == n`. */
  lemma ParseIntToString(n: int)
    ensures ParseInt(IntToString(n)) == Some(n)
  {
    var digits := NatToString(if n < 0 then -n else n);
    NatToStringValue(if n < 0 then -n else n);
    if n < 0 {
      assert IntToString(n)[1..] == digits;
    } else {
      assert IntToString(n)[0] == digits[0];
    }
  }

  // ----- round() -----

  /** `n / d` rounded to the nearest integer, a half rounded upward. */
  function RoundDiv(n: int, d: int): (q: int)
    requires d != 0
    ensures d > 0 ==> -d <= 2 * (n - q * d) < d
    ensures d < 0 ==> d < 2 * (n - q * d) <= -d
  {
    if d > 0 then NearestBelowHalf(n, d) else NearestBelowHalf(-n, -d)
  }

  /** `floor(n / d + 1/2)` for `d > 0`. */
  function NearestBelowHalf(n: int, d: int): (q: int)
    requires d > 0
    ensures -d <= 2 * (n - q * d) < d
  {
    var q := (2 * n + d) / (2 * d);
    assert 2 * d * q <= 2 * n + d < 2 * d * q + 2 * d by {
      DivBounds(2 * n + d, 2 * d);
    }
    q
  }

  lemma DivBounds(x: int, y: int)
    requires y > 0
    ensures y * (x / y) <= x < y * (x / y) + y
  {
  }

  /** Integer division by a positive number is monotone. */
  lemma DivMonotone(x: int, y: int, d: int)
    requires d > 0 && x <= y
    ensures x / d <= y / d
  {
    DivBounds(x, d);
    DivBounds(y, d);
    if x / d > y / d {
      assert d * (x / d) >= d * (y / d) + d by {
        MulMonotone(d, y / d + 1, x / d);
      }
    }
  }

  lemma MulMonotone(d: int, a: int, b: int)
    requires d > 0 && a <= b
    ensures d * a <= d * b
  {
  }

  // ----- str() of a float rounded to three decimals -----

  /** The decimals of `f / 1000` as Python prints them: trailing zeros
      dropped, but at least one digit. */
  function FractionDigits(f: nat): string
    requires f < 1000
  {
    if f == 0 then "0"
    else if f % 100 == 0 then [DigitChar(f / 100)]
    else if f % 10 == 0 then [DigitChar(f / 100), DigitChar(f / 10 % 10)]
    else [DigitChar(f / 100), DigitChar(f / 10 % 10), DigitChar(f % 10)]
  }

  /** `str(x)` for the float `x = m / 1000` that `round(..., 3)` returns,
      such as `0.1`, `12.345` or `70.0`. */
  function FormatMilli(m: int): string
  {
    var a := if m < 0 then -m else m;
    (if m < 0 then "-" else "") + NatToString(a / 1000) + "." + FractionDigits(a % 1000)
  }

  /** The scale of a one-, two- or three-digit decimal part in thousandths. */
  function DecimalScale(len: nat): nat
  {
    if len == 1 then 100 else if len == 2 then 10 else 1
  }

  /** `whole` units and `frac` decimals written with `len` digits, in thousandths. */
  function Thousandths(whole: nat, frac: nat, len: nat): nat
  {
    whole * 1000 + frac * DecimalScale(len)
  }

  /** Reads back an unsigned decimal with one to three decimals, in thousandths. */
  function ParseUnsignedMilli(s: string): Option<nat>
  {
    var parts := SplitOn(s, ".");
    if |parts| == 2 && AllDigits(parts[0]) && AllDigits(parts[1]) && |parts[1]| <= 3 then
      Some(Thousandths(DigitsValue(parts[0]), DigitsValue(parts[1]), |parts[1]|))
    else None
  }

  /** Reads back a decimal with one to three decimals, in thousandths. */
  function ParseMilli(s: string): Option<int>
  {
    if |s| > 0 && s[0] == '-' then
      match ParseUnsignedMilli(s[1..])
      case Some(v) => var n: int := v; Some(-n)
      case None => None
    else
      match ParseUnsignedMilli(s)
      case Some(v) => Some(v)
      case None => None
  }

  lemma DigitsValueAppend(s: string, d: nat)
    requires forall i :: 0 <= i < |s| ==> IsDigit(s[i])
    requires d < 10
    ensures DigitsValue(s + [DigitChar(d)]) == DigitsValue(s) * 10 + d
  {
    assert (s + [DigitChar(d)])[..|s|] == s;
  }

  lemma ThreeDigits(f: nat)
    requires f < 1000
    ensures f == f / 100 * 100 + f / 10 % 10 * 10 + f % 10
    ensures f % 100 == 0 ==> f == f / 100 * 100
    ensures f % 10 == 0 ==> f == (f / 100 * 10 + f / 10 % 10) * 10
  {
  }

  lemma FractionDigitsValue(f: nat)
    requires f < 1000
    ensures AllDigits(FractionDigits(f)) && |FractionDigits(f)| <= 3
    ensures Thousandths(0, DigitsValue(FractionDigits(f)), |FractionDigits(f)|) == f
  {
    var h, t, u := f / 100, f / 10 % 10, f % 10;
    var d := FractionDigits(f);
    ThreeDigits(f);
    DigitsValueAppend([], h);
    assert [] + [DigitChar(h)] == [DigitChar(h)];
    if f == 0 {
      assert DigitsValue(d) == 0;
    } else if f % 100 == 0 {
      assert d == [DigitChar(h)];
      assert DigitsValue(d) == h;
    } else {
      DigitsValueAppend([DigitChar(h)], t);
      assert [DigitChar(h)] + [DigitChar(t)] == [DigitChar(h), DigitChar(t)];
      if f % 10 == 0 {
        assert d == [DigitChar(h), DigitChar(t)];
        assert DigitsValue(d) == h * 10 + t;
      } else {
        DigitsValueAppend([DigitChar(h), DigitChar(t)], u);
        assert [DigitChar(h), DigitChar(t)] + [DigitChar(u)] == [DigitChar(h), DigitChar(t), DigitChar(u)];
        assert d == [DigitChar(h), DigitChar(t), DigitChar(u)];
        assert DigitsValue(d) == (h * 10 + t) * 10 + u;
      }
    }
  }

  /** A digit string and its decimals split at the point. */
  lemma SplitAtPoint(whole: string, frac: string)
    requires AllDigits(whole) && AllDigits(frac)
    ensures SplitOn(whole + "." + frac, ".") == [whole, frac]
  {
    assert '.' !in whole by {
      forall i | 0 <= i < |whole| ensures whole[i] != '.' {
        assert IsDigit(whole[i]);
      }
    }
    assert '.' !in frac by {
      forall i | 0 <= i < |frac| ensures frac[i] != '.' {
        assert IsDigit(frac[i]);
      }
    }
    assert whole + "." + frac == whole + ['.'] + frac;
    SplitOnce(whole, '.', frac);
  }

  lemma ParseUnsignedMilliOf(whole: string, frac: string)
    requires AllDigits(whole) && AllDigits(frac) && |frac| <= 3
    ensures ParseUnsignedMilli(whole + "." + frac)
         == Some(Thousandths(DigitsValue(whole), DigitsValue(frac), |frac|))
  {
    SplitAtPoint(whole, frac);
  }

  lemma ParseMilliSigned(body: string, negative: bool)
    requires |body| > 0 && body[0] != '-'
    requires ParseUnsignedMilli(body).Some?
    ensures ParseMilli((if negative then "-" else "") + body)
         == Some(if negative then 0 - ParseUnsignedMilli(body).value as int else ParseUnsignedMilli(body).value as int)
  {
    if negative {
      var s := "-" + body;
      assert s[0] == '-' && s[1..] == body;
    } else {
      assert "" + body == body;
    }
  }

  /** The printed rate reads back as the same number of thousandths. */
  lemma FormatMilliRoundTrip(m: int)
    ensures ParseMilli(FormatMilli(m)) == Some(m)
  {
    var a := if m < 0 then -m else m;
    var body := NatToString(a / 1000) + "." + FractionDigits(a % 1000);
    BodyReadsBack(a);
    ParseMilliSigned(body, m < 0);
    FormatMilliParts(m);
  }

  /** The unsigned part of a printed rate reads back as its thousandths. */
  lemma BodyReadsBack(a: nat)
    ensures var body := NatToString(a / 1000) + "." + FractionDigits(a % 1000);
      |body| > 0 && body[0] != '-' && ParseUnsignedMilli(body) == Some(a)
  {
    var whole := NatToString(a / 1000);
    var frac := FractionDigits(a % 1000);
    FractionDigitsValue(a % 1000);
    NatToStringValue(a / 1000);
    ParseUnsignedMilliOf(whole, frac);
    assert Thousandths(a / 1000, DigitsValue(frac), |frac|)
        == a / 1000 * 1000 + Thousandths(0, DigitsValue(frac), |frac|);
    var body := whole + "." + frac;
    assert body[0] == whole[0] && IsDigit(whole[0]);
  }

  /** The sign, then the whole part, the point and the decimals. */
  lemma FormatMilliParts(m: int)
    ensures var a := if m < 0 then -m else m;
      FormatMilli(m) == (if m < 0 then "-" else "") + (NatToString(a / 1000) + "." + FractionDigits(a % 1000))
  {
    var a := if m < 0 then -m else m;
    AppendAssoc((if m < 0 then "-" else "") + NatToString(a / 1000), ".", FractionDigits(a % 1000));
    AppendAssoc(if m < 0 then "-" else "", NatToString(a / 1000), "." + FractionDigits(a % 1000));
    AppendAssoc(NatToString(a / 1000), ".", FractionDigits(a % 1000));
  }

  /** A float that `round(x, 3)` returned: `milli` thousandths, and whether
      `x` was below zero, which `str` still shows once it rounded to zero. */
  datatype Rounded = Rounded(milli: int, negative: bool)

  /** `round(x, 3)` of the float `x = n / d` thousandths. */
  function Round3(n: int, d: int): (r: Rounded)
    requires d != 0
    ensures d > 0 ==> -d <= 2 * (n - r.milli * d) < d
    ensures d < 0 ==> d < 2 * (n - r.milli * d) <= -d
    ensures r.negative <==> n < 0 < d || d < 0 < n
  {
    Rounded(RoundDiv(n, d), n < 0 < d || d < 0 < n)
  }

  /** `str(x)` of a rounded float, `-0.0` for a negative value that rounded to zero. */
  function FloatText(x: Rounded): string
  {
    if x.milli == 0 && x.negative then "-0.0" else FormatMilli(x.milli)
  }

  /** The printed float reads back as its thousandths, and starts with a
      minus sign exactly when it is below zero or a negative zero. */
  lemma FloatTextReadsBack(x: Rounded)
    ensures ParseMilli(FloatText(x)) == Some(x.milli)
    ensures |FloatText(x)| > 0
    ensures FloatText(x)[0] == '-' <==> x.milli < 0 || (x.milli == 0 && x.negative)
  {
    if x.milli == 0 && x.negative {
      NegativeZeroReadsBack();
    } else {
      var m := x.milli;
      var a := if m < 0 then -m else m;
      FormatMilliRoundTrip(m);
      FormatMilliParts(m);
      BodyReadsBack(a);
      var body := NatToString(a / 1000) + "." + FractionDigits(a % 1000);
      if m >= 0 {
        assert FormatMilli(m) == "" + body;
        assert FormatMilli(m)[0] == body[0];
      }
    }
  }

  lemma NegativeZeroReadsBack()
    ensures ParseMilli("-0.0") == Some(0)
  {
    BodyReadsBack(0);
    assert NatToString(0) + "." + FractionDigits(0) == "0.0";
    ParseMilliSigned("0.0", true);
    assert "-" + "0.0" == "-0.0";
  }

  // ----- lists -----

  /** No element occurs twice. */
  predicate Distinct(s: seq<string>)
  {
    forall i, j :: 0 <= i < j < |s| ==> s[i] != s[j]
  }

  /** The number of times `x` occurs in `s`. */
  function Occurrences(s: seq<string>, x: string): nat
  {
    if |s| == 0 then 0 else Occurrences(s[..|s| - 1], x) + (if s[|s| - 1] == x then 1 else 0)
  }

  /** A present element of a list without duplicates occurs once. */
  lemma {:induction false} DistinctOccursOnce(s: seq<string>, x: string)
    requires Distinct(s)
    ensures Occurrences(s, x) == if x in s then 1 else 0
  {
    if |s| > 0 {
      var init := s[..|s| - 1];
      DistinctOccursOnce(init, x);
      assert s == init + [s[|s| - 1]];
      if s[|s| - 1] == x {
        assert x !in init by {
          forall i | 0 <= i < |init| ensures init[i] != x {
            assert s[i] != s[|s| - 1];
          }
        }
      }
    }
  }

  /** Two lists without duplicates and without a common element concatenate
      into a list without duplicates. */
  lemma DistinctConcat(a: seq<string>, b: seq<string>)
    requires Distinct(a) && Distinct(b)
    requires forall x :: x in a ==> x !in b
    ensures Distinct(a + b)
  {
    forall i, j | 0 <= i < j < |a + b| ensures (a + b)[i] != (a + b)[j] {
      if i < |a| && j >= |a| {
        assert (a + b)[i] in a && (a + b)[j] in b;
      }
    }
  }

  /** `s.index(x)`, or `None` where Python raises `ValueError`. */
  function IndexOf(s: seq<string>, x: string): (r: Option<nat>)
    ensures r.Some? <==> x in s
    ensures r.Some? ==> r.value < |s| && s[r.value] == x && x !in s[..r.value]
  {
    if |s| == 0 then None
    else if s[0] == x then Some(0)
    else match IndexOf(s[1..], x)
      case None => None
      case Some(k) => assert s[..k + 1] == [s[0]] + s[1..][..k]; Some(k + 1)
  }

  // ----- SQLite cell values -----

  /** A cell of a result row: TEXT or INTEGER. */
  datatype Value = Text(text: string) | Integer(number: int)

  /** `str(v)`, also what an f-string inserts. */
  function Str(v: Value): string
  {
    match v
    case Text(t) => t
    case Integer(n) => IntToString(n)
  }

  /** `int(v)`. */
  function Int(v: Value): (r: Result<int>)
    ensures v.Integer? ==> r == Ok(v.number)
    ensures v.Text? ==> (r.Ok? <==> ParseInt(v.text).Some?)
    ensures v.Text? && r.Ok? ==> r.value == ParseInt(v.text).value
    ensures r.Err? ==> r.error == ValueError
  {
    match v
    case Integer(n) => Ok(n)
    case Text(t) => if ParseInt(t).Some? then Ok(ParseInt(t).value) else Err(ValueError)
  }

  /** `int(str(v))` recovers an integer cell. */
  lemma IntOfStr(v: Value)
    requires v.Integer?
    ensures Int(Text(Str(v))) == Ok(v.number)
  {
    ParseIntToString(v.number);
  }
}
