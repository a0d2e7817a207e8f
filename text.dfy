/**
 * String primitives: ASCII case mapping, Unicode white space, substring
 * search, splitting on a separator, joining, and decimal rendering of integers.
 */
module Text {

  predicate IsUpper(c: char) { 'A' <= c <= 'Z' }
  predicate IsLower(c: char) { 'a' <= c <= 'z' }
  predicate IsDigit(c: char) { '0' <= c <= '9' }

  /**
   * White space as Go's `unicode.IsSpace` sees it: the ASCII blanks, NEL,
   * NO-BREAK SPACE and the other characters of Unicode's White_Space property.
   */
  predicate IsSpace(c: char)
  {
    || c == ' ' || c == '\t' || c == '\n' || c == '\r' || c == '\U{B}' || c == '\U{C}'
    || c == '\U{85}' || c == '\U{A0}' || c == '\U{1680}'
    || '\U{2000}' <= c <= '\U{200A}'
    || c == '\U{2028}' || c == '\U{2029}' || c == '\U{202F}' || c == '\U{205F}' || c == '\U{3000}'
  }

  /** ASCII lower-casing of one character; every other character is kept. */
  function Lower(c: char): (r: char)
    ensures !IsUpper(r)
    ensures IsUpper(c) ==> IsLower(r) && r as int == c as int + 32
    ensures !IsUpper(c) ==> r == c
  {
    if IsUpper(c) then (c as int + 32) as char else c
  }

  /** ASCII upper-casing of one character; every other character is kept. */
  function Upper(c: char): (r: char)
    ensures !IsLower(r)
    ensures IsLower(c) ==> IsUpper(r) && r as int == c as int - 32
    ensures !IsLower(c) ==> r == c
  {
    if IsLower(c) then (c as int - 32) as char else c
  }

  lemma LowerUpper(c: char)
    requires IsLower(c) || IsDigit(c)
    ensures Lower(Upper(c)) == c
  {
  }

  /** `strings.ToLower` restricted to ASCII. */
  function LowerStr(s: string): (r: string)
    ensures |r| == |s|
    ensures forall i :: 0 <= i < |s| ==> r[i] == Lower(s[i])
  {
    seq(|s|, i requires 0 <= i < |s| => Lower(s[i]))
  }

  lemma LowerStrConcat(a: string, b: string)
    ensures LowerStr(a + b) == LowerStr(a) + LowerStr(b)
  {
    assert LowerStr(a + b) == LowerStr(a) + LowerStr(b);
  }

  /** A string without upper-case letters is its own lower-case form. */
  lemma LowerStrNoUpper(s: string)
    requires forall i :: 0 <= i < |s| ==> !IsUpper(s[i])
    ensures LowerStr(s) == s
  {
  }

  /** `strings.ReplaceAll(s, [from], [to])`. */
  function ReplaceChar(s: string, from: char, to: char): (r: string)
    ensures |r| == |s|
    ensures forall i :: 0 <= i < |s| ==> r[i] == if s[i] == from then to else s[i]
  {
    seq(|s|, i requires 0 <= i < |s| => if s[i] == from then to else s[i])
  }

  lemma ReplaceCharConcat(a: string, b: string, from: char, to: char)
    ensures ReplaceChar(a + b, from, to) == ReplaceChar(a, from, to) + ReplaceChar(b, from, to)
  {
    assert ReplaceChar(a + b, from, to) == ReplaceChar(a, from, to) + ReplaceChar(b, from, to);
  }

  lemma ReplaceCharAbsent(s: string, from: char, to: char)
    requires from !in s
    ensures ReplaceChar(s, from, to) == s
  {
  }

  /** Every character of a join comes from a piece or from the separator. */
  lemma {:induction false} JoinChars(xs: seq<string>, sep: string, P: char -> bool)
    requires forall k, i :: 0 <= k < |xs| && 0 <= i < |xs[k]| ==> P(xs[k][i])
    requires forall i :: 0 <= i < |sep| ==> P(sep[i])
    ensures forall i :: 0 <= i < |Join(xs, sep)| ==> P(Join(xs, sep)[i])
  {
    if |xs| > 1 {
      JoinChars(xs[1..], sep, P);
      var rest := Join(xs[1..], sep);
      assert forall i :: 0 <= i < |xs[0]| ==> P(xs[0][i]);
      forall i | 0 <= i < |Join(xs, sep)| ensures P(Join(xs, sep)[i]) {
        if i < |xs[0]| {
          assert Join(xs, sep)[i] == xs[0][i];
        } else if i < |xs[0]| + |sep| {
          assert Join(xs, sep)[i] == sep[i - |xs[0]|];
        } else {
          assert Join(xs, sep)[i] == rest[i - |xs[0]| - |sep|];
        }
      }
    } else if |xs| == 1 {
      assert Join(xs, sep) == xs[0];
    }
  }

  predicate HasPrefix(s: string, p: string)
  {
    |p| <= |s| && s[..|p|] == p
  }

  /** AQL `CONTAINS(s, sub)`: `sub` occurs in `s` as a contiguous substring. */
  predicate Contains(s: string, sub: string)
    decreases |s|
  {
    HasPrefix(s, sub) || (|s| > 0 && Contains(s[1..], sub))
  }

  /** A contained string starts at some position of `s`. */
  lemma {:induction false} ContainsAt(s: string, sub: string)
    requires Contains(s, sub)
    ensures exists i :: 0 <= i <= |s| && HasPrefix(s[i..], sub)
    decreases |s|
  {
    if HasPrefix(s, sub) {
      assert s[0..] == s;
    } else {
      ContainsAt(s[1..], sub);
      var i :| 0 <= i <= |s[1..]| && HasPrefix(s[1..][i..], sub);
      assert s[1..][i..] == s[i + 1..];
    }
  }

  /** `strings.Join(xs, sep)`. */
  function Join(xs: seq<string>, sep: string): string
  {
    if |xs| == 0 then "" else if |xs| == 1 then xs[0] else xs[0] + sep + Join(xs[1..], sep)
  }

  /** Joining is a left fold as well as a right fold. */
  lemma {:induction false} JoinSnoc(xs: seq<string>, y: string, sep: string)
    requires |xs| >= 1
    ensures Join(xs + [y], sep) == Join(xs, sep) + sep + y
  {
    if |xs| == 1 {
      assert xs + [y] == [xs[0], y];
      assert [xs[0], y][1..] == [y];
    } else {
      assert (xs + [y])[1..] == xs[1..] + [y];
      JoinSnoc(xs[1..], y, sep);
    }
  }

  /**
   * AQL `SPLIT(s, [c])`: the pieces between occurrences of `c`, always at least
   * one (an empty string gives one empty piece).
   */
  function Split(s: string, c: char): (r: seq<string>)
    ensures |r| >= 1
  {
    if |s| == 0 then [""]
    else
      var rest := Split(s[1..], c);
      if s[0] == c then [""] + rest else [[s[0]] + rest[0]] + rest[1..]
  }

  /** No piece of a split contains the separator. */
  lemma {:induction false} SplitPiecesFree(s: string, c: char)
    ensures forall k :: 0 <= k < |Split(s, c)| ==> c !in Split(s, c)[k]
  {
    if |s| > 0 {
      SplitPiecesFree(s[1..], c);
    }
  }

  /** Joining the pieces with the separator gives back the string. */
  lemma {:induction false} JoinSplit(s: string, c: char)
    ensures Join(Split(s, c), [c]) == s
  {
    if |s| > 0 {
      var rest := Split(s[1..], c);
      JoinSplit(s[1..], c);
      if s[0] == c {
        assert ([""] + rest)[1..] == rest;
      } else if |rest| == 1 {
        assert [[s[0]] + rest[0]] + rest[1..] == [[s[0]] + rest[0]];
      } else {
        var r := [[s[0]] + rest[0]] + rest[1..];
        assert r[1..] == rest[1..];
        assert Join(rest, [c]) == rest[0] + [c] + Join(rest[1..], [c]);
      }
    }
  }

  /** Splitting a join of separator-free pieces gives back the pieces. */
  lemma {:induction false} SplitJoin(xs: seq<string>, c: char)
    requires |xs| >= 1
    requires forall k :: 0 <= k < |xs| ==> c !in xs[k]
    ensures Split(Join(xs, [c]), c) == xs
  {
    if |xs| == 1 {
      SplitFree(xs[0], c);
    } else {
      SplitJoin(xs[1..], c);
      SplitPrefix(xs[0], Join(xs[1..], [c]), c);
      assert [xs[0]] + xs[1..] == xs;
    }
  }

  lemma {:induction false} SplitFree(w: string, c: char)
    requires c !in w
    ensures Split(w, c) == [w]
  {
    if |w| > 0 {
      SplitFree(w[1..], c);
      assert [w[0]] + w[1..] == w;
    }
  }

  lemma {:induction false} SplitPrefix(w: string, rest: string, c: char)
    requires c !in w
    ensures Split(w + [c] + rest, c) == [w] + Split(rest, c)
  {
    if |w| == 0 {
      assert w + [c] + rest == [c] + rest;
      assert ([c] + rest)[1..] == rest;
    } else {
      assert (w + [c] + rest)[1..] == w[1..] + [c] + rest;
      SplitPrefix(w[1..], rest, c);
      assert [w[0]] + w[1..] == w;
    }
  }

  /** The longest prefix of `s` without white space. */
  function TakeWord(s: string): (w: string)
    ensures |w| <= |s| && w == s[..|w|]
    ensures forall i :: 0 <= i < |w| ==> !IsSpace(w[i])
    ensures |w| < |s| ==> IsSpace(s[|w|])
  {
    if |s| == 0 || IsSpace(s[0]) then "" else [s[0]] + TakeWord(s[1..])
  }

  /** `strings.Fields(s)`: the maximal runs of non-space characters. */
  function Fields(s: string): (r: seq<string>)
    ensures forall k :: 0 <= k < |r| ==> |r[k]| > 0
    ensures forall k, i :: 0 <= k < |r| && 0 <= i < |r[k]| ==> !IsSpace(r[k][i]) && r[k][i] in s
    decreases |s|
  {
    if |s| == 0 then []
    else if IsSpace(s[0]) then
      var r := Fields(s[1..]);
      assert forall k, i :: 0 <= k < |r| && 0 <= i < |r[k]| ==> r[k][i] in s[1..];
      r
    else
      var w := TakeWord(s);
      var r := Fields(s[|w|..]);
      assert forall k, i :: 0 <= k < |r| && 0 <= i < |r[k]| ==> r[k][i] in s[|w|..];
      assert forall i :: 0 <= i < |w| ==> w[i] == s[i];
      [w] + r
  }

  lemma {:induction false} TakeWordPrefix(w: string, rest: string)
    requires forall i :: 0 <= i < |w| ==> !IsSpace(w[i])
    ensures TakeWord(w + " " + rest) == w
  {
    if |w| > 0 {
      assert (w + " " + rest)[1..] == w[1..] + " " + rest;
      TakeWordPrefix(w[1..], rest);
      assert [w[0]] + w[1..] == w;
    }
  }

  lemma {:induction false} TakeWordAll(w: string)
    requires forall i :: 0 <= i < |w| ==> !IsSpace(w[i])
    ensures TakeWord(w) == w
  {
    if |w| > 0 {
      TakeWordAll(w[1..]);
      assert [w[0]] + w[1..] == w;
    }
  }

  /** Splitting a single-spaced join of words into fields gives back the words. */
  lemma {:induction false} FieldsJoin(ws: seq<string>)
    requires forall k :: 0 <= k < |ws| ==> |ws[k]| > 0
    requires forall k, i :: 0 <= k < |ws| && 0 <= i < |ws[k]| ==> !IsSpace(ws[k][i])
    ensures Fields(Join(ws, " ")) == ws
  {
    if |ws| == 1 {
      TakeWordAll(ws[0]);
      assert ws[0][|ws[0]|..] == "";
    } else if |ws| > 1 {
      var w := ws[0];
      var rest := Join(ws[1..], " ");
      assert Join(ws, " ") == w + " " + rest;
      TakeWordPrefix(w, rest);
      assert (w + " " + rest)[|w|..] == " " + rest;
      assert (" " + rest)[1..] == rest;
      FieldsJoin(ws[1..]);
      assert [w] + ws[1..] == ws;
    }
  }

  /** White space only as single blanks between non-blank characters. */
  ghost predicate SingleSpaced(l: string)
  {
    && (forall i :: 0 <= i < |l| && IsSpace(l[i]) ==> l[i] == ' ')
    && (|l| > 0 ==> l[0] != ' ' && l[|l| - 1] != ' ')
    && (forall i :: 0 <= i < |l| - 1 ==> !(l[i] == ' ' && l[i + 1] == ' '))
  }

  /** Words without white space joined by single blanks are single-spaced. */
  lemma {:induction false} JoinSingleSpaced(ws: seq<string>)
    requires forall k :: 0 <= k < |ws| ==> |ws[k]| > 0
    requires forall k, i :: 0 <= k < |ws| && 0 <= i < |ws[k]| ==> !IsSpace(ws[k][i])
    ensures SingleSpaced(Join(ws, " "))
  {
    if |ws| == 1 {
    } else if |ws| > 1 {
      var w := ws[0];
      var rest := Join(ws[1..], " ");
      JoinSingleSpaced(ws[1..]);
      var l := Join(ws, " ");
      assert l == w + " " + rest;
      assert |rest| > 0 by {
        assert |ws[1..]| >= 1;
        JoinNonEmpty(ws[1..]);
      }
      forall i | 0 <= i < |l| ensures IsSpace(l[i]) ==> l[i] == ' ' {
        if i < |w| {
          assert l[i] == w[i];
        } else if i > |w| {
          assert l[i] == rest[i - |w| - 1];
        }
      }
      forall i | 0 <= i < |l| - 1 ensures !(l[i] == ' ' && l[i + 1] == ' ') {
        if i < |w| - 1 {
          assert l[i] == w[i];
        } else if i == |w| - 1 {
          assert l[i] == w[i];
        } else if i == |w| {
          assert l[i + 1] == rest[0];
        } else {
          assert l[i] == rest[i - |w| - 1] && l[i + 1] == rest[i - |w|];
        }
      }
      assert l[0] == w[0];
      assert l[|l| - 1] == rest[|rest| - 1];
    }
  }

  lemma {:induction false} JoinNonEmpty(ws: seq<string>)
    requires |ws| >= 1 && |ws[0]| > 0
    ensures |Join(ws, " ")| > 0
  {
  }

  /** AQL `LAST(SPLIT(s, [c]))`. */
  function LastSegment(s: string, c: char): string
  {
    var pieces := Split(s, c);
    pieces[|pieces| - 1]
  }

  /** The last segment has no separator and is what follows the last separator. */
  lemma LastSegmentSpec(s: string, c: char)
    ensures c !in LastSegment(s, c)
    ensures exists p :: s == p + LastSegment(s, c) && (p == "" || p[|p| - 1] == c)
  {
    var pieces := Split(s, c);
    SplitPiecesFree(s, c);
    JoinSplit(s, c);
    var last := pieces[|pieces| - 1];
    if |pieces| == 1 {
      assert s == "" + last;
    } else {
      var init := pieces[..|pieces| - 1];
      assert init + [last] == pieces;
      JoinSnoc(init, last, [c]);
      var p := Join(init, [c]) + [c];
      assert s == p + last;
    }
  }

  function DigitChar(d: nat): (r: char)
    requires d < 10
    ensures IsDigit(r)
  {
    ('0' as int + d) as char
  }

  function DigitValue(c: char): nat
    requires IsDigit(c)
  {
    c as int - '0' as int
  }

  /** Decimal digits of a natural number, most significant first. */
  function NatDigits(n: nat): (r: string)
    ensures |r| >= 1
    ensures forall i :: 0 <= i < |r| ==> IsDigit(r[i])
    ensures n > 0 ==> r[0] != '0'
    ensures n == 0 ==> r == "0"
    decreases n
  {
    if n < 10 then [DigitChar(n)] else NatDigits(n / 10) + [DigitChar(n % 10)]
  }

  /** `fmt.Sprintf("%d", n)`. */
  function Decimal(n: int): string
  {
    if n < 0 then "-" + NatDigits(-n) else NatDigits(n)
  }

  /** The number a digit string denotes. */
  function DigitsValue(s: string): nat
    requires forall i :: 0 <= i < |s| ==> IsDigit(s[i])
  {
    if |s| == 0 then 0 else DigitsValue(s[..|s| - 1]) * 10 + DigitValue(s[|s| - 1])
  }

  /** The number an optionally signed digit string denotes. */
  function DecimalValue(s: string): int
    requires |s| >= 1
    requires s[0] == '-' ==> forall i :: 1 <= i < |s| ==> IsDigit(s[i])
    requires s[0] != '-' ==> forall i :: 0 <= i < |s| ==> IsDigit(s[i])
  {
    if s[0] == '-' then -(DigitsValue(s[1..]) as int) else DigitsValue(s)
  }

  lemma {:induction false} NatDigitsValue(n: nat)
    ensures DigitsValue(NatDigits(n)) == n
    decreases n
  {
    if n >= 10 {
      NatDigitsValue(n / 10);
      var r := NatDigits(n);
      assert r[..|r| - 1] == NatDigits(n / 10);
    }
  }

  /** Reading a rendered integer back gives the integer. */
  lemma DecimalRoundTrip(n: int)
    ensures |Decimal(n)| >= 1
    ensures DecimalValue(Decimal(n)) == n
  {
    if n < 0 {
      assert Decimal(n)[1..] == NatDigits(-n);
      NatDigitsValue(-n);
    } else {
      NatDigitsValue(n);
    }
  }
}
