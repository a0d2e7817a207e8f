/**
 * Canonical tag keys and display labels (internal/tag/service.go): a raw tag
 * such as "Career Change" or "backend_dev" becomes the kebab-case key
 * "career-change" / "backend-dev" and the title-case label "Career Change" /
 * "Backend Dev". Case mapping and white space are ASCII.
 */
module TagNames {
  import opened Text

  // ----- keys -------------------------------------------------------------

  predicate IsKeyChar(c: char) { IsLower(c) || IsDigit(c) || c == '-' }

  /** Only `a-z`, `0-9` and `-`. */
  predicate KeyChars(s: string)
  {
    forall i :: 0 <= i < |s| ==> IsKeyChar(s[i])
  }

  /** No "--" anywhere. */
  predicate NoDoubleHyphen(s: string)
  {
    forall i :: 0 <= i < |s| - 1 ==> !(s[i] == '-' && s[i + 1] == '-')
  }

  /** Neither the first nor the last character is "-". */
  predicate NoEdgeHyphen(s: string)
  {
    |s| > 0 ==> s[0] != '-' && s[|s| - 1] != '-'
  }

  /** The shape every generated key has: hyphen-separated words of `[a-z0-9]`, or "". */
  predicate WellFormedKey(s: string)
  {
    KeyChars(s) && NoDoubleHyphen(s) && NoEdgeHyphen(s)
  }

  /** The regular expression `[^a-z0-9-]` replaced by "": keep only key characters. */
  function KeepKeyChars(s: string): (r: string)
    ensures KeyChars(r)
    ensures |r| <= |s|
  {
    if |s| == 0 then ""
    else (if IsKeyChar(s[0]) then [s[0]] else "") + KeepKeyChars(s[1..])
  }

  lemma {:induction false} KeepKeyCharsAll(s: string)
    requires KeyChars(s)
    ensures KeepKeyChars(s) == s
  {
    if |s| > 0 {
      KeepKeyCharsAll(s[1..]);
      assert [s[0]] + s[1..] == s;
    }
  }

  /** The regular expression `-+` replaced by "-": every run of hyphens becomes one. */
  function CollapseHyphens(s: string): (r: string)
    ensures |r| <= |s|
    ensures |s| == 0 <==> |r| == 0
    ensures |s| > 0 ==> r[0] == s[0] && r[|r| - 1] == s[|s| - 1]
    ensures KeyChars(s) ==> KeyChars(r)
    ensures NoDoubleHyphen(r)
  {
    if |s| == 0 then ""
    else if |s| > 1 && s[0] == '-' && s[1] == '-' then CollapseHyphens(s[1..])
    else
      var rest := CollapseHyphens(s[1..]);
      assert |rest| > 0 ==> rest[0] == s[1];
      [s[0]] + rest
  }

  lemma {:induction false} CollapseHyphensNoDouble(s: string)
    requires NoDoubleHyphen(s)
    ensures CollapseHyphens(s) == s
  {
    if |s| > 0 {
      CollapseHyphensNoDouble(s[1..]);
      assert [s[0]] + s[1..] == s;
    }
  }

  /** `strings.TrimLeft(s, "-")`: a suffix of `s` not starting with "-". */
  function TrimLeft(s: string): (r: string)
    ensures |r| <= |s| && r == s[|s| - |r|..]
    ensures |r| > 0 ==> r[0] != '-'
    ensures |s| > 0 && s[0] != '-' ==> r == s
  {
    if |s| > 0 && s[0] == '-' then TrimLeft(s[1..]) else s
  }

  /** `strings.TrimRight(s, "-")`: a prefix of `s` not ending with "-". */
  function TrimRight(s: string): (r: string)
    ensures |r| <= |s| && r == s[..|r|]
    ensures |r| > 0 ==> r[|r| - 1] != '-'
    ensures |s| > 0 && s[|s| - 1] != '-' ==> r == s
  {
    if |s| > 0 && s[|s| - 1] == '-' then TrimRight(s[..|s| - 1]) else s
  }

  /** `strings.Trim(s, "-")`: the key shape is kept, and the edges become hyphen-free. */
  function TrimHyphens(s: string): (r: string)
    ensures NoEdgeHyphen(r)
    ensures KeyChars(s) ==> KeyChars(r)
    ensures NoDoubleHyphen(s) ==> NoDoubleHyphen(r)
    ensures NoEdgeHyphen(s) ==> r == s
  {
    TrimBoth(s, TrimLeft(s), TrimRight(TrimLeft(s)));
    TrimRight(TrimLeft(s))
  }

  /** Trimming both ends leaves a slice of `s` with hyphen-free edges. */
  lemma TrimBoth(s: string, l: string, r: string)
    requires l == TrimLeft(s) && r == TrimRight(l)
    ensures NoEdgeHyphen(r)
    ensures KeyChars(s) ==> KeyChars(r)
    ensures NoDoubleHyphen(s) ==> NoDoubleHyphen(r)
    ensures NoEdgeHyphen(s) ==> r == s
  {
    var a := |s| - |l|;
    if |r| > 0 {
      assert r[0] == l[0];
    }
    forall i | 0 <= i < |r| ensures r[i] == s[a + i] {
      assert r[i] == l[i] == s[a + i];
    }
    InfixShape(s, a, r);
    if NoEdgeHyphen(s) && |s| > 0 {
      assert l == s;
    }
  }

  /** A string found inside `s` at offset `a` keeps its key characters and its lack of "--". */
  lemma InfixShape(s: string, a: nat, t: string)
    requires a + |t| <= |s| && forall i :: 0 <= i < |t| ==> t[i] == s[a + i]
    ensures KeyChars(s) ==> KeyChars(t)
    ensures NoDoubleHyphen(s) ==> NoDoubleHyphen(t)
  {
  }

  /** `toTagKey`: lower-case, blanks and underscores to hyphens, filter, collapse, trim. */
  function ToTagKey(raw: string): (r: string)
    ensures WellFormedKey(r)
  {
    TrimHyphens(CollapseHyphens(KeepKeyChars(
      ReplaceChar(ReplaceChar(LowerStr(raw), ' ', '-'), '_', '-'))))
  }

  /** A well-formed key is its own key. */
  lemma WellFormedKeyFixed(k: string)
    requires WellFormedKey(k)
    ensures ToTagKey(k) == k
  {
    LowerStrNoUpper(k);
    ReplaceCharAbsent(k, ' ', '-');
    ReplaceCharAbsent(k, '_', '-');
    KeepKeyCharsAll(k);
    CollapseHyphensNoDouble(k);
  }

  /** `toTagKey` is idempotent. */
  lemma ToTagKeyIdempotent(raw: string)
    ensures ToTagKey(ToTagKey(raw)) == ToTagKey(raw)
  {
    WellFormedKeyFixed(ToTagKey(raw));
  }

  /** `toTagKey` drops the "!" of "wfh!", and keeps "wfh". */
  lemma ToTagKeyWfh()
    ensures ToTagKey("wfh") == ToTagKey("wfh!") == "wfh"
  {
    assert LowerStr("wfh!") == "wfh!";
    assert ReplaceChar(ReplaceChar("wfh!", ' ', '-'), '_', '-') == "wfh!";
    assert KeepKeyChars("wfh!") == "wfh";
    assert WellFormedKey("wfh");
    WellFormedKeyFixed("wfh");
  }

  // ----- labels -----------------------------------------------------------

  /** The first byte of the UTF-8 encoding of `c`, the byte Go's `word[0]` reads. */
  function LeadByte(c: char): (b: int)
    ensures c as int < 0x80 ==> b == c as int
    ensures c as int >= 0x80 ==> 0xC2 <= b <= 0xF4
  {
    var n := c as int;
    if n < 0x80 then n
    else if n < 0x800 then 0xC0 + n / 0x40
    else if n < 0x1_0000 then 0xE0 + n / 0x1000
    else 0xF0 + n / 0x4_0000
  }

  /** The number of bytes after the first in the UTF-8 encoding of `c`. */
  function TrailingBytes(c: char): (k: nat)
    ensures k <= 3
    ensures k == 0 <==> c as int < 0x80
  {
    var n := c as int;
    if n < 0x80 then 0 else if n < 0x800 then 1 else if n < 0x1_0000 then 2 else 3
  }

  /**
   * `strings.ToUpper(string(word[0]))`: `string` of a byte is the character
   * with that code, upper-cased. For an ASCII initial that is the initial
   * upper-cased; otherwise it is the Latin-1 letter of the lead byte, whose
   * lower-case ones (0xE0 to 0xF4) have their upper-case partner 0x20 below.
   */
  function InitialUpper(c: char): (r: char)
    ensures c as int < 0x80 ==> r == Upper(c)
    ensures c as int >= 0x80 ==> 0xC0 <= r as int <= 0xDF
  {
    if c as int < 0x80 then Upper(c)
    else
      var b := LeadByte(c);
      (if b >= 0xE0 then b - 0x20 else b) as char
  }

  /** U+FFFD, what `strings.ToLower` writes for each byte that is not valid UTF-8. */
  const Replacement: char := '\U{FFFD}'

  /**
   * One word in title case as `toTagLabel` writes it: the first byte
   * upper-cased, then the rest lower-cased. The bytes left over from a
   * non-ASCII initial are invalid on their own, and each becomes U+FFFD.
   */
  function TitleWord(w: string): (r: string)
    ensures |w| == 0 ==> r == w
    ensures |w| > 0 ==> |r| == |w| + TrailingBytes(w[0]) && r[0] == InitialUpper(w[0])
    ensures |w| > 0 ==> r[1 + TrailingBytes(w[0])..] == LowerStr(w[1..])
    ensures |w| > 0 ==> forall i :: 1 <= i <= TrailingBytes(w[0]) ==> r[i] == Replacement
  {
    if |w| == 0 then w else [InitialUpper(w[0])] + seq(TrailingBytes(w[0]), _ => Replacement) + LowerStr(w[1..])
  }

  /** With an ASCII initial, `toTagLabel`'s word is the title-case word it evidently means. */
  lemma TitleWordAscii(w: string)
    requires |w| > 0 && w[0] as int < 0x80
    ensures TitleWord(w) == TitleWordCorrected(w)
  {
    assert TitleWord(w) == [Upper(w[0])] + LowerStr(w[1..]);
  }

  /**
   * A non-ASCII initial is garbled: "\U{E9}lan" ("élan") becomes "\U{C3}" (Ã),
   * U+FFFD and "lan", which is no longer the word up to case.
   */
  lemma TitleWordNonAsciiInitial()
    ensures TitleWord("\U{E9}lan") == "\U{C3}\U{FFFD}lan"
    ensures LowerStr(TitleWord("\U{E9}lan")) != LowerStr("\U{E9}lan")
  {
    assert LeadByte('\U{E9}') == 0xC3;
    assert TitleWord("\U{E9}lan") == ['\U{C3}'] + [Replacement] + LowerStr("lan");
    assert LowerStr("lan") == "lan";
    assert LowerStr(TitleWord("\U{E9}lan"))[1] != LowerStr("\U{E9}lan")[1];
  }

  /** The title-case word by characters: the first upper-cased, the rest lower-cased. */
  function TitleWordCorrected(w: string): (r: string)
    ensures |r| == |w|
    ensures |w| > 0 ==> r[0] == Upper(w[0]) && forall i :: 1 <= i < |r| ==> r[i] == Lower(w[i])
  {
    if |w| == 0 then w else [Upper(w[0])] + LowerStr(w[1..])
  }

  /** The corrected word keeps every character, up to case. */
  lemma TitleWordCorrectedKeepsWord(w: string)
    ensures LowerStr(TitleWordCorrected(w)) == LowerStr(w)
  {
    var r := TitleWordCorrected(w);
    forall i | 0 <= i < |w| ensures Lower(r[i]) == Lower(w[i]) {
      if i == 0 {
        LowerOfUpper(w[0]);
      } else {
        LowerIdempotent(w[i]);
      }
    }
  }

  lemma LowerOfUpper(c: char)
    ensures Lower(Upper(c)) == Lower(c)
  {
  }

  lemma LowerIdempotent(c: char)
    ensures Lower(Lower(c)) == Lower(c)
  {
  }

  /** A non-empty word whose first character is not lower-case and whose others are not upper-case. */
  predicate IsTitleWord(w: string)
  {
    |w| > 0 && !IsLower(w[0]) && forall i :: 1 <= i < |w| ==> !IsUpper(w[i])
  }

  function TitleWords(ws: seq<string>): (r: seq<string>)
    ensures |r| == |ws|
    ensures forall k :: 0 <= k < |ws| ==> r[k] == TitleWord(ws[k])
  {
    seq(|ws|, k requires 0 <= k < |ws| => TitleWord(ws[k]))
  }

  /** The words of a label: the fields of `raw` with hyphens and underscores read as blanks. */
  function LabelFields(raw: string): seq<string>
  {
    Fields(ReplaceChar(ReplaceChar(raw, '-', ' '), '_', ' '))
  }

  /** What `toTagLabel` computes: the title-cased fields joined by single blanks. */
  function TagLabel(raw: string): string
  {
    Join(TitleWords(LabelFields(raw)), " ")
  }

  /** `toTagLabel`, rewriting the words in place as the Go code does. */
  method ToTagLabel(raw: string) returns (result: string)
    ensures result == TagLabel(raw)
  {
    var s := ReplaceChar(raw, '-', ' ');
    s := ReplaceChar(s, '_', ' ');
    var words := Fields(s);
    ghost var fields := words;
    var i := 0;
    while i < |words|
      invariant 0 <= i <= |words| == |fields|
      invariant forall k :: 0 <= k < i ==> words[k] == TitleWord(fields[k])
      invariant forall k :: i <= k < |words| ==> words[k] == fields[k]
    {
      if |words[i]| > 0 {
        var w := words[i];
        words := words[i := [InitialUpper(w[0])] + seq(TrailingBytes(w[0]), _ => Replacement) + LowerStr(w[1..])];
      }
      i := i + 1;
    }
    assert words == TitleWords(fields);
    result := Join(words, " ");
  }

  /**
   * A label has no hyphen or underscore, is single-spaced without edge blanks,
   * and consists of title-case words.
   */
  lemma TagLabelWellFormed(raw: string)
    ensures '-' !in TagLabel(raw) && '_' !in TagLabel(raw)
    ensures SingleSpaced(TagLabel(raw))
    ensures TagLabel(raw) == Join(TitleWords(LabelFields(raw)), " ")
    ensures forall k :: 0 <= k < |TitleWords(LabelFields(raw))| ==> IsTitleWord(TitleWords(LabelFields(raw))[k])
  {
    var s := ReplaceChar(ReplaceChar(raw, '-', ' '), '_', ' ');
    var fs := Fields(s);
    var ws := TitleWords(fs);
    assert forall k, i :: 0 <= k < |fs| && 0 <= i < |fs[k]| ==> fs[k][i] != '-' && fs[k][i] != '_';
    forall k | 0 <= k < |ws|
      ensures |ws[k]| > 0 && IsTitleWord(ws[k])
      ensures forall i :: 0 <= i < |ws[k]| ==> !IsSpace(ws[k][i]) && ws[k][i] != '-' && ws[k][i] != '_'
    {
      TitleWordShape(fs[k]);
    }
    JoinSingleSpaced(ws);
    JoinChars(ws, " ", c => c != '-' && c != '_');
  }

  /** A title-cased field is a title-case word, still without blanks, hyphens or underscores. */
  lemma TitleWordShape(w: string)
    requires |w| > 0
    requires forall i :: 0 <= i < |w| ==> !IsSpace(w[i]) && w[i] != '-' && w[i] != '_'
    ensures var r := TitleWord(w);
      && IsTitleWord(r)
      && forall i :: 0 <= i < |r| ==> !IsSpace(r[i]) && r[i] != '-' && r[i] != '_'
  {
    var r := TitleWord(w);
    var t := TrailingBytes(w[0]);
    forall i | 0 <= i < |r| ensures !IsSpace(r[i]) && r[i] != '-' && r[i] != '_' && (i > 0 ==> !IsUpper(r[i])) {
      if i > t {
        assert r[i] == LowerStr(w[1..])[i - 1 - t] == Lower(w[i - t]);
      }
    }
  }

  // ----- key -> label -> key ------------------------------------------------

  /** Lower-casing a join lower-cases the pieces and the separator. */
  lemma {:induction false} LowerStrJoin(xs: seq<string>, sep: string)
    ensures LowerStr(Join(xs, sep)) == Join(seq(|xs|, k requires 0 <= k < |xs| => LowerStr(xs[k])), LowerStr(sep))
  {
    var ys := seq(|xs|, k requires 0 <= k < |xs| => LowerStr(xs[k]));
    if |xs| > 1 {
      LowerStrJoin(xs[1..], sep);
      assert ys[1..] == seq(|xs[1..]|, k requires 0 <= k < |xs[1..]| => LowerStr(xs[1..][k]));
      LowerStrConcat(xs[0] + sep, Join(xs[1..], sep));
      LowerStrConcat(xs[0], sep);
    }
  }

  predicate AlnumLower(w: string)
  {
    forall i :: 0 <= i < |w| ==> IsLower(w[i]) || IsDigit(w[i])
  }

  /** Lower-casing a title-cased lower-case word gives the word back. */
  lemma TitleWordLower(w: string)
    requires AlnumLower(w)
    ensures LowerStr(TitleWord(w)) == w
  {
    if |w| > 0 {
      LowerUpper(w[0]);
      var t := TitleWord(w);
      forall i | 0 <= i < |w| ensures LowerStr(t)[i] == w[i] {
        if i > 0 {
          assert t[i] == Lower(w[i]);
        }
      }
    }
  }

  /** Every piece of a split is built from the characters of the string other than the separator. */
  lemma {:induction false} SplitPiecesFrom(s: string, c: char, P: char -> bool)
    requires forall i :: 0 <= i < |s| ==> s[i] == c || P(s[i])
    ensures forall k, i :: 0 <= k < |Split(s, c)| && 0 <= i < |Split(s, c)[k]| ==> P(Split(s, c)[k][i])
  {
    if |s| > 0 {
      SplitPiecesFrom(s[1..], c, P);
      var rest := Split(s[1..], c);
      if s[0] != c {
        var p := [s[0]] + rest[0];
        assert forall i :: 0 <= i < |p| ==> P(p[i]) by {
          assert forall i :: 1 <= i < |p| ==> p[i] == rest[0][i - 1];
        }
      }
    }
  }

  /**
   * A string that does not end with the separator and has no doubled separator
   * splits into pieces that are non-empty after the first.
   */
  lemma {:induction false} SplitTailNonEmpty(s: string, c: char)
    requires |s| > 0 ==> s[|s| - 1] != c
    requires forall i :: 0 <= i < |s| - 1 ==> !(s[i] == c && s[i + 1] == c)
    ensures forall k :: 1 <= k < |Split(s, c)| ==> |Split(s, c)[k]| > 0
  {
    if |s| > 0 {
      SplitTailNonEmpty(s[1..], c);
      if s[0] == c {
        assert |s| > 1 && s[1] != c;
      }
    }
  }

  /** The blanks of a well-formed key read as hyphens: its label fields are its hyphen-separated words. */
  lemma KeyFields(k: string)
    requires WellFormedKey(k) && |k| > 0
    ensures var ws := LabelFields(k);
      && Join(ws, " ") == ReplaceChar(k, '-', ' ')
      && (forall j :: 0 <= j < |ws| ==> |ws[j]| > 0 && AlnumLower(ws[j]))
  {
    var s := ReplaceChar(k, '-', ' ');
    ReplaceCharAbsent(s, '_', ' ');
    var ws := Split(s, ' ');
    SplitTailNonEmpty(s, ' ');
    SplitPiecesFrom(s, ' ', ch => IsLower(ch) || IsDigit(ch));
    assert |ws[0]| > 0 by {
      assert s[0] != ' ';
    }
    JoinSplit(s, ' ');
    FieldsJoin(ws);
  }

  /** Lower-casing a label made of lower-case words gives the words joined by blanks. */
  lemma LowerLabel(ws: seq<string>)
    requires forall j :: 0 <= j < |ws| ==> AlnumLower(ws[j])
    ensures LowerStr(Join(TitleWords(ws), " ")) == Join(ws, " ")
  {
    var ts := TitleWords(ws);
    LowerStrJoin(ts, " ");
    var ls := seq(|ts|, j requires 0 <= j < |ts| => LowerStr(ts[j]));
    forall j | 0 <= j < |ws| ensures ls[j] == ws[j] {
      TitleWordLower(ws[j]);
    }
    assert ls == ws;
    assert LowerStr(" ") == " ";
  }

  /** For a well-formed key, the label's lower-case form with blanks as hyphens is the key. */
  lemma LabelOfKey(k: string)
    requires WellFormedKey(k) && |k| > 0
    ensures ReplaceChar(LowerStr(TagLabel(k)), ' ', '-') == k
  {
    var s := ReplaceChar(k, '-', ' ');
    KeyFields(k);
    LowerLabel(LabelFields(k));
    assert LowerStr(TagLabel(k)) == s;
  }

  /** Round trip: the key of a well-formed key's label is the key ("career-change" and "Career Change"). */
  lemma KeyLabelKey(k: string)
    requires WellFormedKey(k)
    ensures ToTagKey(TagLabel(k)) == k
  {
    if |k| == 0 {
      assert TagLabel(k) == "";
    } else {
      var l := TagLabel(k);
      LabelOfKey(k);
      ReplaceCharAbsent(k, '_', '-');
      KeepKeyCharsAll(k);
      CollapseHyphensNoDouble(k);
      assert ToTagKey(l) == TrimHyphens(CollapseHyphens(KeepKeyChars(ReplaceChar(k, '_', '-'))));
    }
  }
}
