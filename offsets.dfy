/** The offset mapper: visual width of a line, and the translation from a
    visual column to a position in the line.

    A line is scanned left to right in tokens: a complete control sequence
    is one token of width 0, every other character is one token of width 1
    (no double-width characters).  A column is turned into a character
    index (`ColumnIndex`) and, through the UTF-8 width of the characters
    before it, into a byte offset (`ColumnToOffset`).
 */
module Offsets {
  import opened Ansi

  /** Number of characters in the first token of a non-empty line. */
  function TokenLen(s: Line): (n: nat)
    requires s != []
    ensures 1 <= n <= |s|
  {
    if CsiLen(s) > 0 then CsiLen(s) else 1
  }

  /** The visible characters of a line in order: the line without its control sequences. */
  function Visible(s: Line): (v: Line)
    ensures |v| <= |s|
    decreases |s|
  {
    if s == [] then []
    else if CsiLen(s) > 0 then Visible(s[CsiLen(s)..])
    else [s[0]] + Visible(s[1..])
  }

  /** Number of columns a line occupies on the screen. */
  function VisualLength(s: Line): nat {
    |Visible(s)|
  }

  /** Every ESC of the line starts a complete control sequence: no stray
      escape character could merge with text written after it. */
  predicate NoStrayEsc(s: Line)
    decreases |s|
  {
    s == [] || ((CsiLen(s) > 0 || s[0] != ESC) && NoStrayEsc(s[TokenLen(s)..]))
  }

  /** Index of the character just after the `col`-th visible character of
      `s`; 0 for column 0, and the end of the line when `s` has fewer than
      `col` visible characters.  Control sequences before that character
      are skipped; the ones right after it are not. */
  function ColumnIndex(s: Line, col: nat): (i: nat)
    ensures i <= |s|
    decreases |s|
  {
    if col == 0 || s == [] then 0
    else if CsiLen(s) > 0 then CsiLen(s) + ColumnIndex(s[CsiLen(s)..], col)
    else 1 + ColumnIndex(s[1..], col - 1)
  }

  /** Number of bytes of the UTF-8 encoding of one Unicode scalar value. */
  function Utf8Width(c: char): (w: nat)
    ensures 1 <= w <= 4
    ensures w == 1 <==> c < '\U{80}'
  {
    if c < '\U{80}' then 1
    else if c < '\U{800}' then 2
    else if c < '\U{10000}' then 3
    else 4
  }

  /** Number of bytes of the UTF-8 encoding of a line. */
  function ByteLen(s: Line): (n: nat)
    ensures |s| <= n
  {
    if s == [] then 0 else Utf8Width(s[0]) + ByteLen(s[1..])
  }

  /** Byte offset in the UTF-8 encoding of `s` of visual column `col`. */
  function ColumnToOffset(s: Line, col: nat): (b: nat)
    ensures b <= ByteLen(s)
  {
    var i := ColumnIndex(s, col);
    ByteLenAppend(s[..i], s[i..]);
    assert s[..i] + s[i..] == s;
    ByteLen(s[..i])
  }

  lemma {:induction false} ByteLenAppend(a: Line, b: Line)
    ensures ByteLen(a + b) == ByteLen(a) + ByteLen(b)
  {
    if a != [] {
      assert (a + b)[0] == a[0];
      assert (a + b)[1..] == a[1..] + b;
      ByteLenAppend(a[1..], b);
      assert ByteLen(a + b) == Utf8Width(a[0]) + ByteLen(a[1..] + b);
    } else {
      assert a + b == b;
    }
  }

  /** A control sequence is plain ASCII: one byte per character. */
  lemma {:induction false} CsiByteLen(t: Line)
    requires IsCsi(t)
    ensures ByteLen(t) == |t|
  {
    AsciiByteLen(t);
  }

  lemma {:induction false} AsciiByteLen(t: Line)
    requires forall i :: 0 <= i < |t| ==> t[i] < '\U{80}'
    ensures ByteLen(t) == |t|
  {
    if t != [] {
      AsciiByteLen(t[1..]);
    }
  }

  /** A line without ESC characters is all visible: its width is its number of code points. */
  lemma {:induction false} PlainVisible(s: Line)
    requires ESC !in s
    ensures Visible(s) == s && VisualLength(s) == |s|
    ensures NoStrayEsc(s)
  {
    if s != [] {
      PlainVisible(s[1..]);
    }
  }

  /** The visible characters of a concatenation are those of its parts,
      provided the first part has no stray ESC that the second could complete. */
  lemma {:induction false} VisibleAppend(a: Line, b: Line)
    requires NoStrayEsc(a)
    ensures Visible(a + b) == Visible(a) + Visible(b)
    ensures VisualLength(a + b) == VisualLength(a) + VisualLength(b)
    ensures NoStrayEsc(b) ==> NoStrayEsc(a + b)
    decreases |a|
  {
    if a == [] {
      assert a + b == b;
    } else {
      var n := TokenLen(a);
      if CsiLen(a) > 0 {
        CsiLenExtend(a, b);
      } else {
        assert (a + b)[0] == a[0];
      }
      assert (a + b)[n..] == a[n..] + b;
      VisibleAppend(a[n..], b);
    }
  }

  /** Splitting a line at the index of a column splits its visible
      characters at that column, and a line without stray ESC splits into
      two such lines. */
  lemma {:induction false} SplitAtColumn(s: Line, col: nat)
    ensures Visible(s[..ColumnIndex(s, col)]) == Visible(s)[..Min(col, VisualLength(s))]
    ensures Visible(s[ColumnIndex(s, col)..]) == Visible(s)[Min(col, VisualLength(s))..]
    ensures NoStrayEsc(s) ==> NoStrayEsc(s[..ColumnIndex(s, col)]) && NoStrayEsc(s[ColumnIndex(s, col)..])
  {
    PrefixVisible(s, col);
    SuffixVisible(s, col);
    if NoStrayEsc(s) {
      SplitNoStray(s, col);
    }
  }

  lemma {:induction false} PrefixVisible(s: Line, col: nat)
    ensures Visible(s[..ColumnIndex(s, col)]) == Visible(s)[..Min(col, VisualLength(s))]
  {
    BoundarySplit(s, col);
  }

  lemma {:induction false} SuffixVisible(s: Line, col: nat)
    ensures Visible(s[ColumnIndex(s, col)..]) == Visible(s)[Min(col, VisualLength(s))..]
  {
    BoundarySplit(s, col);
  }

  /** Every column index is a split point of the visible characters. */
  lemma {:induction false} BoundarySplit(s: Line, col: nat)
    ensures Visible(s) == Visible(s[..ColumnIndex(s, col)]) + Visible(s[ColumnIndex(s, col)..])
    ensures |Visible(s[..ColumnIndex(s, col)])| == Min(col, |Visible(s)|)
    decreases |s|, 1
  {
    if col == 0 || s == [] {
      SplitsAtStart(s, col);
    } else if CsiLen(s) > 0 {
      SplitsAfterCsi(s, col);
    } else {
      SplitsAfterGlyph(s, col);
    }
  }

  lemma {:induction false} SplitsAtStart(s: Line, col: nat)
    requires col == 0 || s == []
    ensures Visible(s) == Visible(s[..ColumnIndex(s, col)]) + Visible(s[ColumnIndex(s, col)..])
    ensures |Visible(s[..ColumnIndex(s, col)])| == Min(col, |Visible(s)|)
  {
    var i := ColumnIndex(s, col);
    assert s[..i] == [] && s[i..] == s;
    EmptySplit(Visible(s), Visible(s[..i]), col);
  }

  lemma {:induction false} EmptySplit(v: Line, a: Line, col: nat)
    requires a == [] && (col == 0 || v == [])
    ensures v == a + v && |a| == Min(col, |v|)
  {
  }

  lemma {:induction false} SplitsAfterCsi(s: Line, col: nat)
    requires col > 0 && CsiLen(s) > 0
    ensures Visible(s) == Visible(s[..ColumnIndex(s, col)]) + Visible(s[ColumnIndex(s, col)..])
    ensures |Visible(s[..ColumnIndex(s, col)])| == Min(col, |Visible(s)|)
    decreases |s|, 0
  {
    var r := s[CsiLen(s)..];
    var i, i' := ColumnIndex(s, col), ColumnIndex(r, col);
    BoundarySplit(r, col);
    CsiPrefix(s, col);
    CsiSuffix(s, col);
    SameSplit(Visible(r), Visible(r[..i']), Visible(r[i'..]), Visible(s), Visible(s[..i]), Visible(s[i..]), col);
  }

  /** The arithmetic of a split that a control sequence in front leaves unchanged. */
  lemma {:induction false} SameSplit(v: Line, a: Line, b: Line, V: Line, A: Line, B: Line, col: nat)
    requires v == a + b && |a| == Min(col, |v|)
    requires V == v && A == a && B == b
    ensures V == A + B && |A| == Min(col, |V|)
  {
  }

  lemma {:induction false} CsiPrefix(s: Line, col: nat)
    requires col > 0 && CsiLen(s) > 0
    ensures Visible(s[..ColumnIndex(s, col)]) == Visible(s[CsiLen(s)..][..ColumnIndex(s[CsiLen(s)..], col)])
  {
    var i := ColumnIndex(s, col);
    CsiLenRestrict(s, i);
    CsiStep(s, s[..i]);
  }

  lemma {:induction false} CsiSuffix(s: Line, col: nat)
    requires col > 0 && CsiLen(s) > 0
    ensures Visible(s[ColumnIndex(s, col)..]) == Visible(s[CsiLen(s)..][ColumnIndex(s[CsiLen(s)..], col)..])
    ensures Visible(s) == Visible(s[CsiLen(s)..])
  {
    assert s[ColumnIndex(s, col)..] == s[CsiLen(s)..][ColumnIndex(s[CsiLen(s)..], col)..];
  }

  lemma {:induction false} SplitsAfterGlyph(s: Line, col: nat)
    requires col > 0 && s != [] && CsiLen(s) == 0
    ensures Visible(s) == Visible(s[..ColumnIndex(s, col)]) + Visible(s[ColumnIndex(s, col)..])
    ensures |Visible(s[..ColumnIndex(s, col)])| == Min(col, |Visible(s)|)
    decreases |s|, 0
  {
    var r := s[1..];
    var c: nat := col - 1;
    var i, i' := ColumnIndex(s, col), ColumnIndex(r, c);
    BoundarySplit(r, c);
    GlyphPrefix(s, c, col);
    GlyphSuffix(s, c, col);
    ConsSplit(s[0], Visible(r), Visible(r[..i']), Visible(r[i'..]), Visible(s), Visible(s[..i]), Visible(s[i..]), c, col);
  }

  lemma {:induction false} GlyphPrefix(s: Line, c: nat, col: nat)
    requires col == c + 1 && s != [] && CsiLen(s) == 0
    ensures Visible(s[..ColumnIndex(s, col)]) == [s[0]] + Visible(s[1..][..ColumnIndex(s[1..], c)])
  {
    var i := ColumnIndex(s, col);
    assert CsiLen(s[..i]) == 0 by {
      if CsiLen(s[..i]) > 0 {
        CsiLenOfPrefix(s, i);
      }
    }
    GlyphStep(s, s[..i]);
  }

  lemma {:induction false} GlyphSuffix(s: Line, c: nat, col: nat)
    requires col == c + 1 && s != [] && CsiLen(s) == 0
    ensures Visible(s[ColumnIndex(s, col)..]) == Visible(s[1..][ColumnIndex(s[1..], c)..])
    ensures Visible(s) == [s[0]] + Visible(s[1..])
  {
    assert s[ColumnIndex(s, col)..] == s[1..][ColumnIndex(s[1..], c)..];
  }

  /** The arithmetic of one more visible character in front of a split. */
  lemma {:induction false} ConsSplit(ch: char, v: Line, a: Line, b: Line, V: Line, A: Line, B: Line, c: nat, col: nat)
    requires col == c + 1 && v == a + b && |a| == Min(c, |v|)
    requires V == [ch] + v && A == [ch] + a && B == b
    ensures V == A + B && |A| == Min(col, |V|)
  {
  }

  /** How `Visible` unfolds on a line and one of its prefixes that start with the same control sequence. */
  lemma {:induction false} CsiStep(s: Line, p: Line)
    requires CsiLen(s) > 0 && CsiLen(p) == CsiLen(s) && p <= s
    ensures Visible(s) == Visible(s[CsiLen(s)..])
    ensures Visible(p) == Visible(p[CsiLen(s)..]) && p[CsiLen(s)..] == s[CsiLen(s)..][..|p| - CsiLen(s)]
  {
  }

  /** How `Visible` unfolds on a line and one of its non-empty prefixes that start with a visible character. */
  lemma {:induction false} GlyphStep(s: Line, p: Line)
    requires p != [] && CsiLen(s) == 0 && CsiLen(p) == 0 && p <= s
    ensures Visible(s) == [s[0]] + Visible(s[1..])
    ensures Visible(p) == [s[0]] + Visible(s[1..][..|p| - 1])
  {
    assert p[1..] == s[1..][..|p| - 1];
  }

  lemma {:induction false} SplitNoStray(s: Line, col: nat)
    requires NoStrayEsc(s)
    ensures NoStrayEsc(s[..ColumnIndex(s, col)]) && NoStrayEsc(s[ColumnIndex(s, col)..])
    decreases |s|
  {
    var i := ColumnIndex(s, col);
    if col == 0 || s == [] {
      assert s[..i] == [] && s[i..] == s;
    } else if CsiLen(s) > 0 {
      var n := CsiLen(s);
      var r := s[n..];
      SplitNoStray(r, col);
      NoStrayStep(s, n, r, i, ColumnIndex(r, col));
    } else {
      var c: nat := col - 1;
      var r := s[1..];
      SplitNoStray(r, c);
      NoStrayStep(s, 1, r, i, ColumnIndex(r, c));
    }
  }

  /** A line whose first token is followed by a split of the rest splits
      into two lines without stray ESC at the corresponding index. */
  lemma {:induction false} NoStrayStep(s: Line, n: nat, r: Line, i: nat, j: nat)
    requires s != [] && n == TokenLen(s) && r == s[n..] && i == n + j && j <= |r|
    requires NoStrayEsc(s) && NoStrayEsc(r[..j]) && NoStrayEsc(r[j..])
    ensures NoStrayEsc(s[..i]) && NoStrayEsc(s[i..])
  {
    var p := s[..i];
    assert p[n..] == r[..j];
    assert s[i..] == r[j..];
    if CsiLen(s) > 0 {
      CsiLenRestrict(s, i);
    } else {
      assert CsiLen(p) == 0 by {
        if CsiLen(p) > 0 {
          CsiLenOfPrefix(s, i);
        }
      }
      assert p[0] == s[0];
    }
    assert TokenLen(p) == n;
  }

  /** A character that never occurs after the ESC of a control sequence,
      such as ESC itself or a newline. */
  predicate OutsideCsi(c: char) {
    c != '[' && !IsParam(c) && !IsFinal(c)
  }

  /** A line without stray ESC can be cut right before any character that
      cannot lie inside a control sequence: both parts are again without
      stray ESC. */
  lemma {:induction false} SplitBeforeOutside(s: Line, m: nat)
    requires NoStrayEsc(s) && m <= |s| && (m == |s| || OutsideCsi(s[m]))
    ensures NoStrayEsc(s[..m]) && NoStrayEsc(s[m..])
    decreases |s|
  {
    if m == 0 {
      assert s[..0] == [] && s[0..] == s;
    } else {
      var n := TokenLen(s);
      if CsiLen(s) > 0 {
        CsiLenIsCsi(s);
      }
      assert n <= m;
      var r := s[n..];
      var j: nat := m - n;
      assert j == |r| || r[j] == s[m];
      SplitBeforeOutside(r, j);
      NoStrayStep(s, n, r, m, j);
    }
  }

  function Min(a: nat, b: nat): nat {
    if a <= b then a else b
  }

  function Max(a: nat, b: nat): nat {
    if a <= b then b else a
  }

  /** On a line without ESC every character is one column: column `col` is at index `col`, or at the end. */
  lemma {:induction false} ColumnIndexPlain(s: Line, col: nat)
    requires ESC !in s
    ensures ColumnIndex(s, col) == Min(col, |s|)
    decreases |s|
  {
    if col > 0 && s != [] {
      assert s[0] != ESC;
      assert ESC !in s[1..];
      ColumnIndexPlain(s[1..], col - 1);
    }
  }

  /** Text without ESC in front of a line: its characters are the first
      visible ones, one column each, and the columns after them are those
      of the line behind. */
  lemma {:induction false} PlainThen(t: Line, r: Line, col: nat)
    requires ESC !in t
    ensures Visible(t + r) == t + Visible(r)
    ensures col <= |t| ==> ColumnIndex(t + r, col) == col
    ensures col > |t| ==> ColumnIndex(t + r, col) == |t| + ColumnIndex(r, col - |t|)
  {
    PlainVisibleThen(t, r);
    PlainColumnThen(t, r, col);
  }

  lemma {:induction false} PlainVisibleThen(t: Line, r: Line)
    requires ESC !in t
    ensures Visible(t + r) == t + Visible(r)
    decreases |t|
  {
    if t == [] {
      assert t + r == r;
    } else {
      var s := t + r;
      assert s[0] == t[0] != ESC;
      assert CsiLen(s) == 0;
      assert s[1..] == t[1..] + r;
      assert ESC !in t[1..];
      PlainVisibleThen(t[1..], r);
      assert Visible(s) == [s[0]] + Visible(s[1..]);
      assert t == [t[0]] + t[1..];
    }
  }

  lemma {:induction false} PlainColumnThen(t: Line, r: Line, col: nat)
    requires ESC !in t
    ensures col <= |t| ==> ColumnIndex(t + r, col) == col
    ensures col > |t| ==> ColumnIndex(t + r, col) == |t| + ColumnIndex(r, col - |t|)
    decreases |t|
  {
    if t == [] {
      assert t + r == r;
    } else if col > 0 {
      var s := t + r;
      assert s[0] == t[0] != ESC;
      assert CsiLen(s) == 0;
      assert s[1..] == t[1..] + r;
      assert ESC !in t[1..];
      PlainColumnThen(t[1..], r, col - 1);
      assert ColumnIndex(s, col) == 1 + ColumnIndex(s[1..], col - 1);
    }
  }

  /** A control sequence in front of a line adds no visible character, and
      every column past 0 lies after the whole sequence. */
  lemma {:induction false} CsiThen(x: Line, r: Line, col: nat)
    requires IsCsi(x)
    ensures Visible(x + r) == Visible(r)
    ensures col > 0 ==> ColumnIndex(x + r, col) == |x| + ColumnIndex(r, col)
  {
    var s := x + r;
    assert s[..|x|] == x;
    CsiLenUnique(s, |x|);
    assert s[|x|..] == r;
  }

  /** A column strictly past the visual end of a line maps to the end of the line. */
  lemma {:induction false} ColumnIndexBeyond(s: Line, col: nat)
    requires col > VisualLength(s)
    ensures ColumnIndex(s, col) == |s|
    decreases |s|
  {
    if s != [] {
      if CsiLen(s) > 0 {
        ColumnIndexBeyond(s[CsiLen(s)..], col);
      } else {
        ColumnIndexBeyond(s[1..], col - 1);
      }
    }
  }

  /** For a column inside the line, the character just before the index is
      the `col`-th visible character: the mapping stops right after it and
      does not skip the control sequences that follow. */
  lemma {:induction false} ColumnIndexStopsAfterGlyph(s: Line, col: nat)
    requires 0 < col <= VisualLength(s)
    ensures 0 < ColumnIndex(s, col) && s[ColumnIndex(s, col) - 1] == Visible(s)[col - 1]
    ensures CsiLen(s[ColumnIndex(s, col) - 1..]) == 0
    decreases |s|
  {
    var i := ColumnIndex(s, col);
    if CsiLen(s) > 0 {
      var n := CsiLen(s);
      var r := s[n..];
      assert Visible(s) == Visible(r);
      ColumnIndexStopsAfterGlyph(r, col);
      var i' := ColumnIndex(r, col);
      assert i == n + i';
      ShiftStop(s, r, n, i, i');
    } else if col > 1 {
      var c: nat := col - 1;
      var r := s[1..];
      assert Visible(s) == [s[0]] + Visible(r);
      assert Visible(s)[col - 1] == Visible(r)[c - 1];
      ColumnIndexStopsAfterGlyph(r, c);
      var i' := ColumnIndex(r, c);
      assert i == 1 + i';
      ShiftStop(s, r, 1, i, i');
    } else {
      assert Visible(s) == [s[0]] + Visible(s[1..]);
      assert i == 1;
      assert s[0..] == s;
    }
  }

  /** The character before index `i'` of a suffix `r` of `s` is the one before the corresponding index of `s`. */
  lemma {:induction false} ShiftStop(s: Line, r: Line, n: nat, i: nat, i': nat)
    requires n <= |s| && r == s[n..] && 0 < i' <= |r| && i == n + i'
    ensures s[i - 1] == r[i' - 1] && s[i - 1..] == r[i' - 1..]
  {
  }

  /** The character index grows with the column, strictly while the column stays inside the line. */
  lemma {:induction false} ColumnIndexMonotone(s: Line, c1: nat, c2: nat)
    requires c1 <= c2
    ensures ColumnIndex(s, c1) <= ColumnIndex(s, c2)
    ensures c1 < c2 <= VisualLength(s) ==> ColumnIndex(s, c1) < ColumnIndex(s, c2)
    decreases |s|
  {
    if c1 > 0 && s != [] {
      if CsiLen(s) > 0 {
        ColumnIndexMonotone(s[CsiLen(s)..], c1, c2);
      } else {
        var d1: nat, d2: nat := c1 - 1, c2 - 1;
        ColumnIndexMonotone(s[1..], d1, d2);
        assert ColumnIndex(s, c1) == 1 + ColumnIndex(s[1..], d1);
        assert ColumnIndex(s, c2) == 1 + ColumnIndex(s[1..], d2);
      }
    } else if c1 < c2 <= VisualLength(s) {
      ColumnIndexStopsAfterGlyph(s, c2);
    }
  }

  lemma {:induction false} ByteLenPrefixMonotone(s: Line, i: nat, j: nat)
    requires i <= j <= |s|
    ensures ByteLen(s[..i]) <= ByteLen(s[..j])
    ensures i < j ==> ByteLen(s[..i]) < ByteLen(s[..j])
  {
    assert s[..j] == s[..i] + s[i..j];
    ByteLenAppend(s[..i], s[i..j]);
  }

  /** Column 0 is always at byte 0, a column past the visual end is at the
      end of the line, and offsets grow strictly with the column inside
      the line and never decrease past it. */
  lemma {:induction false} ColumnToOffsetShape(s: Line, c1: nat, c2: nat)
    requires c1 <= c2
    ensures ColumnToOffset(s, 0) == 0
    ensures c2 > VisualLength(s) ==> ColumnToOffset(s, c2) == ByteLen(s)
    ensures ColumnToOffset(s, c1) <= ColumnToOffset(s, c2)
    ensures c1 < c2 <= VisualLength(s) ==> ColumnToOffset(s, c1) < ColumnToOffset(s, c2)
  {
    ColumnIndexMonotone(s, c1, c2);
    ByteLenPrefixMonotone(s, ColumnIndex(s, c1), ColumnIndex(s, c2));
    if c2 > VisualLength(s) {
      ColumnIndexBeyond(s, c2);
      assert s[..|s|] == s;
    }
  }

  /** Visual width of a line, by a left-to-right scan with a column counter. */
  method Len(s: Line) returns (n: nat)
    ensures n == VisualLength(s)
  {
    n := 0;
    var i := 0;
    while i < |s|
      invariant i <= |s|
      invariant n + VisualLength(s[i..]) == VisualLength(s)
    {
      var k := CsiLen(s[i..]);
      if k > 0 {
        assert s[i..][k..] == s[i + k..];
        i := i + k;
      } else {
        assert s[i..][1..] == s[i + 1..];
        n := n + 1;
        i := i + 1;
      }
    }
  }

  /** Byte offset of visual column `col`, by a left-to-right scan with a
      column counter and a byte counter. */
  method Pos(s: Line, col: nat) returns (offset: nat)
    ensures offset == ColumnToOffset(s, col)
  {
    offset := 0;
    var i: nat, c: nat := 0, 0;
    ghost var left: nat := col;
    ghost var target := ColumnIndex(s, col);
    assert s[0..] == s;
    while c < col && i < |s|
      invariant i <= |s| && c <= col && left == col - c
      invariant target == i + ColumnIndex(s[i..], left)
      invariant offset == ByteLen(s[..i])
    {
      var k := CsiLen(s[i..]);
      if k > 0 {
        var next := i + k;
        ScanCsiStep(s, i, k, next, left);
        offset := offset + k;
        i := next;
      } else {
        var next := i + 1;
        ghost var left' := left - 1;
        ScanGlyphStep(s, i, next, left, left');
        offset := offset + Utf8Width(s[i]);
        c := c + 1;
        i := next;
        left := left';
      }
    }
    assert s[i..] == [] || left == 0;
  }

  /** One step of the scan in `Pos` over a control sequence: it advances
      the index and the byte offset by its length and leaves the column alone. */
  lemma {:induction false} ScanCsiStep(s: Line, i: nat, k: nat, next: nat, left: nat)
    requires i < |s| && left > 0 && k == CsiLen(s[i..]) && k > 0 && next == i + k
    ensures ColumnIndex(s[i..], left) == k + ColumnIndex(s[next..], left)
    ensures ByteLen(s[..next]) == ByteLen(s[..i]) + k
  {
    var rest := s[i..];
    assert ColumnIndex(rest, left) == k + ColumnIndex(rest[k..], left);
    assert rest[k..] == s[next..];
    ScanCsiBytes(s, i, k, next);
  }

  lemma {:induction false} ScanCsiBytes(s: Line, i: nat, k: nat, next: nat)
    requires i < |s| && k == CsiLen(s[i..]) && k > 0 && next == i + k
    ensures ByteLen(s[..next]) == ByteLen(s[..i]) + k
  {
    var rest, csi := s[i..], s[i..next];
    CsiLenIsCsi(rest);
    assert rest[..k] == csi;
    CsiByteLen(csi);
    ByteLenAppend(s[..i], csi);
    assert s[..i] + csi == s[..next];
  }

  /** One step of the scan in `Pos` over any other character: it advances
      the column by one and the byte offset by the character's UTF-8 width. */
  lemma {:induction false} ScanGlyphStep(s: Line, i: nat, next: nat, left: nat, left': nat)
    requires i < |s| && left == left' + 1 && CsiLen(s[i..]) == 0 && next == i + 1
    ensures ColumnIndex(s[i..], left) == 1 + ColumnIndex(s[next..], left')
    ensures ByteLen(s[..next]) == ByteLen(s[..i]) + Utf8Width(s[i])
  {
    assert s[i..][1..] == s[i + 1..];
    ByteLenAppend(s[..i], [s[i]]);
    assert s[..i] + [s[i]] == s[..i + 1];
  }
}
