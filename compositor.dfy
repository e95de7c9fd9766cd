/** The compositor: writing a piece of text into the screen at a cursor position.

    The screen is a list of rows.  Writing at a row past the bottom first
    adds empty rows; writing at a column past the visual end of a row
    first pads it with spaces.  The text then replaces exactly as many
    visual columns as it is wide, starting at the cursor column, and
    everything before and after that range is kept.
 */
module Compositor {
  import opened Ansi
  import opened Offsets

  /** `n` blanks. */
  function Spaces(n: nat): (s: Line)
    ensures |s| == n && ESC !in s
    ensures forall i :: 0 <= i < n ==> s[i] == ' '
  {
    if n == 0 then [] else [' '] + Spaces(n - 1)
  }

  /** The line padded with spaces so that it is at least `col` columns wide. */
  function PadTo(line: Line, col: nat): Line {
    if VisualLength(line) < col then line + Spaces(col - VisualLength(line)) else line
  }

  /** Writing `text` over `line` from visual column `col` on: the text
      takes the place of the columns from `col` up to `col` plus its own width. */
  function Overwrite(line: Line, text: Line, col: nat): Line {
    Replace(PadTo(line, col), text, col, col + VisualLength(text))
  }

  /** `p` with the characters between visual columns `from` and `to` replaced by `text`. */
  function Replace(p: Line, text: Line, from: nat, to: nat): Line {
    p[..ColumnIndex(p, from)] + text + p[ColumnIndex(p, to)..]
  }

  /** Padding on plain text: spaces up to length `col`. */
  function PadPlain(v: Line, col: nat): (p: Line)
    ensures |p| == Max(|v|, col)
  {
    if |v| < col then v + Spaces(col - |v|) else v
  }

  /** The same operation on what is visible: the reference meaning of
      `Overwrite`, character by character. */
  function Splice(v: Line, t: Line, col: nat): Line {
    var p := PadPlain(v, col);
    p[..col] + t + p[Min(col + |t|, |p|)..]
  }

  /** Character by character, the splice holds the text at the columns
      `[col, col + |t|)`, the old line elsewhere, and spaces where the old
      line was too short. */
  lemma {:induction false} SplicePointwise(v: Line, t: Line, col: nat)
    ensures |Splice(v, t, col)| == Max(|v|, col + |t|)
    ensures forall j :: 0 <= j < |Splice(v, t, col)| ==>
      Splice(v, t, col)[j] == if col <= j < col + |t| then t[j - col] else if j < |v| then v[j] else ' '
  {
  }

  /** Writing into row `row` of `screen`: missing rows are added empty,
      the target row is overwritten and every other row is kept. */
  function Print(screen: seq<Line>, text: Line, col: nat, row: nat): (r: seq<Line>)
    ensures |r| == Max(|screen|, row + 1)
    ensures forall i :: 0 <= i < |r| && i != row ==> r[i] == if i < |screen| then screen[i] else []
    ensures r[row] == Overwrite(if row < |screen| then screen[row] else [], text, col)
  {
    var grown := if row < |screen| then screen else screen + seq(row + 1 - |screen|, _ => []);
    grown[row := Overwrite(grown[row], text, col)]
  }

  /** What padding does to the visible characters. */
  lemma {:induction false} PadToVisible(line: Line, col: nat)
    requires NoStrayEsc(line)
    ensures Visible(PadTo(line, col)) == PadPlain(Visible(line), col)
    ensures NoStrayEsc(PadTo(line, col))
  {
    if VisualLength(line) < col {
      var sp := Spaces(col - VisualLength(line));
      PlainVisible(sp);
      VisibleAppend(line, sp);
    }
  }

  /** On lines without stray ESC, the visible result of `Overwrite` is the
      splice of the visible text into the visible line, and no stray ESC appears. */
  lemma {:induction false} OverwriteVisible(line: Line, text: Line, col: nat)
    requires NoStrayEsc(line) && NoStrayEsc(text)
    ensures Visible(Overwrite(line, text, col)) == Splice(Visible(line), Visible(text), col)
    ensures NoStrayEsc(Overwrite(line, text, col))
  {
    var p, e := PadTo(line, col), col + VisualLength(text);
    PadToVisible(line, col);
    OverwriteCore(line, p, text, col, e);
    OverwriteIsReplace(line, text, col, p, e);
  }

  lemma {:induction false} OverwriteIsReplace(line: Line, text: Line, col: nat, p: Line, e: nat)
    requires p == PadTo(line, col) && e == col + VisualLength(text)
    ensures Overwrite(line, text, col) == Replace(p, text, col, e)
  {
  }

  /** `OverwriteVisible` for the padded line `p` and the end column `e`. */
  lemma {:induction false} OverwriteCore(line: Line, p: Line, text: Line, col: nat, e: nat)
    requires NoStrayEsc(p) && NoStrayEsc(text)
    requires Visible(p) == PadPlain(Visible(line), col) && e == col + VisualLength(text)
    ensures Visible(Replace(p, text, col, e)) == Splice(Visible(line), Visible(text), col)
    ensures NoStrayEsc(Replace(p, text, col, e))
  {
    SpliceShape(Visible(line), Visible(text), col, Visible(p), e);
    SpliceParts(p, text, col, e);
  }

  /** `Splice` in terms of the padded line. */
  lemma {:induction false} SpliceShape(v: Line, t: Line, col: nat, P: Line, e: nat)
    requires P == PadPlain(v, col) && e == col + |t|
    ensures |P| >= col
    ensures Splice(v, t, col) == P[..col] + t + P[Min(e, |P|)..]
  {
  }

  /** Replacing the columns `[col, e)` of a line without stray ESC: the
      visible result is the visible prefix, the text, and the visible rest. */
  lemma {:induction false} SpliceParts(p: Line, text: Line, col: nat, e: nat)
    requires NoStrayEsc(p) && NoStrayEsc(text) && VisualLength(p) >= col
    requires e == col + VisualLength(text)
    ensures Visible(Replace(p, text, col, e)) ==
      Visible(p)[..col] + Visible(text) + Visible(p)[Min(e, VisualLength(p))..]
    ensures NoStrayEsc(Replace(p, text, col, e))
  {
    var head := p[..ColumnIndex(p, col)];
    var tail := p[ColumnIndex(p, e)..];
    SplitAtColumn(p, col);
    SplitAtColumn(p, e);
    assert Visible(head) == Visible(p)[..col];
    VisibleConcat3(head, text, tail);
  }

  lemma {:induction false} VisibleConcat3(a: Line, b: Line, c: Line)
    requires NoStrayEsc(a) && NoStrayEsc(b) && NoStrayEsc(c)
    ensures Visible(a + b + c) == Visible(a) + Visible(b) + Visible(c)
    ensures NoStrayEsc(a + b + c)
  {
    VisibleAppend(a, b);
    VisibleAppend(a + b, c);
  }

  /** The written row is as wide as the old row or as the end of the text, whichever is further. */
  lemma {:induction false} OverwriteWidth(line: Line, text: Line, col: nat)
    requires NoStrayEsc(line) && NoStrayEsc(text)
    ensures VisualLength(Overwrite(line, text, col)) == Max(VisualLength(line), col + VisualLength(text))
  {
    OverwriteVisible(line, text, col);
    SpliceLength(Visible(line), Visible(text), col);
  }

  lemma {:induction false} SpliceLength(v: Line, t: Line, col: nat)
    ensures |Splice(v, t, col)| == Max(|v|, col + |t|)
  {
  }

  /** Writing the same text at the same column twice shows the same as writing it once. */
  lemma {:induction false} SpliceIdempotent(v: Line, t: Line, col: nat)
    ensures Splice(Splice(v, t, col), t, col) == Splice(v, t, col)
  {
    var once := Splice(v, t, col);
    var twice := Splice(once, t, col);
    SplicePointwise(v, t, col);
    SplicePointwise(once, t, col);
    assert |twice| == |once|;
    forall j | 0 <= j < |once|
      ensures twice[j] == once[j]
    {
    }
  }

  lemma {:induction false} OverwriteIdempotent(line: Line, text: Line, col: nat)
    requires NoStrayEsc(line) && NoStrayEsc(text)
    ensures Visible(Overwrite(Overwrite(line, text, col), text, col)) == Visible(Overwrite(line, text, col))
  {
    var once := Overwrite(line, text, col);
    OverwriteVisible(line, text, col);
    OverwriteVisible(once, text, col);
    SpliceIdempotent(Visible(line), Visible(text), col);
  }

  /** On lines without ESC, `Overwrite` is the splice itself, character for character. */
  lemma {:induction false} OverwritePlain(line: Line, text: Line, col: nat)
    requires ESC !in line && ESC !in text
    ensures Overwrite(line, text, col) == Splice(line, text, col)
  {
    PlainVisible(line);
    PlainVisible(text);
    OverwriteVisible(line, text, col);
    OverwriteNoEsc(line, text, col);
    PlainVisible(Overwrite(line, text, col));
  }

  /** Writing text without ESC into a line without ESC brings in no ESC. */
  lemma {:induction false} OverwriteNoEsc(line: Line, text: Line, col: nat)
    requires ESC !in line && ESC !in text
    ensures ESC !in Overwrite(line, text, col)
  {
    var p := PadTo(line, col);
    assert ESC !in p by {
      if VisualLength(line) < col {
        assert p == line + Spaces(col - VisualLength(line));
      }
    }
    var a, b := ColumnIndex(p, col), ColumnIndex(p, col + VisualLength(text));
    assert ESC !in p[..a] && ESC !in p[b..];
    assert Overwrite(line, text, col) == p[..a] + text + p[b..];
  }

  /** Writing into a row that is still empty: the text follows `col` blanks. */
  lemma {:induction false} OverwriteEmpty(text: Line, col: nat)
    ensures Overwrite([], text, col) == Spaces(col) + text
  {
    var p, e := Spaces(col), col + VisualLength(text);
    assert PadTo([], col) == p;
    ColumnIndexPlain(p, col);
    ColumnIndexPlain(p, e);
    OverwriteIsReplace([], text, col, p, e);
    assert p[..col] == p && p[col..] == [];
  }

  /** Concrete rows written by the compositor (the inputs are passed as
      parameters so that the verifier reasons about them symbolically). */
  lemma PrintDownExample(text: Line)
    requires text == "hello"
    ensures Print([], text, 0, 2) == ["", "", "hello"]
  {
    OverwritePlain([], text, 0);
    assert Splice([], text, 0) == "hello";
  }

  lemma PrintOverExample(line: Line, text: Line)
    requires line == "hello" && text == "world"
    ensures Print([line], text, 0, 0) == ["world"]
  {
    OverwritePlain(line, text, 0);
    assert Splice(line, text, 0) == "world";
  }

  lemma PrintOverPartlyExample(line: Line, text: Line, head: Line)
    requires line == "hello" && text == "world" && head == "hi, "
    ensures Print([line], text, 4, 0) == ["hellworld"]
    ensures Print(Print([line], text, 4, 0), head, 0, 0)[0] == "hi, world"
  {
    OverwritePlain(line, text, 4);
    var once := Splice(line, text, 4);
    assert once == "hellworld";
    assert Print([line], text, 4, 0) == [once];
    OverwritePlain(once, head, 0);
    assert Splice(once, head, 0) == "hi, world";
    assert Print([once], head, 0, 0) == ["hi, world"];
  }

  lemma PrintOverMiddleExample(line: Line, text: Line)
    requires line == "hello world" && text == "owdy "
    ensures Print([line], text, 1, 0) == ["howdy world"]
  {
    OverwritePlain(line, text, 1);
    assert Splice(line, text, 1) == "howdy world";
  }

  lemma PrintPastEndExample(line: Line, text: Line)
    requires line == "hello" && text == "world"
    ensures Print([line], text, 10, 0) == ["hello     world"]
  {
    OverwritePlain(line, text, 10);
    assert Splice(line, text, 10) == "hello     world";
  }
}
