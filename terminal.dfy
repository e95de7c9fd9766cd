/** The terminal: the cursor, the screen and the active style, and what
    each piece of input does to them.

    Text is written at the cursor with the compositor and moves the cursor
    right by its width; a text run written into a row that does not exist
    yet is preceded by the active style.  Cursor movements clamp at the
    top and left edges and are unbounded downwards and to the right.
    Erasing works on existing rows only: erasing in a row below the
    screen changes nothing.
 */
module Terminal {
  import opened Ansi
  import opened Offsets
  import opened Compositor
  import opened Tokenizer
  import opened Style

  /** The state of a capture: the 0-based cursor position, the rows
      written so far, and the SGR sequences in force. */
  datatype Term = Term(row: nat, col: nat, screen: seq<Line>, style: seq<Line>)

  /** The state before any input: cursor home, no rows, no style. */
  const Blank: Term := Term(0, 0, [], [])

  /** `n` steps back from `x`, stopping at 0. */
  function Retreat(x: nat, n: nat): nat {
    if x >= n then x - n else 0
  }

  /** The text that is written for a run: the run itself, or, in a row
      that does not exist yet, the active style followed by the run. */
  function Emitted(t: Term, run: Line): Line {
    if t.row < |t.screen| then run else Concat(t.style) + run
  }

  /** Writing a text run at the cursor. */
  function Write(t: Term, run: Line): Term {
    Term(t.row, t.col + VisualLength(run), Print(t.screen, Emitted(t, run), t.col, t.row), Track(t.style, SgrCodes(run)))
  }

  /** What a command does to the state. */
  function Apply(t: Term, cmd: Command): Term {
    match cmd
    case CursorUp(n) => t.(row := Retreat(t.row, n))
    case CursorDown(n) => t.(row := t.row + n)
    case CursorForward(n) => t.(col := t.col + n)
    case CursorBack(n) => t.(col := Retreat(t.col, n))
    case CursorPosition(r, c) => t.(row := r, col := c)
    case EraseInLine(m) => t.(screen := EraseLine(t.screen, t.row, t.col, m))
    case EraseInDisplay(m) => t.(screen := EraseDisplay(t.screen, t.row, t.col, m))
    case Ignored => t
  }

  /** Erasing in one line: mode 0 from the cursor to the end, mode 1 from
      the start up to the cursor (the columns are blanked), mode 2 all of
      it; any other mode leaves the line alone. */
  function ClearLine(line: Line, col: nat, mode: nat): Line {
    if mode == 0 then line[..ColumnIndex(line, col)]
    else if mode == 1 then Spaces(col) + line[ColumnIndex(line, col)..]
    else if mode == 2 then []
    else line
  }

  /** EL: erasing in the cursor's row, if there is one. */
  function EraseLine(screen: seq<Line>, row: nat, col: nat, mode: nat): seq<Line> {
    if row < |screen| then screen[row := ClearLine(screen[row], col, mode)] else screen
  }

  /** ED: mode 0 erases from the cursor to the end of the screen (the rows
      below are dropped), mode 1 from the start of the screen to the cursor
      (the rows above are emptied), mode 2 the whole screen. */
  function EraseDisplay(screen: seq<Line>, row: nat, col: nat, mode: nat): seq<Line> {
    if mode == 0 then
      var cut := EraseLine(screen, row, col, 0);
      cut[..Min(row + 1, |cut|)]
    else if mode == 1 then
      EraseLine(EmptyAbove(screen, row), row, col, 1)
    else if mode == 2 then
      []
    else
      screen
  }

  /** The screen with every row above `row` emptied. */
  function EmptyAbove(screen: seq<Line>, row: nat): seq<Line> {
    seq(|screen|, i requires 0 <= i < |screen| => if i < row then [] else screen[i])
  }

  /** The end of an input line: the cursor goes to the start of the next row. */
  function NewLine(t: Term): Term {
    t.(row := t.row + 1, col := 0)
  }

  /** What one piece of input does to the state. */
  function Step(t: Term, p: Piece): Term {
    match p
    case Text(run) => Write(t, run)
    case Control(_, cmd) => Apply(t, cmd)
  }

  /** The state after a list of pieces, taken in order. */
  function Run(t: Term, ps: seq<Piece>): Term {
    if ps == [] then t else Step(Run(t, ps[..|ps| - 1]), ps[|ps| - 1])
  }

  /** Taking the first piece, then the others: the same state as taking
      them all in order. */
  lemma {:induction false} RunCons(t: Term, p: Piece, ps: seq<Piece>)
    ensures Run(t, [p] + ps) == Run(Step(t, p), ps)
    decreases |ps|
  {
    var qs := [p] + ps;
    if ps == [] {
      assert qs[..0] == [];
    } else {
      var front := ps[..|ps| - 1];
      assert qs[..|qs| - 1] == [p] + front;
      assert qs[|qs| - 1] == ps[|ps| - 1];
      RunCons(t, p, front);
    }
  }

  /** Going down and coming back up by the same count returns to the same state,
      and so does going right and coming back left. */
  lemma {:induction false} MovesUndo(t: Term, n: nat)
    ensures Apply(Apply(t, CursorDown(n)), CursorUp(n)) == t
    ensures Apply(Apply(t, CursorForward(n)), CursorBack(n)) == t
  {
  }

  /** Cursor commands change only the cursor: up and down only the row,
      right and left only the column; neither the screen nor the style changes. */
  lemma {:induction false} MovesKeepScreen(t: Term, cmd: Command)
    requires cmd.CursorUp? || cmd.CursorDown? || cmd.CursorForward? || cmd.CursorBack? || cmd.CursorPosition?
    ensures Apply(t, cmd).screen == t.screen && Apply(t, cmd).style == t.style
    ensures (cmd.CursorUp? || cmd.CursorDown?) ==> Apply(t, cmd).col == t.col
    ensures (cmd.CursorForward? || cmd.CursorBack?) ==> Apply(t, cmd).row == t.row
    ensures cmd.CursorUp? ==> Apply(t, cmd).row + cmd.n >= t.row && Apply(t, cmd).row <= t.row
    ensures cmd.CursorBack? ==> Apply(t, cmd).col + cmd.n >= t.col && Apply(t, cmd).col <= t.col
    ensures cmd.CursorUp? ==> (Apply(t, cmd).row == 0 <==> t.row <= cmd.n)
    ensures cmd.CursorBack? ==> (Apply(t, cmd).col == 0 <==> t.col <= cmd.n)
    ensures cmd.CursorUp? && t.row >= cmd.n ==> Apply(t, cmd).row + cmd.n == t.row
    ensures cmd.CursorBack? && t.col >= cmd.n ==> Apply(t, cmd).col + cmd.n == t.col
  {
  }

  /** What each erase mode leaves visible in a line: mode 0 the columns
      before the cursor, mode 1 blanks up to the cursor and the columns
      from the cursor on, mode 2 nothing. */
  lemma {:induction false} ClearLineVisible(line: Line, col: nat)
    requires NoStrayEsc(line)
    ensures Visible(ClearLine(line, col, 0)) == Visible(line)[..Min(col, VisualLength(line))]
    ensures Visible(ClearLine(line, col, 1)) == Spaces(col) + Visible(line)[Min(col, VisualLength(line))..]
    ensures Visible(ClearLine(line, col, 2)) == []
    ensures NoStrayEsc(ClearLine(line, col, 0)) && NoStrayEsc(ClearLine(line, col, 1))
  {
    var i := ColumnIndex(line, col);
    var sp := Spaces(col);
    SplitAtColumn(line, col);
    PlainVisible(sp);
    VisibleAppend(sp, line[i..]);
  }

  /** Erasing the start of a line keeps its width, or widens it to the cursor. */
  lemma {:induction false} ClearLineWidth(line: Line, col: nat)
    requires NoStrayEsc(line)
    ensures VisualLength(ClearLine(line, col, 0)) == Min(col, VisualLength(line))
    ensures VisualLength(ClearLine(line, col, 1)) == Max(col, VisualLength(line))
  {
    ClearLineVisible(line, col);
  }

  /** EL changes the cursor's row and no other, and never the number of rows. */
  lemma {:induction false} EraseLineShape(screen: seq<Line>, row: nat, col: nat, mode: nat)
    ensures |EraseLine(screen, row, col, mode)| == |screen|
    ensures forall i :: 0 <= i < |screen| && i != row ==> EraseLine(screen, row, col, mode)[i] == screen[i]
    ensures row < |screen| ==> EraseLine(screen, row, col, mode)[row] == ClearLine(screen[row], col, mode)
  {
  }

  /** ED 0 keeps the rows above the cursor, cuts the cursor's row at the
      cursor and drops every row below it. */
  lemma {:induction false} EraseToEnd(screen: seq<Line>, row: nat, col: nat)
    ensures |EraseDisplay(screen, row, col, 0)| == Min(row + 1, |screen|)
    ensures forall i :: 0 <= i < |EraseDisplay(screen, row, col, 0)| && i != row ==>
      EraseDisplay(screen, row, col, 0)[i] == screen[i]
    ensures row < |screen| ==> EraseDisplay(screen, row, col, 0)[row] == ClearLine(screen[row], col, 0)
  {
  }

  /** ED 1 empties the rows above the cursor, blanks the cursor's row up
      to the cursor and keeps the rows below; the number of rows stays. */
  lemma {:induction false} EraseToStart(screen: seq<Line>, row: nat, col: nat)
    ensures |EraseDisplay(screen, row, col, 1)| == |screen|
    ensures forall i :: 0 <= i < |screen| && i < row ==> EraseDisplay(screen, row, col, 1)[i] == []
    ensures forall i :: 0 <= i < |screen| && i > row ==> EraseDisplay(screen, row, col, 1)[i] == screen[i]
    ensures row < |screen| ==> EraseDisplay(screen, row, col, 1)[row] == ClearLine(screen[row], col, 1)
  {
  }

  /** Only writing text adds rows: a command never makes the screen
      longer, and only ED can make it shorter. */
  lemma {:induction false} ApplyNeverGrows(t: Term, cmd: Command)
    ensures |Apply(t, cmd).screen| <= |t.screen|
    ensures !cmd.EraseInDisplay? ==> |Apply(t, cmd).screen| == |t.screen|
  {
    match cmd
    case EraseInLine(m) =>
      EraseLineShape(t.screen, t.row, t.col, m);
    case EraseInDisplay(m) =>
      if m == 0 {
        EraseToEnd(t.screen, t.row, t.col);
      } else if m == 1 {
        EraseToStart(t.screen, t.row, t.col);
      }
    case _ =>
  }

  /** Writing a run: the screen grows to the cursor's row, the other rows
      stay as they were (or empty, if new), the cursor moves right by the
      run's width, and the style takes in the run's SGR sequences. */
  lemma {:induction false} WriteShape(t: Term, run: Line)
    ensures Write(t, run).row == t.row && Write(t, run).col == t.col + VisualLength(run)
    ensures |Write(t, run).screen| == Max(|t.screen|, t.row + 1)
    ensures forall i :: 0 <= i < |Write(t, run).screen| && i != t.row ==>
      Write(t, run).screen[i] == if i < |t.screen| then t.screen[i] else []
    ensures Write(t, run).style == Track(t.style, SgrCodes(run))
  {
  }

  /** In an existing row, the visible result of writing is the splice of
      the run's visible characters into the row's at the cursor column. */
  lemma {:induction false} WriteVisible(t: Term, run: Line)
    requires t.row < |t.screen| && NoStrayEsc(t.screen[t.row]) && NoStrayEsc(run)
    ensures Visible(Write(t, run).screen[t.row]) == Splice(Visible(t.screen[t.row]), Visible(run), t.col)
  {
    OverwriteVisible(t.screen[t.row], run, t.col);
  }

  /** A row that did not exist is written as blanks up to the cursor, the
      active style, and the run. */
  lemma {:induction false} WriteNewRow(t: Term, run: Line)
    requires t.row >= |t.screen|
    ensures Write(t, run).screen[t.row] == Spaces(t.col) + Concat(t.style) + run
  {
    var text := Concat(t.style) + run;
    assert Emitted(t, run) == text;
    PrintNewRow(t.screen, text, t.col, t.row);
  }

  lemma {:induction false} PrintNewRow(screen: seq<Line>, text: Line, col: nat, row: nat)
    requires row >= |screen|
    ensures Print(screen, text, col, row)[row] == Spaces(col) + text
  {
    OverwriteEmpty(text, col);
  }

  /** Every row ends cleanly: no ESC that text written later could complete. */
  predicate ScreenOk(screen: seq<Line>) {
    forall i :: 0 <= i < |screen| ==> NoStrayEsc(screen[i])
  }

  /** The invariant of a capture: clean rows and a well-formed style. */
  predicate TermOk(t: Term) {
    ScreenOk(t.screen) && StyleOk(t.style)
  }

  /** Writing a run that ends cleanly keeps the invariant. */
  lemma {:induction false} WriteKeepsOk(t: Term, run: Line)
    requires TermOk(t) && NoStrayEsc(run)
    ensures TermOk(Write(t, run))
  {
    var text := Emitted(t, run);
    EmittedClean(t, run);
    PrintKeepsOk(t.screen, text, t.col, t.row);
    TrackKeepsStyleOk(t.style, SgrCodes(run));
  }

  lemma {:induction false} EmittedClean(t: Term, run: Line)
    requires StyleOk(t.style) && NoStrayEsc(run)
    ensures NoStrayEsc(Emitted(t, run))
  {
    if t.row >= |t.screen| {
      ConcatInvisible(t.style);
      VisibleAppend(Concat(t.style), run);
    }
  }

  /** Printing clean text into a clean screen leaves it clean. */
  lemma {:induction false} PrintKeepsOk(screen: seq<Line>, text: Line, col: nat, row: nat)
    requires ScreenOk(screen) && NoStrayEsc(text)
    ensures ScreenOk(Print(screen, text, col, row))
  {
    var line := if row < |screen| then screen[row] else [];
    var r := Print(screen, text, col, row);
    assert NoStrayEsc(line);
    OverwriteVisible(line, text, col);
    forall i | 0 <= i < |r|
      ensures NoStrayEsc(r[i])
    {
      if i != row && i >= |screen| {
        assert r[i] == [];
      }
    }
  }

  /** Every command keeps the invariant. */
  lemma {:induction false} ApplyKeepsOk(t: Term, cmd: Command)
    requires TermOk(t)
    ensures TermOk(Apply(t, cmd))
  {
    match cmd
    case EraseInLine(m) => EraseLineKeepsOk(t.screen, t.row, t.col, m);
    case EraseInDisplay(m) => EraseDisplayKeepsOk(t.screen, t.row, t.col, m);
    case _ =>
  }

  lemma {:induction false} EraseLineKeepsOk(screen: seq<Line>, row: nat, col: nat, mode: nat)
    requires ScreenOk(screen)
    ensures ScreenOk(EraseLine(screen, row, col, mode))
  {
    if row < |screen| {
      ClearLineVisible(screen[row], col);
    }
  }

  lemma {:induction false} EraseDisplayKeepsOk(screen: seq<Line>, row: nat, col: nat, mode: nat)
    requires ScreenOk(screen)
    ensures ScreenOk(EraseDisplay(screen, row, col, mode))
  {
    if mode == 0 {
      EraseLineKeepsOk(screen, row, col, 0);
    } else if mode == 1 {
      var above := EmptyAbove(screen, row);
      assert ScreenOk(above) by {
        forall i | 0 <= i < |above|
          ensures NoStrayEsc(above[i])
        {
          if i < row {
            assert above[i] == [];
          }
        }
      }
      EraseLineKeepsOk(above, row, col, 1);
    }
  }

  /** Every text run among the pieces ends cleanly. */
  predicate CleanRuns(ps: seq<Piece>) {
    forall i :: 0 <= i < |ps| && ps[i].Text? ==> NoStrayEsc(ps[i].run)
  }

  /** The text runs of a chunk without stray ESC are without stray ESC:
      a run ends where a command starts, that is, right before an ESC. */
  lemma {:induction false} TokenizeClean(s: Line)
    requires NoStrayEsc(s)
    ensures CleanRuns(Tokenize(s))
    decreases |s|
  {
    if s != [] {
      if ControlLen(s) > 0 {
        var n := ControlLen(s);
        assert TokenLen(s) == n;
        TokenizeClean(s[n..]);
        CleanCons(Control(s[..n], Decode(s[..n])), Tokenize(s[n..]), Tokenize(s));
      } else {
        assert s[0..] == s;
        var m := RunEnd(s, 1);
        assert m == |s| || s[m] == ESC by {
          if m < |s| {
            assert s[m..][0] == s[m];
          }
        }
        SplitBeforeOutside(s, m);
        TokenizeClean(s[m..]);
        CleanCons(Text(s[..m]), Tokenize(s[m..]), Tokenize(s));
      }
    }
  }

  lemma {:induction false} CleanCons(p: Piece, ps: seq<Piece>, qs: seq<Piece>)
    requires qs == [p] + ps && CleanRuns(ps) && (p.Text? ==> NoStrayEsc(p.run))
    ensures CleanRuns(qs)
  {
    forall i | 0 <= i < |qs| && qs[i].Text?
      ensures NoStrayEsc(qs[i].run)
    {
      if i > 0 {
        assert qs[i] == ps[i - 1];
      }
    }
  }

  /** Pieces whose text runs end cleanly keep the invariant, whatever
      commands lie between them. */
  lemma {:induction false} RunKeepsOk(t: Term, ps: seq<Piece>)
    requires TermOk(t) && CleanRuns(ps)
    ensures TermOk(Run(t, ps))
    decreases |ps|
  {
    if ps != [] {
      var front := ps[..|ps| - 1];
      assert CleanRuns(front) by {
        forall i | 0 <= i < |front| && front[i].Text?
          ensures NoStrayEsc(front[i].run)
        {
          assert front[i] == ps[i];
        }
      }
      RunKeepsOk(t, front);
      var u := Run(t, front);
      match ps[|ps| - 1]
      case Text(run) => WriteKeepsOk(u, run);
      case Control(_, cmd) => ApplyKeepsOk(u, cmd);
    }
  }
}
