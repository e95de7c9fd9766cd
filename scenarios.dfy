/** Worked cases: what capturing gives for particular inputs, and the
    single steps of the terminal that the end-to-end scenarios in
    CaptureScenarios build on.
 */
module Scenarios {
  import opened Ansi
  import opened Offsets
  import opened Compositor
  import opened Tokenizer
  import opened Style
  import opened Terminal
  import opened Capture

  lemma LeftResult(a: Line, b: Line, c: Line)
    requires a == "   " && b == " hello," && c == " world "
    ensures a + b + c == "    hello, world "
  {
  }

  /** Writing plain text into the one plain row of a screen splices it in. */
  lemma {:induction false} WriteInRow(u: Term, line: Line, text: Line, c: nat)
    requires u == Term(0, c, [line], []) && ESC !in line && ESC !in text
    ensures Write(u, text).screen == [Splice(line, text, c)]
  {
    OverwritePlain(line, text, c);
    var r := Write(u, text).screen;
    assert |r| == 1 && r[0] == Overwrite(line, text, c);
  }

  /** EL 1 at the end of a row blanks all of it; text written after it
      lands behind the blanks. */
  lemma {:induction false} EraseStartThenWrite(line: Line, text: Line, c: nat)
    requires ESC !in line && ESC !in text && |line| == c
    ensures Write(Apply(Term(0, c, [line], []), EraseInLine(1)), text).screen == [Spaces(c) + text]
  {
    ColumnIndexPlain(line, c);
    var blank := Spaces(c);
    assert line[c..] == [];
    assert ClearLine(line, c, 1) == blank;
    var u := Term(0, c, [blank], []);
    assert Apply(Term(0, c, [line], []), EraseInLine(1)) == u;
    WriteInRow(u, blank, text, c);
    SpliceAtEnd(blank, text, c);
  }

  /** Splicing at the end of a plain line appends. */
  lemma {:induction false} SpliceAtEnd(v: Line, t: Line, c: nat)
    requires |v| == c
    ensures Splice(v, t, c) == v + t
  {
    assert PadPlain(v, c) == v;
    assert v[..c] == v && v[Min(c + |t|, |v|)..] == [];
  }

  lemma SevenSpaces(world: Line)
    requires world == " world!"
    ensures Spaces(7) + world == "        world!"
  {
    assert Spaces(7) == "       ";
  }

  /** ED 0 after moving back and up: the row above is cut at the cursor
      and the rows below it are dropped. */
  lemma {:induction false} EraseBelowAfterMoves(first: Line, second: Line, col: nat, back: nat, c: nat)
    requires ESC !in first && back >= 1 && col >= back && c == col - back && c <= |first|
    ensures Apply(Apply(Apply(Term(1, col, [first, second], []), CursorBack(back)), CursorUp(1)), EraseInDisplay(0)).screen
      == [first[..c]]
  {
    var u := Term(0, c, [first, second], []);
    assert Apply(Apply(Term(1, col, [first, second], []), CursorBack(back)), CursorUp(1)) == u;
    ColumnIndexPlain(first, c);
    var cut := EraseLine([first, second], 0, c, 0);
    assert cut == [first[..c], second];
    assert EraseDisplay([first, second], 0, c, 0) == cut[..1];
  }

  /** Two lines of plain text are captured as two rows (the newline at
      the end adds none). */
  lemma {:induction false} TwoLines(a: Line, b: Line)
    requires a != [] && b != [] && ESC !in a && ESC !in b && NL !in a && NL !in b
    ensures Render(a + [NL] + b + [NL]) == [a, b]
  {
    var c1, c2 := Chunk(a, true), Chunk(b, true);
    var cs := [c1, c2];
    JoinPair(c1, c2);
    assert Unchunk(c1) + Unchunk(c2) == a + [NL] + b + [NL];
    RenderPlainLines(cs);
    assert Texts(cs) == [a, b];
  }

  lemma TwoLinesExample(hello: Line, world: Line)
    requires hello == "hello" && world == "world"
    ensures Render(hello + [NL] + world + [NL]) == [hello, world]
  {
    TwoLines(hello, world);
  }

  /** A last line without a newline is captured all the same. */
  lemma NoNewlineExample(hello: Line)
    requires hello == "hello"
    ensures Render(hello) == [hello]
  {
    var cs := [Chunk(hello, false)];
    assert JoinChunks(cs) == hello by {
      assert cs[1..] == [];
      assert Unchunk(cs[0]) == hello;
    }
    RenderPlainLines(cs);
    assert Texts(cs) == [hello];
  }

  /** An SGR sequence followed by plain text holds no command. */
  lemma {:induction false} SgrLeadNoCommands(code: Line, rest: Line)
    requires IsSgr(code) && ESC !in rest
    ensures NoCommands(code + rest)
  {
    var s := code + rest;
    forall j | 0 <= j < |s|
      ensures ControlLen(s[j..]) == 0
    {
      if j == 0 {
        assert s[..|code|] == code;
        CsiLenUnique(s, |code|);
        assert s[j..] == s;
      } else {
        assert s[j..][0] == s[j];
        if j < |code| {
          assert s[j] == code[j];
        }
      }
    }
  }

  /** The style in force is written again at the start of a new row: a
      line that sets a colour makes the next line start in that colour. */
  lemma {:induction false} StyleCarries(code: Line, text: Line, second: Line)
    requires IsSgr(code) && !IsReset(code)
    requires ESC !in text && NL !in text && NL !in code
    requires second != [] && ESC !in second && NL !in second
    ensures Render(code + text + [NL] + second) == [code + text, code + second]
  {
    var first := code + text;
    var c1, c2 := Chunk(first, true), Chunk(second, false);
    var cs := [c1, c2];
    JoinPair(c1, c2);
    assert Unchunk(c1) + Unchunk(c2) == first + [NL] + second;
    assert NL !in first;
    SgrLeadNoCommands(code, text);
    PlainNoCommands(second);
    RenderTextLines(cs);
    var ts := Texts(cs);
    assert ts == [first, second];
    SgrCodesLead(code, text);
    StyleOfOne(first, code);
    RestyledTwo(ts, first, second);
    assert Concat([]) + first == first;
    assert Concat([code]) == code by {
      assert [code][..0] == [];
    }
  }

  lemma {:induction false} RestyledTwo(ts: seq<Line>, a: Line, b: Line)
    requires ts == [a, b]
    ensures Restyled(ts) == [Concat(StyleAfter([])) + a, Concat(StyleAfter([a])) + b]
  {
    assert ts[..0] == [] && ts[..1] == [a];
  }

  lemma {:induction false} StyleOfOne(first: Line, code: Line)
    requires IsSgr(code) && !IsReset(code) && SgrCodes(first) == [code]
    ensures StyleAfter([first]) == [code]
  {
    assert [first][..0] == [];
    assert StyleAfter([first]) == Track([], [code]);
    assert [code][..0] == [];
    assert Track([], [code]) == Update([], code) == [code];
  }

  lemma PrintStyleExample(red: Line, text: Line, hello: Line)
    requires red == "\U{1B}[31m" && text == "RED" && hello == "Hello"
    ensures Render(red + text + [NL] + hello) == [red + text, red + hello]
  {
    assert IsSgr(red) && Params(red) == "31";
    StyleCarries(red, text, hello);
  }

  /** Going up a row and writing overwrites the start of the row above. */
  lemma {:induction false} UpThenWrite(line: Line, up: Line, text: Line)
    requires line != [] && ESC !in line && NL !in line
    requires ESC !in text && NL !in text && text != [] && up == Csi([], 'A')
    ensures Render(line + [NL] + up + text + [NL]) == [Splice(line, text, 0)]
  {
    var c1, c2 := Chunk(line, true), Chunk(up + text, true);
    var cs := [c1, c2];
    JoinPair(c1, c2);
    assert Unchunk(c1) + Unchunk(c2) == line + [NL] + up + text + [NL];
    assert NL !in up + text;
    assert ChunksOk(cs);
    JoinSplit(cs);
    FirstLine(c1, line);
    assert cs[..1] == [c1];
    var t1 := Term(1, 0, [line], []);
    assert FeedAll(Blank, cs) == FeedChunk(t1, c2);
    UpChunk(t1, line, up, text);
  }

  /** A first line of plain text leaves one row and the cursor at the start of the next. */
  lemma {:induction false} FirstLine(c: Chunk, line: Line)
    requires c == Chunk(line, true) && line != [] && ESC !in line
    ensures FeedAll(Blank, [c]) == Term(1, 0, [line], [])
  {
    PlainNoCommands(line);
    LinesState([c]);
    assert Texts([c]) == [line];
    PlainStyle([line]);
  }

  lemma {:induction false} UpChunk(t1: Term, line: Line, up: Line, text: Line)
    requires ESC !in line && ESC !in text && text != [] && up == Csi([], 'A') && t1 == Term(1, 0, [line], [])
    ensures FeedChunk(t1, Chunk(up + text, true)).screen == [Splice(line, text, 0)]
  {
    DecodeBare('A');
    CsiParts([], 'A');
    TokenizeLead(up, text);
    PlainNoCommands(text);
    TokenizeOneRun(text);
    var cmd := CursorUp(1);
    var pieces := [Control(up, cmd), Text(text)];
    assert Tokenize(up + text) == pieces;
    var u := Term(0, 0, [line], []);
    RunTwo(t1, pieces);
    assert Apply(t1, cmd) == u;
    WriteInRow(u, line, text, 0);
  }

  lemma {:induction false} SpliceAtStart(v: Line, t: Line)
    requires |t| <= |v|
    ensures Splice(v, t, 0) == t + v[|t|..]
  {
    assert PadPlain(v, 0) == v;
    assert v[..0] == [];
  }

  lemma {:induction false} RunTwo(t: Term, pieces: seq<Piece>)
    requires |pieces| == 2
    ensures Run(t, pieces) == Step(Step(t, pieces[0]), pieces[1])
  {
    var front := pieces[..1];
    assert front[..0] == [];
    var a := Run(t, front[..0]);
    assert a == t;
    assert Run(t, front) == Step(a, front[0]);
    assert Run(t, pieces) == Step(Run(t, front), pieces[1]);
  }

  lemma UpExample(hello: Line, up: Line, ansi: Line)
    requires hello == "hello" && ansi == "ansi" && up == Csi([], 'A')
    ensures Render(hello + [NL] + up + ansi + [NL]) == ["ansio"]
  {
    UpThenWrite(hello, up, ansi);
    SpliceAtStart(hello, ansi);
    assert ansi + hello[4..] == "ansio";
  }

  /** A colour sequence between words takes no columns. */
  lemma LenColoredExample(one: Line, sgr: Line, two: Line)
    requires one == "One " && sgr == "\U{1B}[0m" && two == " two"
    ensures VisualLength(one + sgr + two) == 8
  {
    assert IsCsi(sgr);
    CsiInvisible(sgr);
    PlainVisible(one);
    PlainVisible(two);
    VisibleAppend(one, sgr);
    VisibleAppend(one + sgr, two);
  }

  /** Column 1 of a line that starts with a colour sequence is past the sequence. */
  lemma PosAfterLeadingSgrExample(sgr: Line, abc: Line)
    requires sgr == "\U{1B}[m" && abc == "ABC"
    ensures ColumnToOffset(sgr + abc, 0) == 0 && ColumnToOffset(sgr + abc, 1) == 4
    ensures ColumnToOffset(sgr + abc, 2) == 5
  {
    var s := sgr + abc;
    assert s[..3] == sgr;
    CsiLenUnique(s, 3);
    assert s[3..] == abc;
    ColumnIndexPlain(abc, 1);
    ColumnIndexPlain(abc, 2);
    AsciiByteLen(s[..4]);
    AsciiByteLen(s[..5]);
  }

  /** The last column of a line that ends with a colour sequence stops before the sequence. */
  lemma PosBeforeTrailingSgrExample(foo: Line, sgr: Line)
    requires foo == "foo" && sgr == "\U{1B}[m"
    ensures ColumnToOffset(foo + sgr, 3) == 3
  {
    var s := foo + sgr;
    var s1 := s[1..];
    var s2 := s1[1..];
    assert CsiLen(s) == 0 && CsiLen(s1) == 0 && CsiLen(s2) == 0;
    assert ColumnIndex(s2, 1) == 1 + ColumnIndex(s2[1..], 0) == 1;
    assert ColumnIndex(s1, 2) == 1 + ColumnIndex(s2, 1);
    assert ColumnIndex(s, 3) == 1 + ColumnIndex(s1, 2);
    assert s[..3] == foo;
    AsciiByteLen(foo);
  }

  /** A character outside ASCII counts as one column but several bytes. */
  lemma PosUnicodeExample(arrow: Line)
    requires arrow == "\U{2191} "
    ensures VisualLength(arrow) == 2 && ColumnToOffset(arrow, 1) == 3
  {
    PlainVisible(arrow);
    ColumnIndexPlain(arrow, 1);
    var glyph := arrow[..1];
    assert glyph == ['\U{2191}'];
    assert ByteLen(glyph) == Utf8Width(glyph[0]) + ByteLen(glyph[1..]);
    assert Utf8Width('\U{2191}') == 3;
  }

  /** A colour sequence at the head of the line and another between words:
      neither takes a column. */
  lemma LenColored2Example(red: Line, one: Line, reset: Line, two: Line)
    requires red == "\U{1B}[31m" && one == "One " && reset == "\U{1B}[0m" && two == " two"
    ensures VisualLength(red + (one + (reset + two))) == 8
  {
    assert IsCsi(red) && IsCsi(reset) && ESC !in one && ESC !in two;
    ColoredWords(red, one, reset, two);
  }

  lemma {:induction false} ColoredWords(x1: Line, t1: Line, x2: Line, t2: Line)
    requires IsCsi(x1) && IsCsi(x2) && ESC !in t1 && ESC !in t2
    ensures VisualLength(x1 + (t1 + (x2 + t2))) == |t1| + |t2|
  {
    CsiThen(x2, t2, 0);
    PlainVisible(t2);
    StyledRun(x1, t1, x2 + t2);
  }

  /** A colour sequence, then text: the text is what is visible of the two. */
  lemma {:induction false} StyledRun(x: Line, t: Line, r: Line)
    requires IsCsi(x) && ESC !in t
    ensures Visible(x + (t + r)) == t + Visible(r)
  {
    CsiThen(x, t + r, 0);
    PlainThen(t, r, 0);
  }

  /** Three colour sequences, each followed by text: only the texts are visible. */
  lemma {:induction false} StyledRuns(x1: Line, t1: Line, x2: Line, t2: Line, x3: Line, t3: Line, r: Line)
    requires IsCsi(x1) && IsCsi(x2) && IsCsi(x3) && ESC !in t1 && ESC !in t2 && ESC !in t3
    ensures Visible(x1 + (t1 + (x2 + (t2 + (x3 + (t3 + r)))))) == t1 + (t2 + (t3 + Visible(r)))
  {
    var r2 := x3 + (t3 + r);
    StyledRun(x3, t3, r);
    var r1 := x2 + (t2 + r2);
    StyledRun(x2, t2, r2);
    StyledRun(x1, t1, r1);
  }

  /** The rest of the `git log` line: five colour sequences around three texts. */
  lemma {:induction false} GitLogTail(x4: Line, t4: Line, x5: Line, x6: Line, t5: Line, x7: Line, x8: Line, t6: Line)
    requires IsCsi(x4) && IsCsi(x5) && IsCsi(x6) && IsCsi(x7) && IsCsi(x8)
    requires ESC !in t4 && ESC !in t5 && ESC !in t6
    ensures Visible(x4 + (t4 + (x5 + (x6 + (t5 + (x7 + (x8 + t6))))))) == t4 + (t5 + t6)
  {
    CsiThen(x8, t6, 0);
    PlainVisible(t6);
    var r3 := x7 + (x8 + t6);
    CsiThen(x7, x8 + t6, 0);
    var r2 := x6 + (t5 + r3);
    StyledRun(x6, t5, r3);
    var r1 := x5 + r2;
    CsiThen(x5, r2, 0);
    StyledRun(x4, t4, r1);
  }

  /** The decorated line `git log` prints, cut into its colour sequences
      (`x`) and texts (`t`): 43 columns wide. */
  lemma LenGitLogExample(x1: Line, t1: Line, x2: Line, t2: Line, x3: Line, t3: Line,
                         x4: Line, t4: Line, x5: Line, x6: Line, t5: Line, x7: Line, x8: Line, t6: Line)
    requires x1 == "\U{1B}[m" && t1 == "  * " && x2 == "\U{1B}[33m" && t2 == "0793964"
    requires x3 == "\U{1B}[m" && t3 == " 2021-04-03 " && x4 == "\U{1B}[33m" && t4 == " ("
    requires x5 == "\U{1B}[m" && x6 == "\U{1B}[1;36m" && t5 == "HEAD -> " && x7 == "\U{1B}[m"
    requires x8 == "\U{1B}[1;32m" && t6 == "usability2"
    ensures VisualLength(x1 + (t1 + (x2 + (t2 + (x3 + (t3 + (x4 + (t4 + (x5 + (x6 + (t5 + (x7 + (x8 + t6))))))))))))) == 43
  {
    assert IsCsi(x1) && IsCsi(x2) && IsCsi(x3) && IsCsi(x4) && IsCsi(x5) && IsCsi(x6) && IsCsi(x7) && IsCsi(x8);
    assert ESC !in t1 && ESC !in t2 && ESC !in t3 && ESC !in t4 && ESC !in t5 && ESC !in t6;
    var tail := x4 + (t4 + (x5 + (x6 + (t5 + (x7 + (x8 + t6))))));
    GitLogTail(x4, t4, x5, x6, t5, x7, x8, t6);
    StyledRuns(x1, t1, x2, t2, x3, t3, tail);
  }

  /** The columns of a line that starts with three colour sequences, each
      followed by text: a column stops right after its character, past the
      sequences before it and before those after it. */
  lemma {:induction false} ThreeRuns(line: Line, x1: Line, t1: Line, x2: Line, t2: Line, x3: Line, t3: Line, rest: Line, col: nat)
    requires IsCsi(x1) && IsCsi(x2) && IsCsi(x3) && ESC !in t1 && ESC !in t2 && ESC !in t3 && t3 != []
    requires line == x1 + (t1 + (x2 + (t2 + (x3 + (t3 + rest)))))
    ensures 0 < col <= |t1| ==> ColumnIndex(line, col) == |x1| + col
    ensures |t1| < col <= |t1| + |t2| ==> ColumnIndex(line, col) == |x1| + |t1| + |x2| + (col - |t1|)
    ensures col == |t1| + |t2| + 1 ==> ColumnIndex(line, col) == |x1| + |t1| + |x2| + |t2| + |x3| + 1
  {
    var r2 := x3 + (t3 + rest);
    var r1 := x2 + (t2 + r2);
    if col > 0 {
      CsiThen(x1, t1 + r1, col);
      PlainThen(t1, r1, col);
      if col > |t1| {
        var c := col - |t1|;
        CsiThen(x2, t2 + r2, c);
        PlainThen(t2, r2, c);
        if c > |t2| {
          var d := c - |t2|;
          CsiThen(x3, t3 + rest, d);
          PlainThen(t3, rest, d);
        }
      }
    }
  }

  /** Every character of the line is ASCII. */
  predicate IsAscii(t: Line) {
    forall i :: 0 <= i < |t| ==> t[i] < '\U{80}'
  }

  lemma {:induction false} AsciiAppend(a: Line, b: Line)
    requires IsAscii(a) && IsAscii(b)
    ensures IsAscii(a + b)
  {
    forall i | 0 <= i < |a + b|
      ensures (a + b)[i] < '\U{80}'
    {
      if i >= |a| {
        assert (a + b)[i] == b[i - |a|];
      }
    }
  }

  /** In an ASCII line, an index is also a byte offset. */
  lemma {:induction false} AsciiOffset(line: Line, col: nat, i: nat)
    requires IsAscii(line) && i == ColumnIndex(line, col)
    ensures ColumnToOffset(line, col) == i
  {
    assert IsAscii(line[..i]);
    AsciiByteLen(line[..i]);
  }

  /** In the `git log` line, the columns the tests look up are at the
      bytes they expect. */
  lemma PosComplexExample(x1: Line, t1: Line, x2: Line, t2: Line, x3: Line, t3: Line, rest: Line, line: Line)
    requires x1 == "\U{1B}[m" && t1 == "  * " && x2 == "\U{1B}[33m" && t2 == "0793964"
    requires x3 == "\U{1B}[m" && t3 == " 2021-04-03 " && IsAscii(rest)
    requires line == x1 + (t1 + (x2 + (t2 + (x3 + (t3 + rest)))))
    ensures ColumnToOffset(line, 0) == 0 && ColumnToOffset(line, 1) == 4
    ensures ColumnToOffset(line, 3) == 6 && ColumnToOffset(line, 4) == 7
    ensures ColumnToOffset(line, 5) == 13 && ColumnToOffset(line, 6) == 14
    ensures ColumnToOffset(line, 10) == 18 && ColumnToOffset(line, 11) == 19
    ensures ColumnToOffset(line, 12) == 23
  {
    assert IsCsi(x1) && IsCsi(x2) && IsCsi(x3);
    assert ESC !in t1 && ESC !in t2 && ESC !in t3;
    GitLogAscii(x1, t1, x2, t2, x3, t3, rest, line);
    GitLogOffset(x1, t1, x2, t2, x3, t3, rest, line, 0, 0);
    GitLogOffset(x1, t1, x2, t2, x3, t3, rest, line, 1, 4);
    GitLogOffset(x1, t1, x2, t2, x3, t3, rest, line, 3, 6);
    GitLogOffset(x1, t1, x2, t2, x3, t3, rest, line, 4, 7);
    GitLogOffset(x1, t1, x2, t2, x3, t3, rest, line, 5, 13);
    GitLogOffset(x1, t1, x2, t2, x3, t3, rest, line, 6, 14);
    GitLogOffset(x1, t1, x2, t2, x3, t3, rest, line, 10, 18);
    GitLogOffset(x1, t1, x2, t2, x3, t3, rest, line, 11, 19);
    GitLogOffset(x1, t1, x2, t2, x3, t3, rest, line, 12, 23);
  }

  lemma {:induction false} GitLogAscii(x1: Line, t1: Line, x2: Line, t2: Line, x3: Line, t3: Line, rest: Line, line: Line)
    requires x1 == "\U{1B}[m" && t1 == "  * " && x2 == "\U{1B}[33m" && t2 == "0793964"
    requires x3 == "\U{1B}[m" && t3 == " 2021-04-03 " && IsAscii(rest)
    requires line == x1 + (t1 + (x2 + (t2 + (x3 + (t3 + rest)))))
    ensures IsAscii(line)
  {
    assert IsAscii(x1) && IsAscii(t1) && IsAscii(x2) && IsAscii(t2) && IsAscii(x3) && IsAscii(t3);
    AsciiAppend(t3, rest);
    AsciiAppend(x3, t3 + rest);
    AsciiAppend(t2, x3 + (t3 + rest));
    AsciiAppend(x2, t2 + (x3 + (t3 + rest)));
    AsciiAppend(t1, x2 + (t2 + (x3 + (t3 + rest))));
    AsciiAppend(x1, t1 + (x2 + (t2 + (x3 + (t3 + rest)))));
  }

  lemma {:induction false} GitLogOffset(x1: Line, t1: Line, x2: Line, t2: Line, x3: Line, t3: Line, rest: Line, line: Line,
                                        col: nat, offset: nat)
    requires |x1| == 3 && |t1| == 4 && |x2| == 5 && |t2| == 7 && |x3| == 3 && t3 != []
    requires IsCsi(x1) && IsCsi(x2) && IsCsi(x3) && ESC !in t1 && ESC !in t2 && ESC !in t3
    requires line == x1 + (t1 + (x2 + (t2 + (x3 + (t3 + rest))))) && IsAscii(line)
    requires col <= 12 && offset == if col == 0 then 0 else if col <= 4 then col + 3 else if col <= 11 then col + 8 else 23
    ensures ColumnToOffset(line, col) == offset
  {
    ThreeRuns(line, x1, t1, x2, t2, x3, t3, rest, col);
    AsciiOffset(line, col, offset);
  }
}
