/** Worked cases for whole inputs: what `Capture` returns for the inputs
    of the tests, derived from the general theorems about rendering.
 */
module CaptureScenarios {
  import opened Ansi
  import opened Offsets
  import opened Compositor
  import opened Tokenizer
  import opened Style
  import opened Terminal
  import opened Capture
  import Scenarios

  /** Two lines without commands: the second starts with the style the
      first one leaves. */
  lemma {:induction false} TwoStyledLines(first: Line, second: Line)
    requires first != [] && NL !in first && NoCommands(first)
    requires second != [] && NL !in second && NoCommands(second)
    ensures Render(first + [NL] + second) == [first, Concat(Track([], SgrCodes(first))) + second]
  {
    var cs := [Chunk(first, true), Chunk(second, false)];
    TwoChunks(first, second, cs);
    RenderTextLines(cs);
    RestyledPair([first, second], first, second);
  }

  lemma {:induction false} TwoChunks(first: Line, second: Line, cs: seq<Chunk>)
    requires first != [] && NL !in first && NoCommands(first)
    requires second != [] && NL !in second && NoCommands(second)
    requires cs == [Chunk(first, true), Chunk(second, false)]
    ensures ChunksOk(cs) && TextOnly(cs)
    ensures JoinChunks(cs) == first + [NL] + second && Texts(cs) == [first, second]
  {
    JoinPair(cs[0], cs[1]);
  }

  lemma {:induction false} RestyledPair(ts: seq<Line>, a: Line, b: Line)
    requires ts == [a, b]
    ensures Restyled(ts) == [a, Concat(Track([], SgrCodes(a))) + b]
  {
    assert ts[..0] == [] && ts[..1] == [a];
    assert [a][..0] == [];
    assert StyleAfter([a]) == Track([], SgrCodes(a));
    assert Concat([]) + a == a;
  }

  /** The two sequences of a pair, written one after the other. */
  lemma {:induction false} ConcatPair(a: Line, b: Line)
    ensures Concat([a, b]) == a + b
  {
    assert [a, b][..1] == [a];
    ConcatOne(a);
  }

  lemma {:induction false} ConcatOne(a: Line)
    ensures Concat([a]) == a
  {
    assert [a][..0] == [];
    assert Concat([]) + a == a;
  }

  /** Two colour sequences in the first line, neither a reset: the second
      line starts with both. */
  lemma {:induction false} AccumulateLines(a: Line, x: Line, b: Line, y: Line, second: Line)
    requires IsSgr(a) && IsSgr(b) && !IsReset(a) && !IsReset(b) && NL !in a && NL !in b
    requires ESC !in x && ESC !in y && NL !in x && NL !in y
    requires second != [] && ESC !in second && NL !in second
    ensures Render(a + x + b + y + [NL] + second) == [a + x + b + y, a + b + second]
  {
    var first := a + x + b + y;
    AccumulateFirst(a, x, b, y);
    TrackAccumulates([], [a, b]);
    ConcatPair(a, b);
    PlainNoCommands(second);
    TwoStyledLines(first, second);
  }

  lemma {:induction false} AccumulateFirst(a: Line, x: Line, b: Line, y: Line)
    requires IsSgr(a) && IsSgr(b) && NL !in a && NL !in b
    requires ESC !in x && ESC !in y && NL !in x && NL !in y
    ensures a + x + b + y != [] && NL !in a + x + b + y
    ensures NoCommands(a + x + b + y) && SgrCodes(a + x + b + y) == [a, b]
  {
    assert a + x + b + y == a + (x + (b + y));
    PlainNoCommands(y);
    NoCommandsSgrCons(b, y);
    NoCommandsPlainCons(x, b + y);
    NoCommandsSgrCons(a, x + (b + y));
    SgrCodesCons(a, x + (b + y));
    SgrCodesPlainCons(x, b + y);
    SgrCodesLead(b, y);
  }

  lemma AccumulateCapture(red: Line, re: Line, bold: Line, d: Line, hello: Line)
    requires red == "\U{1B}[31m" && re == "RE" && bold == "\U{1B}[1m" && d == "D" && hello == "Hello"
    ensures Render(red + re + bold + d + [NL] + hello) == [red + re + bold + d, red + bold + hello]
  {
    assert IsSgr(red) && Params(red) == "31";
    assert IsSgr(bold) && Params(bold) == "1";
    AccumulateLines(red, re, bold, d, hello);
  }

  /** A colour sequence, then a reset at the end of the first line: the
      second line starts with the reset alone. */
  lemma {:induction false} ResetLines(a: Line, x: Line, r: Line, second: Line)
    requires IsSgr(a) && IsSgr(r) && IsReset(r) && NL !in a && NL !in r
    requires ESC !in x && NL !in x
    requires second != [] && ESC !in second && NL !in second
    ensures Render(a + x + r + [NL] + second) == [a + x + r, r + second]
  {
    var first := a + x + r;
    ResetFirst(a, x, r);
    TrackAfterReset([], [a, r], 1);
    assert [a, r][1..] == [r];
    ConcatOne(r);
    PlainNoCommands(second);
    TwoStyledLines(first, second);
  }

  lemma {:induction false} ResetFirst(a: Line, x: Line, r: Line)
    requires IsSgr(a) && IsSgr(r) && NL !in a && NL !in r
    requires ESC !in x && NL !in x
    ensures a + x + r != [] && NL !in a + x + r
    ensures NoCommands(a + x + r) && SgrCodes(a + x + r) == [a, r]
  {
    assert a + x + r == a + (x + r);
    assert r + [] == r;
    NoCommandsSgrCons(r, []);
    NoCommandsPlainCons(x, r);
    NoCommandsSgrCons(a, x + r);
    SgrCodesCons(a, x + r);
    SgrCodesPlainCons(x, r);
    SgrCodesLead(r, []);
  }

  lemma ResetCapture(red: Line, text: Line, reset: Line, hello: Line)
    requires red == "\U{1B}[31m" && text == "RED" && reset == "\U{1B}[0m" && hello == "Hello"
    ensures Render(red + text + reset + [NL] + hello) == [red + text + reset, reset + hello]
  {
    assert IsSgr(red) && Params(red) == "31";
    assert IsSgr(reset) && Params(reset) == "0";
    ResetLines(red, text, reset, hello);
  }

  /** A colour switched on and straight off again: the second line starts
      with the reset alone. */
  lemma {:induction false} ResetOptimizeLines(x: Line, a: Line, r: Line, y: Line, second: Line)
    requires IsSgr(a) && IsSgr(r) && IsReset(r) && NL !in a && NL !in r
    requires ESC !in x && ESC !in y && NL !in x && NL !in y
    requires second != [] && ESC !in second && NL !in second
    ensures Render(x + a + r + y + [NL] + second) == [x + a + r + y, r + second]
  {
    var first := x + a + r + y;
    ResetOptimizeFirst(x, a, r, y);
    TrackAfterReset([], [a, r], 1);
    assert [a, r][1..] == [r];
    ConcatOne(r);
    PlainNoCommands(second);
    TwoStyledLines(first, second);
  }

  lemma {:induction false} ResetOptimizeFirst(x: Line, a: Line, r: Line, y: Line)
    requires IsSgr(a) && IsSgr(r) && NL !in a && NL !in r
    requires ESC !in x && ESC !in y && NL !in x && NL !in y
    ensures x + a + r + y != [] && NL !in x + a + r + y
    ensures NoCommands(x + a + r + y) && SgrCodes(x + a + r + y) == [a, r]
  {
    assert x + a + r + y == x + (a + (r + y));
    PlainNoCommands(y);
    NoCommandsSgrCons(r, y);
    NoCommandsSgrCons(a, r + y);
    NoCommandsPlainCons(x, a + (r + y));
    SgrCodesPlainCons(x, a + (r + y));
    SgrCodesCons(a, r + y);
    SgrCodesLead(r, y);
  }

  lemma ResetOptimizeCapture(foo: Line, red: Line, reset: Line, space: Line, bar: Line)
    requires foo == "Foo " && red == "\U{1B}[31m" && reset == "\U{1B}[0m" && space == " " && bar == " bar"
    ensures Render(foo + red + reset + space + [NL] + bar) == [foo + red + reset + space, reset + bar]
  {
    assert IsSgr(red) && Params(red) == "31";
    assert IsSgr(reset) && Params(reset) == "0";
    ResetOptimizeLines(foo, red, reset, space, bar);
  }

  /** A control sequence holds no newline. */
  lemma {:induction false} CsiNoNewline(t: Line)
    requires IsCsi(t)
    ensures NL !in t
  {
    assert forall i :: 0 <= i < |t| ==> t[i] == ESC || t[i] == '[' || IsParam(t[i]) || IsFinal(t[i]);
  }

  /** A command sequence as the tokenizer sees it. */
  lemma {:induction false} CommandSeq(cmd: Command)
    requires Canonical(cmd)
    ensures IsCsi(Encode(cmd)) && Final(Encode(cmd)) != 'm' && Decode(Encode(cmd)) == cmd
    ensures NL !in Encode(cmd)
  {
    EncodeFinal(cmd);
    DecodeEncode(cmd);
    CsiNoNewline(Encode(cmd));
  }

  /** Plain text, written where the style is empty: the run goes into the
      screen as it is and the cursor moves right by its length. */
  lemma {:induction false} WritePlain(t: Term, text: Line)
    requires ESC !in text && t.style == []
    ensures Write(t, text) == Term(t.row, t.col + |text|, Print(t.screen, text, t.col, t.row), [])
  {
    PlainVisible(text);
    SgrCodesPlain(text);
    assert Concat([]) + text == text;
  }

  /** The state after the first `k` pieces: the state after `k - 1` of
      them, then one more step. */
  lemma {:induction false} RunPrefix(t: Term, ps: seq<Piece>, k: nat, before: Term)
    requires 0 < k <= |ps| && before == Run(t, ps[..k - 1])
    ensures Run(t, ps[..k]) == Step(before, ps[k - 1])
  {
    assert ps[..k][..k - 1] == ps[..k - 1];
  }

  /** Five pieces taken in order, through the states they pass. */
  lemma {:induction false} RunFive(t: Term, ps: seq<Piece>, t1: Term, t2: Term, t3: Term, t4: Term, t5: Term)
    requires |ps| == 5 && t1 == Step(t, ps[0]) && t2 == Step(t1, ps[1]) && t3 == Step(t2, ps[2])
    requires t4 == Step(t3, ps[3]) && t5 == Step(t4, ps[4])
    ensures Run(t, ps) == t5
  {
    assert ps[..0] == [];
    RunPrefix(t, ps, 1, t);
    RunPrefix(t, ps, 2, t1);
    RunPrefix(t, ps, 3, t2);
    RunPrefix(t, ps, 4, t3);
    RunPrefix(t, ps, 5, t4);
    assert ps[..5] == ps;
  }

  /** The pieces of text, command, text, command, text. */
  lemma {:induction false} FivePieces(a: Line, x: Line, b: Line, y: Line, c: Line) returns (ps: seq<Piece>)
    requires a != [] && b != [] && c != [] && ESC !in a && ESC !in b && ESC !in c
    requires IsCsi(x) && Final(x) != 'm' && IsCsi(y) && Final(y) != 'm'
    ensures ps == Tokenize(a + x + b + y + c) && |ps| == 5
    ensures ps[0] == Text(a) && ps[1] == Control(x, Decode(x)) && ps[2] == Text(b)
    ensures ps[3] == Control(y, Decode(y)) && ps[4] == Text(c)
  {
    var tail := ThreePieces(b, y, c);
    var r2 := b + (y + c);
    var r1 := x + r2;
    TokenizeLead(x, r2);
    var p1 := Tokenize(r1);
    assert p1 == [Control(x, Decode(x))] + tail;
    TokenizeTextLead(a, r1);
    Assoc5(a, x, b, y, c);
    ps := [Text(a)] + p1;
    assert ps == Tokenize(a + x + b + y + c);
    assert ps[1..] == p1 && p1[1..] == tail;
  }

  lemma {:induction false} Assoc5(a: Line, x: Line, b: Line, y: Line, c: Line)
    ensures a + x + b + y + c == a + (x + (b + (y + c)))
  {
  }

  /** The pieces of text, command, text; the line starts with a text run. */
  lemma {:induction false} ThreePieces(b: Line, y: Line, c: Line) returns (ps: seq<Piece>)
    requires b != [] && c != [] && ESC !in b && ESC !in c && IsCsi(y) && Final(y) != 'm'
    ensures ps == Tokenize(b + (y + c)) && ps == [Text(b), Control(y, Decode(y)), Text(c)]
    ensures ControlLen(b + (y + c)) == 0
  {
    PlainNoCommands(c);
    TokenizeOneRun(c);
    TokenizeLead(y, c);
    TokenizeTextLead(b, y + c);
    var s := b + (y + c);
    assert s[0] == b[0];
    ps := Tokenize(s);
  }

  /** Down two rows, then up two rows: text written after going down
      lands in a new row two below, padded to the column; text written after
      coming back continues the first row. */
  lemma {:induction false} UpDownLine(a: Line, down: Line, b: Line, up: Line, c: Line)
    requires a != [] && b != [] && c != []
    requires ESC !in a && ESC !in b && ESC !in c && NL !in a && NL !in b && NL !in c
    requires down == Encode(CursorDown(2)) && up == Encode(CursorUp(2))
    ensures Render(a + down + b + up + c + [NL]) == [Splice(a, c, |a| + |b|), [], Spaces(|a|) + b]
  {
    CommandSeq(CursorDown(2));
    CommandSeq(CursorUp(2));
    var line := a + down + b + up + c;
    assert NL !in line;
    RenderLine(line);
    var ps := FivePieces(a, down, b, up, c);
    UpDownRun(a, b, c, ps);
  }

  lemma {:induction false} UpDownRun(a: Line, b: Line, c: Line, ps: seq<Piece>)
    requires ESC !in a && ESC !in b && ESC !in c && |ps| == 5
    requires ps[0] == Text(a) && ps[1].Control? && ps[1].cmd == CursorDown(2) && ps[2] == Text(b)
    requires ps[3].Control? && ps[3].cmd == CursorUp(2) && ps[4] == Text(c)
    ensures Run(Blank, ps).screen == [Splice(a, c, |a| + |b|), [], Spaces(|a|) + b]
  {
    var t1 := Term(0, |a|, [a], []);
    WriteOnBlank(a, t1);
    var t2 := Term(2, |a|, [a], []);
    var s3 := [a, [], Spaces(|a|) + b];
    var k := |a| + |b|;
    var t3 := Term(2, k, s3, []);
    UpDownSecond(a, b, t2, s3, k);
    var t4 := Term(0, k, s3, []);
    var t5 := Term(0, k + |c|, [Splice(a, c, k), [], Spaces(|a|) + b], []);
    UpDownThird(a, b, c, t4, s3, k);
    RunFive(Blank, ps, t1, t2, t3, t4, t5);
  }

  /** Plain text written on the blank state is the first row. */
  lemma {:induction false} WriteOnBlank(a: Line, t1: Term)
    requires ESC !in a && t1 == Term(0, |a|, [a], [])
    ensures Write(Blank, a) == t1
  {
    WritePlain(Blank, a);
    OverwriteEmpty(a, 0);
    assert Spaces(0) + a == a;
  }

  lemma {:induction false} UpDownSecond(a: Line, b: Line, t2: Term, s3: seq<Line>, k: nat)
    requires ESC !in b && t2 == Term(2, |a|, [a], []) && s3 == [a, [], Spaces(|a|) + b] && k == |a| + |b|
    ensures Write(t2, b) == Term(2, k, s3, [])
  {
    WritePlain(t2, b);
    OverwriteEmpty(b, |a|);
  }

  lemma {:induction false} UpDownThird(a: Line, b: Line, c: Line, t4: Term, s3: seq<Line>, k: nat)
    requires ESC !in a && ESC !in c && t4 == Term(0, k, s3, []) && s3 == [a, [], Spaces(|a|) + b]
    ensures Write(t4, c) == Term(0, k + |c|, [Splice(a, c, k), [], Spaces(|a|) + b], [])
  {
    WritePlain(t4, c);
    OverwritePlain(a, c, k);
  }

  /** Splicing past the end of a plain line pads it with spaces first. */
  lemma {:induction false} SplicePastEnd(v: Line, t: Line, c: nat)
    requires |v| <= c
    ensures Splice(v, t, c) == v + Spaces(c - |v|) + t
  {
    var p := PadPlain(v, c);
    assert |p| == c;
    assert p[..c] == p && p[Min(c + |t|, c)..] == [];
  }

  lemma UpDownExample(one: Line, down: Line, two: Line, up: Line, three: Line)
    requires one == "one " && two == " two " && three == " three"
    requires down == "\U{1B}[2B" && up == "\U{1B}[2A"
    ensures Render(one + down + two + up + three + [NL]) == ["one       three", "", "     two "]
  {
    assert Digits(2) == "2";
    assert Encode(CursorDown(2)) == down && Encode(CursorUp(2)) == up;
    assert ESC !in one && ESC !in two && ESC !in three;
    UpDownLine(one, down, two, up, three);
    SplicePastEnd(one, three, 9);
    UpDownRows(one, two, three);
  }

  lemma UpDownRows(one: Line, two: Line, three: Line)
    requires one == "one " && two == " two " && three == " three"
    ensures one + Spaces(5) + three == "one       three" && Spaces(4) + two == "     two "
  {
    assert Spaces(5) == "     " && Spaces(4) == "    ";
  }

  /** Going to the top-left corner and writing: the text is the one row. */
  lemma {:induction false} HomeThenText(raw: Line, text: Line)
    requires IsCsi(raw) && Final(raw) != 'm' && Decode(raw) == CursorPosition(0, 0)
    requires text != [] && ESC !in text && NL !in text
    ensures Render(raw + text + [NL]) == [text]
  {
    CsiNoNewline(raw);
    RenderLine(raw + text);
    var ps := HomePieces(raw, text);
    var t1 := Term(0, |text|, [text], []);
    WriteOnBlank(text, t1);
    Scenarios.RunTwo(Blank, ps);
  }

  /** The pieces of a command followed by plain text. */
  lemma {:induction false} HomePieces(raw: Line, text: Line) returns (ps: seq<Piece>)
    requires IsCsi(raw) && Final(raw) != 'm' && Decode(raw) == CursorPosition(0, 0)
    requires text != [] && ESC !in text
    ensures ps == Tokenize(raw + text) && ps == [Control(raw, CursorPosition(0, 0)), Text(text)]
  {
    TokenizeLead(raw, text);
    PlainNoCommands(text);
    TokenizeOneRun(text);
    ps := Tokenize(raw + text);
  }

  /** `ESC[0;0H`, `ESC[;1H` and `ESC[1H` all go to the top-left corner. */
  lemma CursorPositionExample(zeros: Line, noRow: Line, rowOnly: Line, one: Line)
    requires zeros == "\U{1B}[0;0H" && noRow == "\U{1B}[;1H" && rowOnly == "\U{1B}[1H" && one == "one"
    ensures Render(zeros + one + [NL]) == [one]
    ensures Render(noRow + one + [NL]) == [one]
    ensures Render(rowOnly + one + [NL]) == [one]
  {
    HomeZerosExample(zeros, one);
    HomeNoRowExample(noRow, one);
    HomeRowOnlyExample(rowOnly, one);
  }

  lemma HomeZerosExample(zeros: Line, one: Line)
    requires zeros == "\U{1B}[0;0H" && one == "one"
    ensures Render(zeros + one + [NL]) == [one]
  {
    var zero: Line := "0";
    var params := zero + [';'] + zero;
    DecodeHomeZeros(params, zero);
    assert zeros == Csi(params, 'H');
    HomeCsiThenText(params, zeros, one);
  }

  lemma HomeNoRowExample(noRow: Line, one: Line)
    requires noRow == "\U{1B}[;1H" && one == "one"
    ensures Render(noRow + one + [NL]) == [one]
  {
    var none: Line := [];
    var first: Line := "1";
    var params := none + [';'] + first;
    DecodeHomeNoRow(params, none, first);
    assert noRow == Csi(params, 'H');
    HomeCsiThenText(params, noRow, one);
  }

  lemma HomeRowOnlyExample(rowOnly: Line, one: Line)
    requires rowOnly == "\U{1B}[1H" && one == "one"
    ensures Render(rowOnly + one + [NL]) == [one]
  {
    var params: Line := "1";
    DecodeHomeRowOnly(params);
    assert rowOnly == Csi(params, 'H');
    HomeCsiThenText(params, rowOnly, one);
  }

  /** A `H` sequence that decodes to the top-left corner, then `one`. */
  lemma {:induction false} HomeCsiThenText(params: Line, raw: Line, one: Line)
    requires raw == Csi(params, 'H') && IsCsi(raw) && Decode(raw) == CursorPosition(0, 0)
    requires one == "one"
    ensures Render(raw + one + [NL]) == [one]
  {
    assert ESC !in one && NL !in one;
    assert Final(raw) == raw[|raw| - 1] == 'H';
    HomeThenText(raw, one);
  }

  /** A line that holds one command and nothing else adds no row to an
      empty screen, whatever the command. */
  lemma {:induction false} CommandOnly(raw: Line)
    requires IsCsi(raw) && Final(raw) != 'm'
    ensures Render(raw + [NL]) == []
  {
    CsiNoNewline(raw);
    RenderLine(raw);
    TokenizeLead(raw, []);
    assert raw + [] == raw;
    var ps := Tokenize(raw);
    assert ps == [Control(raw, Decode(raw))];
    assert ps[..0] == [];
    RunPrefix(Blank, ps, 1, Blank);
    assert ps[..1] == ps;
    ApplyNeverGrows(Blank, Decode(raw));
  }

  /** An empty line adds no row. */
  lemma {:induction false} EmptyLine(nl: Line)
    requires nl == [NL]
    ensures Render(nl) == []
  {
    assert nl == [] + [NL];
    RenderLine([]);
  }

  /** Text, then an EL command: the one row is the text erased from the
      cursor column, which is the end of the text. */
  lemma {:induction false} TextThenErase(text: Line, raw: Line, mode: nat)
    requires text != [] && ESC !in text && NL !in text
    requires IsCsi(raw) && Final(raw) != 'm' && Decode(raw) == EraseInLine(mode)
    ensures Render(text + raw + [NL]) == [ClearLine(text, |text|, mode)]
  {
    CsiNoNewline(raw);
    RenderLine(text + raw);
    var ps := TextCommandPieces(text, raw);
    EraseAfterText(text, mode, ps);
  }

  /** The pieces of text followed by a command. */
  lemma {:induction false} TextCommandPieces(text: Line, raw: Line) returns (ps: seq<Piece>)
    requires text != [] && ESC !in text && IsCsi(raw) && Final(raw) != 'm'
    ensures ps == Tokenize(text + raw) && ps == [Text(text), Control(raw, Decode(raw))]
  {
    TokenizeLead(raw, []);
    assert raw + [] == raw;
    TokenizeTextLead(text, raw);
    ps := Tokenize(text + raw);
  }

  lemma {:induction false} EraseAfterText(text: Line, mode: nat, ps: seq<Piece>)
    requires ESC !in text && |ps| == 2 && ps[0] == Text(text) && ps[1].Control? && ps[1].cmd == EraseInLine(mode)
    ensures Run(Blank, ps).screen == [ClearLine(text, |text|, mode)]
  {
    var t1 := Term(0, |text|, [text], []);
    WriteOnBlank(text, t1);
    Scenarios.RunTwo(Blank, ps);
    EraseLineShape([text], 0, |text|, mode);
  }

  /** EL 1 at the end of plain text blanks all of it; EL 2 empties it. */
  lemma {:induction false} ClearWholeText(text: Line)
    requires ESC !in text
    ensures ClearLine(text, |text|, 1) == Spaces(|text|) && ClearLine(text, |text|, 2) == []
  {
    ColumnIndexPlain(text, |text|);
    assert text[|text|..] == [];
  }

  /** The EL command with one numeric parameter. */
  lemma {:induction false} DecodeErase(raw: Line, digit: Line, n: nat)
    requires |digit| == 1 && '0' <= digit[0] <= '9' && n == (digit[0] - '0') as nat
    requires raw == Csi(digit, 'K')
    ensures IsCsi(raw) && Final(raw) == 'K' && Decode(raw) == EraseInLine(n)
  {
    assert Number(digit) == n;
    DecodeCsi(digit, 'K');
    FieldsOfDigits(digit);
    assert Final(raw) == raw[|raw| - 1];
  }

  /** Each input of the erase-in-line test leaves nothing but spaces:
      `Hi ` erased up to the cursor is three blanks, `Yo ` erased whole is
      empty, and a line with only an erase command adds no row. */
  lemma EraseInLineAllExample(hi: Line, el1: Line, yo: Line, el2: Line)
    requires hi == "Hi " && el1 == "\U{1B}[1K" && yo == "Yo " && el2 == "\U{1B}[2K"
    ensures Render(hi + el1 + [NL]) == ["   "]
    ensures Render(yo + el2 + [NL]) == [""]
  {
    EraseStartExample(hi, el1);
    EraseWholeExample(yo, el2);
  }

  lemma {:induction false} EraseStartExample(hi: Line, el1: Line)
    requires hi == "Hi " && el1 == "\U{1B}[1K"
    ensures Render(hi + el1 + [NL]) == ["   "]
  {
    assert ESC !in hi && NL !in hi;
    DecodeErase(el1, "1", 1);
    TextThenErase(hi, el1, 1);
    ClearWholeText(hi);
    assert Spaces(3) == "   ";
  }

  lemma {:induction false} EraseWholeExample(yo: Line, el2: Line)
    requires yo == "Yo " && el2 == "\U{1B}[2K"
    ensures Render(yo + el2 + [NL]) == [""]
  {
    assert ESC !in yo && NL !in yo;
    DecodeErase(el2, "2", 2);
    TextThenErase(yo, el2, 2);
    ClearWholeText(yo);
  }


  lemma EraseOnlyExample(nl: Line, el1: Line, el2: Line, el0: Line, bare: Line)
    requires nl == "\n" && el1 == "\U{1B}[1K" && el2 == "\U{1B}[2K" && el0 == "\U{1B}[0K" && bare == "\U{1B}[K"
    ensures Render(nl) == []
    ensures Render(el1 + nl) == [] && Render(el2 + nl) == []
    ensures Render(el0 + nl) == [] && Render(bare + nl) == []
  {
    EmptyLine(nl);
    assert IsCsi(el1) && Final(el1) == 'K';
    assert IsCsi(el2) && Final(el2) == 'K';
    assert IsCsi(el0) && Final(el0) == 'K';
    assert IsCsi(bare) && Final(bare) == 'K';
    CommandOnly(el1);
    CommandOnly(el2);
    CommandOnly(el0);
    CommandOnly(bare);
  }

  /** ED 0 and ED 1 on an empty screen leave it empty. */
  lemma EraseInDisplayEmptyExample(ed0: Line, ed1: Line)
    requires ed0 == "\U{1B}[0J" && ed1 == "\U{1B}[1J"
    ensures Render(ed0 + [NL]) == [] && Render(ed1 + [NL]) == []
  {
    assert IsCsi(ed0) && Final(ed0) == 'J';
    assert IsCsi(ed1) && Final(ed1) == 'J';
    CommandOnly(ed0);
    CommandOnly(ed1);
  }

  /** Writing plain text into a row that is empty or missing: the row
      becomes `col` blanks and the text, and every other row is kept or
      added empty. */
  lemma {:induction false} PlaceOnEmptyRow(screen: seq<Line>, text: Line, col: nat, row: nat, result: seq<Line>)
    requires row < |screen| ==> screen[row] == []
    requires |result| == Max(|screen|, row + 1) && result[row] == Spaces(col) + text
    requires forall i :: 0 <= i < |result| && i != row ==> result[i] == if i < |screen| then screen[i] else []
    ensures Print(screen, text, col, row) == result
  {
    OverwriteEmpty(text, col);
  }

  /** Writing plain text into an existing plain row splices it in. */
  lemma {:induction false} PlaceInRow(screen: seq<Line>, text: Line, col: nat, row: nat)
    requires row < |screen| && ESC !in screen[row] && ESC !in text
    ensures Print(screen, text, col, row) == screen[row := Splice(screen[row], text, col)]
  {
    OverwritePlain(screen[row], text, col);
  }

  /** A cursor position, then plain text, with no style active: the text
      is written at that position. */
  lemma {:induction false} CupThenText(t: Term, raw: Line, r: nat, c: nat, o: Line, rest: seq<Piece>, rows: seq<Line>)
    requires t.style == [] && ESC !in o && rows == Print(t.screen, o, c, r)
    ensures Run(t, [Control(raw, CursorPosition(r, c))] + ([Text(o)] + rest)) == Run(Term(r, c + |o|, rows, []), rest)
  {
    var t1 := Term(r, c, t.screen, []);
    var p := Control(raw, CursorPosition(r, c));
    CupStep(t, p, r, c, t1);
    RunCons(t, p, [Text(o)] + rest);
    RunCons(t1, Text(o), rest);
    WritePlainAt(t1, o, Term(r, c + |o|, rows, []));
  }

  lemma {:induction false} CupStep(t: Term, p: Piece, r: nat, c: nat, t1: Term)
    requires p.Control? && p.cmd == CursorPosition(r, c) && t.style == [] && t1 == Term(r, c, t.screen, [])
    ensures Step(t, p) == t1
  {
  }

  lemma {:induction false} WritePlainAt(t: Term, o: Line, u: Term)
    requires t.style == [] && ESC !in o && u == Term(t.row, t.col + |o|, Print(t.screen, o, t.col, t.row), [])
    ensures Step(t, Text(o)) == u
  {
    WritePlain(t, o);
  }

  /** The pieces of three cursor positions, each followed by the same text. */
  lemma {:induction false} PlacePieces(a: Line, b: Line, c: Line, o: Line, line: Line)
    requires IsCsi(a) && Final(a) != 'm' && IsCsi(b) && Final(b) != 'm' && IsCsi(c) && Final(c) != 'm'
    requires o != [] && ESC !in o && line == a + (o + (b + (o + (c + o))))
    ensures Tokenize(line) == [Control(a, Decode(a))] + ([Text(o)] + ([Control(b, Decode(b))] + ([Text(o)] + ([Control(c, Decode(c))] + ([Text(o)] + [])))))
  {
    PlainNoCommands(o);
    TokenizeOneRun(o);
    TokenizeLead(c, o);
    TokenizeTextLead(o, c + o);
    TokenizeLead(b, o + (c + o));
    TokenizeTextLead(o, b + (o + (c + o)));
    TokenizeLead(a, o + (b + (o + (c + o))));
    assert [Text(o)] + [] == [Text(o)];
  }

  /** Three cursor positions into rows 4, 3 and 2 (1-based) of an empty
      screen, each followed by the same text at column 2: the first row is
      left empty and the three others hold a blank and the text. */
  lemma {:induction false} PlaceUpwards(a: Line, b: Line, c: Line, o: Line)
    requires a == Encode(CursorPosition(3, 1)) && b == Encode(CursorPosition(2, 1)) && c == Encode(CursorPosition(1, 1))
    requires o != [] && ESC !in o && NL !in o
    ensures Render(a + (o + (b + (o + (c + o)))) + [NL]) == [[], Spaces(1) + o, Spaces(1) + o, Spaces(1) + o]
  {
    CommandSeq(CursorPosition(3, 1));
    CommandSeq(CursorPosition(2, 1));
    CommandSeq(CursorPosition(1, 1));
    var line := a + (o + (b + (o + (c + o))));
    assert NL !in line;
    RenderLine(line);
    PlacePieces(a, b, c, o, line);
    PlaceRun(a, b, c, o, Tokenize(line));
  }

  lemma {:induction false} PlaceRun(a: Line, b: Line, c: Line, o: Line, ps: seq<Piece>)
    requires ESC !in o
    requires ps == [Control(a, CursorPosition(3, 1))] + ([Text(o)] + ([Control(b, CursorPosition(2, 1))] + ([Text(o)] + ([Control(c, CursorPosition(1, 1))] + ([Text(o)] + [])))))
    ensures Run(Blank, ps).screen == [[], Spaces(1) + o, Spaces(1) + o, Spaces(1) + o]
  {
    var row := Spaces(1) + o;
    var s1 := [[], [], [], row];
    var s2 := [[], [], row, row];
    var s3 := [[], row, row, row];
    UpwardsRows(o, row, s1, s2, s3);
    var t2 := Term(3, 1 + |o|, s1, []);
    var t4 := Term(2, 1 + |o|, s2, []);
    var tail := [Control(c, CursorPosition(1, 1))] + ([Text(o)] + []);
    CupThenText(t4, c, 1, 1, o, [], s3);
    CupThenText(t2, b, 2, 1, o, tail, s2);
    CupThenText(Blank, a, 3, 1, o, [Control(b, CursorPosition(2, 1))] + ([Text(o)] + tail), s1);
  }

  /** The screens after printing the same text at column 1 of rows 3, 2
      and 1 in turn. */
  lemma {:induction false} UpwardsRows(o: Line, row: Line, s1: seq<Line>, s2: seq<Line>, s3: seq<Line>)
    requires row == Spaces(1) + o && s1 == [[], [], [], row] && s2 == [[], [], row, row] && s3 == [[], row, row, row]
    ensures Print([], o, 1, 3) == s1 && Print(s1, o, 1, 2) == s2 && Print(s2, o, 1, 1) == s3
  {
    PlaceOnEmptyRow([], o, 1, 3, s1);
    PlaceOnEmptyRow(s1, o, 1, 2, s2);
    PlaceOnEmptyRow(s2, o, 1, 1, s3);
  }

  /** `ESC[4;2Ho ESC[3;2Ho ESC[2;2Ho` renders as an empty row and three rows ` o`. */
  lemma CursorPosition2Example(a: Line, b: Line, c: Line, o: Line)
    requires a == "\U{1B}[4;2H" && b == "\U{1B}[3;2H" && c == "\U{1B}[2;2H" && o == "o"
    ensures Render(a + (o + (b + (o + (c + o)))) + [NL]) == ["", " o", " o", " o"]
  {
    assert Digits(4) == "4" && Digits(3) == "3" && Digits(2) == "2";
    assert Encode(CursorPosition(3, 1)) == a && Encode(CursorPosition(2, 1)) == b && Encode(CursorPosition(1, 1)) == c;
    PlaceUpwards(a, b, c, o);
    assert Spaces(1) + o == " o";
  }

  /** Three rows of text below an empty first row, then, on the last
      row, a cursor position back into the third row (1-based) past the
      end of its text: the text written there is spliced in after padding,
      and the last row keeps its own text. */
  lemma {:induction false} PrintIntoRowAbove(o: Line, cup: Line, z: Line)
    requires cup == Encode(CursorPosition(2, 3))
    requires o != [] && ESC !in o && NL !in o && |o| <= 3
    requires z != [] && ESC !in z && NL !in z
    ensures Render([NL] + (o + ([NL] + (o + ([NL] + (o + (cup + (z + [NL])))))))) == [[], o, o + Spaces(3 - |o|) + z, o]
  {
    CommandSeq(CursorPosition(2, 3));
    var c0 := Chunk([], true);
    var c1 := Chunk(o, true);
    var c3 := Chunk(o + (cup + z), true);
    var cs := [c0, c1, c1, c3];
    var input := [NL] + (o + ([NL] + (o + ([NL] + (o + (cup + (z + [NL])))))));
    RowsChunks(o, cup, z, cs, input);
    JoinSplit(cs);
    RowsFeed(o, cup, z, cs);
  }

  lemma {:induction false} RowsFeed(o: Line, cup: Line, z: Line, cs: seq<Chunk>)
    requires IsCsi(cup) && Final(cup) != 'm' && Decode(cup) == CursorPosition(2, 3)
    requires o != [] && ESC !in o && |o| <= 3 && z != [] && ESC !in z
    requires cs == [Chunk([], true), Chunk(o, true), Chunk(o, true), Chunk(o + (cup + z), true)]
    ensures FeedAll(Blank, cs).screen == [[], o, o + Spaces(3 - |o|) + z, o]
  {
    var f1 := Term(1, 0, [], []);
    var f2 := Term(2, 0, [[], o], []);
    var f3 := Term(3, 0, [[], o, o], []);
    var f4 := Term(3, 0, [[], o, o + Spaces(3 - |o|) + z, o], []);
    assert FeedChunk(Blank, cs[0]) == f1;
    RowsSecond(o, f1, f2);
    RowsThird(o, f2, f3);
    FeedPrintAbove(o, cup, z, f3, f4);
    FeedFour(Blank, cs, f1, f2, f3, f4);
  }

  lemma {:induction false} RowsSecond(o: Line, f1: Term, f2: Term)
    requires o != [] && ESC !in o && f1 == Term(1, 0, [], []) && f2 == Term(2, 0, [[], o], [])
    ensures FeedChunk(f1, Chunk(o, true)) == f2
  {
    PlaceOnEmptyRow([], o, 0, 1, [[], o]);
    FeedPlainRow(f1, o, [[], o], f2);
  }

  lemma {:induction false} RowsThird(o: Line, f2: Term, f3: Term)
    requires o != [] && ESC !in o && f2 == Term(2, 0, [[], o], []) && f3 == Term(3, 0, [[], o, o], [])
    ensures FeedChunk(f2, Chunk(o, true)) == f3
  {
    PlaceOnEmptyRow([[], o], o, 0, 2, [[], o, o]);
    FeedPlainRow(f2, o, [[], o, o], f3);
  }

  /** The chunks of the input of `PrintIntoRowAbove`. */
  lemma {:induction false} RowsChunks(o: Line, cup: Line, z: Line, cs: seq<Chunk>, input: Line)
    requires NL !in o && NL !in cup && NL !in z
    requires cs == [Chunk([], true), Chunk(o, true), Chunk(o, true), Chunk(o + (cup + z), true)]
    requires input == [NL] + (o + ([NL] + (o + ([NL] + (o + (cup + (z + [NL])))))))
    ensures ChunksOk(cs) && JoinChunks(cs) == input
  {
    var last := o + (cup + z);
    assert NL !in last;
    var l3 := [Chunk(last, true)];
    assert JoinChunks([]) == [];
    ChunkCons(Chunk(last, true), []);
    assert [Chunk(last, true)] + [] == l3;
    var l2 := [Chunk(o, true)] + l3;
    ChunkCons(Chunk(o, true), l3);
    var l1 := [Chunk(o, true)] + l2;
    ChunkCons(Chunk(o, true), l2);
    ChunkCons(Chunk([], true), l1);
    assert cs == [Chunk([], true)] + l1;
  }

  /** Four chunks taken in order, through the states they pass. */
  lemma {:induction false} FeedFour(t: Term, cs: seq<Chunk>, f1: Term, f2: Term, f3: Term, f4: Term)
    requires |cs| == 4 && f1 == FeedChunk(t, cs[0]) && f2 == FeedChunk(f1, cs[1])
    requires f3 == FeedChunk(f2, cs[2]) && f4 == FeedChunk(f3, cs[3])
    ensures FeedAll(t, cs) == f4
  {
    assert cs[..0] == [];
    FeedPrefix(t, cs, 1, t);
    FeedPrefix(t, cs, 2, f1);
    FeedPrefix(t, cs, 3, f2);
    FeedPrefix(t, cs, 4, f3);
    assert cs[..4] == cs;
  }

  /** The state after the first `k` chunks: the state after `k - 1` of
      them, then one more chunk. */
  lemma {:induction false} FeedPrefix(t: Term, cs: seq<Chunk>, k: nat, before: Term)
    requires 0 < k <= |cs| && before == FeedAll(t, cs[..k - 1])
    ensures FeedAll(t, cs[..k]) == FeedChunk(before, cs[k - 1])
  {
    assert cs[..k][..k - 1] == cs[..k - 1];
  }

  /** A line of plain text with no style active: written at the cursor,
      then the cursor moves to the start of the next row. */
  lemma {:induction false} FeedPlainRow(t: Term, o: Line, rows: seq<Line>, u: Term)
    requires t.style == [] && o != [] && ESC !in o
    requires rows == Print(t.screen, o, t.col, t.row) && u == Term(t.row + 1, 0, rows, [])
    ensures FeedChunk(t, Chunk(o, true)) == u
  {
    PlainNoCommands(o);
    TokenizeOneRun(o);
    assert [Text(o)][..0] == [];
    RunPrefix(t, [Text(o)], 1, t);
    assert [Text(o)][..1] == [Text(o)];
    WritePlainAt(t, o, Term(t.row, t.col + |o|, rows, []));
  }

  /** The last line of `PrintIntoRowAbove`: text in a new row, a cursor
      position into the row above, text there, and the newline. */
  lemma {:induction false} FeedPrintAbove(o: Line, cup: Line, z: Line, f3: Term, f4: Term)
    requires IsCsi(cup) && Final(cup) != 'm' && Decode(cup) == CursorPosition(2, 3)
    requires o != [] && ESC !in o && |o| <= 3 && z != [] && ESC !in z
    requires f3 == Term(3, 0, [[], o, o], []) && f4 == Term(3, 0, [[], o, o + Spaces(3 - |o|) + z, o], [])
    ensures FeedChunk(f3, Chunk(o + (cup + z), true)) == f4
  {
    var ps := ThreePieces(o, cup, z);
    var t3 := Term(2, 3 + |z|, f4.screen, []);
    RunPrintAbove(o, cup, z, ps, f3, t3);
    var c := Chunk(o + (cup + z), true);
    FeedVia(f3, c, ps, t3);
    assert NewLine(t3) == f4;
  }

  /** A newline-terminated chunk whose pieces lead to `u`: the cursor then
      moves to the start of the next row. */
  lemma {:induction false} FeedVia(t: Term, c: Chunk, ps: seq<Piece>, u: Term)
    requires c.newline && ps == Tokenize(c.text) && Run(t, ps) == u
    ensures FeedChunk(t, c) == NewLine(u)
  {
  }

  lemma {:induction false} RunPrintAbove(o: Line, cup: Line, z: Line, ps: seq<Piece>, f3: Term, t3: Term)
    requires ps == [Text(o), Control(cup, CursorPosition(2, 3)), Text(z)]
    requires ESC !in o && |o| <= 3 && ESC !in z
    requires f3 == Term(3, 0, [[], o, o], []) && t3 == Term(2, 3 + |z|, [[], o, o + Spaces(3 - |o|) + z, o], [])
    ensures Run(f3, ps) == t3
  {
    var s1 := [[], o, o, o];
    var t1 := Term(3, |o|, s1, []);
    var t2 := Term(2, 3, s1, []);
    AboveFirst(o, f3, t1);
    AboveLast(o, z, t2, t3);
    RunThree(f3, ps, t1, t2, t3);
  }

  lemma {:induction false} AboveFirst(o: Line, f3: Term, t1: Term)
    requires ESC !in o && f3 == Term(3, 0, [[], o, o], []) && t1 == Term(3, |o|, [[], o, o, o], [])
    ensures Step(f3, Text(o)) == t1
  {
    PlaceOnEmptyRow(f3.screen, o, 0, 3, t1.screen);
    WritePlainAt(f3, o, t1);
  }

  lemma {:induction false} AboveLast(o: Line, z: Line, t2: Term, t3: Term)
    requires ESC !in o && |o| <= 3 && ESC !in z
    requires t2 == Term(2, 3, [[], o, o, o], []) && t3 == Term(2, 3 + |z|, [[], o, o + Spaces(3 - |o|) + z, o], [])
    ensures Step(t2, Text(z)) == t3
  {
    PlaceInRow(t2.screen, z, 3, 2);
    SplicePastEnd(o, z, 3);
    assert t2.screen[2 := o + Spaces(3 - |o|) + z] == t3.screen;
    WritePlainAt(t2, z, t3);
  }

  /** Three pieces taken in order, through the states they pass. */
  lemma {:induction false} RunThree(t: Term, ps: seq<Piece>, t1: Term, t2: Term, t3: Term)
    requires |ps| == 3 && t1 == Step(t, ps[0]) && t2 == Step(t1, ps[1]) && t3 == Step(t2, ps[2])
    ensures Run(t, ps) == t3
  {
    assert ps[..0] == [];
    RunPrefix(t, ps, 1, t);
    RunPrefix(t, ps, 2, t1);
    RunPrefix(t, ps, 3, t2);
    assert ps[..3] == ps;
  }

  /** `\n o\n o\n o ESC[3;4Hz\n` renders as an empty row, ` o`, ` o z` and ` o`. */
  lemma CursorPositionAndPrintExample(o: Line, cup: Line, z: Line)
    requires o == " o" && cup == "\U{1B}[3;4H" && z == "z"
    ensures Render([NL] + (o + ([NL] + (o + ([NL] + (o + (cup + (z + [NL])))))))) == ["", " o", " o z", " o"]
  {
    assert Digits(3) == "3" && Digits(4) == "4";
    assert Encode(CursorPosition(2, 3)) == cup;
    PrintIntoRowAbove(o, cup, z);
    assert o + Spaces(1) + z == " o z";
  }

  /** A plain first line, then a second line: the second line is fed on
      the row below the first. */
  lemma {:induction false} AfterFirstLine(first: Line, second: Line)
    requires first != [] && ESC !in first && NL !in first && NL !in second
    ensures Render(first + [NL] + second + [NL]) == Run(Term(1, 0, [first], []), Tokenize(second)).screen
  {
    var c1, c2 := Chunk(first, true), Chunk(second, true);
    var cs := [c1, c2];
    JoinPair(c1, c2);
    assert Unchunk(c1) + Unchunk(c2) == first + [NL] + second + [NL];
    assert ChunksOk(cs);
    JoinSplit(cs);
    Scenarios.FirstLine(c1, first);
    assert cs[..1] == [c1];
  }

  /** Text, one row down, text: the second text starts a new row, padded
      to the column the first text reached. */
  lemma {:induction false} DownLine(a: Line, down: Line, b: Line)
    requires a != [] && b != [] && ESC !in a && ESC !in b && NL !in a && NL !in b
    requires down == Csi([], 'B')
    ensures Render(a + (down + b) + [NL]) == [a, Spaces(|a|) + b]
  {
    DecodeBare('B');
    CsiParts([], 'B');
    CsiNoNewline(down);
    var line := a + (down + b);
    assert NL !in line;
    RenderLine(line);
    var ps := ThreePieces(a, down, b);
    DownRun(a, down, b, ps);
  }

  lemma {:induction false} DownRun(a: Line, down: Line, b: Line, ps: seq<Piece>)
    requires ESC !in a && ESC !in b && ps == [Text(a), Control(down, CursorDown(1)), Text(b)]
    ensures Run(Blank, ps).screen == [a, Spaces(|a|) + b]
  {
    var t1 := Term(0, |a|, [a], []);
    WriteOnBlank(a, t1);
    var t2 := Term(1, |a|, [a], []);
    var rows := [a, Spaces(|a|) + b];
    PlaceOnEmptyRow([a], b, |a|, 1, rows);
    var t3 := Term(1, |a| + |b|, rows, []);
    WritePlainAt(t2, b, t3);
    RunThree(Blank, ps, t1, t2, t3);
  }

  /** `hello ESC[B hi` renders as `hello` and `     hi`. */
  lemma DownCapture(hello: Line, down: Line, hi: Line)
    requires hello == "hello" && down == "\U{1B}[B" && hi == "hi"
    ensures Render(hello + (down + hi) + [NL]) == ["hello", "     hi"]
  {
    assert down == Csi([], 'B');
    DownLine(hello, down, hi);
    assert Spaces(5) + hi == "     hi";
  }

  /** Right `n` columns, text, back `k` columns, text: the first text is
      written behind `n` blanks and the second is spliced in `k` columns
      before the end of the first. */
  lemma {:induction false} RightLeftLine(right: Line, w: Line, left: Line, h: Line, n: nat, k: nat)
    requires w != [] && h != [] && ESC !in w && ESC !in h && NL !in w && NL !in h
    requires n >= 1 && k >= 1 && k <= n + |w|
    requires right == Encode(CursorForward(n)) && left == Encode(CursorBack(k))
    ensures Render(right + (w + (left + h)) + [NL]) == [Splice(Spaces(n) + w, h, n + |w| - k)]
  {
    CommandSeq(CursorForward(n));
    CommandSeq(CursorBack(k));
    RightLeftCore(right, w, left, h, n, k);
  }

  lemma {:induction false} RightLeftCore(right: Line, w: Line, left: Line, h: Line, n: nat, k: nat)
    requires w != [] && h != [] && ESC !in w && ESC !in h && NL !in w && NL !in h && k <= n + |w|
    requires IsCsi(right) && Final(right) != 'm' && Decode(right) == CursorForward(n) && NL !in right
    requires IsCsi(left) && Final(left) != 'm' && Decode(left) == CursorBack(k) && NL !in left
    ensures Render(right + (w + (left + h)) + [NL]) == [Splice(Spaces(n) + w, h, n + |w| - k)]
  {
    var line := right + (w + (left + h));
    assert NL !in line;
    RenderLine(line);
    var tail := ThreePieces(w, left, h);
    TokenizeLead(right, w + (left + h));
    var p := Control(right, CursorForward(n));
    assert Tokenize(line) == [p] + tail;
    RunCons(Blank, p, tail);
    ForwardFromBlank(right, n);
    RightLeftRun(w, left, h, n, k, tail);
  }

  lemma {:induction false} ForwardFromBlank(raw: Line, n: nat)
    ensures Step(Blank, Control(raw, CursorForward(n))) == Term(0, n, [], [])
  {
  }

  lemma {:induction false} RightLeftRun(w: Line, left: Line, h: Line, n: nat, k: nat, tail: seq<Piece>)
    requires ESC !in w && ESC !in h && k <= n + |w|
    requires tail == [Text(w), Control(left, CursorBack(k)), Text(h)]
    ensures Run(Term(0, n, [], []), tail).screen == [Splice(Spaces(n) + w, h, n + |w| - k)]
  {
    var row := Spaces(n) + w;
    var t0 := Term(0, n, [], []);
    var t1 := Term(0, n + |w|, [row], []);
    BehindBlanks(w, n, t1);
    var c := n + |w| - k;
    var t2 := Term(0, c, [row], []);
    assert Step(t1, tail[1]) == t2;
    var t3 := Term(0, c + |h|, [Splice(row, h, c)], []);
    SpliceStep(row, h, c, t3);
    RunThree(t0, tail, t1, t2, t3);
  }

  lemma {:induction false} BehindBlanks(w: Line, n: nat, t1: Term)
    requires ESC !in w && t1 == Term(0, n + |w|, [Spaces(n) + w], [])
    ensures Step(Term(0, n, [], []), Text(w)) == t1
  {
    PlaceOnEmptyRow([], w, n, 0, [Spaces(n) + w]);
    WritePlainAt(Term(0, n, [], []), w, t1);
  }

  lemma {:induction false} SpliceStep(row: Line, h: Line, c: nat, t3: Term)
    requires ESC !in row && ESC !in h && t3 == Term(0, c + |h|, [Splice(row, h, c)], [])
    ensures Step(Term(0, c, [row], []), Text(h)) == t3
  {
    PlaceInRow([row], h, c, 0);
    assert [row][0 := Splice(row, h, c)] == [Splice(row, h, c)];
    WritePlainAt(Term(0, c, [row], []), h, t3);
  }

  /** `ESC[10C world ESC[14D hello,` renders as `    hello, world `. */
  lemma LeftRightCapture(right: Line, world: Line, left: Line, hello: Line)
    requires right == "\U{1B}[10C" && world == " world " && left == "\U{1B}[14D" && hello == " hello,"
    ensures Render(right + (world + (left + hello)) + [NL]) == ["    hello, world "]
  {
    LeftRightCodes(right, left);
    RightLeftLine(right, world, left, hello, 10, 14);
    LeftSplice(world, hello);
  }

  lemma LeftRightCodes(right: Line, left: Line)
    requires right == "\U{1B}[10C" && left == "\U{1B}[14D"
    ensures Encode(CursorForward(10)) == right && Encode(CursorBack(14)) == left
  {
    assert Digits(10) == "10" && Digits(14) == "14";
  }

  /** Splicing ` hello,` three columns into ten blanks and ` world `. */
  lemma LeftSplice(world: Line, hello: Line)
    requires world == " world " && hello == " hello,"
    ensures Splice(Spaces(10) + world, hello, 3) == "    hello, world "
  {
    var line := Spaces(10) + world;
    var sp := Spaces(10);
    assert line[..3] == sp[..3] && line[10..] == world;
    assert PadPlain(line, 3) == line;
    assert sp[..3] == "   ";
    var res := line[..3] + hello + line[10..];
    assert Splice(line, hello, 3) == res;
    Scenarios.LeftResult("   ", hello, world);
  }

  /** Text, EL 1, text: the first text is blanked and the second follows
      the blanks. */
  lemma {:induction false} EraseStartLine(a: Line, el: Line, b: Line)
    requires a != [] && b != [] && ESC !in a && ESC !in b && NL !in a && NL !in b
    requires el == Encode(EraseInLine(1))
    ensures Render(a + (el + b) + [NL]) == [Spaces(|a|) + b]
  {
    CommandSeq(EraseInLine(1));
    var line := a + (el + b);
    assert NL !in line;
    RenderLine(line);
    var ps := ThreePieces(a, el, b);
    var t1 := Term(0, |a|, [a], []);
    WriteOnBlank(a, t1);
    var t2 := Apply(t1, EraseInLine(1));
    var t3 := Write(t2, b);
    Scenarios.EraseStartThenWrite(a, b, |a|);
    RunThree(Blank, ps, t1, t2, t3);
  }

  /** `Hello, ESC[1K world!` renders as seven blanks and ` world!`. */
  lemma EraseInLineCapture(hello: Line, el: Line, world: Line)
    requires hello == "Hello, " && el == "\U{1B}[1K" && world == " world!"
    ensures Render(hello + (el + world) + [NL]) == ["        world!"]
  {
    assert Digits(1) == "1";
    assert Encode(EraseInLine(1)) == el;
    EraseStartLine(hello, el, world);
    Scenarios.SevenSpaces(world);
  }

  /** Text, a cursor position in the same row, EL: the row is cut at the
      column of the cursor. */
  lemma {:induction false} CutAtPosition(a: Line, cup: Line, el: Line, c: nat)
    requires a != [] && ESC !in a && NL !in a && c <= |a|
    requires cup == Encode(CursorPosition(0, c)) && el == Csi([], 'K')
    ensures Render(a + (cup + el) + [NL]) == [a[..c]]
  {
    CommandSeq(CursorPosition(0, c));
    DecodeBare('K');
    CsiParts([], 'K');
    CsiNoNewline(el);
    CutCore(a, cup, el, c);
  }

  lemma {:induction false} CutCore(a: Line, cup: Line, el: Line, c: nat)
    requires a != [] && ESC !in a && NL !in a && c <= |a|
    requires IsCsi(cup) && Final(cup) != 'm' && Decode(cup) == CursorPosition(0, c) && NL !in cup
    requires IsCsi(el) && Final(el) != 'm' && Decode(el) == EraseInLine(0) && NL !in el
    ensures Render(a + (cup + el) + [NL]) == [a[..c]]
  {
    var line := a + (cup + el);
    assert NL !in line;
    RenderLine(line);
    var ps := CutPieces(a, cup, el, c, line);
    CutRun(a, c, ps);
  }

  lemma {:induction false} CutRun(a: Line, c: nat, ps: seq<Piece>)
    requires ESC !in a && c <= |a| && |ps| == 3 && ps[0] == Text(a)
    requires ps[1].Control? && ps[1].cmd == CursorPosition(0, c)
    requires ps[2].Control? && ps[2].cmd == EraseInLine(0)
    ensures Run(Blank, ps).screen == [a[..c]]
  {
    var t1 := Term(0, |a|, [a], []);
    WriteOnBlank(a, t1);
    var t2 := Term(0, c, [a], []);
    ColumnIndexPlain(a, c);
    var t3 := Term(0, c, [a[..c]], []);
    assert Apply(t2, EraseInLine(0)) == t3;
    RunThree(Blank, ps, t1, t2, t3);
  }

  lemma {:induction false} CutPieces(a: Line, cup: Line, el: Line, c: nat, line: Line) returns (ps: seq<Piece>)
    requires a != [] && ESC !in a && line == a + (cup + el)
    requires IsCsi(cup) && Final(cup) != 'm' && Decode(cup) == CursorPosition(0, c)
    requires IsCsi(el) && Final(el) != 'm' && Decode(el) == EraseInLine(0)
    ensures ps == Tokenize(line) && ps == [Text(a), Control(cup, CursorPosition(0, c)), Control(el, EraseInLine(0))]
  {
    TokenizeLead(el, []);
    assert el + [] == el;
    TokenizeLead(cup, el);
    TokenizeTextLead(a, cup + el);
    ps := Tokenize(line);
  }

  /** `Hello, world! ESC[1;6H ESC[K` renders as `Hello`. */
  lemma EraseInLineEndCapture(hw: Line, cup: Line, el: Line)
    requires hw == "Hello, world! " && cup == "\U{1B}[1;6H" && el == "\U{1B}[K"
    ensures Render(hw + (cup + el) + [NL]) == ["Hello"]
  {
    assert Digits(1) == "1" && Digits(6) == "6";
    assert Encode(CursorPosition(0, 5)) == cup;
    assert el == Csi([], 'K');
    CutAtPosition(hw, cup, el, 5);
    assert hw[..5] == "Hello";
  }

  /** A line, then text and ED 2: no rows are left. */
  lemma {:induction false} EraseAllLines(first: Line, w: Line, ed: Line)
    requires first != [] && ESC !in first && NL !in first && w != [] && ESC !in w && NL !in w
    requires ed == Encode(EraseInDisplay(2))
    ensures Render(first + [NL] + (w + ed) + [NL]) == []
  {
    CommandSeq(EraseInDisplay(2));
    var second := w + ed;
    assert NL !in second;
    AfterFirstLine(first, second);
    var ps := TextCommandPieces(w, ed);
    Scenarios.RunTwo(Term(1, 0, [first], []), ps);
  }

  /** `Hello,` and ` world! ESC[2J` render as no rows. */
  lemma EraseInDisplayCapture(hello: Line, world: Line, ed: Line)
    requires hello == "Hello," && world == " world! " && ed == "\U{1B}[2J"
    ensures Render(hello + [NL] + (world + ed) + [NL]) == []
  {
    assert Digits(2) == "2";
    assert Encode(EraseInDisplay(2)) == ed;
    EraseAllLines(hello, world, ed);
  }

  /** A line, then text, back `k` columns, up one row and ED 0: the first
      row is cut at the column reached and the second row is dropped. */
  lemma {:induction false} EraseBelowLines(first: Line, second: Line, back: Line, up: Line, ed: Line, k: nat)
    requires first != [] && ESC !in first && NL !in first && second != [] && ESC !in second && NL !in second
    requires k >= 1 && k <= |second| && |second| - k <= |first|
    requires back == Encode(CursorBack(k)) && up == Csi([], 'A') && ed == Encode(EraseInDisplay(0))
    ensures Render(first + [NL] + (second + (back + (up + ed))) + [NL]) == [first[..|second| - k]]
  {
    CommandSeq(CursorBack(k));
    CommandSeq(EraseInDisplay(0));
    DecodeBare('A');
    CsiParts([], 'A');
    CsiNoNewline(up);
    BelowCore(first, second, back, up, ed, k);
  }

  lemma {:induction false} BelowCore(first: Line, second: Line, back: Line, up: Line, ed: Line, k: nat)
    requires first != [] && ESC !in first && NL !in first && second != [] && ESC !in second && NL !in second
    requires k >= 1 && k <= |second| && |second| - k <= |first|
    requires IsCsi(back) && Final(back) != 'm' && Decode(back) == CursorBack(k) && NL !in back
    requires IsCsi(up) && Final(up) != 'm' && Decode(up) == CursorUp(1) && NL !in up
    requires IsCsi(ed) && Final(ed) != 'm' && Decode(ed) == EraseInDisplay(0) && NL !in ed
    ensures Render(first + [NL] + (second + (back + (up + ed))) + [NL]) == [first[..|second| - k]]
  {
    var line := second + (back + (up + ed));
    assert NL !in line;
    AfterFirstLine(first, line);
    var cmds := BelowPieces(second, back, up, ed, k, line);
    BelowRun(first, second, k, cmds);
  }

  lemma {:induction false} BelowRun(first: Line, second: Line, k: nat, cmds: seq<Piece>)
    requires ESC !in first && ESC !in second && k >= 1 && k <= |second| && |second| - k <= |first|
    requires |cmds| == 3 && cmds[0].Control? && cmds[0].cmd == CursorBack(k)
    requires cmds[1].Control? && cmds[1].cmd == CursorUp(1)
    requires cmds[2].Control? && cmds[2].cmd == EraseInDisplay(0)
    ensures Run(Term(1, 0, [first], []), [Text(second)] + cmds).screen == [first[..|second| - k]]
  {
    var f1 := Term(1, 0, [first], []);
    var t1 := Term(1, |second|, [first, second], []);
    SecondRow(first, second);
    RunCons(f1, Text(second), cmds);
    var u1 := Apply(t1, CursorBack(k));
    var u2 := Apply(u1, CursorUp(1));
    var u3 := Apply(u2, EraseInDisplay(0));
    Scenarios.EraseBelowAfterMoves(first, second, |second|, k, |second| - k);
    RunThree(t1, cmds, u1, u2, u3);
  }

  lemma {:induction false} BelowPieces(second: Line, back: Line, up: Line, ed: Line, k: nat, line: Line) returns (cmds: seq<Piece>)
    requires second != [] && ESC !in second && line == second + (back + (up + ed))
    requires IsCsi(back) && Final(back) != 'm' && Decode(back) == CursorBack(k)
    requires IsCsi(up) && Final(up) != 'm' && Decode(up) == CursorUp(1)
    requires IsCsi(ed) && Final(ed) != 'm' && Decode(ed) == EraseInDisplay(0)
    ensures cmds == [Control(back, CursorBack(k)), Control(up, CursorUp(1)), Control(ed, EraseInDisplay(0))]
    ensures Tokenize(line) == [Text(second)] + cmds
  {
    cmds := ThreeCommands(back, up, ed);
    TokenizeTextLead(second, back + (up + ed));
  }

  /** Three commands in a row are three control pieces. */
  lemma {:induction false} ThreeCommands(x: Line, y: Line, z: Line) returns (cmds: seq<Piece>)
    requires IsCsi(x) && Final(x) != 'm' && IsCsi(y) && Final(y) != 'm' && IsCsi(z) && Final(z) != 'm'
    ensures cmds == Tokenize(x + (y + z))
    ensures cmds == [Control(x, Decode(x)), Control(y, Decode(y)), Control(z, Decode(z))]
    ensures ControlLen(x + (y + z)) > 0
  {
    TokenizeLead(z, []);
    assert z + [] == z;
    TokenizeLead(y, z);
    TokenizeLead(x, y + z);
    cmds := Tokenize(x + (y + z));
  }

  /** `Howdy, earth` and `Hello, world ESC[7D ESC[A ESC[0J` render as `Howdy,`. */
  lemma EraseInDisplayToEndCapture(howdy: Line, hello: Line, back: Line, up: Line, ed: Line)
    requires howdy == "Howdy, earth" && hello == "Hello, world " && back == "\U{1B}[7D" && up == "\U{1B}[A" && ed == "\U{1B}[0J"
    ensures Render(howdy + [NL] + (hello + (back + (up + ed))) + [NL]) == ["Howdy,"]
  {
    BelowCodes(back, up, ed);
    EraseBelowLines(howdy, hello, back, up, ed, 7);
    assert howdy[..6] == "Howdy,";
  }

  lemma BelowCodes(back: Line, up: Line, ed: Line)
    requires back == "\U{1B}[7D" && up == "\U{1B}[A" && ed == "\U{1B}[0J"
    ensures Encode(CursorBack(7)) == back && up == Csi([], 'A') && Encode(EraseInDisplay(0)) == ed
  {
    assert Digits(7) == "7" && Digits(0) == "0";
  }

  /** A line, then text and ED 1: the first row is emptied and the text is
      blanked. */
  lemma {:induction false} EraseAboveLines(first: Line, w: Line, ed: Line)
    requires first != [] && ESC !in first && NL !in first && w != [] && ESC !in w && NL !in w
    requires ed == Encode(EraseInDisplay(1))
    ensures Render(first + [NL] + (w + ed) + [NL]) == [[], Spaces(|w|)]
  {
    CommandSeq(EraseInDisplay(1));
    AboveCore(first, w, ed);
  }

  lemma {:induction false} AboveCore(first: Line, w: Line, ed: Line)
    requires first != [] && ESC !in first && NL !in first && w != [] && ESC !in w && NL !in w
    requires IsCsi(ed) && Final(ed) != 'm' && Decode(ed) == EraseInDisplay(1) && NL !in ed
    ensures Render(first + [NL] + (w + ed) + [NL]) == [[], Spaces(|w|)]
  {
    var second := w + ed;
    assert NL !in second;
    AfterFirstLine(first, second);
    var ps := TextCommandPieces(w, ed);
    AboveRun(first, w, ps);
  }

  lemma {:induction false} AboveRun(first: Line, w: Line, ps: seq<Piece>)
    requires ESC !in first && ESC !in w && |ps| == 2 && ps[0] == Text(w)
    requires ps[1].Control? && ps[1].cmd == EraseInDisplay(1)
    ensures Run(Term(1, 0, [first], []), ps).screen == [[], Spaces(|w|)]
  {
    var f1 := Term(1, 0, [first], []);
    SecondRow(first, w);
    Scenarios.RunTwo(f1, ps);
    EraseAboveRow(first, w);
  }

  /** Plain text fed on an empty second row lands at its start. */
  lemma {:induction false} SecondRow(first: Line, w: Line)
    requires ESC !in w
    ensures Step(Term(1, 0, [first], []), Text(w)) == Term(1, |w|, [first, w], [])
  {
    var rows := [first, w];
    assert Spaces(0) + w == w;
    PlaceOnEmptyRow([first], w, 0, 1, rows);
    WritePlainAt(Term(1, 0, [first], []), w, Term(1, |w|, rows, []));
  }

  lemma {:induction false} EraseAboveRow(first: Line, w: Line)
    requires ESC !in w
    ensures Apply(Term(1, |w|, [first, w], []), EraseInDisplay(1)).screen == [[], Spaces(|w|)]
  {
    var above := EmptyAbove([first, w], 1);
    assert above == [[], w];
    ClearWholeText(w);
    assert EraseLine(above, 1, |w|, 1) == [[], Spaces(|w|)];
  }

  /** `Hello,` and `world ESC[1J` render as an empty row and five blanks. */
  lemma EraseInDisplayToBeginningCapture(hello: Line, world: Line, ed: Line)
    requires hello == "Hello," && world == "world" && ed == "\U{1B}[1J"
    ensures Render(hello + [NL] + (world + ed) + [NL]) == ["", "     "]
  {
    assert Digits(1) == "1";
    assert Encode(EraseInDisplay(1)) == ed;
    EraseAboveLines(hello, world, ed);
    assert Spaces(5) == "     ";
  }
}
