/** The tokenizer: a chunk of input cut into text runs and cursor or erase
    commands.

    A command is a complete control sequence whose letter is not 'm'.  A
    text run is everything between two commands, taken whole: the SGR
    sequences (letter 'm') that set colours stay inside the run, because
    they are written into the screen verbatim as zero-width text.  The
    parameters of a command are decimal numbers separated by ';', an empty
    one reading as 0.
 */
module Tokenizer {
  import opened Ansi

  /** What a command sequence asks the terminal to do.  Counts are at
      least 1 and positions are 0-based once decoded. */
  datatype Command =
    | CursorUp(n: nat)                    // CUU, section 8.3.22 of ECMA-48
    | CursorDown(n: nat)                  // CUD, section 8.3.19
    | CursorForward(n: nat)               // CUF, section 8.3.20
    | CursorBack(n: nat)                  // CUB, section 8.3.18
    | CursorPosition(row: nat, col: nat)  // CUP, section 8.3.21
    | EraseInLine(mode: nat)              // EL, section 8.3.41
    | EraseInDisplay(mode: nat)           // ED, section 8.3.39
    | Ignored                             // any other letter

  /** One piece of a chunk: a run of text, or a command with its raw bytes. */
  datatype Piece = Text(run: Line) | Control(raw: Line, cmd: Command)

  /** Length of the command sequence at the head of `s`, or 0 when there is none. */
  function ControlLen(s: Line): (n: nat)
    ensures n == 0 || (n == CsiLen(s) && s[n - 1] != 'm')
    ensures n > 0 ==> IsCsi(s[..n])
  {
    var n := CsiLen(s);
    if n > 0 && s[n - 1] != 'm' then CsiLenIsCsi(s); n else 0
  }

  /** End of the text run of `s` that has already reached index `k`: the
      first index from `k` on at which a command starts, or the end of `s`. */
  function RunEnd(s: Line, k: nat): (m: nat)
    requires k <= |s|
    ensures k <= m <= |s|
    ensures m == |s| || ControlLen(s[m..]) > 0
    ensures forall j :: k <= j < m ==> ControlLen(s[j..]) == 0
    decreases |s| - k
  {
    if k == |s| || ControlLen(s[k..]) > 0 then k else RunEnd(s, k + 1)
  }

  /** The pieces of a chunk, left to right. */
  function Tokenize(s: Line): seq<Piece>
    decreases |s|
  {
    if s == [] then []
    else if ControlLen(s) > 0 then
      var n := ControlLen(s);
      [Control(s[..n], Decode(s[..n]))] + Tokenize(s[n..])
    else
      assert s[0..] == s;
      var m := RunEnd(s, 1);
      [Text(s[..m])] + Tokenize(s[m..])
  }

  /** The characters a piece was made of. */
  function Raw(p: Piece): Line {
    match p
    case Text(run) => run
    case Control(raw, _) => raw
  }

  function Flatten(ps: seq<Piece>): Line {
    if ps == [] then [] else Raw(ps[0]) + Flatten(ps[1..])
  }

  /** A piece as the tokenizer produces it: a non-empty run that does not
      start with a command, or a command sequence with its decoded meaning. */
  predicate PieceOk(p: Piece) {
    match p
    case Text(run) => run != [] && ControlLen(run) == 0
    case Control(raw, cmd) => ControlLen(raw) == |raw| && IsCsi(raw) && cmd == Decode(raw)
  }

  /** Every piece is well formed and no two text runs are adjacent: the runs are maximal. */
  predicate Tokenized(ps: seq<Piece>) {
    && (forall i :: 0 <= i < |ps| ==> PieceOk(ps[i]))
    && (forall i :: 0 < i < |ps| ==> !(ps[i - 1].Text? && ps[i].Text?))
  }

  /** Tokenizing loses nothing: the pieces put back together are the chunk,
      each piece is well formed, and the text runs are maximal. */
  lemma {:induction false} TokenizeSound(s: Line)
    ensures Flatten(Tokenize(s)) == s
    ensures Tokenized(Tokenize(s))
    ensures Tokenize(s) != [] && Tokenize(s)[0].Text? ==> ControlLen(s) == 0
    decreases |s|
  {
    if s != [] {
      if ControlLen(s) > 0 {
        var n := ControlLen(s);
        TokenizeSound(s[n..]);
        ControlStep(s, n, s[n..]);
      } else {
        assert s[0..] == s;
        var m := RunEnd(s, 1);
        TokenizeSound(s[m..]);
        TextStep(s, m, s[m..]);
      }
    }
  }

  lemma {:induction false} ControlStep(s: Line, n: nat, rest: Line)
    requires s != [] && n == ControlLen(s) && n > 0 && rest == s[n..]
    requires Flatten(Tokenize(rest)) == rest && Tokenized(Tokenize(rest))
    ensures Flatten(Tokenize(s)) == s && Tokenized(Tokenize(s))
    ensures Tokenize(s) != [] && !Tokenize(s)[0].Text?
  {
    var head := s[..n];
    var p := Control(head, Decode(head));
    assert Tokenize(s) == [p] + Tokenize(rest);
    CsiLenUnique(head, n);
    assert head[..n] == head;
    assert PieceOk(p);
    PiecesCons(p, Tokenize(rest));
    assert s == head + rest;
  }

  lemma {:induction false} TextStep(s: Line, m: nat, rest: Line)
    requires s != [] && ControlLen(s) == 0 && 1 <= m <= |s| && m == RunEnd(s, 1) && rest == s[m..]
    requires Flatten(Tokenize(rest)) == rest && Tokenized(Tokenize(rest))
    requires Tokenize(rest) != [] && Tokenize(rest)[0].Text? ==> ControlLen(rest) == 0
    ensures Flatten(Tokenize(s)) == s && Tokenized(Tokenize(s))
  {
    var head := s[..m];
    TextHead(s, m, head);
    var ps := Tokenize(rest);
    RestStartsCommand(s, m, rest, ps);
    assert s == head + rest;
    ConsPieces(Text(head), ps, Tokenize(s), rest, s);
  }

  /** What follows a text run starts with a command, so its pieces do not
      start with text. */
  lemma {:induction false} RestStartsCommand(s: Line, m: nat, rest: Line, ps: seq<Piece>)
    requires 1 <= m <= |s| && m == RunEnd(s, 1) && rest == s[m..] && ps == Tokenize(rest)
    requires ps != [] && ps[0].Text? ==> ControlLen(rest) == 0
    ensures ps != [] ==> !ps[0].Text?
  {
    if ps != [] {
      assert rest != [];
    }
  }

  /** One well-formed piece in front of well-formed pieces. */
  lemma {:induction false} ConsPieces(p: Piece, ps: seq<Piece>, qs: seq<Piece>, rest: Line, s: Line)
    requires qs == [p] + ps && PieceOk(p) && Tokenized(ps) && (p.Text? && ps != [] ==> !ps[0].Text?)
    requires Flatten(ps) == rest && s == Raw(p) + rest
    ensures Tokenized(qs) && Flatten(qs) == s
  {
    PiecesCons(p, ps);
  }

  /** A chunk that starts with text: its first piece is the run up to the
      first command, and it is well formed. */
  lemma {:induction false} TextHead(s: Line, m: nat, head: Line)
    requires s != [] && ControlLen(s) == 0 && 1 <= m <= |s| && m == RunEnd(s, 1) && head == s[..m]
    ensures Tokenize(s) == [Text(head)] + Tokenize(s[m..])
    ensures PieceOk(Text(head))
  {
    assert s[0..] == s;
    assert ControlLen(head) == 0 by {
      if ControlLen(head) > 0 {
        CsiLenOfPrefix(s, m);
      }
    }
  }

  /** No command starts anywhere in `s`: it holds text and SGR sequences only. */
  predicate NoCommands(s: Line) {
    forall j :: 0 <= j < |s| ==> ControlLen(s[j..]) == 0
  }

  /** A chunk without commands is one text run. */
  lemma {:induction false} TokenizeOneRun(s: Line)
    requires s != [] && NoCommands(s)
    ensures Tokenize(s) == [Text(s)]
  {
    assert s[0..] == s;
    var m := RunEnd(s, 1);
    assert s[..m] == s && s[m..] == [];
  }

  /** Text without ESC holds no command. */
  lemma {:induction false} PlainNoCommands(s: Line)
    requires ESC !in s
    ensures NoCommands(s)
  {
    forall j | 0 <= j < |s|
      ensures ControlLen(s[j..]) == 0
    {
      assert s[j..][0] == s[j];
    }
  }

  /** A command at the head of a chunk is its first piece. */
  lemma {:induction false} TokenizeLead(raw: Line, rest: Line)
    requires IsCsi(raw) && Final(raw) != 'm'
    ensures ControlLen(raw + rest) == |raw|
    ensures Tokenize(raw + rest) == [Control(raw, Decode(raw))] + Tokenize(rest)
  {
    var s := raw + rest;
    assert s[..|raw|] == raw;
    CsiLenUnique(s, |raw|);
    assert s[|raw|..] == rest;
  }

  /** Text without ESC in front of a line without commands adds none. */
  lemma {:induction false} NoCommandsPlainCons(text: Line, rest: Line)
    requires ESC !in text && NoCommands(rest)
    ensures NoCommands(text + rest)
  {
    var s := text + rest;
    forall j | 0 <= j < |s|
      ensures ControlLen(s[j..]) == 0
    {
      if j < |text| {
        assert s[j..][0] == text[j];
      } else {
        assert s[j..] == rest[j - |text|..];
      }
    }
  }

  /** A colour sequence (final letter `m`) in front of a line without
      commands adds none. */
  lemma {:induction false} NoCommandsSgrCons(code: Line, rest: Line)
    requires IsCsi(code) && Final(code) == 'm' && NoCommands(rest)
    ensures NoCommands(code + rest)
  {
    var s := code + rest;
    forall j | 0 <= j < |s|
      ensures ControlLen(s[j..]) == 0
    {
      if j == 0 {
        assert s[..|code|] == code;
        CsiLenUnique(s, |code|);
        assert s[j..] == s;
      } else if j < |code| {
        assert s[j..][0] == code[j];
      } else {
        assert s[j..] == rest[j - |code|..];
      }
    }
  }

  /** Text without ESC followed by a command is one text run, then the rest. */
  lemma {:induction false} TokenizeTextLead(text: Line, rest: Line)
    requires text != [] && ESC !in text && ControlLen(rest) > 0
    ensures Tokenize(text + rest) == [Text(text)] + Tokenize(rest)
  {
    var s := text + rest;
    assert s[0] == text[0];
    assert s[0..] == s;
    var m := RunEnd(s, 1);
    assert s[|text|..] == rest;
    assert s[..|text|] == text;
  }

  /** Putting a well-formed piece in front of well-formed pieces. */
  lemma {:induction false} PiecesCons(p: Piece, ps: seq<Piece>)
    requires PieceOk(p) && Tokenized(ps) && (p.Text? && ps != [] ==> !ps[0].Text?)
    ensures Tokenized([p] + ps) && Flatten([p] + ps) == Raw(p) + Flatten(ps)
  {
    var qs := [p] + ps;
    assert qs[1..] == ps;
    forall i | 0 < i < |qs|
      ensures !(qs[i - 1].Text? && qs[i].Text?)
    {
      if i > 1 {
        assert qs[i - 1] == ps[i - 2] && qs[i] == ps[i - 1];
      }
    }
  }

  /** Value of a decimal digit. */
  function DigitValue(c: char): nat
    requires '0' <= c <= '9'
  {
    c as int - '0' as int
  }

  predicate AllDigits(d: Line) {
    forall i :: 0 <= i < |d| ==> '0' <= d[i] <= '9'
  }

  /** Value of a string of decimal digits; the empty string reads as 0. */
  function Number(d: Line): nat
    requires AllDigits(d)
  {
    if d == [] then 0 else 10 * Number(d[..|d| - 1]) + DigitValue(d[|d| - 1])
  }

  /** The shortest decimal notation of `n`. */
  function Digits(n: nat): (d: Line)
    ensures AllDigits(d) && d != []
  {
    if n < 10 then [('0' as int + n) as char] else Digits(n / 10) + [('0' as int + n % 10) as char]
  }

  /** Reading the decimal notation of a number gives the number back. */
  lemma {:induction false} NumberDigits(n: nat)
    ensures Number(Digits(n)) == n
  {
    var d := Digits(n);
    if n >= 10 {
      NumberDigits(n / 10);
      assert d[..|d| - 1] == Digits(n / 10);
    }
  }

  /** The parameter string cut at every ';'. */
  function Fields(p: Line): (fs: seq<Line>)
    ensures |fs| >= 1
    ensures forall i :: 0 <= i < |fs| ==> ';' !in fs[i] && (forall c :: c in fs[i] ==> c in p)
    decreases |p|
  {
    if ';' in p then
      var k := IndexOf(p, ';');
      [p[..k]] + Fields(p[k + 1..])
    else
      [p]
  }

  /** Index of the first occurrence of `c` in `s`. */
  function IndexOf(s: Line, c: char): (k: nat)
    requires c in s
    ensures k < |s| && s[k] == c
    ensures forall j :: 0 <= j < k ==> s[j] != c
  {
    if s[0] == c then 0 else assert s[1..][IndexOf(s[1..], c)] == c; 1 + IndexOf(s[1..], c)
  }

  /** The fields put back together with ';' between them. */
  function JoinFields(fs: seq<Line>): Line
    requires |fs| >= 1
  {
    if |fs| == 1 then fs[0] else fs[0] + [';'] + JoinFields(fs[1..])
  }

  /** Cutting at ';' and joining again gives back the parameter string. */
  lemma {:induction false} FieldsJoin(p: Line)
    ensures JoinFields(Fields(p)) == p
    decreases |p|
  {
    if ';' in p {
      var k := IndexOf(p, ';');
      var head, rest := p[..k], p[k + 1..];
      FieldsCut(p, k, head, rest);
      FieldsJoin(rest);
      JoinCons(head, Fields(rest));
    }
  }

  /** The first field of a parameter string with a ';' runs up to that ';'. */
  lemma {:induction false} FieldsCut(p: Line, k: nat, head: Line, rest: Line)
    requires ';' in p && k == IndexOf(p, ';') && head == p[..k] && rest == p[k + 1..]
    ensures Fields(p) == [head] + Fields(rest) && p == head + [';'] + rest
  {
  }

  lemma {:induction false} JoinCons(f: Line, fs: seq<Line>)
    requires |fs| >= 1
    ensures JoinFields([f] + fs) == f + [';'] + JoinFields(fs)
  {
    assert ([f] + fs)[1..] == fs;
  }

  /** The `i`-th numeric parameter, 0 when it is absent or empty. */
  function Arg(fs: seq<Line>, i: nat): nat {
    if i < |fs| && AllDigits(fs[i]) then Number(fs[i]) else 0
  }

  /** A count parameter: 0 and absent both mean 1. */
  function Count(n: nat): (c: nat)
    ensures c >= 1 && (n > 0 ==> c == n)
  {
    if n == 0 then 1 else n
  }

  /** The meaning of a command sequence. */
  function Decode(raw: Line): Command
    requires IsCsi(raw)
  {
    Interpret(Fields(Params(raw)), Final(raw))
  }

  /** The command named by a letter, with its parameters. */
  function Interpret(fs: seq<Line>, letter: char): Command {
    match letter
    case 'A' => CursorUp(Count(Arg(fs, 0)))
    case 'B' => CursorDown(Count(Arg(fs, 0)))
    case 'C' => CursorForward(Count(Arg(fs, 0)))
    case 'D' => CursorBack(Count(Arg(fs, 0)))
    case 'H' => CursorPosition(Count(Arg(fs, 0)) - 1, Count(Arg(fs, 1)) - 1)
    case 'K' => EraseInLine(Arg(fs, 0))
    case 'J' => EraseInDisplay(Arg(fs, 0))
    case _ => Ignored
  }

  /** The fields of a parameter string are digit strings, so every parameter is a number. */
  lemma {:induction false} FieldsAreNumbers(raw: Line, i: nat)
    requires IsCsi(raw) && i < |Fields(Params(raw))|
    ensures AllDigits(Fields(Params(raw))[i])
  {
    var p := Params(raw);
    var f := Fields(p)[i];
    forall j | 0 <= j < |f|
      ensures '0' <= f[j] <= '9'
    {
      assert f[j] in f;
      assert f[j] in p;
      assert ';' !in f;
    }
  }

  /** Commands as a terminal would be sent them: counts of at least 1. */
  predicate Canonical(cmd: Command) {
    match cmd
    case CursorUp(n) => n >= 1
    case CursorDown(n) => n >= 1
    case CursorForward(n) => n >= 1
    case CursorBack(n) => n >= 1
    case CursorPosition(_, _) => true
    case EraseInLine(_) => true
    case EraseInDisplay(_) => true
    case Ignored => false
  }

  /** The control sequence that sends a command, with every parameter written out. */
  function Encode(cmd: Command): Line
    requires Canonical(cmd)
  {
    if cmd.CursorPosition? then Csi(Digits(cmd.row + 1) + [';'] + Digits(cmd.col + 1), 'H')
    else Csi(Digits(Param(cmd)), Letter(cmd))
  }

  /** The letter that names a command. */
  function Letter(cmd: Command): (c: char)
    requires Canonical(cmd)
    ensures IsFinal(c)
  {
    match cmd
    case CursorUp(_) => 'A'
    case CursorDown(_) => 'B'
    case CursorForward(_) => 'C'
    case CursorBack(_) => 'D'
    case CursorPosition(_, _) => 'H'
    case EraseInLine(_) => 'K'
    case EraseInDisplay(_) => 'J'
  }

  /** The single parameter of a command other than a cursor position. */
  function Param(cmd: Command): nat
    requires Canonical(cmd) && !cmd.CursorPosition?
  {
    match cmd
    case CursorUp(n) => n
    case CursorDown(n) => n
    case CursorForward(n) => n
    case CursorBack(n) => n
    case EraseInLine(m) => m
    case EraseInDisplay(m) => m
  }

  function Csi(params: Line, letter: char): Line {
    [ESC, '['] + params + [letter]
  }

  lemma {:induction false} CsiParts(params: Line, letter: char)
    requires forall i :: 0 <= i < |params| ==> IsParam(params[i])
    requires IsFinal(letter)
    ensures IsCsi(Csi(params, letter))
    ensures Params(Csi(params, letter)) == params && Final(Csi(params, letter)) == letter
  {
    var t := Csi(params, letter);
    assert t[2..|t| - 1] == params;
  }

  lemma {:induction false} FieldsOfDigits(d: Line)
    requires AllDigits(d)
    ensures Fields(d) == [d]
  {
  }

  lemma {:induction false} FieldsOfPair(a: Line, b: Line)
    requires AllDigits(a) && AllDigits(b)
    ensures Fields(a + [';'] + b) == [a, b]
  {
    var p := a + [';'] + b;
    FieldsOfDigits(a);
    FieldsOfDigits(b);
    assert ';' !in a && p[|a|] == ';';
    var k := IndexOf(p, ';');
    assert forall j :: 0 <= j < |a| ==> p[j] == a[j];
    assert k == |a|;
    assert p[..k] == a && p[k + 1..] == b;
  }

  /** Decoding the sequence that encodes a command gives the command back. */
  lemma {:induction false} DecodeEncode(cmd: Command)
    requires Canonical(cmd)
    ensures IsCsi(Encode(cmd)) && Decode(Encode(cmd)) == cmd
  {
    if cmd.CursorPosition? {
      DecodePair(cmd.row, cmd.col);
    } else {
      var n := Param(cmd);
      var d := Digits(n);
      DecodeCsi(d, Letter(cmd));
      FieldsOfDigits(d);
      NumberDigits(n);
      InterpretOne(cmd, [d], n);
    }
  }

  /** The control sequence that sends a command ends in the command's
      letter, which is never the colour letter `m`: it is read as a command. */
  lemma {:induction false} EncodeFinal(cmd: Command)
    requires Canonical(cmd)
    ensures IsCsi(Encode(cmd)) && Final(Encode(cmd)) == Letter(cmd) && Letter(cmd) != 'm'
  {
    if cmd.CursorPosition? {
      var p := Digits(cmd.row + 1) + [';'] + Digits(cmd.col + 1);
      assert forall i :: 0 <= i < |p| ==> IsParam(p[i]);
      CsiParts(p, 'H');
    } else {
      var d := Digits(Param(cmd));
      assert forall i :: 0 <= i < |d| ==> IsParam(d[i]);
      CsiParts(d, Letter(cmd));
    }
  }

  lemma {:induction false} InterpretOne(cmd: Command, fs: seq<Line>, n: nat)
    requires Canonical(cmd) && !cmd.CursorPosition? && n == Param(cmd)
    requires |fs| >= 1 && AllDigits(fs[0]) && Number(fs[0]) == n
    ensures Interpret(fs, Letter(cmd)) == cmd
  {
    assert Arg(fs, 0) == n;
  }

  /** A cursor position sequence: both 1-based parameters are read back. */
  lemma {:induction false} DecodePair(r: nat, c: nat)
    ensures IsCsi(Encode(CursorPosition(r, c))) && Decode(Encode(CursorPosition(r, c))) == CursorPosition(r, c)
  {
    var r1, c1 := r + 1, c + 1;
    var a, b := Digits(r1), Digits(c1);
    var p := a + [';'] + b;
    assert Encode(CursorPosition(r, c)) == Csi(p, 'H');
    DecodeCsi(p, 'H');
    FieldsOfPair(a, b);
    NumberDigits(r1);
    NumberDigits(c1);
    InterpretPair([a, b], a, b, r1, c1);
  }

  lemma {:induction false} InterpretPair(fs: seq<Line>, a: Line, b: Line, r1: nat, c1: nat)
    requires fs == [a, b] && AllDigits(a) && AllDigits(b) && Number(a) == r1 && Number(b) == c1
    ensures Interpret(fs, 'H') == CursorPosition(Count(r1) - 1, Count(c1) - 1)
  {
    assert Arg(fs, 0) == r1 && Arg(fs, 1) == c1;
  }

  /** A control sequence assembled from parameters and a letter means what the letter and the fields say. */
  lemma {:induction false} DecodeCsi(params: Line, letter: char)
    requires forall i :: 0 <= i < |params| ==> IsParam(params[i])
    requires IsFinal(letter)
    ensures IsCsi(Csi(params, letter))
    ensures Decode(Csi(params, letter)) == Interpret(Fields(params), letter)
  {
    CsiParts(params, letter);
  }

  /** A command without parameters reads as if its one parameter were 0. */
  lemma {:induction false} DecodeBare(letter: char)
    requires IsFinal(letter)
    ensures IsCsi(Csi([], letter)) && Decode(Csi([], letter)) == Interpret([[]], letter)
    ensures Arg([[]], 0) == 0
  {
    DecodeCsi([], letter);
    assert Fields([]) == [[]];
  }

  /** The three spellings of the home position read alike: 0 and an
      absent parameter both mean the first row or column.  First "0;0". */
  lemma {:induction false} DecodeHomeZeros(params: Line, zero: Line)
    requires zero == "0" && params == zero + [';'] + zero
    ensures IsCsi(Csi(params, 'H')) && Decode(Csi(params, 'H')) == CursorPosition(0, 0)
  {
    assert Number(zero) == 0;
    DecodeCsi(params, 'H');
    FieldsOfPair(zero, zero);
    InterpretPair([zero, zero], zero, zero, 0, 0);
  }

  /** Then ";1": an absent row. */
  lemma {:induction false} DecodeHomeNoRow(params: Line, none: Line, one: Line)
    requires none == [] && one == "1" && params == none + [';'] + one
    ensures IsCsi(Csi(params, 'H')) && Decode(Csi(params, 'H')) == CursorPosition(0, 0)
  {
    assert Number(none) == 0 && Number(one) == 1;
    DecodeCsi(params, 'H');
    FieldsOfPair(none, one);
    InterpretPair([none, one], none, one, 0, 1);
  }

  /** Then "1": an absent column. */
  lemma {:induction false} DecodeHomeRowOnly(params: Line)
    requires params == "1"
    ensures IsCsi(Csi(params, 'H')) && Decode(Csi(params, 'H')) == CursorPosition(0, 0)
  {
    assert Number(params) == 1;
    DecodeCsi(params, 'H');
    FieldsOfDigits(params);
  }
}
