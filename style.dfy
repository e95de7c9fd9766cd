/** The style tracker: which SGR sequences (section 8.3.117 of ECMA-48,
    letter 'm') are in force after the text written so far.

    The active style is the list of SGR sequences seen since the last
    reset, in order.  A reset (no parameter, or the single parameter 0)
    replaces the whole list by itself; any other SGR sequence is appended.
    When text is written into a row that did not exist before, the active
    style is written in front of it so that the new row shows the colours
    in force.
 */
module Style {
  import opened Ansi
  import opened Offsets

  /** `t` is one SGR sequence. */
  predicate IsSgr(t: Line) {
    IsCsi(t) && Final(t) == 'm'
  }

  predicate AllSgr(codes: seq<Line>) {
    forall i :: 0 <= i < |codes| ==> IsSgr(codes[i])
  }

  /** An SGR sequence that switches every attribute off. */
  predicate IsReset(t: Line)
    requires IsSgr(t)
  {
    Params(t) == [] || Params(t) == "0"
  }

  /** The SGR sequences of a text run, in order. */
  function SgrCodes(run: Line): (codes: seq<Line>)
    ensures AllSgr(codes)
    decreases |run|
  {
    if run == [] then []
    else if CsiLen(run) > 0 then
      var n := CsiLen(run);
      CsiLenIsCsi(run);
      assert run[..n][n - 1] == run[n - 1];
      (if run[n - 1] == 'm' then [run[..n]] else []) + SgrCodes(run[n..])
    else
      SgrCodes(run[1..])
  }

  /** Text without ESC sets no style. */
  lemma {:induction false} SgrCodesPlain(run: Line)
    requires ESC !in run
    ensures SgrCodes(run) == []
    decreases |run|
  {
    if run != [] {
      SgrCodesPlain(run[1..]);
    }
  }

  /** An SGR sequence followed by plain text sets exactly that sequence. */
  lemma {:induction false} SgrCodesLead(code: Line, rest: Line)
    requires IsSgr(code) && ESC !in rest
    ensures SgrCodes(code + rest) == [code]
  {
    var run := code + rest;
    assert run[..|code|] == code;
    CsiLenUnique(run, |code|);
    assert run[|code|..] == rest;
    SgrCodesPlain(rest);
  }

  /** Text without ESC in front of a run adds no SGR sequence. */
  lemma {:induction false} SgrCodesPlainCons(text: Line, rest: Line)
    requires ESC !in text
    ensures SgrCodes(text + rest) == SgrCodes(rest)
    decreases |text|
  {
    if text == [] {
      assert text + rest == rest;
    } else {
      var s := text + rest;
      assert s[0] == text[0];
      assert CsiLen(s) == 0;
      assert s[1..] == text[1..] + rest;
      SgrCodesPlainCons(text[1..], rest);
    }
  }

  /** An SGR sequence in front of a run is the first SGR sequence found. */
  lemma {:induction false} SgrCodesCons(code: Line, rest: Line)
    requires IsSgr(code)
    ensures SgrCodes(code + rest) == [code] + SgrCodes(rest)
  {
    var run := code + rest;
    assert run[..|code|] == code;
    CsiLenUnique(run, |code|);
    assert run[|code|..] == rest;
  }

  /** The style after one more SGR sequence. */
  function Update(style: seq<Line>, code: Line): seq<Line>
    requires IsSgr(code)
  {
    if IsReset(code) then [code] else style + [code]
  }

  /** The style after a list of SGR sequences, taken in order. */
  function Track(style: seq<Line>, codes: seq<Line>): seq<Line>
    requires AllSgr(codes)
  {
    if codes == [] then style
    else Update(Track(style, codes[..|codes| - 1]), codes[|codes| - 1])
  }

  /** The style after a run's SGR sequences, taking them in one at a time. */
  method TrackAll(style: seq<Line>, codes: seq<Line>) returns (active: seq<Line>)
    requires AllSgr(codes)
    ensures active == Track(style, codes)
  {
    active := style;
    var k := 0;
    while k < |codes|
      invariant k <= |codes|
      invariant active == Track(style, codes[..k])
    {
      TrackStep(style, codes, k, active);
      active := Update(active, codes[k]);
      k := k + 1;
    }
    assert codes[..k] == codes;
  }

  /** One more SGR sequence taken in by the style. */
  lemma {:induction false} TrackStep(style: seq<Line>, codes: seq<Line>, k: nat, active: seq<Line>)
    requires AllSgr(codes) && k < |codes| && active == Track(style, codes[..k])
    ensures Update(active, codes[k]) == Track(style, codes[..k + 1])
  {
    assert codes[..k + 1][..k] == codes[..k];
  }

  /** The sequences of a list written one after another. */
  function Concat(codes: seq<Line>): Line {
    if codes == [] then [] else Concat(codes[..|codes| - 1]) + codes[|codes| - 1]
  }

  /** A well-formed active style: SGR sequences only, and a reset only in first place. */
  predicate StyleOk(style: seq<Line>) {
    AllSgr(style) && forall i :: 0 < i < |style| ==> !IsReset(style[i])
  }

  /** Tracking keeps the style well formed. */
  lemma {:induction false} TrackKeepsStyleOk(style: seq<Line>, codes: seq<Line>)
    requires StyleOk(style) && AllSgr(codes)
    ensures StyleOk(Track(style, codes))
    decreases |codes|
  {
    if codes != [] {
      var front, last := codes[..|codes| - 1], codes[|codes| - 1];
      TrackKeepsStyleOk(style, front);
      var before := Track(style, front);
      if !IsReset(last) {
        var after := before + [last];
        assert forall i :: 0 < i < |after| ==> !IsReset(after[i]) by {
          forall i | 0 < i < |after|
            ensures !IsReset(after[i])
          {
            if i < |before| {
              assert after[i] == before[i];
            }
          }
        }
      }
    }
  }

  /** Without a reset, the sequences accumulate behind the style in force. */
  lemma {:induction false} TrackAccumulates(style: seq<Line>, codes: seq<Line>)
    requires AllSgr(codes) && forall i :: 0 <= i < |codes| ==> !IsReset(codes[i])
    ensures Track(style, codes) == style + codes
    decreases |codes|
  {
    if codes != [] {
      var front, last := codes[..|codes| - 1], codes[|codes| - 1];
      TrackAccumulates(style, front);
      assert codes == front + [last];
    }
  }

  /** After a reset the style is that reset followed by the sequences after it,
      whatever the style was before. */
  lemma {:induction false} TrackAfterReset(style: seq<Line>, codes: seq<Line>, k: nat)
    requires AllSgr(codes) && k < |codes| && IsReset(codes[k])
    requires forall j :: k < j < |codes| ==> !IsReset(codes[j])
    ensures Track(style, codes) == codes[k..]
    decreases |codes|
  {
    var front, last := codes[..|codes| - 1], codes[|codes| - 1];
    if k == |codes| - 1 {
      assert codes[k..] == [last];
    } else {
      TrackAfterReset(style, front, k);
      assert codes[k..] == front[k..] + [last];
    }
  }

  /** A control sequence shows nothing and ends cleanly. */
  lemma {:induction false} CsiInvisible(t: Line)
    requires IsCsi(t)
    ensures Visible(t) == [] && NoStrayEsc(t)
  {
    CsiLenUnique(t, |t|);
    assert t[..|t|] == t;
    assert t[|t|..] == [];
  }

  /** The active style written out takes no columns on the screen. */
  lemma {:induction false} ConcatInvisible(codes: seq<Line>)
    requires AllSgr(codes)
    ensures Visible(Concat(codes)) == [] && NoStrayEsc(Concat(codes))
    decreases |codes|
  {
    if codes != [] {
      var front, last := codes[..|codes| - 1], codes[|codes| - 1];
      ConcatInvisible(front);
      CsiInvisible(last);
      VisibleAppend(Concat(front), last);
    }
  }

  /** Colours accumulate: red then bold keeps both. */
  lemma {:induction false} AccumulateExample(red: Line, bold: Line)
    requires red == "\U{1B}[31m" && bold == "\U{1B}[1m"
    ensures IsSgr(red) && IsSgr(bold)
    ensures Track([], [red, bold]) == [red, bold]
  {
    assert IsSgr(red) && Params(red) == "31";
    assert IsSgr(bold) && Params(bold) == "1";
    TrackAccumulates([], [red, bold]);
  }

  /** A reset replaces what came before it. */
  lemma {:induction false} ResetExample(red: Line, reset: Line)
    requires red == "\U{1B}[31m" && reset == "\U{1B}[0m"
    ensures IsSgr(red) && IsSgr(reset)
    ensures Track([], [red, reset]) == [reset]
  {
    assert IsSgr(red) && IsSgr(reset) && IsReset(reset);
    TrackAfterReset([], [red, reset], 1);
  }
}
