/** The single left-to-right pass of ScalarAnalysis.analyze (ScalarAnalysis.java,
    lines 115-228) as a fold of one step function over the characters, and the
    disqualification rules that follow it (lines 229-280). */
module Scan {
  import opened Chars

  /** The whitespace-run state machine: what the open run has seen so far. */
  datatype Run = Run(spaces: bool, breaks: bool, mixed: bool, leading: bool)

  /** The positional whitespace flags committed when a run closes. */
  datatype Whitespace = Whitespace(
    inlineBreaks: bool,
    leadingSpaces: bool,
    leadingBreaks: bool,
    trailingSpaces: bool,
    trailingBreaks: bool,
    inlineBreaksSpaces: bool,
    mixedBreaksSpaces: bool)

  /** Every local the loop carries from one index to the next. */
  datatype ScanState = ScanState(
    blockIndicators: bool,
    flowIndicators: bool,
    lineBreaks: bool,
    specialCharacters: bool,
    ws: Whitespace,
    run: Run,
    precededBySpace: bool,
    followedBySpace: bool)

  /** The four permissions the rules can clear (double-quoted is never cleared). */
  datatype Permissions = Permissions(
    allowFlowPlain: bool,
    allowBlockPlain: bool,
    allowSingleQuoted: bool,
    allowBlock: bool)

  const NoRun := Run(false, false, false, false)
  const NoWhitespace := Whitespace(false, false, false, false, false, false, false)

  /** The state before the loop: the document-marker test and the first
      followed-by-space value (a one-character scalar is followed by space). */
  function Init(s: string): ScanState
    requires |s| > 0
  {
    ScanState(IsDocumentMarker(s), IsDocumentMarker(s), false, false, NoWhitespace, NoRun,
              true, |s| == 1 || IsBlank(s[1]))
  }

  /** Whether the character at `index` raises the flow indicator flag. */
  predicate FlowIndicatorHere(c: char, index: nat, precededBySpace: bool, followedBySpace: bool) {
    if index == 0 then
      IsSpecialIndicator(c) || c == '?' || c == ':' || (c == '-' && followedBySpace)
    else
      IsFlowIndicator(c) || c == ':' || (c == '#' && precededBySpace)
  }

  /** Whether the character at `index` raises the block indicator flag. */
  predicate BlockIndicatorHere(c: char, index: nat, precededBySpace: bool, followedBySpace: bool) {
    if index == 0 then
      IsSpecialIndicator(c) || ((c == '?' || c == ':') && followedBySpace) || (c == '-' && followedBySpace)
    else
      (c == ':' && followedBySpace) || (c == '#' && precededBySpace)
  }

  /** Closing a run on a non-run character: which flag its classification
      raises. A leading run is classified by what it holds; any other run by
      whether it was mixed, break-then-space, or pure breaks (pure inline
      spaces raise nothing). */
  function Commit(ws: Whitespace, run: Run): Whitespace {
    var both := run.spaces && run.breaks;
    Whitespace(
      inlineBreaks := ws.inlineBreaks || (!run.leading && !run.mixed && !run.spaces && run.breaks),
      leadingSpaces := ws.leadingSpaces || (run.leading && run.spaces && !run.breaks),
      leadingBreaks := ws.leadingBreaks || (run.leading && !run.spaces && run.breaks),
      trailingSpaces := ws.trailingSpaces,
      trailingBreaks := ws.trailingBreaks,
      inlineBreaksSpaces := ws.inlineBreaksSpaces || (!run.leading && !run.mixed && both),
      mixedBreaksSpaces := ws.mixedBreaksSpaces || (run.leading && both) || (!run.leading && run.mixed))
  }

  /** Extending the open run with a run character: spaces and breaks
      accumulate, a break after a space makes the run mixed, and the first
      character of a run records whether the run starts the scalar. */
  function Extend(run: Run, c: char, index: nat): Run {
    Run(
      spaces := run.spaces || c == ' ',
      breaks := run.breaks || c != ' ',
      mixed := run.mixed || (run.spaces && c != ' '),
      leading := if run.spaces || run.breaks then run.leading else index == 0)
  }

  /** Committing a run that reaches the end of the scalar: a run with both
      spaces and breaks is mixed; a pure run is trailing, and leading too when
      it started the scalar. */
  function CommitTrailing(ws: Whitespace, run: Run): Whitespace {
    var pureSpaces := run.spaces && !run.breaks;
    var pureBreaks := run.breaks && !run.spaces;
    ws.(
      trailingSpaces := ws.trailingSpaces || pureSpaces,
      leadingSpaces := ws.leadingSpaces || (pureSpaces && run.leading),
      trailingBreaks := ws.trailingBreaks || pureBreaks,
      leadingBreaks := ws.leadingBreaks || (pureBreaks && run.leading),
      mixedBreaksSpaces := ws.mixedBreaksSpaces || (run.spaces && run.breaks))
  }

  /** The run flags after one iteration's run part: a run character extends
      the open run, any other character closes it. */
  function RunAfter(run: Run, c: char, index: nat): Run {
    if IsRunChar(c) then Extend(run, c, index)
    else if run.spaces || run.breaks then NoRun
    else run
  }

  /** The whitespace flags after one iteration's run part. */
  function WhitespaceAfter(ws: Whitespace, run: Run, c: char): Whitespace {
    if !IsRunChar(c) && (run.spaces || run.breaks) then Commit(ws, run) else ws
  }

  /** The open run after one iteration: the run part, then a run that
      reaches the last character is committed and reset. */
  function RunStep(run: Run, c: char, index: nat, last: bool): Run {
    var run1 := RunAfter(run, c, index);
    if (run1.spaces || run1.breaks) && last then NoRun else run1
  }

  /** The whitespace flags after one iteration, including the trailing commit. */
  function WhitespaceStep(ws: Whitespace, run: Run, c: char, index: nat, last: bool): Whitespace {
    var ws1 := WhitespaceAfter(ws, run, c);
    var run1 := RunAfter(run, c, index);
    if (run1.spaces || run1.breaks) && last then CommitTrailing(ws1, run1) else ws1
  }

  /** One iteration of the loop body, at `index`. */
  function Step(s: string, escapeUnicode: bool, index: nat, st: ScanState): ScanState
    requires index < |s|
  {
    var c := s[index];
    var flow := st.flowIndicators || FlowIndicatorHere(c, index, st.precededBySpace, st.followedBySpace);
    var block := st.blockIndicators || BlockIndicatorHere(c, index, st.precededBySpace, st.followedBySpace);
    var lineBreaks := st.lineBreaks || IsLineBreak(c);
    var special := st.specialCharacters || (escapeUnicode && IsSpecial(c));
    var last := index == |s| - 1;
    ScanState(block, flow, lineBreaks, special,
              WhitespaceStep(st.ws, st.run, c, index, last),
              RunStep(st.run, c, index, last),
              IsBlank(c), index + 2 >= |s| || IsBlank(s[index + 2]))
  }

  /** The state after the first `n` iterations. */
  function ScanTo(s: string, escapeUnicode: bool, n: nat): ScanState
    requires 0 < |s| && n <= |s|
    decreases n
  {
    if n == 0 then Init(s) else Step(s, escapeUnicode, n - 1, ScanTo(s, escapeUnicode, n - 1))
  }

  /** The disqualification table applied to the final scan state. */
  function Derive(st: ScanState): Permissions {
    var w := st.ws;
    var edgeSpace := w.leadingSpaces || w.leadingBreaks || w.trailingSpaces;
    var noQuotes := w.trailingBreaks || w.inlineBreaksSpaces || w.inlineBreaks;
    var hopeless := w.mixedBreaksSpaces || st.specialCharacters;
    var notPlain := edgeSpace || noQuotes || hopeless || st.lineBreaks;
    Permissions(
      !notPlain && !st.flowIndicators,
      !notPlain && !st.blockIndicators,
      !noQuotes && !hopeless,
      !edgeSpace && !hopeless)
  }
}
