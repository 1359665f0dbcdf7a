/** ScalarAnalysis.analyze: which of the five scalar styles an emitter may use
    for a value (ScalarAnalysis.java, lines 33-52 and 90-292). */
module Analyzer {
  import opened Chars
  import opened Scan

  /** A Java String reference: absent (null) or present. */
  datatype Option<T> = None | Some(value: T)

  /** The immutable result record (the Builder only assembles these fields). */
  datatype ScalarAnalysis = ScalarAnalysis(
    scalar: Option<string>,
    empty: bool,
    multiline: bool,
    allowFlowPlain: bool,
    allowBlockPlain: bool,
    allowSingleQuoted: bool,
    allowDoubleQuoted: bool,
    allowBlock: bool)

  /** The result for a null scalar (lines 91-101): empty, and only block-plain,
      single-quoted and double-quoted allowed. */
  const NullResult := ScalarAnalysis(None, true, false, false, true, true, true, false)

  /** The result for the empty string (lines 102-112): only double-quoted allowed. */
  function EmptyResult(scalar: Option<string>): ScalarAnalysis {
    ScalarAnalysis(scalar, false, false, false, false, false, true, false)
  }

  /** The result built from the final scan state of a non-empty scalar. */
  function FromScan(s: string, st: ScanState): ScalarAnalysis {
    var p := Derive(st);
    ScalarAnalysis(Some(s), false, st.lineBreaks,
                   p.allowFlowPlain, p.allowBlockPlain, p.allowSingleQuoted, true, p.allowBlock)
  }

  /** The analysis as a function of its inputs: the null and empty special
      cases, otherwise the fold of the loop followed by the rules. */
  function Analyzed(scalar: Option<string>, escapeUnicode: bool): (r: ScalarAnalysis)
    ensures r.scalar == scalar
    ensures r.allowDoubleQuoted
    ensures r.empty <==> scalar.None?
  {
    match scalar
    case None => NullResult
    case Some(s) =>
      if s == "" then EmptyResult(scalar)
      else FromScan(s, ScanTo(s, escapeUnicode, |s|))
  }

  /** The indicator tests for the character at `index` (lines 147-170): they only
      ever raise the two flags. */
  method DetectIndicators(ceh: char, index: nat, precededBySpace: bool, followedBySpace: bool,
                          flowIndicators: bool, blockIndicators: bool)
    returns (flow: bool, block: bool)
    ensures flow == (flowIndicators || FlowIndicatorHere(ceh, index, precededBySpace, followedBySpace))
    ensures block == (blockIndicators || BlockIndicatorHere(ceh, index, precededBySpace, followedBySpace))
  {
    flow, block := flowIndicators, blockIndicators;
    if index == 0 {
      if IsSpecialIndicator(ceh) {
        flow := true;
        block := true;
      }
      if ceh == '?' || ceh == ':' {
        flow := true;
        if followedBySpace { block := true; }
      }
      if ceh == '-' && followedBySpace {
        flow := true;
        block := true;
      }
    } else {
      if IsFlowIndicator(ceh) { flow := true; }
      if ceh == ':' {
        flow := true;
        if followedBySpace { block := true; }
      }
      if ceh == '#' && precededBySpace {
        flow := true;
        block := true;
      }
    }
  }

  /** A run character extends the open run (lines 176-191). */
  method ExtendRun(run: Run, ceh: char, index: nat) returns (r: Run)
    ensures r == Extend(run, ceh, index)
  {
    var spaces, breaks, mixed, leading := run.spaces, run.breaks, run.mixed, run.leading;
    if spaces && breaks {
      if ceh != ' ' { mixed := true; }
    } else if spaces {
      if ceh != ' ' {
        breaks := true;
        mixed := true;
      }
    } else if breaks {
      if ceh == ' ' { spaces := true; }
    } else {
      leading := index == 0;
      if ceh == ' ' {
        spaces := true;
      } else {
        breaks := true;
      }
    }
    r := Run(spaces, breaks, mixed, leading);
  }

  /** A non-run character closes the open run and commits its class (lines 193-209). */
  method CloseRun(ws: Whitespace, run: Run) returns (r: Whitespace)
    ensures r == Commit(ws, run)
  {
    r := ws;
    if run.leading {
      if run.spaces && run.breaks {
        r := r.(mixedBreaksSpaces := true);
      } else if run.spaces {
        r := r.(leadingSpaces := true);
      } else if run.breaks {
        r := r.(leadingBreaks := true);
      }
    } else if run.mixed {
      r := r.(mixedBreaksSpaces := true);
    } else if run.spaces && run.breaks {
      r := r.(inlineBreaksSpaces := true);
    } else if run.spaces {
      // pure inline spaces disqualify nothing
    } else if run.breaks {
      r := r.(inlineBreaks := true);
    }
  }

  /** A run still open at the last character is committed as trailing (lines 214-222). */
  method CloseTrailingRun(ws: Whitespace, run: Run) returns (r: Whitespace)
    ensures r == CommitTrailing(ws, run)
  {
    r := ws;
    if run.spaces && run.breaks {
      r := r.(mixedBreaksSpaces := true);
    } else if run.spaces {
      r := r.(trailingSpaces := true);
      if run.leading { r := r.(leadingSpaces := true); }
    } else if run.breaks {
      r := r.(trailingBreaks := true);
      if run.leading { r := r.(leadingBreaks := true); }
    }
  }

  /** The whitespace-run state machine for one character (lines 175-224);
      `last` tells whether it is the final character of the scalar. */
  method TrackWhitespace(ws: Whitespace, run: Run, ceh: char, index: nat, last: bool)
    returns (ws': Whitespace, run': Run)
    ensures ws' == WhitespaceStep(ws, run, ceh, index, last)
    ensures run' == RunStep(run, ceh, index, last)
  {
    ws', run' := ws, run;
    if ceh == ' ' || ceh == '\n' || ceh == NextLine {
      run' := ExtendRun(run', ceh, index);
    } else if run'.spaces || run'.breaks {
      ws' := CloseRun(ws', run');
      run' := NoRun;
    }
    if (run'.spaces || run'.breaks) && last {
      ws' := CloseTrailingRun(ws', run');
      run' := NoRun;
    }
  }

  /** One pass of the loop body at `index` (lines 145-227): the indicator tests,
      the line-break and special-character tests, the whitespace-run machine,
      and the preceded/followed-by-space values for the next index. */
  method ScanCharacter(s: string, escapeUnicode: bool, index: nat, st: ScanState) returns (next: ScanState)
    requires index < |s|
    ensures next == Step(s, escapeUnicode, index, st)
  {
    var ceh := s[index];
    var flowIndicators, blockIndicators :=
      DetectIndicators(ceh, index, st.precededBySpace, st.followedBySpace, st.flowIndicators, st.blockIndicators);
    var lineBreaks := st.lineBreaks;
    if ceh == '\n' || ceh == NextLine { lineBreaks := true; }
    var specialCharacters := st.specialCharacters;
    if escapeUnicode {
      if ceh != '\n' && ceh != '\t' && !(' ' <= ceh && ceh <= '~') { specialCharacters := true; }
    }
    var ws, run := TrackWhitespace(st.ws, st.run, ceh, index, index == |s| - 1);
    var precededBySpace := IsBlank(ceh);
    var followedBySpace := index + 2 >= |s| || IsBlank(s[index + 2]);
    next := ScanState(blockIndicators, flowIndicators, lineBreaks, specialCharacters,
                      ws, run, precededBySpace, followedBySpace);
  }

  /** The permission-clearing rules after the loop (lines 229-280), applied in
      the source's order; double-quoted is never cleared, so it is not returned. */
  method ApplyRules(st: ScanState) returns (p: Permissions)
    ensures p == Derive(st)
  {
    var ws := st.ws;
    var allowFlowPlain := true;
    var allowBlockPlain := true;
    var allowSingleQuoted := true;
    var allowBlock := true;

    if ws.leadingSpaces || ws.leadingBreaks || ws.trailingSpaces {
      allowFlowPlain := false;
      allowBlockPlain := false;
      allowBlock := false;
    }
    if ws.trailingBreaks {
      allowFlowPlain := false;
      allowBlockPlain := false;
    }
    if ws.inlineBreaksSpaces {
      allowFlowPlain := false;
      allowBlockPlain := false;
      allowSingleQuoted := false;
    }
    if ws.mixedBreaksSpaces || st.specialCharacters {
      allowFlowPlain := false;
      allowBlockPlain := false;
      allowSingleQuoted := false;
      allowBlock := false;
    }
    if ws.inlineBreaks {
      allowFlowPlain := false;
      allowBlockPlain := false;
      allowSingleQuoted := false;
    }
    if ws.trailingBreaks {
      allowSingleQuoted := false;
    }
    if st.lineBreaks {
      allowFlowPlain := false;
      allowBlockPlain := false;
    }
    if st.flowIndicators {
      allowFlowPlain := false;
    }
    if st.blockIndicators {
      allowBlockPlain := false;
    }

    p := Permissions(allowFlowPlain, allowBlockPlain, allowSingleQuoted, allowBlock);
  }

  /** The analyzer as the source writes it: special cases, one scanning loop
      over the characters, then the permission-clearing rules. */
  method Analyze(scalar: Option<string>, escapeUnicode: bool) returns (r: ScalarAnalysis)
    ensures r == Analyzed(scalar, escapeUnicode)
  {
    if scalar.None? {
      return NullResult;
    }
    var s := scalar.value;
    if s == "" {
      return EmptyResult(scalar);
    }

    var blockIndicators := false;
    var flowIndicators := false;
    if IsDocumentMarker(s) {
      blockIndicators := true;
      flowIndicators := true;
    }
    var st := ScanState(blockIndicators, flowIndicators, false, false, NoWhitespace, NoRun,
                        true, |s| == 1 || IsBlank(s[1]));

    var index := 0;
    while index < |s|
      invariant 0 <= index <= |s|
      invariant st == ScanTo(s, escapeUnicode, index)
    {
      st := ScanCharacter(s, escapeUnicode, index, st);
      index := index + 1;
    }

    var p := ApplyRules(st);
    r := ScalarAnalysis(scalar, false, st.lineBreaks, p.allowFlowPlain, p.allowBlockPlain,
                        p.allowSingleQuoted, true, p.allowBlock);
  }
}
