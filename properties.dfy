/** Properties of ScalarAnalysis.analyze: the loop computes the reference
    description, and what follows from it about the five styles. */
module Properties {
  import opened Chars
  import opened Scan
  import opened Analyzer
  import opened Reference
  import opened ScanFacts

  /** Every whitespace flag of the final state records whether some maximal run has its shape. */
  lemma FinalWhitespace(s: string, e: bool, shape: Shape)
    requires s != ""
    ensures Flag(ScanTo(s, e, |s|).ws, shape) <==> HasShape(s, shape)
  {
    WhitespaceSeen(s, e, |s|);
    assert Closed(s, shape, |s|) <==> HasShape(s, shape);
  }

  /** The loop and rules of the analysis compute exactly the reference description. */
  lemma AnalyzedMatchesExpected(scalar: Option<string>, e: bool)
    ensures Analyzed(scalar, e) == Expected(scalar, e)
  {
    if scalar.Some? && scalar.value != "" {
      var s := scalar.value;
      LineBreaksSeen(s, e, |s|);
      SpecialSeen(s, e, |s|);
      IndicatorsSeen(s, e, |s|);
      FinalWhitespace(s, e, LeadingSpaces);
      FinalWhitespace(s, e, LeadingBreaks);
      FinalWhitespace(s, e, TrailingSpaces);
      FinalWhitespace(s, e, TrailingBreaks);
      FinalWhitespace(s, e, InlineBreaks);
      FinalWhitespace(s, e, InlineBreaksSpaces);
      FinalWhitespace(s, e, MixedBreaksSpaces);
    }
  }

  /** A null scalar: empty, single line, and every style but the two plain-for-flow and block. */
  lemma NullScalar(e: bool)
    ensures var r := Analyzed(None, e);
      r.empty && !r.multiline && !r.allowFlowPlain && r.allowBlockPlain
      && r.allowSingleQuoted && r.allowDoubleQuoted && !r.allowBlock
  {
  }

  /** The empty string: not empty, single line, and double-quoted only. */
  lemma EmptyString(e: bool)
    ensures var r := Analyzed(Some(""), e);
      !r.empty && !r.multiline && !r.allowFlowPlain && !r.allowBlockPlain
      && !r.allowSingleQuoted && r.allowDoubleQuoted && !r.allowBlock
  {
  }

  /** A scalar is multiline exactly when it holds an LF or a NEXT LINE. */
  lemma MultilineIffLineBreak(scalar: Option<string>, e: bool)
    ensures Analyzed(scalar, e).multiline <==> scalar.Some? && HasLineBreak(scalar.value)
  {
    AnalyzedMatchesExpected(scalar, e);
  }

  /** A multiline scalar is never plain. */
  lemma MultilineIsNeverPlain(scalar: Option<string>, e: bool)
    ensures Analyzed(scalar, e).multiline ==>
      !Analyzed(scalar, e).allowFlowPlain && !Analyzed(scalar, e).allowBlockPlain
  {
  }

  /** Every block indicator is also a flow indicator. */
  lemma BlockIndicatorsAreFlowIndicators(s: string)
    ensures HasBlockIndicators(s) ==> HasFlowIndicators(s)
  {
    if HasBlockIndicators(s) && !IsDocumentMarker(s) {
      var i :| 0 <= i < |s| && BlockIndicatorAt(s, i);
      assert FlowIndicatorAt(s, i);
    }
  }

  /** Plain in flow context implies plain in block context, for every input. */
  lemma FlowPlainImpliesBlockPlain(scalar: Option<string>, e: bool)
    ensures Analyzed(scalar, e).allowFlowPlain ==> Analyzed(scalar, e).allowBlockPlain
  {
    AnalyzedMatchesExpected(scalar, e);
    if scalar.Some? {
      BlockIndicatorsAreFlowIndicators(scalar.value);
    }
  }

  /** For a present scalar, block plain implies single-quoted and block styles. */
  lemma PlainImpliesQuotedAndBlock(s: string, e: bool)
    ensures Analyzed(Some(s), e).allowBlockPlain ==>
      Analyzed(Some(s), e).allowSingleQuoted && Analyzed(Some(s), e).allowBlock
  {
  }

  /** Refusing non-ASCII output never grants a style and changes neither the
      empty nor the multiline flag. */
  lemma EscapingNeverGrants(scalar: Option<string>)
    ensures var a, b := Analyzed(scalar, false), Analyzed(scalar, true);
      b.empty == a.empty && b.multiline == a.multiline
      && (b.allowFlowPlain ==> a.allowFlowPlain) && (b.allowBlockPlain ==> a.allowBlockPlain)
      && (b.allowSingleQuoted ==> a.allowSingleQuoted) && (b.allowDoubleQuoted ==> a.allowDoubleQuoted)
      && (b.allowBlock ==> a.allowBlock)
  {
    if scalar.Some? && scalar.value != "" {
      var s := scalar.value;
      EscapeOnlyTouchesSpecial(s, |s|);
      SpecialSeen(s, false, |s|);
    }
  }

  /** Without special characters the escape flag makes no difference at all. */
  lemma EscapingIrrelevantWithoutSpecial(s: string)
    requires !HasSpecial(s)
    ensures Analyzed(Some(s), true) == Analyzed(Some(s), false)
  {
    AnalyzedMatchesExpected(Some(s), true);
    AnalyzedMatchesExpected(Some(s), false);
  }

  /** A special character under escaping leaves only the double-quoted style. */
  lemma SpecialLeavesOnlyDoubleQuoted(s: string)
    requires HasSpecial(s)
    ensures var r := Analyzed(Some(s), true);
      !r.allowFlowPlain && !r.allowBlockPlain && !r.allowSingleQuoted && r.allowDoubleQuoted && !r.allowBlock
  {
    AnalyzedMatchesExpected(Some(s), true);
  }

  /** An indicator in context rules out the corresponding plain style. */
  lemma IndicatorRulesOutPlain(s: string, i: nat, e: bool)
    requires i < |s|
    ensures FlowIndicatorAt(s, i) ==> !Analyzed(Some(s), e).allowFlowPlain
    ensures BlockIndicatorAt(s, i) ==> !Analyzed(Some(s), e).allowBlockPlain
  {
    AnalyzedMatchesExpected(Some(s), e);
  }

  /** A document marker is plain in neither context. */
  lemma DocumentMarkerIsNotPlain(s: string, e: bool)
    requires IsDocumentMarker(s)
    ensures !Analyzed(Some(s), e).allowFlowPlain && !Analyzed(Some(s), e).allowBlockPlain
  {
    AnalyzedMatchesExpected(Some(s), e);
  }

  /** Where the run of spaces and line breaks that starts at `i` ends. */
  function RunEnd(s: string, i: nat): (j: nat)
    requires i <= |s|
    ensures i <= j <= |s|
    ensures forall k :: i <= k < j ==> IsRunChar(s[k])
    ensures j == |s| || !IsRunChar(s[j])
    decreases |s| - i
  {
    if i == |s| || !IsRunChar(s[i]) then i else RunEnd(s, i + 1)
  }

  /** A run that holds a space and touches an edge of the scalar is itself
      leading spaces, trailing spaces or mixed, whichever its contents call for;
      so the scalar has a run of one of those shapes. */
  lemma EdgeRunShape(s: string, i: nat, j: nat)
    requires IsRun(s, i, j) && (i == 0 || j == |s|)
    requires exists k :: i <= k < j && s[k] == ' '
    ensures RunHasShape(s, LeadingSpaces, i, j) || RunHasShape(s, TrailingSpaces, i, j)
      || RunHasShape(s, MixedBreaksSpaces, i, j)
    ensures HasShape(s, LeadingSpaces) || HasShape(s, TrailingSpaces) || HasShape(s, MixedBreaksSpaces)
  {
    if HasBreak(s, i, j) {
      assert RunHasShape(s, MixedBreaksSpaces, i, j);
    } else if i == 0 {
      assert RunHasShape(s, LeadingSpaces, i, j);
    } else {
      assert RunHasShape(s, TrailingSpaces, i, j);
    }
  }

  /** A scalar that starts with a space is neither plain nor block. */
  lemma LeadingSpaceRulesOutPlainAndBlock(s: string, e: bool)
    requires s != "" && s[0] == ' '
    ensures var r := Analyzed(Some(s), e);
      !r.allowFlowPlain && !r.allowBlockPlain && !r.allowBlock
  {
    AnalyzedMatchesExpected(Some(s), e);
    EdgeRunShape(s, 0, RunEnd(s, 0));
  }

  /** A scalar that ends with a space is neither plain nor block. */
  lemma TrailingSpaceRulesOutPlainAndBlock(s: string, e: bool)
    requires s != "" && s[|s| - 1] == ' '
    ensures var r := Analyzed(Some(s), e);
      !r.allowFlowPlain && !r.allowBlockPlain && !r.allowBlock
  {
    AnalyzedMatchesExpected(Some(s), e);
    EdgeRunShape(s, RunStart(s, |s|), |s|);
  }

  /** A scalar that ends with a line break is multiline and neither plain nor
      single-quoted. */
  lemma TrailingBreakRulesOutSingleQuoted(s: string, e: bool)
    requires s != "" && IsLineBreak(s[|s| - 1])
    ensures var r := Analyzed(Some(s), e);
      r.multiline && !r.allowFlowPlain && !r.allowBlockPlain && !r.allowSingleQuoted
  {
    AnalyzedMatchesExpected(Some(s), e);
    var i := RunStart(s, |s|);
    assert IsRun(s, i, |s|);
    assert HasBreak(s, i, |s|);
    if HasSpace(s, i, |s|) {
      assert RunHasShape(s, MixedBreaksSpaces, i, |s|);
    } else {
      assert RunHasShape(s, TrailingBreaks, i, |s|);
    }
  }

  /** A scalar made only of spaces raises both the leading and the trailing
      spaces flag. */
  lemma AllSpacesAreLeadingAndTrailing(s: string, e: bool)
    requires s != "" && forall i :: 0 <= i < |s| ==> s[i] == ' '
    ensures ScanTo(s, e, |s|).ws.leadingSpaces && ScanTo(s, e, |s|).ws.trailingSpaces
  {
    assert IsRun(s, 0, |s|);
    assert !HasBreak(s, 0, |s|);
    assert s[0] == ' ';
    assert HasSpace(s, 0, |s|);
    assert RunHasShape(s, LeadingSpaces, 0, |s|);
    assert RunHasShape(s, TrailingSpaces, 0, |s|);
    FinalWhitespace(s, e, LeadingSpaces);
    FinalWhitespace(s, e, TrailingSpaces);
  }

  /** Single-line text with nothing to escape can always be single-quoted:
      every shape that rules the style out needs a line break. */
  lemma SingleLineKeepsQuotes(s: string, e: bool)
    requires s != "" && !HasLineBreak(s) && !(e && HasSpecial(s))
    ensures Analyzed(Some(s), e).allowSingleQuoted && Analyzed(Some(s), e).allowDoubleQuoted
  {
    AnalyzedMatchesExpected(Some(s), e);
    forall i, j | 0 <= i < j <= |s| && IsRun(s, i, j)
      ensures !HasBreak(s, i, j)
    {
    }
  }

  /** Single-line text with no space at either edge has no whitespace run of
      any shape: its runs are inner spaces only. */
  lemma InnerSpacesHaveNoShape(s: string)
    requires s != "" && s[0] != ' ' && s[|s| - 1] != ' ' && !HasLineBreak(s)
    ensures forall shape :: !HasShape(s, shape)
  {
    forall i, j, shape | 0 <= i < j <= |s| && IsRun(s, i, j)
      ensures !RunHasShape(s, shape, i, j)
    {
      assert IsRunChar(s[i]) && IsRunChar(s[j - 1]);
      assert !HasBreak(s, i, j);
    }
  }

  /** Single-line text with spaces only strictly inside and nothing to escape
      keeps both quoted styles and block style, whatever indicators it holds. */
  lemma InnerSpacesKeepQuotedAndBlock(s: string, e: bool)
    requires s != "" && s[0] != ' ' && s[|s| - 1] != ' '
    requires !HasLineBreak(s) && !(e && HasSpecial(s))
    ensures var r := Analyzed(Some(s), e);
      r.allowSingleQuoted && r.allowDoubleQuoted && r.allowBlock
  {
    AnalyzedMatchesExpected(Some(s), e);
    InnerSpacesHaveNoShape(s);
  }

  /** Single-line text with spaces only strictly inside, no indicator and
      nothing to escape may take every style: inner spaces disqualify nothing. */
  lemma InnerSpacesAllowEverything(s: string, e: bool)
    requires s != "" && s[0] != ' ' && s[|s| - 1] != ' '
    requires !HasLineBreak(s) && !(e && HasSpecial(s)) && !HasFlowIndicators(s)
    ensures var r := Analyzed(Some(s), e);
      r.allowFlowPlain && r.allowBlockPlain && r.allowSingleQuoted && r.allowDoubleQuoted && r.allowBlock
  {
    AnalyzedMatchesExpected(Some(s), e);
    BlockIndicatorsAreFlowIndicators(s);
    InnerSpacesHaveNoShape(s);
  }

  /** A lone line break strictly inside the text forms an inline-breaks run,
      which rules out single-quoted style. */
  lemma InnerBreakRulesOutSingleQuoted(s: string, i: nat, e: bool)
    requires 0 < i < |s| - 1 && IsLineBreak(s[i]) && !IsRunChar(s[i - 1]) && !IsRunChar(s[i + 1])
    ensures var r := Analyzed(Some(s), e);
      r.multiline && !r.allowFlowPlain && !r.allowBlockPlain && !r.allowSingleQuoted
  {
    AnalyzedMatchesExpected(Some(s), e);
    assert IsRun(s, i, i + 1);
    assert !HasSpace(s, i, i + 1) && HasBreak(s, i, i + 1);
    assert RunHasShape(s, InlineBreaks, i, i + 1);
  }

  /** Text without spaces that starts and ends outside any run keeps block
      style unless something must be escaped: no run touches an edge and no
      run is mixed. */
  lemma NoSpacesKeepBlock(s: string, e: bool)
    requires s != "" && !IsRunChar(s[0]) && !IsRunChar(s[|s| - 1])
    requires forall k :: 0 <= k < |s| ==> s[k] != ' '
    requires !(e && HasSpecial(s))
    ensures Analyzed(Some(s), e).allowBlock
  {
    AnalyzedMatchesExpected(Some(s), e);
    forall i, j | 0 <= i < j <= |s| && IsRun(s, i, j)
      ensures !HasSpace(s, i, j) && 0 < i && j < |s|
    {
      assert IsRunChar(s[i]) && IsRunChar(s[j - 1]);
    }
  }
}
