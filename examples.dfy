/** Concrete scalars and the styles the analysis allows for them, whichever
    way the escape flag is set. */
module Examples {
  import opened Chars
  import opened Analyzer
  import opened Reference
  import opened Properties

  /** Neither plain style. */
  predicate NotPlain(r: ScalarAnalysis) {
    !r.allowFlowPlain && !r.allowBlockPlain
  }

  /** Every style. */
  predicate AllStyles(r: ScalarAnalysis) {
    r.allowFlowPlain && r.allowBlockPlain && r.allowSingleQuoted && r.allowDoubleQuoted && r.allowBlock
  }

  /** A dash before a space at the start is a sequence entry: not plain, but
      both quoted styles and block style remain. */
  lemma ListItemIsNotPlain(e: bool)
    ensures var r := Analyzed(Some("- list item"), e);
      NotPlain(r) && r.allowSingleQuoted && r.allowDoubleQuoted && r.allowBlock
  {
    var s := "- list item";
    assert FlowIndicatorAt(s, 0) && BlockIndicatorAt(s, 0);
    IndicatorRulesOutPlain(s, 0, e);
    assert !HasLineBreak(s) && !HasSpecial(s);
    InnerSpacesKeepQuotedAndBlock(s, e);
  }

  /** Three dashes followed by more text are no document marker, and a dash
      followed by a dash is no sequence entry. */
  lemma DashesBeforeTextArePlain(e: bool)
    ensures AllStyles(Analyzed(Some("---x"), e))
  {
    var s := "---x";
    assert !IsDocumentMarker(s);
    assert !HasLineBreak(s) && !HasSpecial(s) && !HasFlowIndicators(s);
    InnerSpacesAllowEverything(s, e);
  }

  /** A colon before a space is a mapping value. */
  lemma ColonSpaceIsNotPlain(e: bool)
    ensures NotPlain(Analyzed(Some("a: b"), e))
  {
    assert FlowIndicatorAt("a: b", 1) && BlockIndicatorAt("a: b", 1);
    IndicatorRulesOutPlain("a: b", 1, e);
  }

  /** A colon at the end counts as followed by space. */
  lemma TrailingColonIsNotPlain(e: bool)
    ensures NotPlain(Analyzed(Some("a:"), e))
  {
    assert FlowIndicatorAt("a:", 1) && BlockIndicatorAt("a:", 1);
    IndicatorRulesOutPlain("a:", 1, e);
  }

  /** A comment sign after a space starts a comment. */
  lemma CommentIsNotPlain(e: bool)
    ensures NotPlain(Analyzed(Some("a #b"), e))
  {
    assert FlowIndicatorAt("a #b", 2) && BlockIndicatorAt("a #b", 2);
    IndicatorRulesOutPlain("a #b", 2, e);
  }

  /** A lone dash counts as followed by space. */
  lemma LoneDashIsNotPlain(e: bool)
    ensures NotPlain(Analyzed(Some("-"), e))
  {
    assert FlowIndicatorAt("-", 0) && BlockIndicatorAt("-", 0);
    IndicatorRulesOutPlain("-", 0, e);
  }

  /** The two document markers are never plain. */
  lemma DocumentMarkersAreNotPlain(e: bool)
    ensures NotPlain(Analyzed(Some("---"), e))
    ensures NotPlain(Analyzed(Some("..."), e))
  {
    DocumentMarkerIsNotPlain("---", e);
    DocumentMarkerIsNotPlain("...", e);
  }

  /** A comment sign inside a word is ordinary text. */
  lemma HashInsideWordIsPlain(e: bool)
    ensures AllStyles(Analyzed(Some("a#b"), e))
  {
    var s := "a#b";
    assert !HasLineBreak(s) && !HasSpecial(s) && !HasFlowIndicators(s);
    InnerSpacesAllowEverything(s, e);
  }

  /** A single word takes every style. */
  lemma WordTakesEveryStyle(e: bool)
    ensures AllStyles(Analyzed(Some("hello"), e))
  {
    var s := "hello";
    assert !HasLineBreak(s) && !HasSpecial(s) && !HasFlowIndicators(s);
    InnerSpacesAllowEverything(s, e);
  }

  /** An inner space disqualifies nothing. */
  lemma InnerSpaceTakesEveryStyle(e: bool)
    ensures AllStyles(Analyzed(Some("a b"), e))
  {
    var s := "a b";
    assert !HasLineBreak(s) && !HasSpecial(s) && !HasFlowIndicators(s);
    InnerSpacesAllowEverything(s, e);
  }

  /** Leading spaces rule out the plain and block styles, not the quoted ones. */
  lemma LeadingSpacesAreQuoted(e: bool)
    ensures var r := Analyzed(Some("  x"), e);
      NotPlain(r) && !r.allowBlock && r.allowSingleQuoted && r.allowDoubleQuoted
  {
    var s := "  x";
    assert !HasLineBreak(s) && !HasSpecial(s);
    LeadingSpaceRulesOutPlainAndBlock(s, e);
    SingleLineKeepsQuotes(s, e);
  }

  /** A trailing space rules out the plain and block styles, not the quoted ones. */
  lemma TrailingSpaceIsQuoted(e: bool)
    ensures var r := Analyzed(Some("x "), e);
      NotPlain(r) && !r.allowBlock && r.allowSingleQuoted && r.allowDoubleQuoted
  {
    var s := "x ";
    assert !HasLineBreak(s) && !HasSpecial(s);
    TrailingSpaceRulesOutPlainAndBlock(s, e);
    SingleLineKeepsQuotes(s, e);
  }

  /** An all-space scalar is leading and trailing at once. */
  lemma SpacesOnlyAreLeadingAndTrailing(e: bool)
    ensures var st := Scan.ScanTo("   ", e, 3);
      st.ws.leadingSpaces && st.ws.trailingSpaces
  {
    AllSpacesAreLeadingAndTrailing("   ", e);
  }

  /** The only maximal run of "x\n" is its final line break. */
  lemma OnlyRunOfTrailingBreak(i: nat, j: nat)
    requires IsRun("x\n", i, j)
    ensures i == 1 && j == 2
  {
    assert !IsRunChar("x\n"[0]);
  }

  /** A trailing line break: multiline, neither plain nor single-quoted, but
      double-quoted and block style remain. */
  lemma TrailingBreakExample(e: bool)
    ensures var r := Analyzed(Some("x\n"), e);
      r.multiline && NotPlain(r) && !r.allowSingleQuoted && r.allowDoubleQuoted && r.allowBlock
  {
    var s := "x\n";
    TrailingBreakRulesOutSingleQuoted(s, e);
    AnalyzedMatchesExpected(Some(s), e);
    assert !HasSpecial(s);
    forall i, j | 0 <= i < j <= |s| && IsRun(s, i, j)
      ensures !HasSpace(s, i, j)
    {
      OnlyRunOfTrailingBreak(i, j);
    }
  }

  /** An inner line break: multiline, and an inline break run rules out the
      plain styles and single-quoted style; double-quoted and block remain. */
  lemma InnerBreakExample(e: bool)
    ensures var r := Analyzed(Some("line1\nline2"), e);
      r.multiline && NotPlain(r) && !r.allowSingleQuoted && r.allowDoubleQuoted && r.allowBlock
  {
    var s := "line1\nline2";
    assert IsLineBreak(s[5]) && !IsRunChar(s[4]) && !IsRunChar(s[6]);
    InnerBreakRulesOutSingleQuoted(s, 5, e);
    assert !HasSpecial(s);
    NoSpacesKeepBlock(s, e);
  }

  /** A tab is blank for the neighbour tests but forms no whitespace run: a
      trailing tab disqualifies nothing. */
  lemma TrailingTabIsPlain(e: bool)
    ensures AllStyles(Analyzed(Some("x\t"), e))
  {
    var s := "x\t";
    assert !HasLineBreak(s) && !HasSpecial(s) && !HasFlowIndicators(s);
    InnerSpacesAllowEverything(s, e);
  }

  /** A non-ASCII letter: every style when non-ASCII output is allowed, only
      double-quoted when it must be escaped. */
  lemma NonAsciiExample()
    ensures AllStyles(Analyzed(Some("\U{E9}"), false))
    ensures var r := Analyzed(Some("\U{E9}"), true);
      !r.allowFlowPlain && !r.allowBlockPlain && !r.allowSingleQuoted && r.allowDoubleQuoted && !r.allowBlock
  {
    var s := "\U{E9}";
    assert IsSpecial(s[0]);
    SpecialLeavesOnlyDoubleQuoted(s);
    assert !HasLineBreak(s) && !HasFlowIndicators(s);
    InnerSpacesAllowEverything(s, false);
  }
}
