/** What the analysis computes, described directly in terms of the scalar
    rather than the loop: indicator characters judged by their neighbours,
    line breaks and special characters by their presence, and whitespace by
    the maximal runs of spaces and line breaks the scalar contains. */
module Reference {
  import opened Chars
  import opened Scan
  import opened Analyzer

  /** Whether the character before position `i` is blank (the start counts as blank). */
  predicate PrecededBySpaceAt(s: string, i: nat)
    requires i < |s|
  {
    i == 0 || IsBlank(s[i - 1])
  }

  /** Whether the character after position `i` is blank (the end counts as blank). */
  predicate FollowedBySpaceAt(s: string, i: nat) {
    i + 1 >= |s| || IsBlank(s[i + 1])
  }

  /** The character at `i` is a flow indicator in its context. */
  predicate FlowIndicatorAt(s: string, i: nat)
    requires i < |s|
  {
    FlowIndicatorHere(s[i], i, PrecededBySpaceAt(s, i), FollowedBySpaceAt(s, i))
  }

  /** The character at `i` is a block indicator in its context. */
  predicate BlockIndicatorAt(s: string, i: nat)
    requires i < |s|
  {
    BlockIndicatorHere(s[i], i, PrecededBySpaceAt(s, i), FollowedBySpaceAt(s, i))
  }

  /** The scalar would be read as structure inside a flow collection. */
  predicate HasFlowIndicators(s: string) {
    IsDocumentMarker(s) || exists i :: 0 <= i < |s| && FlowIndicatorAt(s, i)
  }

  /** The scalar would be read as structure in block context. */
  predicate HasBlockIndicators(s: string) {
    IsDocumentMarker(s) || exists i :: 0 <= i < |s| && BlockIndicatorAt(s, i)
  }

  predicate HasLineBreak(s: string) {
    exists i :: 0 <= i < |s| && IsLineBreak(s[i])
  }

  predicate HasSpecial(s: string) {
    exists i :: 0 <= i < |s| && IsSpecial(s[i])
  }

  /** s[i..j] is a maximal run of spaces and line breaks. */
  predicate IsRun(s: string, i: nat, j: nat) {
    i < j <= |s|
    && (forall k :: i <= k < j ==> IsRunChar(s[k]))
    && (i == 0 || !IsRunChar(s[i - 1]))
    && (j == |s| || !IsRunChar(s[j]))
  }

  predicate HasSpace(s: string, i: nat, j: nat)
    requires i <= j <= |s|
  {
    exists k :: i <= k < j && s[k] == ' '
  }

  predicate HasBreak(s: string, i: nat, j: nat)
    requires i <= j <= |s|
  {
    exists k :: i <= k < j && IsLineBreak(s[k])
  }

  /** Some space in s[i..j] comes before some line break in it. */
  predicate SpaceBeforeBreak(s: string, i: nat, j: nat)
    requires i <= j <= |s|
  {
    exists p, q :: i <= p < q < j && s[p] == ' ' && IsLineBreak(s[q])
  }

  /** The whitespace classes a run can fall into (the seven flags of the analysis). */
  datatype Shape =
    | LeadingSpaces       // spaces only, at the start
    | LeadingBreaks       // breaks only, at the start
    | TrailingSpaces      // spaces only, at the end
    | TrailingBreaks      // breaks only, at the end
    | InlineBreaks        // breaks only, strictly inside
    | InlineBreaksSpaces  // breaks then spaces, strictly inside
    | MixedBreaksSpaces   // both, at an edge, or a space before a break inside

  /** Whether a run with the given contents and position has `shape`. */
  predicate Classifies(shape: Shape, spaces: bool, breaks: bool, mixed: bool, leading: bool, trailing: bool) {
    match shape
    case LeadingSpaces => leading && spaces && !breaks
    case LeadingBreaks => leading && breaks && !spaces
    case TrailingSpaces => trailing && spaces && !breaks
    case TrailingBreaks => trailing && breaks && !spaces
    case InlineBreaks => !leading && !trailing && breaks && !spaces
    case InlineBreaksSpaces => !leading && !trailing && spaces && breaks && !mixed
    case MixedBreaksSpaces => spaces && breaks && (leading || trailing || mixed)
  }

  /** The run s[i..j] has `shape`. */
  predicate RunHasShape(s: string, shape: Shape, i: nat, j: nat)
    requires i <= j <= |s|
  {
    Classifies(shape, HasSpace(s, i, j), HasBreak(s, i, j), SpaceBeforeBreak(s, i, j), i == 0, j == |s|)
  }

  /** Some maximal run of the scalar has `shape`. */
  predicate HasShape(s: string, shape: Shape) {
    exists i, j :: 0 <= i < j <= |s| && IsRun(s, i, j) && RunHasShape(s, shape, i, j)
  }

  /** The analysis of a non-empty scalar, permission by permission: each style
      is allowed unless one of the things that rules it out is present. */
  function Expected(scalar: Option<string>, escapeUnicode: bool): ScalarAnalysis
  {
    match scalar
    case None => NullResult
    case Some(s) =>
      if s == "" then EmptyResult(scalar)
      else
        var special := escapeUnicode && HasSpecial(s);
        var anyShape := HasShape(s, LeadingSpaces) || HasShape(s, LeadingBreaks)
          || HasShape(s, TrailingSpaces) || HasShape(s, TrailingBreaks) || HasShape(s, InlineBreaks)
          || HasShape(s, InlineBreaksSpaces) || HasShape(s, MixedBreaksSpaces);
        var plain := !anyShape && !special && !HasLineBreak(s);
        ScalarAnalysis(
          scalar, false, HasLineBreak(s),
          allowFlowPlain := plain && !HasFlowIndicators(s),
          allowBlockPlain := plain && !HasBlockIndicators(s),
          allowSingleQuoted := !special && !HasShape(s, TrailingBreaks) && !HasShape(s, InlineBreaks)
            && !HasShape(s, InlineBreaksSpaces) && !HasShape(s, MixedBreaksSpaces),
          allowDoubleQuoted := true,
          allowBlock := !special && !HasShape(s, LeadingSpaces) && !HasShape(s, LeadingBreaks)
            && !HasShape(s, TrailingSpaces) && !HasShape(s, MixedBreaksSpaces))
  }
}
