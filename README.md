# Scalar style analysis, modelled and verified in Dafny

This project models `ScalarAnalysis.analyze` from the YamlBeans emitter. The
function takes a scalar to be written out and decides which YAML scalar styles
would preserve it:
- plain in flow context;
- plain in block context;
- single-quoted;
- double-quoted;
- block (literal/folded).

It also reports whether the scalar is empty (null) and multiline. Java's
nullable `String` is modelled as `Option<string>`; `escapeUnicode` says whether
non-ASCII and non-printable characters must be escaped.

The model follows the source's structure.

- `Chars` holds the character tables: special and flow indicators, the blank
  set `NULL_BL_T_LINEBR`, line breaks, run characters, special characters, and
  the document-marker test.
- `Scan` states one pass of the loop body as a pure step function `Step`. It
  folds that step over the characters (`ScanTo`) and then applies the
  disqualification table (`Derive`).
- `Analyzer` holds the result record, `Analyzed` (the analysis as a
  function), and `Analyze`. `Analyze` is the source's algorithm written
  imperatively: the two special cases, a `while` loop over the characters, then
  the permission-clearing rules. The loop body lives in `ScanCharacter` and its
  helper methods (indicator tests, the whitespace-run state machine, committing
  a run). The rules live in `ApplyRules`. Each is proved equal to the
  corresponding function of `Scan`.
- `Reference` describes the result without the loop, in terms of the scalar
  itself (`Expected`). An indicator is judged by its neighbouring characters.
  Line breaks and special characters count by their presence. Whitespace is
  classified by the maximal runs of spaces and line breaks the scalar contains.
  There are seven shapes: leading or trailing spaces, leading or trailing
  breaks, inline breaks, inline breaks-then-spaces, and mixed. A run has at
  most two of them: a pure inline-space run has none, and a pure run spanning
  the whole scalar is both leading and trailing.
- `ScanFacts` proves, by induction over the fold, what each flag of the scan
  state means after any prefix. `Properties` concludes that
  `Analyzed == Expected` for every input and derives the properties below from
  it. `Examples` checks concrete scalars for both values of the escape flag.

Three details of the code that decide results:

- `mixed` is set only when a break follows a space (lines 176-184). A
  break-then-space run is `inlineBreaksSpaces`, or `mixedBreaksSpaces` when it
  is leading or trailing.
- Every inline pure-break run clears single-quoted (lines 259-263), so
  `"line1\nline2"` is double-quoted or block only (`Examples.InnerBreakExample`).
- The document-marker pattern `^(---|\.\.\.)` is applied with `matches()`, which
  anchors it at both ends. Only the whole scalar `---` or `...` is a marker;
  `---x` is plain (`Examples.DashesBeforeTextArePlain`).

## Model

| member | source | states |
|---|---|---|
| Analyzer.Analyze | src/com/esotericsoftware/yamlbeans/emitter/ScalarAnalysis.java:90-292 | The imperative analysis (special cases, scanning loop, clearing rules) returns exactly `Analyzed(scalar, escapeUnicode)` for every input |
| Analyzer.Analyzed | src/com/esotericsoftware/yamlbeans/emitter/ScalarAnalysis.java:90-112 | The result carries the input scalar; double-quoted is always allowed; `empty` holds exactly for null |
| Chars.IsDocumentMarker | src/com/esotericsoftware/yamlbeans/emitter/ScalarAnalysis.java:130-133 | No contract of its own: the anchored marker test, whose meaning is given by `ScanFacts.IndicatorsSeen` and `Properties.DocumentMarkerIsNotPlain` |
| Scan.Init | src/com/esotericsoftware/yamlbeans/emitter/ScalarAnalysis.java:115-143 | No contract of its own: the state before the loop, whose meaning is given by `ScanFacts.Neighbours`, `ScanFacts.IndicatorsSeen` and `ScanFacts.WhitespaceSeen` at index 0 |
| Scan.Step | src/com/esotericsoftware/yamlbeans/emitter/ScalarAnalysis.java:145-227 | No contract of its own: one loop pass, implemented by `Analyzer.ScanCharacter`; its meaning is given by the `ScanFacts` lemmas |
| Scan.ScanTo | src/com/esotericsoftware/yamlbeans/emitter/ScalarAnalysis.java:145-228 | No contract of its own: the loop as a fold, the invariant of `Analyzer.Analyze`; its meaning is given by `ScanFacts.LineBreaksSeen`, `SpecialSeen`, `IndicatorsSeen` and `WhitespaceSeen` |
| Scan.Derive | src/com/esotericsoftware/yamlbeans/emitter/ScalarAnalysis.java:229-280 | No contract of its own: the clearing rules in closed form, implemented by `Analyzer.ApplyRules`; its meaning is given by `Properties.AnalyzedMatchesExpected` |
| Analyzer.ScanCharacter | src/com/esotericsoftware/yamlbeans/emitter/ScalarAnalysis.java:145-227 | One pass of the loop body produces the successor state `Step` of the current state |
| Analyzer.DetectIndicators | src/com/esotericsoftware/yamlbeans/emitter/ScalarAnalysis.java:147-170 | The position-0 and later-position indicator tests raise each indicator flag exactly when the character is an indicator given its neighbours |
| Analyzer.ExtendRun | src/com/esotericsoftware/yamlbeans/emitter/ScalarAnalysis.java:175-191 | A space or break extends the open run: spaces and breaks accumulate, a break after a space makes it mixed, a new run records whether it starts at index 0 |
| Analyzer.CloseRun | src/com/esotericsoftware/yamlbeans/emitter/ScalarAnalysis.java:192-211 | A non-run character commits the open run to the leading, mixed, inline breaks-spaces or inline breaks flag; pure inline spaces commit nothing |
| Analyzer.CloseTrailingRun | src/com/esotericsoftware/yamlbeans/emitter/ScalarAnalysis.java:213-224 | A run reaching the end is committed as trailing (and leading too when it started the scalar), or as mixed when it holds both kinds |
| Analyzer.TrackWhitespace | src/com/esotericsoftware/yamlbeans/emitter/ScalarAnalysis.java:175-224 | The whole run machine for one character yields the step function's whitespace flags and open run |
| Analyzer.ApplyRules | src/com/esotericsoftware/yamlbeans/emitter/ScalarAnalysis.java:229-280 | The sequential clearing rules give the permission table `Derive` of the final state, independent of rule order |
| ScanFacts.LineBreaksSeen | src/com/esotericsoftware/yamlbeans/emitter/ScalarAnalysis.java:171 | After n characters the line-break flag holds iff one of them is LF or NEXT LINE |
| ScanFacts.SpecialSeen | src/com/esotericsoftware/yamlbeans/emitter/ScalarAnalysis.java:172-174 | After n characters the special flag holds iff escaping is on and one of them is neither LF nor tab and outside space..tilde |
| ScanFacts.EscapeOnlyTouchesSpecial | src/com/esotericsoftware/yamlbeans/emitter/ScalarAnalysis.java:172-174 | The escape flag changes no part of the scan state except the special-characters flag |
| ScanFacts.Neighbours | src/com/esotericsoftware/yamlbeans/emitter/ScalarAnalysis.java:135-136 | At every index the preceded-by-space flag tests the previous character (true at index 0) and the followed-by-space flag tests the next one (true at the last index, hence for a one-character scalar) |
| ScanFacts.IndicatorsSeen | src/com/esotericsoftware/yamlbeans/emitter/ScalarAnalysis.java:130-170 | After n characters each indicator flag holds iff the scalar is a document marker or one of those characters is an indicator judged by its actual neighbours |
| ScanFacts.CommitRaises | src/com/esotericsoftware/yamlbeans/emitter/ScalarAnalysis.java:193-209 | Committing an open run raises exactly the flags of the inner or leading shapes its contents give |
| ScanFacts.CommitTrailingRaises | src/com/esotericsoftware/yamlbeans/emitter/ScalarAnalysis.java:213-222 | Committing a run at the end raises exactly the flags of the trailing shapes its contents give |
| ScanFacts.RunStepDescribes | src/com/esotericsoftware/yamlbeans/emitter/ScalarAnalysis.java:175-191 | Each step keeps the open-run flags equal to the contents of the run of spaces and breaks ending at the current index |
| ScanFacts.WhitespaceSeen | src/com/esotericsoftware/yamlbeans/emitter/ScalarAnalysis.java:120-128 | After n characters the open run is the run ending there, and each whitespace flag holds iff some maximal run committed so far has its shape |
| Properties.FinalWhitespace | src/com/esotericsoftware/yamlbeans/emitter/ScalarAnalysis.java:175-224 | At the end of the scan each whitespace flag holds iff some maximal run of the scalar has its shape |
| Properties.AnalyzedMatchesExpected | src/com/esotericsoftware/yamlbeans/emitter/ScalarAnalysis.java:90-292 | The analysis equals the loop-free reference description for every input and escape flag |
| Properties.NullScalar | src/com/esotericsoftware/yamlbeans/emitter/ScalarAnalysis.java:91-101 | Null: empty, single line; block plain, single- and double-quoted allowed; flow plain and block refused |
| Properties.EmptyString | src/com/esotericsoftware/yamlbeans/emitter/ScalarAnalysis.java:102-112 | The empty string: not empty, single line, only double-quoted allowed |
| Properties.MultilineIffLineBreak | src/com/esotericsoftware/yamlbeans/emitter/ScalarAnalysis.java:171 | Multiline holds iff the scalar is present and contains LF or NEXT LINE |
| Properties.MultilineIsNeverPlain | src/com/esotericsoftware/yamlbeans/emitter/ScalarAnalysis.java:269-272 | A multiline result allows neither plain style |
| Properties.BlockIndicatorsAreFlowIndicators | src/com/esotericsoftware/yamlbeans/emitter/ScalarAnalysis.java:147-170 | A scalar with a block indicator also has a flow indicator |
| Properties.FlowPlainImpliesBlockPlain | src/com/esotericsoftware/yamlbeans/emitter/ScalarAnalysis.java:274-280 | For every input, flow plain allowed implies block plain allowed |
| Properties.PlainImpliesQuotedAndBlock | src/com/esotericsoftware/yamlbeans/emitter/ScalarAnalysis.java:235-272 | For a present scalar, block plain allowed implies single-quoted and block allowed |
| Properties.EscapingNeverGrants | src/com/esotericsoftware/yamlbeans/emitter/ScalarAnalysis.java:252-257 | Turning escaping on never grants a style and leaves empty and multiline unchanged |
| Properties.EscapingIrrelevantWithoutSpecial | src/com/esotericsoftware/yamlbeans/emitter/ScalarAnalysis.java:172-174 | Without special characters the result does not depend on the escape flag |
| Properties.SpecialLeavesOnlyDoubleQuoted | src/com/esotericsoftware/yamlbeans/emitter/ScalarAnalysis.java:252-257 | With escaping on, one special character leaves double-quoted as the only style |
| Properties.IndicatorRulesOutPlain | src/com/esotericsoftware/yamlbeans/emitter/ScalarAnalysis.java:274-280 | A flow (block) indicator at any position rules out flow (block) plain |
| Properties.DocumentMarkerIsNotPlain | src/com/esotericsoftware/yamlbeans/emitter/ScalarAnalysis.java:130-133 | `---` and `...` are plain in neither context |
| Properties.LeadingSpaceRulesOutPlainAndBlock | src/com/esotericsoftware/yamlbeans/emitter/ScalarAnalysis.java:235-239 | A scalar starting with a space allows neither plain style nor block |
| Properties.TrailingSpaceRulesOutPlainAndBlock | src/com/esotericsoftware/yamlbeans/emitter/ScalarAnalysis.java:213-218 | A scalar ending with a space allows neither plain style nor block |
| Properties.TrailingBreakRulesOutSingleQuoted | src/com/esotericsoftware/yamlbeans/emitter/ScalarAnalysis.java:241-267 | A scalar ending with a line break is multiline and allows neither plain style nor single-quoted |
| Properties.AllSpacesAreLeadingAndTrailing | src/com/esotericsoftware/yamlbeans/emitter/ScalarAnalysis.java:216-218 | A scalar of spaces only raises both the leading-spaces and the trailing-spaces flag |
| Properties.SingleLineKeepsQuotes | src/com/esotericsoftware/yamlbeans/emitter/ScalarAnalysis.java:246-267 | A present, non-empty single-line scalar with nothing to escape is always allowed single- and double-quoted |
| Properties.InnerSpacesHaveNoShape | src/com/esotericsoftware/yamlbeans/emitter/ScalarAnalysis.java:205-206 | A non-empty single-line scalar that neither starts nor ends with a space has no whitespace run of any shape |
| Properties.InnerSpacesKeepQuotedAndBlock | src/com/esotericsoftware/yamlbeans/emitter/ScalarAnalysis.java:235-257 | A non-empty single-line scalar that neither starts nor ends with a space, with nothing to escape, keeps both quoted styles and block whatever indicators it holds |
| Properties.InnerSpacesAllowEverything | src/com/esotericsoftware/yamlbeans/emitter/ScalarAnalysis.java:229-280 | A non-empty single-line scalar that neither starts nor ends with a space, with nothing to escape and no flow indicator, is allowed every style |
| Properties.InnerBreakRulesOutSingleQuoted | src/com/esotericsoftware/yamlbeans/emitter/ScalarAnalysis.java:259-263 | A lone line break strictly inside text makes the scalar multiline and rules out both plain styles and single-quoted |
| Properties.NoSpacesKeepBlock | src/com/esotericsoftware/yamlbeans/emitter/ScalarAnalysis.java:235-257 | A scalar without spaces whose first and last characters are not spaces or breaks keeps block style when nothing must be escaped |
| Properties.EdgeRunShape | src/com/esotericsoftware/yamlbeans/emitter/ScalarAnalysis.java:193-222 | A run holding a space and touching an edge of the scalar is itself leading spaces, trailing spaces or mixed, so the scalar has a run of that shape |
| Examples.ListItemIsNotPlain | src/com/esotericsoftware/yamlbeans/emitter/ScalarAnalysis.java:156-159 | `- list item` is plain in neither context but keeps both quoted styles and block |
| Examples.ColonSpaceIsNotPlain | src/com/esotericsoftware/yamlbeans/emitter/ScalarAnalysis.java:162-165 | `a: b` is plain in neither context |
| Examples.TrailingColonIsNotPlain | src/com/esotericsoftware/yamlbeans/emitter/ScalarAnalysis.java:162-165 | `a:` is plain in neither context (the end counts as followed by space) |
| Examples.CommentIsNotPlain | src/com/esotericsoftware/yamlbeans/emitter/ScalarAnalysis.java:166-169 | `a #b` is plain in neither context |
| Examples.LoneDashIsNotPlain | src/com/esotericsoftware/yamlbeans/emitter/ScalarAnalysis.java:136 | `-` is plain in neither context (a one-character scalar counts as followed by space) |
| Examples.DocumentMarkersAreNotPlain | src/com/esotericsoftware/yamlbeans/emitter/ScalarAnalysis.java:130-133 | `---` and `...` are plain in neither context |
| Examples.DashesBeforeTextArePlain | src/com/esotericsoftware/yamlbeans/emitter/ScalarAnalysis.java:24 | `---x` is no document marker and is allowed every style |
| Examples.HashInsideWordIsPlain | src/com/esotericsoftware/yamlbeans/emitter/ScalarAnalysis.java:166 | `a#b` is allowed every style |
| Examples.WordTakesEveryStyle | src/com/esotericsoftware/yamlbeans/emitter/ScalarAnalysis.java:229-233 | `hello` is allowed every style |
| Examples.InnerSpaceTakesEveryStyle | src/com/esotericsoftware/yamlbeans/emitter/ScalarAnalysis.java:205-206 | `a b` is allowed every style |
| Examples.LeadingSpacesAreQuoted | src/com/esotericsoftware/yamlbeans/emitter/ScalarAnalysis.java:196-197 | `  x` is refused both plain styles and block but allowed both quoted styles |
| Examples.TrailingSpaceIsQuoted | src/com/esotericsoftware/yamlbeans/emitter/ScalarAnalysis.java:216-217 | `x ` is refused both plain styles and block but allowed both quoted styles |
| Examples.SpacesOnlyAreLeadingAndTrailing | src/com/esotericsoftware/yamlbeans/emitter/ScalarAnalysis.java:216-218 | Three spaces raise both the leading-spaces and trailing-spaces flags |
| Examples.TrailingBreakExample | src/com/esotericsoftware/yamlbeans/emitter/ScalarAnalysis.java:219-221 | `x\n` is multiline, neither plain nor single-quoted, but double-quoted and block |
| Examples.InnerBreakExample | src/com/esotericsoftware/yamlbeans/emitter/ScalarAnalysis.java:259-263 | `line1\nline2` is multiline, neither plain nor single-quoted, but double-quoted and block |
| Examples.TrailingTabIsPlain | src/com/esotericsoftware/yamlbeans/emitter/ScalarAnalysis.java:175 | A trailing tab forms no whitespace run: `x\t` is allowed every style |
| Examples.NonAsciiExample | src/com/esotericsoftware/yamlbeans/emitter/ScalarAnalysis.java:172-174 | `é` takes every style without escaping and only double-quoted with it |

## Left out

- The `Builder` class, the two constructors and the getters (lines 42-88 and
  from line 294): the result is an immutable datatype built in one expression.
- The regular-expression engine: `DOCUMENT_INDICATOR` with `matches()` is
  modelled as equality with `---` or `...`.
- UTF-16 code units. Java's `charAt` yields UTF-16 units, while a Dafny `char`
  is a Unicode scalar value. A character outside the Basic Multilingual Plane is
  one `char` here but two surrogate units in the source. Both forms are
  special under escaping and neither is blank or an indicator, but the model
  does not prove that the two views agree.
- The emitter that consumes the result, and every other part of the library.
- The single method of the source: here the loop body is split into helper methods
  (`ScanCharacter`, `DetectIndicators`, `TrackWhitespace`, `ExtendRun`,
  `CloseRun`, `CloseTrailingRun`) and its final rules into `ApplyRules`. The
  source has one method with local variables. The state those locals carry is
  passed as a `ScanState` value; the order of the updates is unchanged.
