/** Character tables the analyzer classifies with (ScalarAnalysis.java, lines 24-31). */
module Chars {

  /** U+0085 NEXT LINE, the one non-ASCII line break the analyzer knows. */
  const NextLine: char := '\U{85}'

  /** SPECIAL_INDICATOR: characters that make a scalar unsafe when they start it. */
  predicate IsSpecialIndicator(c: char) {
    c == '#' || c == ',' || c == '[' || c == ']' || c == '{' || c == '}' || c == '&' || c == '*'
    || c == '!' || c == '|' || c == '>' || c == '\'' || c == '"' || c == '%' || c == '@' || c == '`'
  }

  /** FLOW_INDICATOR: characters that are structural anywhere inside a flow collection. */
  predicate IsFlowIndicator(c: char) {
    c == ',' || c == '?' || c == '[' || c == ']' || c == '{' || c == '}'
  }

  /** NULL_BL_T_LINEBR: the characters that count as "space" for the
      preceded-by-space and followed-by-space tests. */
  predicate IsBlank(c: char) {
    c == '\0' || c == ' ' || c == '\t' || c == '\r' || c == '\n' || c == NextLine
  }

  /** A line break: LF or NEXT LINE. Sets the multiline flag. */
  predicate IsLineBreak(c: char) {
    c == '\n' || c == NextLine
  }

  /** The characters that form whitespace runs: a space or a line break.
      Tab, CR and NUL are blank but never part of a run. */
  predicate IsRunChar(c: char) {
    c == ' ' || IsLineBreak(c)
  }

  /** A character that must be escaped when non-ASCII output is refused:
      neither LF nor tab, and outside the printable range space .. tilde. */
  predicate IsSpecial(c: char) {
    c != '\n' && c != '\t' && !(' ' <= c <= '~')
  }

  /** DOCUMENT_INDICATOR matched against the WHOLE scalar: the pattern is
      anchored by matches(), so only the exact strings qualify. */
  predicate IsDocumentMarker(s: string) {
    s == "---" || s == "..."
  }
}
