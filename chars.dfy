/** Character classes and line helpers shared by the scanner and the expander.
    Python's Unicode-aware `isalpha`/`isalnum`/`isspace` are modelled on ASCII. */
module Chars {

  predicate IsAlpha(c: char) {
    'a' <= c <= 'z' || 'A' <= c <= 'Z'
  }

  predicate IsDigit(c: char) {
    '0' <= c <= '9'
  }

  predicate IsAlnum(c: char) {
    IsAlpha(c) || IsDigit(c)
  }

  /** The characters that may start an indentation run: a space or a tab. */
  predicate IsBlank(c: char) {
    c == ' ' || c == '\t'
  }

  /** ASCII whitespace as Python's `str.isspace` sees it. */
  predicate IsSpace(c: char) {
    c == ' ' || c == '\t' || c == '\n' || c == '\r' || c == '\U{000B}' || c == '\U{000C}'
    || c == '\U{001C}' || c == '\U{001D}' || c == '\U{001E}' || c == '\U{001F}'
  }

  /** A letter or an underscore: starts a name, and is the only thing that continues a braced one. */
  predicate NameStart(c: char) {
    IsAlpha(c) || c == '_'
  }

  /** A letter, a digit or an underscore: continues a bare name. */
  predicate NameChar(c: char) {
    IsAlnum(c) || c == '_'
  }

  /** The name of a bare reference `&name`. */
  predicate IsBareName(s: string) {
    |s| > 0 && NameStart(s[0]) && forall i :: 1 <= i < |s| ==> NameChar(s[i])
  }

  /** The name of a braced reference `&{name}`: letters and underscores only. */
  predicate IsBracedName(s: string) {
    |s| > 0 && forall i :: 0 <= i < |s| ==> NameStart(s[i])
  }

  predicate AllBlank(s: string) {
    forall i :: 0 <= i < |s| ==> IsBlank(s[i])
  }

  predicate EndsNl(s: string) {
    |s| > 0 && s[|s| - 1] == '\n'
  }

  predicate EndsWith(s: string, suffix: string) {
    |suffix| <= |s| && s[|s| - |suffix|..] == suffix
  }

  /** The characters after the last newline of `s`: the line being read. */
  function LastLine(s: string): (r: string)
    ensures EndsWith(s, r) && '\n' !in r
    ensures |r| < |s| ==> s[|s| - |r| - 1] == '\n'
  {
    if s == [] then []
    else if s[|s| - 1] == '\n' then []
    else LastLine(s[..|s| - 1]) + [s[|s| - 1]]
  }
}
