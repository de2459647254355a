/** The expander of template.py (the token loop of `print`, with `_resolve` and `_expand`):
    what each token writes, given the values the template's names are bound to. */
module Expander {
  import opened Chars
  import opened Scanner

  /** A value as `_resolve` sees it once callables have been called and scalars turned into
      text: `None`, one scalar, or an iterator over the items it yields. */
  datatype Value = Null | Scalar(text: string) | Iter(items: seq<string>)

  type Lookup = map<string, Value>

  /** `_resolve`: the pieces a reference expands to. */
  function Resolve(tok: Token, lookup: Lookup): (r: seq<string>)
    requires tok.Ref?
    ensures tok.name !in lookup ==> r == [tok.value]
    ensures tok.name in lookup && lookup[tok.name].Null? ==> r == [""]
    ensures tok.name in lookup && lookup[tok.name].Iter? ==> r == lookup[tok.name].items
    ensures tok.name in lookup && lookup[tok.name].Scalar? ==> r == [lookup[tok.name].text]
  {
    if tok.name in lookup && !lookup[tok.name].Null? then
      var value := lookup[tok.name];
      if value.Iter? then value.items else [value.text]
    else if tok.name in lookup then [""]
    else [tok.value]
  }

  // ---------------------------------------------------------------------------
  // `textwrap.indent` with its default predicate, on lines ended by '\n'
  // ---------------------------------------------------------------------------

  /** The length of the first line of `s`, its '\n' included. */
  function LineEnd(s: string): (k: nat)
    requires s != []
    ensures 1 <= k <= |s|
    ensures forall i :: 0 <= i < k - 1 ==> s[i] != '\n'
    ensures k < |s| ==> s[k - 1] == '\n'
  {
    if s[0] == '\n' || |s| == 1 then 1 else 1 + LineEnd(s[1..])
  }

  /** A line that is not whitespace only. */
  predicate HasContent(line: string) {
    exists i :: 0 <= i < |line| && !IsSpace(line[i])
  }

  /** `textwrap.indent(s, prefix)`: `prefix` goes in front of every line that is not
      whitespace only. */
  function Indent(s: string, prefix: string): string
    decreases |s|
  {
    if s == [] then []
    else
      var k := LineEnd(s);
      (if HasContent(s[..k]) then prefix + s[..k] else s[..k]) + Indent(s[k..], prefix)
  }

  /** `_expand`: the pieces of a reference, each indented by the pending indentation when
      there is one. */
  function Expand(tok: Token, indent: string, lookup: Lookup): (r: seq<string>)
    requires tok.Ref?
    ensures |r| == |Resolve(tok, lookup)|
  {
    var pieces := Resolve(tok, lookup);
    seq(|pieces|, i requires 0 <= i < |pieces| => if indent != "" then Indent(pieces[i], indent) else pieces[i])
  }

  /** The text a sequence of `write` calls leaves in the sink. */
  function Join(pieces: seq<string>): string {
    if pieces == [] then [] else Join(pieces[..|pieces| - 1]) + pieces[|pieces| - 1]
  }

  // ---------------------------------------------------------------------------
  // The token loop of `print` as functions: the specification of `Template.Print`.
  // ---------------------------------------------------------------------------

  /** The sink's contents and the loop's three running variables. An empty `indent`
      stands for `None`; `lastExpandCount` is `None` until a reference is expanded. */
  datatype Writer = Writer(out: string, indent: string, lastExpandCount: Option<nat>, lastExpandNl: bool)

  function Fresh(): Writer {
    Writer("", "", None, false)
  }

  /** One iteration of the token loop. The sink only grows; an NDT writes nothing and becomes
      the pending indentation, which any other token clears. */
  function Step(w: Writer, tok: Token, lookup: Lookup): (r: Writer)
    ensures w.out <= r.out
    ensures tok.Ndt? ==> r.out == w.out
    ensures r.indent == if tok.Ndt? then tok.value else ""
  {
    match tok
    case Chr(s) =>
      var out := w.out + w.indent;
      var dropped := s == "\n" && (w.lastExpandNl || w.lastExpandCount == Some(0));
      Writer(if dropped then out else out + s, "", None, false)
    case Ndt(s) =>
      w.(indent := s)
    case Ref(_, _) =>
      var pieces := Expand(tok, w.indent, lookup);
      Writer(w.out + Join(pieces), "", Some(|pieces|),
             if pieces == [] then w.lastExpandNl else EndsNl(pieces[|pieces| - 1]))
  }

  /** The loop's variables after the tokens `toks`. */
  function Emit(toks: seq<Token>, lookup: Lookup): Writer {
    if toks == [] then Fresh()
    else Step(Emit(toks[..|toks| - 1], lookup), toks[|toks| - 1], lookup)
  }

  /** What the token loop writes for `toks`. */
  function Render(toks: seq<Token>, lookup: Lookup): string {
    Emit(toks, lookup).out
  }
}
