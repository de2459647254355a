/** What the expander promises: how `textwrap.indent` treats lines, where the pending
    indentation goes, and when a template newline is dropped after an expansion. */
module ExpanderProps {
  import opened Chars
  import opened Scanner
  import opened Expander

  // ---------------------------------------------------------------------------
  // `textwrap.indent`
  // ---------------------------------------------------------------------------

  /** Indenting keeps every character and adds the prefix in front of some lines, so it
      never empties a text and never changes whether it ends with a newline. */
  lemma {:induction false} IndentEndsNl(s: string, prefix: string)
    ensures EndsNl(Indent(s, prefix)) == EndsNl(s)
    ensures |Indent(s, prefix)| >= |s|
    decreases |s|
  {
    if s != [] {
      var k := LineEnd(s);
      IndentEndsNl(s[k..], prefix);
      if k < |s| {
        assert EndsNl(s) == EndsNl(s[k..]);
      }
    }
  }

  /** The empty prefix changes nothing. */
  lemma {:induction false} IndentNoPrefix(s: string)
    ensures Indent(s, "") == s
    decreases |s|
  {
    if s != [] {
      var k := LineEnd(s);
      IndentNoPrefix(s[k..]);
      assert s == s[..k] + s[k..];
    }
  }

  lemma {:induction false} LineEndAll(s: string)
    requires s != [] && '\n' !in s
    ensures LineEnd(s) == |s|
  {
    if |s| > 1 {
      assert s[1..][0] == s[1];
      assert forall c :: c in s[1..] ==> c in s;
      LineEndAll(s[1..]);
    }
  }

  lemma {:induction false} LineEndFirst(line: string, rest: string)
    requires EndsNl(line) && forall i :: 0 <= i < |line| - 1 ==> line[i] != '\n'
    ensures LineEnd(line + rest) == |line|
  {
    if |line| > 1 {
      var s := line + rest;
      LineEndFirst(line[1..], rest);
      assert s[1..] == line[1..] + rest;
    }
  }

  /** A text without a newline is one line: it gets the prefix exactly when it is not
      whitespace only. */
  lemma IndentOneLine(s: string, prefix: string)
    requires '\n' !in s
    ensures Indent(s, prefix) == if HasContent(s) then prefix + s else s
  {
    if s != [] {
      LineEndAll(s);
      assert s[..|s|] == s && s[|s|..] == [];
    }
  }

  /** Indenting works line by line: a first line ended by '\n' is indented on its own. */
  lemma IndentFirstLine(line: string, rest: string, prefix: string)
    requires EndsNl(line) && forall i :: 0 <= i < |line| - 1 ==> line[i] != '\n'
    ensures Indent(line + rest, prefix) == (if HasContent(line) then prefix + line else line) + Indent(rest, prefix)
  {
    var s := line + rest;
    LineEndFirst(line, rest);
    assert s[..|line|] == line && s[|line|..] == rest;
  }

  /** Every piece with the prefix: what `_expand` yields whether or not there is an indentation
      (the empty prefix changes nothing). */
  function IndentAll(pieces: seq<string>, prefix: string): (r: seq<string>)
    ensures |r| == |pieces|
  {
    seq(|pieces|, i requires 0 <= i < |pieces| => Indent(pieces[i], prefix))
  }

  lemma ExpandIsIndentAll(tok: Token, indent: string, lookup: Lookup)
    requires tok.Ref?
    ensures Expand(tok, indent, lookup) == IndentAll(Resolve(tok, lookup), indent)
  {
    var pieces := Resolve(tok, lookup);
    if indent == "" {
      forall i | 0 <= i < |pieces|
        ensures Expand(tok, indent, lookup)[i] == IndentAll(pieces, indent)[i]
      {
        IndentNoPrefix(pieces[i]);
      }
    }
  }

  // ---------------------------------------------------------------------------
  // The token loop, token by token
  // ---------------------------------------------------------------------------

  /** The indentation waiting to be written: the value of the last token when it is an NDT
      (a later NDT overwrites an earlier one); any CHR or REF clears it. */
  function PendingIndent(toks: seq<Token>): string {
    if toks != [] && toks[|toks| - 1].Ndt? then toks[|toks| - 1].value else ""
  }

  /** A template newline is dropped when the last token before it, NDT tokens aside, is a
      REF that expanded to nothing or whose last piece ends with a newline. */
  function Suppressed(toks: seq<Token>, lookup: Lookup): bool {
    if toks == [] then false
    else
      var tok := toks[|toks| - 1];
      match tok
      case Ndt(_) => Suppressed(toks[..|toks| - 1], lookup)
      case Chr(_) => false
      case Ref(_, _) =>
        var pieces := Resolve(tok, lookup);
        pieces == [] || EndsNl(pieces[|pieces| - 1])
  }

  lemma EmitSnoc(toks: seq<Token>, tok: Token, lookup: Lookup)
    ensures Emit(toks + [tok], lookup) == Step(Emit(toks, lookup), tok, lookup)
  {
    assert (toks + [tok])[..|toks|] == toks;
  }

  /** The loop's `indent` is the pending indentation. */
  lemma EmitIndent(toks: seq<Token>, lookup: Lookup)
    ensures Emit(toks, lookup).indent == PendingIndent(toks)
  {
  }

  /** `last_expand_count` and `last_expand_nl` say exactly when the next newline is dropped. */
  lemma StepFlags(w: Writer, tok: Token, lookup: Lookup)
    ensures var w' := Step(w, tok, lookup);
      (w'.lastExpandNl || w'.lastExpandCount == Some(0))
        == match tok
           case Ndt(_) => w.lastExpandNl || w.lastExpandCount == Some(0)
           case Chr(_) => false
           case Ref(_, _) =>
             var pieces := Resolve(tok, lookup);
             pieces == [] || EndsNl(pieces[|pieces| - 1])
  {
    if tok.Ref? {
      var pieces := Resolve(tok, lookup);
      if pieces != [] {
        IndentEndsNl(pieces[|pieces| - 1], w.indent);
      }
    }
  }

  lemma {:induction false} EmitFlags(toks: seq<Token>, lookup: Lookup)
    ensures Suppressed(toks, lookup)
      == (Emit(toks, lookup).lastExpandNl || Emit(toks, lookup).lastExpandCount == Some(0))
  {
    if toks != [] {
      var init, tok := toks[..|toks| - 1], toks[|toks| - 1];
      assert toks == init + [tok];
      EmitFlags(init, lookup);
      EmitSnoc(init, tok, lookup);
      StepFlags(Emit(init, lookup), tok, lookup);
    }
  }

  /** A newline CHR writes the pending indentation, then the newline unless it is suppressed. */
  lemma NewlineRule(toks: seq<Token>, lookup: Lookup)
    ensures Render(toks + [Chr("\n")], lookup)
      == Render(toks, lookup) + PendingIndent(toks) + (if Suppressed(toks, lookup) then "" else "\n")
    ensures !Suppressed(toks + [Chr("\n")], lookup) && PendingIndent(toks + [Chr("\n")]) == ""
  {
    EmitSnoc(toks, Chr("\n"), lookup);
    EmitFlags(toks, lookup);
    EmitIndent(toks, lookup);
  }

  /** Any other CHR writes the pending indentation and then its text, verbatim. */
  lemma ChrRule(toks: seq<Token>, s: string, lookup: Lookup)
    requires s != "\n"
    ensures Render(toks + [Chr(s)], lookup) == Render(toks, lookup) + PendingIndent(toks) + s
    ensures !Suppressed(toks + [Chr(s)], lookup) && PendingIndent(toks + [Chr(s)]) == ""
  {
    EmitSnoc(toks, Chr(s), lookup);
    EmitIndent(toks, lookup);
  }

  /** An NDT writes nothing; it becomes the pending indentation and leaves the newline
      rule as it was. */
  lemma NdtRule(toks: seq<Token>, s: string, lookup: Lookup)
    ensures Render(toks + [Ndt(s)], lookup) == Render(toks, lookup)
    ensures PendingIndent(toks + [Ndt(s)]) == s
    ensures Suppressed(toks + [Ndt(s)], lookup) == Suppressed(toks, lookup)
  {
    EmitSnoc(toks, Ndt(s), lookup);
    assert (toks + [Ndt(s)])[..|toks|] == toks;
  }

  /** A REF writes every piece it resolves to, each with the pending indentation in front of
      its lines, and clears the pending indentation. */
  lemma RefRule(toks: seq<Token>, name: string, src: string, lookup: Lookup)
    ensures Render(toks + [Ref(name, src)], lookup)
      == Render(toks, lookup) + Join(IndentAll(Resolve(Ref(name, src), lookup), PendingIndent(toks)))
    ensures PendingIndent(toks + [Ref(name, src)]) == ""
  {
    EmitSnoc(toks, Ref(name, src), lookup);
    EmitIndent(toks, lookup);
    ExpandIsIndentAll(Ref(name, src), PendingIndent(toks), lookup);
  }
}
