/** The entry points of template.py, `print` and `format`, and what they produce end to end. */
module Template {
  import opened Chars
  import opened Scanner
  import opened ScannerProps
  import opened Expander
  import opened ExpanderProps

  /** What `print` writes to its sink, or the error raised before anything is written when
      `varchar` is not a single character. `text` is the template after `textwrap.dedent`. */
  function Printed(text: string, context: Lookup, varchar: Option<string>): (r: Result<string>)
    ensures r.Err? <==> varchar.Some? && |varchar.value| != 1
  {
    match NewParser(varchar)
    case Err(e) => Err(e)
    case Ok(parser) => Ok(Render(Tokens(text, parser.varchar), context))
  }

  /** `print`: builds the parser, then runs the token loop, appending to the sink. */
  method Print(text: string, context: Lookup, varchar: Option<string>) returns (r: Result<string>)
    ensures r == Printed(text, context, varchar)
    ensures r.Err? <==> varchar.Some? && |varchar.value| != 1
  {
    var parser := NewParser(varchar);
    if parser.Err? {
      return Err(parser.error);
    }
    var toks;
    ghost var turns;
    toks, turns := Tokenize(parser.value, text);
    var out := "";
    var indent := "";
    var lastExpandCount: Option<nat> := None;
    var lastExpandNl := false;
    for i := 0 to |toks|
      invariant Writer(out, indent, lastExpandCount, lastExpandNl) == Emit(toks[..i], context)
    {
      assert toks[..i + 1] == toks[..i] + [toks[i]];
      EmitSnoc(toks[..i], toks[i], context);
      out, indent, lastExpandCount, lastExpandNl := Consume(out, indent, lastExpandCount, lastExpandNl, toks[i], context);
    }
    assert toks[..|toks|] == toks;
    return Ok(out);
  }

  /** One iteration of the token loop of `print`, on its running variables. */
  method Consume(out: string, indent: string, lastExpandCount: Option<nat>, lastExpandNl: bool, tok: Token, context: Lookup)
    returns (out': string, indent': string, lastExpandCount': Option<nat>, lastExpandNl': bool)
    ensures Writer(out', indent', lastExpandCount', lastExpandNl')
      == Step(Writer(out, indent, lastExpandCount, lastExpandNl), tok, context)
  {
    out', indent', lastExpandCount', lastExpandNl' := out, indent, lastExpandCount, lastExpandNl;
    match tok
    case Chr(s) =>
      if indent' != "" {
        out' := out' + indent';
        indent' := "";
      }
      if s == "\n" {
        if !(lastExpandNl' || lastExpandCount' == Some(0)) {
          out' := out' + s;
        }
      } else {
        out' := out' + s;
      }
      lastExpandCount' := None;
      lastExpandNl' := false;
    case Ndt(s) =>
      indent' := s;
    case Ref(_, _) =>
      var pieces := Expand(tok, indent', context);
      var count: nat;
      out', count, lastExpandNl' := WritePieces(out', pieces, lastExpandNl');
      lastExpandCount' := Some(count);
      indent' := "";
  }

  /** The inner loop of the REF case: writes every piece, counting them and remembering
      whether the last one ended with a newline. */
  method WritePieces(out: string, pieces: seq<string>, lastExpandNl: bool) returns (out': string, count: nat, lastExpandNl': bool)
    ensures out' == out + Join(pieces) && count == |pieces|
    ensures lastExpandNl' == if pieces == [] then lastExpandNl else EndsNl(pieces[|pieces| - 1])
  {
    out', count, lastExpandNl' := out, 0, lastExpandNl;
    for k := 0 to |pieces|
      invariant out' == out + Join(pieces[..k])
      invariant count == k
      invariant lastExpandNl' == if k == 0 then lastExpandNl else EndsNl(pieces[k - 1])
    {
      assert pieces[..k + 1][..k] == pieces[..k];
      out' := out' + pieces[k];
      count := k + 1;
      lastExpandNl' := EndsNl(pieces[k]);
    }
    assert pieces[..|pieces|] == pieces;
  }

  /** `format`: `print` into a string, with the keyword values overriding the context. */
  method Format(text: string, context: Lookup, varchar: Option<string>, kwargs: Lookup) returns (r: Result<string>)
    ensures r == Printed(text, context + kwargs, varchar)
  {
    r := Print(text, context + kwargs, varchar);
  }

  // ---------------------------------------------------------------------------
  // End to end
  // ---------------------------------------------------------------------------

  /** What reading a template without `varchar` keeps true, given the last line read so far:
      the scanner is outside references or in an indentation run, which it is exactly when
      that line is non-empty and blank, and the loop has written everything read so far except
      that run. */
  ghost predicate Plain(p: string, line: string, m: Machine, w: Writer) {
    && (m.state == 0 || m.state == 9)
    && w.indent == "" && w.lastExpandCount == None && !w.lastExpandNl
    && w.out + (if m.state == 9 then m.indent else "") == p
    && (m.state == 9 <==> line != [] && AllBlank(line))
  }

  /** The last line after reading `c`. */
  function NextLine(line: string, c: char): string {
    if c == '\n' then [] else line + [c]
  }

  /** Outside references, a blank read in column 1 starts an indentation run. */
  lemma RunSnocStart(q: string, c: char, v: char)
    requires Run(q, v).state == 0 && c != v && LastLine(q) == [] && IsBlank(c)
    ensures Run(q + [c], v) == Run(q, v).(col := 1, indent := [c], state := 9)
  {
    RunSnoc(q, c, v);
    RunColumn(q, v);
  }

  /** Outside references, any other character that is not `varchar` is a CHR. */
  lemma RunSnocChr(q: string, c: char, v: char)
    requires Run(q, v).state == 0 && c != v && !(LastLine(q) == [] && IsBlank(c))
    ensures var m := Run(q, v);
      Run(q + [c], v) == m.(col := NextCol(m.col, c), toks := m.toks + [Chr([c])])
  {
    RunSnoc(q, c, v);
    RunColumn(q, v);
  }

  /** In an indentation run, a blank extends it. */
  lemma RunSnocBlank(q: string, c: char, v: char)
    requires Run(q, v).state == 9 && c != v && IsBlank(c)
    ensures var m := Run(q, v);
      Run(q + [c], v) == m.(col := NextCol(m.col, c), indent := m.indent + [c])
  {
    RunSnoc(q, c, v);
  }

  /** In an indentation run, anything else that is not `varchar` ends it and is a CHR. */
  lemma RunSnocEnd(q: string, c: char, v: char)
    requires Run(q, v).state == 9 && c != v && !IsBlank(c)
    ensures var m := Run(q, v);
      Run(q + [c], v) == m.(col := NextCol(m.col, c), toks := m.toks + [Ndt(m.indent), Chr([c])], indent := "", state := 0)
  {
    RunSnoc(q, c, v);
  }

  lemma EmitNdtChr(toks: seq<Token>, s: string, c: char, lookup: Lookup)
    ensures Emit(toks + [Ndt(s), Chr([c])], lookup) == Step(Step(Emit(toks, lookup), Ndt(s), lookup), Chr([c]), lookup)
  {
    EmitSnoc(toks, Ndt(s), lookup);
    EmitSnoc(toks + [Ndt(s)], Chr([c]), lookup);
    assert toks + [Ndt(s), Chr([c])] == toks + [Ndt(s)] + [Chr([c])];
  }

  lemma AllBlankSnoc(s: string, c: char)
    ensures AllBlank(s + [c]) <==> AllBlank(s) && IsBlank(c)
  {
    if AllBlank(s) && IsBlank(c) {
      forall i | 0 <= i < |s + [c]|
        ensures IsBlank((s + [c])[i])
      {
        if i < |s| {
          assert (s + [c])[i] == s[i];
        }
      }
    }
    if AllBlank(s + [c]) {
      assert (s + [c])[|s|] == c;
      forall i | 0 <= i < |s|
        ensures IsBlank(s[i])
      {
        assert (s + [c])[i] == s[i];
      }
    }
  }

  /** A blank read in column 1 starts an indentation run. */
  lemma PlainStartRun(q: string, c: char, m: Machine, w: Writer)
    requires m.state == 0 && Plain(q, [], m, w) && IsBlank(c)
    ensures Plain(q + [c], [c], m.(col := 1, indent := [c], state := 9), w)
  {
    assert w.out == q;
  }

  /** Any other character read outside references is a CHR, written as it is. */
  lemma PlainChr(q: string, line: string, c: char, m: Machine, w: Writer, m': Machine, lookup: Lookup)
    requires m.state == 0 && Plain(q, line, m, w) && !(line == [] && IsBlank(c)) && m'.state == 0
    ensures Plain(q + [c], NextLine(line, c), m', Step(w, Chr([c]), lookup))
  {
    assert Step(w, Chr([c]), lookup) == Writer(q + [c], "", None, false);
    if c != '\n' {
      AllBlankSnoc(line, c);
    }
  }

  /** A blank read in an indentation run extends it. */
  lemma PlainExtendRun(q: string, c: char, m: Machine, w: Writer)
    requires m.state == 9 && Plain(q, m.indent, m, w) && IsBlank(c)
    ensures Plain(q + [c], m.indent + [c], m.(col := NextCol(m.col, c), indent := m.indent + [c]), w)
  {
    AllBlankSnoc(m.indent, c);
    assert w.out + (m.indent + [c]) == (w.out + m.indent) + [c];
  }

  /** Anything else read in an indentation run ends it: the run and the character are written. */
  lemma PlainEndRun(q: string, c: char, m: Machine, w: Writer, m': Machine, lookup: Lookup)
    requires m.state == 9 && Plain(q, m.indent, m, w) && !IsBlank(c) && m'.state == 0
    ensures Plain(q + [c], NextLine(m.indent, c), m', Step(Step(w, Ndt(m.indent), lookup), Chr([c]), lookup))
  {
    assert Step(Step(w, Ndt(m.indent), lookup), Chr([c]), lookup) == Writer(q + [c], "", None, false);
    if c != '\n' {
      AllBlankSnoc(m.indent, c);
    }
  }

  /** The scanner and the loop after a blank in column 1, outside references. */
  lemma PlainSnocStart(q: string, c: char, v: char, lookup: Lookup)
    requires c != v && Run(q, v).state == 0 && LastLine(q) == [] && IsBlank(c)
    requires Plain(q, LastLine(q), Run(q, v), Emit(Run(q, v).toks, lookup))
    ensures Plain(q + [c], LastLine(q + [c]), Run(q + [c], v), Emit(Run(q + [c], v).toks, lookup))
  {
    LastLineSnoc(q, c);
    RunSnocStart(q, c, v);
    PlainStartRun(q, c, Run(q, v), Emit(Run(q, v).toks, lookup));
  }

  /** The scanner and the loop after any other character, outside references. */
  lemma PlainSnocChr(q: string, c: char, v: char, lookup: Lookup)
    requires c != v && Run(q, v).state == 0 && !(LastLine(q) == [] && IsBlank(c))
    requires Plain(q, LastLine(q), Run(q, v), Emit(Run(q, v).toks, lookup))
    ensures Plain(q + [c], LastLine(q + [c]), Run(q + [c], v), Emit(Run(q + [c], v).toks, lookup))
  {
    var m := Run(q, v);
    var w := Emit(m.toks, lookup);
    var m' := m.(col := NextCol(m.col, c), toks := m.toks + [Chr([c])]);
    assert Run(q + [c], v) == m' by { RunSnocChr(q, c, v); }
    assert Emit(m'.toks, lookup) == Step(w, Chr([c]), lookup) by { EmitSnoc(m.toks, Chr([c]), lookup); }
    assert LastLine(q + [c]) == NextLine(LastLine(q), c) by { LastLineSnoc(q, c); }
    PlainChr(q, LastLine(q), c, m, w, m', lookup);
  }

  /** The scanner and the loop after a blank, in an indentation run. */
  lemma PlainSnocBlank(q: string, c: char, v: char, lookup: Lookup)
    requires c != v && IsBlank(c) && Run(q, v).state == 9
    requires Plain(q, LastLine(q), Run(q, v), Emit(Run(q, v).toks, lookup))
    ensures Plain(q + [c], LastLine(q + [c]), Run(q + [c], v), Emit(Run(q + [c], v).toks, lookup))
  {
    RunSnocBlank(q, c, v);
    RunIndent(q, v);
    LastLineSnoc(q, c);
    var m := Run(q, v);
    PlainExtendRun(q, c, m, Emit(m.toks, lookup));
  }

  /** The scanner and the loop after anything else, in an indentation run. */
  lemma PlainSnocEnd(q: string, c: char, v: char, lookup: Lookup)
    requires c != v && !IsBlank(c) && Run(q, v).state == 9
    requires Plain(q, LastLine(q), Run(q, v), Emit(Run(q, v).toks, lookup))
    ensures Plain(q + [c], LastLine(q + [c]), Run(q + [c], v), Emit(Run(q + [c], v).toks, lookup))
  {
    var m := Run(q, v);
    var w := Emit(m.toks, lookup);
    var m' := m.(col := NextCol(m.col, c), toks := m.toks + [Ndt(m.indent), Chr([c])], indent := "", state := 0);
    assert Run(q + [c], v) == m' by { RunSnocEnd(q, c, v); }
    assert Emit(m'.toks, lookup) == Step(Step(w, Ndt(m.indent), lookup), Chr([c]), lookup) by {
      EmitNdtChr(m.toks, m.indent, c, lookup);
    }
    assert LastLine(q + [c]) == NextLine(m.indent, c) by {
      RunIndent(q, v);
      LastLineSnoc(q, c);
    }
    assert Plain(q, m.indent, m, w) by { RunIndent(q, v); }
    PlainEndRun(q, c, m, w, m', lookup);
  }

  /** Without `varchar` the scanner only sees characters and indentation runs, and the loop
      writes them all back except an indentation run left pending at the end. */
  lemma {:induction false} PlainRun(p: string, v: char, lookup: Lookup)
    requires v !in p
    ensures Plain(p, LastLine(p), Run(p, v), Emit(Run(p, v).toks, lookup))
  {
    if p != [] {
      var q, c := p[..|p| - 1], p[|p| - 1];
      assert p == q + [c];
      assert v !in q;
      PlainRun(q, v, lookup);
      if Run(q, v).state == 0 && LastLine(q) == [] && IsBlank(c) {
        PlainSnocStart(q, c, v, lookup);
      } else if Run(q, v).state == 0 {
        PlainSnocChr(q, c, v, lookup);
      } else if IsBlank(c) {
        PlainSnocBlank(q, c, v, lookup);
      } else {
        PlainSnocEnd(q, c, v, lookup);
      }
    }
  }

  /** A template without `varchar` is written back unchanged, except that a last line made
      only of spaces and tabs is an indentation run that is never written. */
  lemma Verbatim(text: string, v: char, lookup: Lookup)
    requires v !in text
    ensures Render(Tokens(text, v), lookup)
      == if AllBlank(LastLine(text)) then text[..|text| - |LastLine(text)|] else text
  {
    PlainRun(text, v, lookup);
    RunIndent(text, v);
    var m := Run(text, v);
    TokensOf(text, v);
    if m.state == 9 {
      VerbatimPending(text, LastLine(text), m, Emit(m.toks, lookup), lookup);
    } else {
      VerbatimIdle(text, LastLine(text), m, Emit(m.toks, lookup));
      assert text[..|text| - 0] == text;
    }
  }

  lemma TokensOf(text: string, v: char)
    ensures Run(text, v).state == 9 ==> Tokens(text, v) == Run(text, v).toks + [Ndt(Run(text, v).indent)]
    ensures Run(text, v).state == 0 ==> Tokens(text, v) == Run(text, v).toks
  {
  }

  lemma VerbatimPending(text: string, line: string, m: Machine, w: Writer, lookup: Lookup)
    requires m.state == 9 && m.indent == line && Plain(text, line, m, w) && w == Emit(m.toks, lookup)
    ensures AllBlank(line) && Render(m.toks + [Ndt(m.indent)], lookup) == text[..|text| - |line|]
  {
    EmitSnoc(m.toks, Ndt(m.indent), lookup);
    assert w.out == (w.out + m.indent)[..|text| - |m.indent|];
  }

  lemma VerbatimIdle(text: string, line: string, m: Machine, w: Writer)
    requires m.state == 0 && Plain(text, line, m, w)
    ensures w.out == text && (AllBlank(line) ==> line == [])
  {
  }

  /** `varchar` followed by a bare name is one reference, and it writes what the name
      resolves to: its source spelling when absent, nothing when bound to `None`, the scalar,
      or the items in order. */
  lemma BareReference(v: char, name: string, lookup: Lookup)
    requires IsBareName(name)
    ensures var out := Render(Tokens([v] + name, v), lookup);
      && out == Join(Resolve(Ref(name, [v] + name), lookup))
      && (name !in lookup ==> out == [v] + name)
      && (name in lookup && lookup[name].Null? ==> out == "")
      && (name in lookup && lookup[name].Scalar? ==> out == lookup[name].text)
      && (name in lookup && lookup[name].Iter? ==> out == Join(lookup[name].items))
  {
    ScanBareRef([], v, name);
    assert [] + [v] + name == [v] + name;
    OneReference(Ref(name, [v] + name), lookup);
  }

  /** The same for `varchar{name}`. */
  lemma BracedReference(v: char, name: string, lookup: Lookup)
    requires IsBracedName(name)
    ensures var out := Render(Tokens([v, '{'] + name + ['}'], v), lookup);
      && out == Join(Resolve(Ref(name, [v, '{'] + name + ['}']), lookup))
      && (name !in lookup ==> out == [v, '{'] + name + ['}'])
      && (name in lookup && lookup[name].Null? ==> out == "")
      && (name in lookup && lookup[name].Scalar? ==> out == lookup[name].text)
      && (name in lookup && lookup[name].Iter? ==> out == Join(lookup[name].items))
  {
    ScanBracedRef([], v, name);
    assert [] + [v, '{'] + name + ['}'] == [v, '{'] + name + ['}'];
    OneReference(Ref(name, [v, '{'] + name + ['}']), lookup);
  }

  lemma OneReference(tok: Token, lookup: Lookup)
    requires tok.Ref?
    ensures Render([tok], lookup) == Join(Resolve(tok, lookup))
  {
    EmitSnoc([], tok, lookup);
    ExpandIsIndentAll(tok, "", lookup);
    var pieces := Resolve(tok, lookup);
    forall i | 0 <= i < |pieces|
      ensures IndentAll(pieces, "")[i] == pieces[i]
    {
      IndentNoPrefix(pieces[i]);
    }
    assert IndentAll(pieces, "") == pieces;
  }
}
