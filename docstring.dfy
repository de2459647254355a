/** The two examples in the docstring of `format` (template.py), as lemmas: `&v &{v}` with
    `v` bound to `'hello'` is `'hello hello'`, and so is `#v #{v}` with `varchar` `#`. */
module Docstring {
  import opened Scanner
  import opened ScannerProps
  import opened Expander
  import opened ExpanderProps
  import opened Template

  /** The docstring's template over a `varchar`. The lemmas below take a `varchar` that is
      neither one of its other characters nor a newline, which would reset the column. */
  function Sample(v: char): string {
    [v, 'v', ' ', v, '{', 'v', '}']
  }

  lemma ScanBare(v: char)
    requires v !in "v {}\n"
    ensures Run(Sample(v)[..3], v) == Machine(0, "", "", 3, [Ref("v", [v, 'v']), Chr(" ")])
  {
    var t := Sample(v);
    RunSnoc([], v, v);
    assert t[..1] == [] + [v];
    RunSnoc(t[..1], 'v', v);
    assert t[..2] == t[..1] + ['v'];
    assert Run(t[..2], v) == Machine(3, "v", "", 2, []);
    RunSnoc(t[..2], ' ', v);
    assert t[..3] == t[..2] + [' '];
    assert [v] + "v" == [v, 'v'];
  }

  lemma ScanBraced(v: char)
    requires v !in "v {}\n"
    ensures Tokens(Sample(v), v) == [Ref("v", [v, 'v']), Chr(" "), Ref("v", [v, '{', 'v', '}'])]
  {
    var t := Sample(v);
    var toks := [Ref("v", [v, 'v']), Chr(" ")];
    ScanBare(v);
    RunSnoc(t[..3], v, v);
    assert t[..4] == t[..3] + [v];
    RunSnoc(t[..4], '{', v);
    assert t[..5] == t[..4] + ['{'];
    RunSnoc(t[..5], 'v', v);
    assert t[..6] == t[..5] + ['v'];
    assert Run(t[..6], v) == Machine(5, "v", "", 6, toks);
    RunSnoc(t[..6], '}', v);
    assert t == t[..6] + ['}'];
    assert [v, '{'] + "v" + ['}'] == [v, '{', 'v', '}'];
  }

  /** A reference to a name bound to a scalar writes the scalar. */
  lemma RenderScalar(name: string, src: string, s: string)
    ensures Render([Ref(name, src)], map[name := Scalar(s)]) == s
  {
    assert Join([s]) == Join([]) + s;
    OneReference(Ref(name, src), map[name := Scalar(s)]);
  }

  /** A reference to a name bound to a scalar, then a space: the scalar, then the space. */
  lemma RenderBare(name: string, bare: string, s: string)
    ensures Render([Ref(name, bare), Chr(" ")], map[name := Scalar(s)]) == s + " "
  {
    var a := Ref(name, bare);
    RenderScalar(name, bare, s);
    ChrRule([a], " ", map[name := Scalar(s)]);
    assert [a] + [Chr(" ")] == [a, Chr(" ")];
  }

  /** Two references to one name bound to a scalar, with a space between them, write the
      scalar twice with the space between. */
  lemma RenderSample(name: string, bare: string, braced: string, s: string)
    ensures var lookup := map[name := Scalar(s)];
      Render([Ref(name, bare), Chr(" "), Ref(name, braced)], lookup) == s + " " + s
  {
    var lookup := map[name := Scalar(s)];
    var ab := [Ref(name, bare), Chr(" ")];
    RenderBare(name, bare, s);
    assert Join(IndentAll([s], "")) == s by {
      IndentNoPrefix(s);
      assert IndentAll([s], "") == [s];
      assert Join([s]) == Join([]) + s;
    }
    RefRule(ab, name, braced, lookup);
    assert ab + [Ref(name, braced)] == [Ref(name, bare), Chr(" "), Ref(name, braced)];
  }

  /** The docstring's calls are instances: `varchar` `None` selects `&`, and `'#'` selects
      `#`; with `v` bound to `'hello'` both give `'hello hello'`. */
  lemma FormatSample(varchar: Option<string>, v: char, s: string)
    requires NewParser(varchar) == Ok(Parser(v)) && v !in "v {}\n"
    ensures Printed(Sample(v), map["v" := Scalar(s)], varchar) == Ok(s + " " + s)
  {
    ScanBraced(v);
    RenderSample("v", [v, 'v'], [v, '{', 'v', '}'], s);
  }
}
