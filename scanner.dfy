/** The scanner of template.py (`_Parser`): a character-level state machine that turns
    template text into CHR, NDT and REF tokens. */
module Scanner {
  import opened Chars

  /** `_Token`: a literal (CHR), a line-leading indentation run (NDT) or a reference (REF).
      `value` is the text the token stands for in the template; a REF also has a name. */
  datatype Token = Chr(value: string) | Ndt(value: string) | Ref(name: string, value: string)

  datatype Option<T> = None | Some(value: T)

  datatype Result<T> = Ok(value: T) | Err(error: string)

  /** A parser knows its reference character, `varchar`. */
  datatype Parser = Parser(varchar: char)

  /** `_Parser.__init__`. The argument is `None` or a string; any string that is not exactly
      one character long is refused, and `None` selects `&`. */
  function NewParser(varchar: Option<string>): (r: Result<Parser>)
    ensures r.Ok? <==> varchar.None? || |varchar.value| == 1
    ensures r.Ok? && varchar.None? ==> r.value.varchar == '&'
    ensures r.Ok? && varchar.Some? ==> [r.value.varchar] == varchar.value
  {
    match varchar
    case None => Ok(Parser('&'))
    case Some(s) => if |s| != 1 then Err("invalid varchar") else Ok(Parser(s[0]))
  }

  // ---------------------------------------------------------------------------
  // The state machine as functions: the specification of `Tokenize`.
  // ---------------------------------------------------------------------------

  /** The six states the source uses: 0 outside a reference, 2 just after `varchar`,
      3 in a bare name, 4 just after `varchar{`, 5 in a braced name, 9 in an indentation run. */
  predicate ValidState(state: int) {
    state == 0 || state == 2 || state == 3 || state == 4 || state == 5 || state == 9
  }

  /** The scanner's local variables (the unused `line` counter is left out) and the tokens
      yielded so far. */
  datatype Machine = Machine(state: int, name: string, indent: string, col: nat, toks: seq<Token>)

  function Start(): Machine {
    Machine(0, "", "", 0, [])
  }

  /** The column after reading `c`: reset by a newline, otherwise one more. */
  function NextCol(col: nat, c: char): nat {
    if c == '\n' then 0 else col + 1
  }

  /** One turn of the `while not consumed` loop: the new variables, and whether `c` was
      consumed. A character is reprocessed only by moving back to state 0. */
  function Turn(m: Machine, c: char, v: char): (r: (Machine, bool))
    requires ValidState(m.state)
    ensures ValidState(r.0.state) && r.0.col == m.col
    ensures !r.1 ==> m.state != 0 && r.0.state == 0
    ensures r.0.toks == m.toks || (|r.0.toks| == |m.toks| + 1 && r.0.toks == m.toks + [r.0.toks[|m.toks|]])
  {
    if m.state == 0 then
      if c == v then (m.(name := "", state := 2), true)
      else if m.col == 1 && IsBlank(c) then (m.(indent := [c], state := 9), true)
      else (m.(toks := m.toks + [Chr([c])]), true)
    else if m.state == 2 then
      if c == '{' then (m.(state := 4), true)
      else if NameStart(c) then (m.(name := m.name + [c], state := 3), true)
      else (m.(toks := m.toks + [Chr([v])], state := 0), false)
    else if m.state == 3 then
      if NameChar(c) then (m.(name := m.name + [c]), true)
      else (m.(toks := m.toks + [Ref(m.name, [v] + m.name)], name := "", state := 0), false)
    else if m.state == 4 then
      if NameStart(c) then (m.(name := m.name + [c], state := 5), true)
      else (m.(toks := m.toks + [Chr([v, '{'])], state := 0), false)
    else if m.state == 5 then
      if c == '}' then (m.(toks := m.toks + [Ref(m.name, [v, '{'] + m.name + ['}'])], name := "", state := 0), true)
      else if NameStart(c) then (m.(name := m.name + [c]), true)
      // an unclosed `varchar{name`: the breaking character is dropped, not reprocessed
      else (m.(toks := m.toks + [Chr([v, '{'] + m.name)], state := 0), true)
    else
      if IsBlank(c) then (m.(indent := m.indent + [c]), true)
      else (m.(toks := m.toks + [Ndt(m.indent)], indent := "", state := 0), false)
  }

  /** The whole `while not consumed` loop. A reprocessed character lands in state 0, which
      always consumes, so there are at most two turns. */
  function Dispatch(m: Machine, c: char, v: char): (r: Machine)
    requires ValidState(m.state)
    ensures ValidState(r.state) && r.col == m.col
  {
    var (m1, consumed) := Turn(m, c, v);
    if consumed then m1 else Turn(m1, c, v).0
  }

  /** One iteration of the `for c in text` loop. */
  function Feed(m: Machine, c: char, v: char): (r: Machine)
    requires ValidState(m.state)
    ensures ValidState(r.state) && r.col == NextCol(m.col, c)
  {
    Dispatch(m.(col := NextCol(m.col, c)), c, v)
  }

  /** The machine after reading all of `text`. Its state is always one of the six, so the
      `raise` of the end-of-input flush is never reached. */
  function Run(text: string, v: char): (m: Machine)
    ensures ValidState(m.state)
  {
    if text == [] then Start()
    else Feed(Run(text[..|text| - 1], v), text[|text| - 1], v)
  }

  /** The `for ... else` flush: what is pending when the input ends. */
  function Flush(m: Machine, v: char): (r: seq<Token>)
    requires ValidState(m.state)
    ensures |r| == if m.state == 0 then 0 else 1
  {
    if m.state == 0 then []
    else if m.state == 2 then [Chr([v])]
    else if m.state == 3 then [Ref(m.name, [v] + m.name)]
    else if m.state == 4 then [Chr([v, '{'])]
    else if m.state == 5 then [Chr([v, '{'] + m.name)]
    else [Ndt(m.indent)]
  }

  /** All tokens of `text`. */
  function Tokens(text: string, v: char): seq<Token> {
    var m := Run(text, v);
    m.toks + Flush(m, v)
  }

  // ---------------------------------------------------------------------------
  // `_Parser.tokenize` as the source runs it.
  // ---------------------------------------------------------------------------

  /** Scans `text` character by character. `turns[i]` counts how often `text[i]` goes round
      the inner `while not consumed` loop: once or twice. */
  method Tokenize(parser: Parser, text: string) returns (toks: seq<Token>, ghost turns: seq<nat>)
    ensures toks == Tokens(text, parser.varchar)
    ensures |turns| == |text| && forall i :: 0 <= i < |text| ==> 1 <= turns[i] <= 2
  {
    var v := parser.varchar;
    var name, indent := "", "";
    var state: int, col: nat := 0, 0;
    toks, turns := [], [];
    for i := 0 to |text|
      invariant Machine(state, name, indent, col, toks) == Run(text[..i], v)
      invariant |turns| == i && forall j :: 0 <= j < i ==> 1 <= turns[j] <= 2
    {
      var c := text[i];
      if c == '\n' {
        col := 0;
      } else {
        col := col + 1;
      }
      ghost var before := Machine(state, name, indent, col, toks);
      ghost var n := 0;
      var consumed := false;
      while !consumed
        invariant ValidState(state) && col == before.col
        invariant !consumed && n == 0 ==> Machine(state, name, indent, col, toks) == before
        invariant !consumed && n == 1 ==> (Machine(state, name, indent, col, toks), false) == Turn(before, c, v)
        invariant consumed ==> Machine(state, name, indent, col, toks) == Dispatch(before, c, v)
        invariant !consumed ==> n <= 1
        invariant consumed ==> 1 <= n <= 2
        decreases if consumed then 0 else if state == 0 then 1 else 2
      {
        consumed := true;
        n := n + 1;
        if state == 0 {
          if c == v {
            name := "";
            state := 2;
          } else if col == 1 && IsBlank(c) {
            indent := [c];
            state := 9;
          } else {
            toks := toks + [Chr([c])];
          }
        } else if state == 2 {
          if c == '{' {
            state := 4;
          } else if NameStart(c) {
            name := name + [c];
            state := 3;
          } else {
            toks := toks + [Chr([v])];
            consumed := false;
            state := 0;
          }
        } else if state == 3 {
          if NameChar(c) {
            name := name + [c];
          } else {
            toks := toks + [Ref(name, [v] + name)];
            name := "";
            consumed := false;
            state := 0;
          }
        } else if state == 4 {
          if NameStart(c) {
            name := name + [c];
            state := 5;
          } else {
            toks := toks + [Chr([v, '{'])];
            consumed := false;
            state := 0;
          }
        } else if state == 5 {
          if c == '}' {
            toks := toks + [Ref(name, [v, '{'] + name + ['}'])];
            name := "";
            state := 0;
          } else if NameStart(c) {
            name := name + [c];
          } else {
            toks := toks + [Chr([v, '{'] + name)];
            state := 0;
          }
        } else if state == 9 {
          if IsBlank(c) {
            indent := indent + [c];
          } else {
            toks := toks + [Ndt(indent)];
            indent := "";
            consumed := false;
            state := 0;
          }
        }
      }
      turns := turns + [n];
      assert text[..i + 1][..i] == text[..i];
    }
    assert text[..|text|] == text;
    if state == 0 {
    } else if state == 2 {
      toks := toks + [Chr([v])];
    } else if state == 3 {
      toks := toks + [Ref(name, [v] + name)];
    } else if state == 4 {
      toks := toks + [Chr([v, '{'])];
    } else if state == 5 {
      toks := toks + [Chr([v, '{'] + name)];
    } else if state == 9 {
      toks := toks + [Ndt(indent)];
    } else {
      // the source raises here; the loop invariant shows the state is always one of the six
      assert false;
    }
  }
}
