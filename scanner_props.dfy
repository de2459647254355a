/** What the scanner promises: the shapes of its tokens, the round trip from tokens back to
    the template text, where indentation runs come from, and the bound on the token count. */
module ScannerProps {
  import opened Chars
  import opened Scanner

  /** The template text the tokens stand for: their values, concatenated. */
  function Spell(toks: seq<Token>): string {
    if toks == [] then [] else Spell(toks[..|toks| - 1]) + toks[|toks| - 1].value
  }

  lemma SpellSnoc(toks: seq<Token>, t: Token)
    ensures Spell(toks + [t]) == Spell(toks) + t.value
  {
    assert (toks + [t])[..|toks|] == toks;
  }

  lemma RunSnoc(p: string, c: char, v: char)
    ensures Run(p + [c], v) == Feed(Run(p, v), c, v)
  {
    assert (p + [c])[..|p|] == p;
  }

  /** The text the machine has read but not yet turned into a token. */
  function Pending(m: Machine, v: char): string {
    if m.state == 2 then [v]
    else if m.state == 3 then [v] + m.name
    else if m.state == 4 then [v, '{']
    else if m.state == 5 then [v, '{'] + m.name
    else if m.state == 9 then m.indent
    else []
  }

  /** `c` breaks an unclosed `varchar{name`: it is neither `}` nor a letter or underscore. */
  predicate Breaks(m: Machine, c: char) {
    m.state == 5 && c != '}' && !NameStart(c)
  }

  /** `text` without the characters that break an unclosed `varchar{name`. */
  function Kept(text: string, v: char): string {
    if text == [] then []
    else
      var p, c := text[..|text| - 1], text[|text| - 1];
      Kept(p, v) + (if Breaks(Run(p, v), c) then [] else [c])
  }

  /** The shapes a token can take. A CHR is one character, or the literal `varchar{`
      followed by an unfinished braced name; an NDT is a non-empty run of spaces and tabs
      that does not start with `varchar`; a REF spells `varchar` and its name, bare or braced. */
  predicate WellFormed(t: Token, v: char) {
    match t
    case Chr(s) => |s| == 1 || (|s| >= 2 && s[0] == v && s[1] == '{' && (|s| == 2 || IsBracedName(s[2..])))
    case Ndt(s) => s != [] && AllBlank(s) && s[0] != v
    case Ref(name, s) =>
      (IsBareName(name) && s == [v] + name) || (IsBracedName(name) && s == [v, '{'] + name + ['}'])
  }

  predicate AllWellFormed(toks: seq<Token>, v: char) {
    forall i :: 0 <= i < |toks| ==> WellFormed(toks[i], v)
  }

  /** What the machine's variables hold in each state. */
  predicate Coherent(m: Machine, v: char) {
    && ValidState(m.state)
    && (m.state == 2 || m.state == 4 ==> m.name == "")
    && (m.state == 3 ==> IsBareName(m.name))
    && (m.state == 5 ==> IsBracedName(m.name))
    && (m.state == 9 ==> m.indent != [] && AllBlank(m.indent) && m.indent[0] != v)
    && AllWellFormed(m.toks, v)
  }

  // ---------------------------------------------------------------------------
  // Token shapes
  // ---------------------------------------------------------------------------

  lemma TurnCoherent(m: Machine, c: char, v: char)
    requires Coherent(m, v)
    ensures Coherent(Turn(m, c, v).0, v)
  {
    if m.state == 5 && c != '}' && !NameStart(c) {
      var s := [v, '{'] + m.name;
      assert s[2..] == m.name;
    }
  }

  lemma DispatchCoherent(m: Machine, c: char, v: char)
    requires Coherent(m, v)
    ensures Coherent(Dispatch(m, c, v), v)
  {
    TurnCoherent(m, c, v);
    var (m1, consumed) := Turn(m, c, v);
    if !consumed {
      TurnCoherent(m1, c, v);
    }
  }

  lemma {:induction false} RunCoherent(text: string, v: char)
    ensures Coherent(Run(text, v), v)
  {
    if text != [] {
      var m := Run(text[..|text| - 1], v);
      RunCoherent(text[..|text| - 1], v);
      DispatchCoherent(m.(col := NextCol(m.col, text[|text| - 1])), text[|text| - 1], v);
    }
  }

  /** Every token is well formed: in particular every REF has a non-empty name that starts
      with a letter or `_`, and its value is `varchar+name` or `varchar+'{'+name+'}'`. */
  lemma TokensWellFormed(text: string, v: char)
    ensures AllWellFormed(Tokens(text, v), v)
  {
    var m := Run(text, v);
    RunCoherent(text, v);
    if m.state == 5 {
      var s := [v, '{'] + m.name;
      assert s[2..] == m.name;
    }
  }

  // ---------------------------------------------------------------------------
  // Round trip
  // ---------------------------------------------------------------------------

  /** One turn: the spelling of the tokens and what is pending grows by `c` once `c` is
      consumed, unless `c` breaks an unclosed braced name. */
  lemma TurnSpell(m: Machine, c: char, v: char)
    requires ValidState(m.state) && (m.state == 2 || m.state == 4 ==> m.name == "")
    ensures var (r, consumed) := Turn(m, c, v);
      Spell(r.toks) + Pending(r, v)
        == Spell(m.toks) + Pending(m, v) + (if consumed && !Breaks(m, c) then [c] else [])
  {
    if m.state == 0 {
      TurnSpellIdle(m, c, v);
    } else if m.state == 2 {
      TurnSpellVarchar(m, c, v);
    } else if m.state == 3 {
      TurnSpellBareName(m, c, v);
    } else if m.state == 4 {
      TurnSpellBrace(m, c, v);
    } else if m.state == 5 {
      TurnSpellBracedName(m, c, v);
    } else {
      TurnSpellIndent(m, c, v);
    }
  }

  lemma TurnSpellIdle(m: Machine, c: char, v: char)
    requires m.state == 0
    ensures var (r, consumed) := Turn(m, c, v);
      Spell(r.toks) + Pending(r, v)
        == Spell(m.toks) + Pending(m, v) + (if consumed && !Breaks(m, c) then [c] else [])
  {
    if c != v && !(m.col == 1 && IsBlank(c)) {
      SpellSnoc(m.toks, Chr([c]));
    }
  }

  lemma TurnSpellVarchar(m: Machine, c: char, v: char)
    requires m.state == 2 && m.name == ""
    ensures var (r, consumed) := Turn(m, c, v);
      Spell(r.toks) + Pending(r, v)
        == Spell(m.toks) + Pending(m, v) + (if consumed && !Breaks(m, c) then [c] else [])
  {
    if c != '{' && !NameStart(c) {
      SpellSnoc(m.toks, Chr([v]));
    }
  }

  lemma TurnSpellBareName(m: Machine, c: char, v: char)
    requires m.state == 3
    ensures var (r, consumed) := Turn(m, c, v);
      Spell(r.toks) + Pending(r, v)
        == Spell(m.toks) + Pending(m, v) + (if consumed && !Breaks(m, c) then [c] else [])
  {
    if !NameChar(c) {
      SpellSnoc(m.toks, Ref(m.name, [v] + m.name));
    } else {
      assert [v] + (m.name + [c]) == [v] + m.name + [c];
    }
  }

  lemma TurnSpellBrace(m: Machine, c: char, v: char)
    requires m.state == 4 && m.name == ""
    ensures var (r, consumed) := Turn(m, c, v);
      Spell(r.toks) + Pending(r, v)
        == Spell(m.toks) + Pending(m, v) + (if consumed && !Breaks(m, c) then [c] else [])
  {
    if !NameStart(c) {
      SpellSnoc(m.toks, Chr([v, '{']));
    }
  }

  lemma TurnSpellBracedName(m: Machine, c: char, v: char)
    requires m.state == 5
    ensures var (r, consumed) := Turn(m, c, v);
      Spell(r.toks) + Pending(r, v)
        == Spell(m.toks) + Pending(m, v) + (if consumed && !Breaks(m, c) then [c] else [])
  {
    if c == '}' {
      SpellSnoc(m.toks, Ref(m.name, [v, '{'] + m.name + ['}']));
    } else if NameStart(c) {
      assert [v, '{'] + (m.name + [c]) == [v, '{'] + m.name + [c];
    } else {
      SpellSnoc(m.toks, Chr([v, '{'] + m.name));
    }
  }

  lemma TurnSpellIndent(m: Machine, c: char, v: char)
    requires m.state == 9
    ensures var (r, consumed) := Turn(m, c, v);
      Spell(r.toks) + Pending(r, v)
        == Spell(m.toks) + Pending(m, v) + (if consumed && !Breaks(m, c) then [c] else [])
  {
    if !IsBlank(c) {
      SpellSnoc(m.toks, Ndt(m.indent));
    }
  }

  lemma DispatchSpell(m: Machine, c: char, v: char)
    requires Coherent(m, v)
    ensures var r := Dispatch(m, c, v);
      Spell(r.toks) + Pending(r, v) == Spell(m.toks) + Pending(m, v) + (if Breaks(m, c) then [] else [c])
  {
    TurnSpell(m, c, v);
    TurnCoherent(m, c, v);
    var (m1, consumed) := Turn(m, c, v);
    if !consumed {
      TurnSpell(m1, c, v);
    }
  }

  /** What is pending after a step grows by the character read, is that character alone,
      or is nothing. */
  lemma DispatchPending(m: Machine, c: char, v: char)
    requires Coherent(m, v)
    ensures var r := Dispatch(m, c, v);
      Pending(r, v) == Pending(m, v) + [c] || Pending(r, v) == [c] || Pending(r, v) == []
  {
    var (m1, consumed) := Turn(m, c, v);
    TurnPending(m, c, v);
    if !consumed {
      TurnPending(m1, c, v);
    }
  }

  /** One turn: a consumed character extends what is pending, replaces it, or completes it; a
      character handed back leaves nothing pending. */
  lemma TurnPending(m: Machine, c: char, v: char)
    requires ValidState(m.state) && (m.state == 2 || m.state == 4 ==> m.name == "")
    ensures var (r, consumed) := Turn(m, c, v);
      if consumed then Pending(r, v) == Pending(m, v) + [c] || Pending(r, v) == [c] || Pending(r, v) == []
      else Pending(r, v) == []
  {
    var (r, consumed) := Turn(m, c, v);
    if m.state == 3 && consumed {
      assert Pending(r, v) == [v] + (m.name + [c]);
      assert [v] + (m.name + [c]) == [v] + m.name + [c];
    } else if m.state == 5 && consumed && NameStart(c) {
      assert Pending(r, v) == [v, '{'] + (m.name + [c]);
      assert [v, '{'] + (m.name + [c]) == [v, '{'] + m.name + [c];
    }
  }

  lemma EndsWithSnoc(p: string, s: string, c: char)
    requires EndsWith(p, s)
    ensures EndsWith(p + [c], s + [c]) && EndsWith(p + [c], [c]) && EndsWith(p + [c], [])
  {
  }

  /** What the machine has read is spelled by its tokens followed by what is pending, and what
      is pending is the end of the text read. */
  lemma {:induction false} RunSpell(text: string, v: char)
    ensures Spell(Run(text, v).toks) + Pending(Run(text, v), v) == Kept(text, v)
    ensures EndsWith(text, Pending(Run(text, v), v))
  {
    if text != [] {
      var p, c := text[..|text| - 1], text[|text| - 1];
      assert text == p + [c];
      var m := Run(p, v);
      var m' := m.(col := NextCol(m.col, c));
      RunSpell(p, v);
      RunCoherent(p, v);
      RunSnoc(p, c, v);
      DispatchSpell(m', c, v);
      DispatchPending(m', c, v);
      assert Pending(m', v) == Pending(m, v) && Breaks(m', c) == Breaks(m, c);
      EndsWithSnoc(p, Pending(m, v), c);
    }
  }

  lemma FlushSpell(m: Machine, v: char)
    requires ValidState(m.state)
    ensures Spell(m.toks + Flush(m, v)) == Spell(m.toks) + Pending(m, v)
  {
    if m.state == 0 {
      assert m.toks + Flush(m, v) == m.toks;
    } else {
      assert Flush(m, v) == [Flush(m, v)[0]];
      SpellSnoc(m.toks, Flush(m, v)[0]);
    }
  }

  /** Concatenating the token values gives back the template text, less the characters
      that break an unclosed `varchar{name`. */
  lemma RoundTrip(text: string, v: char)
    ensures Spell(Tokens(text, v)) == Kept(text, v)
  {
    RunSpell(text, v);
    FlushSpell(Run(text, v), v);
  }

  /** A dropped character is never `}`, a letter or `_`, and it comes right after
      `varchar{` and a braced name. */
  lemma DroppedContext(p: string, c: char, v: char)
    requires Breaks(Run(p, v), c)
    ensures c != '}' && !NameStart(c)
    ensures IsBracedName(Run(p, v).name) && EndsWith(p, [v, '{'] + Run(p, v).name)
  {
    RunSpell(p, v);
    RunCoherent(p, v);
  }

  /** A character can only be dropped once both `varchar` and `{` have been read. */
  lemma BreaksNeeds(p: string, c: char, v: char)
    ensures Breaks(Run(p, v), c) ==> v in p && '{' in p
  {
    if Breaks(Run(p, v), c) {
      DroppedContext(p, c, v);
      var s := [v, '{'] + Run(p, v).name;
      assert p[|p| - |s|] == v && p[|p| - |s| + 1] == '{';
    }
  }

  /** Without `varchar` or without `{` in the text nothing is dropped, and concatenating the
      token values gives back exactly the text. */
  lemma {:induction false} KeptAll(text: string, v: char)
    requires v !in text || '{' !in text
    ensures Kept(text, v) == text
  {
    if text != [] {
      var p, c := text[..|text| - 1], text[|text| - 1];
      assert text == p + [c];
      KeptAll(p, v);
      BreaksNeeds(p, c, v);
    }
  }

  lemma ExactRoundTrip(text: string, v: char)
    requires v !in text || '{' !in text
    ensures Spell(Tokens(text, v)) == text
  {
    RoundTrip(text, v);
    KeptAll(text, v);
  }

  // ---------------------------------------------------------------------------
  // Token count
  // ---------------------------------------------------------------------------

  function Busy(m: Machine): nat {
    if m.state == 0 then 0 else 1
  }

  lemma DispatchCount(m: Machine, c: char, v: char)
    requires ValidState(m.state)
    ensures |Dispatch(m, c, v).toks| + Busy(Dispatch(m, c, v)) <= |m.toks| + Busy(m) + 1
  {
  }

  lemma {:induction false} RunCount(text: string, v: char)
    ensures |Run(text, v).toks| + Busy(Run(text, v)) <= |text|
  {
    if text != [] {
      var p, c := text[..|text| - 1], text[|text| - 1];
      var m := Run(p, v);
      RunCount(p, v);
      DispatchCount(m.(col := NextCol(m.col, c)), c, v);
    }
  }

  /** There are never more tokens than characters. */
  lemma TokensCount(text: string, v: char)
    ensures |Tokens(text, v)| <= |text|
  {
    RunCount(text, v);
  }

  // ---------------------------------------------------------------------------
  // Where indentation runs come from
  // ---------------------------------------------------------------------------

  /** An indentation run is either extended by a blank, or begun by a blank read at column 1. */
  lemma DispatchIndent(m: Machine, c: char, v: char)
    requires ValidState(m.state)
    ensures var r := Dispatch(m, c, v);
      r.state == 9 ==> IsBlank(c) && ((m.state == 9 && r.indent == m.indent + [c]) || (m.col == 1 && r.indent == [c]))
  {
  }

  lemma LastLineSnoc(p: string, c: char)
    ensures LastLine(p + [c]) == if c == '\n' then [] else LastLine(p) + [c]
  {
    assert (p + [c])[..|p|] == p;
  }

  /** The column counts the characters of the current line. */
  lemma {:induction false} RunColumn(text: string, v: char)
    ensures Run(text, v).col == |LastLine(text)|
  {
    if text != [] {
      var p, c := text[..|text| - 1], text[|text| - 1];
      assert text == p + [c];
      RunColumn(p, v);
      RunSnoc(p, c, v);
      LastLineSnoc(p, c);
    }
  }

  /** An indentation run being read is the whole current line so far. */
  lemma {:induction false} RunIndent(text: string, v: char)
    ensures Run(text, v).state == 9 ==> Run(text, v).indent == LastLine(text)
  {
    if text != [] {
      var p, c := text[..|text| - 1], text[|text| - 1];
      assert text == p + [c];
      var m := Run(p, v);
      RunIndent(p, v);
      RunColumn(p, v);
      RunSnoc(p, c, v);
      LastLineSnoc(p, c);
      DispatchIndent(m.(col := NextCol(m.col, c)), c, v);
    }
  }

  /** The tokens a step emits: the earlier tokens stay, and an NDT is emitted only from
      state 9, with the run read so far, when a character other than a blank ends it. */
  lemma DispatchEmits(m: Machine, c: char, v: char)
    requires ValidState(m.state)
    ensures var r := Dispatch(m, c, v);
      |m.toks| <= |r.toks| && r.toks[..|m.toks|] == m.toks
      && forall k :: |m.toks| <= k < |r.toks| && r.toks[k].Ndt? ==>
           m.state == 9 && r.toks[k].value == m.indent && !IsBlank(c)
  {
    var (m1, consumed) := Turn(m, c, v);
    TurnEmits(m, c, v);
    if !consumed {
      TurnEmits(m1, c, v);
      var r := Turn(m1, c, v).0;
      assert r.toks[..|m1.toks|] == m1.toks;
      assert forall k :: |m1.toks| <= k < |r.toks| ==> !r.toks[k].Ndt?;
    }
  }

  /** One turn appends at most one token, and an NDT only from state 9. */
  lemma TurnEmits(m: Machine, c: char, v: char)
    requires ValidState(m.state)
    ensures var r := Turn(m, c, v).0;
      |m.toks| <= |r.toks| <= |m.toks| + 1 && r.toks[..|m.toks|] == m.toks
      && (|r.toks| > |m.toks| && r.toks[|m.toks|].Ndt? ==>
            m.state == 9 && r.toks[|m.toks|].value == m.indent && !IsBlank(c))
  {
  }

  /** Reading one more character `c` after `p` only appends tokens, and every NDT among
      them is the whole line read before `c`: a non-empty run of spaces and tabs that began
      at column 1 and does not start with `varchar`; `c` itself is not a blank. */
  lemma NdtAtLineStart(p: string, c: char, v: char)
    ensures var m, r := Run(p, v), Run(p + [c], v);
      |m.toks| <= |r.toks| && r.toks[..|m.toks|] == m.toks
      && forall k :: |m.toks| <= k < |r.toks| && r.toks[k].Ndt? ==>
           var s := r.toks[k].value;
           s == LastLine(p) && s != [] && AllBlank(s) && s[0] != v && !IsBlank(c)
  {
    var m := Run(p, v);
    assert (p + [c])[..|p|] == p;
    RunIndent(p, v);
    RunCoherent(p, v);
    DispatchEmits(m.(col := NextCol(m.col, c)), c, v);
  }

  /** An NDT flushed at the end of the input is the whole last line. */
  lemma FlushedNdt(text: string, v: char)
    ensures var m := Run(text, v);
      m.state == 9 ==> Flush(m, v) == [Ndt(LastLine(text))] && LastLine(text) != [] && AllBlank(LastLine(text))
  {
    RunIndent(text, v);
    RunCoherent(text, v);
  }

  // ---------------------------------------------------------------------------
  // References scan as one token
  // ---------------------------------------------------------------------------

  /** `varchar` read outside references enters state 2 with an empty name and emits nothing. */
  lemma RunVarchar(p: string, v: char)
    requires Run(p, v).state == 0
    ensures var m := Run(p, v); Run(p + [v], v) == m.(col := NextCol(m.col, v), name := "", state := 2)
  {
    RunSnoc(p, v, v);
  }

  /** `varchar{` read outside references enters state 4 with an empty name and emits nothing. */
  lemma RunVarcharBrace(p: string, v: char)
    requires Run(p, v).state == 0
    ensures var m := Run(p, v);
      Run(p + [v, '{'], v) == m.(col := NextCol(NextCol(m.col, v), '{'), name := "", state := 4)
  {
    RunVarchar(p, v);
    RunSnoc(p + [v], '{', v);
    assert p + [v] + ['{'] == p + [v, '{'];
  }

  /** A name's first character moves from state 2 to 3, or from 4 to 5. */
  lemma EnterName(m: Machine, c: char, v: char)
    requires (m.state == 2 || m.state == 4) && NameStart(c)
    ensures Feed(m, c, v) == m.(col := NextCol(m.col, c), name := m.name + [c], state := m.state + 1)
  {
  }

  /** Later characters of a name extend it. */
  lemma ExtendName(m: Machine, c: char, v: char)
    requires (m.state == 3 && NameChar(c)) || (m.state == 5 && NameStart(c))
    ensures Feed(m, c, v) == m.(col := NextCol(m.col, c), name := m.name + [c])
  {
  }

  /** One character of a name: it starts the name in states 2 and 4, or extends it in states
      3 and 5, and emits nothing. */
  lemma NameSnoc(q: string, c: char, v: char)
    requires var m := Run(q, v);
      ((m.state == 2 || m.state == 4 || m.state == 5) && NameStart(c)) || (m.state == 3 && NameChar(c))
    ensures var m, r := Run(q, v), Run(q + [c], v);
      r.toks == m.toks && r.name == m.name + [c] && r.state == (if m.state == 2 || m.state == 4 then m.state + 1 else m.state)
  {
    RunSnoc(q, c, v);
    var m := Run(q, v);
    if m.state == 2 || m.state == 4 {
      EnterName(m, c, v);
    } else {
      ExtendName(m, c, v);
    }
  }

  /** While a bare name is read after `varchar`, the machine stays in state 3 with the name
      read so far, and emits nothing. */
  lemma {:induction false} RunBareName(p: string, v: char, name: string, k: nat)
    requires Run(p, v).state == 0 && IsBareName(name) && 1 <= k <= |name|
    ensures var r := Run(p + [v] + name[..k], v);
      r.state == 3 && r.name == name[..k] && r.toks == Run(p, v).toks
  {
    var q, c := p + [v] + name[..k - 1], name[k - 1];
    assert q + [c] == p + [v] + name[..k];
    assert name[..k - 1] + [c] == name[..k];
    if k == 1 {
      assert q == p + [v];
      RunVarchar(p, v);
    } else {
      RunBareName(p, v, name, k - 1);
    }
    NameSnoc(q, c, v);
  }

  /** `varchar` and a bare name at the end of the input scan as exactly one REF, appended to
      the tokens before it: the converse of `WellFormed`. */
  lemma ScanBareRef(p: string, v: char, name: string)
    requires Run(p, v).state == 0 && IsBareName(name)
    ensures Tokens(p + [v] + name, v) == Run(p, v).toks + [Ref(name, [v] + name)]
  {
    RunBareName(p, v, name, |name|);
    assert name[..|name|] == name;
  }

  /** While a braced name is read after `varchar{`, the machine stays in state 5 (state 4
      before its first character) with the name read so far, and emits nothing. */
  lemma {:induction false} RunBracedName(p: string, v: char, name: string, k: nat)
    requires Run(p, v).state == 0 && IsBracedName(name) && k <= |name|
    ensures var r := Run(p + [v, '{'] + name[..k], v);
      r.toks == Run(p, v).toks && (k == 0 ==> r.state == 4 && r.name == "") && (k > 0 ==> r.state == 5 && r.name == name[..k])
  {
    if k == 0 {
      RunVarcharBrace(p, v);
      assert p + [v, '{'] + name[..0] == p + [v, '{'];
    } else {
      var q, c := p + [v, '{'] + name[..k - 1], name[k - 1];
      assert q + [c] == p + [v, '{'] + name[..k];
      assert name[..k - 1] + [c] == name[..k];
      RunBracedName(p, v, name, k - 1);
      NameSnoc(q, c, v);
    }
  }

  /** `varchar{name}` scans as exactly one REF, appended to the tokens before it. */
  lemma ScanBracedRef(p: string, v: char, name: string)
    requires Run(p, v).state == 0 && IsBracedName(name)
    ensures Tokens(p + [v, '{'] + name + ['}'], v) == Run(p, v).toks + [Ref(name, [v, '{'] + name + ['}'])]
  {
    RunBracedName(p, v, name, |name|);
    assert name[..|name|] == name;
    RunSnoc(p + [v, '{'] + name, '}', v);
  }
}
