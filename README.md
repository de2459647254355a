# template.py in Dafny

A model of the core of `template.py`, a small templating engine, with proofs about it. The
engine has two parts:

- **The scanner** (`_Parser`). It is a character-level state machine with the states 0, 2,
  3, 4, 5 and 9. It turns a template into three kinds of tokens:
  - CHR: a literal;
  - NDT: a run of spaces and tabs that starts a line;
  - REF: a reference, `&name` or `&{name}`.

  Some transitions hand the current character back to state 0 to be read again. When the
  input ends, a `for ... else` flush emits whatever is still pending.
- **The expander** (the token loop of `print`, with `_resolve` and `_expand`). It writes the
  tokens to a sink. Each reference is resolved against a lookup. Three running variables
  decide two things: where a pending indentation goes, and when a template newline that
  follows an expansion is dropped.

Modules, one per file:

- `Chars` (`chars.dfy`): the character classes the scanner tests, and the last line of a text.
- `Scanner` (`scanner.dfy`): `_Token` as the datatype `Token`, and `_Parser.__init__` as
  `NewParser`. The state machine is written twice:
  - as functions (`Turn`, `Dispatch`, `Feed`, `Run`, `Flush`, `Tokens`), which form its
    specification;
  - as the method `Tokenize`, with the source's `for` loop and its inner `while not consumed`
    loop, proved equal to `Tokens`.
- `ScannerProps` (`scanner_props.dfy`): what the scanner guarantees, namely
  - the shape of every token;
  - the round trip from tokens back to the text;
  - where indentation runs come from;
  - the bound on the number of tokens;
  - that a reference scans as one token.
- `Expander` (`expander.dfy`): resolved values (`Value`), `_resolve` (`Resolve`),
  `textwrap.indent` (`Indent`) and `_expand` (`Expand`). It also defines the token loop as a
  fold (`Step`, `Emit`, `Render`), which specifies the method `Template.Print`.
- `ExpanderProps` (`expander_props.dfy`): the rule for each kind of token, the pending
  indentation, and the newline rule.
- `Template` (`template.dfy`): `print` and `format` as methods. It also holds end-to-end
  lemmas: a template without `varchar` is written back unchanged, and a lone reference writes
  what it resolves to.
- `Docstring` (`docstring.dfy`): the two examples in the docstring of `format`.

Conventions of the model:

- Python's `None` for the scanner's `name` and `indent` is the empty string. An NDT value is
  never empty, and `if indent:` treats `''` like `None`.
- `last_expand_count` is an `Option<nat>`.
- The sink is a string, and every `write` appends to it.
- A value in the lookup is already resolved: `Null` for `None`, one `Scalar` text, or an
  `Iter` with the items one reference to it yields. The same `Iter` is read afresh at every
  reference, unlike a Python iterator (see "## Left out").
- `varchar` is `Option<string>`: `None` or a string of any length, as the constructor sees it.

Two behaviours of the code are easy to misread, and the model follows the code in both:

- `_expand` receives the pending indentation as an argument, so every piece of a multi-piece
  expansion gets the prefix, not only the first (template.py:53-55, 79-82).
- A character that breaks an unclosed `varchar{name` is dropped, not read again, since the
  branch at template.py:177-179 does not set `consumed = False`. Inside braces only letters
  and `_` continue a name (template.py:175), so a digit also ends the braced form.

## Model

| member | source | states |
|---|---|---|
| Scanner.NewParser | template.py:101-105 | `varchar` is accepted exactly when it is `None` or a one-character string, and every other string is an error. `None` selects `&`, and a one-character string is the parser's `varchar`. |
| Scanner.Turn | template.py:120-189 | One turn of the inner loop keeps the state among 0, 2, 3, 4, 5 and 9. A character is handed back (not consumed) only by moving to state 0. At most one token is appended, and the earlier tokens are kept. |
| Scanner.Dispatch | template.py:120-189 | The whole `while not consumed` loop for one character (at most two turns) keeps the state among the six and does not change the column. |
| Scanner.Feed | template.py:113-118 | The column is reset by a newline and otherwise grows by one, before the character is dispatched. |
| Scanner.Run | template.py:113-189 | After any input the state is one of the six. So the `raise` of the end-of-input flush cannot be reached. |
| Scanner.Flush | template.py:190-205 | The end-of-input flush emits nothing in state 0 and exactly one token in every other state. |
| Scanner.Tokens | template.py:107-205 | The tokens of a text: those yielded while reading it, then the end-of-input flush. Its behaviour is stated by `ScannerProps.RoundTrip`, `ScannerProps.TokensWellFormed`, `ScannerProps.TokensCount` and `ScannerProps.NdtAtLineStart`. |
| Scanner.Tokenize | template.py:107-205 | The method yields exactly `Tokens` of the text. For each character it returns how often the character goes round the inner `while not consumed` loop, and each count is 1 or 2. |
| ScannerProps.TurnCoherent | template.py:120-189 | One turn keeps the machine's variables consistent with its state. The name is empty in states 2 and 4, and is a bare or braced name in states 3 and 5. In state 9 the run is non-empty, made of spaces and tabs, and does not start with `varchar`. Every token is well-formed. |
| ScannerProps.RunCoherent | template.py:107-189 | The consistency of the machine holds after any input. |
| ScannerProps.TokensWellFormed | template.py:126-203 | Every token has one of three shapes. A CHR is one character, `varchar`+`{`, or `varchar`+`{`+name. An NDT is a non-empty run of spaces and tabs that does not start with `varchar`. A REF has a bare name (letter or `_`, then letters, digits or `_`) spelled `varchar`+name, or a braced name (letters and `_` only) spelled `varchar`+`{`+name+`}`. |
| ScannerProps.TurnSpell | template.py:120-189 | After one turn, the spelling of the tokens plus the pending text has grown by the character exactly when it was consumed and does not break an unclosed braced name. |
| ScannerProps.DispatchSpell | template.py:120-189 | The same for one character's whole inner loop: the spelling grows by the character unless it breaks an unclosed braced name. |
| ScannerProps.TurnPending | template.py:120-189 | After one turn, a consumed character extends the pending text, replaces it, or completes a token so that nothing is pending. A character handed back to state 0 leaves nothing pending. |
| ScannerProps.DispatchPending | template.py:120-189 | After one character's whole inner loop, the pending text has grown by the character, is that character alone, or is empty. |
| ScannerProps.RunSpell | template.py:113-189 | After any input, the spelling of the tokens plus the pending text is the input without its dropped characters, and the pending text is a suffix of the input. |
| ScannerProps.FlushSpell | template.py:190-203 | The flush spells exactly the text that was pending. |
| ScannerProps.RoundTrip | template.py:107-205 | Concatenating the values of all tokens gives the input without the characters that break an unclosed `varchar{name`. |
| ScannerProps.DroppedContext | template.py:169-179 | A dropped character is neither `}` nor a letter or `_`. The input read before it ends with `varchar`+`{` and a non-empty braced name. |
| ScannerProps.BreaksNeeds | template.py:126-179 | A character can be dropped only when the input before it contains both `varchar` and `{`. |
| ScannerProps.ExactRoundTrip | template.py:107-205 | When the input lacks `varchar` or lacks `{`, concatenating the token values gives back exactly the input. |
| ScannerProps.DispatchCount | template.py:120-189 | One character adds at most one to the count of emitted tokens plus pending tokens. |
| ScannerProps.RunCount | template.py:113-189 | The emitted tokens plus a pending one never outnumber the characters read. |
| ScannerProps.TokensCount | template.py:107-205 | There are at most as many tokens as characters in the input. |
| ScannerProps.RunColumn | template.py:113-118 | The column is the length of the current line. |
| ScannerProps.DispatchIndent | template.py:131-184 | An indentation run is either extended by a space or tab in state 9, or begun by a space or tab read at column 1. |
| ScannerProps.RunIndent | template.py:131-184 | An indentation run being read is the whole current line so far. |
| ScannerProps.TurnEmits | template.py:120-189 | One turn keeps the earlier tokens and appends at most one. An NDT comes only from state 9, carries the run read so far, and is ended by a character that is not a space or tab. |
| ScannerProps.DispatchEmits | template.py:120-189 | The same for one character's whole inner loop. |
| ScannerProps.NdtAtLineStart | template.py:181-189 | Reading a character only appends tokens. Every NDT it emits is the whole line before that character: a non-empty run of spaces and tabs that does not start with `varchar`. |
| ScannerProps.FlushedNdt | template.py:202-203 | An NDT flushed at the end of the input is the whole last line, which is non-empty and made only of spaces and tabs. |
| ScannerProps.RunVarchar | template.py:126-130 | After any text that leaves the scanner in state 0, reading `varchar` enters state 2 with an empty name. It emits no token and leaves the pending indentation as it was. |
| ScannerProps.RunVarcharBrace | template.py:137-140 | After any text that leaves the scanner in state 0, reading `varchar`+`{` enters state 4 with an empty name and emits no token. |
| ScannerProps.EnterName | template.py:137-167 | In states 2 and 4 a letter or `_` starts the name and moves to state 3 or 5. |
| ScannerProps.ExtendName | template.py:149-177 | A bare name is extended by a letter, digit or `_`; a braced name only by a letter or `_`. |
| ScannerProps.NameSnoc | template.py:137-177 | Reading a letter or `_` in states 2, 4 or 5, or a letter, digit or `_` in state 3, appends it to the name and emits nothing. States 2 and 4 move on to 3 and 5, and states 3 and 5 stay. |
| ScannerProps.RunBareName | template.py:137-157 | After any text that leaves the scanner in state 0, while `varchar` and a bare name are read, the machine stays in state 3 with the name read so far. It emits no token beyond those of the earlier text. |
| ScannerProps.ScanBareRef | template.py:190-197 | After any text that leaves the scanner in state 0, `varchar` followed by a bare name and the end of input adds exactly one REF to the earlier text's tokens. |
| ScannerProps.RunBracedName | template.py:159-177 | After any text that leaves the scanner in state 0, while `varchar{` and a braced name are read, the machine stays in state 5 with the name read so far. It is in state 4 before the first letter, and it emits no token beyond those of the earlier text. |
| ScannerProps.ScanBracedRef | template.py:169-176 | After any text that leaves the scanner in state 0, `varchar{name}` at the end of the input adds exactly one REF to the earlier text's tokens. |
| Expander.Resolve | template.py:39-51 | An absent name gives its source spelling. A name bound to `None` gives one empty piece. An iterator gives its items in order. Any other value gives exactly one piece, its text. |
| Expander.LineEnd | template.py:55 | The first line of a text is at least one character long and contains no newline before its end, and a newline ends it when more text follows. |
| Expander.Indent | template.py:55 | `textwrap.indent` on lines ended by `'\n'`. Its behaviour is stated by `ExpanderProps.IndentOneLine`, `ExpanderProps.IndentFirstLine`, `ExpanderProps.IndentNoPrefix` and `ExpanderProps.IndentEndsNl`. |
| Expander.Expand | template.py:53-55 | `_expand` yields one piece per resolved piece. |
| Expander.Step | template.py:60-82 | One iteration of the token loop. The sink only grows. An NDT writes nothing and becomes the pending indentation, and any other token clears it. The per-token rules are `ExpanderProps.NewlineRule`, `ExpanderProps.ChrRule`, `ExpanderProps.NdtRule` and `ExpanderProps.RefRule`, and `ExpanderProps.StepFlags` gives the flags. |
| Expander.Emit | template.py:57-82 | The loop's variables after a sequence of tokens, starting from no indentation and no expansion. `ExpanderProps.EmitFlags` and `ExpanderProps.EmitIndent` state what its flags and indentation mean. |
| Expander.Render | template.py:57-82 | What the token loop writes to the sink. It is the specification of `Template.Print`, and `ExpanderProps.NewlineRule`, `ExpanderProps.ChrRule`, `ExpanderProps.NdtRule` and `ExpanderProps.RefRule` state how each token extends it. |
| ExpanderProps.IndentEndsNl | template.py:55 | Indenting never shortens a text and never changes whether it ends with a newline. |
| ExpanderProps.IndentNoPrefix | template.py:55 | The empty prefix changes nothing. |
| ExpanderProps.IndentOneLine | template.py:55 | A text without a newline gets the prefix exactly when it is not whitespace only. |
| ExpanderProps.IndentFirstLine | template.py:55 | Indenting works line by line: a first line ended by a newline is indented on its own, and the rest independently. |
| ExpanderProps.ExpandIsIndentAll | template.py:53-55 | Whether or not an indentation is pending, every resolved piece is indented by it. |
| ExpanderProps.StepFlags | template.py:60-82 | After a token, the two flags ask for the next newline to be dropped as follows. After a CHR, never. After an NDT, as before. After a REF, exactly when it gave no pieces or its last piece ends with a newline. |
| ExpanderProps.EmitFlags | template.py:57-82 | After any tokens, `last_expand_nl or last_expand_count == 0` holds exactly when the last token other than NDTs is a REF that gave no pieces or whose last piece ends with a newline. |
| ExpanderProps.NewlineRule | template.py:62-74 | A newline CHR writes the pending indentation, then the newline unless the last expansion suppresses it. It resets both flags and clears the pending indentation. |
| ExpanderProps.ChrRule | template.py:62-74 | Any other CHR writes the pending indentation and then its text, verbatim. It resets both flags and clears the pending indentation. |
| ExpanderProps.NdtRule | template.py:75-76 | An NDT writes nothing and becomes the pending indentation, overwriting an earlier one. It leaves the newline rule as it was. |
| ExpanderProps.RefRule | template.py:77-82 | A REF writes every resolved piece, each with the pending indentation in front of its non-blank lines, and then clears the pending indentation. |
| Template.Printed | template.py:26-82 | What `print` writes, or its error. It is an error exactly when `varchar` is a string that is not one character long. |
| Template.Print | template.py:26-82 | `print` writes exactly the rendering of the template's tokens. It fails, writing nothing, exactly when `varchar` is a string that is not one character long. |
| Template.Consume | template.py:60-82 | One iteration of the token loop updates the sink and the three running variables as the token rules say. |
| Template.WritePieces | template.py:79-81 | The REF loop appends every piece in order and counts them. `last_expand_nl` says whether the last piece ends with a newline, and is unchanged when there are none. |
| Template.Format | template.py:9-23 | `format` returns what `print` writes, with the keyword values overriding the context. |
| Template.PlainRun | template.py:60-189 | While no `varchar` has been read, the scanner is in state 0 or in an indentation run, and it is in a run exactly when the current line is non-empty and blank. Everything read so far is written, except that run. |
| Template.Verbatim | template.py:60-203 | A template without `varchar` is written back unchanged, except that a last line made only of spaces and tabs is a flushed NDT that is never written. |
| Template.BareReference | template.py:39-51 | `varchar` and a bare name alone write what the name resolves to: its spelling when absent, nothing when `None`, the scalar, or the items in order. |
| Template.BracedReference | template.py:39-51 | The same for `varchar{name}`. |
| Template.OneReference | template.py:53-82 | A lone REF writes its resolved pieces, unindented, one after the other. |
| Docstring.ScanBraced | template.py:12-14 | `&v &{v}` scans as a bare REF, a space and a braced REF. This holds for any `varchar` other than `v`, the space, `{`, `}` and the newline. |
| Docstring.RenderSample | template.py:12-14 | Two references to a name bound to a scalar, with a space between them, write the scalar twice with the space between. |
| Docstring.FormatSample | template.py:12-18 | With `v` bound to `'hello'`, `&v &{v}` and `#v #{v}` (with `varchar` `#`) both give `'hello hello'`. |

## Left out

- `textwrap.dedent` (template.py:31-32). `print`, `Printed` and `Format` take the template as it is after that step.
- Splitting lines. `textwrap.indent` is modelled on lines ended by `'\n'`. The other line boundaries of Python's `splitlines` are not.
- Callables and the iterator protocol (template.py:41-45), and `str()` of arbitrary objects in `_s` (template.py:37). A value is taken as already resolved into text.
- Exceptions raised by user callables or iterators. They have no counterpart in the model.
- Non-string `varchar` values such as numbers (template.py:103). `varchar` is `None` or a string.
- The sink: `sys.stdout`, `io.StringIO` and `file.write` (template.py:21-23, 29-30, 34). The sink is a string that writes append to.
- Unicode character classes. `isalpha`, `isalnum` and the whitespace test of `str.strip` are the ASCII classes.
- The unused `line` counter (template.py:112, 115). `_Token.__repr__` (template.py:95-96) is only for debugging.
- Interleaving. `print` writes while the scanner is still producing tokens, since both are generators. The model scans first and then writes. The sink receives the same text, because nothing the scanner does depends on what was written.
- Expander.Resolve: a Python iterator is used up by its first reference. A later reference to
  the same name yields no pieces, so it writes nothing and drops the next template newline.
  For example, `format('&v\n&v\n', v=iter(['a']))` gives `'a\n'`. In the model an `Iter`
  stands for what a single reference yields, and every reference yields it again, so the
  model gives `'a\na\n'`. The model is faithful for a template that references an
  iterator-bound name at most once. Tracking this would make the lookup depend on how many
  references to the name came before.
