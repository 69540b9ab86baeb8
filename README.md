# Lumira v0.2 interpreter, modelled in Dafny

Lumira is a small line-oriented scripting language. Its whole implementation is
one Python function, `interpret_lumira(code)`, which has three parts:

- **The evaluator** (`evaluate`) turns a stripped operand into a runtime value.
  Its rules are tried in order and the first match wins:
  1. double-quoted text;
  2. text holding a `.`, handed to `float()`;
  3. a single-quoted integer;
  4. a bound variable;
  5. the raw text itself.
- **The line dispatcher** (`parse_line`) recognises one statement by its prefix
  and runs it. The statements are:
  - `~!` comments;
  - `let name = expr` bindings;
  - `printos(...)` output;
  - `inscan()` input;
  - the `defn `, `if ` and `foros ` stubs;
  - everything else, which is reported as unknown syntax.
- **The driver** strips the script, splits it on newlines and dispatches each
  line in turn against one shared variable store.

The model has seven modules, one per file:

- `Wrappers`: `Option`.
- `StrOps`: the Python string built-ins the code calls. These are
  `str.strip`, `startswith`/`endswith`, `split(sep)`, `split(sep, 1)`,
  `join`, `str(int)` and `int(str)`.
- `Values`: the runtime values `str`, `int` and `float`, and `str()` on them.
- `Evaluator`: `evaluate`, a pure function, with lemmas about each of its rules.
- `Dispatcher`: `parse_line` as a specification function `Exec`, which maps a
  state and a line to the next state and the exception raised, if any. The
  state is the store, the standard output and the unread standard input.
  Lemmas state what every statement kind does, and what no line can do.
- `Driver`: the imperative interpreter.
  - The class `Interpreter` holds the `variables` dictionary, standard output
    and standard input as fields.
  - Its method `ParseLine` follows the source's `if`/`elif` chain and mutates
    those fields.
  - `InterpretLumira` is the driver loop. It is proved equal to the
    specification `Run`.
  - Lemmas state what a whole run can do to the state.
- `Sample`: the demo script shipped with the interpreter, with a proof of its
  exact output.

These choices hold throughout:

- Standard output is one string. `print(t)` appends `t` and a newline.
  `input("> ")` appends the prompt `> ` and consumes one line of standard
  input, which is a parameter.
- A Python exception that escapes `parse_line` ends the run and is returned as a
  `Fault`. There are two: `IndexError` comes from a `let ` line without `=`,
  and `EOFError` comes from `inscan()` when no input is left.
- Python's `float(s)` and `str(f)` are the fields of a `FloatConv` parameter.
  A float is its 64 IEEE bits.

## Model

| member | source | states |
|---|---|---|
| StrOps.Strip | lumira_v02_full_interpreter.py:8 | `strip()` leaves no white space at either end and never lengthens the text |
| StrOps.StripPadded | lumira_v02_full_interpreter.py:8 | stripping white space placed around trimmed text gives back exactly that text |
| StrOps.StripIdempotent | lumira_v02_full_interpreter.py:8 | stripping twice is stripping once |
| StrOps.StripDropsLeadingSpace | lumira_v02_full_interpreter.py:26 | indentation makes no difference to the stripped line |
| StrOps.StartsWith | lumira_v02_full_interpreter.py:9-52 | `s.startswith(p)`, as every prefix test of `evaluate` and `parse_line` uses it; `StartsWithConcat` states that it holds exactly when `s` is `p` followed by the rest of `s` |
| StrOps.StartsWithConcat | lumira_v02_full_interpreter.py:9-52 | `p + rest` starts with `p`, and text that starts with `p` is `p` followed by the rest of the text |
| StrOps.EndsWith | lumira_v02_full_interpreter.py:9-16 | `s.endswith(p)`, the closing-quote tests of `evaluate`; `EndsWithConcat` states that it holds exactly when `s` is some text followed by `p` |
| StrOps.EndsWithConcat | lumira_v02_full_interpreter.py:9-16 | `rest + p` ends with `p`, and text that ends with `p` is the text before its last `len(p)` characters followed by `p` |
| StrOps.Interior | lumira_v02_full_interpreter.py:10-18 | the slice `expr[1:-1]`: on text of two or more characters, first character, interior and last character rebuild the text; on a single character (a lone `"` or `'`) it is empty |
| StrOps.JoinWith | lumira_v02_full_interpreter.py:41 | `sep.join(parts)`; `SplitAll` and `SplitJoin` state that it inverts `split` and that `split` inverts it on separator-free pieces |
| StrOps.SplitAll | lumira_v02_full_interpreter.py:38-40 | `split(c)` yields at least one piece; no piece holds `c`; joining the pieces with `c` gives the text back |
| StrOps.SplitJoin | lumira_v02_full_interpreter.py:58 | splitting the join of pieces free of `c` gives back the same pieces |
| StrOps.SplitFirst | lumira_v02_full_interpreter.py:30 | `split("=", 1)` has no second part exactly when there is no `=`; otherwise the first part holds no `=` and part, `=` and rest rebuild the text |
| StrOps.SplitFirstAt | lumira_v02_full_interpreter.py:30 | text without `=`, then `=`, then anything, splits into exactly those two parts |
| StrOps.ParseInt | lumira_v02_full_interpreter.py:18 | `int(s)` in base 10: optional sign, digits with single underscores, and the white space `int()` skips; its behaviour is stated by `ParseIntToString`, `ParseIntDigits`, `ParseIntPadded`, `ParseIntNegative` and `ParseIntRejectsSeparator` |
| StrOps.IntStrip | lumira_v02_full_interpreter.py:18 | the white space `int()` skips, removed from both ends: the result is the part of the text that follows its leading skippable characters, it starts and ends with a character `int()` does not skip, and only skippable characters follow it |
| StrOps.ParseIntPadded | lumira_v02_full_interpreter.py:18 | a digit run with skippable white space on either side reads as the number it denotes, so `int(" 5 ")` is 5 |
| StrOps.ParseIntDigits | lumira_v02_full_interpreter.py:18 | a bare digit run reads as the number it denotes |
| StrOps.ParseIntNegative | lumira_v02_full_interpreter.py:18 | `-` followed by a digit run reads as the negated number |
| StrOps.ParseIntRejectsSeparator | lumira_v02_full_interpreter.py:18 | an ASCII information separator (U+001C to U+001F) before the digits makes `int()` fail, although `strip()` removes it |
| StrOps.IntToString | lumira_v02_full_interpreter.py:41 | `str(n)` of an integer: `-` before the digits of a negative number, then the digits of `NatToString`; `NatToStringValue` fixes those digits, and `ParseIntToString` and `IntToStringPlain` state what they satisfy |
| StrOps.NatToString | lumira_v02_full_interpreter.py:41 | the decimal text of a natural number holds at least one character, only digits, and no leading zero unless the number is 0 |
| StrOps.NatToStringValue | lumira_v02_full_interpreter.py:41 | the digits `str()` prints for a natural number form a digit run whose value is that number, so they are fixed |
| StrOps.ParseIntToString | lumira_v02_full_interpreter.py:18 | `int(str(n)) == n` for every integer |
| StrOps.IntToStringPlain | lumira_v02_full_interpreter.py:41 | `str(n)` of an integer holds no dot and no quote and is trimmed |
| Values.Render | lumira_v02_full_interpreter.py:41 | `str(v)`: text as it is, integers through `str(int)`, floats through the float parameter; `RenderIntRoundTrip` states the integer case |
| Values.RenderIntRoundTrip | lumira_v02_full_interpreter.py:41 | an integer prints as text that `int()` reads back as the same integer |
| Evaluator.Evaluate | lumira_v02_full_interpreter.py:7-23 | `evaluate(expr)`: strip, then the five rules in order; each rule is stated by the lemmas below, and `EvaluateOrigins` covers all of them |
| Evaluator.EvaluateDoubleQuoted | lumira_v02_full_interpreter.py:8-10 | `"s"`, padded with white space, evaluates to `s` whatever `s` holds and whatever the store binds |
| Evaluator.EvaluateLoneQuote | lumira_v02_full_interpreter.py:9-10 | a lone `"` both starts and ends with a quote and evaluates to the empty text |
| Evaluator.EvaluatePadded | lumira_v02_full_interpreter.py:8 | white space around an operand does not change its value |
| Evaluator.EvaluateDotted | lumira_v02_full_interpreter.py:11-15 | text with a `.` that is not double-quoted is `float()` of the text, or the text itself; the store is never consulted |
| Evaluator.EvaluateDottedNonNumeric | lumira_v02_full_interpreter.py:11-15 | dotted text holding a character no float literal uses stays raw text, even when a variable of that name is bound |
| Evaluator.EvaluateQuotedDecimal | lumira_v02_full_interpreter.py:11-20 | `'x'` with a `.` in `x` (such as `'3.5'`) stays raw text, quotes included, because the dot rule comes first |
| Evaluator.EvaluateSingleQuoted | lumira_v02_full_interpreter.py:16-20 | `'x'` without a dot is `int(x)` when that parses and the quoted text itself when it does not |
| Evaluator.EvaluateQuotedSeparator | lumira_v02_full_interpreter.py:16-20 | `'` followed by an ASCII information separator is not an integer, because `int()` does not skip that character, so the quoted text itself is the value |
| Evaluator.EvaluateQuotedInt | lumira_v02_full_interpreter.py:16-18 | `'` + `str(n)` + `'` evaluates to the integer `n` |
| Evaluator.EvaluateName | lumira_v02_full_interpreter.py:21-23 | a name no earlier rule claims evaluates to its binding when bound and to itself otherwise |
| Evaluator.EvaluateOrigins | lumira_v02_full_interpreter.py:7-23 | every value comes from one of the five rules: quote interior, parsed float, parsed integer, stored value or raw text |
| Dispatcher.Classify | lumira_v02_full_interpreter.py:26-53 | the statement kind of a line, tested in the source's order: `~!` on the stripped line, every other prefix on the line as it is; stated by `ExecComment`, `ExecLet`, `ExecPrintos`, `ExecInscan`, `ExecStubs`, `ExecIndented` and `ExecEmptyLine` |
| Dispatcher.Exec | lumira_v02_full_interpreter.py:25-56 | `parse_line(line)` on a state: the next state and the exception raised; stated statement by statement by the `Exec` lemmas below, and over all lines by `ExecFaults` and `ExecFrame` |
| Dispatcher.LetStep | lumira_v02_full_interpreter.py:29-33 | the `let ` branch on the text after `let `; stated by `ExecLet`, `ExecLetTouchesOneKey`, `ExecLetWithoutEquals` and `LetStepFrame` |
| Dispatcher.PrintosText | lumira_v02_full_interpreter.py:36-41 | the one line `printos(` prints: the rendered operands joined by single spaces; stated by `ExecPrintos` and `PrintosTwoOperands` |
| Dispatcher.Print | lumira_v02_full_interpreter.py:41-56 | `print(text)` on the specification state, for the `printos(`, stub and unknown-syntax branches; `ExecPrintos`, `ExecStubs` and `ExecEmptyLine` give the exact text, `ExecFrame` states that output is only appended, and `Interpreter.Print` is the in-place counterpart |
| Dispatcher.Operands | lumira_v02_full_interpreter.py:37-40 | the operands split on `+` when there is one and on `,` otherwise; no operand holds the separator; joining them with it gives `inner` back |
| Dispatcher.ExecComment | lumira_v02_full_interpreter.py:26-27 | a line that starts with `~!`, even after indentation, changes nothing |
| Dispatcher.ExecLet | lumira_v02_full_interpreter.py:29-33 | `let left=right` binds `strip(left)` to `strip(right)` evaluated against the old store, overwriting; the split is at the first `=`; nothing is printed or read |
| Dispatcher.ExecLetTouchesOneKey | lumira_v02_full_interpreter.py:29-33 | after `let`, the keys are the old keys plus the bound one, and every other key keeps its value |
| Dispatcher.ExecLetWithoutEquals | lumira_v02_full_interpreter.py:30-32 | `let ` without `=` raises `IndexError` and changes nothing |
| Dispatcher.LetStepFrame | lumira_v02_full_interpreter.py:29-33 | the `let` branch changes the store only at its key and leaves output and input alone |
| Dispatcher.ExecPrintos | lumira_v02_full_interpreter.py:35-41 | `printos(` + inner + any last character prints exactly one line, the rendered operands of inner joined by spaces; store and input are untouched |
| Dispatcher.ExecPrintosBare | lumira_v02_full_interpreter.py:36 | a bare `printos(` prints the rendering of the empty operand, since `line[8:-1]` is then empty |
| Dispatcher.OperandsOfTwo | lumira_v02_full_interpreter.py:37-40 | `a+b` splits on `+` even when the operands hold commas; `a,b` splits on `,` only when there is no `+` |
| Dispatcher.PrintosTwoOperands | lumira_v02_full_interpreter.py:37-41 | the printed line of a two-operand `printos(` is the two renderings with one space between |
| Dispatcher.ExecInscan | lumira_v02_full_interpreter.py:43-44 | `inscan()` writes `> ` and consumes one input line, or raises `EOFError` when none is left; the store never changes |
| Dispatcher.ExecStubs | lumira_v02_full_interpreter.py:46-53 | `defn `, `if ` and `foros ` lines print their fixed "coming in v0.3" messages and change nothing else |
| Dispatcher.ExecIndented | lumira_v02_full_interpreter.py:29-56 | an indented line that is not a comment is unknown syntax, reported with the original line |
| Dispatcher.ExecEmptyLine | lumira_v02_full_interpreter.py:55-56 | the empty line prints `Unknown syntax: ` and nothing more |
| Dispatcher.ExecFaults | lumira_v02_full_interpreter.py:29-44 | a line raises `IndexError` exactly when it is `let ` without `=`, and `EOFError` exactly when it is `inscan()` with no input left |
| Dispatcher.ExecFrame | lumira_v02_full_interpreter.py:25-56 | every line only appends to output, consumes at most one input line, and changes the store at most at the key a `let` binds |
| Driver.Interpreter.constructor | lumira_v02_full_interpreter.py:5 | a new interpreter is in the initial state |
| Driver.Interpreter.Print | lumira_v02_full_interpreter.py:41 | `print` appends the text and a newline and changes nothing else |
| Driver.Interpreter.Input | lumira_v02_full_interpreter.py:44 | `input` writes the prompt and returns the first unread input line, consuming it, or reports end of input |
| Driver.Interpreter.Let | lumira_v02_full_interpreter.py:29-33 | the in-place update of `variables` matches the `let` branch of the specification |
| Driver.Interpreter.Printos | lumira_v02_full_interpreter.py:35-41 | the printed line matches the `printos(` branch of the specification |
| Driver.Interpreter.Inscan | lumira_v02_full_interpreter.py:43-44 | the prompt, the input consumed and the line returned match `inscan()` |
| Driver.Interpreter.Notice | lumira_v02_full_interpreter.py:46-56 | stub and unknown-syntax lines print the message the specification gives |
| Driver.Interpreter.ParseLine | lumira_v02_full_interpreter.py:25-56 | the new fields and the exception match `Exec`; the returned line is the input read, only for `inscan()` |
| Driver.Lines | lumira_v02_full_interpreter.py:58 | the stripped script splits at every newline: at least one line, no line holds a newline, and the lines joined by newlines give the stripped script back (so, by `SplitJoin`, they are the only such lines) |
| Driver.Run | lumira_v02_full_interpreter.py:58-60 | the lines run in order from a state until one raises; its behaviour is stated by `RunConcat`, `RunFrame`, `RunKeysBound` and `RunBlankScript`, and `InterpretLumira` is proved equal to it |
| Driver.InterpretLumira | lumira_v02_full_interpreter.py:58-60 | the loop ends in the state and exception of `Run` over the script's lines from the initial state |
| Driver.RunConcat | lumira_v02_full_interpreter.py:59-60 | running two scripts in a row is running their concatenation; a fault in the first ends it |
| Driver.RunFrame | lumira_v02_full_interpreter.py:58-60 | over a whole run, output only grows, input is consumed from the front, and only keys that `let` lines bind can appear or change |
| Driver.RunKeysBound | lumira_v02_full_interpreter.py:58-60 | after any run from the empty store, every key in the store is one that a `let ` line of the script binds |
| Driver.RunBlankScript | lumira_v02_full_interpreter.py:58-60 | a blank script is one empty line and prints exactly `Unknown syntax: ` |
| Sample.SampleComment | lumira_v02_full_interpreter.py:64 | the comment line of the demo changes nothing |
| Sample.SampleName | lumira_v02_full_interpreter.py:65 | the demo binds `name` to the text `Lumira` |
| Sample.SampleVersion | lumira_v02_full_interpreter.py:66 | the demo binds `version` to the integer 2 |
| Sample.SampleWelcome | lumira_v02_full_interpreter.py:67 | the demo prints `Welcome to Lumira` |
| Sample.SampleBanner | lumira_v02_full_interpreter.py:68 | the demo prints `Version:  2`, with two spaces |
| Sample.LinesOfSample | lumira_v02_full_interpreter.py:63-69 | the demo script splits into its five lines |
| Sample.SampleRun | lumira_v02_full_interpreter.py:63-71 | the demo run prints exactly `Welcome to Lumira` and `Version:  2`, binds `name` and `version`, reads nothing and raises nothing |

## Left out

- `float()` and `str()` on floats (lines 13 and 41) are floating-point numerics. They are the fields of the `FloatConv` parameter. The one property of `float()` the model uses is the predicate `RejectsNonFloatText`: it rejects text holding a character no float literal uses. Only the lemmas that need it take it as a precondition.
- StrOps.ParseInt: `int()` is modelled for ASCII digits, with the white space it skips, one sign and single underscores. Python also accepts other Unicode decimal digits, and it refuses texts longer than 4300 digits. Neither is modelled.
- A Python `str` can hold lone surrogates (U+D800 to U+DFFF). A Dafny `char` cannot, so scripts holding them are not modelled.
- The bare `except:` clauses (lines 14 and 19) are modelled as the conversions returning `None`. No other exception can arise there.
- `import re` (line 2) is unused.
- The call `interpret_lumira(sample_code)` when the module is imported (line 71) is modelled as the lemma `Sample.SampleRun`.
- Console input and output are the interpreter's `stdout` and `stdin` fields. Blocking, encoding and buffering are not modelled.
- Driver.Interpreter.Inscan: the line that `input()` returns is handed back to `ParseLine`'s caller. As in the source, the driver loop discards it.
- In these places the code behaves in ways that are easy to misread. The model follows the code:
  - A lone `"` counts as double-quoted and evaluates to the empty text.
  - Double-quoted text evaluates to its interior even when that interior holds more quotes.
  - An empty or blank script prints `Unknown syntax: `. It does not print nothing.
  - A `printos(` line can never fail on slicing, because the prefix guarantees eight characters.
  - An exception from a line ends the whole run. There is no recovery.
