/**
  The line dispatcher: the nested function `parse_line` of
  `interpret_lumira`, as a specification. One line is classified by its
  prefix (first match wins) and executed against the interpreter state.
*/
module Dispatcher {
  import opened Wrappers
  import opened StrOps
  import opened Values
  import opened Evaluator

  /**
    The exceptions that escape `parse_line` and end the run: `IndexError`
    from a `let ` line without `=`, `EOFError` from `input()` with no
    input left.
  */
  datatype Fault = IndexError | EOFError

  /**
    What one run of the interpreter can observe: the variable store, all
    text written to standard output so far, and the lines of standard
    input not yet read.
  */
  datatype State = State(vars: Store, stdout: string, stdin: seq<string>)

  /** The state after a line, and the exception it raised, if any. */
  datatype Step = Step(st: State, fault: Option<Fault>)

  /** The statement kinds, in the order `parse_line` tests for them. */
  datatype Stmt = Comment | Let(rest: string) | Printos(inner: string) | Inscan | Defn | If | Foros | Unknown

  const DefnMessage: string := "~! Function definition support coming in v0.3"
  const IfMessage: string := "~! Conditional support coming in v0.3"
  const ForosMessage: string := "~! Loop support coming in v0.3"
  const UnknownPrefix: string := "Unknown syntax: "
  /** The prompt `input()` writes before it reads. */
  const Prompt: string := "> "

  /**
    The statement a line holds. The comment marker is looked for in the
    stripped line; every other prefix in the line as it is. `Let` keeps
    the text after `let `; `Printos` keeps `line[8:-1]`, the text between
    `printos(` and the last character (empty when nothing follows `printos(`).
  */
  function Classify(line: string): Stmt {
    if StartsWith(Strip(line), "~!") then Comment
    else if StartsWith(line, "let ") then Let(line[4..])
    else if StartsWith(line, "printos(") then Printos(line[8..if |line| > 8 then |line| - 1 else 8])
    else if StartsWith(line, "inscan()") then Inscan
    else if StartsWith(line, "defn ") then Defn
    else if StartsWith(line, "if ") then If
    else if StartsWith(line, "foros ") then Foros
    else Unknown
  }

  /** Python's `print(text)`: the text and a newline go to standard output. */
  function Print(st: State, text: string): State {
    st.(stdout := st.stdout + text + "\n")
  }

  /**
    The operand texts of `printos(`: split on every `+` when there is one,
    and on every `,` otherwise, with no regard for quotes.
  */
  function Operands(inner: string): (r: seq<string>)
    ensures |r| >= 1
    ensures '+' in inner ==> JoinWith(r, "+") == inner && forall k :: 0 <= k < |r| ==> '+' !in r[k]
    ensures '+' !in inner ==> JoinWith(r, ",") == inner && forall k :: 0 <= k < |r| ==> ',' !in r[k]
  {
    if '+' in inner then SplitAll(inner, '+') else SplitAll(inner, ',')
  }

  /** `str(evaluate(p.strip()))` for one operand `p`. */
  function RenderOperand(p: string, vars: Store, conv: FloatConv): string {
    Render(Evaluate(Strip(p), vars, conv), conv)
  }

  /** The operands rendered one by one, in order. */
  function Rendered(pieces: seq<string>, vars: Store, conv: FloatConv): seq<string> {
    MapStrings(p => RenderOperand(p, vars, conv), pieces)
  }

  /** `f` applied to each piece, in order. */
  function MapStrings(f: string -> string, pieces: seq<string>): (r: seq<string>)
    ensures |r| == |pieces| && forall k :: 0 <= k < |pieces| ==> r[k] == f(pieces[k])
  {
    if pieces == [] then [] else [f(pieces[0])] + MapStrings(f, pieces[1..])
  }

  /** The one line `printos(` prints: the rendered operands joined by single spaces. */
  function PrintosText(inner: string, vars: Store, conv: FloatConv): string {
    JoinWith(Rendered(Operands(inner), vars, conv), " ")
  }

  /**
    The `let ` branch on the text after `let `: `rest.split("=", 1)`, then
    the stripped left part bound to the evaluated, stripped right part;
    `IndexError` when there is no second part.
  */
  function LetStep(st: State, rest: string, conv: FloatConv): Step {
    match SplitFirst(rest, '=')
    case None => Step(st, Some(IndexError))
    case Some(parts) =>
      Step(st.(vars := st.vars[Strip(parts.0) := Evaluate(Strip(parts.1), st.vars, conv)]), None)
  }

  /** `parse_line(line)` against state `st`. */
  function Exec(st: State, line: string, conv: FloatConv): Step {
    match Classify(line)
    case Comment => Step(st, None)
    case Let(rest) => LetStep(st, rest, conv)
    case Printos(inner) => Step(Print(st, PrintosText(inner, st.vars, conv)), None)
    case Inscan() =>
      var prompted := st.(stdout := st.stdout + Prompt);
      if st.stdin == [] then Step(prompted, Some(EOFError))
      else Step(prompted.(stdin := st.stdin[1..]), None)
    case Defn => Step(Print(st, DefnMessage), None)
    case If => Step(Print(st, IfMessage), None)
    case Foros => Step(Print(st, ForosMessage), None)
    case Unknown => Step(Print(st, UnknownPrefix + line), None)
  }

  /** A `let ` line runs the `let ` branch on the text after `let `. */
  lemma {:induction false} ExecLetLine(st: State, line: string, conv: FloatConv)
    requires Classify(line).Let?
    ensures |line| >= 4 && Exec(st, line, conv) == LetStep(st, line[4..], conv)
  {
    LetLine(line);
  }

  lemma {:induction false} LetLine(line: string)
    requires Classify(line).Let?
    ensures StartsWith(line, "let ") && Classify(line) == Let(line[4..])
  {
  }

  lemma {:induction false} PrintosLine(line: string)
    requires Classify(line).Printos?
    ensures StartsWith(line, "printos(")
    ensures Classify(line) == Printos(if |line| > 8 then line[8..|line| - 1] else "")
  {
  }

  /** A `printos(` line prints the operands of `line[8:-1]`. */
  lemma {:induction false} ExecPrintosLine(st: State, line: string, conv: FloatConv)
    requires Classify(line).Printos?
    ensures |line| >= 8
    ensures Exec(st, line, conv)
         == Step(Print(st, PrintosText(if |line| > 8 then line[8..|line| - 1] else "", st.vars, conv)), None)
  {
    PrintosLine(line);
  }

  /**
    The empty line matches no prefix: it is reported as unknown syntax.
    The line is a parameter rather than the literal `""` so that the solver
    does not unfold `Exec` on a literal argument.
  */
  lemma {:induction false} ExecEmptyLine(st: State, line: string, conv: FloatConv)
    requires line == []
    ensures Exec(st, line, conv) == Step(Print(st, UnknownPrefix), None)
  {
    ClassifyEmpty();
    ExecUnknown(st, line, conv);
    assert UnknownPrefix + line == UnknownPrefix;
  }

  lemma {:induction false} ExecUnknown(st: State, line: string, conv: FloatConv)
    requires Classify(line) == Unknown
    ensures Exec(st, line, conv) == Step(Print(st, UnknownPrefix + line), None)
  {
  }

  lemma {:induction false} ClassifyEmpty()
    ensures Classify("") == Unknown
  {
    StripAllSpace("");
  }

  /** A line whose first character is neither white space nor `~` is not a comment. */
  lemma {:induction false} NotComment(line: string)
    requires |line| > 0 && !IsSpace(line[0]) && line[0] != '~'
    ensures !StartsWith(Strip(line), "~!")
  {
    assert line == [line[0]] + line[1..];
    StripKeepsPrefix([line[0]], line[1..]);
  }

  /** A line that differs from a prefix at position `k` does not start with it. */
  lemma {:induction false} DiffersAt(line: string, p: string, k: nat)
    requires k < |p| && k < |line| && line[k] != p[k]
    ensures !StartsWith(line, p)
  {
  }

  lemma {:induction false} ClassifyLet(rest: string)
    ensures Classify("let " + rest) == Let(rest)
  {
    var line := "let " + rest;
    assert line[0] == 'l';
    NotComment(line);
    StartsWithConcat("let ", rest);
    assert line[4..] == rest;
  }

  lemma {:induction false} ClassifyPrintos(inner: string, close: char)
    ensures Classify("printos(" + inner + [close]) == Printos(inner)
  {
    var line := "printos(" + inner + [close];
    assert line == "printos(" + (inner + [close]);
    assert line[0] == 'p';
    NotComment(line);
    DiffersAt(line, "let ", 0);
    StartsWithConcat("printos(", inner + [close]);
    assert line[8..|line| - 1] == inner;
  }

  lemma {:induction false} ClassifyPrintosBare()
    ensures Classify("printos(") == Printos("")
  {
    var line := "printos(";
    NotComment(line);
    DiffersAt(line, "let ", 0);
    StartsWithConcat("printos(", "");
    assert line + "" == line;
  }

  lemma {:induction false} ClassifyInscan(rest: string)
    ensures Classify("inscan()" + rest) == Inscan
  {
    var line := "inscan()" + rest;
    assert line[0] == 'i';
    NotComment(line);
    DiffersAt(line, "let ", 0);
    DiffersAt(line, "printos(", 0);
    StartsWithConcat("inscan()", rest);
  }

  lemma {:induction false} ClassifyDefn(rest: string)
    ensures Classify("defn " + rest) == Defn
  {
    var d := "defn " + rest;
    assert d[0] == 'd';
    NotComment(d);
    DiffersAt(d, "let ", 0);
    DiffersAt(d, "printos(", 0);
    DiffersAt(d, "inscan()", 0);
    StartsWithConcat("defn ", rest);
  }

  lemma {:induction false} ClassifyIf(rest: string)
    ensures Classify("if " + rest) == If
  {
    var i := "if " + rest;
    assert i[0] == 'i' && i[1] == 'f';
    NotComment(i);
    DiffersAt(i, "let ", 0);
    DiffersAt(i, "printos(", 0);
    DiffersAt(i, "inscan()", 1);
    DiffersAt(i, "defn ", 0);
    StartsWithConcat("if ", rest);
  }

  lemma {:induction false} ClassifyForos(rest: string)
    ensures Classify("foros " + rest) == Foros
  {
    var f := "foros " + rest;
    assert f[0] == 'f';
    NotComment(f);
    DiffersAt(f, "let ", 0);
    DiffersAt(f, "printos(", 0);
    DiffersAt(f, "inscan()", 0);
    DiffersAt(f, "defn ", 0);
    DiffersAt(f, "if ", 0);
    StartsWithConcat("foros ", rest);
  }

  /**
    The comment marker wins over every other rule, even after indentation:
    the line is ignored and nothing changes.
  */
  lemma {:induction false} ExecComment(st: State, pre: string, text: string, conv: FloatConv)
    requires AllSpace(pre)
    ensures Exec(st, pre + "~!" + text, conv) == Step(st, None)
  {
    ClassifyComment(pre, text);
  }

  lemma {:induction false} ClassifyComment(pre: string, text: string)
    requires AllSpace(pre)
    ensures Classify(pre + "~!" + text) == Comment
  {
    CommentStripped(pre, text);
  }

  lemma {:induction false} CommentStripped(pre: string, text: string)
    requires AllSpace(pre)
    ensures StartsWith(Strip(pre + "~!" + text), "~!")
  {
    var c := "~!" + text;
    assert pre + "~!" + text == pre + c;
    StripDropsLeadingSpace(pre, c);
    MarkerKept(text);
  }

  lemma {:induction false} MarkerKept(text: string)
    ensures StartsWith(Strip("~!" + text), "~!")
  {
    StripKeepsPrefix("~!", text);
  }

  /**
    `let left=right`, where `left` has no `=`: the line is split at its
    first `=`, so `right` may hold more of them. The store gets the key
    `left.strip()` bound to `right.strip()` evaluated against the old store,
    overwriting any earlier binding; nothing is printed or read.
  */
  lemma {:induction false} ExecLet(st: State, left: string, right: string, conv: FloatConv)
    requires '=' !in left
    ensures Exec(st, "let " + left + "=" + right, conv)
         == Step(st.(vars := st.vars[Strip(left) := Evaluate(Strip(right), st.vars, conv)]), None)
  {
    var rest := left + "=" + right;
    var line := "let " + rest;
    assert "let " + left + "=" + right == line;
    ClassifyLet(rest);
    assert Classify(line) == Let(rest);
    ExecLetRest(st, rest, conv);
    LetStepBinds(st, left, right, conv);
  }

  lemma {:induction false} ExecLetRest(st: State, rest: string, conv: FloatConv)
    ensures Exec(st, "let " + rest, conv) == LetStep(st, rest, conv)
  {
    ClassifyLet(rest);
  }

  lemma {:induction false} LetStepBinds(st: State, left: string, right: string, conv: FloatConv)
    requires '=' !in left
    ensures LetStep(st, left + "=" + right, conv)
         == Step(st.(vars := st.vars[Strip(left) := Evaluate(Strip(right), st.vars, conv)]), None)
  {
    SplitFirstAt(left, '=', right);
  }

  /**
    A `let` line touches one key only: afterwards the key is bound, the
    keys are the old ones plus it, and every other key keeps its value.
  */
  lemma {:induction false} ExecLetTouchesOneKey(st: State, left: string, right: string, conv: FloatConv)
    requires '=' !in left
    ensures var s := Exec(st, "let " + left + "=" + right, conv).st;
      && s.vars.Keys == st.vars.Keys + {Strip(left)}
      && s.vars[Strip(left)] == Evaluate(Strip(right), st.vars, conv)
      && forall k :: k in st.vars && k != Strip(left) ==> s.vars[k] == st.vars[k]
  {
    ExecLet(st, left, right, conv);
  }

  /** A `let ` line with no `=` after it raises `IndexError` and changes nothing. */
  lemma {:induction false} ExecLetWithoutEquals(st: State, rest: string, conv: FloatConv)
    requires '=' !in rest
    ensures Exec(st, "let " + rest, conv) == Step(st, Some(IndexError))
  {
    ClassifyLet(rest);
  }

  /**
    `printos(` followed by `inner` and one last character (never checked to
    be `)`): exactly one line is printed, the rendered operands of `inner`
    joined by spaces, and the store and the input are untouched.
  */
  lemma {:induction false} ExecPrintos(st: State, inner: string, close: char, conv: FloatConv)
    ensures Exec(st, "printos(" + inner + [close], conv)
         == Step(st.(stdout := st.stdout + PrintosText(inner, st.vars, conv) + "\n"), None)
  {
    ClassifyPrintos(inner, close);
  }

  /** `printos(` with nothing after it prints its empty operand, as `line[8:-1]` is then empty. */
  lemma {:induction false} ExecPrintosBare(st: State, conv: FloatConv)
    ensures Exec(st, "printos(", conv) == Step(Print(st, PrintosText("", st.vars, conv)), None)
  {
    ClassifyPrintosBare();
  }

  /**
    Two operands around one separator: `+` splits even when the operands
    hold commas; `,` splits only when there is no `+` at all.
  */
  lemma {:induction false} OperandsOfTwo(a: string, b: string, sep: char)
    requires sep == '+' || sep == ','
    requires '+' !in a && '+' !in b && (sep == ',' ==> ',' !in a && ',' !in b)
    ensures Operands(a + [sep] + b) == [a, b]
  {
    var inner := a + [sep] + b;
    assert (sep == '+') == ('+' in inner) by {
      assert inner[|a|] == sep;
      if sep != '+' {
        forall k | 0 <= k < |inner| ensures inner[k] != '+' {
          if k < |a| { assert inner[k] == a[k]; }
          else if k > |a| { assert inner[k] == b[k - |a| - 1]; }
        }
      }
    }
    SplitAllAt(a, sep, b);
    SplitAllWithout(b, sep);
  }

  /**
    The printed line of `printos(a,b)` (or `printos(a+b)`) is the two
    rendered operands with one space between them.
  */
  lemma {:induction false} PrintosTwoOperands(a: string, b: string, sep: char, vars: Store, conv: FloatConv)
    requires sep == '+' || sep == ','
    requires '+' !in a && '+' !in b && (sep == ',' ==> ',' !in a && ',' !in b)
    ensures PrintosText(a + [sep] + b, vars, conv)
         == Render(Evaluate(a, vars, conv), conv) + " " + Render(Evaluate(b, vars, conv), conv)
  {
    OperandsOfTwo(a, b, sep);
    RenderedTwo(a, b, vars, conv);
    StripIdempotentEvaluate(a, vars, conv);
    StripIdempotentEvaluate(b, vars, conv);
    JoinTwo(RenderOperand(a, vars, conv), RenderOperand(b, vars, conv), " ");
  }

  lemma {:induction false} RenderedTwo(a: string, b: string, vars: Store, conv: FloatConv)
    ensures Rendered([a, b], vars, conv) == [RenderOperand(a, vars, conv), RenderOperand(b, vars, conv)]
  {
    MapTwo(p => RenderOperand(p, vars, conv), a, b);
  }

  lemma {:induction false} MapTwo(f: string -> string, a: string, b: string)
    ensures MapStrings(f, [a, b]) == [f(a), f(b)]
  {
    assert [a, b][1..] == [b];
    assert [b][1..] == [];
  }

  lemma {:induction false} JoinTwo(x: string, y: string, sep: string)
    ensures JoinWith([x, y], sep) == x + sep + y
  {
    assert [x, y][1..] == [y];
  }

  /** `evaluate(p.strip())` is `evaluate(p)`, as `evaluate` strips first. */
  lemma {:induction false} StripIdempotentEvaluate(p: string, vars: Store, conv: FloatConv)
    ensures Evaluate(Strip(p), vars, conv) == Evaluate(p, vars, conv)
  {
    StripIdempotent(p);
  }

  /**
    `inscan()`: the prompt is written; one line of input is consumed and
    its value discarded, or, with no input left, `EOFError` is raised.
    The store never changes.
  */
  lemma {:induction false} ExecInscan(st: State, rest: string, conv: FloatConv)
    ensures var s := Exec(st, "inscan()" + rest, conv);
      && s.st.vars == st.vars
      && s.st.stdout == st.stdout + Prompt
      && (st.stdin == [] ==> s == Step(s.st, Some(EOFError)) && s.st.stdin == [])
      && (st.stdin != [] ==> s.fault == None && s.st.stdin == st.stdin[1..])
  {
    ClassifyInscan(rest);
  }

  /**
    `defn `, `if ` and `foros ` lines print their fixed "coming in v0.3"
    message and leave the store and the input alone.
  */
  lemma {:induction false} ExecStubs(st: State, rest: string, conv: FloatConv)
    ensures Exec(st, "defn " + rest, conv) == Step(Print(st, DefnMessage), None)
    ensures Exec(st, "if " + rest, conv) == Step(Print(st, IfMessage), None)
    ensures Exec(st, "foros " + rest, conv) == Step(Print(st, ForosMessage), None)
  {
    ClassifyDefn(rest);
    ClassifyIf(rest);
    ClassifyForos(rest);
  }

  /**
    Every prefix but the comment marker is tested on the line as it is, so
    an indented statement that is not a comment is unknown syntax, reported
    with the original line.
  */
  lemma {:induction false} ExecIndented(st: State, line: string, conv: FloatConv)
    requires |line| > 0 && IsSpace(line[0]) && !StartsWith(Strip(line), "~!")
    ensures Exec(st, line, conv) == Step(Print(st, UnknownPrefix + line), None)
  {
    assert !StartsWith(line, "let ") && !StartsWith(line, "printos(") && !StartsWith(line, "inscan()");
    assert !StartsWith(line, "defn ") && !StartsWith(line, "if ") && !StartsWith(line, "foros ");
  }

  /**
    A line raises only in the two ways `parse_line` can: `IndexError`
    exactly for a `let ` line without `=`, `EOFError` exactly for
    `inscan()` when the input is exhausted.
  */
  lemma {:induction false} ExecFaults(st: State, line: string, conv: FloatConv)
    ensures Exec(st, line, conv).fault == Some(IndexError)
        <==> Classify(line).Let? && '=' !in Classify(line).rest
    ensures Exec(st, line, conv).fault == Some(EOFError)
        <==> Classify(line) == Inscan && st.stdin == []
  {
  }

  /** The key a `let ` line binds, if the line is one with an `=`. */
  function BoundKey(line: string): Option<string> {
    match Classify(line)
    case Let(rest) => LetKey(rest)
    case _ => None
  }

  /**
    The store `after` differs from `before` at most at `key`: it has no
    other new key, and every other key keeps its value.
  */
  predicate ChangedOnlyAt(before: Store, after: Store, key: Option<string>) {
    && (forall k :: k in after ==> k in before || Some(k) == key)
    && (forall k :: k in before && Some(k) != key ==> k in after && after[k] == before[k])
  }

  lemma {:induction false} UpdateChangesOnlyAt(before: Store, key: string, v: Value)
    ensures ChangedOnlyAt(before, before[key := v], Some(key))
  {
  }

  lemma {:induction false} SameChangesNothing(before: Store, key: Option<string>)
    ensures ChangedOnlyAt(before, before, key)
  {
  }

  /** The key `let ` binds for the text after it: the stripped part before the first `=`. */
  function LetKey(rest: string): Option<string> {
    match SplitFirst(rest, '=')
    case Some(parts) => Some(Strip(parts.0))
    case None => None
  }

  /** The `let ` branch changes the store at its key alone, and nothing else. */
  lemma {:induction false} LetStepFrame(st: State, rest: string, conv: FloatConv)
    ensures var s := LetStep(st, rest, conv).st;
      && s.stdout == st.stdout && s.stdin == st.stdin
      && ChangedOnlyAt(st.vars, s.vars, LetKey(rest))
  {
    match SplitFirst(rest, '=') {
      case None =>
        SameChangesNothing(st.vars, LetKey(rest));
      case Some(parts) =>
        UpdateChangesOnlyAt(st.vars, Strip(parts.0), Evaluate(Strip(parts.1), st.vars, conv));
    }
  }

  /**
    What every line does to the state: standard output only grows, at most
    one input line is consumed, and the store gains no key but the one a
    `let ` line binds, while every other key keeps its value.
  */
  lemma {:induction false} ExecFrame(st: State, line: string, conv: FloatConv)
    ensures var s := Exec(st, line, conv).st;
      && StartsWith(s.stdout, st.stdout)
      && (s.stdin == st.stdin || (st.stdin != [] && s.stdin == st.stdin[1..]))
      && ChangedOnlyAt(st.vars, s.vars, BoundKey(line))
  {
    var s := Exec(st, line, conv).st;
    if Classify(line).Let? {
      ExecFrameLet(st, line, conv);
    } else {
      ExecFrameOther(st, line, conv);
      SameChangesNothing(st.vars, BoundKey(line));
    }
  }

  lemma {:induction false} ExecFrameLet(st: State, line: string, conv: FloatConv)
    requires Classify(line).Let?
    ensures var s := Exec(st, line, conv).st;
      && s.stdout == st.stdout && s.stdin == st.stdin
      && ChangedOnlyAt(st.vars, s.vars, BoundKey(line))
  {
    ExecLetLine(st, line, conv);
    LetLine(line);
    LetStepFrame(st, line[4..], conv);
  }

  lemma {:induction false} ExecFrameOther(st: State, line: string, conv: FloatConv)
    requires !Classify(line).Let?
    ensures var s := Exec(st, line, conv).st;
      && StartsWith(s.stdout, st.stdout) && s.vars == st.vars
      && (s.stdin == st.stdin || (st.stdin != [] && s.stdin == st.stdin[1..]))
  {
    var s := Exec(st, line, conv).st;
    match Classify(line)
    case Comment() =>
      assert s == st;
    case Inscan() =>
      assert s.stdout[..|st.stdout|] == st.stdout;
    case Printos(inner) =>
      PrintExtends(st, PrintosText(inner, st.vars, conv));
    case Defn() =>
      PrintExtends(st, DefnMessage);
    case If() =>
      PrintExtends(st, IfMessage);
    case Foros() =>
      PrintExtends(st, ForosMessage);
    case Unknown() =>
      PrintExtends(st, UnknownPrefix + line);
  }

  /** Printing only appends to standard output. */
  lemma {:induction false} PrintExtends(st: State, text: string)
    ensures var s := Print(st, text);
      StartsWith(s.stdout, st.stdout) && s.vars == st.vars && s.stdin == st.stdin
  {
    var s := Print(st, text);
    assert s.stdout[..|st.stdout|] == st.stdout;
  }
}
