/**
  The driver: `interpret_lumira(code)` itself. It keeps the variable store,
  splits the stripped script into lines and hands them to `parse_line` one
  after another; an exception from a line ends the run. Standard output
  and standard input are fields of the interpreter object.
*/
module Driver {
  import opened Wrappers
  import opened StrOps
  import opened Values
  import opened Evaluator
  import opened Dispatcher

  /** The state a run starts from: an empty store and nothing printed yet. */
  function Initial(input: seq<string>): State {
    State(map[], [], input)
  }

  /** The interpreter of one `interpret_lumira` call. */
  class Interpreter {
    /** The dictionary `variables`, which `let ` lines update in place. */
    var variables: Store
    /** Everything written to standard output so far. */
    var stdout: string
    /** The lines of standard input not read yet. */
    var stdin: seq<string>
    /** `float()` and `str()` on floats. */
    const conv: FloatConv

    /** The observable state of the interpreter. */
    function Snapshot(): State
      reads this
    {
      State(variables, stdout, stdin)
    }

    constructor (input: seq<string>, conv: FloatConv)
      ensures Snapshot() == Initial(input) && this.conv == conv
    {
      variables := map[];
      stdout := [];
      stdin := input;
      this.conv := conv;
    }

    /** `print(text)`. */
    method Print(text: string)
      modifies this
      ensures stdout == old(stdout) + text + "\n"
      ensures variables == old(variables) && stdin == old(stdin)
    {
      stdout := stdout + text + "\n";
    }

    /** `input(prompt)`: the prompt is written, then one line is read, or `EOFError` when none is left. */
    method Input(prompt: string) returns (answer: Option<string>)
      modifies this
      ensures stdout == old(stdout) + prompt && variables == old(variables)
      ensures old(stdin) == [] ==> answer == None && stdin == []
      ensures old(stdin) != [] ==> answer == Some(old(stdin)[0]) && stdin == old(stdin)[1..]
    {
      stdout := stdout + prompt;
      if stdin == [] {
        answer := None;
      } else {
        answer := Some(stdin[0]);
        stdin := stdin[1..];
      }
    }

    /** The `let ` branch: `line[4:].split("=", 1)`, then the binding. */
    method Let(line: string) returns (fault: Option<Fault>)
      requires StartsWith(line, "let ")
      modifies this
      ensures Step(Snapshot(), fault) == LetStep(old(Snapshot()), line[4..], conv)
    {
      var parts := SplitFirst(line[4..], '=');
      if parts.None? {
        return Some(IndexError);
      }
      var name := Strip(parts.value.0);
      var val := Strip(parts.value.1);
      variables := variables[name := Evaluate(val, variables, conv)];
      return None;
    }

    /** The `printos(` branch: the operands of `line[8:-1]`, evaluated, rendered and printed on one line. */
    method Printos(line: string)
      requires Classify(line).Printos?
      modifies this
      ensures Step(Snapshot(), None) == Exec(old(Snapshot()), line, conv)
    {
      ExecPrintosLine(Snapshot(), line, conv);
      var inner := if |line| > 8 then line[8..|line| - 1] else "";
      var pieces := Operands(inner);
      Print(JoinWith(Rendered(pieces, variables, conv), " "));
    }

    /** The `inscan()` branch: `input("> ")`. */
    method Inscan(line: string) returns (fault: Option<Fault>, read: Option<string>)
      requires Classify(line) == Stmt.Inscan
      modifies this
      ensures Step(Snapshot(), fault) == Exec(old(Snapshot()), line, conv)
      ensures read == if old(stdin) != [] then Some(old(stdin)[0]) else None
    {
      read := Input(Prompt);
      fault := if read.None? then Some(EOFError) else None;
    }

    /** The branches that print one line: the three notices and the unknown-syntax report. */
    method Notice(line: string, text: string)
      requires Classify(line) in {Defn, If, Foros, Unknown}
      requires text == match Classify(line)
        case Defn => DefnMessage case If => IfMessage case Foros => ForosMessage case _ => UnknownPrefix + line
      modifies this
      ensures Step(Snapshot(), None) == Exec(old(Snapshot()), line, conv)
    {
      Print(text);
    }

    /**
      `parse_line(line)`: the branches in the order the source tests them.
      It returns the exception that escapes the line, if any, and the line
      `inscan()` read, which the driver discards.
    */
    method ParseLine(line: string) returns (fault: Option<Fault>, read: Option<string>)
      modifies this
      ensures Step(Snapshot(), fault) == Exec(old(Snapshot()), line, conv)
      ensures read == if Classify(line) == Stmt.Inscan && old(stdin) != [] then Some(old(stdin)[0]) else None
    {
      fault, read := None, None;
      if StartsWith(Strip(line), "~!") {
        return;
      }
      if StartsWith(line, "let ") {
        ExecLetLine(Snapshot(), line, conv);
        fault := Let(line);
      } else if StartsWith(line, "printos(") {
        Printos(line);
      } else if StartsWith(line, "inscan()") {
        fault, read := Inscan(line);
      } else if StartsWith(line, "defn ") {
        Notice(line, DefnMessage);
      } else if StartsWith(line, "if ") {
        Notice(line, IfMessage);
      } else if StartsWith(line, "foros ") {
        Notice(line, ForosMessage);
      } else {
        Notice(line, UnknownPrefix + line);
      }
    }
  }

  /** `code.strip().split("\n")`. */
  function Lines(code: string): (r: seq<string>)
    ensures |r| >= 1 && JoinWith(r, "\n") == Strip(code)
    ensures forall k :: 0 <= k < |r| ==> '\n' !in r[k]
  {
    SplitAll(Strip(code), '\n')
  }

  /** The lines run one after another from `st`; the first exception ends the run. */
  function Run(st: State, lines: seq<string>, conv: FloatConv): Step
    decreases |lines|
  {
    if lines == [] then Step(st, None)
    else
      var s := Exec(st, lines[0], conv);
      if s.fault.Some? then s else Run(s.st, lines[1..], conv)
  }

  /**
    `interpret_lumira(code)` with standard input `input`: the state and the
    exception it ends with are those of running the script's lines from an
    empty store.
  */
  method InterpretLumira(code: string, input: seq<string>, conv: FloatConv) returns (final: State, fault: Option<Fault>)
    ensures Step(final, fault) == Run(Initial(input), Lines(code), conv)
  {
    var interp := new Interpreter(input, conv);
    var lines := SplitAll(Strip(code), '\n');
    var i := 0;
    while i < |lines|
      invariant 0 <= i <= |lines|
      invariant interp.conv == conv
      invariant Run(interp.Snapshot(), lines[i..], conv) == Run(Initial(input), lines, conv)
      decreases |lines| - i
    {
      assert lines[i..][1..] == lines[i + 1..];
      var f, _ := interp.ParseLine(lines[i]);
      if f.Some? {
        return interp.Snapshot(), f;
      }
      i := i + 1;
    }
    final, fault := interp.Snapshot(), None;
  }

  /** Running two scripts after one another: the second starts where the first ended, unless the first raised. */
  lemma {:induction false} RunConcat(st: State, xs: seq<string>, ys: seq<string>, conv: FloatConv)
    ensures Run(st, xs + ys, conv)
         == var r := Run(st, xs, conv); if r.fault.Some? then r else Run(r.st, ys, conv)
    decreases |xs|
  {
    if xs != [] {
      assert (xs + ys)[0] == xs[0];
      assert (xs + ys)[1..] == xs[1..] + ys;
      var s := Exec(st, xs[0], conv);
      if s.fault.None? {
        RunConcat(s.st, xs[1..], ys, conv);
      }
    } else {
      assert xs + ys == ys;
    }
  }

  /** The keys one line binds. */
  function LineKeys(line: string): set<string> {
    match BoundKey(line) case Some(k) => {k} case None => {}
  }

  /** The keys the `let ` lines of a script bind. */
  function BoundKeys(lines: seq<string>): set<string> {
    if lines == [] then {} else LineKeys(lines[0]) + BoundKeys(lines[1..])
  }

  /**
    `later` can follow `st` by binding only `keys`: standard output has
    grown, standard input has been consumed from the front, the store has
    no new key outside `keys`, and every key outside `keys` keeps its value.
  */
  predicate Extends(st: State, later: State, keys: set<string>) {
    && StartsWith(later.stdout, st.stdout)
    && |later.stdin| <= |st.stdin| && later.stdin == st.stdin[|st.stdin| - |later.stdin|..]
    && later.vars.Keys <= st.vars.Keys + keys
    && (forall k :: k in st.vars && k !in keys ==> k in later.vars && later.vars[k] == st.vars[k])
  }

  lemma {:induction false} ExtendsTrans(a: State, b: State, c: State, k1: set<string>, k2: set<string>)
    requires Extends(a, b, k1) && Extends(b, c, k2)
    ensures Extends(a, c, k1 + k2)
  {
    StartsWithTrans(c.stdout, b.stdout, a.stdout);
    assert c.stdin == a.stdin[|a.stdin| - |c.stdin|..] by {
      assert b.stdin[|b.stdin| - |c.stdin|..] == a.stdin[|a.stdin| - |b.stdin|..][|b.stdin| - |c.stdin|..];
    }
  }

  lemma {:induction false} StartsWithTrans(a: string, b: string, c: string)
    requires StartsWith(a, b) && StartsWith(b, c)
    ensures StartsWith(a, c)
  {
    assert a[..|c|] == a[..|b|][..|c|];
  }

  lemma {:induction false} ExecExtends(st: State, line: string, conv: FloatConv)
    ensures Extends(st, Exec(st, line, conv).st, LineKeys(line))
  {
    ExecFrame(st, line, conv);
    var s := Exec(st, line, conv).st;
    if s.stdin != st.stdin {
      assert s.stdin == st.stdin[|st.stdin| - |s.stdin|..];
    }
  }

  /**
    What a run does to the state, whatever the script: standard output only
    grows, standard input is only consumed from the front, and the store
    holds no key but those it started with and those the `let ` lines bind;
    a key no line binds keeps its value.
  */
  lemma {:induction false} RunFrame(st: State, lines: seq<string>, conv: FloatConv)
    ensures Extends(st, Run(st, lines, conv).st, BoundKeys(lines))
    decreases |lines|
  {
    if lines == [] {
      assert st.stdout[..|st.stdout|] == st.stdout;
      assert st.stdin[|st.stdin| - |st.stdin|..] == st.stdin;
    } else {
      var e := Exec(st, lines[0], conv);
      ExecExtends(st, lines[0], conv);
      if e.fault.None? {
        RunFrame(e.st, lines[1..], conv);
        ExtendsTrans(st, e.st, Run(e.st, lines[1..], conv).st, LineKeys(lines[0]), BoundKeys(lines[1..]));
      } else {
        ExtendsWider(st, e.st, LineKeys(lines[0]), BoundKeys(lines));
      }
    }
  }

  /**
    The store never holds a key that no `let ` line of the script binds:
    a run starts from an empty store and only `let ` adds keys.
  */
  lemma {:induction false} RunKeysBound(input: seq<string>, lines: seq<string>, conv: FloatConv)
    ensures Run(Initial(input), lines, conv).st.vars.Keys <= BoundKeys(lines)
  {
    RunFrame(Initial(input), lines, conv);
  }

  lemma {:induction false} ExtendsWider(st: State, later: State, keys: set<string>, more: set<string>)
    requires Extends(st, later, keys) && keys <= more
    ensures Extends(st, later, more)
  {
  }

  /**
    A first line that ends in `mid` without a fault hands the rest of the
    script `mid`, so the script ends where the rest ends from `mid`.
  */
  lemma {:induction false} RunThen(st: State, lines: seq<string>, mid: State, final: Step, conv: FloatConv)
    requires lines != [] && Exec(st, lines[0], conv) == Step(mid, None)
    requires Run(mid, lines[1..], conv) == final
    ensures Run(st, lines, conv) == final
  {
  }

  /** A script of one line runs that line. */
  lemma {:induction false} RunOne(st: State, line: string, conv: FloatConv)
    ensures Run(st, [line], conv) == Exec(st, line, conv)
  {
    assert [line][1..] == [];
  }

  /**
    A script of white space alone is not empty after splitting: its one
    line is the empty text, which no prefix matches, so the run prints
    `Unknown syntax: ` and binds nothing.
  */
  lemma {:induction false} RunBlankScript(code: string, input: seq<string>, conv: FloatConv)
    requires AllSpace(code)
    ensures Run(Initial(input), Lines(code), conv) == Step(State(map[], UnknownPrefix + "\n", input), None)
  {
    StripAllSpace(code);
    var lines := Lines(code);
    SplitAllWithout([], '\n');
    assert lines == [[]];
    RunOne(Initial(input), lines[0], conv);
    ExecEmptyLine(Initial(input), lines[0], conv);
    PrintInitial(input, UnknownPrefix);
  }

  lemma {:induction false} PrintInitial(input: seq<string>, text: string)
    ensures Dispatcher.Print(Initial(input), text) == State(map[], text + "\n", input)
  {
    assert [] + text + "\n" == text + "\n";
  }
}
