/**
  The example program that ships with the interpreter and the run of it
  at module level: a comment, two bindings and two greetings.
*/
module Sample {
  import opened Wrappers
  import opened StrOps
  import opened Values
  import opened Evaluator
  import opened Dispatcher
  import opened Driver

  const CommentLine: string := "~! Lumira v0.2 demo"
  const NameLine: string := "let name = \"Lumira\""
  const VersionLine: string := "let version = '2'"
  const WelcomeLine: string := "printos(\"Welcome to\", name)"
  const BannerLine: string := "printos(\"Version: \" + version)"

  /** The five lines of the example, in order. */
  const SampleLines: seq<string> := [CommentLine, NameLine, VersionLine, WelcomeLine, BannerLine]

  /** `sample_code`, a triple-quoted literal: the five lines between a leading and a trailing newline. */
  const SampleCode: string := "\n" + JoinWith(SampleLines, "\n") + "\n"

  /** The comment line changes nothing. */
  lemma {:induction false} SampleComment(st: State, conv: FloatConv)
    ensures Exec(st, CommentLine, conv) == Step(st, None)
  {
    assert CommentLine == [] + "~!" + " Lumira v0.2 demo";
    ExecComment(st, [], " Lumira v0.2 demo", conv);
  }

  /** `let name = "Lumira"` binds `name` to the text `Lumira`. */
  lemma {:induction false} SampleName(st: State, conv: FloatConv)
    ensures Exec(st, NameLine, conv) == Step(st.(vars := st.vars["name" := VStr("Lumira")]), None)
  {
    NameLineParts();
    ExecLet(st, "name ", " \"Lumira\"", conv);
    EvaluateLumira(st.vars, conv);
  }

  lemma {:induction false} NameLineParts()
    ensures NameLine == "let " + "name " + "=" + " \"Lumira\""
    ensures '=' !in "name " && Strip("name ") == "name"
  {
    PlainNames();
    StripName("name", "name ");
  }

  /** The two variable names of the sample are plain names. */
  lemma {:induction false} PlainNames()
    ensures "name" != [] && PlainName("name")
    ensures "version" != [] && PlainName("version")
  {
  }

  /** A name with one blank after it, as on the left of ` = `. */
  lemma {:induction false} StripName(name: string, padded: string)
    requires name != [] && Trimmed(name) && padded == name + " "
    ensures Strip(padded) == name
  {
    StripPadded([], name, " ");
    assert [] + name + " " == padded;
  }

  lemma {:induction false} EvaluateLumira(vars: Store, conv: FloatConv)
    ensures Evaluate(Strip(" \"Lumira\""), vars, conv) == VStr("Lumira")
  {
    LumiraParts();
    EvaluateDoubleQuoted(" ", "Lumira", [], vars, conv);
    StripIdempotentEvaluate(" \"Lumira\"", vars, conv);
  }

  lemma {:induction false} LumiraParts()
    ensures " " + "\"" + "Lumira" + "\"" + [] == " \"Lumira\""
  {
  }

  /** `let version = '2'` binds `version` to the integer 2. */
  lemma {:induction false} SampleVersion(st: State, conv: FloatConv)
    ensures Exec(st, VersionLine, conv) == Step(st.(vars := st.vars["version" := VInt(2)]), None)
  {
    VersionLineParts();
    ExecLet(st, "version ", " '2'", conv);
    EvaluateTwo(st.vars, conv);
  }

  lemma {:induction false} VersionLineParts()
    ensures VersionLine == "let " + "version " + "=" + " '2'"
    ensures '=' !in "version " && Strip("version ") == "version"
  {
    PlainNames();
    StripName("version", "version ");
  }

  lemma {:induction false} EvaluateTwo(vars: Store, conv: FloatConv)
    ensures Evaluate(Strip(" '2'"), vars, conv) == VInt(2)
  {
    QuotedTwo();
    EvaluateQuotedInt(2, vars, conv);
    EvaluatePadded(" ", "'2'", [], vars, conv);
    StripIdempotentEvaluate(" '2'", vars, conv);
  }

  lemma {:induction false} QuotedTwo()
    ensures "'" + IntToString(2) + "'" == "'2'"
    ensures Trimmed("'2'") && " " + "'2'" + [] == " '2'"
  {
    assert IntToString(2) == "2";
  }

  /** `printos("Welcome to", name)` prints the text, one space and the value of `name`. */
  lemma {:induction false} SampleWelcome(st: State, conv: FloatConv)
    requires "name" in st.vars && st.vars["name"] == VStr("Lumira")
    ensures Exec(st, WelcomeLine, conv) == Step(Dispatcher.Print(st, "Welcome to Lumira"), None)
  {
    var a, b := "\"Welcome to\"", " name";
    WelcomeLineParts();
    ExecPrintos(st, a + [','] + b, ')', conv);
    WelcomeOperands();
    PrintosTwoOperands(a, b, ',', st.vars, conv);
    EvaluateWelcome(st.vars, conv);
    EvaluateNameOperand(st.vars, conv);
    WelcomeText();
  }

  lemma {:induction false} WelcomeLineParts()
    ensures WelcomeLine == "printos(" + ("\"Welcome to\"" + [','] + " name") + [')']
  {
  }

  lemma {:induction false} WelcomeOperands()
    ensures '+' !in "\"Welcome to\"" && '+' !in " name" && ',' !in "\"Welcome to\"" && ',' !in " name"
  {
  }

  lemma {:induction false} EvaluateWelcome(vars: Store, conv: FloatConv)
    ensures Evaluate("\"Welcome to\"", vars, conv) == VStr("Welcome to")
  {
    assert [] + "\"" + "Welcome to" + "\"" + [] == "\"Welcome to\"";
    EvaluateDoubleQuoted([], "Welcome to", [], vars, conv);
  }

  /** A name with one blank before it, as after `,` or `+`, evaluates to its binding or to itself. */
  lemma {:induction false} EvaluateSpacedName(spaced: string, name: string, vars: Store, conv: FloatConv)
    requires name == "name" || name == "version"
    requires spaced == " " + name
    ensures Evaluate(spaced, vars, conv) == if name in vars then vars[name] else VStr(name)
  {
    PlainNames();
    EvaluateName(" ", name, [], vars, conv);
    assert " " + name + [] == spaced;
  }

  lemma {:induction false} EvaluateNameOperand(vars: Store, conv: FloatConv)
    ensures Evaluate(" name", vars, conv) == if "name" in vars then vars["name"] else VStr("name")
  {
    EvaluateSpacedName(" name", "name", vars, conv);
  }

  lemma {:induction false} EvaluateVersionOperand(vars: Store, conv: FloatConv)
    ensures Evaluate(" version", vars, conv) == if "version" in vars then vars["version"] else VStr("version")
  {
    EvaluateSpacedName(" version", "version", vars, conv);
  }

  lemma {:induction false} WelcomeText()
    ensures "Welcome to" + " " + "Lumira" == "Welcome to Lumira"
  {
  }

  /** `printos("Version: " + version)` prints the text, one more space and the integer in decimal. */
  lemma {:induction false} SampleBanner(st: State, conv: FloatConv)
    requires "version" in st.vars && st.vars["version"] == VInt(2)
    ensures Exec(st, BannerLine, conv) == Step(Dispatcher.Print(st, "Version:  2"), None)
  {
    var a, b := "\"Version: \" ", " version";
    BannerLineParts();
    ExecPrintos(st, a + ['+'] + b, ')', conv);
    BannerOperands();
    PrintosTwoOperands(a, b, '+', st.vars, conv);
    EvaluateVersionLabel(st.vars, conv);
    EvaluateVersionOperand(st.vars, conv);
    BannerText(conv);
  }

  lemma {:induction false} BannerLineParts()
    ensures BannerLine == "printos(" + ("\"Version: \" " + ['+'] + " version") + [')']
  {
  }

  lemma {:induction false} BannerOperands()
    ensures '+' !in "\"Version: \" " && '+' !in " version"
  {
  }

  lemma {:induction false} EvaluateVersionLabel(vars: Store, conv: FloatConv)
    ensures Evaluate("\"Version: \" ", vars, conv) == VStr("Version: ")
  {
    assert [] + "\"" + "Version: " + "\"" + " " == "\"Version: \" ";
    EvaluateDoubleQuoted([], "Version: ", " ", vars, conv);
  }

  lemma {:induction false} BannerText(conv: FloatConv)
    ensures "Version: " + " " + Render(VInt(2), conv) == "Version:  2"
  {
    assert IntToString(2) == "2";
  }

  lemma {:induction false} JoinSample()
    ensures JoinWith(SampleLines, "\n")
         == CommentLine + "\n" + NameLine + "\n" + VersionLine + "\n" + WelcomeLine + "\n" + BannerLine
  {
    var ls := SampleLines;
    assert ls[1..] == [NameLine, VersionLine, WelcomeLine, BannerLine];
    assert ls[2..] == [VersionLine, WelcomeLine, BannerLine];
    assert ls[3..] == [WelcomeLine, BannerLine];
    assert ls[4..] == [BannerLine];
    assert JoinWith(ls[4..], "\n") == BannerLine;
    assert JoinWith(ls[3..], "\n") == WelcomeLine + "\n" + BannerLine;
    assert JoinWith(ls[2..], "\n") == VersionLine + "\n" + WelcomeLine + "\n" + BannerLine;
    assert JoinWith(ls[1..], "\n") == NameLine + "\n" + VersionLine + "\n" + WelcomeLine + "\n" + BannerLine;
  }

  lemma {:induction false} SampleBodyTrimmed()
    ensures Trimmed(JoinWith(SampleLines, "\n"))
  {
    JoinSample();
    var j := JoinWith(SampleLines, "\n");
    assert j[0] == CommentLine[0];
    assert j[|j| - 1] == BannerLine[|BannerLine| - 1];
  }

  lemma {:induction false} SampleLinesPlain()
    ensures forall k :: 0 <= k < |SampleLines| ==> '\n' !in SampleLines[k]
  {
  }

  /** `sample_code.strip().split("\n")` gives back the five lines. */
  lemma {:induction false} LinesOfSample()
    ensures Lines(SampleCode) == SampleLines
  {
    SampleBodyTrimmed();
    assert AllSpace("\n");
    StripPadded("\n", JoinWith(SampleLines, "\n"), "\n");
    SampleLinesPlain();
    SplitJoin(SampleLines, '\n');
  }

  /** The state after the sample: both names bound, the two greetings printed, no input read. */
  function SampleFinal(input: seq<string>): State {
    State(map["name" := VStr("Lumira"), "version" := VInt(2)], "Welcome to Lumira\nVersion:  2\n", input)
  }

  /**
    The run of the example program: the comment is skipped, `name` and
    `version` are bound, and the two `printos(` lines print
    `Welcome to Lumira` and `Version:  2` (two spaces: the text keeps its
    own trailing blank and the join adds one). Nothing is read and nothing
    is raised.
  */
  lemma {:induction false} SampleRun(input: seq<string>, conv: FloatConv)
    ensures Run(Initial(input), Lines(SampleCode), conv) == Step(SampleFinal(input), None)
  {
    LinesOfSample();
    var ls := SampleLines;
    var s0 := Initial(input);
    SampleComment(s0, conv);
    SampleTail(input, conv);
    RunThen(s0, ls, s0, Step(SampleFinal(input), None), conv);
  }

  lemma {:induction false} SampleTail(input: seq<string>, conv: FloatConv)
    ensures Run(Initial(input), SampleLines[1..], conv) == Step(SampleFinal(input), None)
  {
    var ls := SampleLines[1..];
    assert ls == [NameLine, VersionLine, WelcomeLine, BannerLine];
    var s0 := Initial(input);
    var s1 := s0.(vars := s0.vars["name" := VStr("Lumira")]);
    SampleName(s0, conv);
    assert ls[1..] == [VersionLine, WelcomeLine, BannerLine];
    SampleFromVersion(s1, conv);
    SampleStore(input);
    RunThen(s0, ls, s1, Step(SampleFinal(input), None), conv);
  }

  lemma {:induction false} SampleFromVersion(st: State, conv: FloatConv)
    requires "name" in st.vars && st.vars["name"] == VStr("Lumira")
    ensures Run(st, [VersionLine, WelcomeLine, BannerLine], conv)
         == var s := st.(vars := st.vars["version" := VInt(2)]);
            Step(s.(stdout := s.stdout + "Welcome to Lumira\nVersion:  2\n"), None)
  {
    var ls := [VersionLine, WelcomeLine, BannerLine];
    var s := st.(vars := st.vars["version" := VInt(2)]);
    SampleVersion(st, conv);
    VersionKeepsName(st.vars);
    SampleGreetings(s, conv);
    assert ls[1..] == [WelcomeLine, BannerLine];
    RunThen(st, ls, s, Step(s.(stdout := s.stdout + "Welcome to Lumira\nVersion:  2\n"), None), conv);
  }

  lemma {:induction false} VersionKeepsName(vars: Store)
    requires "name" in vars && vars["name"] == VStr("Lumira")
    ensures var v := vars["version" := VInt(2)];
      && "name" in v && v["name"] == VStr("Lumira")
      && "version" in v && v["version"] == VInt(2)
  {
    assert "name" != "version" by { assert "name"[0] != "version"[0]; }
  }

  lemma {:induction false} SampleGreetings(st: State, conv: FloatConv)
    requires "name" in st.vars && st.vars["name"] == VStr("Lumira")
    requires "version" in st.vars && st.vars["version"] == VInt(2)
    ensures Run(st, [WelcomeLine, BannerLine], conv)
         == Step(st.(stdout := st.stdout + "Welcome to Lumira\nVersion:  2\n"), None)
  {
    var ls := [WelcomeLine, BannerLine];
    var s := Dispatcher.Print(st, "Welcome to Lumira");
    SampleWelcome(st, conv);
    SampleBanner(s, conv);
    assert ls[1..] == [BannerLine];
    RunOne(s, BannerLine, conv);
    GreetingsText(st.stdout);
    RunThen(st, ls, s, Step(st.(stdout := st.stdout + "Welcome to Lumira\nVersion:  2\n"), None), conv);
  }

  lemma {:induction false} GreetingsText(out: string)
    ensures out + "Welcome to Lumira" + "\n" + "Version:  2" + "\n" == out + "Welcome to Lumira\nVersion:  2\n"
  {
  }

  lemma {:induction false} SampleStore(input: seq<string>)
    ensures var s0 := Initial(input);
      var s1 := s0.(vars := s0.vars["name" := VStr("Lumira")]);
      var s2 := s1.(vars := s1.vars["version" := VInt(2)]);
      s2.(stdout := s2.stdout + "Welcome to Lumira\nVersion:  2\n") == SampleFinal(input)
  {
  }
}
