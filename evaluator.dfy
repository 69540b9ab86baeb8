/**
  The evaluator: the nested function `evaluate` of `interpret_lumira`. It
  classifies stripped text by a fixed first-match-wins order of rules and
  only reads the variable store.
*/
module Evaluator {
  import opened Wrappers
  import opened StrOps
  import opened Values

  type Store = map<string, Value>

  /** The text starts and ends with a double quote (one `"` alone does both). */
  predicate DoubleQuoted(t: string) {
    StartsWith(t, "\"") && EndsWith(t, "\"")
  }

  /** The text starts and ends with a single quote (one `'` alone does both). */
  predicate SingleQuoted(t: string) {
    StartsWith(t, "'") && EndsWith(t, "'")
  }

  /**
    `evaluate(expr)` against the store `vars`. The rules, in order: double-quoted
    text, text containing `.` handed to `float()`, a single-quoted integer,
    a bound variable, and the stripped text itself.
  */
  function Evaluate(expr: string, vars: Store, conv: FloatConv): Value {
    EvaluateTrimmed(Strip(expr), vars, conv)
  }

  /** The rules of `evaluate`, applied to the already stripped text `t`. */
  function EvaluateTrimmed(t: string, vars: Store, conv: FloatConv): Value {
    if DoubleQuoted(t) then VStr(Interior(t))
    else if '.' in t then
      match conv.parse(t)
      case Some(f) => VFloat(f)
      case None => VStr(t)
    else if SingleQuoted(t) then
      match ParseInt(Interior(t))
      case Some(n) => VInt(n)
      case None => VStr(t)
    else if t in vars then vars[t]
    else VStr(t)
  }

  /**
    Quote stripping: double-quoted text, with any white space around it,
    evaluates to exactly the text between the quotes, whatever that text
    holds (dots, quotes of either kind) and whatever the store binds.
  */
  lemma {:induction false} EvaluateDoubleQuoted(pre: string, s: string, post: string, vars: Store, conv: FloatConv)
    requires AllSpace(pre) && AllSpace(post)
    ensures Evaluate(pre + "\"" + s + "\"" + post, vars, conv) == VStr(s)
  {
    var t := "\"" + s + "\"";
    assert Trimmed(t) by { assert t[0] == '"' && t[|t| - 1] == '"'; }
    assert pre + "\"" + s + "\"" + post == pre + t + post;
    StripPadded(pre, t, post);
    assert t[..1] == "\"" && t[|t| - 1..] == "\"";
    assert Interior(t) == s;
  }

  /** White space around an expression makes no difference to its value. */
  lemma {:induction false} EvaluatePadded(pre: string, t: string, post: string, vars: Store, conv: FloatConv)
    requires AllSpace(pre) && AllSpace(post) && Trimmed(t)
    ensures Evaluate(pre + t + post, vars, conv) == Evaluate(t, vars, conv)
  {
    StripPadded(pre, t, post);
    StripTrimmed(t);
    EvaluateByStrip(pre + t + post, t, vars, conv);
  }

  /** The value of an expression depends on its stripped text alone. */
  lemma {:induction false} EvaluateByStrip(x: string, y: string, vars: Store, conv: FloatConv)
    requires Strip(x) == Strip(y)
    ensures Evaluate(x, vars, conv) == Evaluate(y, vars, conv)
  {
  }

  /** A lone double quote is both the opening and the closing quote: it evaluates to the empty text. */
  lemma {:induction false} EvaluateLoneQuote(vars: Store, conv: FloatConv)
    ensures Evaluate("\"", vars, conv) == VStr("")
  {
    StripTrimmed("\"");
  }

  /**
    A single-quoted text with no `.` is an
    integer exactly when `int()` accepts the text between the quotes;
    otherwise it evaluates to itself, quotes included.
  */
  lemma {:induction false} EvaluateSingleQuoted(x: string, vars: Store, conv: FloatConv)
    requires '.' !in x
    ensures var t := "'" + x + "'";
      Evaluate(t, vars, conv) == match ParseInt(x) case Some(n) => VInt(n) case None => VStr(t)
  {
    var t := "'" + x + "'";
    assert t[0] == '\'' && t[|t| - 1] == '\'';
    StripTrimmed(t);
    assert !DoubleQuoted(t) by { assert t[..1] == "'"; }
    assert '.' !in t by {
      forall k | 0 <= k < |t| ensures t[k] != '.' {
        if 0 < k < |t| - 1 { assert t[k] == x[k - 1]; }
      }
    }
    assert SingleQuoted(t) by { assert t[..1] == "'" && t[|t| - 1..] == "'"; }
    assert Interior(t) == x;
  }

  /**
    Quoted text that opens with an ASCII information separator (U+001C to
    U+001F) is not an integer: `int()` does not skip that character, so the
    quoted text itself is the value.
  */
  lemma {:induction false} EvaluateQuotedSeparator(c: char, x: string, vars: Store, conv: FloatConv)
    requires 28 <= c as int <= 31 && '.' !in x
    ensures Evaluate("'" + [c] + x + "'", vars, conv) == VStr("'" + [c] + x + "'")
  {
    assert "'" + [c] + x + "'" == "'" + ([c] + x) + "'";
    ParseIntRejectsSeparator(c, x);
    EvaluateSingleQuoted([c] + x, vars, conv);
  }

  /** Single-quoted integers: `'` + str(n) + `'` evaluates to the integer `n`. */
  lemma {:induction false} EvaluateQuotedInt(n: int, vars: Store, conv: FloatConv)
    ensures Evaluate("'" + IntToString(n) + "'", vars, conv) == VInt(n)
  {
    IntToStringPlain(n);
    ParseIntToString(n);
    EvaluateSingleQuoted(IntToString(n), vars, conv);
  }

  /**
    The dot rule comes before the single-quote rule and the lookup: stripped
    text with a `.` that is not double-quoted evaluates to `float()` of it or
    to itself, and the store makes no difference.
  */
  lemma {:induction false} EvaluateDotted(expr: string, vars: Store, other: Store, conv: FloatConv)
    requires '.' in Strip(expr) && !DoubleQuoted(Strip(expr))
    ensures Evaluate(expr, vars, conv) == Evaluate(expr, other, conv)
    ensures Evaluate(expr, vars, conv) == match conv.parse(Strip(expr)) case Some(f) => VFloat(f) case None => VStr(Strip(expr))
  {
  }

  /**
    Dotted text holding a character no float literal uses stays raw text,
    whatever variable of that name is bound.
  */
  lemma {:induction false} EvaluateDottedNonNumeric(expr: string, k: nat, vars: Store, conv: FloatConv)
    requires RejectsNonFloatText(conv)
    requires '.' in Strip(expr) && !DoubleQuoted(Strip(expr))
    requires k < |Strip(expr)| && !FloatTextChar(Strip(expr)[k])
    ensures Evaluate(expr, vars, conv) == VStr(Strip(expr))
  {
    assert conv.parse(Strip(expr)).None?;
  }

  /**
    Single-quoted text with a `.` in it, such as `'3.5'`: it looks like a
    quoted number, but the dot rule comes first and `float()` rejects the
    quotes, so it stays raw text, quotes included.
  */
  lemma {:induction false} EvaluateQuotedDecimal(x: string, vars: Store, conv: FloatConv)
    requires RejectsNonFloatText(conv)
    requires '.' in x
    ensures Evaluate("'" + x + "'", vars, conv) == VStr("'" + x + "'")
  {
    var t := "'" + x + "'";
    assert t[0] == '\'' && t[|t| - 1] == '\'';
    StripTrimmed(t);
    assert !DoubleQuoted(t) by { assert t[..1] == "'"; }
    var i :| 0 <= i < |x| && x[i] == '.';
    assert t[i + 1] == '.';
    EvaluateDottedNonNumeric(t, 0, vars, conv);
  }

  /** A name: text that no rule before the lookup claims. */
  predicate PlainName(t: string) {
    Trimmed(t) && '.' !in t && !DoubleQuoted(t) && !SingleQuoted(t)
  }

  /**
    Lookup and fallback: a name, with any white space around it, evaluates
    to its binding when the store has one and to the name itself otherwise.
  */
  lemma {:induction false} EvaluateName(pre: string, name: string, post: string, vars: Store, conv: FloatConv)
    requires AllSpace(pre) && AllSpace(post) && PlainName(name)
    ensures Evaluate(pre + name + post, vars, conv) == if name in vars then vars[name] else VStr(name)
  {
    StripPadded(pre, name, post);
  }

  /**
    Every value is one of: the interior of double-quoted text, a float the
    text parsed to, an integer the text between single quotes parsed to,
    a stored value, or the stripped text itself.
  */
  lemma {:induction false} EvaluateOrigins(expr: string, vars: Store, conv: FloatConv)
    ensures var t, r := Strip(expr), Evaluate(expr, vars, conv);
      || r == VStr(Interior(t))
      || (r.VFloat? && conv.parse(t) == Some(r.f))
      || (r.VInt? && ParseInt(Interior(t)) == Some(r.n))
      || (t in vars && r == vars[t])
      || r == VStr(t)
  {
    var t := Strip(expr);
    if !DoubleQuoted(t) && '.' !in t && SingleQuoted(t) {
      assert Evaluate(expr, vars, conv) == match ParseInt(Interior(t)) case Some(n) => VInt(n) case None => VStr(t);
    }
  }
}
