/**
  The runtime values of the interpreter. Python infers the type of a value
  from how it was produced: `evaluate` returns a `str`, an `int` or a
  `float`, and `str()` renders each of them for `printos(`.
*/
module Values {
  import opened Wrappers
  import opened StrOps

  /** A Python `float`: an IEEE 754 binary64 number, kept as its 64 bits. */
  datatype Float = Float(bits: bv64)

  /**
    Python's `float(s)` and `str(f)`. Both are floating-point numerics
    outside this model, so the interpreter takes them as a parameter;
    `parse` returning `None` is `float()` raising `ValueError`.
  */
  datatype FloatConv = FloatConv(parse: string -> Option<Float>, render: Float -> string)

  /** The characters `float()` can accept at all: digits, signs, the point, exponents, `_`, white space and the letters of `inf`, `infinity` and `nan` (non-ASCII digits are let through as well). */
  predicate FloatTextChar(c: char) {
    IsDigit(c) || IsSpace(c) || c as int >= 128
    || c == '+' || c == '-' || c == '.' || c == '_' || c == 'e' || c == 'E'
    || c == 'i' || c == 'I' || c == 'n' || c == 'N' || c == 'f' || c == 'F'
    || c == 't' || c == 'T' || c == 'y' || c == 'Y' || c == 'a' || c == 'A'
  }

  /** `float()` rejects every text holding a character that no float literal uses. */
  ghost predicate RejectsNonFloatText(conv: FloatConv) {
    forall s :: conv.parse(s).Some? ==> forall k :: 0 <= k < |s| ==> FloatTextChar(s[k])
  }

  /** A runtime value: Python `str`, `int` or `float`. */
  datatype Value = VStr(text: string) | VInt(n: int) | VFloat(f: Float)

  /** Python's `str(v)`: text as it is, an integer in decimal, a float as `float.__str__` renders it. */
  function Render(v: Value, conv: FloatConv): string {
    match v
    case VStr(s) => s
    case VInt(n) => IntToString(n)
    case VFloat(f) => conv.render(f)
  }

  /** An integer prints as text that `int()` reads back as the same integer. */
  lemma {:induction false} RenderIntRoundTrip(n: int, conv: FloatConv)
    ensures ParseInt(Render(VInt(n), conv)) == Some(n)
  {
    ParseIntToString(n);
  }
}
