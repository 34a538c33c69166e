// The values held in parsed JSON configuration files and in the `queue`
// dictionaries passed around the driver, with Python's truthiness and
// `str()` rendering.

module Json {
  import opened PyStr
  import opened PyDict

  /**
   * A Python value as produced by `json.load`. Floating-point numbers are
   * kept as their decimal text; FloatValue reads the number it denotes
   * where a comparison needs it.
   */
  datatype Value =
    | VNone
    | VBool(b: bool)
    | VInt(i: int)
    | VNum(text: string)
    | VStr(s: string)
    | VList(items: seq<Value>)
    | VDict(entries: Dict<string, Value>)

  /** A float literal is falsy exactly when every mantissa digit is zero. */
  predicate NonZeroMantissa(t: string)
  {
    if |t| == 0 || t[0] == 'e' || t[0] == 'E' then false
    else ('1' <= t[0] <= '9') || NonZeroMantissa(t[1..])
  }

  /** Python's `bool(v)`. */
  predicate Truthy(v: Value)
  {
    match v
    case VNone => false
    case VBool(b) => b
    case VInt(i) => i != 0
    case VNum(t) => NonZeroMantissa(t)
    case VStr(s) => s != ""
    case VList(xs) => xs != []
    case VDict(d) => d != []
  }

  /** Python's `str(v)` for a value that is neither a string nor a container. */
  function ShowAtom(v: Value): string
  {
    match v
    case VNone => "None"
    case VBool(b) => if b then "True" else "False"
    case VInt(i) => IntToString(i)
    case VNum(t) => t
    case _ => ""
  }

  /** Python's `str(v)`. */
  function Show(v: Value): string
  {
    match v
    case VStr(s) => s
    case VList(_) => Repr(v)
    case VDict(_) => Repr(v)
    case _ => ShowAtom(v)
  }

  /** Python's `repr(v)`; quotes inside strings are not escaped. */
  function Repr(v: Value): string
  {
    match v
    case VStr(s) => "'" + s + "'"
    case VList(xs) => "[" + Join(", ", ReprList(xs)) + "]"
    case VDict(d) => "{" + Join(", ", ReprEntries(d)) + "}"
    case _ => ShowAtom(v)
  }

  function ReprList(xs: seq<Value>): (r: seq<string>)
    ensures |r| == |xs|
  {
    if |xs| == 0 then [] else [Repr(xs[0])] + ReprList(xs[1..])
  }

  function ReprEntries(d: Dict<string, Value>): (r: seq<string>)
    ensures |r| == |d|
  {
    if |d| == 0 then []
    else
      assert d[0].1 < VDict(d);
      ["'" + d[0].0 + "': " + Repr(d[0].1)] + ReprEntries(d[1..])
  }

  /** The index of the first `a` or `b` in `t`, or `|t|` when there is none. */
  function FirstOf(t: string, a: char, b: char): (i: nat)
    ensures i <= |t|
    ensures forall k :: 0 <= k < i ==> t[k] != a && t[k] != b
    ensures i < |t| ==> t[i] == a || t[i] == b
  {
    if |t| == 0 then 0
    else if t[0] == a || t[0] == b then 0
    else 1 + FirstOf(t[1..], a, b)
  }

  /** Decimal digits read as a number; JSON number text has no other character where this is used. */
  function DecimalDigits(s: string): nat
  {
    if |s| == 0 then 0
    else DecimalDigits(s[..|s| - 1]) * 10 + (if IsDigit(s[|s| - 1]) then DigitValue(s[|s| - 1]) else 0)
  }

  function Pow10(n: nat): (r: nat)
    ensures r >= 1
  {
    if n == 0 then 1 else 10 * Pow10(n - 1)
  }

  /** An exponent's text: an optional sign, then digits. */
  function ExponentOf(s: string): int
  {
    if |s| > 0 && s[0] == '-' then -(DecimalDigits(s[1..]) as int)
    else if |s| > 0 && s[0] == '+' then DecimalDigits(s[1..])
    else DecimalDigits(s)
  }

  /** Whole digits with an optional fraction after ".". */
  function Magnitude(body: string): real
  {
    var p := FirstOf(body, '.', '.');
    var frac := if p < |body| then body[p + 1..] else "";
    DecimalDigits(body[..p]) as real + DecimalDigits(frac) as real / Pow10(|frac|) as real
  }

  /** `mag` times ten to the power `x`. */
  function Scale(mag: real, x: int): real
  {
    if x >= 0 then mag * Pow10(x) as real else mag / Pow10(-x) as real
  }

  /**
   * The number a JSON float literal denotes, exactly: an optional minus,
   * whole digits, an optional fraction after ".", an optional exponent
   * after "e" or "E".
   */
  function FloatValue(t: string): real
  {
    var e := FirstOf(t, 'e', 'E');
    var m := t[..e];
    var neg := |m| > 0 && m[0] == '-';
    var v := Scale(Magnitude(if neg then m[1..] else m), if e < |t| then ExponentOf(t[e + 1..]) else 0);
    if neg then -v else v
  }

  /** On digits alone, DecimalDigits is the value `int()` gives them. */
  lemma {:induction false} DecimalDigitsOfDigits(s: string)
    requires forall i :: 0 <= i < |s| ==> IsDigit(s[i])
    ensures DecimalDigits(s) == DigitsValue(s)
  {
    if |s| > 0 {
      DecimalDigitsOfDigits(s[..|s| - 1]);
    }
  }

  /** Without a minus sign or an exponent marker, a literal denotes its magnitude. */
  lemma PlainFloat(t: string)
    requires forall k :: 0 <= k < |t| ==> t[k] != 'e' && t[k] != 'E'
    requires |t| == 0 || t[0] != '-'
    ensures FloatValue(t) == Magnitude(t)
  {
    assert FirstOf(t, 'e', 'E') == |t|;
    assert t[..|t|] == t;
  }

  /** Digits, a point and digits denote the whole part plus the fraction. */
  lemma MagnitudeOfDecimal(w: string, f: string)
    requires forall k :: 0 <= k < |w| ==> IsDigit(w[k])
    requires forall k :: 0 <= k < |f| ==> IsDigit(f[k])
    ensures Magnitude(w + "." + f) == DigitsValue(w) as real + DigitsValue(f) as real / Pow10(|f|) as real
  {
    var t := w + "." + f;
    var p := FirstOf(t, '.', '.');
    assert forall k :: 0 <= k < |w| ==> t[k] == w[k];
    assert p == |w| by {
      assert t[|w|] == '.';
    }
    assert t[..p] == w;
    assert t[p + 1..] == f;
    DecimalDigitsOfDigits(w);
    DecimalDigitsOfDigits(f);
  }

  /** A literal of digits, a point and digits denotes the whole part plus the fraction. */
  lemma FloatOfDecimal(t: string, w: string, f: string)
    requires t == w + "." + f
    requires forall k :: 0 <= k < |w| ==> IsDigit(w[k])
    requires forall k :: 0 <= k < |f| ==> IsDigit(f[k])
    ensures FloatValue(t) == DigitsValue(w) as real + DigitsValue(f) as real / Pow10(|f|) as real
  {
    forall k | 0 <= k < |t|
      ensures t[k] != 'e' && t[k] != 'E' && t[k] != '-'
    {
      if k < |w| {
        assert t[k] == w[k];
      } else if k > |w| {
        assert t[k] == f[k - |w| - 1];
      }
    }
    PlainFloat(t);
    MagnitudeOfDecimal(w, f);
  }

  /** The digit string "0" denotes zero. */
  lemma ZeroText()
    ensures forall k :: 0 <= k < |"0"| ==> IsDigit("0"[k])
    ensures DigitsValue("0") == 0
  {
    assert "0"[..0] == "";
  }

  /** A whole number written with ".0", as `str()` writes `float(n)`, denotes `n`: "3600.0" is 3600. */
  lemma FloatOfWhole(t: string, d: string)
    requires IsDigits(d) && t == d + ".0"
    ensures FloatValue(t) == DigitsValue(d) as real
  {
    ZeroText();
    FloatOfDecimal(t, d, "0");
  }

  /** A literal of one digit, a point and one digit, such as "1.5", denotes a number of tenths. */
  lemma FloatOfTenths(t: string, a: char, b: char)
    requires IsDigit(a) && IsDigit(b) && t == [a, '.', b]
    ensures FloatValue(t) == DigitValue(a) as real + DigitValue(b) as real / 10.0
  {
    var w, f := [a], [b];
    assert t == w + "." + f;
    assert w[..0] == [] && f[..0] == [];
    FloatOfDecimal(t, w, f);
  }

  /** The name of the Python type of `v`, as error messages give it. */
  function TypeName(v: Value): string
  {
    match v
    case VNone => "NoneType"
    case VBool(_) => "bool"
    case VInt(_) => "int"
    case VNum(_) => "float"
    case VStr(_) => "str"
    case VList(_) => "list"
    case VDict(_) => "dict"
  }

  /** `v.get(k)` for a dict value; None for a missing key or a non-dict. */
  function Field(v: Value, k: string): Option<Value>
  {
    match v
    case VDict(d) => Get(d, k)
    case _ => None
  }

  /** `v.get(k, default)` for a dict value. */
  function FieldOr(v: Value, k: string, default: Value): Value
  {
    match Field(v, k)
    case Some(x) => x
    case None => default
  }

  predicate HasField(v: Value, k: string)
  {
    Field(v, k).Some?
  }

  /** A list whose elements are all strings, and those strings. */
  predicate IsStrList(xs: seq<Value>)
  {
    forall i :: 0 <= i < |xs| ==> xs[i].VStr?
  }

  function StrItems(xs: seq<Value>): (r: seq<string>)
    requires IsStrList(xs)
    ensures |r| == |xs|
    ensures forall i :: 0 <= i < |xs| ==> r[i] == xs[i].s
  {
    if |xs| == 0 then [] else [xs[0].s] + StrItems(xs[1..])
  }

  function StrValues(xs: seq<string>): (r: seq<Value>)
    ensures |r| == |xs| && IsStrList(r)
    ensures StrItems(r) == xs
  {
    if |xs| == 0 then [] else [VStr(xs[0])] + StrValues(xs[1..])
  }

  lemma TruthyStr(s: string)
    ensures Truthy(VStr(s)) <==> s != ""
  {
  }
}
