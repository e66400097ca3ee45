/**
 * The values that flow through telemetry rows and data-frame columns.
 * A Python/pandas float is either NaN or a finite number; the finite part
 * is an exact rational (`real`), so IEEE rounding is not modelled.
 */
module Values {
  import opened Wrappers
  import opened Text

  datatype Float = NaN | Fin(r: real)

  /** A value held in a telemetry row dictionary: `None`, a string or a float. */
  datatype PyValue = PyNone | PyStr(s: string) | PyFloat(f: Float)

  /** Python truthiness: `None`, `""` and `0.0` are false; NaN is true. */
  predicate Truthy(v: PyValue) {
    match v
    case PyNone => false
    case PyStr(s) => s != ""
    case PyFloat(f) => f.NaN? || f.r != 0.0
  }

  /** Python's `a or b`: the first operand if it is truthy, otherwise the second. */
  function Or(a: PyValue, b: PyValue): (r: PyValue)
    ensures Truthy(a) ==> r == a
    ensures !Truthy(a) ==> r == b
  {
    if Truthy(a) then a else b
  }

  /** `row.get(key)`: the stored value, or `None` for a missing key. */
  function Get(row: map<string, PyValue>, key: string): (v: PyValue)
    ensures key in row ==> v == row[key]
    ensures key !in row ==> v == PyNone
  {
    if key in row then row[key] else PyNone
  }

  /** The number a run of decimal digits denotes. */
  function DigitsValue(ds: string): (n: nat)
    requires AllDigits(ds)
    decreases |ds|
  {
    if ds == [] then 0
    else 10 * DigitsValue(ds[..|ds| - 1]) + (ds[|ds| - 1] as int - '0' as int)
  }

  function Pow10(k: nat): (p: nat)
    ensures p >= 1
  {
    if k == 0 then 1 else 10 * Pow10(k - 1)
  }

  /**
   * The value of an unsigned decimal literal `digits`, `digits.`,
   * `digits.digits` or `.digits`, or None when `body` is not of that form.
   */
  function UnsignedDecimal(body: string): (r: Option<real>)
    ensures r.Some? ==> r.value >= 0.0
  {
    var d := IndexOf(body, '.');
    if d == |body| then
      if body != [] && AllDigits(body) then Some(DigitsValue(body) as real) else None
    else
      var whole, frac := body[..d], body[d + 1..];
      if AllDigits(whole) && AllDigits(frac) && (whole != [] || frac != []) then
        Some(DecimalValue(whole, frac))
      else None
  }

  /** The value of `whole.frac`. */
  function DecimalValue(whole: string, frac: string): (v: real)
    requires AllDigits(whole) && AllDigits(frac)
    ensures v >= 0.0
  {
    DigitsValue(whole) as real + DigitsValue(frac) as real / Pow10(|frac|) as real
  }

  /**
   * `float(s)` for a string: surrounding whitespace is ignored, an optional
   * sign is accepted, `nan` in any letter case gives NaN, and a plain decimal
   * literal gives its value. Anything else is not convertible here.
   */
  function ParseFloatText(s: string): (r: Option<Float>)
    ensures Strip(s) == [] ==> r == None
  {
    FloatLiteral(Strip(s))
  }

  /** `float(t)` for text without surrounding whitespace. */
  function FloatLiteral(t: string): Option<Float> {
    if t == [] then None
    else SignedLiteral(t[0] == '-', if IsSign(t[0]) then t[1..] else t)
  }

  /** The value of an unsigned literal or `nan`, negated when `neg`. */
  function SignedLiteral(neg: bool, body: string): Option<Float> {
    if Lower(body) == "nan" then Some(NaN)
    else
      match UnsignedDecimal(body)
      case None => None
      case Some(v) => Some(Fin(if neg then -v else v))
  }

  /** A decimal literal is a non-empty run of digits with at most one dot. */
  lemma DecimalChars(body: string)
    requires UnsignedDecimal(body).Some?
    ensures body != [] && forall i :: 0 <= i < |body| ==> IsDigit(body[i]) || body[i] == '.'
  {
    var d := IndexOf(body, '.');
    if d < |body| {
      forall i | 0 <= i < |body|
        ensures IsDigit(body[i]) || body[i] == '.'
      {
        if i < d {
          assert body[i] == body[..d][i];
        } else if i > d {
          assert body[i] == body[d + 1..][i - d - 1];
        }
      }
    }
  }

  /** `float(sign + literal)` is the literal's value, negated after `-`. */
  lemma ParseFloatDecimal(sign: string, body: string)
    requires sign == "" || sign == "+" || sign == "-"
    requires UnsignedDecimal(body).Some?
    ensures var v := UnsignedDecimal(body).value;
            ParseFloatText(sign + body) == Some(Fin(if sign == "-" then -v else v))
  {
    DecimalChars(body);
    var t := sign + body;
    assert t[|t| - 1] == body[|body| - 1];
    assert t[0] == '+' || t[0] == '-' || IsDigit(t[0]) || t[0] == '.';
    StripNoSpace(t);
    LiteralDecimal(sign, body);
  }

  /** Text starting with a digit or a dot does not spell `nan`. */
  lemma NotNan(body: string)
    requires body != [] && (IsDigit(body[0]) || body[0] == '.')
    ensures Lower(body) != "nan"
  {
    assert Lower(body)[0] == LowerChar(body[0]);
  }

  lemma LiteralDecimal(sign: string, body: string)
    requires sign == "" || sign == "+" || sign == "-"
    requires UnsignedDecimal(body).Some?
    requires body != [] && (IsDigit(body[0]) || body[0] == '.')
    ensures var v := UnsignedDecimal(body).value;
            FloatLiteral(sign + body) == Some(Fin(if sign == "-" then -v else v))
  {
    NotNan(body);
    var v := UnsignedDecimal(body).value;
    assert SignedLiteral(sign == "-", body) == Some(Fin(if sign == "-" then -v else v));
    assert !IsSign(body[0]);
    if sign == "" {
      assert sign + body == body;
    } else {
      var t := sign + body;
      assert t[1..] == body && IsSign(t[0]) && (t[0] == '-' <==> sign == "-");
    }
  }

  /** `float(sign + t)` is NaN when `t` spells `nan` in any letter case. */
  lemma ParseFloatNan(sign: string, t: string)
    requires sign == "" || sign == "+" || sign == "-"
    requires Lower(t) == "nan"
    ensures ParseFloatText(sign + t) == Some(NaN)
  {
    var u := sign + t;
    assert |t| == 3;
    assert LowerChar(t[0]) == 'n' && LowerChar(t[2]) == 'n';
    assert u[|u| - 1] == t[2];
    StripNoSpace(u);
    if sign == "" {
      assert u == t;
    } else {
      assert u[1..] == t;
    }
  }

  /** `float` ignores surrounding whitespace. */
  lemma ParseFloatStripped(s: string)
    ensures ParseFloatText(Strip(s)) == ParseFloatText(s)
  {
    StripIdempotent(s);
  }

  /** A data frame's columns by name; every column of a frame of `n` rows has length `n`. */
  type Columns = map<string, seq<Float>>

  predicate Rect(cols: Columns, n: nat) {
    forall c :: c in cols ==> |cols[c]| == n
  }

  /** A CSV file as `pd.read_csv` returns it: its columns and its row count. */
  datatype Frame = Frame(cols: Columns, rows: nat)

  /** `Series.dropna()`: the non-NaN values, in order. */
  function DropNa(col: seq<Float>): (r: seq<Float>)
    ensures |r| <= |col|
    ensures forall i :: 0 <= i < |r| ==> r[i].Fin? && r[i] in col
    ensures forall i :: 0 <= i < |col| && col[i].Fin? ==> col[i] in r
    decreases |col|
  {
    if col == [] then []
    else
      var init := DropNa(col[..|col| - 1]);
      assert forall i :: 0 <= i < |col| - 1 ==> col[..|col| - 1][i] == col[i];
      if col[|col| - 1].Fin? then init + [col[|col| - 1]] else init
  }

  /** `Series.fillna(v)`: every NaN replaced by `v`. */
  function FillNa(col: seq<Float>, v: real): (r: seq<Float>)
    ensures |r| == |col|
    ensures forall i :: 0 <= i < |col| ==> r[i] == (if col[i].NaN? then Fin(v) else col[i])
  {
    seq(|col|, i requires 0 <= i < |col| => if col[i].NaN? then Fin(v) else col[i])
  }

  /** `DropNa` commutes with concatenation, so it keeps the finite values in their order. */
  lemma {:induction false} DropNaConcat(a: seq<Float>, b: seq<Float>)
    ensures DropNa(a + b) == DropNa(a) + DropNa(b)
    decreases |b|
  {
    if b == [] {
      assert a + b == a;
    } else {
      var b0 := b[..|b| - 1];
      assert (a + b)[..|a + b| - 1] == a + b0;
      DropNaConcat(a, b0);
    }
  }

  /** A column without NaN is left as it is by `DropNa`. */
  lemma {:induction false} DropNaFinite(col: seq<Float>)
    requires forall i :: 0 <= i < |col| ==> col[i].Fin?
    ensures DropNa(col) == col
    decreases |col|
  {
    if col != [] {
      DropNaFinite(col[..|col| - 1]);
      assert col[..|col| - 1] + [col[|col| - 1]] == col;
    }
  }
}
