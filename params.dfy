/** Configured and URL-supplied check parameters. Configuration values are the
    TOML kinds; a declared parameter type is one of Python's coercion builtins,
    applied as `_type(value)` when a check is built. */
module Params {
  import opened Common
  import opened OrderedDict

  datatype Value =
    | Str(s: string)
    | Int(i: int)
      /** The decimal `mantissa * 10^-exponent`. */
    | Float(mantissa: int, exponent: nat)
    | Bool(b: bool)
    | List(items: seq<Value>)
    | Table(entries: seq<(string, Value)>)

  /** The callable a parameter is annotated with: a builtin, or one of the
      `typing` aliases `List[...]` and `Dict[...]`. */
  datatype TypeTag =
    | StrType | IntType | FloatType | BoolType | ListType | DictType
    | ListAlias | DictAlias

  // ---------------------------------------------------------------------------
  // Decimal floats

  function Pow10(e: nat): (p: nat)
    ensures p >= 1
  {
    if e == 0 then 1 else 10 * Pow10(e - 1)
  }

  /** A float written without trailing zeros after the decimal point. */
  predicate IsNormal(m: int, e: nat) {
    e == 0 || m % 10 != 0
  }

  /** The same decimal with the trailing zeros of its fraction dropped. */
  function Normalize(m: int, e: nat): (r: (int, nat))
    ensures IsNormal(r.0, r.1)
    ensures r.1 <= e && r.0 * Pow10(e - r.1) == m
    decreases e
  {
    if e > 0 && m % 10 == 0 then
      var r := Normalize(m / 10, e - 1);
      assert Pow10(e - r.1) == 10 * Pow10(e - 1 - r.1);
      r
    else (m, e)
  }

  lemma NormalizeNormal(m: int, e: nat)
    requires IsNormal(m, e)
    ensures Normalize(m, e) == (m, e)
  {
  }

  /** `s` with zeros in front up to `width` characters. */
  function PadZeros(s: string, width: nat): (r: string)
    ensures |r| >= width && |r| >= |s|
    decreases width - |s|
  {
    if |s| >= width then s else PadZeros("0" + s, width)
  }

  /** Python's `repr` of a float in positional notation: the digits of the
      mantissa with the point `e` places from the right, and at least one
      digit on either side of it. */
  function FloatText(m: int, e: nat): string {
    var sign := if m < 0 then "-" else "";
    var a: nat := if m < 0 then -m else m;
    var digits := PadZeros(NatToString(a), e + 1);
    if e == 0 then sign + digits + ".0"
    else sign + digits[..|digits| - e] + "." + digits[|digits| - e..]
  }

  /** `int(x)` of a float truncates toward zero. */
  function TruncateDecimal(m: int, e: nat): int {
    if m >= 0 then m / Pow10(e) else -((-m) / Pow10(e))
  }

  /** Python's `float(s)` for plain decimals: surrounding whitespace, an optional
      sign, digits with at most one decimal point and at least one digit. */
  function ParseDecimal(s: string): (r: Option<(int, nat)>)
    ensures r.Some? ==> IsNormal(r.value.0, r.value.1)
  {
    var t := Strip(s);
    var neg := |t| > 0 && t[0] == '-';
    var body := if |t| > 0 && (t[0] == '-' || t[0] == '+') then t[1..] else t;
    var parts := Split(body, '.');
    if |parts| > 2 then None
    else
      var whole := parts[0];
      var frac := if |parts| == 2 then parts[1] else "";
      var digits := whole + frac;
      if digits == [] || exists i :: 0 <= i < |digits| && !IsDigit(digits[i]) then None
      else
        var n := DigitsValue(digits);
        Some(Normalize(if neg then 0 - n as int else n as int, |frac|))
  }

  // ---------------------------------------------------------------------------
  // str() and repr()

  /** Python's `repr(v)`: strings are quoted, everything else is `str(v)`. */
  function Repr(v: Value): string
    decreases v, 1
  {
    if v.Str? then "'" + v.s + "'" else Render(v)
  }

  /** Python's `str(v)`. */
  function Render(v: Value): string
    decreases v, 0
  {
    match v
    case Str(s) => s
    case Int(i) => IntToString(i)
    case Float(m, e) => var r := Normalize(m, e); FloatText(r.0, r.1)
    case Bool(b) => if b then "True" else "False"
    case List(xs) =>
      "[" + Join(", ", seq(|xs|, i requires 0 <= i < |xs| => Repr(xs[i]))) + "]"
    case Table(kvs) =>
      "{" + Join(", ", seq(|kvs|, i requires 0 <= i < |kvs| => "'" + kvs[i].0 + "': " + Repr(kvs[i].1))) + "}"
  }

  // ---------------------------------------------------------------------------
  // Coercion

  /** `list(s)` of a string: its characters. */
  function Chars(s: string): (r: seq<Value>)
    ensures |r| == |s| && forall i :: 0 <= i < |s| ==> r[i] == Str([s[i]])
  {
    seq(|s|, i requires 0 <= i < |s| => Str([s[i]]))
  }

  /** One element of `dict(xs)`: an iterable of length two whose first item is the key. */
  function PairOf(x: Value): Result<(string, Value)> {
    match x
    case List(items) =>
      if |items| != 2 then Err(ValueError("dictionary update sequence element has length " + IntToString(|items|) + "; 2 is required"))
      else if items[0].Str? then Ok((items[0].s, items[1]))
      else Err(TypeError("dictionary key is not a string"))
    case Str(s) =>
      if |s| != 2 then Err(ValueError("dictionary update sequence element has length " + IntToString(|s|) + "; 2 is required"))
      else Ok((s[..1], Str(s[1..])))
    case Table(kvs) =>
      if |kvs| != 2 then Err(ValueError("dictionary update sequence element has length " + IntToString(|kvs|) + "; 2 is required"))
      else Ok((kvs[0].0, Str(kvs[1].0)))
    case _ => Err(TypeError("cannot convert dictionary update sequence element to a sequence"))
  }

  /** `dict(xs)` of a list of pairs, assigned in order. */
  function PairsToTable(acc: Dict<string, Value>, xs: seq<Value>): Result<Dict<string, Value>>
    decreases |xs|
  {
    if xs == [] then Ok(acc)
    else
      match PairOf(xs[0])
      case Err(e) => Err(e)
      case Ok(p) => PairsToTable(Put(acc, p.0, p.1), xs[1..])
  }

  /** `_type(value)` as written: calling a `typing` alias raises. */
  function CoerceAsWritten(t: TypeTag, v: Value): Result<Value> {
    match t
    case ListAlias => Err(TypeError("Type List cannot be instantiated; use list() instead"))
    case DictAlias => Err(TypeError("Type Dict cannot be instantiated; use dict() instead"))
    case _ => Coerce(t, v)
  }

  /** Configuring a list-typed parameter of a check fails as written, whatever the value. */
  lemma AsWrittenListParameterFails(items: seq<Value>)
    ensures CoerceAsWritten(ListAlias, List(items)).Err?
    ensures CoerceAsWritten(ListAlias, List(items)).error.TypeError?
  {
  }

  /** `_type(value)` for the declared type of a parameter, a `typing` alias
      coercing like the builtin it stands for. */
  function Coerce(t: TypeTag, v: Value): Result<Value>
    decreases if t.ListAlias? || t.DictAlias? then 1 else 0
  {
    match t
    case ListAlias => Coerce(ListType, v)
    case DictAlias => Coerce(DictType, v)
    case StrType => Ok(Str(Render(v)))
    case IntType =>
      (match v
       case Str(s) =>
         (match ParseInt(s)
          case Some(n) => Ok(Int(n))
          case None => Err(ValueError("invalid literal for int() with base 10: " + Repr(v))))
       case Int(i) => Ok(v)
       case Float(m, e) => Ok(Int(TruncateDecimal(m, e)))
       case Bool(b) => Ok(Int(if b then 1 else 0))
       case _ => Err(TypeError("int() argument must be a string or a number")))
    case FloatType =>
      (match v
       case Str(s) =>
         (match ParseDecimal(s)
          case Some(r) => Ok(Float(r.0, r.1))
          case None => Err(ValueError("could not convert string to float: " + Repr(v))))
       case Int(i) => Ok(Float(i, 0))
       case Float(m, e) => var r := Normalize(m, e); Ok(Float(r.0, r.1))
       case Bool(b) => Ok(Float(if b then 1 else 0, 0))
       case _ => Err(TypeError("float() argument must be a string or a number")))
    case BoolType =>
      (match v
       case Str(s) => Ok(Bool(s != ""))
       case Int(i) => Ok(Bool(i != 0))
       case Float(m, e) => Ok(Bool(m != 0))
       case Bool(b) => Ok(v)
       case List(xs) => Ok(Bool(xs != []))
       case Table(kvs) => Ok(Bool(kvs != [])))
    case ListType =>
      (match v
       case Str(s) => Ok(List(Chars(s)))
       case List(xs) => Ok(v)
       case Table(kvs) => Ok(List(seq(|kvs|, i requires 0 <= i < |kvs| => Str(kvs[i].0))))
       case _ => Err(TypeError("object is not iterable")))
    case DictType => CoerceDict(v)
  }

  /** `dict(v)`. */
  function CoerceDict(v: Value): Result<Value> {
    match v
    case Table(kvs) => Ok(v)
    case Str(s) =>
      if s == "" then Ok(Table([]))
      else Err(ValueError("dictionary update sequence element has length 1; 2 is required"))
    case List(xs) =>
      (match PairsToTable([], xs)
       case Ok(d) => Ok(Table(d))
       case Err(e) => Err(e))
    case _ => Err(TypeError("object is not iterable"))
  }

  /** Coercing a value already of the declared type gives it back, so building
      a check again from its own parameters changes nothing. */
  lemma CoerceIdempotent(t: TypeTag, v: Value)
    requires Coerce(t, v).Ok?
    ensures Coerce(t, Coerce(t, v).value) == Coerce(t, v)
  {
    match t {
      case IntType => CoerceIntIdempotent(v);
      case FloatType => CoerceFloatIdempotent(v);
      case ListType => CoerceListIdempotent(v);
      case ListAlias => CoerceAlias(v); CoerceListIdempotent(v);
      case DictType => CoerceDictIdempotent(v);
      case DictAlias => CoerceAlias(v); CoerceDictIdempotent(v);
      case _ =>
    }
  }

  /** A `typing` alias coerces like the builtin it stands for. */
  lemma CoerceAlias(v: Value)
    ensures Coerce(ListAlias, v) == Coerce(ListType, v)
    ensures Coerce(DictAlias, v) == Coerce(DictType, v)
  {
  }

  lemma CoerceListIdempotent(v: Value)
    requires Coerce(ListType, v).Ok?
    ensures Coerce(ListType, v).value.List?
    ensures Coerce(ListType, Coerce(ListType, v).value) == Coerce(ListType, v)
  {
  }

  lemma CoerceDictIdempotent(v: Value)
    requires Coerce(DictType, v).Ok?
    ensures Coerce(DictType, v).value.Table?
    ensures Coerce(DictType, Coerce(DictType, v).value) == Coerce(DictType, v)
  {
    assert Coerce(DictType, v) == CoerceDict(v);
    assert CoerceDict(v).value.Table?;
    assert Coerce(DictType, CoerceDict(v).value) == CoerceDict(CoerceDict(v).value);
  }

  lemma CoerceIntIdempotent(v: Value)
    requires Coerce(IntType, v).Ok?
    ensures Coerce(IntType, v).value.Int?
    ensures Coerce(IntType, Coerce(IntType, v).value) == Coerce(IntType, v)
  {
  }

  lemma CoerceFloatIdempotent(v: Value)
    requires Coerce(FloatType, v).Ok?
    ensures Coerce(FloatType, Coerce(FloatType, v).value) == Coerce(FloatType, v)
  {
    var w := Coerce(FloatType, v).value;
    NormalizeNormal(w.mantissa, w.exponent);
  }

  /** With the alias read as the builtin, a configured list is kept as it is. */
  lemma ListParameterKept(items: seq<Value>)
    ensures Coerce(ListAlias, List(items)) == Ok(List(items))
  {
  }

  /** URL query values are strings, and coercing a string fails only with a
      `ValueError`, which the handler answers with HTTP 400. */
  lemma CoerceStrFailsWithValueError(t: TypeTag, s: string)
    ensures Coerce(t, Str(s)).Err? ==> Coerce(t, Str(s)).error.ValueError?
  {
  }

  /** An integer parameter given its decimal text in the URL gets that integer. */
  lemma CoerceIntText(n: int)
    ensures Coerce(IntType, Str(IntToString(n))) == Ok(Int(n))
  {
    ParseIntToString(n);
  }

  /** Text that is not an integer literal is refused for an integer parameter. */
  lemma CoerceIntRejectsLetters(s: string)
    requires ParseInt(s).None?
    ensures Coerce(IntType, Str(s)).Err? && Coerce(IntType, Str(s)).error.ValueError?
  {
  }

  /** Text that starts with something other than a sign or a digit is no integer. */
  lemma ParseIntLeadingLetter(t: string)
    requires Strip(t) == t && t != [] && !IsDigit(t[0]) && t[0] != '-' && t[0] != '+'
    ensures ParseInt(t) == None
  {
    assert !ValidDigitGroups(t);
  }

  lemma ParseIntAbc()
    ensures ParseInt("abc") == None
  {
    var t := "abc";
    assert !IsSpace(t[0]) && !IsSpace(t[2]);
    assert StripLeft(t) == t;
    assert StripRight(t) == t;
    ParseIntLeadingLetter(t);
  }

  /** The example of an invalid URL value: `abc` for an integer parameter. */
  lemma CoerceIntAbc()
    ensures Coerce(IntType, Str("abc")).Err?
  {
    ParseIntAbc();
    CoerceIntRejectsLetters("abc");
  }

  /** `str()` tells integers apart. */
  lemma RenderIntInjective(i: int, j: int)
    requires Render(Int(i)) == Render(Int(j))
    ensures i == j
  {
    IntToStringInjective(i, j);
  }
}
