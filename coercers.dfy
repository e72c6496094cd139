/** The scalar coercers of model.py (`parse_str`, `parse_int`, `parse_bool`,
    `parse_direction`, `parse_quality`). Each receives the text accumulator of
    the closing frame, which is None when the element carried no text. */
module Coercers {

  import opened Wrappers
  import opened Values
  import opened Schema

  predicate IsDigit(c: char) { '0' <= c <= '9' }

  predicate AllDigits(s: string) { forall i :: 0 <= i < |s| ==> IsDigit(s[i]) }

  /** The number a non-empty run of decimal digits denotes. */
  function DigitsValue(s: string): (n: nat)
    requires AllDigits(s)
    ensures s == [] ==> n == 0
  {
    if s == [] then 0
    else DigitsValue(s[..|s| - 1]) * 10 + ((s[|s| - 1] as int) - ('0' as int))
  }

  /** Python `str()` of a non-negative integer: its shortest decimal digits. */
  function NatDigits(n: nat): (s: string)
    ensures |s| > 0 && AllDigits(s)
    ensures |s| > 1 ==> s[0] != '0'
  {
    if n < 10 then ['0' + n as char]
    else NatDigits(n / 10) + ['0' + (n % 10) as char]
  }

  /** Python `str()` of an integer. */
  function IntText(n: int): string
  {
    if n < 0 then "-" + NatDigits(-n) else NatDigits(n)
  }

  /** `int(text)`: an optional sign followed by at least one decimal digit. */
  function ParseIntText(s: string): (r: Option<int>)
    ensures r.Some? ==> |s| > 0
    ensures AllDigits(s) && s != [] ==> r == Some(DigitsValue(s))
    ensures r.Some? && r.value < 0 ==> s[0] == '-'
  {
    if |s| > 1 && (s[0] == '-' || s[0] == '+') && AllDigits(s[1..]) then
      var magnitude: int := DigitsValue(s[1..]);
      Some(if s[0] == '-' then -magnitude else magnitude)
    else if |s| > 0 && AllDigits(s) then Some(DigitsValue(s))
    else None
  }

  /** Decimal digits read back give the number they were written from. */
  lemma {:induction false} DigitsRoundTrip(n: nat)
    ensures DigitsValue(NatDigits(n)) == n
  {
    if n >= 10 {
      var s := NatDigits(n);
      DigitsRoundTrip(n / 10);
      assert s[..|s| - 1] == NatDigits(n / 10);
    }
  }

  /** `int(str(n)) == n` for every integer. */
  lemma IntTextRoundTrip(n: int)
    ensures ParseIntText(IntText(n)) == Some(n)
  {
    if n < 0 {
      DigitsRoundTrip(-n);
      assert IntText(n)[1..] == NatDigits(-n);
    } else {
      DigitsRoundTrip(n);
    }
  }

  function DirectionName(d: Direction): string
  {
    match d
    case Both => "both"
    case Forward => "forward"
    case Backward => "backward"
  }

  function QualityName(q: Quality): string
  {
    match q
    case Low => "low"
    case Normal => "normal"
    case High => "high"
  }

  /** `parse_str`: the text itself; no text stays None. */
  function CoerceStr(data: Option<string>): (r: Result<Value>)
    ensures r.Ok? && (r.value.Null? <==> data.None?)
    ensures data.Some? ==> r.value == Str(data.value)
  {
    Ok(TextValue(data))
  }

  /** `parse_int`: `int(None)` raises, and so does text that is not a number. */
  function CoerceInt(data: Option<string>): (r: Result<Value>)
    ensures r.Ok? <==> data.Some? && ParseIntText(data.value).Some?
    ensures r.Ok? ==> r.value == Int(ParseIntText(data.value).value)
  {
    if data.None? then Failed
    else match ParseIntText(data.value)
      case None => Failed
      case Some(n) => Ok(Int(n))
  }

  /** `parse_bool`: true exactly for the text "true"; never fails. */
  function CoerceBool(data: Option<string>): (r: Result<Value>)
    ensures r.Ok? && r.value.Bool?
    ensures r.value.b <==> data == Some("true")
  {
    Ok(Bool(data == Some("true")))
  }

  /** `parse_direction`: a lookup of the member name; anything else raises. */
  function CoerceDirection(data: Option<string>): (r: Result<Value>)
    ensures r.Ok? <==> data in {Some("both"), Some("forward"), Some("backward")}
    ensures r.Ok? ==> r.value.Dir? && data == Some(DirectionName(r.value.direction))
  {
    match data
    case Some("both") => Ok(Dir(Both))
    case Some("forward") => Ok(Dir(Forward))
    case Some("backward") => Ok(Dir(Backward))
    case _ => Failed
  }

  /** `parse_quality`: a lookup of the member name; anything else raises. */
  function CoerceQuality(data: Option<string>): (r: Result<Value>)
    ensures r.Ok? <==> data in {Some("low"), Some("normal"), Some("high")}
    ensures r.Ok? ==> r.value.Qual? && data == Some(QualityName(r.value.quality))
  {
    match data
    case Some("low") => Ok(Qual(Low))
    case Some("normal") => Ok(Qual(Normal))
    case Some("high") => Ok(Qual(High))
    case _ => Failed
  }

  /** Every direction and quality is read back from its member name. */
  lemma EnumNamesRoundTrip(d: Direction, q: Quality)
    ensures CoerceDirection(Some(DirectionName(d))) == Ok(Dir(d))
    ensures CoerceQuality(Some(QualityName(q))) == Ok(Qual(q))
  {
  }

  /** A coercer applied to the closing frame's text; attributes and children
      are ignored by every `parse_*` function. */
  function Coerce(c: Coercer, data: Option<string>): (r: Result<Value>)
    ensures c == ParseStr || c == ParseBool ==> r.Ok?
    ensures data.None? ==> (r.Ok? <==> c == ParseStr || c == ParseBool)
    ensures c == ParseStr ==> r == CoerceStr(data)
    ensures c == ParseInt ==> r == CoerceInt(data)
    ensures c == ParseBool ==> r == CoerceBool(data)
    ensures c == ParseDirection ==> r == CoerceDirection(data)
    ensures c == ParseQuality ==> r == CoerceQuality(data)
  {
    match c
    case ParseStr => CoerceStr(data)
    case ParseInt => CoerceInt(data)
    case ParseBool => CoerceBool(data)
    case ParseDirection => CoerceDirection(data)
    case ParseQuality => CoerceQuality(data)
  }

  /** The ASCII characters Python's `str.strip()` removes. */
  predicate IsSpace(c: char)
  {
    c == ' ' || c == '\t' || c == '\n' || c == '\r' || c == '\U{000B}' || c == '\U{000C}'
    || ('\U{001C}' <= c <= '\U{001F}')
  }

  /** `str.lstrip()`: the suffix of `s` left after its leading blanks. */
  function TrimStart(s: string): string
    decreases |s|
  {
    if s != [] && IsSpace(s[0]) then TrimStart(s[1..]) else s
  }

  /** `str.rstrip()`: the prefix of `s` left before its trailing blanks. */
  function TrimEnd(s: string): string
    decreases |s|
  {
    if s != [] && IsSpace(s[|s| - 1]) then TrimEnd(s[..|s| - 1]) else s
  }

  /** `lstrip` keeps a suffix of the text that does not start with a blank,
      and drops only blanks. */
  lemma {:induction false} TrimStartSpec(s: string)
    ensures |TrimStart(s)| <= |s| && TrimStart(s) == s[|s| - |TrimStart(s)|..]
    ensures TrimStart(s) == [] || !IsSpace(TrimStart(s)[0])
    ensures forall i :: 0 <= i < |s| - |TrimStart(s)| ==> IsSpace(s[i])
    decreases |s|
  {
    if s != [] && IsSpace(s[0]) {
      TrimStartSpec(s[1..]);
    }
  }

  /** `rstrip` keeps a prefix of the text that does not end with a blank,
      and drops only blanks. */
  lemma {:induction false} TrimEndSpec(s: string)
    ensures |TrimEnd(s)| <= |s| && TrimEnd(s) == s[..|TrimEnd(s)|]
    ensures TrimEnd(s) == [] || !IsSpace(TrimEnd(s)[|TrimEnd(s)| - 1])
    ensures forall i :: |TrimEnd(s)| <= i < |s| ==> IsSpace(s[i])
    decreases |s|
  {
    if s != [] && IsSpace(s[|s| - 1]) {
      TrimEndSpec(s[..|s| - 1]);
    }
  }

  /** `str.strip()`. */
  function Strip(s: string): string
  {
    TrimEnd(TrimStart(s))
  }

  function LowerAscii(s: string): (r: string)
    ensures |r| == |s|
  {
    seq(|s|, i requires 0 <= i < |s| => if 'A' <= s[i] <= 'Z' then (s[i] as int + 32) as char else s[i])
  }

  /** Digits with at most one point among them, and at least one digit. */
  predicate MantissaText(s: string)
  {
    (|s| > 0 && AllDigits(s))
    || (|s| > 1 && exists i :: 0 <= i < |s| && s[i] == '.' && AllDigits(s[..i]) && AllDigits(s[i + 1..]))
  }

  /** A finite number: a mantissa, then optionally `e` or `E` and a signed
      exponent. */
  predicate FiniteText(s: string)
  {
    MantissaText(s)
    || exists i :: 0 <= i < |s| && (s[i] == 'e' || s[i] == 'E') && MantissaText(s[..i]) && ParseIntText(s[i + 1..]).Some?
  }

  /** `Inf`, `Infinity`, `NaN` or `sNaN` with optional diagnostic digits, in
      any letter case. */
  predicate SpecialText(s: string)
  {
    var l := LowerAscii(s);
    l == "inf" || l == "infinity"
    || (|l| >= 3 && l[..3] == "nan" && AllDigits(l[3..]))
    || (|l| >= 4 && l[..4] == "snan" && AllDigits(l[4..]))
  }

  /** The text `decimal.Decimal(text)` accepts: surrounding whitespace, an
      optional sign, then a finite number or a special value. */
  predicate DecimalText(text: string)
  {
    var t := Strip(text);
    var u := if |t| > 0 && (t[0] == '+' || t[0] == '-') then t[1..] else t;
    FiniteText(u) || SpecialText(u)
  }

  /** Every integer's text is a decimal text too, so `Decimal(str(n))` never
      raises. */
  lemma IntTextIsDecimal(n: int)
    ensures DecimalText(IntText(n))
  {
    var s := IntText(n);
    var digits := if n < 0 then NatDigits(-n) else NatDigits(n);
    assert s[|s| - 1] == digits[|digits| - 1];
    assert TrimStart(s) == s;
    assert Strip(s) == s;
    if n < 0 {
      assert s[1..] == digits;
    }
    assert MantissaText(digits);
  }

  /** Texts `Decimal` accepts: a plain decimal, a bare fraction and a NaN. */
  lemma DecimalTextAccepts()
    ensures DecimalText("4.5") && DecimalText(".5") && DecimalText("NaN")
  {
    assert DecimalText("4.5") by {
      assert Strip("4.5") == "4.5";
      assert "4.5"[1] == '.' && "4.5"[..1] == "4" && "4.5"[2..] == "5";
    }
    assert DecimalText(".5") by {
      assert Strip(".5") == ".5";
      assert ".5"[0] == '.' && ".5"[..0] == "" && ".5"[1..] == "5";
    }
    assert DecimalText("NaN") by {
      assert Strip("NaN") == "NaN";
      assert LowerAscii("NaN") == "nan";
    }
  }

  /** `Decimal` strips blanks and reads a sign and a signed exponent. */
  lemma DecimalTextExponent()
    ensures DecimalText(" -1e3 ") && DecimalText("2E-7")
  {
    assert DecimalText(" -1e3 ") by {
      assert TrimStart(" -1e3 ") == "-1e3 ";
      assert TrimEnd("-1e3 ") == "-1e3";
      var u := "-1e3"[1..];
      assert u == "1e3";
      assert u[1] == 'e' && u[..1] == "1" && u[2..] == "3";
      assert AllDigits("1") && AllDigits("3") by {
        assert "1"[0] == '1' && "3"[0] == '3';
      }
      assert MantissaText("1");
      assert ParseIntText("3").Some?;
    }
    assert DecimalText("2E-7") by {
      assert Strip("2E-7") == "2E-7";
      var u := "2E-7";
      assert u[1] == 'E' && u[..1] == "2" && u[2..] == "-7";
      assert AllDigits("2") && AllDigits("7") by {
        assert "2"[0] == '2' && "7"[0] == '7';
      }
      assert MantissaText("2");
      assert "-7"[1..] == "7";
      assert ParseIntText("-7").Some?;
    }
  }

  /** Texts `Decimal` rejects: no text at all, letters, and a lone point. */
  lemma DecimalTextRejects()
    ensures !DecimalText("") && !DecimalText("abc") && !DecimalText(".")
  {
    assert !IsDigit("abc"[0]);
    forall i | 0 <= i < |"abc"|
      ensures "abc"[i] != '.' && "abc"[i] != 'e' && "abc"[i] != 'E'
    {
    }
    assert !MantissaText("abc");
    assert LowerAscii("abc") == "abc";
    assert LowerAscii(".") == ".";
  }
}
