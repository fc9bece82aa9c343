/** Python's built-in `int(x)` applied to a decoded JSON value, the
    conversion that turns a submitted score into the stored integer.
    Strings follow CPython's base-10 rules: surrounding whitespace is
    ignored, one optional sign, decimal digits with single underscores
    allowed between digits, and at most `MaxStrDigits` digits. */
module PyInt {
  import opened JsonValue

  datatype Option<T> = None | Some(value: T)

  /** The characters `int()` ignores before and after the number: the
      ASCII whitespace ' ', '\t', '\n', '\v', '\f', '\r', and the
      non-ASCII characters Python counts as whitespace, which `int()` first
      turns into ' '. The ASCII separators U+001C to U+001F are passed on
      unchanged and are not skipped. */
  predicate IsSpace(c: char)
  {
    || ('\t' <= c <= '\r')
    || c == ' ' || c == '\U{85}' || c == '\U{A0}' || c == '\U{1680}'
    || ('\U{2000}' <= c <= '\U{200A}')
    || c == '\U{2028}' || c == '\U{2029}' || c == '\U{202F}'
    || c == '\U{205F}' || c == '\U{3000}'
  }

  predicate IsDigit(c: char)
  {
    '0' <= c <= '9'
  }

  /** `s` without its leading whitespace. */
  function TrimStart(s: string): (t: string)
    ensures |t| <= |s| && t == s[|s| - |t|..]
    ensures forall i | 0 <= i < |s| - |t| :: IsSpace(s[i])
    ensures t != [] ==> !IsSpace(t[0])
  {
    if s != [] && IsSpace(s[0]) then TrimStart(s[1..]) else s
  }

  /** `s` without its trailing whitespace. */
  function TrimEnd(s: string): (t: string)
    ensures |t| <= |s| && t == s[..|t|]
    ensures forall i | |t| <= i < |s| :: IsSpace(s[i])
    ensures t != [] ==> !IsSpace(t[|t| - 1])
  {
    if s != [] && IsSpace(s[|s| - 1]) then TrimEnd(s[..|s| - 1]) else s
  }

  function Strip(s: string): string
  {
    TrimEnd(TrimStart(s))
  }

  predicate DigitsOrUnderscores(s: string)
  {
    forall i | 0 <= i < |s| :: IsDigit(s[i]) || s[i] == '_'
  }

  /** A run of decimal digits in which each underscore stands between two
      digits. */
  predicate IsDigitRun(s: string)
  {
    && s != []
    && IsDigit(s[0])
    && IsDigit(s[|s| - 1])
    && DigitsOrUnderscores(s)
    && (forall i | 0 <= i < |s| - 1 :: s[i] == '_' ==> s[i + 1] != '_')
  }

  /** The number of decimal digits in `s`, leading zeros included. */
  function DigitCount(s: string): nat
  {
    if s == [] then 0
    else DigitCount(s[..|s| - 1]) + (if IsDigit(s[|s| - 1]) then 1 else 0)
  }

  /** CPython's default limit (`sys.get_int_max_str_digits()`, in 3.11 on
      and in the 3.10.7, 3.9.14, 3.8.14 and 3.7.14 security releases) on
      the digits `int()` converts from a string. */
  const MaxStrDigits: nat := 4300

  /** The decimal value of the digits of `s`, underscores skipped. */
  function DigitsValue(s: string): nat
    requires DigitsOrUnderscores(s)
  {
    if s == [] then 0
    else if s[|s| - 1] == '_' then DigitsValue(s[..|s| - 1])
    else 10 * DigitsValue(s[..|s| - 1]) + (s[|s| - 1] as int - '0' as int)
  }

  /** `int(s)` for a string `s`; `None` is the `ValueError` Python raises. */
  function ParseInt(s: string): Option<int>
  {
    ParseSigned(Strip(s))
  }

  /** `int()` on a string whose surrounding whitespace is already gone. */
  function ParseSigned(t: string): Option<int>
  {
    if t != [] && (t[0] == '+' || t[0] == '-') then
      var body := t[1..];
      if IsDigitRun(body) && DigitCount(body) <= MaxStrDigits then
        var v: int := DigitsValue(body);
        Some(if t[0] == '-' then -v else v)
      else None
    else if IsDigitRun(t) && DigitCount(t) <= MaxStrDigits then Some(DigitsValue(t))
    else None
  }

  /** `int(v)` for a decoded JSON value; `None` is the `TypeError` or
      `ValueError` Python raises. `int(True)` is 1 and `int(False)` is 0. */
  function ToInt(v: Json): Option<int>
  {
    match v
    case JNull => None
    case JBool(b) => Some(if b then 1 else 0)
    case JInt(i) => Some(i)
    case JStr(s) => ParseInt(s)
    case JArray(_) => None
    case JObject(_) => None
  }

  function DigitChar(d: nat): char
    requires d < 10
  {
    ('0' as int + d) as char
  }

  /** Python's `str(n)` for a non-negative `n`. */
  function Natural(n: nat): string
  {
    if n < 10 then [DigitChar(n)] else Natural(n / 10) + [DigitChar(n % 10)]
  }

  /** Python's `str(n)`: the canonical decimal spelling of an integer. */
  function Decimal(n: int): string
  {
    if n < 0 then "-" + Natural(-n) else Natural(n)
  }

  lemma {:induction false} NaturalIsDigits(n: nat)
    ensures Natural(n) != []
    ensures forall i | 0 <= i < |Natural(n)| :: IsDigit(Natural(n)[i])
  {
    if n >= 10 {
      NaturalIsDigits(n / 10);
    }
  }

  lemma {:induction false} NaturalValue(n: nat)
    ensures DigitsOrUnderscores(Natural(n))
    ensures DigitsValue(Natural(n)) == n
  {
    NaturalIsDigits(n);
    var s := Natural(n);
    if n >= 10 {
      NaturalValue(n / 10);
      assert s[..|s| - 1] == Natural(n / 10);
    } else {
      assert s[..|s| - 1] == [];
    }
  }

  lemma {:induction false} DigitCountOfDigits(s: string)
    requires forall i | 0 <= i < |s| :: IsDigit(s[i])
    ensures DigitCount(s) == |s|
  {
    if s != [] {
      DigitCountOfDigits(s[..|s| - 1]);
    }
  }

  lemma {:induction false} TrimStartSpaces(pad: string, s: string)
    requires forall i | 0 <= i < |pad| :: IsSpace(pad[i])
    requires s != [] && !IsSpace(s[0])
    ensures TrimStart(pad + s) == s
  {
    if pad != [] {
      assert (pad + s)[1..] == pad[1..] + s;
      TrimStartSpaces(pad[1..], s);
    } else {
      assert pad + s == s;
    }
  }

  lemma {:induction false} TrimEndSpaces(s: string, pad: string)
    requires forall i | 0 <= i < |pad| :: IsSpace(pad[i])
    requires s != [] && !IsSpace(s[|s| - 1])
    ensures TrimEnd(s + pad) == s
  {
    if pad != [] {
      var p := pad[..|pad| - 1];
      assert (s + pad)[..|s + pad| - 1] == s + p;
      TrimEndSpaces(s, p);
    } else {
      assert s + pad == s;
    }
  }

  lemma StripPadded(before: string, d: string, after: string)
    requires forall i | 0 <= i < |before| :: IsSpace(before[i])
    requires forall i | 0 <= i < |after| :: IsSpace(after[i])
    requires d != [] && !IsSpace(d[0]) && !IsSpace(d[|d| - 1])
    ensures Strip(before + d + after) == d
  {
    TrimStartSpaces(before, d + after);
    assert before + d + after == before + (d + after);
    TrimEndSpaces(d, after);
  }

  lemma ParseSignedDecimal(n: int)
    requires |Natural(if n < 0 then -n else n)| <= MaxStrDigits
    ensures var d := Decimal(n); d != [] && !IsSpace(d[0]) && !IsSpace(d[|d| - 1])
    ensures ParseSigned(Decimal(n)) == Some(n)
  {
    var d := Decimal(n);
    var m: nat := if n < 0 then -n else n;
    NaturalIsDigits(m);
    NaturalValue(m);
    DigitCountOfDigits(Natural(m));
    assert d[|d| - 1] == Natural(m)[|Natural(m)| - 1];
    if n < 0 {
      assert d[1..] == Natural(m);
    }
  }

  /** Round trip: `int()` reads back the decimal spelling of every integer
      of at most `MaxStrDigits` digits, also with whitespace around it. */
  lemma ParseDecimal(before: string, n: int, after: string)
    requires |Natural(if n < 0 then -n else n)| <= MaxStrDigits
    requires forall i | 0 <= i < |before| :: IsSpace(before[i])
    requires forall i | 0 <= i < |after| :: IsSpace(after[i])
    ensures ParseInt(before + Decimal(n) + after) == Some(n)
    ensures ToInt(JStr(before + Decimal(n) + after)) == Some(n)
  {
    ParseSignedDecimal(n);
    StripPadded(before, Decimal(n), after);
  }

  /** Every character of a string that `int()` accepts is whitespace, a
      sign, a digit or an underscore: a string holding anything else, a
      letter say, is refused. */
  lemma ParsedCharsAreNumeric(s: string)
    requires ParseInt(s).Some?
    ensures forall i | 0 <= i < |s| ::
      IsSpace(s[i]) || IsDigit(s[i]) || s[i] == '+' || s[i] == '-' || s[i] == '_'
  {
    var u := TrimStart(s);
    var t := TrimEnd(u);
    var lead := |s| - |u|;
    forall i | 0 <= i < |s|
      ensures IsSpace(s[i]) || IsDigit(s[i]) || s[i] == '+' || s[i] == '-' || s[i] == '_'
    {
      if lead <= i && i - lead < |t| {
        var j := i - lead;
        assert s[i] == u[j] == t[j];
        if t[0] == '+' || t[0] == '-' {
          if j > 0 {
            assert t[j] == t[1..][j - 1];
          }
        }
      } else if lead <= i {
        assert s[i] == u[i - lead];
      }
    }
  }

  /** A string `int()` accepts has at most `MaxStrDigits` digits once its
      surrounding whitespace is gone, leading zeros counted: a score of
      4300 zeros followed by 5 is refused. */
  lemma ParsedDigitLimit(s: string)
    requires ParseInt(s).Some?
    ensures DigitCount(Strip(s)) <= MaxStrDigits
  {
    var t := Strip(s);
    if t != [] && (t[0] == '+' || t[0] == '-') {
      DigitCountSign(t);
    }
  }

  lemma DigitCountSign(t: string)
    requires t != [] && !IsDigit(t[0])
    ensures DigitCount(t) == DigitCount(t[1..])
    decreases |t|
  {
    if |t| > 1 {
      assert t[..|t| - 1][1..] == t[1..][..|t| - 2];
      DigitCountSign(t[..|t| - 1]);
    } else {
      assert t[..|t| - 1] == [];
    }
  }

  /** `int()` on the non-string JSON kinds: a bool converts to 1 or 0, an
      integer to itself; `None`, a list and a dict are refused. */
  lemma ToIntNonStrings(i: int, items: seq<Json>, fields: map<string, Json>)
    ensures ToInt(JBool(true)) == Some(1) && ToInt(JBool(false)) == Some(0)
    ensures ToInt(JInt(i)) == Some(i)
    ensures ToInt(JNull) == None && ToInt(JArray(items)) == None && ToInt(JObject(fields)) == None
  {
  }
}
