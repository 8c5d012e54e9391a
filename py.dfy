/**
 * The Python value semantics the agent code relies on: JSON values as
 * `json.loads` returns them, truthiness, `dict.get`, `float()` / `int()`
 * conversions, `str.strip()`, `str.lower()`, `str.split()`, `" ".join`,
 * slicing, `str()` rendering and hashing of dictionary keys.
 * A Python exception raised by the modelled code is the outcome `Raised`.
 */
module Py {

  datatype Option<T> = None | Some(value: T)

  /** The result of Python code that may raise an exception. */
  datatype Outcome<T> = Ok(value: T) | Raised

  /** A JSON value; `Real` is a Python float taken as an exact rational. */
  datatype Value =
    | Null
    | Bool(b: bool)
    | Int(i: int)
    | Real(r: real)
    | Str(s: string)
    | Arr(items: seq<Value>)
    | Obj(fields: map<string, Value>)

  /** `type(v).__name__` for a decoded JSON value. */
  function TypeName(v: Value): string {
    match v
    case Null => "NoneType"
    case Bool(_) => "bool"
    case Int(_) => "int"
    case Real(_) => "float"
    case Str(_) => "str"
    case Arr(_) => "list"
    case Obj(_) => "dict"
  }

  /** A value a Python dict or set can hold as a key. Python hashes
      `True`, `1` and `1.0` alike, so all numbers share `KNum`. */
  datatype Key = KNone | KNum(r: real) | KStr(s: string) | KTuple(parts: seq<real>)

  function Max(a: int, b: int): int { if a < b then b else a }
  function Min(a: int, b: int): int { if a < b then a else b }

  // ---------------------------------------------------------------- truthiness

  /** Python `bool(v)`. */
  predicate Truthy(v: Value) {
    match v
    case Null => false
    case Bool(b) => b
    case Int(i) => i != 0
    case Real(r) => r != 0.0
    case Str(s) => s != ""
    case Arr(items) => items != []
    case Obj(fields) => fields != map[]
  }

  /** Python `v or d`. */
  function Or(v: Value, d: Value): (r: Value)
    ensures Truthy(v) ==> r == v
    ensures !Truthy(v) ==> r == d
  {
    if Truthy(v) then v else d
  }

  /** Python `m.get(k, default)`. */
  function Get(m: map<string, Value>, k: string, default: Value): (r: Value)
    ensures k in m ==> r == m[k]
    ensures k !in m ==> r == default
  {
    if k in m then m[k] else default
  }

  /** Python `hash(v)` succeeds for scalars and fails (TypeError) for lists and dicts. */
  function HashKey(v: Value): (r: Outcome<Key>)
    ensures r.Raised? <==> v.Arr? || v.Obj?
  {
    match v
    case Null => Ok(KNone)
    case Bool(b) => Ok(KNum(if b then 1.0 else 0.0))
    case Int(i) => Ok(KNum(i as real))
    case Real(r) => Ok(KNum(r))
    case Str(s) => Ok(KStr(s))
    case Arr(_) => Raised
    case Obj(_) => Raised
  }

  // ---------------------------------------------------------------- sequences

  /** Python `s[:n]`, including a negative `n` counted from the end. */
  function Prefix<T>(s: seq<T>, n: int): (r: seq<T>)
    ensures |r| <= |s| && r == s[..|r|]
    ensures 0 <= n ==> |r| == Min(n, |s|)
  {
    if 0 <= n then (if n <= |s| then s[..n] else s)
    else if 0 <= |s| + n then s[..|s| + n]
    else []
  }

  /** Python `s[n:]` for `n >= 0`. */
  function Drop<T>(s: seq<T>, n: nat): (r: seq<T>)
    ensures |r| == Max(0, |s| - n)
    ensures forall i :: 0 <= i < |r| ==> r[i] == s[n + i]
  {
    if n <= |s| then s[n..] else []
  }

  /** `v[:n]` on a JSON value: strings and lists slice, anything else raises. */
  function SliceValue(v: Value, n: int): (r: Outcome<Value>)
    ensures r.Ok? <==> v.Str? || v.Arr?
    ensures v.Arr? && 0 <= n ==> r.Ok? && r.value.Arr? && |r.value.items| <= n
    ensures v.Str? && 0 <= n ==> r.Ok? && r.value.Str? && |r.value.s| <= n
  {
    match v
    case Str(s) => Ok(Str(Prefix(s, n)))
    case Arr(items) => Ok(Arr(Prefix(items, n)))
    case _ => Raised
  }

  function StrValues(ss: seq<string>): (r: seq<Value>)
    ensures |r| == |ss|
    ensures forall i :: 0 <= i < |ss| ==> r[i] == Str(ss[i])
  {
    seq(|ss|, i requires 0 <= i < |ss| => Str(ss[i]))
  }

  // ---------------------------------------------------------------- strings

  /** The characters `str.strip()` and `str.split()` treat as whitespace. */
  predicate IsSpace(c: char) {
    ('\t' <= c <= '\r') || ('\U{1c}' <= c <= ' ') || c == '\U{85}' || c == '\U{a0}'
    || c == '\U{1680}' || ('\U{2000}' <= c <= '\U{200a}') || c == '\U{2028}'
    || c == '\U{2029}' || c == '\U{202f}' || c == '\U{205f}' || c == '\U{3000}'
  }

  predicate NoSpace(s: string) {
    forall i :: 0 <= i < |s| ==> !IsSpace(s[i])
  }

  /** `s.lstrip(chars)` with the characters to drop given as a predicate. */
  function TrimStart(s: string, drop: char -> bool): (r: string)
    ensures |r| <= |s| && r == s[|s| - |r|..]
    ensures r != [] ==> !drop(r[0])
    ensures forall i :: 0 <= i < |s| - |r| ==> drop(s[i])
  {
    if s != [] && drop(s[0]) then
      var r := TrimStart(s[1..], drop);
      assert forall i :: 1 <= i < |s| ==> s[i] == s[1..][i - 1];
      r
    else s
  }

  /** `s.rstrip(chars)` with the characters to drop given as a predicate. */
  function TrimEnd(s: string, drop: char -> bool): (r: string)
    ensures |r| <= |s| && r == s[..|r|]
    ensures r != [] ==> !drop(r[|r| - 1])
    ensures forall i :: |r| <= i < |s| ==> drop(s[i])
  {
    if s != [] && drop(s[|s| - 1]) then TrimEnd(s[..|s| - 1], drop) else s
  }

  lemma {:induction false} TrimStartKeeps(s: string, drop: char -> bool)
    requires s != [] && !drop(s[0])
    ensures TrimStart(s, drop) == s
  {
  }

  lemma {:induction false} TrimEndKeeps(s: string, drop: char -> bool)
    requires s != [] && !drop(s[|s| - 1])
    ensures TrimEnd(s, drop) == s
  {
  }

  /** A dropped character in front is skipped. */
  lemma {:induction false} TrimStartSkips(c: char, t: string, drop: char -> bool)
    requires drop(c)
    ensures TrimStart([c] + t, drop) == TrimStart(t, drop)
  {
    assert ([c] + t)[1..] == t;
  }

  /** A dropped character at the end is skipped. */
  lemma {:induction false} TrimEndSkips(t: string, c: char, drop: char -> bool)
    requires drop(c)
    ensures TrimEnd(t + [c], drop) == TrimEnd(t, drop)
  {
    assert (t + [c])[..|t|] == t;
  }

  /** Python `s.strip()`. */
  function Strip(s: string): string {
    TrimEnd(TrimStart(s, IsSpace), IsSpace)
  }

  predicate Stripped(s: string) {
    s == [] || (!IsSpace(s[0]) && !IsSpace(s[|s| - 1]))
  }

  lemma {:induction false} StripStripped(s: string)
    ensures Stripped(Strip(s))
    ensures |Strip(s)| <= |s|
  {
    var t := TrimStart(s, IsSpace);
    var r := TrimEnd(t, IsSpace);
    if r != [] {
      assert r[0] == t[0];
    }
  }

  lemma {:induction false} StripIdempotent(s: string)
    requires Stripped(s)
    ensures Strip(s) == s
  {
    assert TrimStart(s, IsSpace) == s;
  }

  /** Stripping drops one leading whitespace character in front of stripped text. */
  lemma {:induction false} StripLeadingSpace(c: char, t: string)
    requires IsSpace(c) && t != [] && Stripped(t)
    ensures Strip([c] + t) == t
  {
    TrimStartSkips(c, t, IsSpace);
    TrimStartKeeps(t, IsSpace);
    TrimEndKeeps(t, IsSpace);
  }

  /** Stripping drops one trailing whitespace character after stripped text. */
  lemma {:induction false} StripTrailingSpace(t: string, c: char)
    requires IsSpace(c) && t != [] && Stripped(t)
    ensures Strip(t + [c]) == t
  {
    assert (t + [c])[0] == t[0];
    TrimStartKeeps(t + [c], IsSpace);
    TrimEndSkips(t, c, IsSpace);
    TrimEndKeeps(t, IsSpace);
  }

  /** Stripping twice is stripping once. */
  lemma {:induction false} StripTwice(s: string)
    ensures Strip(Strip(s)) == Strip(s)
  {
    StripStripped(s);
    StripIdempotent(Strip(s));
  }

  /** ASCII `str.lower()`. */
  function LowerChar(c: char): char {
    if 'A' <= c <= 'Z' then (c as int + 32) as char else c
  }

  function Lower(s: string): (r: string)
    ensures |r| == |s|
    ensures forall i :: 0 <= i < |s| ==> r[i] == LowerChar(s[i])
  {
    seq(|s|, i requires 0 <= i < |s| => LowerChar(s[i]))
  }

  /** Python `s.startswith(p)`. */
  predicate StartsWith(s: string, p: string) {
    |p| <= |s| && s[..|p|] == p
  }

  /** `s.replace(a, b)` for single characters. */
  function ReplaceChar(s: string, a: char, b: char): (r: string)
    ensures |r| == |s|
    ensures forall i :: 0 <= i < |s| ==> r[i] == (if s[i] == a then b else s[i])
  {
    seq(|s|, i requires 0 <= i < |s| => if s[i] == a then b else s[i])
  }

  /** Length of the leading run of non-whitespace characters. */
  function WordLength(s: string): (n: nat)
    ensures n <= |s|
    ensures s != [] && !IsSpace(s[0]) ==> 1 <= n
    ensures NoSpace(s[..n])
  {
    if s != [] && !IsSpace(s[0]) then
      var m := WordLength(s[1..]);
      assert s[..m + 1] == [s[0]] + s[1..][..m];
      m + 1
    else 0
  }

  /** Python `s.split()`: the maximal runs of non-whitespace characters. */
  function Words(s: string): seq<string>
    decreases |s|
  {
    var t := TrimStart(s, IsSpace);
    if t == [] then []
    else
      var n := WordLength(t);
      [t[..n]] + Words(t[n..])
  }

  lemma {:induction false} WordsAreWords(s: string)
    ensures forall i :: 0 <= i < |Words(s)| ==> Words(s)[i] != [] && NoSpace(Words(s)[i])
    decreases |s|
  {
    var t := TrimStart(s, IsSpace);
    if t != [] {
      var n := WordLength(t);
      WordsAreWords(t[n..]);
      var ws := Words(s);
      assert ws == [t[..n]] + Words(t[n..]);
      forall i | 0 <= i < |ws| ensures ws[i] != [] && NoSpace(ws[i]) {
        if 0 < i {
          assert ws[i] == Words(t[n..])[i - 1];
        }
      }
    }
  }

  /** Python `sep.join(parts)`. */
  function Join(sep: string, parts: seq<string>): string {
    if parts == [] then ""
    else if |parts| == 1 then parts[0]
    else parts[0] + sep + Join(sep, parts[1..])
  }

  /** Python `" ".join(s.split())`. */
  function CollapseSpaces(s: string): string {
    Join(" ", Words(s))
  }

  /** Every whitespace character is a single space between two non-whitespace characters. */
  predicate WellSpaced(s: string) {
    forall i :: 0 <= i < |s| && IsSpace(s[i]) ==>
      s[i] == ' ' && 0 < i < |s| - 1 && !IsSpace(s[i - 1]) && !IsSpace(s[i + 1])
  }

  lemma {:induction false} JoinWords(ws: seq<string>)
    requires forall i :: 0 <= i < |ws| ==> ws[i] != [] && NoSpace(ws[i])
    ensures WellSpaced(Join(" ", ws))
    ensures ws != [] ==> Join(" ", ws) != [] && !IsSpace(Join(" ", ws)[0])
                         && !IsSpace(Join(" ", ws)[|Join(" ", ws)| - 1])
  {
    if |ws| <= 1 {
    } else {
      var w := ws[0];
      var rest := Join(" ", ws[1..]);
      JoinWords(ws[1..]);
      var j := Join(" ", ws);
      assert j == w + " " + rest;
      forall i | 0 <= i < |j| && IsSpace(j[i])
        ensures j[i] == ' ' && 0 < i < |j| - 1 && !IsSpace(j[i - 1]) && !IsSpace(j[i + 1])
      {
        if i == |w| {
          assert j[i - 1] == w[|w| - 1];
          assert j[i + 1] == rest[0];
        } else if |w| < i {
          var k := i - |w| - 1;
          assert j[i] == rest[k];
          assert j[i - 1] == rest[k - 1];
          assert j[i + 1] == rest[k + 1];
        }
      }
      assert j[0] == w[0];
      assert j[|j| - 1] == rest[|rest| - 1];
    }
  }

  /** `" ".join(s.split())` leaves single spaces between words and none at the ends. */
  lemma {:induction false} CollapseWellSpaced(s: string)
    ensures WellSpaced(CollapseSpaces(s))
    ensures Stripped(CollapseSpaces(s))
  {
    WordsAreWords(s);
    JoinWords(Words(s));
  }

  /** Python `s.split(sep)` for a single-character separator. */
  function SplitChar(s: string, sep: char): (parts: seq<string>)
    ensures |parts| >= 1
    ensures |parts[0]| <= |s|
  {
    if s == [] then [""]
    else
      var rest := SplitChar(s[1..], sep);
      if s[0] == sep then [""] + rest
      else [[s[0]] + rest[0]] + rest[1..]
  }

  /** Splitting text without the separator gives the text itself. */
  lemma {:induction false} SplitNoSeparator(s: string, sep: char)
    requires sep !in s
    ensures SplitChar(s, sep) == [s]
  {
    if s != [] {
      assert sep !in s[1..];
      SplitNoSeparator(s[1..], sep);
      assert [s[0]] + s[1..] == s;
    }
  }

  /** The first separator ends the first part. */
  lemma {:induction false} SplitFirst(a: string, b: string, sep: char)
    requires sep !in a
    ensures SplitChar(a + [sep] + b, sep) == [a] + SplitChar(b, sep)
  {
    if a == [] {
      assert ([sep] + b)[1..] == b;
    } else {
      assert (a + [sep] + b)[1..] == a[1..] + [sep] + b;
      assert sep !in a[1..];
      SplitFirst(a[1..], b, sep);
      assert [a[0]] + a[1..] == a;
    }
  }

  // ---------------------------------------------------------------- numbers

  predicate IsDigit(c: char) { '0' <= c <= '9' }

  function DigitValue(c: char): nat requires IsDigit(c) { c as int - '0' as int }

  /** Digits with single underscores between them, as Python's `int()` and `float()` accept. */
  predicate DigitGroups(s: string) {
    s != [] && IsDigit(s[|s| - 1])
    && (|s| == 1 || DigitGroups(s[..|s| - 1]) || (2 < |s| && s[|s| - 2] == '_' && DigitGroups(s[..|s| - 2])))
  }

  /** The number the digits of `s` spell, underscores skipped. */
  function DigitsValue(s: string): nat {
    if s == [] then 0
    else if IsDigit(s[|s| - 1]) then 10 * DigitsValue(s[..|s| - 1]) + DigitValue(s[|s| - 1])
    else DigitsValue(s[..|s| - 1])
  }

  /** The value of the digits of `s` read after a decimal point, underscores skipped. */
  function FractionValue(s: string): real {
    if s == [] then 0.0
    else if IsDigit(s[0]) then (DigitValue(s[0]) as real + FractionValue(s[1..])) / 10.0
    else FractionValue(s[1..])
  }

  predicate AllDigits(s: string) { forall i :: 0 <= i < |s| ==> IsDigit(s[i]) }

  lemma {:induction false} DigitsAreGroups(s: string)
    requires s != [] && AllDigits(s)
    ensures DigitGroups(s)
  {
    if |s| > 1 {
      DigitsAreGroups(s[..|s| - 1]);
    }
  }

  /** A plain run of decimal digits is read by `int()` as the number it spells. */
  lemma {:induction false} ParseDigits(s: string)
    requires s != [] && AllDigits(s)
    ensures ParseInt(s) == Ok(DigitsValue(s))
  {
    assert Stripped(s);
    StripIdempotent(s);
    DigitsAreGroups(s);
  }

  /** Python `int(s)` on a string in base 10. */
  function ParseInt(s: string): Outcome<int> {
    var t := Strip(s);
    if t != [] && (t[0] == '+' || t[0] == '-') then
      var d := t[1..];
      if DigitGroups(d) then Ok(if t[0] == '-' then -(DigitsValue(d) as int) else DigitsValue(d)) else Raised
    else if DigitGroups(t) then Ok(DigitsValue(t))
    else Raised
  }

  /** `int(os.getenv(name, default))`, the variable's value given: None when it is unset. */
  function EnvInt(env: Option<string>, default: string): Outcome<int> {
    match env
    case Some(s) => ParseInt(s)
    case None => ParseInt(default)
  }

  /** An unset variable reads as its default when that is a plain run of digits. */
  lemma {:induction false} EnvIntDefault(default: string)
    requires default != [] && AllDigits(default)
    ensures EnvInt(None, default) == Ok(DigitsValue(default))
  {
    ParseDigits(default);
  }

  /** The unsigned decimal mantissa `digits[.digits]` or `.digits`; both parts may not be empty. */
  function ParseMantissa(s: string): Option<real> {
    var parts := SplitChar(s, '.');
    if |parts| == 1 then
      if DigitGroups(s) then Some(DigitsValue(s) as real) else None
    else if |parts| == 2 then
      var (a, b) := (parts[0], parts[1]);
      if (a == [] && b == []) || (a != [] && !DigitGroups(a)) || (b != [] && !DigitGroups(b)) then None
      else Some(DigitsValue(a) as real + FractionValue(b))
    else None
  }

  /** `m * 10**e`. */
  function Scale10(m: real, e: int): real
    decreases if e < 0 then -e else e
  {
    if e == 0 then m else if e > 0 then 10.0 * Scale10(m, e - 1) else Scale10(m, e + 1) / 10.0
  }

  /** Position of the first exponent marker `e` or `E`. */
  function ExponentMark(s: string): (r: Option<nat>)
    ensures r.Some? ==> r.value < |s|
  {
    if s == [] then None
    else if s[0] == 'e' || s[0] == 'E' then Some(0)
    else match ExponentMark(s[1..]) case None => None case Some(i) => Some(i + 1)
  }

  /** Python `float(s)` for decimal and exponent notation: a sign, a mantissa,
      and an optional exponent after the first `e` (a second `e` makes the
      exponent unparsable). */
  function ParseFloat(s: string): Outcome<real> {
    var t := Strip(s);
    var neg := t != [] && t[0] == '-';
    var body := if t != [] && (t[0] == '+' || t[0] == '-') then t[1..] else t;
    var (mant, exp) := match ExponentMark(body) case None => (body, Some(0)) case Some(i) => (body[..i], ParseExponent(body[i + 1..]));
    match (ParseMantissa(mant), exp)
    case (Some(m), Some(e)) => Ok(if neg then -Scale10(m, e) else Scale10(m, e))
    case _ => Raised
  }

  function ParseExponent(s: string): Option<int> {
    if s != [] && (s[0] == '+' || s[0] == '-') then
      if DigitGroups(s[1..]) then Some(if s[0] == '-' then -(DigitsValue(s[1..]) as int) else DigitsValue(s[1..])) else None
    else if DigitGroups(s) then Some(DigitsValue(s))
    else None
  }

  /** Python `int(x)` of a float: truncation toward zero. */
  function Trunc(r: real): (n: int)
    ensures 0.0 <= r ==> 0 <= n && n as real <= r < n as real + 1.0
    ensures r < 0.0 ==> n <= 0 && n as real - 1.0 < r <= n as real
  {
    if 0.0 <= r then r.Floor else -((-r).Floor)
  }

  /** Python `float(v)`. */
  function ToFloat(v: Value): (r: Outcome<real>)
    ensures v.Int? ==> r == Ok(v.i as real)
    ensures v.Real? ==> r == Ok(v.r)
    ensures v.Null? || v.Arr? || v.Obj? ==> r.Raised?
  {
    match v
    case Bool(b) => Ok(if b then 1.0 else 0.0)
    case Int(i) => Ok(i as real)
    case Real(x) => Ok(x)
    case Str(s) => ParseFloat(s)
    case _ => Raised
  }

  /** Python `int(v)`. */
  function ToInt(v: Value): (r: Outcome<int>)
    ensures v.Int? ==> r == Ok(v.i)
    ensures v.Null? || v.Arr? || v.Obj? ==> r.Raised?
  {
    match v
    case Bool(b) => Ok(if b then 1 else 0)
    case Int(i) => Ok(i)
    case Real(x) => Ok(Trunc(x))
    case Str(s) => ParseInt(s)
    case _ => Raised
  }

  /** Python `round(x, 3)`: to the nearest thousandth, ties to even. */
  function Round3(x: real): (r: real)
    ensures -0.0005 <= r - x <= 0.0005
    ensures (r * 1000.0).Floor as real == r * 1000.0
  {
    var y := x * 1000.0;
    var f := y.Floor;
    var d := y - f as real;
    var n := if d < 0.5 then f else if d > 0.5 then f + 1 else if f % 2 == 0 then f else f + 1;
    assert n as real * 1000.0 / 1000.0 == n as real * 1000.0 / 1000.0;
    n as real / 1000.0
  }

  // ---------------------------------------------------------------- str()

  function DigitChar(d: nat): char requires d < 10 { ('0' as int + d) as char }

  function NatText(n: nat): (s: string)
    ensures s != [] && forall i :: 0 <= i < |s| ==> IsDigit(s[i])
  {
    if n < 10 then [DigitChar(n)] else NatText(n / 10) + [DigitChar(n % 10)]
  }

  /** Python `str(i)` of an int. */
  function IntText(i: int): string {
    if i < 0 then "-" + NatText(-i) else NatText(i)
  }

  /** Python `str(v)`. Integral floats below 10^16 render exactly (`"5.0"`);
      other floats, lists and dicts render as a fixed stand-in. */
  function Render(v: Value): string {
    match v
    case Null => "None"
    case Bool(b) => if b then "True" else "False"
    case Int(i) => IntText(i)
    case Real(x) =>
      if x.Floor as real == x && -10000000000000000.0 < x < 10000000000000000.0 then IntText(x.Floor) + ".0"
      else "<float>"
    case Str(s) => s
    case Arr(_) => "<list>"
    case Obj(_) => "<dict>"
  }

  /** `(v or "").strip()`: a falsy value becomes `""`, a string is stripped,
      anything else has no `strip` method and raises. */
  function StrippedOrEmpty(v: Value): (r: Outcome<string>)
    ensures !Truthy(v) ==> r == Ok("")
    ensures v.Str? ==> r == Ok(Strip(v.s))
    ensures Truthy(v) && !v.Str? ==> r.Raised?
  {
    if !Truthy(v) then Ok("")
    else if v.Str? then Ok(Strip(v.s))
    else Raised
  }
}
