/**
  The slice of Python's object model that the backend relies on: the values a
  decoded JSON body can hold, truthiness, `str()`, `str.strip()`,
  `str.startswith()`, `dict.get` and `dict[key]`; of these only `dict.get` on
  a non-dict and `dict[key]` on a missing key raise.
 */
module PyValues {
  import opened Basics

  /** A Python value as produced by `json.loads` (numbers restricted to integers). */
  datatype Value =
    | Null
    | Bool(b: bool)
    | Num(n: int)
    | Str(s: string)
    | List(items: seq<Value>)
    | Dict(fields: map<string, Value>)

  /** The result of evaluating a Python expression that may raise. */
  datatype Eval = Raised | Returned(value: Value) {
    predicate IsFailure() { Raised? }

    function PropagateFailure(): Eval
      requires Raised?
    {
      Raised
    }

    function Extract(): Value
      requires Returned?
    {
      value
    }
  }

  /** Python's `bool(v)`: None, False, 0 and empty containers are false. */
  predicate Truthy(v: Value) {
    match v
    case Null => false
    case Bool(b) => b
    case Num(n) => n != 0
    case Str(s) => s != ""
    case List(items) => items != []
    case Dict(fields) => fields != map[]
  }

  /** Python's `type(v).__name__`. */
  function TypeName(v: Value): string {
    match v
    case Null => "NoneType"
    case Bool(_) => "bool"
    case Num(_) => "int"
    case Str(_) => "str"
    case List(_) => "list"
    case Dict(_) => "dict"
  }

  function DigitChar(d: nat): char
    requires d < 10
  {
    ('0' as int + d) as char
  }

  predicate AllDigits(s: string) {
    forall i :: 0 <= i < |s| ==> '0' <= s[i] <= '9'
  }

  /** The number a string of decimal digits denotes, most significant first. */
  function DigitsValue(s: string): nat
    requires AllDigits(s)
  {
    if s == [] then 0
    else 10 * DigitsValue(s[..|s| - 1]) + (s[|s| - 1] as int - '0' as int)
  }

  /**
    Decimal digits of a natural number, most significant first, as `str()`
    writes them: at least one digit and no leading zero except for 0 itself.
   */
  function Decimal(n: nat): (r: string)
    ensures |r| >= 1 && AllDigits(r)
    ensures r[0] == '0' ==> n == 0 && r == "0"
  {
    if n < 10 then [DigitChar(n)] else Decimal(n / 10) + [DigitChar(n % 10)]
  }

  /** Reading the digits of `Decimal(n)` back gives `n`. */
  lemma {:induction false} DecimalValue(n: nat)
    ensures DigitsValue(Decimal(n)) == n
  {
    if n >= 10 {
      var d := Decimal(n / 10);
      assert (d + [DigitChar(n % 10)])[..|d|] == d;
      DecimalValue(n / 10);
    }
  }

  /** Python's `str(v)` as used by an f-string; containers are only sketched. */
  function PyStr(v: Value): string {
    match v
    case Null => "None"
    case Bool(b) => if b then "True" else "False"
    case Num(n) => if n < 0 then "-" + Decimal(-n) else Decimal(n)
    case Str(s) => s
    case List(_) => "[...]"
    case Dict(_) => "{...}"
  }

  /** The characters `str.strip()` removes: those for which `str.isspace()` holds. */
  predicate IsSpace(c: char) {
    var n := c as int;
    (9 <= n <= 13) || (28 <= n <= 32) || n == 0x85 || n == 0xA0 || n == 0x1680
    || (0x2000 <= n <= 0x200A) || n == 0x2028 || n == 0x2029 || n == 0x202F
    || n == 0x205F || n == 0x3000
  }

  predicate AllSpace(s: string) {
    forall i :: 0 <= i < |s| ==> IsSpace(s[i])
  }

  /** The index of the first non-space character of `s` from `i` on, or `|s|`. */
  function SkipSpaces(s: string, i: nat): (k: nat)
    requires i <= |s|
    ensures i <= k <= |s|
    ensures forall j :: i <= j < k ==> IsSpace(s[j])
    ensures k < |s| ==> !IsSpace(s[k])
    decreases |s| - i
  {
    if i == |s| || !IsSpace(s[i]) then i else SkipSpaces(s, i + 1)
  }

  /** One past the last non-space character of `s[lo..e]`, or `lo` when there is none. */
  function SkipSpacesBack(s: string, lo: nat, e: nat): (k: nat)
    requires lo <= e <= |s|
    ensures lo <= k <= e
    ensures forall j :: k <= j < e ==> IsSpace(s[j])
    ensures k > lo ==> !IsSpace(s[k - 1])
    decreases e
  {
    if e == lo || !IsSpace(s[e - 1]) then e else SkipSpacesBack(s, lo, e - 1)
  }

  /**
    `str.strip()`: `s` with its leading and trailing spaces removed, that is the
    slice of `s` between two all-space margins, with no space at either end.
   */
  function Strip(s: string): (r: string)
    ensures |r| <= |s|
    ensures exists i :: 0 <= i <= |s| - |r| && r == s[i..i + |r|] && AllSpace(s[..i]) && AllSpace(s[i + |r|..])
    ensures r == [] <==> AllSpace(s)
    ensures r != [] ==> !IsSpace(r[0]) && !IsSpace(r[|r| - 1])
  {
    var i := SkipSpaces(s, 0);
    var e := SkipSpacesBack(s, i, |s|);
    StripMargins(s, i, e);
    s[i..e]
  }

  /**
    Cutting `s` just before its first non-space character and just after its
    last one leaves all-space margins, and nothing at all exactly when `s` is
    blank.
   */
  lemma {:induction false} StripMargins(s: string, i: nat, e: nat)
    requires i <= e <= |s|
    requires forall j :: 0 <= j < i ==> IsSpace(s[j])
    requires forall j :: e <= j < |s| ==> IsSpace(s[j])
    requires i < |s| ==> !IsSpace(s[i])
    requires e > i ==> !IsSpace(s[e - 1])
    ensures AllSpace(s[..i]) && AllSpace(s[e..])
    ensures s[i..e] == [] <==> AllSpace(s)
    ensures s[i..e] != [] ==> !IsSpace(s[i..e][0]) && !IsSpace(s[i..e][e - i - 1])
  {
    assert forall j :: 0 <= j < i ==> s[..i][j] == s[j];
    assert forall j :: 0 <= j < |s| - e ==> s[e..][j] == s[e + j];
  }

  /** `s.startswith(p)`. */
  predicate StartsWith(s: string, p: string) {
    |p| <= |s| && s[..|p|] == p
  }

  /**
    Stripping a string that starts with a prefix whose last character is not a
    space keeps that prefix: leading spaces cannot precede it and trailing
    spaces cannot reach into it.
   */
  lemma {:induction false} StripKeepsPrefix(s: string, p: string)
    requires StartsWith(s, p)
    requires p != [] && !IsSpace(p[0]) && !IsSpace(p[|p| - 1])
    ensures StartsWith(Strip(s), p)
  {
    var i := SkipSpaces(s, 0);
    var e := SkipSpacesBack(s, i, |s|);
    assert s[0] == p[0];
    assert i == 0;
    assert s[|p| - 1] == p[|p| - 1];
    assert |p| <= e;
    assert Strip(s)[..|p|] == s[..|p|];
  }

  /** `obj.get(key)`: raises unless `obj` is a dict; a missing key gives None. */
  function DictGet(obj: Value, key: string): (r: Eval)
    ensures r.Raised? <==> !obj.Dict?
    ensures r.Returned? ==> r.value == ValueOr(Field(obj, key), Null)
  {
    match obj
    case Dict(fields) => Returned(if key in fields then fields[key] else Null)
    case _ => Raised
  }

  /** `obj[key]` with a string key: raises unless `obj` is a dict holding `key`. */
  function Subscript(obj: Value, key: string): (r: Eval)
    ensures r.Raised? <==> Field(obj, key).None?
    ensures r.Returned? ==> Field(obj, key) == Some(r.value)
  {
    if obj.Dict? && key in obj.fields then Returned(obj.fields[key]) else Raised
  }

  /** The value at `key` of a dict, absent for a missing key or a non-dict. */
  function Field(obj: Value, key: string): Option<Value> {
    if obj.Dict? && key in obj.fields then Some(obj.fields[key]) else None
  }

  function ValueOr(o: Option<Value>, default: Value): Value {
    match o
    case Some(v) => v
    case None => default
  }
}
