/**
 * The payloads that travel through the remote store (the session snapshot and
 * the guest's input), as JSON-like values, together with the two JavaScript
 * conversions the core applies to them: property access (`v.key`, which is
 * `undefined` unless `v` is an object holding `key`) and `Number(v)`.
 */
module Json {
  import opened Options
  import opened Decimal

  /** Numbers are integers here: every number the game writes is an integer count of cells or milliseconds. */
  datatype JsonValue =
    | Null
    | Bool(b: bool)
    | Num(n: int)
    | Str(s: string)
    | Arr(items: seq<JsonValue>)
    | Obj(fields: map<string, JsonValue>)

  /**
   * `v.key`, where `None` stands for `undefined`. Only objects have the
   * properties the core looks up: arrays, strings, numbers and booleans yield
   * `undefined` for every one of those names.
   */
  function Get(v: Option<JsonValue>, key: string): Option<JsonValue> {
    if v.Some? && v.value.Obj? && key in v.value.fields then Some(v.value.fields[key]) else None
  }

  /**
   * `if (v)`: `undefined`, `null`, `false`, `0` and `""` are falsy. Every object
   * is truthy, and so only a value without properties is ever skipped.
   */
  function Truthy(v: Option<JsonValue>): (r: bool)
    ensures v.Some? && v.value.Obj? ==> r
    ensures !r ==> forall key :: Get(v, key) == None
  {
    match v
    case None => false
    case Some(Null) => false
    case Some(Bool(b)) => b
    case Some(Num(n)) => n != 0
    case Some(Str(s)) => s != ""
    case Some(Arr(_)) => true
    case Some(Obj(_)) => true
  }

  /** The characters `Number(s)` strips before reading a string (StrWhiteSpaceChar of ECMA-262). */
  predicate IsJsWhitespace(c: char) {
    c == '\t' || c == '\n' || c == '\U{B}' || c == '\U{C}' || c == '\r' || c == ' '
    || c == '\U{A0}' || c == '\U{1680}' || ('\U{2000}' <= c <= '\U{200A}')
    || c == '\U{2028}' || c == '\U{2029}' || c == '\U{202F}' || c == '\U{205F}'
    || c == '\U{3000}' || c == '\U{FEFF}'
  }

  function TrimStart(s: string): (r: string)
    ensures |r| <= |s| && r == s[|s| - |r|..]
    ensures r != [] ==> !IsJsWhitespace(r[0])
  {
    if s != [] && IsJsWhitespace(s[0]) then TrimStart(s[1..]) else s
  }

  function TrimEnd(s: string): (r: string)
    ensures |r| <= |s| && r == s[..|r|]
    ensures r != [] ==> !IsJsWhitespace(r[|r| - 1])
  {
    if s != [] && IsJsWhitespace(s[|s| - 1]) then TrimEnd(s[..|s| - 1]) else s
  }

  function Trim(s: string): string {
    TrimEnd(TrimStart(s))
  }

  /**
   * `Number(s)` for a string; `None` is NaN. Surrounding white space is
   * ignored, an empty or blank string is 0, and an optionally signed run of
   * decimal digits is read as an integer.
   */
  function StringToNumber(s: string): (r: Option<int>)
    ensures Trim(s) == [] ==> r == Some(0)
    ensures Trim(s) != [] && !IsDigit(Trim(s)[|Trim(s)| - 1]) ==> r == None
    ensures r.Some? && r.value < 0 ==> Trim(s)[0] == '-'
  {
    var t := Trim(s);
    if t == [] then Some(0)
    else if t[0] == '-' && |t| > 1 && AllDigits(t[1..]) then Some(-(DigitsValue(t[1..]) as int))
    else if t[0] == '+' && |t| > 1 && AllDigits(t[1..]) then Some(DigitsValue(t[1..]))
    else if AllDigits(t) then Some(DigitsValue(t))
    else None
  }

  /**
   * `Number(v)`; `None` is NaN, and `undefined` is NaN too. An array is read
   * through its string form, the elements joined by commas: the empty array
   * is "" (0), an array of two or more elements contains a comma (NaN), and
   * a one-element array reads as its element's string, where `null` is "".
   */
  function ToNumber(v: Option<JsonValue>): (r: Option<int>)
    ensures v.None? ==> r == None
    ensures v.Some? && v.value.Obj? ==> r == None
    ensures v.Some? && v.value.Num? ==> r == Some(v.value.n)
    ensures v.Some? && v.value.Arr? && |v.value.items| > 1 ==> r == None
    ensures v.Some? && v.value.Arr? && |v.value.items| == 1 && v.value.items[0].Num? ==> r == Some(v.value.items[0].n)
    decreases if v.Some? then v.value else Null, if v.Some? then 1 else 0
  {
    match v
    case None => None
    case Some(Null) => Some(0)
    case Some(Bool(b)) => Some(if b then 1 else 0)
    case Some(Num(n)) => Some(n)
    case Some(Str(s)) => StringToNumber(s)
    case Some(Obj(_)) => None
    case Some(Arr(xs)) =>
      if |xs| == 0 then Some(0)
      else if |xs| > 1 then None
      else match xs[0]
        case Null => Some(0)
        case Bool(_) => None
        case _ => ToNumber(Some(xs[0]))
  }

  /** `Number(v) || 0`: NaN (and 0) become 0. */
  function NumberOrZero(v: Option<JsonValue>): (r: int)
    ensures ToNumber(v) == None ==> r == 0
    ensures v.None? ==> r == 0
    ensures v.Some? && v.value.Num? ==> r == v.value.n
    ensures v.Some? && v.value.Str? && StringToNumber(v.value.s) == None ==> r == 0
  {
    match ToNumber(v)
    case Some(n) => n
    case None => 0
  }

  /** Trimming leaves alone a string that neither starts nor ends with white space. */
  lemma TrimKeepsInner(t: string)
    requires t != [] && !IsJsWhitespace(t[0]) && !IsJsWhitespace(t[|t| - 1])
    ensures Trim(t) == t
  {
    assert TrimStart(t) == t;
  }

  /** A digit string reads back as its value. */
  lemma DigitsReadBack(d: string)
    requires d != [] && AllDigits(d)
    ensures StringToNumber(d) == Some(DigitsValue(d))
  {
    assert IsDigit(d[0]) && IsDigit(d[|d| - 1]);
    TrimKeepsInner(d);
  }

  /** A minus sign followed by a digit string reads back as the negated value. */
  lemma NegatedDigitsReadBack(d: string)
    requires d != [] && AllDigits(d)
    ensures StringToNumber("-" + d) == Some(-(DigitsValue(d) as int))
  {
    var t := "-" + d;
    assert t[1..] == d && t[|t| - 1] == d[|d| - 1];
    assert IsDigit(d[|d| - 1]) && !IsJsWhitespace('-');
    TrimKeepsInner(t);
  }

  /** A number published as its decimal string reads back as the same number. */
  lemma IntToStringReadsBack(n: int)
    ensures StringToNumber(IntToString(n)) == Some(n)
  {
    var m: nat := if n < 0 then -n else n;
    NatToStringRoundTrip(m);
    if n < 0 {
      NegatedDigitsReadBack(NatToString(m));
    } else {
      DigitsReadBack(NatToString(m));
    }
  }
}
