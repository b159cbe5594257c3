/** The few zod checks the request validators are built from, over a small model of
    the JSON value a field may hold. */
module Zod {
  import opened Common
  import opened Text

  /** A field of a request body or query: absent, a JSON number, a string, or anything
      else (null, a boolean, an object, an array where a scalar is expected). */
  datatype Raw = Missing | Num(n: real) | Str(s: string) | Other

  predicate IsInt(x: real) {
    x.Floor as real == x
  }

  /** `z.number().int().positive()` */
  function PositiveInt(v: Raw): (r: Option<nat>)
    ensures r.Some? <==> v.Num? && IsInt(v.n) && v.n > 0.0
    ensures r.Some? ==> r.value > 0 && r.value as real == v.n
  {
    if v.Num? && IsInt(v.n) && v.n > 0.0 then Some(v.n.Floor) else None
  }

  /** `z.number().int().positive().optional()`: the outer `None` is a rejection, the
      inner one an absent field. */
  function OptPositiveInt(v: Raw): (r: Option<Option<nat>>)
    ensures v.Missing? ==> r == Some(None)
    ensures !v.Missing? ==> (r.Some? <==> PositiveInt(v).Some?) && (r.Some? ==> r.value == PositiveInt(v))
  {
    if v.Missing? then Some(None)
    else
      var p := PositiveInt(v);
      if p.Some? then Some(p) else None
  }

  /** `z.number().int()` */
  function Integer(v: Raw): (r: Option<int>)
    ensures r.Some? <==> v.Num? && IsInt(v.n)
    ensures r.Some? ==> r.value as real == v.n
  {
    if v.Num? && IsInt(v.n) then Some(v.n.Floor) else None
  }

  /** `z.number().min(0)` */
  function NonNegative(v: Raw): (r: Option<real>)
    ensures r.Some? <==> v.Num? && v.n >= 0.0
    ensures r.Some? ==> r.value == v.n
  {
    if v.Num? && v.n >= 0.0 then Some(v.n) else None
  }

  /** `z.string()` with a lower and an optional upper bound on the length. */
  function Chars(v: Raw, min: nat, max: Option<nat>): (r: Option<string>)
    ensures r.Some? <==> v.Str? && min <= |v.s| && (max.Some? ==> |v.s| <= max.value)
    ensures r.Some? ==> r.value == v.s
  {
    if v.Str? && min <= |v.s| && (max.None? || |v.s| <= max.value) then Some(v.s) else None
  }

  /** `z.string().optional()`, with an optional upper bound on the length. */
  function OptText(v: Raw, max: Option<nat>): (r: Option<Option<string>>)
    ensures v.Missing? ==> r == Some(None)
    ensures !v.Missing? ==> (r.Some? <==> Chars(v, 0, max).Some?) && (r.Some? ==> r.value == Chars(v, 0, max))
  {
    if v.Missing? then Some(None)
    else
      var t := Chars(v, 0, max);
      if t.Some? then Some(t) else None
  }

  /** `z.array(item)`: the array passes exactly when every element does, and yields
      the parsed elements in order. */
  function AllValid<A, B>(xs: seq<A>, item: A -> Option<B>): (r: Option<seq<B>>)
    ensures r.Some? <==> forall i :: 0 <= i < |xs| ==> item(xs[i]).Some?
    ensures r.Some? ==> |r.value| == |xs| && forall i :: 0 <= i < |xs| ==> r.value[i] == item(xs[i]).value
  {
    if xs == [] then Some([])
    else
      var init := AllValid(xs[..|xs| - 1], item);
      var last := item(xs[|xs| - 1]);
      if init.Some? && last.Some? then Some(init.value + [last.value]) else None
  }

  /** `z.string().transform(v => parseInt(v, 10)).default(d)`: an absent field reads as
      `d`; the inner `None` is `NaN`. */
  function ParsedIntOr(v: Raw, default: string): (r: Option<Option<int>>)
    ensures v.Missing? ==> r == Some(ParseInt(default))
    ensures v.Str? ==> r == Some(ParseInt(v.s))
    ensures r.None? <==> v.Num? || v.Other?
  {
    if v.Missing? then Some(ParseInt(default))
    else if v.Str? then Some(ParseInt(v.s))
    else None
  }

  /** `z.string().transform(v => parseInt(v, 10)).optional()`: the middle `None` is an
      absent field, the inner one `NaN`. */
  function OptParsedInt(v: Raw): (r: Option<Option<Option<int>>>)
    ensures v.Missing? ==> r == Some(None)
    ensures v.Str? ==> r == Some(Some(ParseInt(v.s)))
    ensures r.None? <==> v.Num? || v.Other?
  {
    if v.Missing? then Some(None)
    else if v.Str? then Some(Some(ParseInt(v.s)))
    else None
  }

  /** Whether `s` has the shape of `pattern`, where `#` stands for one decimal digit and
      every other character for itself. */
  predicate Fits(s: string, pattern: string) {
    |s| == |pattern| &&
    forall i :: 0 <= i < |s| ==> if pattern[i] == '#' then IsDigit(s[i]) else s[i] == pattern[i]
  }

  /** The `YYYY-MM-DD` regular expression. */
  predicate IsDateOnly(s: string) {
    Fits(s, "####-##-##")
  }

  /** `z.string().datetime()` with its default options: a UTC timestamp
      `YYYY-MM-DDTHH:MM:SS`, optional fractional seconds, and a final `Z`. */
  predicate IsDatetime(s: string) {
    && |s| >= 20
    && Fits(s[..19], "####-##-##T##:##:##")
    && (s[19..] == "Z" || (|s| >= 22 && s[19] == '.' && s[|s| - 1] == 'Z' && AllDigits(s[20..|s| - 1])))
  }

  /** `z.string().datetime().optional()` */
  function OptDatetime(v: Raw): (r: Option<Option<string>>)
    ensures r == Some(None) <==> v.Missing?
    ensures r.Some? && r.value.Some? <==> v.Str? && IsDatetime(v.s)
    ensures r.Some? && r.value.Some? ==> r.value.value == v.s
  {
    if v.Missing? then Some(None)
    else if v.Str? && IsDatetime(v.s) then Some(Some(v.s))
    else None
  }

  /** The two date forms never overlap: a date alone is too short to be a datetime. */
  lemma DateOnlyIsNotDatetime(s: string)
    requires IsDateOnly(s)
    ensures !IsDatetime(s)
  {
  }

  lemma DatetimeExamples()
    ensures IsDatetime("2024-03-05T14:30:00Z")
    ensures IsDatetime("2024-03-05T14:30:00.125Z")
    ensures !IsDatetime("2024-03-05T14:30:00")
    ensures !IsDatetime("2024-03-05")
    ensures IsDateOnly("2024-03-05")
  {
    var a := "2024-03-05T14:30:00Z";
    assert a[..19] == "2024-03-05T14:30:00";
    assert a[19..] == "Z";
    var b := "2024-03-05T14:30:00.125Z";
    assert b[..19] == "2024-03-05T14:30:00";
    assert |b| == 24 && b[20..23] == "125";
    var c := "2024-03-05T14:30:00";
    assert c[|c| - 1] != 'Z';
  }
}
