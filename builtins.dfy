/** The Python builtins the converters rely on: `str()`, `repr()`, `int()`, `float()`,
    `bool()`, `iter()`, `hash()`, `str.lower()` and the names of types. Only the
    parts that depend on library internals are taken from the `Runtime`. */
module Builtins {
  import opened Values

  /** The type name CPython prints in `TypeError` messages (`tp_name`): the class
      name, qualified by its module for `datetime.datetime`. */
  function TypeName(v: Value): string {
    match v
    case PyNone => "NoneType"
    case PyBool(_) => "bool"
    case PyInt(_) => "int"
    case PyFloat(_) => "float"
    case PyStr(_) => "str"
    case PyDatetime(_) => "datetime.datetime"
    case PyList(_) => "list"
    case PyTuple(_) => "tuple"
    case PyDict(_) => "dict"
    case PyModel(c, _) => c.name
  }

  /** A `%.200s` or `%.200R` field of a CPython message: at most the first 200
      characters of `s`. */
  function Clip(s: string): (r: string)
    ensures |r| == if |s| <= 200 then |s| else 200
    ensures r == s[..|r|]
  {
    if |s| <= 200 then s else s[..200]
  }

  /** `str(type(v))`: `<class 'NoneType'>`, `<class 'datetime.datetime'>`, ... */
  function ClassRepr(v: Value): string {
    var qualified :=
      match v
      case PyModel(c, _) => c.moduleName + "." + c.name
      case _ => TypeName(v);
    "<class '" + qualified + "'>"
  }

  // ---------------------------------------------------------------------------
  // Decimal text of integers

  predicate IsDigit(c: char) {
    '0' <= c <= '9'
  }

  predicate AllDigits(s: string) {
    forall i :: 0 <= i < |s| ==> IsDigit(s[i])
  }

  function DigitChar(d: nat): (c: char)
    requires d < 10
    ensures IsDigit(c) && c as int - '0' as int == d
  {
    ('0' as int + d) as char
  }

  function DigitValue(c: char): (d: nat)
    requires IsDigit(c)
    ensures d < 10 && DigitChar(d) == c
  {
    c as int - '0' as int
  }

  /** The decimal digits of `n`, most significant first, with no leading zero. */
  function ShowNat(n: nat): (r: string)
    ensures |r| > 0 && AllDigits(r)
    ensures r[0] == '0' ==> n == 0
    decreases n
  {
    if n < 10 then [DigitChar(n)] else ShowNat(n / 10) + [DigitChar(n % 10)]
  }

  /** The number a string of decimal digits denotes. */
  function DigitsValue(s: string): nat
    requires AllDigits(s)
  {
    if |s| == 0 then 0 else DigitsValue(s[..|s| - 1]) * 10 + DigitValue(s[|s| - 1])
  }

  lemma {:induction false} DigitsValueOfShowNat(n: nat)
    ensures DigitsValue(ShowNat(n)) == n
    decreases n
  {
    if n >= 10 {
      var prefix := ShowNat(n / 10);
      var r := prefix + [DigitChar(n % 10)];
      assert r[..|r| - 1] == prefix;
      DigitsValueOfShowNat(n / 10);
    }
  }

  function Abs(n: int): nat {
    if n < 0 then -n else n
  }

  function ShowInt(n: int): string {
    if n < 0 then "-" + ShowNat(-n) else ShowNat(n)
  }

  /** Whether `str(n)` and `int(s)` accept a number of `digits` decimal digits
      under `sys.get_int_max_str_digits()`. */
  predicate WithinDigitLimit(rt: Runtime, digits: nat) {
    rt.maxStrDigits == 0 || digits <= rt.maxStrDigits
  }

  /** `str(n)`: decimal text, refused with a `ValueError` past the digit limit. */
  function IntToStr(rt: Runtime, n: int): (r: Outcome<string>)
    ensures r.Ok? <==> WithinDigitLimit(rt, |ShowNat(Abs(n))|)
    ensures r.Ok? ==> |r.value| > 0 && (r.value[0] == '-' <==> n < 0)
    ensures r.Raised? ==> r.exc.ValueError?
  {
    var digits := ShowNat(Abs(n));
    if !WithinDigitLimit(rt, |digits|) then
      Raised(ValueError("Exceeds the limit (" + ShowNat(rt.maxStrDigits)
                        + " digits) for integer string conversion; "
                        + "use sys.set_int_max_str_digits() to increase the limit"))
    else
      Ok(ShowInt(n))
  }

  /** The characters `int()` ignores at both ends of its text: ASCII space, tab,
      line feed, vertical tab, form feed and carriage return, and the characters
      above ASCII for which `str.isspace()` holds. The ASCII separators U+001C to
      U+001F are not among them, although `str.isspace()` holds for them. */
  predicate IsSpace(c: char) {
    || c == ' ' || '\t' <= c <= '\r'
    || c == '\U{85}' || c == '\U{A0}' || c == '\U{1680}' || '\U{2000}' <= c <= '\U{200A}'
    || c == '\U{2028}' || c == '\U{2029}' || c == '\U{202F}' || c == '\U{205F}' || c == '\U{3000}'
  }

  function TrimStart(s: string): (r: string)
    ensures |r| <= |s|
    ensures |r| > 0 ==> !IsSpace(r[0])
    ensures r == s[|s| - |r|..]
  {
    if |s| > 0 && IsSpace(s[0]) then TrimStart(s[1..]) else s
  }

  function TrimEnd(s: string): (r: string)
    ensures |r| <= |s|
    ensures |r| > 0 ==> !IsSpace(r[|r| - 1])
    ensures r == s[..|r|]
  {
    if |s| > 0 && IsSpace(s[|s| - 1]) then TrimEnd(s[..|s| - 1]) else s
  }

  /** `s.strip()` */
  function Strip(s: string): string {
    TrimEnd(TrimStart(s))
  }

  /** Decimal digits with single underscores between them, as in `1_000`. */
  predicate IsDigitGroups(s: string) {
    && |s| > 0 && IsDigit(s[0]) && IsDigit(s[|s| - 1])
    && (forall i :: 0 <= i < |s| ==> IsDigit(s[i]) || s[i] == '_')
    && (forall i :: 0 <= i < |s| - 1 ==> s[i] == '_' ==> s[i + 1] != '_')
  }

  /** The digits of `s` with the underscores left out. */
  function DropUnderscores(s: string): (r: string)
    requires forall i :: 0 <= i < |s| ==> IsDigit(s[i]) || s[i] == '_'
    ensures AllDigits(r) && |r| <= |s|
    ensures AllDigits(s) ==> r == s
  {
    if |s| == 0 then []
    else if s[0] == '_' then DropUnderscores(s[1..])
    else [s[0]] + DropUnderscores(s[1..])
  }

  /** Whether a stripped literal is negative, and the text after its sign. */
  function SplitSign(t: string): (bool, string) {
    if |t| > 0 && (t[0] == '-' || t[0] == '+') then (t[0] == '-', t[1..]) else (false, t)
  }

  /** The value of well-formed digit groups, refused with a `ValueError` past the
      digit limit. */
  function DigitGroupsValue(rt: Runtime, body: string): Outcome<nat>
    requires IsDigitGroups(body)
  {
    var digits := DropUnderscores(body);
    if WithinDigitLimit(rt, |digits|) then
      Ok(DigitsValue(digits))
    else
      Raised(ValueError("Exceeds the limit (" + ShowNat(rt.maxStrDigits)
                        + " digits) for integer string conversion: value has "
                        + ShowNat(|digits|) + " digits; "
                        + "use sys.set_int_max_str_digits() to increase the limit"))
  }

  /** `int(s)` in base 10: `IsSpace` characters at both ends are ignored, one optional sign,
      then digit groups; anything else, or more digits than the limit allows, is a
      `ValueError`. */
  function StrToInt(rt: Runtime, s: string): (r: Outcome<int>)
    ensures r.Raised? ==> r.exc.ValueError?
    ensures !IsDigitGroups(SplitSign(Strip(s)).1)
            ==> r == Raised(ValueError("invalid literal for int() with base 10: " + Clip(rt.strRepr(s))))
  {
    var (negative, body) := SplitSign(Strip(s));
    if !IsDigitGroups(body) then
      Raised(ValueError("invalid literal for int() with base 10: " + Clip(rt.strRepr(s))))
    else
      match DigitGroupsValue(rt, body)
      case Ok(n) => Ok(if negative then -(n as int) else n)
      case Raised(e) => Raised(e)
  }

  // ---------------------------------------------------------------------------
  // The generic builtins

  /** The texts of `parts` if every part succeeded, or else the exception of the
      first part that failed. */
  function AllOk(parts: seq<Outcome<string>>): (r: Outcome<seq<string>>)
    ensures r.Ok? <==> forall i :: 0 <= i < |parts| ==> parts[i].Ok?
    ensures r.Ok? ==> |r.value| == |parts| && forall i :: 0 <= i < |parts| ==> r.value[i] == parts[i].value
    ensures r.Raised? ==> exists i :: 0 <= i < |parts| && parts[i] == Raised(r.exc)
  {
    if |parts| == 0 then Ok([])
    else match parts[0]
      case Raised(e) => Raised(e)
      case Ok(first) =>
        match AllOk(parts[1..])
        case Raised(e) => Raised(e)
        case Ok(rest) => Ok([first] + rest)
  }

  /** The texts of `parts` with `", "` between them. */
  function JoinComma(parts: seq<string>): string {
    if |parts| == 0 then ""
    else if |parts| == 1 then parts[0]
    else parts[0] + ", " + JoinComma(parts[1..])
  }

  /** `repr(v)`. A container writes the `repr` of each item, in order, and fails
      with the first item that fails. */
  function Repr(rt: Runtime, v: Value): Outcome<string>
    decreases v
  {
    match v
    case PyNone => Ok("None")
    case PyBool(b) => Ok(if b then "True" else "False")
    case PyInt(n) => IntToStr(rt, n)
    case PyFloat(x) => Ok(rt.floatRepr(x))
    case PyStr(s) => Ok(rt.strRepr(s))
    case PyDatetime(d) => Ok(rt.datetimeRepr(d))
    case PyList(xs) =>
      AllOk(seq(|xs|, i requires 0 <= i < |xs| => Repr(rt, xs[i])))
        .MapOk(texts => "[" + JoinComma(texts) + "]")
    case PyTuple(xs) =>
      AllOk(seq(|xs|, i requires 0 <= i < |xs| => Repr(rt, xs[i])))
        .MapOk(texts => if |texts| == 1 then "(" + texts[0] + ",)" else "(" + JoinComma(texts) + ")")
    case PyDict(es) =>
      AllOk(seq(|es|, i requires 0 <= i < |es| =>
                  match Repr(rt, es[i].0)
                  case Raised(e) => Raised(e)
                  case Ok(key) => Repr(rt, es[i].1).MapOk(val => key + ": " + val)))
        .MapOk(texts => "{" + JoinComma(texts) + "}")
    case PyModel(_, _) => rt.modelRepr(v)
  }

  /** `str(v)`: the `repr` for every kind without a text form of its own. */
  function StrOf(rt: Runtime, v: Value): Outcome<string> {
    match v
    case PyStr(s) => Ok(s)
    case PyDatetime(d) => Ok(rt.datetimeStr(d))
    case PyModel(_, _) => rt.modelStr(v)
    case _ => Repr(rt, v)
  }

  /** Whether `repr(v)` raises, stated independently of how it is written out: some
      int inside `v` (or `v` itself) has more digits than the limit allows, or the
      `repr` of some model instance inside it raises. */
  ghost predicate ReprFails(rt: Runtime, v: Value)
    decreases v
  {
    match v
    case PyInt(n) => !WithinDigitLimit(rt, |ShowNat(Abs(n))|)
    case PyModel(_, _) => rt.modelRepr(v).Raised?
    case PyList(xs) => exists i :: 0 <= i < |xs| && ReprFails(rt, xs[i])
    case PyTuple(xs) => exists i :: 0 <= i < |xs| && ReprFails(rt, xs[i])
    case PyDict(es) => exists i :: 0 <= i < |es| && (ReprFails(rt, es[i].0) || ReprFails(rt, es[i].1))
    case _ => false
  }

  /** Whether a model instance occurs in `v` (or is `v`). */
  ghost predicate HoldsModel(v: Value)
    decreases v
  {
    match v
    case PyModel(_, _) => true
    case PyList(xs) => exists i :: 0 <= i < |xs| && HoldsModel(xs[i])
    case PyTuple(xs) => exists i :: 0 <= i < |xs| && HoldsModel(xs[i])
    case PyDict(es) => exists i :: 0 <= i < |es| && (HoldsModel(es[i].0) || HoldsModel(es[i].1))
    case _ => false
  }

  /** `repr(v)` raises exactly when `ReprFails` says so, and with no model instance
      inside `v` the only exception is the `ValueError` of the digit limit. */
  lemma {:induction false} ReprFailsExactly(rt: Runtime, v: Value)
    ensures Repr(rt, v).Raised? <==> ReprFails(rt, v)
    ensures Repr(rt, v).Raised? && !HoldsModel(v) ==> Repr(rt, v).exc.ValueError?
    decreases v
  {
    match v
    case PyList(xs) => ItemsFailExactly(rt, xs);
    case PyTuple(xs) => ItemsFailExactly(rt, xs);
    case PyDict(es) =>
      var parts := seq(|es|, i requires 0 <= i < |es| =>
                         match Repr(rt, es[i].0)
                         case Raised(e) => Raised(e)
                         case Ok(key) => Repr(rt, es[i].1).MapOk(val => key + ": " + val));
      forall i | 0 <= i < |es|
        ensures parts[i].Raised? <==> ReprFails(rt, es[i].0) || ReprFails(rt, es[i].1)
        ensures parts[i].Raised? && !HoldsModel(es[i].0) && !HoldsModel(es[i].1) ==> parts[i].exc.ValueError?
      {
        ReprFailsExactly(rt, es[i].0);
        ReprFailsExactly(rt, es[i].1);
      }
      assert Repr(rt, v) == AllOk(parts).MapOk(texts => "{" + JoinComma(texts) + "}");
    case _ =>
  }

  /** `ReprFailsExactly` for the items of a list or tuple. */
  lemma {:induction false} ItemsFailExactly(rt: Runtime, xs: seq<Value>)
    ensures var o := AllOk(seq(|xs|, i requires 0 <= i < |xs| => Repr(rt, xs[i])));
            && (o.Raised? <==> exists i :: 0 <= i < |xs| && ReprFails(rt, xs[i]))
            && (o.Raised? && (forall i :: 0 <= i < |xs| ==> !HoldsModel(xs[i])) ==> o.exc.ValueError?)
    decreases xs
  {
    var parts := seq(|xs|, i requires 0 <= i < |xs| => Repr(rt, xs[i]));
    forall i | 0 <= i < |xs|
      ensures parts[i].Raised? <==> ReprFails(rt, xs[i])
      ensures parts[i].Raised? && !HoldsModel(xs[i]) ==> parts[i].exc.ValueError?
    {
      ReprFailsExactly(rt, xs[i]);
    }
  }

  /** `int(v)` */
  function IntOf(rt: Runtime, v: Value): Outcome<int> {
    match v
    case PyBool(b) => Ok(if b then 1 else 0)
    case PyInt(n) => Ok(n)
    case PyFloat(x) => rt.floatToInt(x)
    case PyStr(s) => StrToInt(rt, s)
    case _ => Raised(TypeError("int() argument must be a string, a bytes-like object or a real number, not '"
                               + Clip(TypeName(v)) + "'"))
  }

  /** `float(v)` */
  function FloatOf(rt: Runtime, v: Value): Outcome<Float> {
    match v
    case PyBool(b) => rt.intToFloat(if b then 1 else 0)
    case PyInt(n) => rt.intToFloat(n)
    case PyFloat(x) => Ok(x)
    case PyStr(s) => rt.parseFloat(s)
    case _ => Raised(TypeError("float() argument must be a string or a real number, not '"
                               + Clip(TypeName(v)) + "'"))
  }

  /** `bool(v)`: zero, empty and `None` are false. A float is false exactly when it
      is +0.0 or -0.0 (NaN is true). Only a model instance can make it raise. */
  function Truthy(rt: Runtime, v: Value): Outcome<bool> {
    match v
    case PyNone => Ok(false)
    case PyBool(b) => Ok(b)
    case PyInt(n) => Ok(n != 0)
    case PyFloat(x) => Ok(x.bits & 0x7FFF_FFFF_FFFF_FFFF != 0)
    case PyStr(s) => Ok(|s| > 0)
    case PyDatetime(_) => Ok(true)
    case PyList(xs) => Ok(|xs| > 0)
    case PyTuple(xs) => Ok(|xs| > 0)
    case PyDict(es) => Ok(|es| > 0)
    case PyModel(_, _) => rt.modelTruthy(v)
  }

  /** The one-character strings of `s`, in order. */
  function Chars(s: string): (r: seq<Value>)
    ensures |r| == |s|
  {
    seq(|s|, i requires 0 <= i < |s| => PyStr([s[i]]))
  }

  /** The keys of a dict, in insertion order. */
  function Keys(entries: seq<(Value, Value)>): (r: seq<Value>)
    ensures |r| == |entries|
  {
    seq(|entries|, i requires 0 <= i < |entries| => entries[i].0)
  }

  /** The message of the `TypeError` raised by `iter()` on a type named `name`. */
  function NotIterable(name: string): string {
    "'" + Clip(name) + "' object is not iterable"
  }

  /** Iterating over `v` to the end, as `list(v)` does. */
  function Iterate(rt: Runtime, v: Value): Outcome<seq<Value>> {
    match v
    case PyStr(s) => Ok(Chars(s))
    case PyList(xs) => Ok(xs)
    case PyTuple(xs) => Ok(xs)
    case PyDict(es) => Ok(Keys(es))
    case PyModel(_, _) => rt.modelIter(v)
    case _ => Raised(TypeError(NotIterable(TypeName(v))))
  }

  function FirstSome(xs: seq<Option<string>>): (r: Option<string>)
    ensures r.None? <==> forall i :: 0 <= i < |xs| ==> xs[i].None?
  {
    if |xs| == 0 then None else if xs[0].Some? then xs[0] else FirstSome(xs[1..])
  }

  /** The name of the type that makes `hash(v)` fail, if it fails: lists and dicts
      are unhashable, and a tuple is as hashable as its items. */
  function Unhashable(rt: Runtime, v: Value): Option<string>
    decreases v
  {
    match v
    case PyList(_) => Some("list")
    case PyDict(_) => Some("dict")
    case PyTuple(xs) => FirstSome(seq(|xs|, i requires 0 <= i < |xs| => Unhashable(rt, xs[i])))
    case PyModel(_, _) => if rt.modelHashable(v) then None else Some(Clip(TypeName(v)))
    case _ => None
  }

  /** `s.lower()` on ASCII letters. */
  function Lower(s: string): string {
    seq(|s|, i requires 0 <= i < |s| => if 'A' <= s[i] <= 'Z' then (s[i] as int + 32) as char else s[i])
  }
}
