/** The conversion dispatcher: `_execute` routes on the target class, each `to_*`
    converter then picks a rule by the source value's runtime type, and `execute`
    turns a `ValueError` into a `ConvertError`.

    Rule selection follows Python's method resolution order: `bool` is a subclass
    of `int`, so a `bool` source takes an `int` rule wherever a converter has one
    and no `bool` rule of its own. */
module Converters {
  import opened Values
  import opened Builtins

  /** The source kinds that `to_datetime` has a rule for. */
  predicate HasDatetimeRule(v: Value) {
    v.PyBool? || v.PyInt? || v.PyFloat? || v.PyStr? || v.PyDatetime?
  }

  /** The source kinds that `iter()` accepts without help from the model class. */
  predicate IsBuiltinIterable(v: Value) {
    v.PyStr? || v.PyList? || v.PyTuple? || v.PyDict?
  }

  /** `to_base_model`: an instance of the target class is kept, a dict is passed
      to `from_dict`, anything else to `from_list`. */
  function ToBaseModel(rt: Runtime, cls: ModelClass, v: Value): (r: Outcome<Value>)
    ensures IsInstance(rt, v, cls) ==> r == Ok(v)
  {
    if IsInstance(rt, v, cls) then Ok(v)
    else if v.PyDict? then rt.fromDict(cls, v.entries)
    else rt.fromList(cls, v)
  }

  /** `to_str`: datetimes, bools and `None` have rules of their own; every other
      value goes through `str()`. That fails exactly when an int in the value has
      more digits than the limit allows, or the `str` or `repr` of a model instance
      in it raises. */
  function ToStr(rt: Runtime, v: Value): (r: Outcome<string>)
    ensures v.PyStr? ==> r == Ok(v.s)
    ensures v.PyDatetime? ==> r == Ok(rt.isoFormat(v.d))
    ensures r.Raised? <==> if v.PyModel? then rt.modelStr(v).Raised? else ReprFails(rt, v)
    ensures r.Raised? && !HoldsModel(v) ==> r.exc.ValueError?
    ensures v.PyInt? && r.Ok? ==> StrToInt(rt, r.value) == Ok(v.i)
  {
    match v
    case PyDatetime(d) => Ok(rt.isoFormat(d))
    case PyBool(b) => Ok(if b then "yes" else "no")
    case PyNone => Ok("")
    case PyInt(n) =>
      var r := IntToStr(rt, n);
      if r.Ok? then IntToStrParsesBack(rt, n); r else r
    case PyModel(_, _) => StrOf(rt, v)
    case _ => ReprFailsExactly(rt, v); StrOf(rt, v)
  }

  /** `to_int`: a datetime is read as its truncated timestamp; every other value
      (a bool included) goes through `int()`. */
  function ToInt(rt: Runtime, v: Value): (r: Outcome<int>)
    ensures v.PyInt? ==> r == Ok(v.i)
    ensures v.PyBool? ==> r == Ok(if v.b then 1 else 0)
    ensures v.PyStr? && r.Raised? ==> r.exc.ValueError?
    ensures v.PyDatetime? && rt.timestamp(v.d).Ok? ==> r == rt.floatToInt(rt.timestamp(v.d).value)
    ensures v.PyDatetime? && rt.timestamp(v.d).Raised? ==> r == Raised(rt.timestamp(v.d).exc)
  {
    match v
    case PyDatetime(d) =>
      (match rt.timestamp(d)
       case Ok(x) => rt.floatToInt(x)
       case Raised(e) => Raised(e))
    case _ => IntOf(rt, v)
  }

  /** `to_float`: a datetime is read as its timestamp; every other value (a bool
      included) goes through `float()`. */
  function ToFloat(rt: Runtime, v: Value): (r: Outcome<Float>)
    ensures v.PyFloat? ==> r == Ok(v.f)
    ensures v.PyBool? ==> r == rt.intToFloat(if v.b then 1 else 0)
    ensures v.PyDatetime? ==> r == rt.timestamp(v.d)
  {
    match v
    case PyDatetime(d) => rt.timestamp(d)
    case _ => FloatOf(rt, v)
  }

  /** `to_bool`: a string is true exactly when its lower-case form is `yes`; every
      other value gives its truth value. */
  function ToBool(rt: Runtime, v: Value): (r: Outcome<bool>)
    ensures v.PyBool? ==> r == Ok(v.b)
    ensures v.PyStr? ==> r.Ok? && (r.value <==> |v.s| == 3 && v.s[0] in "yY" && v.s[1] in "eE" && v.s[2] in "sS")
    ensures r.Raised? ==> v.PyModel? && r == rt.modelTruthy(v)
  {
    match v
    case PyStr(s) => LowerIsYes(s); Ok(Lower(s) == "yes")
    case _ => Truthy(rt, v)
  }

  /** `to_datetime`: ints (and so bools) and floats are timestamps, strings are ISO
      text, a datetime is kept, and any other source is not supported. */
  function ToDatetime(rt: Runtime, v: Value): (r: Outcome<Datetime>)
    ensures v.PyDatetime? ==> r == Ok(v.d)
    ensures !HasDatetimeRule(v) ==> r == Raised(NotImplementedError("Cannot convert " + ClassRepr(v) + " to datetime"))
  {
    match v
    case PyBool(b) => rt.fromTimestampInt(if b then 1 else 0)
    case PyInt(n) => rt.fromTimestampInt(n)
    case PyFloat(x) => rt.fromTimestampFloat(x)
    case PyStr(s) => rt.fromIsoFormat(s)
    case PyDatetime(d) => Ok(d)
    case _ => Raised(NotImplementedError("Cannot convert " + ClassRepr(v) + " to datetime"))
  }

  /** `to_list`: the items `iter()` yields, in order. */
  function ToList(rt: Runtime, v: Value): (r: Outcome<seq<Value>>)
    ensures v.PyList? || v.PyTuple? ==> r == Ok(v.items)
    ensures v.PyStr? ==> r.Ok? && |r.value| == |v.s|
                         && forall i :: 0 <= i < |v.s| ==> r.value[i] == PyStr([v.s[i]])
    ensures v.PyDict? ==> r.Ok? && |r.value| == |v.entries|
                          && forall i :: 0 <= i < |v.entries| ==> r.value[i] == v.entries[i].0
    ensures !IsBuiltinIterable(v) && !v.PyModel? ==> r.Raised? && r.exc.TypeError?
  {
    Iterate(rt, v)
  }

  /** `to_tuple`: the same items as `to_list`, in the same order. */
  function ToTuple(rt: Runtime, v: Value): (r: Outcome<seq<Value>>)
    ensures v.PyList? || v.PyTuple? ==> r == Ok(v.items)
    ensures !IsBuiltinIterable(v) && !v.PyModel? ==> r.Raised? && r.exc.TypeError?
  {
    Iterate(rt, v)
  }

  /** `to_set`: the items `iter()` yields, each of which must be hashable. */
  function ToSet(rt: Runtime, v: Value): (r: Outcome<set<Value>>)
    ensures r.Ok? ==> Iterate(rt, v).Ok? && forall x :: x in r.value <==> x in Iterate(rt, v).value
    ensures r.Ok? ==> |r.value| <= |Iterate(rt, v).value|
  {
    match Iterate(rt, v)
    case Raised(e) => Raised(e)
    case Ok(xs) =>
      var bad := FirstSome(seq(|xs|, i requires 0 <= i < |xs| => Unhashable(rt, xs[i])));
      if bad.Some? then
        Raised(TypeError("unhashable type: '" + bad.value + "'"))
      else
        ElementsBound(xs);
        Ok(set x | x in xs)
  }

  /** `_execute`: route on the target class. A target that is none of the routed
      classes, `set` included, gets the value back unchanged. */
  function ExecuteRaw(rt: Runtime, v: Value, t: Target): (r: Outcome<Value>)
    ensures t.SetType? || t.OtherType? ==> r == Ok(v)
  {
    match t
    case StrType => ToStr(rt, v).MapOk(s => PyStr(s))
    case IntType => ToInt(rt, v).MapOk(n => PyInt(n))
    case FloatType => ToFloat(rt, v).MapOk(x => PyFloat(x))
    case BoolType => ToBool(rt, v).MapOk(b => PyBool(b))
    case DatetimeType => ToDatetime(rt, v).MapOk(d => PyDatetime(d))
    case ListType => ToList(rt, v).MapOk(xs => PyList(xs))
    case TupleType => ToTuple(rt, v).MapOk(xs => PyTuple(xs))
    case ModelType(cls) => ToBaseModel(rt, cls, v)
    case SetType => Ok(v)
    case OtherType(_) => Ok(v)
  }

  /** The `except ValueError` of `execute`. */
  function WrapValueError(o: Outcome<Value>): (r: Outcome<Value>)
    ensures !(r.Raised? && r.exc.ValueError?)
    ensures r.Ok? <==> o.Ok?
    ensures o.Ok? ==> r == o
    ensures o.Raised? && !o.exc.ValueError? ==> r == o
    ensures o.Raised? && o.exc.ValueError? ==> r == Raised(ConvertError(o.exc.msg))
  {
    if o.Raised? && o.exc.ValueError? then Raised(ConvertError(o.exc.msg)) else o
  }

  /** `execute`: `_execute`, with every `ValueError` re-raised as a `ConvertError`
      carrying the same message and every other exception left as it is. */
  function Execute(rt: Runtime, v: Value, t: Target): (r: Outcome<Value>)
    ensures !(r.Raised? && r.exc.ValueError?)
    ensures r.Ok? <==> ExecuteRaw(rt, v, t).Ok?
    ensures r.Raised? && !r.exc.ConvertError? ==> r == ExecuteRaw(rt, v, t)
  {
    WrapValueError(ExecuteRaw(rt, v, t))
  }

  // ---------------------------------------------------------------------------
  // Proof helpers for the contracts above

  lemma LowerIsYes(s: string)
    ensures Lower(s) == "yes" <==> |s| == 3 && s[0] in "yY" && s[1] in "eE" && s[2] in "sS"
  {
    if |s| == 3 && s[0] in "yY" && s[1] in "eE" && s[2] in "sS" {
      assert Lower(s) == [Lower(s)[0], Lower(s)[1], Lower(s)[2]];
    }
    if Lower(s) == "yes" {
      assert Lower(s)[0] == 'y' && Lower(s)[1] == 'e' && Lower(s)[2] == 's';
    }
  }

  lemma StripUntrimmable(text: string)
    requires |text| > 0 && !IsSpace(text[0]) && !IsSpace(text[|text| - 1])
    ensures Strip(text) == text
  {
    assert TrimStart(text) == text;
  }

  lemma DigitsAreDigitGroups(digits: string)
    requires AllDigits(digits) && |digits| > 0
    ensures IsDigitGroups(digits) && DropUnderscores(digits) == digits
  {
  }

  lemma SignOfNegativeDigits(digits: string)
    requires AllDigits(digits) && |digits| > 0
    ensures SplitSign("-" + digits) == (true, digits)
  {
    assert ("-" + digits)[1..] == digits;
  }

  lemma SignOfDigits(digits: string)
    requires AllDigits(digits) && |digits| > 0
    ensures SplitSign(digits) == (false, digits)
  {
    assert IsDigit(digits[0]);
  }

  lemma {:induction false} DigitsParse(rt: Runtime, digits: string, negative: bool)
    requires AllDigits(digits) && |digits| > 0 && WithinDigitLimit(rt, |digits|)
    ensures var text := if negative then "-" + digits else digits;
            StrToInt(rt, text) == Ok(if negative then -(DigitsValue(digits) as int) else DigitsValue(digits))
  {
    var text := if negative then "-" + digits else digits;
    assert IsDigit(digits[0]) && IsDigit(digits[|digits| - 1]);
    StripUntrimmable(text);
    DigitsAreDigitGroups(digits);
    if negative {
      SignOfNegativeDigits(digits);
    } else {
      SignOfDigits(digits);
    }
    assert DigitGroupsValue(rt, digits) == Ok(DigitsValue(digits));
  }

  lemma {:induction false} IntToStrParsesBack(rt: Runtime, n: int)
    requires IntToStr(rt, n).Ok?
    ensures StrToInt(rt, IntToStr(rt, n).value) == Ok(n)
  {
    DigitsValueOfShowNat(Abs(n));
    DigitsParse(rt, ShowNat(Abs(n)), n < 0);
  }

  lemma {:induction false} ElementsBound(xs: seq<Value>)
    ensures |set x | x in xs| <= |xs|
  {
    if |xs| > 0 {
      ElementsBound(xs[1..]);
      assert (set x | x in xs) == {xs[0]} + (set x | x in xs[1..]);
    }
  }
}
