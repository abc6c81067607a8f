/** What the dispatcher promises across targets and across calls: routing and
    pass-through, identity and idempotence, round trips through text, which
    failures become a `ConvertError`, and the rules a `bool` source ends up in. */
module ConverterProperties {
  import opened Values
  import opened Builtins
  import opened Converters

  /** The targets `_execute` hands to a converter. */
  predicate Routed(t: Target) {
    !(t.SetType? || t.OtherType?)
  }

  /** Whether `v` already has the exact type `t` asks for (for a model target:
      is an instance of it). */
  predicate OfType(rt: Runtime, v: Value, t: Target) {
    match t
    case StrType => v.PyStr?
    case IntType => v.PyInt?
    case FloatType => v.PyFloat?
    case BoolType => v.PyBool?
    case DatetimeType => v.PyDatetime?
    case ListType => v.PyList?
    case TupleType => v.PyTuple?
    case ModelType(c) => IsInstance(rt, v, c)
    case SetType => false
    case OtherType(_) => false
  }

  /** The values Python counts as false, written out case by case: `None`,
      `False`, `0`, `+0.0` and `-0.0`, and the empty list, tuple and dict. */
  predicate Falsy(v: Value) {
    || v.PyNone? || v == PyBool(false) || v == PyInt(0)
    || (v.PyFloat? && (v.f.bits == 0 || v.f.bits == 0x8000_0000_0000_0000))
    || ((v.PyList? || v.PyTuple?) && |v.items| == 0)
    || (v.PyDict? && |v.entries| == 0)
  }

  // ---------------------------------------------------------------------------
  // Routing

  /** A target the dispatcher does not route, `set` included, gets the input back. */
  lemma PassThroughTargets(rt: Runtime, v: Value, t: Target)
    requires !Routed(t)
    ensures Execute(rt, v, t) == Ok(v)
  {
  }

  /** `to_set` would remove duplicates, but a `set` target never reaches it: the
      list comes back as it was, duplicates and all. */
  lemma SetTargetIsNeverConverted(rt: Runtime)
    ensures var xs := [PyInt(3), PyInt(1), PyInt(3)];
            && Execute(rt, PyList(xs), SetType) == Ok(PyList(xs))
            && ToSet(rt, PyList(xs)) == Ok({PyInt(1), PyInt(3)})
  {
    var xs := [PyInt(3), PyInt(1), PyInt(3)];
    var marks := seq(|xs|, i requires 0 <= i < |xs| => Unhashable(rt, xs[i]));
    assert marks == [None, None, None];
    assert (set x | x in xs) == {PyInt(1), PyInt(3)};
  }

  /** A successful routed conversion yields a value of the requested type. */
  lemma ConversionYieldsTargetType(rt: Runtime, v: Value, t: Target)
    requires BuildsInstances(rt)
    requires Routed(t) && Execute(rt, v, t).Ok?
    ensures OfType(rt, Execute(rt, v, t).value, t)
  {
    if t.ModelType? && !IsInstance(rt, v, t.cls) {
      if v.PyDict? {
        assert rt.fromDict(t.cls, v.entries).Ok?;
      } else {
        assert rt.fromList(t.cls, v).Ok?;
      }
    }
  }

  /** A value that already has the requested type comes back unchanged. */
  lemma IdentityOnTargetType(rt: Runtime, v: Value, t: Target)
    requires OfType(rt, v, t)
    ensures Execute(rt, v, t) == Ok(v)
  {
  }

  /** Converting a converted value again changes nothing. */
  lemma ExecuteIsIdempotent(rt: Runtime, v: Value, t: Target)
    requires BuildsInstances(rt)
    requires Execute(rt, v, t).Ok?
    ensures Execute(rt, Execute(rt, v, t).value, t) == Execute(rt, v, t)
  {
    if Routed(t) {
      ConversionYieldsTargetType(rt, v, t);
      IdentityOnTargetType(rt, Execute(rt, v, t).value, t);
    }
  }

  // ---------------------------------------------------------------------------
  // Model targets

  /** An instance converted to its own class is returned as it is. */
  lemma ModelInstanceIsKept(rt: Runtime, c: ModelClass, fields: seq<(string, Value)>)
    requires SubclassReflexive(rt)
    ensures Execute(rt, PyModel(c, fields), ModelType(c)) == Ok(PyModel(c, fields))
  {
    assert rt.isSubclass(c, c);
  }

  /** A value that is not an instance is built by `from_dict` when it is a dict and
      by `from_list` otherwise; `execute` wraps only their `ValueError`s. */
  lemma ModelConstructionChoice(rt: Runtime, c: ModelClass, v: Value)
    requires !IsInstance(rt, v, c)
    ensures v.PyDict? ==> Execute(rt, v, ModelType(c)) == WrapValueError(rt.fromDict(c, v.entries))
    ensures !v.PyDict? ==> Execute(rt, v, ModelType(c)) == WrapValueError(rt.fromList(c, v))
  {
  }

  /** A `ValueError` out of `from_dict` becomes a `ConvertError`, while any other
      failure of `from_dict` reaches the caller unchanged. */
  lemma ModelBuilderFailures(rt: Runtime, c: ModelClass, entries: seq<(Value, Value)>)
    requires rt.fromDict(c, entries).Raised?
    ensures var e := rt.fromDict(c, entries).exc;
            && (e.ValueError? ==> Execute(rt, PyDict(entries), ModelType(c)) == Raised(ConvertError(e.msg)))
            && (!e.ValueError? ==> Execute(rt, PyDict(entries), ModelType(c)) == Raised(e))
  {
  }

  // ---------------------------------------------------------------------------
  // Text and booleans

  /** Every source other than a string or a model instance converts to its truth
      value: false exactly for the `Falsy` values, true for every other one (a
      datetime, a non-empty container, a non-zero number, a NaN). */
  lemma NonStringTruthiness(rt: Runtime, v: Value)
    requires !v.PyStr? && !v.PyModel?
    ensures Execute(rt, v, BoolType) == Ok(PyBool(!Falsy(v)))
  {
  }

  /** `True` and `False` become "yes" and "no", `None` becomes the empty string. */
  lemma BoolAndNoneText(rt: Runtime)
    ensures Execute(rt, PyBool(true), StrType) == Ok(PyStr("yes"))
    ensures Execute(rt, PyBool(false), StrType) == Ok(PyStr("no"))
    ensures Execute(rt, PyNone, StrType) == Ok(PyStr(""))
  {
  }

  /** A string converts to `True` exactly when it is "yes" in any mix of cases. */
  lemma StrToBoolIsCaseInsensitiveYes(rt: Runtime, s: string)
    ensures Execute(rt, PyStr(s), BoolType)
            == Ok(PyBool(|s| == 3 && s[0] in "yY" && s[1] in "eE" && s[2] in "sS"))
  {
  }

  lemma StrToBoolExamples(rt: Runtime)
    ensures Execute(rt, PyStr("Yes"), BoolType) == Ok(PyBool(true))
    ensures Execute(rt, PyStr("YES"), BoolType) == Ok(PyBool(true))
    ensures Execute(rt, PyStr("no"), BoolType) == Ok(PyBool(false))
    ensures Execute(rt, PyStr("maybe"), BoolType) == Ok(PyBool(false))
    ensures Execute(rt, PyStr(""), BoolType) == Ok(PyBool(false))
  {
    StrToBoolIsCaseInsensitiveYes(rt, "Yes");
    StrToBoolIsCaseInsensitiveYes(rt, "YES");
    StrToBoolIsCaseInsensitiveYes(rt, "no");
    StrToBoolIsCaseInsensitiveYes(rt, "maybe");
    StrToBoolIsCaseInsensitiveYes(rt, "");
  }

  /** A bool survives the trip through text and back. */
  lemma BoolTextRoundTrip(rt: Runtime, b: bool)
    ensures Execute(rt, PyBool(b), StrType).Ok?
    ensures Execute(rt, Execute(rt, PyBool(b), StrType).value, BoolType) == Ok(PyBool(b))
  {
    StrToBoolIsCaseInsensitiveYes(rt, if b then "yes" else "no");
  }

  /** An int whose decimal text is within the digit limit survives the trip
      through text and back. */
  lemma IntTextRoundTrip(rt: Runtime, n: int)
    requires WithinDigitLimit(rt, |ShowNat(Abs(n))|)
    ensures Execute(rt, PyInt(n), StrType).Ok?
    ensures Execute(rt, Execute(rt, PyInt(n), StrType).value, IntType) == Ok(PyInt(n))
  {
    IntToStrParsesBack(rt, n);
    IntText(rt, n);
    ParsedIntText(rt, IntToStr(rt, n).value, n);
  }

  lemma IntText(rt: Runtime, n: int)
    requires IntToStr(rt, n).Ok?
    ensures Execute(rt, PyInt(n), StrType) == Ok(PyStr(IntToStr(rt, n).value))
  {
    assert ToStr(rt, PyInt(n)) == IntToStr(rt, n);
  }

  lemma ParsedIntText(rt: Runtime, text: string, n: int)
    requires StrToInt(rt, text) == Ok(n)
    ensures Execute(rt, PyStr(text), IntType) == Ok(PyInt(n))
  {
    assert ToInt(rt, PyStr(text)) == Ok(n);
  }

  /** An int with more digits than the limit allows cannot be turned into text. */
  lemma OversizedIntText(rt: Runtime, n: int)
    requires !WithinDigitLimit(rt, |ShowNat(Abs(n))|)
    ensures Execute(rt, PyInt(n), StrType)
            == Raised(ConvertError("Exceeds the limit (" + ShowNat(rt.maxStrDigits)
                                   + " digits) for integer string conversion; "
                                   + "use sys.set_int_max_str_digits() to increase the limit"))
  {
  }

  /** Text that is not an integer literal fails with a `ConvertError`. */
  lemma MalformedIntText(rt: Runtime)
    ensures Execute(rt, PyStr("not-a-number"), IntType)
            == Raised(ConvertError("invalid literal for int() with base 10: " + Clip(rt.strRepr("not-a-number"))))
  {
    var s := "not-a-number";
    assert !IsSpace(s[0]) && !IsSpace(s[|s| - 1]);
    assert Strip(s) == s by { assert TrimStart(s) == s; }
    assert SplitSign(s) == (false, s);
    assert !IsDigit(s[0]);
  }

  /** The text of a bool is "yes" or "no", which `int()` refuses: the bool does
      not come back from text as an int. */
  lemma BoolTextIsNotAnInt(rt: Runtime, b: bool)
    ensures var text := if b then "yes" else "no";
            Execute(rt, Execute(rt, PyBool(b), StrType).value, IntType)
            == Raised(ConvertError("invalid literal for int() with base 10: " + Clip(rt.strRepr(text))))
  {
    var s := if b then "yes" else "no";
    assert !IsSpace(s[0]) && !IsSpace(s[|s| - 1]);
    assert Strip(s) == s by { assert TrimStart(s) == s; }
    assert SplitSign(s) == (false, s);
    assert !IsDigit(s[0]);
  }

  // ---------------------------------------------------------------------------
  // Bool sources

  /** `bool` is a subclass of `int`: outside `to_str` a bool takes the rule an int
      takes, so `True` converts to the int 1 although it is already an int. */
  lemma BoolSourcesTakeIntRules(rt: Runtime, b: bool)
    ensures var n := if b then 1 else 0;
            && Execute(rt, PyBool(b), IntType) == Ok(PyInt(n))
            && Execute(rt, PyBool(b), FloatType) == Execute(rt, PyInt(n), FloatType)
            && Execute(rt, PyBool(b), DatetimeType) == Execute(rt, PyInt(n), DatetimeType)
    ensures Execute(rt, PyBool(b), StrType) != Execute(rt, PyInt(if b then 1 else 0), StrType)
  {
    var n := if b then 1 else 0;
    assert ShowNat(n) == [DigitChar(n)];
  }

  // ---------------------------------------------------------------------------
  // Datetime targets

  /** Ints, bools and floats are read as timestamps and strings as ISO text, a
      datetime is kept, and every other source is not supported. */
  lemma DatetimeSources(rt: Runtime, v: Value)
    ensures v.PyInt? ==> Execute(rt, v, DatetimeType) == WrapValueError(rt.fromTimestampInt(v.i).MapOk(d => PyDatetime(d)))
    ensures v.PyFloat? ==> Execute(rt, v, DatetimeType) == WrapValueError(rt.fromTimestampFloat(v.f).MapOk(d => PyDatetime(d)))
    ensures v.PyStr? ==> Execute(rt, v, DatetimeType) == WrapValueError(rt.fromIsoFormat(v.s).MapOk(d => PyDatetime(d)))
    ensures v.PyDatetime? ==> Execute(rt, v, DatetimeType) == Ok(v)
    ensures !HasDatetimeRule(v) ==>
              Execute(rt, v, DatetimeType) == Raised(NotImplementedError("Cannot convert " + ClassRepr(v) + " to datetime"))
  {
  }

  // ---------------------------------------------------------------------------
  // Error mapping

  /** `execute` fails with `ConvertError(m)` exactly when `_execute` raised a
      `ValueError(m)` (or itself let a `ConvertError(m)` through). */
  lemma ConvertErrorOrigin(rt: Runtime, v: Value, t: Target, m: string)
    ensures Execute(rt, v, t) == Raised(ConvertError(m))
            <==> ExecuteRaw(rt, v, t) in {Raised(ValueError(m)), Raised(ConvertError(m))}
  {
  }

  /** `int(None)` is a `TypeError`, which is not wrapped. */
  lemma NoneToIntIsTypeError(rt: Runtime)
    ensures Execute(rt, PyNone, IntType)
            == Raised(TypeError("int() argument must be a string, a bytes-like object or a real number, not 'NoneType'"))
  {
  }

  /** `None` has no datetime rule: a `NotImplementedError`, which is not wrapped. */
  lemma NoneToDatetimeIsNotImplemented(rt: Runtime)
    ensures Execute(rt, PyNone, DatetimeType)
            == Raised(NotImplementedError("Cannot convert <class 'NoneType'> to datetime"))
  {
    assert ClassRepr(PyNone) == "<class 'NoneType'>";
    assert "Cannot convert " + "<class 'NoneType'>" + " to datetime" == "Cannot convert <class 'NoneType'> to datetime";
  }

  // ---------------------------------------------------------------------------
  // Sequences

  /** List and tuple targets hold exactly the items iteration yields, in order. */
  lemma SequenceTargetsKeepItems(rt: Runtime, v: Value)
    requires Iterate(rt, v).Ok?
    ensures Execute(rt, v, ListType) == Ok(PyList(Iterate(rt, v).value))
    ensures Execute(rt, v, TupleType) == Ok(PyTuple(Iterate(rt, v).value))
  {
  }

  /** A list through a tuple and back is the same list. */
  lemma ListTupleRoundTrip(rt: Runtime, xs: seq<Value>)
    ensures Execute(rt, PyList(xs), TupleType) == Ok(PyTuple(xs))
    ensures Execute(rt, PyTuple(xs), ListType) == Ok(PyList(xs))
  {
  }

  /** Order is kept, not sorted. */
  lemma ListKeepsOrder(rt: Runtime)
    ensures Execute(rt, PyList([PyInt(3), PyInt(1), PyInt(2)]), ListType)
            == Ok(PyList([PyInt(3), PyInt(1), PyInt(2)]))
  {
  }

  /** Values that cannot be iterated fail with a `TypeError`, which is not wrapped. */
  lemma NonIterableSequenceTarget(rt: Runtime, v: Value)
    requires !IsBuiltinIterable(v) && !v.PyModel?
    ensures Execute(rt, v, ListType) == Raised(TypeError(NotIterable(TypeName(v))))
    ensures Execute(rt, v, TupleType) == Raised(TypeError(NotIterable(TypeName(v))))
  {
  }

  /** A datetime, which cannot be iterated, names its class with its module in the
      `TypeError`. */
  lemma DatetimeIsNotIterable(rt: Runtime, d: Datetime)
    ensures Execute(rt, PyDatetime(d), ListType) == Raised(TypeError(NotIterable("datetime.datetime")))
  {
  }

  /** The datetime rules of `to_str`, `to_int` and `to_float`: ISO text, the
      timestamp truncated as `int()` truncates a float, and the timestamp itself. */
  lemma DatetimeSourceOverrides(rt: Runtime, d: Datetime)
    ensures Execute(rt, PyDatetime(d), StrType) == Ok(PyStr(rt.isoFormat(d)))
    ensures rt.timestamp(d).Ok? ==>
              && Execute(rt, PyDatetime(d), FloatType) == Ok(PyFloat(rt.timestamp(d).value))
              && Execute(rt, PyDatetime(d), IntType) == Execute(rt, PyFloat(rt.timestamp(d).value), IntType)
    ensures rt.timestamp(d).Raised? ==>
              && Execute(rt, PyDatetime(d), FloatType) == WrapValueError(Raised(rt.timestamp(d).exc))
              && Execute(rt, PyDatetime(d), IntType) == WrapValueError(Raised(rt.timestamp(d).exc))
  {
  }

  /** `str()` of a container writes the `repr` of its items, so an int past the
      digit limit makes the text of a list holding it fail just as its own text
      does. */
  lemma OversizedIntInList(rt: Runtime, n: int)
    requires !WithinDigitLimit(rt, |ShowNat(Abs(n))|)
    ensures Execute(rt, PyList([PyInt(n)]), StrType) == Execute(rt, PyInt(n), StrType)
    ensures Execute(rt, PyList([PyInt(n)]), StrType).Raised?
  {
    var parts := seq(1, i requires 0 <= i < 1 => Repr(rt, [PyInt(n)][i]));
    assert parts == [IntToStr(rt, n)];
    assert AllOk(parts) == Raised(IntToStr(rt, n).exc);
  }

  /** `int()` strips the white space above ASCII, such as U+00A0. */
  lemma NonAsciiSpaceIsStripped(rt: Runtime)
    ensures Execute(rt, PyStr("\U{A0}5"), IntType) == Ok(PyInt(5))
  {
    var spaced := "\U{A0}5";
    assert TrimStart(spaced) == "5" by { assert spaced[1..] == "5"; }
    assert Strip(spaced) == "5";
    DigitsParse(rt, "5", false);
    assert DigitsValue("5") == 5;
  }

  /** `int()` does not strip the ASCII separator U+001C, although `str.isspace()`
      holds for it. */
  lemma AsciiSeparatorIsNotStripped(rt: Runtime)
    ensures Execute(rt, PyStr("\U{1C}5"), IntType)
            == Raised(ConvertError("invalid literal for int() with base 10: " + Clip(rt.strRepr("\U{1C}5"))))
  {
    var separated := "\U{1C}5";
    assert !IsSpace(separated[0]) && !IsSpace(separated[|separated| - 1]);
    assert Strip(separated) == separated by { assert TrimStart(separated) == separated; }
    assert SplitSign(separated) == (false, separated);
    assert !IsDigit(separated[0]);
  }

  /** `bool()` of a model instance runs its `__bool__` or `__len__`; a `ValueError`
      raised there becomes a `ConvertError`, and any other exception passes. */
  lemma ModelTruthFailure(rt: Runtime, v: Value)
    requires v.PyModel? && rt.modelTruthy(v).Raised?
    ensures Execute(rt, v, BoolType) == WrapValueError(Raised(rt.modelTruthy(v).exc))
  {
  }

  /** The invalid-literal message quotes at most 200 characters of the text's
      `repr`, however long the text is. */
  lemma InvalidLiteralQuotesAtMost200(rt: Runtime, s: string)
    requires !IsDigitGroups(SplitSign(Strip(s)).1)
    ensures Execute(rt, PyStr(s), IntType)
            == Raised(ConvertError("invalid literal for int() with base 10: " + Clip(rt.strRepr(s))))
    ensures |Execute(rt, PyStr(s), IntType).exc.msg| <= 240
  {
  }
}
