/** The runtime values, target types, exceptions and injected library behaviour
    that the conversion dispatcher works over. */
module Values {

  datatype Option<+T> = None | Some(value: T)

  /** A Python float, kept as its IEEE-754 binary64 bit pattern. */
  datatype Float = Float(bits: bv64)

  /** A `datetime.datetime`, naive or aware. Its calendar fields are never inspected by the
      dispatcher: every operation on it is supplied by the `Runtime`. */
  type Datetime(==, !new)

  /** A subclass of `BaseModel`, identified by its defining module and its name. */
  datatype ModelClass = ModelClass(moduleName: string, name: string)

  /** The source kinds the dispatcher recognises. */
  datatype Value =
    | PyNone
    | PyBool(b: bool)
    | PyInt(i: int)
    | PyFloat(f: Float)
    | PyStr(s: string)
    | PyDatetime(d: Datetime)
    | PyList(items: seq<Value>)
    | PyTuple(items: seq<Value>)
      /** A dict, as its (key, value) pairs in insertion order. The keys of a dict
          Python builds are hashable and pairwise unequal; a sequence that breaks
          this stands for no dict. */
    | PyDict(entries: seq<(Value, Value)>)
      /** An instance of a model class, with its field values. */
    | PyModel(cls: ModelClass, fields: seq<(string, Value)>)

  /** The requested target class. `Other` is any class the dispatcher does not route
      (for instance `dict` or a class that is not a `BaseModel` subclass). */
  datatype Target =
    | StrType
    | IntType
    | FloatType
    | BoolType
    | DatetimeType
    | ListType
    | TupleType
    | SetType
    | ModelType(cls: ModelClass)
    | OtherType(name: string)

  /** The exceptions that matter to the dispatcher. `ValueError` stands for
      `ValueError` and its subclasses. */
  datatype Exception =
    | ValueError(msg: string)
    | TypeError(msg: string)
    | OverflowError(msg: string)
    | NotImplementedError(msg: string)
    | ConvertError(msg: string)
    | OtherError(kind: string, msg: string)

  /** Either a returned value or a raised exception. */
  datatype Outcome<+T> = Ok(value: T) | Raised(exc: Exception) {
    function MapOk<U>(f: T -> U): (r: Outcome<U>)
      ensures r.Ok? <==> Ok?
      ensures Ok? ==> r.value == f(value)
      ensures Raised? ==> r.exc == exc
    {
      match this
      case Ok(v) => Ok(f(v))
      case Raised(e) => Raised(e)
    }
  }

  /** A value `sys.set_int_max_str_digits()` accepts: 0 means no limit, and any
      other limit is at least 640 digits. */
  type DigitLimit = n: nat | n == 0 || n >= 640

  /** Library behaviour the dispatcher calls but that is not part of this model:
      Python builtins on floats and datetimes, `repr` of strings, and the
      `BaseModel` class methods and protocols (`str` and `repr` included). */
  datatype Runtime = Runtime(
    /** `repr(x)` of a float, which is also its `str(x)` */
    floatRepr: Float -> string,
    /** `repr(s)` of a string, as written inside containers and error messages */
    strRepr: string -> string,
    /** `str(d)` of a datetime; only the generic `str()` uses it, since `to_str`
        has a rule of its own for datetimes */
    datetimeStr: Datetime -> string,
    /** `repr(d)` of a datetime */
    datetimeRepr: Datetime -> string,
    /** `str(m)` of a model instance */
    modelStr: Value -> Outcome<string>,
    /** `repr(m)` of a model instance */
    modelRepr: Value -> Outcome<string>,
    /** `sys.get_int_max_str_digits()` */
    maxStrDigits: DigitLimit,
    /** `d.isoformat()` */
    isoFormat: Datetime -> string,
    /** `datetime.fromisoformat(s)` */
    fromIsoFormat: string -> Outcome<Datetime>,
    /** `d.timestamp()` */
    timestamp: Datetime -> Outcome<Float>,
    /** `datetime.fromtimestamp(n)` for an int */
    fromTimestampInt: int -> Outcome<Datetime>,
    /** `datetime.fromtimestamp(x)` for a float */
    fromTimestampFloat: Float -> Outcome<Datetime>,
    /** `int(x)` for a float (truncation) */
    floatToInt: Float -> Outcome<int>,
    /** `float(n)` for an int */
    intToFloat: int -> Outcome<Float>,
    /** `float(s)` for a string */
    parseFloat: string -> Outcome<Float>,
    /** `issubclass(a, b)` between model classes */
    isSubclass: (ModelClass, ModelClass) -> bool,
    /** `cls.from_dict(entries)` */
    fromDict: (ModelClass, seq<(Value, Value)>) -> Outcome<Value>,
    /** `cls.from_list(value)` */
    fromList: (ModelClass, Value) -> Outcome<Value>,
    /** `bool(m)` of a model instance, which runs its `__bool__` or `__len__` and
        may raise */
    modelTruthy: Value -> Outcome<bool>,
    /** `list(iter(m))` of a model instance */
    modelIter: Value -> Outcome<seq<Value>>,
    /** whether `hash(m)` succeeds for a model instance */
    modelHashable: Value -> bool
  )

  /** `isinstance(v, cls)` for a model class. */
  predicate IsInstance(rt: Runtime, v: Value, cls: ModelClass) {
    v.PyModel? && rt.isSubclass(v.cls, cls)
  }

  /** Every class is a subclass of itself, so an instance is an instance of its own class. */
  ghost predicate SubclassReflexive(rt: Runtime) {
    forall c :: rt.isSubclass(c, c)
  }

  /** `from_dict` and `from_list` build instances of the class they are called on. */
  ghost predicate BuildsInstances(rt: Runtime) {
    && (forall c, d :: rt.fromDict(c, d).Ok? ==> IsInstance(rt, rt.fromDict(c, d).value, c))
    && (forall c, v :: rt.fromList(c, v).Ok? ==> IsInstance(rt, rt.fromList(c, v).value, c))
  }
}
