# Type-directed value conversion (fastructure `Converter`)

This project models the conversion dispatcher of the `fastructure` structured-model
library. A model field that is assigned a raw value passes it through
`Converter(value, to_type).execute()`. `_execute` routes on the target class to one of
the converters for `str`, `int`, `float`, `bool`, `datetime`, `list`, `tuple` and
`BaseModel` subclasses. Each converter then picks a rule by the runtime type of the
source value: one of its `singledispatchmethod` registrations, or its default.
`execute` re-raises every `ValueError` as a `ConvertError` with the same message and
lets every other exception through.

The dispatcher holds no state, so the model is pure. It is made of functions over two
datatypes:

- `Values.Value` holds the source kinds: `None`, bool, int, float, str, datetime, list,
  tuple, dict and model instance.
- `Values.Target` holds the target classes: the routed ones, `set`, and `OtherType` for
  every class that is not routed.

A result is an `Outcome`: either `Ok(value)` or `Raised(exception)`. Single dispatch is
written as an explicit `match`, one arm per registration, in the order the method
resolution order gives. `bool` is a subclass of `int`, so in `to_int`, `to_float` and
`to_datetime` a bool source takes the rule an int takes: the default rule of `to_int`
and `to_float`, and the `int` registration of `to_datetime`. Only `to_str` has a rule of
its own for bools.

Some behaviour belongs to Python or to the model library and is not part of this model.
It is passed in as a `Values.Runtime` value made of functions:

- `str()` and `repr()` of floats, strings, datetimes and model instances;
- `isoformat`, `fromisoformat`, `timestamp` and `fromtimestamp`;
- `int()` of a float, and `float()` of an int or a string;
- `issubclass` between model classes;
- `BaseModel.from_dict` and `from_list`;
- the truth value, iteration and hashability of model instances, where the truth value
  and iteration may raise.

Some of these are written out concretely instead:

- `str(int)` and `int(str)` in base 10: the white space `int()` strips at both ends
  (ASCII space, `\t`, `\n`, `\v`, `\f` and `\r`, and the white space above ASCII), one
  sign, digit groups separated by underscores, and the `sys.set_int_max_str_digits`
  limit (0 for none, or at least 640 digits);
- `str()` and `repr()` of `None`, bools, ints, lists, tuples and dicts, each container
  written from the `repr` of its items;
- `str.lower()` on ASCII letters;
- truth values (floats by their IEEE-754 bits);
- iteration of str, list, tuple and dict;
- hashability of built-in values;
- the type names CPython prints in `TypeError` messages (`datetime.datetime` for a
  datetime).

Three behaviours of the code can surprise a caller; the model keeps them as written:

- A `set` target is never routed: `to_set` exists but `_execute` never calls it, so a
  `set` target returns the input unchanged.
- `execute` wraps every `ValueError` raised anywhere inside `_execute`. That includes
  one raised by `from_dict` or `from_list` of the model class, not only those of the
  built-in parsers.
- `datetime` conversion from an unsupported source raises `NotImplementedError`, which
  is not wrapped. It does not fail with `ConvertError`.

`fastructure/exceptions.py` is not part of this model. Whether `ConvertError` subclasses
`ValueError` makes no difference to the outcome: re-raising it would give a
`ConvertError` with the same message.

## Model

| member | source | states |
|---|---|---|
| `Converters.ExecuteRaw` | fastructure/converters.py:16-35 | a `set` target or any class that is not routed returns the input value unchanged |
| `Converters.WrapValueError` | fastructure/converters.py:38-41 | a `ValueError` becomes a `ConvertError` with the same message; a success or any other exception is left as it is; the result is never a `ValueError` |
| `Converters.Execute` | fastructure/converters.py:37-41 | `execute` never raises a `ValueError`; it succeeds exactly when `_execute` does; any exception other than `ConvertError` is the one `_execute` raised |
| `Converters.ToBaseModel` | fastructure/converters.py:43-52 | a value that is already an instance of the target class is returned as it is |
| `Converters.ToStr` | fastructure/converters.py:54-68 | a string converts to itself and a datetime to its ISO text; the conversion fails exactly when an int inside the value (the value itself, or an item of a list, tuple or dict at any depth) has more digits than the limit, or the `str`/`repr` of a model instance in it raises; without model instances the failure is a `ValueError`; the text of an int parses back to that int |
| `Converters.ToInt` | fastructure/converters.py:70-76 | an int is kept; a bool takes the default rule and gives 1 or 0; failures on a string are `ValueError`s; a datetime gives `int()` of its timestamp, or the exception `timestamp()` raised |
| `Converters.ToFloat` | fastructure/converters.py:78-84 | a float is kept; a bool takes the default rule and gives `float(1)` or `float(0)`; a datetime gives the outcome of its `timestamp()` |
| `Converters.ToBool` | fastructure/converters.py:86-92 | a bool is kept; a string gives true exactly when it has three letters spelling "yes" in any mix of cases; only a model instance can make it fail, with the exception its truth test raised |
| `Converters.ToDatetime` | fastructure/converters.py:94-109 | a datetime is kept; a source with no registration raises `NotImplementedError("Cannot convert <class '...'> to datetime")` |
| `Converters.ToList` | fastructure/converters.py:111-112 | a list or tuple keeps its items in order; a string gives its characters in order; a dict gives its keys in order; a value that is not iterable raises `TypeError` |
| `Converters.ToTuple` | fastructure/converters.py:114-115 | a list or tuple keeps its items in order; a value that is not iterable raises `TypeError` |
| `Converters.ToSet` | fastructure/converters.py:117-118 | on success the set holds exactly the iterated items, and no more elements than there were items |
| `Converters.IntToStrParsesBack` | fastructure/converters.py:55-72 | `int()` of the text `str()` gives an int returns that int |
| `Builtins.ShowNat` | fastructure/converters.py:55-56 | the text of a natural number is non-empty, all decimal digits, and has no leading zero |
| `Builtins.DigitsValueOfShowNat` | fastructure/converters.py:55-72 | the digits `str()` writes for a natural number denote that number |
| `Builtins.IntToStr` | fastructure/converters.py:55-56 | `str(n)` succeeds exactly when the digit count is within the limit; the text starts with `-` exactly for negative numbers; its only failure is a `ValueError` |
| `Builtins.ReprFailsExactly` | fastructure/converters.py:55-56 | `repr()` of a value fails exactly when an int inside it is past the digit limit or a model instance's `repr` raises; with no model instance inside, the failure is a `ValueError` |
| `Builtins.StrToInt` | fastructure/converters.py:71-72 | every failure of `int(s)` on a string is a `ValueError`; text that is not a sign and digit groups once white space is stripped fails with the invalid-literal message, which quotes `repr(s)` cut to 200 characters |
| `ConverterProperties.PassThroughTargets` | fastructure/converters.py:33-35 | a target outside the routed classes, `set` included, gives back the input |
| `ConverterProperties.SetTargetIsNeverConverted` | fastructure/converters.py:117-118 | `[3, 1, 3]` converted to `set` stays `[3, 1, 3]`, although `to_set` would give `{1, 3}` |
| `ConverterProperties.ConversionYieldsTargetType` | fastructure/converters.py:19-34 | a successful routed conversion has the requested type, for model classes given that `from_dict`/`from_list` build instances |
| `ConverterProperties.IdentityOnTargetType` | fastructure/converters.py:19-34 | a value already of the requested type comes back unchanged |
| `ConverterProperties.ExecuteIsIdempotent` | fastructure/converters.py:43-47 | converting the result of a successful conversion again gives the same result |
| `ConverterProperties.ModelInstanceIsKept` | fastructure/converters.py:44-47 | an instance converted to its own class is returned as it is |
| `ConverterProperties.ModelConstructionChoice` | fastructure/converters.py:48-52 | a value that is not an instance goes to `from_dict` if it is a dict and to `from_list` otherwise |
| `ConverterProperties.ModelBuilderFailures` | fastructure/converters.py:37-52 | a `ValueError` from `from_dict` becomes a `ConvertError`; any other failure reaches the caller unchanged |
| `ConverterProperties.NonStringTruthiness` | fastructure/converters.py:86-88 | a source that is neither a string nor a model instance converts to false exactly when it is `None`, `False`, `0`, `±0.0` or an empty list, tuple or dict, and to true otherwise |
| `ConverterProperties.BoolAndNoneText` | fastructure/converters.py:62-68 | `True` gives "yes", `False` gives "no", `None` gives "" |
| `ConverterProperties.StrToBoolIsCaseInsensitiveYes` | fastructure/converters.py:90-92 | a string converts to `True` exactly when it is "yes" in any mix of cases |
| `ConverterProperties.StrToBoolExamples` | fastructure/converters.py:90-92 | "Yes" and "YES" give true; "no", "maybe" and "" give false |
| `ConverterProperties.BoolTextRoundTrip` | fastructure/converters.py:62-92 | a bool converted to text and back is the same bool |
| `ConverterProperties.IntTextRoundTrip` | fastructure/converters.py:55-72 | an int within the digit limit converted to text and back is the same int |
| `ConverterProperties.OversizedIntText` | fastructure/converters.py:37-56 | an int past the digit limit fails to convert to text with a `ConvertError` |
| `ConverterProperties.MalformedIntText` | fastructure/converters.py:37-72 | "not-a-number" fails to convert to int with a `ConvertError` |
| `ConverterProperties.BoolTextIsNotAnInt` | fastructure/converters.py:62-72 | the text of a bool ("yes"/"no") fails to convert to int with a `ConvertError` |
| `ConverterProperties.BoolSourcesTakeIntRules` | fastructure/converters.py:62-101 | a bool converts to int, float and datetime exactly as 1 or 0 does, but to a different text than 1 or 0 |
| `ConverterProperties.DatetimeSources` | fastructure/converters.py:94-109 | ints and floats are timestamps; strings are ISO text; a datetime is kept; every other source raises `NotImplementedError`, which is not wrapped |
| `ConverterProperties.ConvertErrorOrigin` | fastructure/converters.py:37-41 | `execute` raises `ConvertError(m)` exactly when `_execute` raised `ValueError(m)` or `ConvertError(m)` |
| `ConverterProperties.NoneToIntIsTypeError` | fastructure/converters.py:70-72 | `None` to int is a `TypeError` that is not wrapped |
| `ConverterProperties.NoneToDatetimeIsNotImplemented` | fastructure/converters.py:94-96 | `None` to datetime is `NotImplementedError("Cannot convert <class 'NoneType'> to datetime")`, not wrapped |
| `ConverterProperties.SequenceTargetsKeepItems` | fastructure/converters.py:111-115 | a list or tuple target holds exactly the items iteration yields, in order |
| `ConverterProperties.ListTupleRoundTrip` | fastructure/converters.py:111-115 | a list converted to a tuple keeps its items, and so does a tuple converted to a list |
| `ConverterProperties.ListKeepsOrder` | fastructure/converters.py:111-112 | `[3, 1, 2]` stays `[3, 1, 2]` |
| `ConverterProperties.NonIterableSequenceTarget` | fastructure/converters.py:111-115 | a value that is not iterable raises `TypeError("'<type>' object is not iterable")` for list and tuple targets, not wrapped, where `<type>` is the name CPython prints (`NoneType`, `int`, `datetime.datetime`, ...), cut to 200 characters |
| `ConverterProperties.DatetimeIsNotIterable` | fastructure/converters.py:111-112 | a datetime to list raises `TypeError("'datetime.datetime' object is not iterable")` |
| `ConverterProperties.ModelTruthFailure` | fastructure/converters.py:86-88 | when the truth test of a model instance raises, `to_bool` fails with that exception, a `ValueError` becoming a `ConvertError` |
| `ConverterProperties.InvalidLiteralQuotesAtMost200` | fastructure/converters.py:37-72 | text that is not an integer literal gives a `ConvertError` whose message quotes at most the first 200 characters of the text's `repr`, so it is at most 240 characters long |
| `ConverterProperties.DatetimeSourceOverrides` | fastructure/converters.py:58-84 | a datetime converts to its ISO text, to its timestamp as a float, and to an int exactly as that timestamp float would; a failing `timestamp()` fails both numeric conversions with its own exception |
| `ConverterProperties.OversizedIntInList` | fastructure/converters.py:37-56 | a list holding an int past the digit limit fails to convert to text, with the same error as the int alone |
| `ConverterProperties.NonAsciiSpaceIsStripped` | fastructure/converters.py:70-72 | "\u00a05" converts to the int 5 |
| `ConverterProperties.AsciiSeparatorIsNotStripped` | fastructure/converters.py:37-72 | "\x1c5" fails to convert to int with a `ConvertError`, although `str.isspace()` holds for U+001C |

## Left out

- Datetime internals: `isoformat`, `fromisoformat`, `timestamp` and `fromtimestamp` (including the local time zone) are `Runtime` functions. Only routing and identity are proved about datetimes. The round trips of a datetime through int or text are not stated.
- Floating point: a float is only its bit pattern. `float()` parsing, float-to-text, `int()` of a float and `float()` of an int are `Runtime` functions.
- `BaseModel.from_dict` and `from_list` are `Runtime` functions whose results are taken on trust. That includes any recursive conversion of fields they perform. Idempotence for model targets assumes that they return instances of the class they are called on (`BuildsInstances`).
- `int()` accepts Unicode decimal digits other than `0`-`9`; the model only accepts ASCII digits. For a malformed literal of more than 640 digits, CPython may report the digit limit before it reports the malformed literal; the model always reports the malformed literal.
- `str.lower()` is modelled on ASCII letters only. No character outside ASCII lowers to `y`, `e` or `s`, so the `"yes"` test is unaffected.
- `__int__` and `__float__` defined on a model class are not modelled: a model instance gives the `TypeError` of `int()`/`float()`. Its `str()` and `repr()` come from `Runtime.modelStr` and `Runtime.modelRepr`.
- Containers that hold themselves (printed with `...`) cannot be written as values, so their text is not modelled.
- Builtins.Unhashable: a model instance's `hash()` either succeeds or raises `TypeError`; a `__hash__` that raises another exception is not modelled. Only `to_set` hashes, and `_execute` never calls it.
- Converters.ToSet: uses structural equality of values, not Python's `1 == True == 1.0`, so it does not merge a bool, an int and a float that Python would treat as equal.
- Object identity: "returned as-is" is modelled as returning an equal value.
- Python machinery: the `singledispatchmethod` mechanism itself, the deferred import inside `_execute`, and the `TypeError` that `issubclass` raises for a target that is not a class (such as `list[int]`). Targets are plain classes only. Subclasses of `dict`, `str`, `list` and the other built-in types are not modelled.
- `to_bool`'s default rule tests `self._value` rather than its argument. Both are always the same value, so the model tests the argument.
