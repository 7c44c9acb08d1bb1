/** The Option datatype used throughout the model. */
module Wrappers {
  datatype Option<+T> = None | Some(value: T)
}

/**
 * The slice of Python's object model that the `@observe` decorator inspects:
 * values passed as positional or keyword arguments, the declarative
 * `tags_from` / `trace_id_from` dictionaries, `str()`, truthiness,
 * `isinstance` against the collaborator classes, attribute lookup and
 * exceptions.
 */
module PyValues {
  import opened Wrappers

  /** The collaborator classes the Provider looks for with `isinstance`. */
  datatype Cap = LoggerCap | SlackCap | IMetricCap | DogStatsdCap

  /**
   * A Python value. A `Dict` keeps its entries in insertion order, because
   * the resolvers iterate `.items()` and the order of their output follows it.
   * `Obj` is any other object: its class name, the collaborator classes it is
   * an instance of, its attributes (instance and class attributes alike) and
   * the text `str()` gives for it.
   */
  datatype Value =
    | PyNone
    | Bool(b: bool)
    | Int(i: int)
    | Str(s: string)
    | List(items: seq<Value>)
    | Dict(entries: seq<(Value, Value)>)
    | Obj(cls: string, caps: set<Cap>, attrs: map<string, Value>, text: string)

  /** Python truthiness; plain objects are truthy. */
  predicate Truthy(v: Value) {
    match v
    case PyNone => false
    case Bool(b) => b
    case Int(i) => i != 0
    case Str(s) => s != ""
    case List(items) => items != []
    case Dict(entries) => entries != []
    case Obj(_, _, _, _) => true
  }

  /**
   * `d.get(key)` for a string key: the value of the first entry stored under
   * `key`, or None when no entry is. (A dict holds each key once, so the first
   * such entry is the only one.)
   */
  function DictGet(entries: seq<(Value, Value)>, key: string): (v: Value)
    ensures v != PyNone ==> exists k :: 0 <= k < |entries| && entries[k] == (Str(key), v)
    ensures (forall k :: 0 <= k < |entries| ==> entries[k].0 != Str(key)) ==> v == PyNone
  {
    if entries == [] then PyNone
    else if entries[0].0 == Str(key) then entries[0].1
    else
      var v := DictGet(entries[1..], key);
      assert forall k :: 0 < k < |entries| ==> entries[1..][k - 1] == entries[k];
      assert v != PyNone ==> exists k :: 0 <= k < |entries[1..]| && entries[1..][k] == (Str(key), v);
      v
  }

  /** A key that is present is found: `d.get(key)` is the value of the first entry stored under it. */
  lemma {:induction false} DictGetFindsFirst(entries: seq<(Value, Value)>, key: string, k: nat)
    requires k < |entries| && entries[k].0 == Str(key)
    requires forall j :: 0 <= j < k ==> entries[j].0 != Str(key)
    ensures DictGet(entries, key) == entries[k].1
    decreases k
  {
    if k > 0 {
      assert forall j :: 0 <= j < k - 1 ==> entries[1..][j] == entries[j + 1];
      DictGetFindsFirst(entries[1..], key, k - 1);
    }
  }

  /** `kwargs.get(key)`. */
  function KwargGet(kwargs: map<string, Value>, key: string): Value {
    if key in kwargs then kwargs[key] else PyNone
  }

  function Digit(d: nat): char
    requires d < 10
  {
    "0123456789"[d]
  }

  /** Decimal rendering of a natural number. */
  function NatToString(n: nat): (s: string)
    ensures |s| >= 1
    decreases n
  {
    if n < 10 then [Digit(n)] else NatToString(n / 10) + [Digit(n % 10)]
  }

  function IntToString(i: int): string {
    if i < 0 then "-" + NatToString(-i) else NatToString(i)
  }

  function Join(parts: seq<string>, sep: string): string {
    if parts == [] then ""
    else if |parts| == 1 then parts[0]
    else parts[0] + sep + Join(parts[1..], sep)
  }

  /** `repr()`; strings are quoted with single quotes and never escaped. */
  function Repr(v: Value): string
    decreases v
  {
    match v
    case PyNone => "None"
    case Bool(b) => if b then "True" else "False"
    case Int(i) => IntToString(i)
    case Str(s) => "'" + s + "'"
    case List(items) =>
      "[" + Join(seq(|items|, k requires 0 <= k < |items| => Repr(items[k])), ", ") + "]"
    case Dict(entries) =>
      "{" + Join(seq(|entries|, k requires 0 <= k < |entries| =>
                       assert entries[k] in entries;
                       Repr(entries[k].0) + ": " + Repr(entries[k].1)), ", ") + "}"
    case Obj(_, _, _, text) => text
  }

  /** `str()`: a string is its own text, everything else renders as `repr()`. */
  function PyStr(v: Value): (s: string)
    ensures v.Str? ==> s == v.s
  {
    if v.Str? then v.s else Repr(v)
  }

  /**
   * A key or field name written in the decorator's `tags_from` /
   * `trace_id_from` configuration: a string, or any other object, which the
   * resolvers only ever test for being a string and render with `str()`.
   */
  datatype Key = StrKey(s: string) | OtherKey(text: string)

  /** `str(key)`. */
  function KeyText(k: Key): string {
    match k
    case StrKey(s) => s
    case OtherKey(text) => text
  }

  /** `type(v).__name__`. */
  function ClassName(v: Value): string {
    match v
    case PyNone => "NoneType"
    case Bool(_) => "bool"
    case Int(_) => "int"
    case Str(_) => "str"
    case List(_) => "list"
    case Dict(_) => "dict"
    case Obj(cls, _, _, _) => cls
  }

  /** `getattr(v, name)`, or None when the attribute is missing (builtins carry none of interest). */
  function GetAttr(v: Value, name: string): Option<Value> {
    if v.Obj? && name in v.attrs then Some(v.attrs[name]) else None
  }

  /** `isinstance(v, C)` for one of the collaborator classes. */
  predicate IsInstance(v: Value, c: Cap) {
    v.Obj? && c in v.caps
  }

  /** An exception class; classes are compared by identity, modelled as equality of these records. */
  datatype ExcType = ExcType(name: string, uid: nat)

  /** The built-in classes of the exceptions the wrapper itself can raise. */
  const TypeErrorClass: ExcType := ExcType("TypeError", 0)
  const AttributeErrorClass: ExcType := ExcType("AttributeError", 3)

  /** A raised exception object: its exact class and its message. */
  datatype Exc = Exc(kind: ExcType, message: string)

  /** How the wrapped callable ended: it returned a value or raised. */
  datatype Outcome = Returns(value: Value) | Raises(exc: Exc)

  /** How a call of the wrapper ends for its caller. */
  datatype CallResult = Returned(value: Value) | Raised(exc: Exc)
}
