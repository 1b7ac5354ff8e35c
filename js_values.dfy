/** The JavaScript values that reach the form validators: the body of a form
    submission or a JSON request, before any schema has looked at it. */
module JsValues {

  datatype Option<+T> = None | Some(value: T)

  datatype Result<+R, +E> = Success(value: R) | Failure(error: E)

  /** A JavaScript value. Numbers are integers (see README, "Left out");
      a `Date` carries its time stamp, or `None` for an Invalid Date.
      A string's length is its number of `char`s, which equals JavaScript's
      UTF-16 length for text inside the Basic Multilingual Plane. */
  datatype JsValue =
    | Undefined
    | Null
    | Bool(b: bool)
    | Num(n: int)
    | Str(s: string)
    | Arr(items: seq<JsValue>)
    | Obj(fields: map<string, JsValue>)
    | Date(time: Option<int>)

  /** The parsed type Zod reports as "received" in an invalid_type issue. */
  datatype JsType =
    | TUndefined
    | TNull
    | TBoolean
    | TNumber
    | TString
    | TArray
    | TObject
    | TDate

  function TypeOf(v: JsValue): JsType
  {
    match v
    case Undefined => TUndefined
    case Null => TNull
    case Bool(_) => TBoolean
    case Num(_) => TNumber
    case Str(_) => TString
    case Arr(_) => TArray
    case Obj(_) => TObject
    case Date(_) => TDate
  }

  /** Property access on an object: a missing key reads as undefined. */
  function Get(fields: map<string, JsValue>, key: string): JsValue
  {
    if key in fields then fields[key] else Undefined
  }

  /** The array whose elements are the given strings. */
  function Strs(xs: seq<string>): (r: seq<JsValue>)
    ensures |r| == |xs|
    ensures forall i :: 0 <= i < |xs| ==> r[i] == Str(xs[i])
  {
    seq(|xs|, i requires 0 <= i < |xs| => Str(xs[i]))
  }
}
