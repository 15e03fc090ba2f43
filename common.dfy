/** Values shared by the prediction service, the model manager and the configuration:
    failure-compatible wrappers, request values as a JSON decoder delivers them,
    the three credit classes and Python's float() conversion of a request value. */
module Common {

  datatype Option<+T> = None | Some(value: T)

  datatype Result<+T, +E> = Success(value: T) | Failure(error: E) {
    predicate IsFailure() { Failure? }
    function PropagateFailure<U>(): Result<U, E>
      requires Failure?
    {
      Failure(error)
    }
    function Extract(): T
      requires Success?
    {
      value
    }
  }

  /** One value of a decoded JSON request body (objects nested in it are not modelled). */
  datatype Value =
    | Num(r: real)
    | Bool(b: bool)
    | Text(s: string)
    | TextList(items: seq<string>)
    | Null

  /** A decoded request body, or a dictionary built from one: field name to value. */
  type Request = map<string, Value>

  /** The exceptions the core can raise, by kind and by the field they concern. */
  datatype Error =
    | MissingField(field: string)    // the 400 answer of the prediction endpoint
    | NotANumber(field: string)      // float() raised ValueError or TypeError
    | NotAContainer(field: string)   // `name in value` raised TypeError
    | Unhashable(field: string)      // a list used as a dictionary key

  /** dict.get(key, default) */
  function Get(data: Request, key: string, default: Value): Value
  {
    if key in data then data[key] else default
  }

  /** float(v): numbers and booleans convert, everything else raises. */
  function ToFloat(v: Value, field: string): (r: Result<real, Error>)
    ensures r.Failure? <==> !(v.Num? || v.Bool?)
    ensures r.Failure? ==> r.error == NotANumber(field)
    ensures v.Num? ==> r == Success(v.r)
    ensures v.Bool? ==> r == Success(if v.b then 1.0 else 0.0)
  {
    match v
    case Num(x) => Success(x)
    case Bool(b) => Success(if b then 1.0 else 0.0)
    case _ => Failure(NotANumber(field))
  }

  /** float(data.get(key, 0)): an absent key reads as 0. */
  function ReadNumber(data: Request, key: string): (r: Result<real, Error>)
    ensures key !in data ==> r == Success(0.0)
    ensures key in data && data[key].Num? ==> r == Success(data[key].r)
    ensures r.Failure? ==> r.error == NotANumber(key)
  {
    ToFloat(Get(data, key, Num(0.0)), key)
  }

  /** float(data.get(key, 0)) succeeds. */
  predicate Numeric(data: Request, key: string)
  {
    key !in data || data[key].Num? || data[key].Bool?
  }

  /** The three credit classes, in the order the ensemble vote breaks ties. */
  datatype Label = VeryGood | Normal | VeryBad {
    function Name(): string {
      match this
      case VeryGood => "Very_Good"
      case Normal => "Normal"
      case VeryBad => "Very_Bad"
    }
    /** Position in the order Very_Bad < Normal < Very_Good. */
    function Rank(): nat {
      match this
      case VeryBad => 0
      case Normal => 1
      case VeryGood => 2
    }
  }

  /** The class a prediction string names, if it names one. */
  function ParseLabel(s: string): (r: Option<Label>)
    ensures r.Some? ==> r.value.Name() == s
    ensures r.None? ==> s != "Very_Good" && s != "Normal" && s != "Very_Bad"
  {
    if s == "Very_Good" then Some(VeryGood)
    else if s == "Normal" then Some(Normal)
    else if s == "Very_Bad" then Some(VeryBad)
    else None
  }

  lemma ParseLabelName(l: Label)
    ensures ParseLabel(l.Name()) == Some(l)
  {
  }

  /** Python's `needle in hay` on two strings. */
  predicate IsInfix(needle: string, hay: string)
  {
    exists i {:trigger hay[i..]} :: 0 <= i <= |hay| - |needle| && hay[i..][..|needle|] == needle
  }

  /** Python's `name in v`: membership in a list, substring of a string, TypeError otherwise. */
  function Contains(v: Value, name: string, field: string): (r: Result<bool, Error>)
    ensures r.Failure? <==> !(v.TextList? || v.Text?)
    ensures v.TextList? ==> r == Success(name in v.items)
    ensures v.Text? ==> r == Success(IsInfix(name, v.s))
    ensures r.Failure? ==> r.error == NotAContainer(field)
  {
    match v
    case TextList(items) => Success(name in items)
    case Text(s) => Success(IsInfix(name, s))
    case _ => Failure(NotAContainer(field))
  }
}
