/**
  The Python values and exceptions that the statistics-volume pipeline handles:
  the dynamic values of a parameter dictionary, their truthiness, their
  rendering in f-strings, and list indexing as Python does it.
 */
module Python {

  datatype Option<+T> = None | Some(value: T)

  /** A value or the exception that computing it raised. */
  datatype Result<+T> = Ok(value: T) | Err(error: Exception)

  /** Success or the exception raised, for code that returns nothing. */
  datatype Outcome = Pass | Fail(error: Exception)

  /** The enumerations of clinica.utils.pet that parameters are coerced to. */
  datatype EnumType = Tracer | SUVRReferenceRegion

  /**
    A value of a parameter dictionary. A float carries the text Python prints
    for it, since Python's shortest-repr algorithm is not part of this model.
    NotANumber is float("nan"), which every comparison answers False.
    A Member is an enumeration member, identified by its `.value`.
   */
  datatype Value =
    | NoneValue
    | Bool(b: bool)
    | Int(i: int)
    | Float(x: real, text: string)
    | NotANumber
    | Str(s: string)
    | Member(enum: EnumType, value: string)

  /** The exceptions the pipeline raises, or that Python raises inside it. */
  datatype Exception =
    | KeyError(message: string)
    | ValueError(message: string)
    | ClinicaException(message: string)
    | TypeError
    | AttributeError(attribute: string)
    | IndexError

  /** bool(v): None, False, zero and the empty string are falsy; enumeration members are truthy. */
  predicate Truthy(v: Value)
  {
    match v
    case NoneValue => false
    case Bool(b) => b
    case Int(i) => i != 0
    case Float(x, _) => x != 0.0
    case NotANumber => true
    case Str(s) => s != ""
    case Member(_, _) => true
  }

  /**
    Python's `numbers` view of a value, as used by `<` against an int: bool,
    int and a float other than NaN compare by their number; NaN compares but
    has no number; nothing else compares.
   */
  function AsNumber(v: Value): Option<real>
  {
    match v
    case Bool(b) => Some(if b then 1.0 else 0.0)
    case Int(i) => Some(i as real)
    case Float(x, _) => Some(x)
    case _ => None
  }

  /** `v.value`: only enumeration members have that attribute. */
  function ValueAttribute(v: Value): (r: Result<string>)
    ensures r.Ok? <==> v.Member?
    ensures r.Ok? ==> r.value == v.value
    ensures r.Err? ==> r.error == AttributeError("value")
  {
    if v.Member? then Ok(v.value) else Err(AttributeError("value"))
  }

  /** The text an f-string inserts for v, which for a value other than a member is also `str(v)`; a member gives its value, whereas `str()` of a member prints its qualified name. */
  function Render(v: Value): string
  {
    match v
    case NoneValue => "None"
    case Bool(b) => if b then "True" else "False"
    case Int(i) => if i < 0 then "-" + NatToString(-i) else NatToString(i)
    case Float(_, text) => text
    case NotANumber => "nan"
    case Str(s) => s
    case Member(_, value) => value
  }

  /** repr(v) for the values an enumeration call quotes: a string in single quotes, anything else as Render gives it. */
  function Repr(v: Value): string
  {
    if v.Str? then "'" + v.s + "'" else Render(v)
  }

  function NatToString(n: nat): string
  {
    if n < 10 then ["0123456789"[n]] else NatToString(n / 10) + ["0123456789"[n % 10]]
  }

  /** `xs[i]` on a Python list or str: a negative index counts from the end; anything else out of range raises. */
  function Index<T>(xs: seq<T>, i: int): (r: Result<T>)
    ensures r.Ok? <==> -|xs| <= i < |xs|
    ensures r.Err? ==> r.error == IndexError
    ensures 0 <= i < |xs| ==> r.value == xs[i]
    ensures -|xs| <= i < 0 ==> r.value == xs[|xs| + i]
  {
    if 0 <= i < |xs| then Ok(xs[i])
    else if -|xs| <= i < 0 then Ok(xs[|xs| + i])
    else Err(IndexError)
  }

  /** s occurs in t. */
  ghost predicate Contains(t: string, s: string)
  {
    exists i :: OccursAt(t, s, i)
  }

  /** s occurs in t at position i. */
  predicate OccursAt(t: string, s: string, i: int)
  {
    0 <= i <= |t| - |s| && t[i..i + |s|] == s
  }

  /** t starts with s. */
  predicate StartsWith(t: string, s: string)
  {
    |s| <= |t| && t[..|s|] == s
  }
}
