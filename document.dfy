/** The status document the controller answers on `/rawstatus`, as the polling
    coordinator holds it: a JSON object whose members ("system", "output1",
    "output2", ...) are objects of readings. */
module StatusDocument {
  import Decimal

  /** One reading. Integers, booleans and strings are told apart because the
      setup loop and the display names treat them differently; every other JSON
      value (a float, null, an array, an object) is opaque and carries only the
      text Python's `str()` gives it. */
  datatype Value = Int(i: int) | Bool(b: bool) | Str(s: string) | Other(text: string)

  type Section = map<string, Value>

  type Document = map<string, Section>

  /** The exceptions the core lets escape: a subscript with a missing key, and
      arithmetic on a value that is not an integer. */
  datatype Error = KeyError(key: string) | TypeError

  datatype Option<T> = None | Some(value: T)

  datatype Result<T> = Success(value: T) | Failure(error: Error) {
    predicate IsFailure() {
      Failure?
    }

    function PropagateFailure<U>(): Result<U>
      requires Failure?
    {
      Failure(error)
    }

    function Extract(): T
      requires Success?
    {
      value
    }
  }

  /** `data[section][field]`: Python raises KeyError for the outer key before it
      looks at the inner one. */
  function Lookup(data: Document, section: string, field: string): (r: Result<Value>)
    ensures r.Success? <==> section in data && field in data[section]
    ensures r.Success? ==> r.value == data[section][field]
    ensures section !in data ==> r == Failure(KeyError(section))
    ensures section in data && field !in data[section] ==> r == Failure(KeyError(field))
  {
    if section !in data then Failure(KeyError(section))
    else if field !in data[section] then Failure(KeyError(field))
    else Success(data[section][field])
  }

  /** The text an f-string puts in place of a value (Python's `str()`). */
  function Render(v: Value): (r: string)
    ensures v.Int? && v.i >= 0 ==> Decimal.IsDigits(r) && Decimal.ParseNat(r) == v.i
    ensures v.Int? && v.i < 0 ==> |r| > 1 && r[0] == '-' && Decimal.IsDigits(r[1..]) && Decimal.ParseNat(r[1..]) == -v.i
    ensures v.Int? ==> |r| > 0
    ensures v.Int? && v.i == 0 ==> r == "0"
    ensures v.Int? && v.i > 0 ==> r[0] != '0'
    ensures v.Int? && v.i < 0 ==> r[1] != '0'
    ensures v.Bool? ==> r == (if v.b then "True" else "False")
    ensures v.Str? ==> r == v.s
  {
    match v
    case Int(i) => Decimal.IntToString(i)
    case Bool(b) => if b then "True" else "False"
    case Str(s) => s
    case Other(text) => text
  }
}
