/** The dynamically typed values that accounting records hold and emit, the
    guards their validating setters apply, and the errors they raise. */
module Values {

  /** A Python value as far as the records inspect it: None, a bool, an int,
      a str, or a datetime.datetime. A datetime carries two numbers, since
      the records use it in two ways: `instant` is its position in seconds on
      its own time line, which subtracting two datetimes compares, and
      `epoch` is the Unix epoch second its "%s" formatting yields, which
      goes through the platform's local time zone. Nothing ties the two
      together: across a change of the local UTC offset they drift apart.
      `aware` tells an offset-aware datetime from a naive one; Python
      refuses to subtract one kind from the other. */
  datatype Value = Null | Bool(b: bool) | Int(i: int) | Str(s: string)
                 | DateTime(instant: int, epoch: int, aware: bool)

  datatype Option<+T> = None | Some(value: T)

  /** What the records raise. */
  datatype Error =
    | ValueError(message: string)       // a validating setter refused a value
    | VersionNotFound(version: string)  // RecordVersionNotFound
    | BadOperands                       // derived-duration arithmetic on stored values raised
    | Unserializable                    // the JSON writer met a datetime

  datatype Result<+T> = Success(value: T) | Failure(error: Error)

  /** The outcome of a setter: it either stores the value or raises. */
  datatype Outcome = Pass | Fail(error: Error)

  const DurationMessage: string := "Duration must be a number"
  const DateMessage: string := "Dates must be datetime.datetime objects"

  /** Python truthiness: None, False, 0 and "" are false; every datetime is true. */
  predicate Truthy(v: Value) {
    match v
    case Null => false
    case Bool(b) => b
    case Int(i) => i != 0
    case Str(s) => s != ""
    case DateTime(_, _, _) => true
  }

  /** The duration setters' type test: an int or a float, and bool counts
      as an int. */
  predicate IsNumber(v: Value) {
    v.Bool? || v.Int?
  }

  /** The integer a number converts to: an int is itself, a bool is 0 or 1. */
  function AsInt(v: Value): int
    requires IsNumber(v)
  {
    if v.Int? then v.i else if v.b then 1 else 0
  }

  /** The duration setters' guard: a truthy value must be a number. */
  predicate AcceptsNumber(v: Value) {
    !Truthy(v) || IsNumber(v)
  }

  /** The timestamp setters' guard: a truthy value must be a datetime. */
  predicate AcceptsDateTime(v: Value) {
    !Truthy(v) || v.DateTime?
  }

  /** How a duration getter returns an accepted stored duration: a falsy
      value comes back as it is, a truthy one as the integer it converts to,
      so an int is unchanged and True becomes 1. */
  function Truncated(d: Value): (r: Value)
    requires AcceptsNumber(d)
    ensures Truthy(r) <==> Truthy(d)
    ensures Truthy(r) ==> r.Int?
    ensures !Truthy(d) ==> r == d
    ensures d.Int? ==> r == d
    ensures d == Bool(true) ==> r == Int(1)
  {
    if Truthy(d) then Int(AsInt(d)) else d
  }

  /** How `map` emits an accepted timestamp: a datetime becomes its epoch
      second, an unset one comes back as it is. */
  function EpochSeconds(t: Value): (r: Value)
    requires AcceptsDateTime(t)
    ensures t.DateTime? ==> r == Int(t.epoch)
    ensures !Truthy(t) ==> r == t
    ensures !r.DateTime?
  {
    if Truthy(t) then Int(t.epoch) else t
  }
}
