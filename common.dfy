/** Shared vocabulary of the model: Java's nullable references, the application's
    exception types, repository answers and 32-bit integer arithmetic. */
module Common {

  /** A Java reference that may be `null`. */
  datatype Option<+T> = None | Some(value: T)

  /** A call that either returns a value or throws one of the application's exceptions. */
  datatype Result<+T, +E> = Ok(value: T) | Err(error: E)

  /** The application's exception hierarchy (package `exceptions`), each with its message. */
  datatype Failure =
    | Validation(message: string)
    | Conflict(message: string)
    | NotFound(message: string)
    | DataAccess(message: string)
    | Authentication(message: string)

  /** What a JDBC repository lookup hands back: a row, `null`, or an `SQLException`. */
  datatype Lookup<+T> = Found(value: T) | Absent | SqlError

  /** A repository seen as a table of answers; a key the table does not list has no row. */
  function Fetch<K, T>(table: map<K, Lookup<T>>, key: K): (r: Lookup<T>)
    ensures key !in table ==> r == Absent
    ensures key in table ==> r == table[key]
  {
    if key in table then table[key] else Absent
  }

  const INT_MIN: int := -0x8000_0000
  const INT_MAX: int := 0x7fff_ffff

  /** The range of a Java `int` / `Integer`. */
  predicate IsInt32(x: int) {
    INT_MIN <= x <= INT_MAX
  }

  /** A value of Java type `int`. */
  type Int32 = x: int | INT_MIN <= x <= INT_MAX

  /** Java `int` addition: the mathematical sum reduced to 32 bits, two's complement. */
  function AddInt32(a: int, b: int): (r: int)
    ensures IsInt32(r)
    ensures (r - (a + b)) % 0x1_0000_0000 == 0
    ensures IsInt32(a + b) ==> r == a + b
  {
    (a + b - INT_MIN) % 0x1_0000_0000 + INT_MIN
  }
}
