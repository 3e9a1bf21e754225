/** The `Partial<Row>` objects the update services receive. For each column a
    key is either absent, present with the value `undefined`, or present with
    a value. An `undefined` value is dropped when the object is serialised, so
    it writes nothing; the services refuse it outright for required columns. */
module Patches {
  datatype Patch<T> = Absent | Undefined | Present(value: T)

  /** The column's value after the update. */
  function Apply<T>(current: T, p: Patch<T>): (r: T)
    ensures p.Present? ==> r == p.value
    ensures !p.Present? ==> r == current
  {
    if p.Present? then p.value else current
  }
}
