/** The dynamically typed Python values that reach the modelled constructors. */
module Values {

  /** A `uuid.UUID`; `text` is its canonical string form, what `str()` returns. */
  datatype Uuid = Uuid(text: string)

  /** A Python value, as far as the modelled code distinguishes values by type. */
  datatype Value =
    | DecimalV(d: real)            // decimal.Decimal
    | NumberV(x: real)             // int or float (float taken as exact)
    | StrV(s: string)
    | DateTimeV(t: int)            // datetime.datetime, as an instant
    | UuidV(u: Uuid)
    | NoneV
    | DictV(entries: map<string, Value>)
    | ListV(items: seq<Value>)     // list
    | OtherV(tag: string)          // any other object

  /** What `isinstance(v, numbers.Number)` answers. */
  predicate IsNumber(v: Value) {
    v.DecimalV? || v.NumberV?
  }
}
