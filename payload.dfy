/** The payload domain: the values `DataType.instance?` decides about.
    The validator itself lives in an external library; this module fixes a
    closed stand-in for it. */
module Payload {

  /** A Ruby value that is not a Node: nil, a number (Integer or Float), a
      boolean, a Symbol, a String, a Time, or an instance of some other class
      (identified by its class name). */
  datatype Data =
    | Nil
    | Num(value: real)
    | Bool(flag: bool)
    | Sym(name: string)
    | Text(chars: string)
    | Time(stamp: int)
    | Foreign(className: string)

  /** `DataType.instance?`: accepts nil and every scalar payload kind, and
      rejects instances of any other class. */
  predicate IsDataType(d: Data)
  {
    !d.Foreign?
  }

  /** The values a node's `data` attribute may hold. */
  type DataType = d: Data | IsDataType(d) witness Nil
}
