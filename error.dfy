/**
 * The immutable error record carried by a failed result: a numeric code, a
 * numeric context and an optional shared information string.
 */
module ErrorType {
  import opened Wrappers

  /** The source's 32-bit signed integers. */
  newtype int32 = x: int | -0x8000_0000 <= x < 0x8000_0000

  /** An `Error`; `info` is `None` where the source holds a null string pointer. */
  datatype Error = Error(code: int32, context: int32, info: Option<string>)

  /** `Error(code)`: context and information keep their defaults. */
  function ErrorOfCode(code: int32): (e: Error)
    ensures e.code == code && e.context == 0 && e.info == None
  {
    Error(code, 0, None)
  }

  /** `Error(code, context)`. */
  function ErrorWithContext(code: int32, context: int32): (e: Error)
    ensures e.code == code && e.context == context && e.info == None
  {
    Error(code, context, None)
  }

  /** `Error(code, info)`: the context keeps its default of zero. */
  function ErrorWithInfo(code: int32, info: string): (e: Error)
    ensures e.code == code && e.context == 0 && e.info == Some(info)
  {
    Error(code, 0, Some(info))
  }

  /** `Error(code, context, info)`. */
  function ErrorWithContextAndInfo(code: int32, context: int32, info: string): (e: Error)
    ensures e.code == code && e.context == context && e.info == Some(info)
  {
    Error(code, context, Some(info))
  }

  /** The getters give back exactly what each constructor was given, so two
      errors built the same way are equal and differently built ones differ. */
  lemma ConstructorsAreInjective(c1: int32, x1: int32, i1: string, c2: int32, x2: int32, i2: string)
    ensures ErrorWithContextAndInfo(c1, x1, i1) == ErrorWithContextAndInfo(c2, x2, i2)
            <==> c1 == c2 && x1 == x2 && i1 == i2
    ensures ErrorOfCode(c1) != ErrorWithInfo(c2, i2)
    ensures ErrorWithContext(c1, x1) == ErrorOfCode(c2) <==> c1 == c2 && x1 == 0
  {
  }
}
