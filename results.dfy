/** Option and Result values, and the failures the compiler can raise. */
module Results {

  datatype Option<+T> = None | Some(value: T)

  /** The ways one compilation can fail; the host turns each into one compiler error. */
  datatype Error =
    | InvalidOperation    // `ScoreConstant.eval` throws for an assignment operator
    | TypeError           // a property read on `undefined`
    | SimplifierFailure   // the external parser/simplifier rejected the placeholder string

  datatype Result<+T> = Ok(value: T) | Err(error: Error)
}
