/** Values shared by every part of the calculator model: the failures a command
    can end in, the result wrappers that carry them, and the C++ `int` range. */
module Base {

  /** The recoverable failures the command loop catches and reports. */
  datatype Error =
    | InputError      // an InputException thrown by the calculator itself
    | StreamFailure   // std::ios_base::failure from the command-line stream, whose failbit raises
    | InputExhausted  // the input source yields no further matrix for `eval`

  datatype Option<+T> = None | Some(value: T)

  datatype Result<+T> = Ok(value: T) | Err(error: Error)

  /** The outcome of a command that changes the registry and returns nothing. */
  datatype Outcome = Pass | Fail(error: Error)

  /** A C++ `int`, the type every number on a command line is extracted into. */
  newtype Int32 = x: int | -0x8000_0000 <= x < 0x8000_0000
}
