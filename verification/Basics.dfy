/** Small shared vocabulary: an optional value, byte strings, and the clock. */
module Basics {

  datatype Option<+T> = None | Some(value: T)

  /** A C++ char seen as an unsigned byte; strings of the encoders are byte strings. */
  type byte = c: char | c as int < 256 witness 'a'

  type bytes = seq<byte>

  /** Milliseconds on the one monotone clock of the model. */
  type Time = nat
}
