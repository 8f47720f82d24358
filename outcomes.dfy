/** Results of the client's operations: a value, or the exception the Ruby code raises. */
module Outcomes {

  datatype Option<+T> = None | Some(value: T)

  /** The exceptions the modelled code can raise. */
  datatype Error =
    | RuntimeError(message: string)   // `raise "..."` with a literal message
    | NoMethodError(name: string)     // a method called on a value whose class lacks it
    | TypeError(message: string)      // an implicit conversion the receiver refuses
    | MashConversionError             // Hashie::Mash.new given something that is not a hash

  /** What a Ruby call ends in: it returns a value or it raises. */
  datatype Outcome<+T> = Returned(value: T) | Raised(error: Error)
}
