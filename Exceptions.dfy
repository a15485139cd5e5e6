/** The Python exception kinds that the prediction path raises, catches or re-raises. */
module Exceptions {

  // A KeyError carries its argument: the missing key itself for `df[name]`, a
  // message for `df.drop`.

  datatype Error =
    | ValueError(message: string)
    | TypeError(message: string)
    | KeyError(arg: string)
    | IndexError(message: string)
    | AttributeError(message: string)
    | FileNotFoundError(message: string)
    | UnpicklingError(message: string)
}
