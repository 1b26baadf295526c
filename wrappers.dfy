/** The optional-value type used for every nullable or optional field of the model
    (`T | null` and `field?: T` in the source's type declarations). */
module Wrappers {

  datatype Option<+T> = None | Some(value: T)
  {
    /** The value when present, else the given default. */
    function GetOr(default: T): T
    {
      if Some? then value else default
    }
  }
}
