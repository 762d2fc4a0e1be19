/** Shared datatypes. */
module Common {

  datatype Option<+T> = None | Some(value: T)

  /** JSON values the model never looks into, kept in serialised form. */
  type Json = string
}
