/** Option stands for a C# reference that the source checks for null: None is `null`. */
module Wrappers {

  datatype Option<+T> = None | Some(value: T)
}
