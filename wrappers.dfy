/** The optional-value type used where the app's Kotlin code returns a nullable value. */
module Wrappers {

  datatype Option<+T> = None | Some(value: T)

}
