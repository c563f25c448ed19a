/** The optional value used for DynamoDB reads that may find nothing and for
    JavaScript operations that may yield no value. */
module Wrappers {

  datatype Option<+T> = None | Some(value: T)
}
