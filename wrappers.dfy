/** An optional value: the absent-or-present fields of the JSON payloads and
    the result of reading text back. */
module Wrappers {

  datatype Option<+T> = None | Some(value: T)
}
