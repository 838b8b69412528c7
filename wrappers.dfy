/** The nullable values of the client: `User | null`, an optional schema field,
    and a JavaScript date that may be the invalid date. */
module Wrappers {

  datatype Option<+T> = None | Some(value: T)
}
