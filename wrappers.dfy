/** The optional value used for every "pointer that may be null" of the parser:
    a decoder's `shared_ptr<ModDetails>`, a parse that may fail, an entry that
    may not open. */
module Wrappers {

  datatype Option<+T> = None | Some(value: T)
}
