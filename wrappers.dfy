/** Option, for values the router may or may not have: a file type the
    collaborator did not report, headers a writeHead call did not pass. */
module Wrappers {

  datatype Option<+T> = None | Some(value: T)
}
