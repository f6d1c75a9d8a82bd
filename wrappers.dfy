/** Optional values, for the source's optional fields (`error?`, `rootName?`,
    `nextRun?`) and for parses that may find nothing. */
module Wrappers {

  datatype Option<+T> = None | Some(value: T)
}
