/** A field that may be missing from a request, or a connection that may not exist yet. */
module Opt {

  datatype Option<+T> = None | Some(value: T) {

    /** Reads an optional field with a fallback, the way `dict.get(key, default)`
        does in the server: the stored value wins, the fallback fills a gap. */
    function GetOr(default: T): T {
      if Some? then value else default
    }
  }
}
