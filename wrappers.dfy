/** The absent-or-present value that stands for JavaScript's `T | undefined`. */
module Wrappers {

  datatype Option<+T> = None | Some(value: T) {

    /** Optional chaining `o?.field`: applies `f` to a present value, stays absent otherwise. */
    function Project<U>(f: T -> U): (r: Option<U>)
      ensures r.None? <==> this.None?
      ensures this.Some? ==> r == Some(f(this.value))
    {
      match this
      case None => None
      case Some(v) => Some(f(v))
    }
  }
}
