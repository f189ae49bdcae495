/** Ranging over a Go map visits its keys in no particular order. */
module Iteration {

  /** The key visited next. */
  method NextKey<T>(left: set<T>) returns (key: T)
    requires left != {}
    ensures key in left
  {
    key :| key in left;
  }
}
