/** PHP value semantics shared by the modelled templates and handlers. */
module Php {

  /** A string is falsy (and `empty()`) in PHP iff it is "" or "0". */
  predicate Falsy(s: string) {
    s == "" || s == "0"
  }
}
