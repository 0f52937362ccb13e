/** An optional value: `None` stands for JavaScript's `undefined` (or `null`) wherever the source uses it. */
module Wrappers {

  datatype Option<+T> = None | Some(value: T) {

    /** The value when present, `default` otherwise (JavaScript's `x || default` once falsy values are folded into None). */
    function GetOr(default: T): T {
      match this
      case Some(v) => v
      case None => default
    }
  }
}
