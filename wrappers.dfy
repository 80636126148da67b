/** An optional value: None stands for an operation of the widget that raises
    (an IndexError from a list lookup, a TypeError from a missing argument). */
module Wrappers {

  datatype Option<+T> = None | Some(value: T) {

    /** The value held, or the given default when there is none */
    function GetOr(default: T): T
    {
      match this
      case Some(v) => v
      case None => default
    }
  }
}
