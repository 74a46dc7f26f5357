/** What several modules share: optional values and clipping to an interval. */
module Basics {

  datatype Option<+T> = None | Some(value: T)

  function Clip(lo: real, hi: real, x: real): real {
    if x < lo then lo else if x > hi then hi else x
  }
}
