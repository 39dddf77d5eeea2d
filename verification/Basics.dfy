/** What several of the models share. */
module Basics {

  datatype Option<+T> = None | Some(value: T)

  /** `unsigned char`. */
  type Byte = x: int | 0 <= x < 256

  /** The first `n` of some pieces, one after another. */
  function Joined<T>(pieces: seq<seq<T>>, n: nat): seq<T>
    requires n <= |pieces|
  {
    if n == 0 then [] else Joined(pieces, n - 1) + pieces[n - 1]
  }
}
