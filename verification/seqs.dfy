/** Small facts about sequences shared by the handlers' state traces. */
module Seqs {

  /** The last element of a non-empty sequence. */
  function Last<T>(xs: seq<T>): T
    requires |xs| > 0
  {
    xs[|xs| - 1]
  }
}
