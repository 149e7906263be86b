/**
  The parts of the counts package's records that the pattern engine reads.
  The package itself (reading count files, computing shapes, totals and
  message-size bins) is not part of this model: its results arrive as
  values of these types.
 */
module Counts {
  /** A message-size bin: `size` messages of at least `min` bytes and, when
      `max` is not -1, of fewer than `max` bytes. */
  datatype Bin = Bin(min: int, max: int, size: int)

  /** counts.SendRecvStats, restricted to the fields used here: the call
      total the pattern engine maintains, the shapes and non-zero totals
      of a parsed call, and the size bins. */
  datatype SendRecvStats = SendRecvStats(
    totalNumCalls: int,
    sendPatterns: map<int, int>,
    recvPatterns: map<int, int>,
    totalSendNonZeroCounts: int,
    totalRecvNonZeroCounts: int,
    bins: seq<Bin>)
}
